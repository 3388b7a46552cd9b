/**
  Lowe's ratio-test filter over the output of a brute-force k-nearest-neighbour
  matcher run with k = 2 (`match_orb_features`).

  The matcher itself is a library call; its output enters the model as a
  sequence with one entry per query descriptor, each entry the list of
  neighbours the matcher found for it, best first.
 */
module Matching {

  /** One match record: the query descriptor's index, the index of the matched
      descriptor of the reference image, and their Hamming distance. */
  datatype DMatch = DMatch(queryIdx: nat, trainIdx: nat, distance: nat)

  /** The neighbours found for one query descriptor. */
  type Neighbours = seq<DMatch>

  /** Unpacking a k-NN entry into `m, n` fails unless it has exactly two
      neighbours; `entry` is the position of the offending entry and `got`
      the number of neighbours it had. */
  datatype MatchError = UnpackError(entry: nat, got: nat)

  datatype Result<T> = Ok(value: T) | Err(error: MatchError)

  /** The ratio test `m.distance < 0.7 * n.distance`, decided in integers. */
  predicate PassesRatioTest(m: DMatch, n: DMatch): (b: bool)
    ensures b <==> (m.distance as real) < 0.7 * (n.distance as real)
  {
    10 * m.distance < 7 * n.distance
  }

  predicate IsPair(e: Neighbours) {
    |e| == 2
  }

  /** Every k-NN entry can be unpacked into a pair `m, n`. */
  predicate AllPairs(knn: seq<Neighbours>) {
    forall i :: 0 <= i < |knn| ==> IsPair(knn[i])
  }

  /** The matches the filter keeps from a well-formed k-NN result, in the order
      in which they are appended: the best candidate of every entry that
      passes the ratio test. */
  function Kept(knn: seq<Neighbours>): (r: seq<DMatch>)
    requires AllPairs(knn)
    ensures |r| <= |knn|
  {
    if knn == [] then []
    else
      var e := knn[|knn| - 1];
      Kept(knn[..|knn| - 1]) + (if PassesRatioTest(e[0], e[1]) then [e[0]] else [])
  }

  /** The positions, in the k-NN result, of the entries whose best candidate
      the filter keeps. */
  function KeptPositions(knn: seq<Neighbours>): (r: seq<nat>)
    requires AllPairs(knn)
  {
    if knn == [] then []
    else
      var e := knn[|knn| - 1];
      KeptPositions(knn[..|knn| - 1]) + (if PassesRatioTest(e[0], e[1]) then [|knn| - 1] else [])
  }

  /** The kept matches are exactly the best candidates `m` of the entries that
      pass the ratio test, in input order: `KeptPositions` is strictly
      increasing, holds a position exactly when that entry passes, and the
      j-th kept match is the first neighbour of the j-th such entry. */
  lemma {:induction false} KeptCharacterised(knn: seq<Neighbours>)
    requires AllPairs(knn)
    ensures |Kept(knn)| == |KeptPositions(knn)|
    ensures forall j :: 0 <= j < |KeptPositions(knn)| ==>
              KeptPositions(knn)[j] < |knn| && Kept(knn)[j] == knn[KeptPositions(knn)[j]][0]
    ensures forall j, k :: 0 <= j < k < |KeptPositions(knn)| ==>
              KeptPositions(knn)[j] < KeptPositions(knn)[k]
    ensures forall i :: 0 <= i < |knn| ==>
              (i in KeptPositions(knn) <==> PassesRatioTest(knn[i][0], knn[i][1]))
  {
    if knn != [] {
      var front := knn[..|knn| - 1];
      assert AllPairs(front) by {
        forall i | 0 <= i < |front| ensures IsPair(front[i]) {
          assert front[i] == knn[i];
        }
      }
      KeptCharacterised(front);
      forall i | 0 <= i < |knn|
        ensures i in KeptPositions(knn) <==> PassesRatioTest(knn[i][0], knn[i][1])
      {
        if i < |knn| - 1 {
          assert front[i] == knn[i];
          assert |knn| - 1 !in KeptPositions(front);
        }
      }
    }
  }

  /** Every kept match is the first neighbour of the entry it came from and
      passes the ratio test against that entry's second neighbour. */
  lemma KeptPassRatioTest(knn: seq<Neighbours>)
    requires AllPairs(knn)
    ensures |KeptPositions(knn)| == |Kept(knn)|
    ensures forall j :: 0 <= j < |Kept(knn)| ==>
              var i := KeptPositions(knn)[j];
              i < |knn| && Kept(knn)[j] == knn[i][0] && PassesRatioTest(Kept(knn)[j], knn[i][1])
  {
    KeptCharacterised(knn);
  }

  /** An entry that fails the ratio test contributes nothing: the matches kept
      from the whole input are those kept from the entries before it followed
      by those kept from the entries after it. */
  lemma {:induction false} KeptSkipsFailingEntry(before: seq<Neighbours>, e: Neighbours, after: seq<Neighbours>)
    requires AllPairs(before) && AllPairs(after) && IsPair(e) && !PassesRatioTest(e[0], e[1])
    ensures AllPairs(before + [e] + after)
    ensures Kept(before + [e] + after) == Kept(before) + Kept(after)
  {
    KeptConcat(before + [e], after);
    assert (before + [e])[..|before|] == before;
  }

  /** The filter distributes over concatenation of k-NN results. */
  lemma {:induction false} KeptConcat(a: seq<Neighbours>, b: seq<Neighbours>)
    requires AllPairs(a) && AllPairs(b)
    ensures AllPairs(a + b)
    ensures Kept(a + b) == Kept(a) + Kept(b)
    decreases |b|
  {
    assert AllPairs(a + b) by {
      forall i | 0 <= i < |a + b| ensures IsPair((a + b)[i]) {
        if i < |a| { assert (a + b)[i] == a[i]; } else { assert (a + b)[i] == b[i - |a|]; }
      }
    }
    if b == [] {
      assert a + b == a;
    } else {
      var front := b[..|b| - 1];
      assert AllPairs(front) by {
        forall i | 0 <= i < |front| ensures IsPair(front[i]) {
          assert front[i] == b[i];
        }
      }
      KeptConcat(a, front);
      assert (a + b)[..|a + b| - 1] == a + front;
      assert (a + b)[|a + b| - 1] == b[|b| - 1];
    }
  }

  /** If the matcher only reports indices that are in range for the two
      keypoint sequences, so does the filter. */
  lemma KeptIndicesInRange(knn: seq<Neighbours>, nQuery: nat, nTrain: nat)
    requires AllPairs(knn)
    requires forall i, k :: 0 <= i < |knn| && 0 <= k < |knn[i]| ==>
               knn[i][k].queryIdx < nQuery && knn[i][k].trainIdx < nTrain
    ensures forall j :: 0 <= j < |Kept(knn)| ==>
              Kept(knn)[j].queryIdx < nQuery && Kept(knn)[j].trainIdx < nTrain
  {
    KeptCharacterised(knn);
    forall j | 0 <= j < |Kept(knn)|
      ensures Kept(knn)[j].queryIdx < nQuery && Kept(knn)[j].trainIdx < nTrain
    {
      var i := KeptPositions(knn)[j];
      assert Kept(knn)[j] == knn[i][0];
    }
  }

  /** `match_orb_features` after the k-NN call: walks the k-NN result in
      order, unpacks each entry into `m, n` and appends `m` to the good
      matches when it passes the ratio test. An entry that does not have
      exactly two neighbours stops the walk with an unpacking error. */
  method FilterGoodMatches(knn: seq<Neighbours>) returns (r: Result<seq<DMatch>>)
    ensures r.Ok? <==> AllPairs(knn)
    ensures r.Ok? ==> r.value == Kept(knn)
    ensures r.Err? ==>
              r.error.entry < |knn| && r.error.got == |knn[r.error.entry]| && r.error.got != 2 &&
              AllPairs(knn[..r.error.entry])
  {
    var good: seq<DMatch> := [];
    var i := 0;
    while i < |knn|
      invariant 0 <= i <= |knn|
      invariant AllPairs(knn[..i])
      invariant good == Kept(knn[..i])
    {
      var e := knn[i];
      if |e| != 2 {
        assert !AllPairs(knn) by { assert !IsPair(knn[i]); }
        return Err(UnpackError(i, |e|));
      }
      var m, n := e[0], e[1];
      if PassesRatioTest(m, n) {
        good := good + [m];
      }
      assert knn[..i + 1][..i] == knn[..i];
      assert knn[..i + 1][i] == e;
      i := i + 1;
    }
    assert knn[..i] == knn;
    return Ok(good);
  }
}
