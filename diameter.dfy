/** The exhaustive diameter search of the knife annotator's setEndpoints,
    also written out as the spatula recogniser's maxDist (a helper that the
    recogniser defines but never calls): every pair (i, j) with
    i < j is visited in row order, and the current best pair is replaced only
    when a pair is strictly farther away. */
module Diameter {
  import opened Geometry

  /** Pair (i, j) is visited before pair (i0, j0) by the nested loops. */
  predicate VisitedBefore(i: int, j: int, i0: int, j0: int)
  {
    i < i0 || (i == i0 && j < j0)
  }

  /** (i0, j0) is the pair the search settles on: it lies at a positive
      distance, no pair is farther apart, and every pair visited before it is
      strictly closer. */
  predicate IsFirstFarthest<T>(dist: (T, T) -> real, pts: seq<T>, i0: int, j0: int)
  {
    && 0 <= i0 < j0 < |pts|
    && dist(pts[i0], pts[j0]) > 0.0
    && (forall i, j :: 0 <= i < j < |pts| ==> dist(pts[i], pts[j]) <= dist(pts[i0], pts[j0]))
    && (forall i, j :: 0 <= i < j < |pts| && VisitedBefore(i, j, i0, j0) ==>
          dist(pts[i], pts[j]) < dist(pts[i0], pts[j0]))
  }

  /** No pair of points lies at a positive distance: the cloud has fewer
      than two points, or all of them coincide. */
  predicate NoSpread<T>(dist: (T, T) -> real, pts: seq<T>)
  {
    forall i, j :: 0 <= i < j < |pts| ==> dist(pts[i], pts[j]) <= 0.0
  }

  /** What the search knows once it has visited every pair before (i, j):
      `best` bounds all of them, and when an update has fired, (i0, j0) is
      the first of them to attain `best`. */
  predicate Scanned<T>(dist: (T, T) -> real, pts: seq<T>, i: int, j: int,
                       found: bool, i0: int, j0: int, best: real)
  {
    && (forall p, q :: 0 <= p < q < |pts| && VisitedBefore(p, q, i, j) ==> dist(pts[p], pts[q]) <= best)
    && (found ==> 0 <= i0 < j0 < |pts| && VisitedBefore(i0, j0, i, j)
                  && best == dist(pts[i0], pts[j0]) && best > 0.0)
    && (found ==> forall p, q :: 0 <= p < q < |pts| && VisitedBefore(p, q, i0, j0) ==>
                    dist(pts[p], pts[q]) < best)
    && (!found ==> best == 0.0)
  }

  /** The nested loop of setEndpoints and maxDist. `best` plays the part of
      currDistance (squared), and (i0, j0) that of the endpoints; `found`
      records whether the update ever fired. */
  method FarthestPair<T>(dist: (T, T) -> real, pts: seq<T>) returns (found: bool, i0: nat, j0: nat, best: real)
    ensures found ==> IsFirstFarthest(dist, pts, i0, j0) && best == dist(pts[i0], pts[j0])
    ensures !found ==> NoSpread(dist, pts) && best == 0.0
  {
    found, i0, j0, best := false, 0, 0, 0.0;
    var i := 0;
    while i < |pts|
      invariant 0 <= i <= |pts|
      invariant Scanned(dist, pts, i, i + 1, found, i0, j0, best)
    {
      found, i0, j0, best := ScanRow(dist, pts, i, found, i0, j0, best);
      NextRow(dist, pts, i, found, i0, j0, best);
      i := i + 1;
    }
    Finish(dist, pts, found, i0, j0, best);
  }

  /** The inner loop for row i: pairs (i, i + 1) .. (i, |pts| - 1). */
  method ScanRow<T>(dist: (T, T) -> real, pts: seq<T>, i: nat, found: bool, i0: nat, j0: nat, best: real)
    returns (found': bool, i0': nat, j0': nat, best': real)
    requires i < |pts|
    requires Scanned(dist, pts, i, i + 1, found, i0, j0, best)
    ensures Scanned(dist, pts, i, |pts|, found', i0', j0', best')
  {
    found', i0', j0', best' := found, i0, j0, best;
    var j := i + 1;
    while j < |pts|
      invariant i + 1 <= j <= |pts|
      invariant Scanned(dist, pts, i, j, found', i0', j0', best')
    {
      var d := dist(pts[i], pts[j]);
      if d > best' {
        Improve(dist, pts, i, j, found', i0', j0', best');
        found', i0', j0', best' := true, i, j, d;
      } else {
        Keep(dist, pts, i, j, found', i0', j0', best');
      }
      j := j + 1;
    }
  }

  /** Once every pair is visited, the scan state is the search's outcome. */
  lemma Finish<T>(dist: (T, T) -> real, pts: seq<T>, found: bool, i0: int, j0: int, best: real)
    requires Scanned(dist, pts, |pts|, |pts| + 1, found, i0, j0, best)
    ensures found ==> IsFirstFarthest(dist, pts, i0, j0) && best == dist(pts[i0], pts[j0])
    ensures !found ==> NoSpread(dist, pts) && best == 0.0
  {
  }

  /** A pair strictly farther than `best` becomes the new first farthest pair. */
  lemma Improve<T>(dist: (T, T) -> real, pts: seq<T>, i: int, j: int,
                   found: bool, i0: int, j0: int, best: real)
    requires 0 <= i < j < |pts|
    requires Scanned(dist, pts, i, j, found, i0, j0, best)
    requires dist(pts[i], pts[j]) > best
    ensures Scanned(dist, pts, i, j + 1, true, i, j, dist(pts[i], pts[j]))
  {
  }

  /** A pair no farther than `best` changes nothing. */
  lemma Keep<T>(dist: (T, T) -> real, pts: seq<T>, i: int, j: int,
                found: bool, i0: int, j0: int, best: real)
    requires 0 <= i < j < |pts|
    requires Scanned(dist, pts, i, j, found, i0, j0, best)
    requires dist(pts[i], pts[j]) <= best
    ensures Scanned(dist, pts, i, j + 1, found, i0, j0, best)
  {
  }

  /** Finishing row i is the same as starting row i + 1. */
  lemma NextRow<T>(dist: (T, T) -> real, pts: seq<T>, i: int,
                   found: bool, i0: int, j0: int, best: real)
    requires 0 <= i < |pts|
    requires Scanned(dist, pts, i, |pts|, found, i0, j0, best)
    ensures Scanned(dist, pts, i + 1, i + 2, found, i0, j0, best)
  {
  }

  /** The pair the search settles on is unique, so running the search twice
      on the same cloud yields the same endpoints. */
  lemma FirstFarthestUnique<T>(dist: (T, T) -> real, pts: seq<T>, i0: int, j0: int, i1: int, j1: int)
    requires IsFirstFarthest(dist, pts, i0, j0) && IsFirstFarthest(dist, pts, i1, j1)
    ensures i0 == i1 && j0 == j1
  {
  }
}
