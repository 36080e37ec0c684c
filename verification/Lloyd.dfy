/** One k-means iteration never increases the total squared distance of the
    samples to their nearest centroids. Real arithmetic stands for floats. */
module Lloyd {
  type Vec = seq<real>

  function Sq(x: real): (s: real)
    ensures s >= 0.0
  {
    x * x
  }

  function L2(u: Vec, v: Vec): (d: real)
    requires |u| == |v|
    ensures d >= 0.0
  {
    if u == [] then 0.0 else L2(u[..|u| - 1], v[..|v| - 1]) + Sq(u[|u| - 1] - v[|v| - 1])
  }

  predicate AllDim(vs: seq<Vec>, d: nat) {
    forall i :: 0 <= i < |vs| ==> |vs[i]| == d
  }

  // ---------- nearest centroid ----------

  /** First of the closest centroids among the first k. */
  function Nearest(cs: seq<Vec>, x: Vec, k: nat): (c: nat)
    requires 0 < k <= |cs| && AllDim(cs, |x|)
    ensures c < k
  {
    if k == 1 then 0
    else
      var c := Nearest(cs, x, k - 1);
      if L2(x, cs[k - 1]) < L2(x, cs[c]) then k - 1 else c
  }

  lemma {:induction false} NearestIsClosest(cs: seq<Vec>, x: Vec, k: nat, c: nat)
    requires 0 < k <= |cs| && AllDim(cs, |x|) && c < k
    ensures L2(x, cs[Nearest(cs, x, k)]) <= L2(x, cs[c])
  {
    hide L2;
    if k > 1 && c < k - 1 { NearestIsClosest(cs, x, k - 1, c); }
  }

  /** Total squared distance of the samples to their nearest of the first k centroids. */
  function Cost(xs: seq<Vec>, cs: seq<Vec>, k: nat, d: nat): real
    requires 0 < k <= |cs| && AllDim(cs, d) && AllDim(xs, d)
  {
    if xs == [] then 0.0
    else
      var x := xs[|xs| - 1];
      Cost(xs[..|xs| - 1], cs, k, d) + L2(x, cs[Nearest(cs, x, k)])
  }

  // ---------- a fixed assignment ----------

  predicate Assignment(xs: seq<Vec>, a: seq<nat>, k: nat) {
    |a| == |xs| && forall i :: 0 <= i < |a| ==> a[i] < k
  }

  /** Total squared distance of the samples to the centroids they are assigned to. */
  function Assigned(xs: seq<Vec>, a: seq<nat>, cs: seq<Vec>, d: nat): real
    requires AllDim(xs, d) && AllDim(cs, d) && Assignment(xs, a, |cs|)
  {
    if xs == [] then 0.0
    else
      var n := |xs| - 1;
      Assigned(xs[..n], a[..n], cs, d) + L2(xs[n], cs[a[n]])
  }

  lemma {:induction false} CostIsLeast(xs: seq<Vec>, a: seq<nat>, cs: seq<Vec>, k: nat, d: nat)
    requires 0 < k <= |cs| && AllDim(cs, d) && AllDim(xs, d) && Assignment(xs, a, k)
    ensures Cost(xs, cs, k, d) <= Assigned(xs, a, cs, d)
  {
    if xs != [] {
      var n := |xs| - 1;
      CostIsLeast(xs[..n], a[..n], cs, k, d);
      NearestIsClosest(cs, xs[n], k, a[n]);
      hide L2;
    }
  }

  lemma {:induction false} NearestAssigned(xs: seq<Vec>, a: seq<nat>, cs: seq<Vec>, k: nat, d: nat)
    requires 0 < k <= |cs| && AllDim(cs, d) && AllDim(xs, d) && Assignment(xs, a, k)
    requires forall i :: 0 <= i < |xs| ==> a[i] == Nearest(cs, xs[i], k)
    ensures Cost(xs, cs, k, d) == Assigned(xs, a, cs, d)
  {
    if xs != [] {
      var n := |xs| - 1;
      NearestAssigned(xs[..n], a[..n], cs, k, d);
      hide L2;
    }
  }

  // ---------- one cluster ----------

  /** Distances of the samples of cluster c to a point v. */
  function Spread(xs: seq<Vec>, a: seq<nat>, c: nat, v: Vec): real
    requires |a| == |xs| && AllDim(xs, |v|)
  {
    if xs == [] then 0.0
    else
      var n := |xs| - 1;
      Spread(xs[..n], a[..n], c, v) + if a[n] == c then L2(xs[n], v) else 0.0
  }

  lemma {:induction false} AssignedMoves(xs: seq<Vec>, a: seq<nat>, cs: seq<Vec>, d: nat, c: nat, v: Vec)
    requires AllDim(xs, d) && AllDim(cs, d) && Assignment(xs, a, |cs|) && c < |cs| && |v| == d
    ensures AllDim(cs[c := v], d)
    ensures Assigned(xs, a, cs[c := v], d) == Assigned(xs, a, cs, d) - Spread(xs, a, c, cs[c]) + Spread(xs, a, c, v)
  {
    if xs != [] {
      var n := |xs| - 1;
      AssignedMoves(xs[..n], a[..n], cs, d, c, v);
      hide L2;
    }
  }

  function Size(a: seq<nat>, c: nat): nat {
    if a == [] then 0 else Size(a[..|a| - 1], c) + if a[|a| - 1] == c then 1 else 0
  }

  /** Sum of coordinate j over cluster c. */
  function CoordSum(xs: seq<Vec>, a: seq<nat>, c: nat, d: nat, j: nat): real
    requires |a| == |xs| && AllDim(xs, d) && j < d
  {
    if xs == [] then 0.0
    else
      var n := |xs| - 1;
      CoordSum(xs[..n], a[..n], c, d, j) + if a[n] == c then xs[n][j] else 0.0
  }

  function CoordSquares(xs: seq<Vec>, a: seq<nat>, c: nat, d: nat, j: nat): real
    requires |a| == |xs| && AllDim(xs, d) && j < d
  {
    if xs == [] then 0.0
    else
      var n := |xs| - 1;
      CoordSquares(xs[..n], a[..n], c, d, j) + if a[n] == c then Sq(xs[n][j]) else 0.0
  }

  /** Squared differences of coordinate j to y over cluster c. */
  function CoordSpread(xs: seq<Vec>, a: seq<nat>, c: nat, d: nat, j: nat, y: real): real
    requires |a| == |xs| && AllDim(xs, d) && j < d
  {
    if xs == [] then 0.0
    else
      var n := |xs| - 1;
      CoordSpread(xs[..n], a[..n], c, d, j, y) + if a[n] == c then Sq(xs[n][j] - y) else 0.0
  }

  /** The squared differences of n numbers to y, from the sums of the numbers and of their squares. */
  function Quadratic(squares: real, sum: real, n: nat, y: real): real {
    squares - 2.0 * y * sum + n as real * (y * y)
  }

  lemma {:induction false} CoordSpreadIs(xs: seq<Vec>, a: seq<nat>, c: nat, d: nat, j: nat, y: real)
    requires |a| == |xs| && AllDim(xs, d) && j < d
    ensures CoordSpread(xs, a, c, d, j, y)
      == Quadratic(CoordSquares(xs, a, c, d, j), CoordSum(xs, a, c, d, j), Size(a, c), y)
  {
    if xs == [] {
      assert Quadratic(0.0, 0.0, 0, y) == 0.0;
    } else {
      var n := |xs| - 1;
      CoordSpreadIs(xs[..n], a[..n], c, d, j, y);
      if a[n] == c {
        OneMoreSquare(CoordSpread(xs[..n], a[..n], c, d, j, y), CoordSquares(xs[..n], a[..n], c, d, j),
                      CoordSum(xs[..n], a[..n], c, d, j), Size(a[..n], c), xs[n][j], y);
      }
      hide Sq, Quadratic;
    }
  }

  lemma OneMoreSquare(spread: real, squares: real, sum: real, n: nat, x: real, y: real)
    requires spread == Quadratic(squares, sum, n, y)
    ensures spread + Sq(x - y) == Quadratic(squares + Sq(x), sum + x, n + 1, y)
  {
    SquareOfDifference(x, y);
    Distribute(sum, x, n, y);
  }

  lemma SquareOfDifference(x: real, y: real)
    ensures Sq(x - y) == Sq(x) - 2.0 * y * x + y * y
  {
  }

  lemma Distribute(s: real, x: real, n: nat, y: real)
    ensures 2.0 * y * (s + x) == 2.0 * y * s + 2.0 * y * x
    ensures (n + 1) as real * (y * y) == n as real * (y * y) + y * y
  {
  }

  /** The mean minimizes the squared differences. */
  lemma MeanIsBest(squares: real, sum: real, n: nat, y: real)
    requires n > 0
    ensures Quadratic(squares, sum, n, sum / n as real) <= Quadratic(squares, sum, n, y)
  {
    var r := n as real;
    var mean := sum / r;
    assert sum == r * mean;
    NonNegative(r, (y - mean) * (y - mean));
    Complete(r, mean, y);
  }

  lemma NonNegative(r: real, s: real)
    requires r >= 0.0 && s >= 0.0
    ensures r * s >= 0.0
  {
  }

  lemma Complete(r: real, mean: real, y: real)
    ensures r * ((y - mean) * (y - mean))
      == (r * (y * y) - 2.0 * y * (r * mean)) - (r * (mean * mean) - 2.0 * mean * (r * mean))
  {
    assert (y - mean) * (y - mean) == y * y - 2.0 * (y * mean) + mean * mean;
    assert r * (y * y - 2.0 * (y * mean) + mean * mean) == r * (y * y) - 2.0 * (r * (y * mean)) + r * (mean * mean);
    assert y * (r * mean) == r * (y * mean);
    assert mean * (r * mean) == r * (mean * mean);
  }

  /** Sum over the first k coordinates of the squared differences to v. */
  function SpreadUpTo(xs: seq<Vec>, a: seq<nat>, c: nat, v: Vec, k: nat): real
    requires |a| == |xs| && AllDim(xs, |v|) && k <= |v|
  {
    if k == 0 then 0.0 else SpreadUpTo(xs, a, c, v, k - 1) + CoordSpread(xs, a, c, |v|, k - 1, v[k - 1])
  }

  lemma {:induction false} NoSamples(a: seq<nat>, c: nat, v: Vec, k: nat)
    requires k <= |v| && a == []
    ensures SpreadUpTo([], a, c, v, k) == 0.0
  {
    if k > 0 { NoSamples(a, c, v, k - 1); }
  }

  lemma {:induction false} OneMoreSample(xs: seq<Vec>, a: seq<nat>, c: nat, v: Vec, k: nat)
    requires xs != [] && |a| == |xs| && AllDim(xs, |v|) && k <= |v|
    ensures var n := |xs| - 1;
      SpreadUpTo(xs, a, c, v, k)
      == SpreadUpTo(xs[..n], a[..n], c, v, k) + if a[n] == c then L2(xs[n][..k], v[..k]) else 0.0
  {
    if k > 0 {
      var n := |xs| - 1;
      OneMoreSample(xs, a, c, v, k - 1);
      assert xs[n][..k][..k - 1] == xs[n][..k - 1] && v[..k][..k - 1] == v[..k - 1];
      hide Sq;
    }
  }

  /** Summing by samples or by coordinates is the same. */
  lemma {:induction false} SpreadByCoords(xs: seq<Vec>, a: seq<nat>, c: nat, v: Vec)
    requires |a| == |xs| && AllDim(xs, |v|)
    ensures Spread(xs, a, c, v) == SpreadUpTo(xs, a, c, v, |v|)
  {
    if xs == [] {
      NoSamples(a, c, v, |v|);
    } else {
      var n := |xs| - 1;
      SpreadByCoords(xs[..n], a[..n], c, v);
      OneMoreSample(xs, a, c, v, |v|);
      assert xs[n][..|v|] == xs[n] && v[..|v|] == v;
      hide L2, SpreadUpTo;
    }
  }

  /** The mean of cluster c, coordinate by coordinate. */
  function Mean(xs: seq<Vec>, a: seq<nat>, c: nat, d: nat): (v: Vec)
    requires |a| == |xs| && AllDim(xs, d) && Size(a, c) > 0
    ensures |v| == d
  {
    seq(d, j requires 0 <= j < d => CoordSum(xs, a, c, d, j) / Size(a, c) as real)
  }

  lemma {:induction false} MeanBelow(xs: seq<Vec>, a: seq<nat>, c: nat, v: Vec, k: nat)
    requires |a| == |xs| && AllDim(xs, |v|) && Size(a, c) > 0 && k <= |v|
    ensures SpreadUpTo(xs, a, c, Mean(xs, a, c, |v|), k) <= SpreadUpTo(xs, a, c, v, k)
  {
    if k > 0 {
      var j, d := k - 1, |v|;
      var m := Mean(xs, a, c, d);
      MeanBelow(xs, a, c, v, j);
      assert m[j] == CoordSum(xs, a, c, d, j) / Size(a, c) as real;
      CoordSpreadIs(xs, a, c, d, j, v[j]);
      CoordSpreadIs(xs, a, c, d, j, m[j]);
      MeanIsBest(CoordSquares(xs, a, c, d, j), CoordSum(xs, a, c, d, j), Size(a, c), v[j]);
      hide CoordSpread, CoordSquares, CoordSum, Size, Quadratic;
    }
  }

  lemma MeanIsClosest(xs: seq<Vec>, a: seq<nat>, c: nat, v: Vec)
    requires |a| == |xs| && AllDim(xs, |v|) && Size(a, c) > 0
    ensures Spread(xs, a, c, Mean(xs, a, c, |v|)) <= Spread(xs, a, c, v)
  {
    SpreadByCoords(xs, a, c, v);
    SpreadByCoords(xs, a, c, Mean(xs, a, c, |v|));
    MeanBelow(xs, a, c, v, |v|);
  }

  // ---------- the iteration ----------

  /** The first i centroids moved to the means of their clusters; empty clusters keep theirs. */
  function Moved(xs: seq<Vec>, a: seq<nat>, cs: seq<Vec>, d: nat, i: nat): (cs2: seq<Vec>)
    requires |a| == |xs| && AllDim(xs, d) && AllDim(cs, d) && i <= |cs|
    ensures AllDim(cs2, d) && |cs2| == |cs|
  {
    if i == 0 then cs
    else
      var cs1 := Moved(xs, a, cs, d, i - 1);
      if Size(a, i - 1) > 0 then cs1[i - 1 := Mean(xs, a, i - 1, d)] else cs1
  }

  lemma {:induction false} MovedDescends(xs: seq<Vec>, a: seq<nat>, cs: seq<Vec>, d: nat, i: nat)
    requires AllDim(xs, d) && AllDim(cs, d) && i <= |cs| && Assignment(xs, a, |cs|)
    ensures Assigned(xs, a, Moved(xs, a, cs, d, i), d) <= Assigned(xs, a, cs, d)
  {
    if i > 0 {
      MovedDescends(xs, a, cs, d, i - 1);
      var cs1, c := Moved(xs, a, cs, d, i - 1), i - 1;
      if Size(a, c) > 0 {
        AssignedMoves(xs, a, cs1, d, c, Mean(xs, a, c, d));
        MeanIsClosest(xs, a, c, cs1[c]);
      }
    }
  }

  function NearestOf(xs: seq<Vec>, cs: seq<Vec>, k: nat, d: nat): (a: seq<nat>)
    requires 0 < k <= |cs| && AllDim(cs, d) && AllDim(xs, d)
    ensures Assignment(xs, a, k)
  {
    seq(|xs|, i requires 0 <= i < |xs| => Nearest(cs, xs[i], k))
  }

  /** Lloyd descent: an assign-and-move iteration over the first k centroids
      does not increase the cost, also when clusters stay empty. */
  lemma LloydDescent(xs: seq<Vec>, cs: seq<Vec>, k: nat, d: nat)
    requires 0 < k <= |cs| && AllDim(cs, d) && AllDim(xs, d)
    ensures Cost(xs, Moved(xs, NearestOf(xs, cs, k, d), cs, d, k), k, d) <= Cost(xs, cs, k, d)
  {
    var a := NearestOf(xs, cs, k, d);
    NearestAssigned(xs, a, cs, k, d);
    MovedDescends(xs, a, cs, d, k);
    CostIsLeast(xs, a, Moved(xs, a, cs, d, k), k, d);
  }
}
