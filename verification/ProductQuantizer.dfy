/** The product quantizer: one codebook per subspace, trained by k-means, and
    codes that name one centroid per subspace. */
module ProductQuantizer {
  import opened Wrappers
  import opened Lloyd

  const PQ_K := 256

  type Code = seq<nat>

  /** Codebooks: per subspace PQ_K centroids of the subspace's dimension. */
  predicate Books(books: seq<seq<Vec>>, subDim: nat) {
    forall m :: 0 <= m < |books| ==> |books[m]| == PQ_K && AllDim(books[m], subDim)
  }

  predicate IsCode(code: Code, mCount: nat) {
    |code| == mCount && forall m :: 0 <= m < |code| ==> code[m] < PQ_K
  }

  lemma Segment(subDim: nat, m: nat, mCount: nat)
    requires m < mCount
    ensures 0 <= m * subDim <= (m + 1) * subDim <= mCount * subDim && (m + 1) * subDim == m * subDim + subDim
  {
    assert mCount * subDim == (m + 1) * subDim + (mCount - (m + 1)) * subDim;
    assert (mCount - (m + 1)) * subDim >= 0;
  }

  /** Subvector m of v. */
  function Sub(v: Vec, m: nat, subDim: nat): (s: Vec)
    requires (m + 1) * subDim <= |v|
    ensures |s| == subDim
  {
    Segment(subDim, m, m + 1);
    v[m * subDim..(m + 1) * subDim]
  }

  // ---------- decoding and distances over whole vectors ----------

  /** The centroids that the first m entries of the code name, one after another. */
  function DecodeUpTo(books: seq<seq<Vec>>, code: Code, subDim: nat, m: nat): (v: Vec)
    requires Books(books, subDim) && IsCode(code, |books|) && m <= |books|
    ensures |v| == m * subDim
  {
    if m == 0 then assert 0 * subDim == 0; []
    else
      Segment(subDim, m - 1, m);
      DecodeUpTo(books, code, subDim, m - 1) + books[m - 1][code[m - 1]]
  }

  function Decoded(books: seq<seq<Vec>>, code: Code, subDim: nat): (v: Vec)
    requires Books(books, subDim) && IsCode(code, |books|)
    ensures |v| == |books| * subDim
  {
    DecodeUpTo(books, code, subDim, |books|)
  }

  /** Distances to the named centroids, subspace by subspace. */
  function Apart(books: seq<seq<Vec>>, v: Vec, code: Code, subDim: nat, m: nat): real
    requires Books(books, subDim) && IsCode(code, |books|) && m <= |books| && |v| == |books| * subDim
  {
    if m == 0 then 0.0
    else
      Segment(subDim, m - 1, |books|);
      Apart(books, v, code, subDim, m - 1) + L2(Sub(v, m - 1, subDim), books[m - 1][code[m - 1]])
  }

  lemma {:induction false} L2Concat(a: Vec, b: Vec, c: Vec, d: Vec)
    requires |a| == |c| && |b| == |d|
    ensures L2(a + b, c + d) == L2(a, c) + L2(b, d)
  {
    if b == [] {
      assert a + b == a && c + d == c;
    } else {
      var n := |b| - 1;
      assert (a + b)[..|a + b| - 1] == a + b[..n] && (c + d)[..|c + d| - 1] == c + d[..n];
      L2Concat(a, b[..n], c, d[..n]);
      hide Sq;
    }
  }

  /** The squared distance to a decoded vector is the sum over the subspaces. */
  lemma {:induction false} DistanceSplits(books: seq<seq<Vec>>, v: Vec, code: Code, subDim: nat, m: nat)
    requires Books(books, subDim) && IsCode(code, |books|) && m <= |books| && |v| == |books| * subDim
    ensures m * subDim <= |v|
    ensures L2(v[..m * subDim], DecodeUpTo(books, code, subDim, m)) == Apart(books, v, code, subDim, m)
  {
    if m == 0 {
      assert 0 * subDim == 0;
    } else {
      Segment(subDim, m - 1, |books|);
      DistanceSplits(books, v, code, subDim, m - 1);
      var cut := (m - 1) * subDim;
      assert v[..m * subDim] == v[..cut] + Sub(v, m - 1, subDim);
      L2Concat(v[..cut], Sub(v, m - 1, subDim), DecodeUpTo(books, code, subDim, m - 1), books[m - 1][code[m - 1]]);
      hide L2;
    }
  }

  // ---------- encoding ----------

  function Encoded(books: seq<seq<Vec>>, v: Vec, subDim: nat): (code: Code)
    requires Books(books, subDim) && |v| == |books| * subDim
    ensures IsCode(code, |books|)
  {
    seq(|books|, m requires 0 <= m < |books| => EncodedAt(books, v, subDim, m))
  }

  function EncodedAt(books: seq<seq<Vec>>, v: Vec, subDim: nat, m: nat): (c: nat)
    requires Books(books, subDim) && |v| == |books| * subDim && m < |books|
    ensures c < PQ_K
  {
    Segment(subDim, m, |books|);
    Nearest(books[m], Sub(v, m, subDim), PQ_K)
  }

  lemma {:induction false} EncodedIsClosest(books: seq<seq<Vec>>, v: Vec, code: Code, subDim: nat, m: nat)
    requires Books(books, subDim) && IsCode(code, |books|) && m <= |books| && |v| == |books| * subDim
    ensures Apart(books, v, Encoded(books, v, subDim), subDim, m) <= Apart(books, v, code, subDim, m)
  {
    if m > 0 {
      Segment(subDim, m - 1, |books|);
      EncodedIsClosest(books, v, code, subDim, m - 1);
      NearestIsClosest(books[m - 1], Sub(v, m - 1, subDim), PQ_K, code[m - 1]);
      hide L2, Nearest;
    }
  }

  /** The code of v decodes at least as close to v as any of the PQ_K^M codes. */
  lemma EncodingIsOptimal(books: seq<seq<Vec>>, v: Vec, code: Code, subDim: nat)
    requires Books(books, subDim) && IsCode(code, |books|) && |v| == |books| * subDim
    ensures L2(v, Decoded(books, Encoded(books, v, subDim), subDim)) <= L2(v, Decoded(books, code, subDim))
  {
    DistanceSplits(books, v, code, subDim, |books|);
    DistanceSplits(books, v, Encoded(books, v, subDim), subDim, |books|);
    EncodedIsClosest(books, v, code, subDim, |books|);
    assert v[..|books| * subDim] == v;
  }

  // ---------- training ----------

  /** Subvector m of every sample. */
  function SubSamples(samples: seq<Vec>, m: nat, subDim: nat, mCount: nat): (xs: seq<Vec>)
    requires m < mCount && AllDim(samples, mCount * subDim)
    ensures |xs| == |samples| && AllDim(xs, subDim)
  {
    Segment(subDim, m, mCount);
    seq(|samples|, i requires 0 <= i < |samples| => Sub(samples[i], m, subDim))
  }

  /** The book after its first k centroids were set to the chosen samples. */
  function Seeded(book: seq<Vec>, xs: seq<Vec>, order: seq<nat>, k: nat): (b: seq<Vec>)
    requires k <= |book| && k <= |order| && forall i :: 0 <= i < |order| ==> order[i] < |xs|
    ensures |b| == |book|
  {
    if k == 0 then book else Seeded(book, xs, order, k - 1)[k - 1 := xs[order[k - 1]]]
  }

  lemma {:induction false} SeededDim(book: seq<Vec>, xs: seq<Vec>, order: seq<nat>, k: nat, d: nat)
    requires k <= |book| && k <= |order| && (forall i :: 0 <= i < |order| ==> order[i] < |xs|)
    requires AllDim(book, d) && AllDim(xs, d)
    ensures AllDim(Seeded(book, xs, order, k), d)
  {
    if k > 0 { SeededDim(book, xs, order, k - 1, d); }
  }

  /** n iterations of assigning and moving. */
  function Iterated(xs: seq<Vec>, book: seq<Vec>, k: nat, d: nat, n: nat): (b: seq<Vec>)
    requires 0 < k <= |book| && AllDim(book, d) && AllDim(xs, d)
    ensures |b| == |book| && AllDim(b, d)
  {
    if n == 0 then book
    else
      var b := Iterated(xs, book, k, d, n - 1);
      Moved(xs, NearestOf(xs, b, k, d), b, d, k)
  }

  /** No iteration makes the codebook worse. */
  lemma {:induction false} TrainingDescends(xs: seq<Vec>, book: seq<Vec>, k: nat, d: nat, i: nat, j: nat)
    requires 0 < k <= |book| && AllDim(book, d) && AllDim(xs, d) && i <= j
    ensures Cost(xs, Iterated(xs, book, k, d, j), k, d) <= Cost(xs, Iterated(xs, book, k, d, i), k, d)
    decreases j
  {
    hide Moved, NearestOf, Cost, AllDim;
    if i < j {
      TrainingDescends(xs, book, k, d, i, j - 1);
      LloydDescent(xs, Iterated(xs, book, k, d, j - 1), k, d);
    }
  }

  lemma {:induction false} NotMoved(xs: seq<Vec>, a: seq<nat>, cs: seq<Vec>, d: nat, i: nat, c: nat)
    requires |a| == |xs| && AllDim(xs, d) && AllDim(cs, d) && i <= c < |cs|
    ensures Moved(xs, a, cs, d, i)[c] == cs[c]
  {
    if i > 0 { NotMoved(xs, a, cs, d, i - 1, c); }
  }

  lemma {:induction false} NotSeeded(book: seq<Vec>, xs: seq<Vec>, order: seq<nat>, k: nat, c: nat)
    requires k <= c < |book| && k <= |order| && forall i :: 0 <= i < |order| ==> order[i] < |xs|
    ensures Seeded(book, xs, order, k)[c] == book[c]
  {
    if k > 0 { NotSeeded(book, xs, order, k - 1, c); }
  }

  /** Seeding and n iterations leave the centroids beyond the first k as they were. */
  lemma {:induction false} UntouchedBeyond(xs: seq<Vec>, book: seq<Vec>, order: seq<nat>, k: nat, d: nat, n: nat, c: nat)
    requires 0 < k <= c < |book| && k <= |order| && (forall i :: 0 <= i < |order| ==> order[i] < |xs|)
    requires AllDim(book, d) && AllDim(xs, d)
    ensures AllDim(Seeded(book, xs, order, k), d)
    ensures Iterated(xs, Seeded(book, xs, order, k), k, d, n)[c] == book[c]
  {
    SeededDim(book, xs, order, k, d);
    if n == 0 {
      NotSeeded(book, xs, order, k, c);
    } else {
      UntouchedBeyond(xs, book, order, k, d, n - 1, c);
      var b := Iterated(xs, Seeded(book, xs, order, k), k, d, n - 1);
      NotMoved(xs, NearestOf(xs, b, k, d), b, d, k, c);
    }
  }

  datatype Outcome<T> = Ok(value: T) | NotTrained | DimMismatch

  method Distance(u: Vec, v: Vec) returns (d: real)
    requires |u| == |v|
    ensures d == L2(u, v)
  {
    d := 0.0;
    for j := 0 to |u|
      invariant d == L2(u[..j], v[..j])
    {
      assert u[..j + 1][..j] == u[..j] && v[..j + 1][..j] == v[..j];
      d := d + (u[j] - v[j]) * (u[j] - v[j]);
    }
    assert u[..|u|] == u && v[..|v|] == v;
  }

  /** First of the closest centroids; `best` starts above every distance. */
  method FindNearest(cs: seq<Vec>, x: Vec, k: nat) returns (bestC: nat)
    requires 0 < k <= |cs| && AllDim(cs, |x|)
    ensures bestC == Nearest(cs, x, k)
  {
    var best: Option<real> := None;
    bestC := 0;
    for c := 0 to k
      invariant c == 0 ==> best.None? && bestC == 0
      invariant c > 0 ==> bestC == Nearest(cs, x, c) && best == Some(L2(x, cs[bestC]))
    {
      var d := Distance(x, cs[c]);
      hide L2;
      if best.None? || d < best.value { best, bestC := Some(d), c; }
    }
  }

  /** Sums and sizes of the clusters, as the update step accumulates them. */
  method ClusterSums(xs: seq<Vec>, a: seq<nat>, k: nat, d: nat) returns (sums: array2<real>, counts: array<nat>)
    requires AllDim(xs, d) && Assignment(xs, a, k)
    ensures fresh(sums) && fresh(counts) && sums.Length0 == k && sums.Length1 == d && counts.Length == k
    ensures forall c :: 0 <= c < k ==> counts[c] == Size(a, c)
    ensures forall c, j :: 0 <= c < k && 0 <= j < d ==> sums[c, j] == CoordSum(xs, a, c, d, j)
  {
    sums := new real[k, d]((c, j) => 0.0);
    counts := new nat[k](c => 0);
    for i := 0 to |xs|
      invariant forall c :: 0 <= c < k ==> counts[c] == Size(a[..i], c)
      invariant forall c, j :: 0 <= c < k && 0 <= j < d ==> sums[c, j] == CoordSum(xs[..i], a[..i], c, d, j)
    {
      ghost var xs1, a1 := xs[..i + 1], a[..i + 1];
      assert xs1[..i] == xs[..i] && a1[..i] == a[..i];
      var c0 := a[i];
      counts[c0] := counts[c0] + 1;
      for j := 0 to d
        invariant forall c :: 0 <= c < k ==> counts[c] == Size(a1, c)
        invariant forall c, l :: 0 <= c < k && 0 <= l < d ==>
          sums[c, l] == if c == c0 && l < j then CoordSum(xs1, a1, c, d, l) else CoordSum(xs[..i], a[..i], c, d, l)
      {
        sums[c0, j] := sums[c0, j] + xs[i][j];
      }
      forall c, l | 0 <= c < k && 0 <= l < d && c != c0
        ensures CoordSum(xs1, a1, c, d, l) == CoordSum(xs[..i], a[..i], c, d, l)
      {
      }
    }
    assert xs[..|xs|] == xs && a[..|a|] == a;
  }

  /** One iteration: assign every sample, then move the centroids of the nonempty clusters. */
  method Iterate(xs: seq<Vec>, book: seq<Vec>, k: nat, d: nat) returns (moved: seq<Vec>)
    requires 0 < k <= |book| && AllDim(book, d) && AllDim(xs, d)
    ensures moved == Moved(xs, NearestOf(xs, book, k, d), book, d, k)
    ensures Cost(xs, moved, k, d) <= Cost(xs, book, k, d)
  {
    var a: seq<nat> := [];
    for i := 0 to |xs|
      invariant |a| == i && forall l :: 0 <= l < i ==> a[l] == Nearest(book, xs[l], k)
    {
      var c := FindNearest(book, xs[i], k);
      a := a + [c];
    }
    assert a == NearestOf(xs, book, k, d);
    var sums, counts := ClusterSums(xs, a, k, d);
    moved := book;
    for c := 0 to k
      invariant moved == Moved(xs, a, book, d, c)
      invariant forall i :: 0 <= i < k ==> counts[i] == Size(a, i)
      invariant forall i, j :: 0 <= i < k && 0 <= j < d ==> sums[i, j] == CoordSum(xs, a, i, d, j)
    {
      if counts[c] > 0 {
        var mean := RowMean(sums, c, counts[c]);
        assert mean == Mean(xs, a, c, d);
        moved := moved[c := mean];
      }
    }
    LloydDescent(xs, book, k, d);
  }

  method RowMean(sums: array2<real>, c: nat, n: nat) returns (v: Vec)
    requires c < sums.Length0 && n > 0
    ensures |v| == sums.Length1 && forall j :: 0 <= j < |v| ==> v[j] == sums[c, j] / n as real
  {
    v := [];
    for j := 0 to sums.Length1
      invariant |v| == j && forall l :: 0 <= l < j ==> v[l] == sums[c, l] / n as real
    {
      v := v + [sums[c, j] / n as real];
    }
  }

  class Quantizer {
    const dim: nat
    const mCount: nat
    const subDim: nat
    var trained: bool
    var codebooks: seq<seq<Vec>>

    predicate Valid()
      reads this
    {
      dim == mCount * subDim && |codebooks| == mCount && Books(codebooks, subDim)
    }

    constructor (mCount: nat, subDim: nat)
      ensures Valid() && !trained && this.mCount == mCount && this.subDim == subDim
    {
      this.mCount, this.subDim, dim, trained := mCount, subDim, mCount * subDim, false;
      codebooks := seq(mCount, m => seq(PQ_K, c => seq(subDim, j => 0.0)));
    }

    /** `orders` are the shuffles of the sample indices, one per subspace. */
    method Train(samples: seq<Vec>, nIter: nat, orders: seq<seq<nat>>) returns (r: Outcome<()>)
      requires Valid() && AllDim(samples, if samples == [] then 0 else |samples[0]|) && |orders| == mCount
      requires forall m :: 0 <= m < mCount ==>
        |orders[m]| == |samples| && forall i :: 0 <= i < |samples| ==> orders[m][i] < |samples|
      modifies this
      ensures Valid()
      ensures r.DimMismatch? <==> samples != [] && |samples[0]| != dim
      ensures samples == [] || r != Ok(()) ==> codebooks == old(codebooks) && trained == old(trained)
      ensures samples != [] && r == Ok(()) ==>
        && trained && AllDim(samples, dim)
        && forall m :: 0 <= m < mCount ==> codebooks[m] == Trained(old(codebooks)[m], SubSamples(samples, m, subDim, mCount), orders[m], subDim, nIter)
    {
      if samples == [] { return Ok(()); }
      if |samples[0]| != dim { return DimMismatch; }
      for m := 0 to mCount
        invariant Valid() && trained == old(trained)
        invariant forall l :: 0 <= l < m ==>
          codebooks[l] == Trained(old(codebooks)[l], SubSamples(samples, l, subDim, mCount), orders[l], subDim, nIter)
        invariant forall l :: m <= l < mCount ==> codebooks[l] == old(codebooks)[l]
      {
        var xs := Extract(samples, m);
        var book := TrainBook(codebooks[m], xs, orders[m], nIter);
        codebooks := codebooks[m := book];
      }
      trained := true;
      return Ok(());
    }

    method Extract(samples: seq<Vec>, m: nat) returns (xs: seq<Vec>)
      requires Valid() && m < mCount && AllDim(samples, dim)
      ensures xs == SubSamples(samples, m, subDim, mCount)
    {
      Segment(subDim, m, mCount);
      xs := [];
      for i := 0 to |samples|
        invariant |xs| == i && forall l :: 0 <= l < i ==> xs[l] == Sub(samples[l], m, subDim)
      {
        xs := xs + [samples[i][m * subDim..(m + 1) * subDim]];
      }
    }

    method TrainBook(book: seq<Vec>, xs: seq<Vec>, order: seq<nat>, nIter: nat) returns (b: seq<Vec>)
      requires |book| == PQ_K && AllDim(book, subDim) && xs != [] && AllDim(xs, subDim)
      requires |order| == |xs| && forall i :: 0 <= i < |order| ==> order[i] < |xs|
      ensures b == Trained(book, xs, order, subDim, nIter)
    {
      var k := if PQ_K < |xs| then PQ_K else |xs|;
      b := book;
      for c := 0 to k
        invariant b == Seeded(book, xs, order, c)
      {
        b := b[c := xs[order[c]]];
      }
      SeededDim(book, xs, order, k, subDim);
      ghost var seeded := b;
      for iter := 0 to nIter
        invariant b == Iterated(xs, seeded, k, subDim, iter)
      {
        b := Iterate(xs, b, k, subDim);
      }
    }

    method Encode(v: Vec) returns (r: Outcome<Code>)
      requires Valid()
      ensures r.NotTrained? <==> !trained
      ensures r.DimMismatch? <==> trained && |v| != dim
      ensures r.Ok? ==> r.value == Encoded(codebooks, v, subDim)
      ensures r.Ok? ==> forall code :: IsCode(code, mCount) ==>
        L2(v, Decoded(codebooks, r.value, subDim)) <= L2(v, Decoded(codebooks, code, subDim))
    {
      if !trained { return NotTrained; }
      if |v| != dim { return DimMismatch; }
      var code: Code := [];
      for m := 0 to mCount
        invariant |code| == m && forall l :: 0 <= l < m ==> code[l] == EncodedAt(codebooks, v, subDim, l)
      {
        Segment(subDim, m, mCount);
        var c := FindNearest(codebooks[m], v[m * subDim..(m + 1) * subDim], PQ_K);
        code := code + [c];
      }
      assert code == Encoded(codebooks, v, subDim);
      forall other | IsCode(other, mCount)
        ensures L2(v, Decoded(codebooks, code, subDim)) <= L2(v, Decoded(codebooks, other, subDim))
      {
        EncodingIsOptimal(codebooks, v, other, subDim);
      }
      return Ok(code);
    }

    method Decode(code: Code) returns (v: Vec)
      requires Valid() && IsCode(code, mCount)
      ensures v == Decoded(codebooks, code, subDim)
    {
      v := [];
      assert 0 * subDim == 0;
      for m := 0 to mCount
        invariant v == DecodeUpTo(codebooks, code, subDim, m)
      {
        ghost var before := v;
        for j := 0 to subDim
          invariant v == before + codebooks[m][code[m]][..j]
        {
          v := v + [codebooks[m][code[m]][j]];
        }
      }
    }

    /** table[m][c] is the distance from subvector m of the query to centroid c. */
    method PrecomputeAdc(query: Vec) returns (table: seq<seq<real>>)
      requires Valid() && |query| == dim
      ensures IsTable(codebooks, query, subDim, table)
    {
      table := [];
      for m := 0 to mCount
        invariant |table| == m && forall l :: 0 <= l < m ==> IsRow(codebooks, query, subDim, l, table[l])
      {
        Segment(subDim, m, mCount);
        var row: seq<real> := [];
        for c := 0 to PQ_K
          invariant |row| == c && forall i :: 0 <= i < c ==> row[i] == L2(Sub(query, m, subDim), codebooks[m][i])
        {
          var d := Distance(query[m * subDim..(m + 1) * subDim], codebooks[m][c]);
          row := row + [d];
        }
        table := table + [row];
      }
    }

    /** Summing table entries gives the squared distance to the decoded vector. */
    method AdcDistance(table: seq<seq<real>>, code: Code, ghost query: Vec) returns (dist: real)
      requires Valid() && |query| == dim && IsCode(code, mCount) && IsTable(codebooks, query, subDim, table)
      ensures dist == L2(query, Decoded(codebooks, code, subDim))
    {
      dist := 0.0;
      for m := 0 to mCount
        invariant dist == Apart(codebooks, query, code, subDim, m)
      {
        assert IsRow(codebooks, query, subDim, m, table[m]);
        dist := dist + table[m][code[m]];
      }
      DistanceSplits(codebooks, query, code, subDim, mCount);
      assert query[..mCount * subDim] == query;
    }
  }

  predicate IsRow(books: seq<seq<Vec>>, query: Vec, subDim: nat, m: nat, row: seq<real>)
    requires Books(books, subDim) && m < |books| && |query| == |books| * subDim
  {
    Segment(subDim, m, |books|);
    |row| == PQ_K && forall c :: 0 <= c < PQ_K ==> row[c] == L2(Sub(query, m, subDim), books[m][c])
  }

  predicate IsTable(books: seq<seq<Vec>>, query: Vec, subDim: nat, table: seq<seq<real>>)
    requires Books(books, subDim) && |query| == |books| * subDim
  {
    |table| == |books| && forall m :: 0 <= m < |books| ==> IsRow(books, query, subDim, m, table[m])
  }

  /** A codebook after seeding and n iterations. */
  function Trained(book: seq<Vec>, xs: seq<Vec>, order: seq<nat>, d: nat, n: nat): seq<Vec>
    requires |book| == PQ_K && AllDim(book, d) && xs != [] && AllDim(xs, d)
    requires |order| == |xs| && forall i :: 0 <= i < |order| ==> order[i] < |xs|
  {
    var k := if PQ_K < |xs| then PQ_K else |xs|;
    SeededDim(book, xs, order, k, d);
    Iterated(xs, Seeded(book, xs, order, k), k, d, n)
  }

  // ---------- few samples ----------

  lemma {:induction false} L2IsZero(u: Vec, v: Vec)
    requires |u| == |v|
    ensures L2(u, v) == 0.0 <==> u == v
  {
    if u != [] {
      var n := |u| - 1;
      L2IsZero(u[..n], v[..n]);
      assert u == u[..n] + [u[n]] && v == v[..n] + [v[n]];
      SquareIsZero(u[n] - v[n]);
    }
  }

  lemma SquareIsZero(x: real)
    ensures Sq(x) == 0.0 <==> x == 0.0
  {
    if x != 0.0 { assert Sq(x) / x == x; } else { assert Sq(x) == 0.0 * x; }
  }

  lemma {:induction false} SeededAt(book: seq<Vec>, xs: seq<Vec>, order: seq<nat>, k: nat, c: nat)
    requires c < k <= |book| && k <= |order| && forall i :: 0 <= i < |order| ==> order[i] < |xs|
    ensures Seeded(book, xs, order, k)[c] == xs[order[c]]
  {
    if c < k - 1 { SeededAt(book, xs, order, k - 1, c); }
  }

  /** No sample costs anything when each is among the centroids. */
  lemma {:induction false} CostOfOwn(xs: seq<Vec>, cs: seq<Vec>, k: nat, d: nat)
    requires 0 < k <= |cs| && AllDim(cs, d) && AllDim(xs, d)
    requires forall i :: 0 <= i < |xs| ==> xs[i] in cs[..k]
    ensures Cost(xs, cs, k, d) == 0.0
  {
    if xs != [] {
      var x := xs[|xs| - 1];
      CostOfOwn(xs[..|xs| - 1], cs, k, d);
      var c :| 0 <= c < k && cs[c] == x;
      NearestIsClosest(cs, x, k, c);
      L2IsZero(x, cs[c]);
    }
  }

  lemma {:induction false} CostCovers(xs: seq<Vec>, cs: seq<Vec>, k: nat, d: nat, i: nat)
    requires 0 < k <= |cs| && AllDim(cs, d) && AllDim(xs, d) && i <= |xs|
    ensures Cost(xs, cs, k, d) >= 0.0
    ensures i < |xs| ==> L2(xs[i], cs[Nearest(cs, xs[i], k)]) <= Cost(xs, cs, k, d)
  {
    hide L2, Nearest;
    if xs != [] {
      var n := |xs| - 1;
      CostCovers(xs[..n], cs, k, d, if i < n then i else n);
    }
  }

  /** Training on at most PQ_K samples leaves every sample among the centroids, after any number of iterations. */
  lemma FewSamplesStay(book: seq<Vec>, xs: seq<Vec>, order: seq<nat>, d: nat, n: nat, i: nat)
    requires |book| == PQ_K && AllDim(book, d) && AllDim(xs, d) && i < |xs| <= PQ_K
    requires |order| == |xs| && (forall c :: 0 <= c < |order| ==> order[c] < |xs|)
    requires forall s :: 0 <= s < |xs| ==> s in order
    ensures var b := Trained(book, xs, order, d, n);
      |b| == PQ_K && AllDim(b, d) && Cost(xs, b, |xs|, d) == 0.0 && xs[i] in b
  {
    var k := |xs|;
    var seeds := Seeded(book, xs, order, k);
    SeededDim(book, xs, order, k, d);
    forall s | 0 <= s < |xs| ensures xs[s] in seeds[..k] {
      assert s in order;
      var c :| 0 <= c < |order| && order[c] == s;
      SeededAt(book, xs, order, k, c);
      assert seeds[..k][c] == xs[s];
    }
    CostOfOwn(xs, seeds, k, d);
    TrainingDescends(xs, seeds, k, d, 0, n);
    var b := Iterated(xs, seeds, k, d, n);
    CostCovers(xs, b, k, d, i);
    L2IsZero(xs[i], b[Nearest(b, xs[i], k)]);
  }

  /** A codebook was trained on these samples, shuffled. */
  ghost predicate TrainedOn(b: seq<Vec>, samples: seq<Vec>, m: nat, subDim: nat, mCount: nat, order: seq<nat>, n: nat) {
    && m < mCount && AllDim(samples, mCount * subDim) && samples != [] && |order| == |samples|
    && (forall c :: 0 <= c < |order| ==> order[c] < |samples|) && (forall s :: 0 <= s < |samples| ==> s in order)
    && exists book {:trigger AllDim(book, subDim)} :: |book| == PQ_K && AllDim(book, subDim)
         && b == Trained(book, SubSamples(samples, m, subDim, mCount), order, subDim, n)
  }

  /** Centroid c of book m is subvector m of v. */
  predicate Own(books: seq<seq<Vec>>, v: Vec, subDim: nat, m: nat, c: nat)
    requires m < |books| && |v| == |books| * subDim
  {
    Segment(subDim, m, |books|);
    c < |books[m]| && books[m][c] == Sub(v, m, subDim)
  }

  lemma {:induction false} ApartFromOwn(books: seq<seq<Vec>>, v: Vec, code: Code, subDim: nat, m: nat)
    requires Books(books, subDim) && IsCode(code, |books|) && m <= |books| && |v| == |books| * subDim
    requires forall l :: 0 <= l < |books| ==> Own(books, v, subDim, l, code[l])
    ensures Apart(books, v, code, subDim, m) == 0.0
  {
    hide L2;
    if m > 0 {
      ApartFromOwn(books, v, code, subDim, m - 1);
      Segment(subDim, m - 1, |books|);
      assert Own(books, v, subDim, m - 1, code[m - 1]);
      L2IsZero(Sub(v, m - 1, subDim), books[m - 1][code[m - 1]]);
    }
  }

  lemma HasOwn(books: seq<seq<Vec>>, samples: seq<Vec>, orders: seq<seq<nat>>, subDim: nat, n: nat, i: nat, m: nat) returns (c: nat)
    requires Books(books, subDim) && |orders| == |books| && i < |samples| <= PQ_K && m < |books|
    requires TrainedOn(books[m], samples, m, subDim, |books|, orders[m], n)
    ensures |samples[i]| == |books| * subDim && c < PQ_K && Own(books, samples[i], subDim, m, c)
  {
    hide Trained;
    Segment(subDim, m, |books|);
    var xs := SubSamples(samples, m, subDim, |books|);
    var book :| |book| == PQ_K && AllDim(book, subDim) && books[m] == Trained(book, xs, orders[m], subDim, n);
    FewSamplesStay(book, xs, orders[m], subDim, n, i);
    c :| 0 <= c < |books[m]| && books[m][c] == xs[i];
  }

  lemma {:induction false} OwnCode(books: seq<seq<Vec>>, samples: seq<Vec>, orders: seq<seq<nat>>, subDim: nat, n: nat, i: nat, m: nat)
    returns (code: Code)
    requires Books(books, subDim) && |orders| == |books| && i < |samples| <= PQ_K && AllDim(samples, |books| * subDim)
    requires forall m :: 0 <= m < |books| ==> TrainedOn(books[m], samples, m, subDim, |books|, orders[m], n)
    requires m <= |books|
    ensures IsCode(code, m) && forall l :: 0 <= l < m ==> Own(books, samples[i], subDim, l, code[l])
  {
    hide TrainedOn, Own;
    code := [];
    if m > 0 {
      code := OwnCode(books, samples, orders, subDim, n, i, m - 1);
      var c := HasOwn(books, samples, orders, subDim, n, i, m - 1);
      code := code + [c];
    }
  }

  /** After training on at most PQ_K samples every one of them is decoded exactly from its code. */
  lemma SamplesRoundTrip(books: seq<seq<Vec>>, samples: seq<Vec>, orders: seq<seq<nat>>, subDim: nat, n: nat, i: nat)
    requires Books(books, subDim) && |orders| == |books| && i < |samples| <= PQ_K && AllDim(samples, |books| * subDim)
    requires forall m :: 0 <= m < |books| ==> TrainedOn(books[m], samples, m, subDim, |books|, orders[m], n)
    ensures Decoded(books, Encoded(books, samples[i], subDim), subDim) == samples[i]
  {
    hide TrainedOn, Own, L2, Apart, Encoded;
    var v := samples[i];
    var code := OwnCode(books, samples, orders, subDim, n, i, |books|);
    ApartFromOwn(books, v, code, subDim, |books|);
    DistanceSplits(books, v, code, subDim, |books|);
    assert v[..|books| * subDim] == v;
    EncodingIsOptimal(books, v, code, subDim);
    L2IsZero(v, Decoded(books, Encoded(books, v, subDim), subDim));
  }
}
