/** Matrices over GF(2^8) as the program keeps them, inverted in place by
    Gauss-Jordan elimination on the augmented matrix. */
module GFMatrix {
  import opened GF256
  import opened GFLinear

  /** The contents of a two-dimensional array. */
  ghost function View(a: array2<elem>): (m: Mat)
    reads a
    ensures Shape(m, a.Length0, a.Length1)
  {
    seq(a.Length0, r requires 0 <= r < a.Length0 reads a => RowOf(a, r))
  }

  ghost function RowOf(a: array2<elem>, r: nat): (v: Vec)
    requires r < a.Length0
    reads a
    ensures |v| == a.Length1
  {
    seq(a.Length1, c requires 0 <= c < a.Length1 reads a => a[r, c])
  }

  method SwapRowsOf(aug: array2<elem>, i: nat, j: nat)
    requires i < aug.Length0 && j < aug.Length0
    modifies aug
    ensures View(aug) == SwapRows(old(View(aug)), i, j)
  {
    if i != j {
      for c := 0 to aug.Length1
        invariant forall r, k :: 0 <= r < aug.Length0 && 0 <= k < aug.Length1 ==>
          aug[r, k] == (if k < c && r == i then old(aug[j, k]) else if k < c && r == j then old(aug[i, k]) else old(aug[r, k]))
      {
        var t := aug[i, c];
        aug[i, c] := aug[j, c];
        aug[j, c] := t;
      }
    }
    forall r | 0 <= r < aug.Length0 ensures RowOf(aug, r) == SwapRows(old(View(aug)), i, j)[r] {
    }
  }

  method Divide(gf: Tables, a: elem, b: elem) returns (q: elem)
    requires gf.Valid() && b != 0
    ensures q == Times(Inverse(b), a)
  {
    TimesCommutes(a, Inverse(b));
    var r := gf.Div(a, b);
    q := r.value;
  }

  method NormalizeRow(gf: Tables, aug: array2<elem>, i: nat, pivot: elem)
    requires gf.Valid() && i < aug.Length0 && pivot != 0
    modifies aug
    ensures gf.Valid() && View(aug) == ScaleRow(old(View(aug)), i, Inverse(pivot))
  {
    for c := 0 to aug.Length1
      invariant gf.Valid()
      invariant forall r, k :: 0 <= r < aug.Length0 && 0 <= k < aug.Length1 ==>
        aug[r, k] == if k < c && r == i then Times(Inverse(pivot), old(aug[r, k])) else old(aug[r, k])
    {
      hide Times, Inverse;
      aug[i, c] := Divide(gf, aug[i, c], pivot);
    }
    forall r | 0 <= r < aug.Length0 ensures RowOf(aug, r) == ScaleRow(old(View(aug)), i, Inverse(pivot))[r] {
    }
  }

  method AddToRow(gf: Tables, aug: array2<elem>, r0: nat, f: elem, i: nat)
    requires gf.Valid() && i < aug.Length0 && r0 < aug.Length0 && i != r0
    modifies aug
    ensures gf.Valid() && View(aug) == AddRow(old(View(aug)), r0, f, i)
  {
    for c := 0 to aug.Length1
      invariant gf.Valid()
      invariant forall r, k :: 0 <= r < aug.Length0 && 0 <= k < aug.Length1 ==>
        aug[r, k] == if k < c && r == r0 then Plus(old(aug[r0, k]), Times(f, old(aug[i, k]))) else old(aug[r, k])
    {
      var p := gf.Mul(f, aug[i, c]);
      hide Times;
      aug[r0, c] := Plus(aug[r0, c], p);
    }
    forall r | 0 <= r < aug.Length0 ensures RowOf(aug, r) == AddRow(old(View(aug)), r0, f, i)[r] {
    }
  }

  /** Column col after the pivot row was normalized and rows below `done` were cleared. */
  ghost predicate Clearing(rows: Mat, n: nat, col: nat, done: nat) {
    && UnitColumns(rows, n, col) && col < n && done <= n && rows[col][col] == 1
    && forall r :: 0 <= r < done && r != col ==> rows[r][col] == 0
  }

  lemma ClearedRow(rows: Mat, n: nat, col: nat, r: nat)
    requires Clearing(rows, n, col, r) && r < n && r != col
    ensures Clearing(AddRow(rows, r, rows[r][col], col), n, col, r + 1)
  {
    UnitAfterAdd(rows, n, col, r, rows[r][col]);
    TimesZero(rows[r][col]);
    PlusLaws(rows[r][col], 0, 0);
    hide Times, Plus;
  }

  lemma NormalizedPivot(rows: Mat, n: nat, col: nat)
    requires UnitColumns(rows, n, col) && col < n && rows[col][col] != 0
    ensures Clearing(ScaleRow(rows, col, Inverse(rows[col][col])), n, col, 0)
  {
    UnitAfterScale(rows, n, col, Inverse(rows[col][col]));
    InverseCancels(rows[col][col]);
    hide Times, Inverse;
  }

  lemma ColumnDone(rows: Mat, n: nat, col: nat)
    requires Clearing(rows, n, col, n)
    ensures UnitColumns(rows, n, col + 1)
  {
  }

  method ClearColumn(gf: Tables, aug: array2<elem>, n: nat, col: nat, ghost a: Mat)
    requires gf.Valid() && aug.Length0 == n && aug.Length1 == 2 * n && col < n
    requires Eliminating(a, View(aug), n) && Clearing(View(aug), n, col, 0)
    modifies aug
    ensures gf.Valid() && Eliminating(a, View(aug), n) && UnitColumns(View(aug), n, col + 1)
  {
    for r := 0 to n
      invariant gf.Valid() && Eliminating(a, View(aug), n) && Clearing(View(aug), n, col, r)
    {
      hide Eliminating, UnitColumns;
      var f := aug[r, col];
      assert f == View(aug)[r][col];
      if r != col && f != 0 {
        ClearedRow(View(aug), n, col, r);
        AddRowKeeps(a, View(aug), n, r, f, col);
        AddToRow(gf, aug, r, f, col);
      }
    }
    ColumnDone(View(aug), n, col);
  }

  datatype Inversion = Inverted(m: GFMatrix) | NotInvertible

  class GFMatrix {
    const rows: nat
    const cols: nat
    const data: array2<elem>

    ghost predicate Valid()
      reads this
    {
      data.Length0 == rows && data.Length1 == cols
    }

    ghost function Contents(): (m: Mat)
      requires Valid()
      reads this, data
      ensures Shape(m, rows, cols)
    {
      View(data)
    }

    constructor (rows: nat, cols: nat)
      ensures Valid() && this.rows == rows && this.cols == cols && fresh(data)
      ensures forall r, c :: 0 <= r < rows && 0 <= c < cols ==> data[r, c] == 0
    {
      this.rows, this.cols := rows, cols;
      data := new elem[rows, cols]((r, c) => 0);
    }

    /** The matrix made of the given rows, in that order. */
    method RowsSubset(indices: seq<nat>) returns (m: GFMatrix)
      requires Valid() && forall i :: 0 <= i < |indices| ==> indices[i] < rows
      ensures m.Valid() && fresh(m) && fresh(m.data) && m.rows == |indices| && m.cols == cols
      ensures forall i :: 0 <= i < |indices| ==> m.Contents()[i] == Contents()[indices[i]]
    {
      m := new GFMatrix(|indices|, cols);
      for i := 0 to |indices|
        invariant forall j, c :: 0 <= j < i && 0 <= c < cols ==> m.data[j, c] == data[indices[j], c]
      {
        for c := 0 to cols
          invariant forall j, k :: 0 <= j < i && 0 <= k < cols ==> m.data[j, k] == data[indices[j], k]
          invariant forall k :: 0 <= k < c ==> m.data[i, k] == data[indices[i], k]
        {
          m.data[i, c] := data[indices[i], c];
        }
      }
    }

    /** [this | I] in a new array. */
    method Augment() returns (aug: array2<elem>)
      requires Valid() && rows == cols
      ensures fresh(aug) && aug.Length0 == rows && aug.Length1 == 2 * rows
      ensures View(aug) == Augmented(Contents(), rows)
    {
      var n := rows;
      aug := new elem[n, 2 * n]((r, c) => 0);
      for r := 0 to n
        invariant forall i, k :: 0 <= i < r && 0 <= k < 2 * n ==>
          aug[i, k] == if k < n then data[i, k] else if k - n == i then 1 else 0
        invariant forall i, k :: r <= i < n && 0 <= k < 2 * n ==> aug[i, k] == 0
      {
        for c := 0 to n
          invariant forall i, k :: 0 <= i < r && 0 <= k < 2 * n ==>
            aug[i, k] == if k < n then data[i, k] else if k - n == i then 1 else 0
          invariant forall k :: 0 <= k < 2 * n ==> aug[r, k] == if k < c then data[r, k] else 0
          invariant forall i, k :: r < i < n && 0 <= k < 2 * n ==> aug[i, k] == 0
        {
          aug[r, c] := data[r, c];
        }
        aug[r, n + r] := 1;
      }
      forall r | 0 <= r < n ensures RowOf(aug, r) == Augmented(Contents(), n)[r] {
      }
    }

    /** First row at or below col with a nonzero entry in column col; n if there is none. */
    static method FindPivot(aug: array2<elem>, n: nat, col: nat) returns (pivot: nat)
      requires aug.Length0 == n && aug.Length1 == 2 * n && col < n
      ensures col <= pivot <= n
      ensures pivot < n ==> aug[pivot, col] != 0
      ensures pivot == n ==> forall r :: col <= r < n ==> aug[r, col] == 0
    {
      pivot := col;
      while pivot < n && aug[pivot, col] == 0
        invariant col <= pivot <= n && forall r :: col <= r < pivot ==> aug[r, col] == 0
      {
        pivot := pivot + 1;
      }
    }

    /** Makes column col a column of the identity. */
    static method DoColumn(gf: Tables, aug: array2<elem>, n: nat, col: nat, pivot: nat, ghost a: Mat)
      requires gf.Valid() && aug.Length0 == n && aug.Length1 == 2 * n && col <= pivot < n && aug[pivot, col] != 0
      requires Eliminating(a, View(aug), n) && UnitColumns(View(aug), n, col)
      modifies aug
      ensures gf.Valid() && Eliminating(a, View(aug), n) && UnitColumns(View(aug), n, col + 1)
    {
      hide Eliminating, UnitColumns, Times, Inverse;
      assert View(aug)[pivot][col] == aug[pivot, col];
      SwapKeeps(a, View(aug), n, col, pivot);
      UnitAfterSwap(View(aug), n, col, pivot);
      SwapRowsOf(aug, col, pivot);
      assert View(aug)[col][col] == aug[col, col];
      var pv := aug[col, col];
      InverseCancels(pv);
      NormalizedPivot(View(aug), n, col);
      ScaleKeeps(a, View(aug), n, col, Inverse(pv));
      NormalizeRow(gf, aug, col, pv);
      ClearColumn(gf, aug, n, col, a);
    }

    /** Inverts from both sides exactly the matrices whose columns are independent. */
    method Invert(gf: Tables) returns (result: Inversion)
      requires Valid() && gf.Valid() && rows == cols
      ensures gf.Valid()
      ensures result.NotInvertible? <==> Dependent(Contents(), rows)
      ensures result.Inverted? ==>
        && result.m.Valid() && fresh(result.m) && fresh(result.m.data) && result.m.rows == rows && result.m.cols == rows
        && InverseOf(result.m.Contents(), Contents(), rows)
    {
      var n := rows;
      ghost var a := Contents();
      var aug := Augment();
      Started(a, n);
      for col := 0 to n
        invariant gf.Valid() && a == Contents()
        invariant Eliminating(a, View(aug), n) && UnitColumns(View(aug), n, col)
      {
        hide Eliminating, UnitColumns;
        var pivot := FindPivot(aug, n, col);
        if pivot == n {
          Stuck(a, View(aug), n, col);
          return NotInvertible;
        }
        DoColumn(gf, aug, n, col, pivot, a);
      }
      Finished(a, View(aug), n);
      InvertibleIsIndependent(a, RightHalf(View(aug), n), n);
      var inv := RightPart(aug, n);
      result := Inverted(inv);
    }

    static method RightPart(aug: array2<elem>, n: nat) returns (m: GFMatrix)
      requires aug.Length0 == n && aug.Length1 == 2 * n
      ensures m.Valid() && fresh(m) && fresh(m.data) && m.rows == n && m.cols == n
      ensures m.Contents() == RightHalf(View(aug), n)
    {
      m := new GFMatrix(n, n);
      for r := 0 to n
        invariant forall i, k :: 0 <= i < r && 0 <= k < n ==> m.data[i, k] == aug[i, n + k]
      {
        for c := 0 to n
          invariant forall i, k :: 0 <= i < r && 0 <= k < n ==> m.data[i, k] == aug[i, n + k]
          invariant forall k :: 0 <= k < c ==> m.data[r, k] == aug[r, n + k]
        {
          m.data[r, c] := aug[r, n + c];
        }
      }
      forall r | 0 <= r < n ensures m.Contents()[r] == RightHalf(View(aug), n)[r] {
      }
    }

    method MulVec(gf: Tables, v: seq<elem>) returns (out: seq<elem>)
      requires Valid() && gf.Valid() && |v| == cols
      ensures out == GFLinear.MulVec(Contents(), v)
    {
      hide Times, Plus, Dot;
      var a := new elem[rows](i => 0);
      for r := 0 to rows
        invariant gf.Valid()
        invariant forall i :: 0 <= i < r ==> a[i] == Dot(Contents()[i], v)
      {
        a[r] := 0;
        NoTerms(Contents()[r], v);
        for c := 0 to cols
          invariant gf.Valid()
          invariant forall i :: 0 <= i < r ==> a[i] == Dot(Contents()[i], v)
          invariant a[r] == Dot(Contents()[r][..c], v[..c])
        {
          var p := gf.Mul(data[r, c], v[c]);
          DotStep(Contents()[r], v, c);
          a[r] := Plus(a[r], p);
        }
        assert Contents()[r][..cols] == Contents()[r] && v[..cols] == v;
      }
      out := a[..];
    }
  }

  lemma NoTerms(u: Vec, v: Vec)
    requires |u| == |v|
    ensures Dot(u[..0], v[..0]) == 0
  {
  }

  lemma DotStep(u: Vec, v: Vec, c: nat)
    requires |u| == |v| && c < |u|
    ensures Dot(u[..c + 1], v[..c + 1]) == Plus(Dot(u[..c], v[..c]), Times(u[c], v[c]))
  {
    assert u[..c + 1][..c] == u[..c] && v[..c + 1][..c] == v[..c];
  }
}
