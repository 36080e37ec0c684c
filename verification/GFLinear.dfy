/** Vectors and matrices over GF(2^8), and what row operations keep. */
module GFLinear {
  import opened GF256

  type Vec = seq<elem>
  type Mat = seq<Vec>

  predicate Shape(m: Mat, rows: nat, cols: nat) {
    |m| == rows && forall r :: 0 <= r < rows ==> |m[r]| == cols
  }

  function Zero(n: nat): Vec {
    seq(n, i => 0 as elem)
  }

  function UnitVec(n: nat, j: nat): Vec {
    seq(n, i => if i == j then 1 as elem else 0 as elem)
  }

  function AddVec(u: Vec, v: Vec): Vec
    requires |u| == |v|
  {
    seq(|u|, i requires 0 <= i < |u| => Plus(u[i], v[i]))
  }

  function ScaleVec(c: elem, u: Vec): Vec {
    seq(|u|, i requires 0 <= i < |u| => Times(c, u[i]))
  }

  function Dot(u: Vec, v: Vec): elem
    requires |u| == |v|
  {
    if u == [] then 0
    else Plus(Dot(u[..|u| - 1], v[..|v| - 1]), Times(u[|u| - 1], v[|v| - 1]))
  }

  function MulVec(m: Mat, v: Vec): (w: Vec)
    requires Shape(m, |m|, |v|)
    ensures |w| == |m|
  {
    seq(|m|, r requires 0 <= r < |m| => Dot(m[r], v))
  }

  // ---------- linearity ----------

  lemma {:induction false} DotAdd(u: Vec, w: Vec, v: Vec)
    requires |u| == |w| == |v|
    ensures Dot(AddVec(u, w), v) == Plus(Dot(u, v), Dot(w, v))
  {
    hide Plus, Times;
    if u == [] {
      PlusLaws(0, 0, 0);
    } else {
      var n := |u| - 1;
      DotAdd(u[..n], w[..n], v[..n]);
      assert AddVec(u, w)[..n] == AddVec(u[..n], w[..n]);
      TimesDistributes(v[n], u[n], w[n]);
      Swap(Dot(u[..n], v[..n]), Dot(w[..n], v[..n]), Times(u[n], v[n]), Times(w[n], v[n]));
    }
  }

  lemma {:induction false} DotScale(c: elem, u: Vec, v: Vec)
    requires |u| == |v|
    ensures Dot(ScaleVec(c, u), v) == Times(c, Dot(u, v))
  {
    hide Plus, Times;
    if u == [] {
      TimesZero(c);
    } else {
      var n := |u| - 1;
      DotScale(c, u[..n], v[..n]);
      assert ScaleVec(c, u)[..n] == ScaleVec(c, u[..n]);
      TimesAssociates(c, u[n], v[n]);
      TimesDistributes(c, Dot(u[..n], v[..n]), Times(u[n], v[n]));
    }
  }

  lemma {:induction false} DotCommutes(u: Vec, v: Vec)
    requires |u| == |v|
    ensures Dot(u, v) == Dot(v, u)
  {
    if u != [] {
      var n := |u| - 1;
      DotCommutes(u[..n], v[..n]);
      TimesCommutes(u[n], v[n]);
      hide Plus, Times;
    }
  }

  lemma {:induction false} DotZero(u: Vec, v: Vec)
    requires |u| == |v| && forall i :: 0 <= i < |u| ==> u[i] == 0 || v[i] == 0
    ensures Dot(u, v) == 0
  {
    hide Plus, Times;
    if u != [] {
      var n := |u| - 1;
      DotZero(u[..n], v[..n]);
      TimesZero(u[n]);
      TimesZero(v[n]);
      PlusLaws(0, 0, 0);
    }
  }

  /** Only position j matters when the other products vanish. */
  lemma {:induction false} DotSingle(u: Vec, v: Vec, j: nat)
    requires |u| == |v| && j < |u| && forall i :: 0 <= i < |u| && i != j ==> u[i] == 0 || v[i] == 0
    ensures Dot(u, v) == Times(u[j], v[j])
  {
    var n := |u| - 1;
    if j == n {
      DotZero(u[..n], v[..n]);
      PlusLaws(Times(u[n], v[n]), 0, 0);
    } else {
      DotSingle(u[..n], v[..n], j);
      TimesZero(u[n]);
      TimesZero(v[n]);
      PlusLaws(Times(u[j], v[j]), 0, 0);
    }
    hide Plus, Times;
  }

  /** Only positions i < j matter when the other products vanish. */
  lemma {:induction false} DotPair(u: Vec, v: Vec, i: nat, j: nat)
    requires |u| == |v| && i < j < |u|
    requires forall k :: 0 <= k < |u| && k != i && k != j ==> u[k] == 0 || v[k] == 0
    ensures Dot(u, v) == Plus(Times(u[i], v[i]), Times(u[j], v[j]))
  {
    var n := |u| - 1;
    if j == n {
      DotSingle(u[..n], v[..n], i);
    } else {
      DotPair(u[..n], v[..n], i, j);
      TimesZero(u[n]);
      TimesZero(v[n]);
      PlusLaws(Plus(Times(u[i], v[i]), Times(u[j], v[j])), 0, 0);
    }
    hide Plus, Times;
  }

  lemma MulVecAdd(m: Mat, u: Vec, v: Vec)
    requires Shape(m, |m|, |u|) && |u| == |v|
    ensures MulVec(m, AddVec(u, v)) == AddVec(MulVec(m, u), MulVec(m, v))
  {
    hide Plus, Times, Dot;
    forall r | 0 <= r < |m| ensures Dot(m[r], AddVec(u, v)) == Plus(Dot(m[r], u), Dot(m[r], v)) {
      DotCommutes(m[r], AddVec(u, v));
      DotAdd(u, v, m[r]);
      DotCommutes(m[r], u);
      DotCommutes(m[r], v);
    }
  }

  lemma MulVecZero(m: Mat, n: nat)
    requires Shape(m, |m|, n)
    ensures MulVec(m, Zero(n)) == Zero(|m|)
  {
    hide Dot;
    forall r | 0 <= r < |m| ensures Dot(m[r], Zero(n)) == 0 {
      DotZero(m[r], Zero(n));
    }
  }

  lemma AddVecZero(u: Vec, v: Vec)
    requires |u| == |v|
    ensures AddVec(u, v) == Zero(|u|) <==> u == v
    ensures AddVec(u, Zero(|u|)) == u
  {
    forall i | 0 <= i < |u| ensures Plus(u[i], v[i]) == 0 <==> u[i] == v[i] {
      PlusLaws(u[i], v[i], 0);
      PlusLaws(v[i], v[i], 0);
    }
    forall i | 0 <= i < |u| ensures Plus(u[i], 0) == u[i] { PlusLaws(u[i], 0, 0); }
    hide Plus;
    if AddVec(u, v) == Zero(|u|) {
      forall i | 0 <= i < |u| ensures u[i] == v[i] {
        assert AddVec(u, v)[i] == Zero(|u|)[i];
      }
    }
  }

  // ---------- the augmented matrix during elimination ----------

  /** The left half of the row is the right half times A. */
  ghost predicate RowOk(row: Vec, n: nat, a: Mat) {
    && |row| == 2 * n && Shape(a, n, n)
    && forall x {:trigger MulVec(a, x)} :: |x| == n ==> Dot(row[..n], x) == Dot(row[n..], MulVec(a, x))
  }

  ghost predicate Kills(rows: Mat, n: nat, y: Vec) {
    |y| == n && Shape(rows, n, 2 * n) && forall r :: 0 <= r < n ==> Dot(rows[r][n..], y) == 0
  }

  /** No nonzero vector is sent to zero by the right half. */
  ghost predicate RightTrivial(rows: Mat, n: nat) {
    Shape(rows, n, 2 * n) && forall y {:trigger Kills(rows, n, y)} :: Kills(rows, n, y) ==> y == Zero(n)
  }

  ghost predicate Eliminating(a: Mat, rows: Mat, n: nat) {
    && Shape(a, n, n) && Shape(rows, n, 2 * n) && RightTrivial(rows, n)
    && forall r {:trigger RowOk(rows[r], n, a)} :: 0 <= r < n ==> RowOk(rows[r], n, a)
  }

  function SwapRows(rows: Mat, i: nat, j: nat): Mat
    requires i < |rows| && j < |rows|
  {
    rows[i := rows[j]][j := rows[i]]
  }

  function ScaleRow(rows: Mat, i: nat, c: elem): Mat
    requires i < |rows|
  {
    rows[i := ScaleVec(c, rows[i])]
  }

  function AddRow(rows: Mat, r: nat, f: elem, i: nat): Mat
    requires r < |rows| && i < |rows| && |rows[r]| == |rows[i]|
  {
    rows[r := AddVec(rows[r], ScaleVec(f, rows[i]))]
  }

  lemma ScaleRowOk(row: Vec, n: nat, a: Mat, c: elem)
    requires RowOk(row, n, a)
    ensures RowOk(ScaleVec(c, row), n, a)
  {
    var row2 := ScaleVec(c, row);
    assert row2[..n] == ScaleVec(c, row[..n]) && row2[n..] == ScaleVec(c, row[n..]);
    forall x | |x| == n ensures Dot(row2[..n], x) == Dot(row2[n..], MulVec(a, x)) {
      DotScale(c, row[..n], x);
      DotScale(c, row[n..], MulVec(a, x));
      hide Times, Plus, Dot;
    }
  }

  lemma AddRowOk(row: Vec, other: Vec, n: nat, a: Mat)
    requires RowOk(row, n, a) && RowOk(other, n, a)
    ensures RowOk(AddVec(row, other), n, a)
  {
    var row2 := AddVec(row, other);
    assert row2[..n] == AddVec(row[..n], other[..n]) && row2[n..] == AddVec(row[n..], other[n..]);
    forall x | |x| == n ensures Dot(row2[..n], x) == Dot(row2[n..], MulVec(a, x)) {
      DotAdd(row[..n], other[..n], x);
      DotAdd(row[n..], other[n..], MulVec(a, x));
      hide Times, Plus, Dot;
    }
  }

  lemma SwapKeeps(a: Mat, rows: Mat, n: nat, i: nat, j: nat)
    requires Eliminating(a, rows, n) && i < n && j < n
    ensures Eliminating(a, SwapRows(rows, i, j), n)
  {
    var rows2 := SwapRows(rows, i, j);
    forall y | Kills(rows2, n, y) ensures y == Zero(n) {
      forall r | 0 <= r < n ensures Dot(rows[r][n..], y) == 0 {
        var s := if r == i then j else if r == j then i else r;
        assert Dot(rows2[s][n..], y) == 0;
      }
      assert Kills(rows, n, y);
    }
    forall r | 0 <= r < n ensures RowOk(rows2[r], n, a) {
      assert RowOk(rows[if r == i then j else if r == j then i else r], n, a);
    }
  }

  lemma ScaleKeeps(a: Mat, rows: Mat, n: nat, i: nat, c: elem)
    requires Eliminating(a, rows, n) && i < n && c != 0
    ensures Eliminating(a, ScaleRow(rows, i, c), n)
  {
    var rows2 := ScaleRow(rows, i, c);
    assert rows2[i][n..] == ScaleVec(c, rows[i][n..]);
    forall y | Kills(rows2, n, y) ensures y == Zero(n) {
      DotScale(c, rows[i][n..], y);
      NoZeroDivisors(c, Dot(rows[i][n..], y));
      hide Times, Dot;
      forall r | 0 <= r < n ensures Dot(rows[r][n..], y) == 0 {
        assert Dot(rows2[r][n..], y) == 0;
      }
      assert Kills(rows, n, y);
    }
    forall r | 0 <= r < n ensures RowOk(rows2[r], n, a) {
      assert RowOk(rows[r], n, a);
      if r == i { ScaleRowOk(rows[i], n, a, c); }
    }
  }

  lemma DotAfterAdd(row: Vec, other: Vec, f: elem, n: nat, y: Vec)
    requires |row| == |other| == 2 * n && |y| == n && Dot(other[n..], y) == 0
    ensures Dot(AddVec(row, ScaleVec(f, other))[n..], y) == Dot(row[n..], y)
  {
    hide Times, Plus, Dot;
    var add := ScaleVec(f, other);
    assert AddVec(row, add)[n..] == AddVec(row[n..], add[n..]) && add[n..] == ScaleVec(f, other[n..]);
    hide AddVec, ScaleVec;
    DotAdd(row[n..], add[n..], y);
    DotScale(f, other[n..], y);
    TimesZero(f);
    PlusLaws(Dot(row[n..], y), 0, 0);
  }

  lemma AddRowTrivial(rows: Mat, n: nat, r0: nat, f: elem, i: nat)
    requires RightTrivial(rows, n) && i < n && r0 < n && i != r0
    ensures RightTrivial(AddRow(rows, r0, f, i), n)
  {
    hide Times, Plus, Dot, AddVec, ScaleVec;
    var rows2 := AddRow(rows, r0, f, i);
    AddRowShape(rows, n, r0, f, i);
    forall y | Kills(rows2, n, y) ensures y == Zero(n) {
      assert Dot(rows2[i][n..], y) == 0;
      DotAfterAdd(rows[r0], rows[i], f, n, y);
      forall r | 0 <= r < n ensures Dot(rows[r][n..], y) == 0 {
        assert Dot(rows2[r][n..], y) == 0;
      }
      assert Kills(rows, n, y);
    }
  }

  lemma AddRowShape(rows: Mat, n: nat, r0: nat, f: elem, i: nat)
    requires Shape(rows, n, 2 * n) && i < n && r0 < n
    ensures Shape(AddRow(rows, r0, f, i), n, 2 * n)
  {
  }

  lemma AddRowKeeps(a: Mat, rows: Mat, n: nat, r0: nat, f: elem, i: nat)
    requires Eliminating(a, rows, n) && i < n && r0 < n && i != r0
    ensures Eliminating(a, AddRow(rows, r0, f, i), n)
  {
    hide Times, Plus, Dot, AddVec, ScaleVec, RightTrivial;
    var rows2 := AddRow(rows, r0, f, i);
    AddRowShape(rows, n, r0, f, i);
    AddRowTrivial(rows, n, r0, f, i);
    forall r | 0 <= r < n ensures RowOk(rows2[r], n, a) {
      assert RowOk(rows[r], n, a);
      if r == r0 {
        assert RowOk(rows[i], n, a);
        ScaleRowOk(rows[i], n, a, f);
        AddRowOk(rows[r0], ScaleVec(f, rows[i]), n, a);
      }
    }
  }

  // ---------- the columns that are already done ----------

  /** The first k columns are those of the identity. */
  ghost predicate UnitColumns(rows: Mat, n: nat, k: nat) {
    && Shape(rows, n, 2 * n) && k <= n
    && forall r, j :: 0 <= r < n && 0 <= j < k ==> rows[r][j] == if r == j then 1 else 0
  }

  lemma UnitAfterSwap(rows: Mat, n: nat, col: nat, pivot: nat)
    requires UnitColumns(rows, n, col) && col <= pivot < n
    ensures UnitColumns(SwapRows(rows, col, pivot), n, col)
  {
  }

  lemma UnitAfterScale(rows: Mat, n: nat, col: nat, c: elem)
    requires UnitColumns(rows, n, col) && col < n
    ensures UnitColumns(ScaleRow(rows, col, c), n, col)
  {
    TimesZero(c);
    hide Times;
  }

  lemma UnitAfterAdd(rows: Mat, n: nat, col: nat, r0: nat, f: elem)
    requires UnitColumns(rows, n, col) && col < n && r0 < n && r0 != col
    ensures UnitColumns(AddRow(rows, r0, f, col), n, col)
  {
    TimesZero(f);
    PlusLaws(0, 0, 0);
    PlusLaws(1, 0, 0);
    hide Times, Plus;
  }

  // ---------- the two ways elimination ends ----------

  ghost predicate Dependent(a: Mat, n: nat)
    requires Shape(a, n, n)
  {
    exists z: Vec :: |z| == n && z != Zero(n) && MulVec(a, z) == Zero(n)
  }

  ghost predicate InverseOf(b: Mat, a: Mat, n: nat)
    requires Shape(a, n, n) && Shape(b, n, n)
  {
    forall x {:trigger MulVec(a, x)} {:trigger MulVec(b, x)} :: |x| == n ==>
      MulVec(b, MulVec(a, x)) == x && MulVec(a, MulVec(b, x)) == x
  }

  lemma UnitDot(n: nat, j: nat, v: Vec)
    requires j < n && |v| == n
    ensures Dot(UnitVec(n, j), v) == v[j]
  {
    DotSingle(UnitVec(n, j), v, j);
    TimesZero(v[j]);
  }

  /** The augmented matrix [A | I]. */
  function Augmented(a: Mat, n: nat): Mat
    requires Shape(a, n, n)
  {
    seq(n, r requires 0 <= r < n => a[r] + UnitVec(n, r))
  }

  lemma Started(a: Mat, n: nat)
    requires Shape(a, n, n)
    ensures Eliminating(a, Augmented(a, n), n) && UnitColumns(Augmented(a, n), n, 0)
  {
    hide Times, Plus, Dot;
    var rows := Augmented(a, n);
    forall r | 0 <= r < n ensures rows[r][..n] == a[r] && rows[r][n..] == UnitVec(n, r) {
    }
    forall r | 0 <= r < n ensures RowOk(rows[r], n, a) {
      forall x | |x| == n ensures Dot(rows[r][..n], x) == Dot(rows[r][n..], MulVec(a, x)) {
        UnitDot(n, r, MulVec(a, x));
      }
    }
    forall y | Kills(rows, n, y) ensures y == Zero(n) {
      forall r | 0 <= r < n ensures y[r] == 0 {
        UnitDot(n, r, y);
        assert Dot(rows[r][n..], y) == 0;
      }
    }
  }

  function RightHalf(rows: Mat, n: nat): (m: Mat)
    requires Shape(rows, n, 2 * n)
    ensures Shape(m, n, n)
  {
    seq(n, r requires 0 <= r < n => rows[r][n..])
  }

  /** When every column is done, the right half inverts A from both sides. */
  lemma Finished(a: Mat, rows: Mat, n: nat)
    requires Eliminating(a, rows, n) && UnitColumns(rows, n, n)
    ensures InverseOf(RightHalf(rows, n), a, n)
  {
    hide Times, Plus, Dot;
    var b := RightHalf(rows, n);
    forall x | |x| == n ensures MulVec(b, MulVec(a, x)) == x && MulVec(a, MulVec(b, x)) == x {
      LeftInverse(a, rows, n, x);
      RightInverse(a, rows, n, x);
    }
  }

  lemma LeftInverse(a: Mat, rows: Mat, n: nat, x: Vec)
    requires Eliminating(a, rows, n) && UnitColumns(rows, n, n) && |x| == n
    ensures MulVec(RightHalf(rows, n), MulVec(a, x)) == x
  {
    hide Times, Plus, Dot;
    forall r | 0 <= r < n ensures Dot(rows[r][n..], MulVec(a, x)) == x[r] {
      assert RowOk(rows[r], n, a);
      assert rows[r][..n] == UnitVec(n, r);
      UnitDot(n, r, x);
    }
  }

  lemma RightInverse(a: Mat, rows: Mat, n: nat, y: Vec)
    requires Eliminating(a, rows, n) && UnitColumns(rows, n, n) && |y| == n
    ensures MulVec(a, MulVec(RightHalf(rows, n), y)) == y
  {
    hide Times, Plus, Dot;
    var b := RightHalf(rows, n);
    var x := MulVec(b, y);
    LeftInverse(a, rows, n, x);
    var w := AddVec(MulVec(a, x), y);
    MulVecAdd(b, MulVec(a, x), y);
    AddVecZero(x, x);
    forall r | 0 <= r < n ensures Dot(rows[r][n..], w) == 0 {
      assert MulVec(b, w)[r] == Zero(n)[r];
    }
    assert Kills(rows, n, w);
    AddVecZero(MulVec(a, x), y);
  }

  /** Without a pivot, the done columns combine to the current one. */
  lemma Stuck(a: Mat, rows: Mat, n: nat, col: nat)
    requires Eliminating(a, rows, n) && UnitColumns(rows, n, col) && col < n
    requires forall r :: col <= r < n ==> rows[r][col] == 0
    ensures Dependent(a, n)
  {
    hide Times, Plus, Dot;
    var z := seq(n, i requires 0 <= i < n => if i < col then rows[i][col] else if i == col then 1 else 0);
    forall r | 0 <= r < n ensures Dot(rows[r][n..], MulVec(a, z)) == 0 {
      assert RowOk(rows[r], n, a);
      var u := rows[r][..n];
      if r < col {
        DotPair(u, z, r, col);
        TimesZero(rows[r][col]);
        PlusLaws(rows[r][col], 0, 0);
      } else {
        DotZero(u, z);
      }
    }
    assert Kills(rows, n, MulVec(a, z));
    assert z[col] != Zero(n)[col];
  }

  /** The two outcomes exclude each other. */
  lemma InvertibleIsIndependent(a: Mat, b: Mat, n: nat)
    requires Shape(a, n, n) && Shape(b, n, n) && InverseOf(b, a, n)
    ensures !Dependent(a, n)
  {
    hide Times, Plus, Dot;
    MulVecZero(b, n);
    forall z: Vec | |z| == n && MulVec(a, z) == Zero(n) ensures z == Zero(n) {
      assert MulVec(b, MulVec(a, z)) == z;
    }
  }

  // ---------- the matrix products ----------

  function Column(a: Mat, n: nat, c: nat): Vec
    requires Shape(a, |a|, n) && c < n
  {
    seq(|a|, r requires 0 <= r < |a| => a[r][c])
  }

  function Product(a: Mat, b: Mat, n: nat): Mat
    requires Shape(a, n, n) && Shape(b, n, n)
  {
    seq(n, r requires 0 <= r < n => seq(n, c requires 0 <= c < n => Dot(a[r], Column(b, n, c))))
  }

  function Identity(n: nat): Mat {
    seq(n, r requires 0 <= r < n => UnitVec(n, r))
  }

  lemma ColumnIs(a: Mat, n: nat, c: nat)
    requires Shape(a, n, n) && c < n
    ensures MulVec(a, UnitVec(n, c)) == Column(a, n, c)
  {
    hide Times, Plus, Dot;
    forall r | 0 <= r < n ensures Dot(a[r], UnitVec(n, c)) == a[r][c] {
      DotCommutes(a[r], UnitVec(n, c));
      UnitDot(n, c, a[r]);
    }
  }

  /** B A = A B = I. */
  lemma ProductsAreIdentity(a: Mat, b: Mat, n: nat)
    requires Shape(a, n, n) && Shape(b, n, n) && InverseOf(b, a, n)
    ensures Product(b, a, n) == Identity(n) && Product(a, b, n) == Identity(n)
  {
    hide Times, Plus, Dot;
    forall r | 0 <= r < n
      ensures Product(b, a, n)[r] == UnitVec(n, r) && Product(a, b, n)[r] == UnitVec(n, r)
    {
      forall c | 0 <= c < n
        ensures Dot(b[r], Column(a, n, c)) == UnitVec(n, r)[c] && Dot(a[r], Column(b, n, c)) == UnitVec(n, r)[c]
      {
        ColumnIs(a, n, c);
        ColumnIs(b, n, c);
        assert MulVec(b, MulVec(a, UnitVec(n, c)))[r] == UnitVec(n, c)[r];
        assert MulVec(a, MulVec(b, UnitVec(n, c)))[r] == UnitVec(n, c)[r];
      }
    }
  }
}
