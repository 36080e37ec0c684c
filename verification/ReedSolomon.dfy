/** The encoder and decoder of erasure/reed_solomon.hpp. */
module ReedSolomon {
  import opened GF256
  import opened GFLinear
  import opened GFMatrix
  import opened ReedSolomonCode

  datatype Decoding = Decoded(data: seq<elem>) | InsufficientShards | NotInvertible

  /** The rows of a two-dimensional array as sequences. */
  method RowsOf(a: array2<elem>) returns (rows: seq<seq<elem>>)
    ensures rows == View(a)
  {
    rows := [];
    for r := 0 to a.Length0
      invariant |rows| == r && forall i :: 0 <= i < r ==> rows[i] == RowOf(a, i)
    {
      var row: seq<elem> := [];
      for c := 0 to a.Length1
        invariant row == RowOf(a, r)[..c]
      {
        row := row + [a[r, c]];
      }
      rows := rows + [row];
    }
  }

  /** What the decoder promises about the data that produced the shards. */
  ghost predicate Recovers(k: nat, m: nat, avail: seq<nat>, shards: seq<seq<elem>>, size: nat, out: seq<elem>)
    requires 0 < k && k + m <= 32 && |shards| == k + m && |avail| == k && Increasing(avail, 0, k + m)
  {
    forall data: Vec {:trigger Encoded(k, m, data)} ::
      |data| == size && MadeFrom(k, m, avail, shards, data) ==> out == data
  }

  /** The chosen shards are those of data. */
  ghost predicate MadeFrom(k: nat, m: nat, avail: seq<nat>, shards: seq<Vec>, data: Vec)
    requires 0 < k && k + m <= 32 && |shards| == k + m && |avail| == k && Increasing(avail, 0, k + m)
  {
    forall i :: 0 <= i < k ==> shards[avail[i]] == Encoded(k, m, data)[avail[i]]
  }

  /** std::vector::resize. */
  function Resize(v: seq<elem>, n: nat): seq<elem> {
    if n <= |v| then v[..n] else v + Zero(n - |v|)
  }

  lemma ConcatShard(k: nat, data: Vec, s: nat)
    requires s < k
    ensures 0 <= s * ShardSize(k, |data|) <= (s + 1) * ShardSize(k, |data|) <= |Padded(k, data)|
    ensures Padded(k, data)[..(s + 1) * ShardSize(k, |data|)]
      == Padded(k, data)[..s * ShardSize(k, |data|)] + DataShard(k, data, s)
  {
    SliceFits(k, ShardSize(k, |data|), s);
  }

  /** The reconstructed columns, joined, are the padded data. */
  lemma {:induction false} Joined(k: nat, data: Vec, rows: seq<Vec>, s: nat)
    requires 0 < k && s <= k && |rows| == k && forall i :: 0 <= i < k ==> rows[i] == DataShard(k, data, i)
    ensures 0 <= s * ShardSize(k, |data|) <= |Padded(k, data)|
    ensures Concat(rows[..s]) == Padded(k, data)[..s * ShardSize(k, |data|)]
  {
    if s == 0 {
      assert 0 * ShardSize(k, |data|) == 0;
    } else {
      Joined(k, data, rows, s - 1);
      ConcatShard(k, data, s - 1);
      assert rows[..s][..s - 1] == rows[..s - 1];
    }
  }

  /** The shards to decode from have one length. */
  predicate SameLengths(shards: seq<Vec>, avail: seq<nat>) {
    && (forall i :: 0 <= i < |avail| ==> avail[i] < |shards|)
    && forall i :: 0 <= i < |avail| ==> |shards[avail[i]]| == |shards[avail[0]]|
  }

  ghost predicate Solves(sub: Mat, x: Vec, shards: seq<Vec>, avail: seq<nat>, b: nat) {
    && Shape(sub, |sub|, |x|) && |x| == |avail|
    && (forall i :: 0 <= i < |avail| ==> avail[i] < |shards| && b < |shards[avail[i]]|)
    && MulVec(sub, x) == ColumnOf(shards, avail, b)
  }

  /** Column b of rows is x. */
  ghost predicate ColumnIsAt(rows: Mat, x: Vec, b: nat) {
    |rows| == |x| && forall s :: 0 <= s < |x| ==> b < |rows[s]| && rows[s][b] == x[s]
  }

  /** Column by column, rows holds the solution of sub * x == the chosen shards. */
  ghost predicate Solved(sub: Mat, shards: seq<Vec>, avail: seq<nat>, size: nat, rows: Mat) {
    forall x, b {:trigger Solves(sub, x, shards, avail, b)} ::
      0 <= b < size && Solves(sub, x, shards, avail, b) ==> ColumnIsAt(rows, x, b)
  }

  function Concat(rows: seq<Vec>): Vec {
    if rows == [] then [] else Concat(rows[..|rows| - 1]) + rows[|rows| - 1]
  }

  /** Identity rows, then rows of the Vandermonde matrix. */
  method BuildGenerator(k: nat, m: nat, gf: Tables) returns (g: GFMatrix)
    requires 0 < k && k + m <= 32 && gf.Valid()
    ensures fresh(g) && fresh(g.data) && g.Valid() && g.rows == k + m && g.cols == k && g.Contents() == Generator(k, m)
  {
    g := new GFMatrix(k + m, k);
    for i := 0 to k
      invariant forall r, c :: 0 <= r < k + m && 0 <= c < k ==> g.data[r, c] == if r < i && r == c then 1 else 0
    {
      g.data[i, i] := 1;
    }
    for r := 0 to m
      invariant forall i, c :: 0 <= i < k + r && 0 <= c < k ==> g.data[i, c] == GeneratorRow(k, i)[c]
    {
      FillParityRow(g, k, r, gf);
    }
    forall r | 0 <= r < k + m ensures g.Contents()[r] == Generator(k, m)[r] {
    }
  }

  method FillParityRow(g: GFMatrix, k: nat, r: nat, gf: Tables)
    requires gf.Valid() && g.Valid() && g.cols == k && k + r < g.rows && k + r < 32
    modifies g.data
    ensures forall i, c :: 0 <= i < g.rows && 0 <= c < k ==>
      g.data[i, c] == if i == k + r then ParityRow(k, r)[c] else old(g.data[i, c])
  {
    for c := 0 to k
      invariant gf.Valid()
      invariant forall i, j :: 0 <= i < g.rows && 0 <= j < k ==>
        g.data[i, j] == if i == k + r && j < c then ParityRow(k, r)[j] else old(g.data[i, j])
    {
      hide Power, Elem;
      g.data[k + r, c] := gf.Pow(Elem(r + 1), c);
    }
  }

  method PutColumn(out: array2<elem>, b: nat, column: seq<elem>)
    requires b < out.Length1 && |column| == out.Length0
    modifies out
    ensures forall s, c :: 0 <= s < out.Length0 && 0 <= c < out.Length1 ==>
      out[s, c] == if c == b then column[s] else old(out[s, c])
  {
    for s := 0 to out.Length0
      invariant forall t, c :: 0 <= t < out.Length0 && 0 <= c < out.Length1 ==>
        out[t, c] == if c == b && t < s then column[t] else old(out[t, c])
    {
      out[s, b] := column[s];
    }
  }

  /** Cuts the padded data into k shards. */
  method Cut(k: nat, data: seq<elem>) returns (input: seq<seq<elem>>)
    requires k > 0
    ensures |input| == k && forall s :: 0 <= s < k ==> input[s] == DataShard(k, data, s)
  {
    var size := (|data| + k - 1) / k;
    SizeFits(k, |data|);
    var padded := data + seq(k * size - |data|, i => 0 as elem);
    assert padded == Padded(k, data);
    input := [];
    for s := 0 to k
      invariant |input| == s && forall t :: 0 <= t < s ==> input[t] == DataShard(k, data, t)
    {
      SliceFits(k, size, s);
      input := input + [padded[s * size..(s + 1) * size]];
    }
  }

  /** Byte b of each of the chosen shards. */
  method Gather(shards: seq<seq<elem>>, avail: seq<nat>, b: nat) returns (col: seq<elem>)
    requires forall i :: 0 <= i < |avail| ==> avail[i] < |shards| && b < |shards[avail[i]]|
    ensures |col| == |avail| && forall i :: 0 <= i < |avail| ==> col[i] == shards[avail[i]][b]
  {
    col := [];
    for i := 0 to |avail|
      invariant |col| == i && forall j :: 0 <= j < i ==> col[j] == shards[avail[j]][b]
    {
      col := col + [shards[avail[i]][b]];
    }
  }

  /** mat times every byte column of the given shards. */
  method MulColumns(gf: Tables, mat: GFMatrix, shards: seq<seq<elem>>, avail: seq<nat>, size: nat)
    returns (rows: seq<seq<elem>>)
    requires gf.Valid() && mat.Valid() && |avail| == mat.cols
    requires forall i :: 0 <= i < |avail| ==> avail[i] < |shards| && |shards[avail[i]]| == size
    ensures Shape(rows, mat.rows, size)
    ensures forall s, b :: 0 <= s < mat.rows && 0 <= b < size ==>
      rows[s][b] == MulVec(mat.Contents(), ColumnOf(shards, avail, b))[s]
  {
    hide MulVec;
    ghost var a := mat.Contents();
    var out := new elem[mat.rows, size]((r, c) => 0);
    for b := 0 to size
      invariant gf.Valid() && mat.Contents() == a
      invariant forall s, c :: 0 <= s < mat.rows && 0 <= c < b ==> out[s, c] == MulVec(a, ColumnOf(shards, avail, c))[s]
    {
      var col := Gather(shards, avail, b);
      assert col == ColumnOf(shards, avail, b);
      var column := mat.MulVec(gf, col);
      PutColumn(out, b, column);
    }
    rows := RowsOf(out);
  }

  lemma Recovered(k: nat, m: nat, avail: seq<nat>, shards: seq<Vec>, originalSize: nat, rows: seq<Vec>, out: Vec)
    requires 0 < k && k + m <= 32 && |avail| == k && Increasing(avail, 0, k + m) && |shards| == k + m
    requires Shape(rows, k, |shards[avail[0]]|) && out == Resize(Concat(rows), originalSize)
    requires Solved(Chosen(Generator(k, m), avail), shards, avail, |shards[avail[0]]|, rows)
    ensures Recovers(k, m, avail, shards, originalSize, out)
  {
    hide Solved, Chosen, Generator;
    forall data: Vec | |data| == originalSize && MadeFrom(k, m, avail, shards, data) ensures out == data {
      assert |shards[avail[0]]| == |Encoded(k, m, data)[avail[0]]| == ShardSize(k, |data|);
      SameRows(k, m, avail, shards, data, rows);
      Joined(k, data, rows, k);
      assert rows[..k] == rows;
      assert Concat(rows) == Padded(k, data);
    }
  }

  lemma EncodedBy(k: nat, m: nat, data: Vec, input: seq<Vec>, all: seq<nat>, shards: seq<Vec>)
    requires 0 < k && k + m <= 32 && |input| == k
    requires forall s :: 0 <= s < k ==> input[s] == DataShard(k, data, s) && |input[s]| == ShardSize(k, |data|)
    requires |all| == k && forall i :: 0 <= i < k ==> all[i] == i
    requires Shape(shards, k + m, ShardSize(k, |data|))
    requires forall s, b :: 0 <= s < k + m && 0 <= b < ShardSize(k, |data|) ==>
      shards[s][b] == MulVec(Generator(k, m), ColumnOf(input, all, b))[s]
    ensures shards == Encoded(k, m, data)
  {
    hide Dot, Generator;
    forall b | 0 <= b < ShardSize(k, |data|) ensures ColumnOf(input, all, b) == DataColumn(k, data, b) {
    }
    forall s | 0 <= s < k + m ensures shards[s] == Encoded(k, m, data)[s] {
    }
  }

  class ReedSolomon {
    const k: nat
    const m: nat
    const gf: Tables
    const encodeMatrix: GFMatrix

    ghost predicate Valid()
      reads this, gf, gf.exp, gf.log, encodeMatrix, encodeMatrix.data
    {
      && 0 < k && k + m <= 32 && gf.Valid() && encodeMatrix.Valid()
      && encodeMatrix.rows == k + m && encodeMatrix.cols == k && encodeMatrix.Contents() == Generator(k, m)
    }

    constructor (k: nat, m: nat, gf: Tables)
      requires 0 < k && k + m <= 32 && gf.Valid()
      ensures Valid() && this.k == k && this.m == m
    {
      this.k, this.m, this.gf := k, m, gf;
      var g := BuildGenerator(k, m, gf);
      encodeMatrix := g;
    }

    method Encode(data: seq<elem>) returns (shards: seq<seq<elem>>)
      requires Valid()
      ensures shards == Encoded(k, m, data)
    {
      var input := Cut(k, data);
      var size := ShardSize(k, |data|);
      var all := seq(k, i requires 0 <= i < k => i);
      shards := MulColumns(gf, encodeMatrix, input, all, size);
      EncodedBy(k, m, data, input, all, shards);
    }

    /** The first k present shards. */
    method Pick(present: set<nat>) returns (avail: seq<nat>)
      ensures avail == Available(present, 0, k + m, k)
    {
      avail := [];
      var i := 0;
      while i < k + m && |avail| < k
        invariant 0 <= i <= k + m && |avail| <= k
        invariant Available(present, 0, k + m, k) == avail + Available(present, i, k + m, k - |avail|)
      {
        if i in present {
          assert avail + ([i] + Available(present, i + 1, k + m, k - |avail| - 1))
            == avail + [i] + Available(present, i + 1, k + m, k - |avail| - 1);
          avail := avail + [i];
        }
        i := i + 1;
      }
    }

    /** Fails exactly when fewer than k shards are present or the chosen rows
        are dependent; otherwise it returns the data the shards came from. */
    method Decode(shards: seq<seq<elem>>, present: set<nat>, originalSize: nat) returns (result: Decoding)
      requires Valid() && |shards| == k + m
      requires SameLengths(shards, Available(present, 0, k + m, k))
      ensures var avail := Available(present, 0, k + m, k);
        && (result.InsufficientShards? <==> |avail| < k)
        && (|avail| == k ==> Increasing(avail, 0, k + m))
        && (result == Decoding.NotInvertible <==> |avail| == k && Ambiguous(k, m, avail))
        && (result.Decoded? ==>
              |avail| == k && |result.data| == originalSize
              && Recovers(k, m, avail, shards, originalSize, result.data))
    {
      hide Generator, Dependent, Solved, Recovers;
      AvailableIs(present, 0, k + m, k);
      var avail := Pick(present);
      if |avail| < k { return InsufficientShards; }
      var size := |shards[avail[0]]|;
      var sub := encodeMatrix.RowsSubset(avail);
      assert sub.Contents() == Chosen(Generator(k, m), avail);
      hide Chosen;
      var inversion := sub.Invert(gf);
      if inversion.NotInvertible? { return Decoding.NotInvertible; }
      var rows := Reconstruct(shards, avail, size, inversion.m, Chosen(Generator(k, m), avail));
      var joined := Join(rows);
      var out := Resize(joined, originalSize);
      Recovered(k, m, avail, shards, originalSize, rows, out);
      return Decoded(out);
    }

    /** inv times each column of the chosen shards. */
    method Reconstruct(shards: seq<seq<elem>>, avail: seq<nat>, size: nat, inv: GFMatrix, ghost sub: Mat)
      returns (rows: seq<seq<elem>>)
      requires Valid() && |avail| == k && (forall i :: 0 <= i < k ==> avail[i] < |shards| && |shards[avail[i]]| == size)
      requires inv.Valid() && inv.rows == inv.cols == k && Shape(sub, k, k) && InverseOf(inv.Contents(), sub, k)
      ensures Shape(rows, k, size)
      ensures Solved(sub, shards, avail, size, rows)
    {
      rows := MulColumns(gf, inv, shards, avail, size);
      forall x, b | 0 <= b < size && Solves(sub, x, shards, avail, b) ensures ColumnIsAt(rows, x, b) {
        assert MulVec(inv.Contents(), MulVec(sub, x)) == x;
      }
    }

    method Join(rows: seq<seq<elem>>) returns (joined: seq<elem>)
      ensures joined == Concat(rows)
    {
      joined := [];
      for s := 0 to |rows|
        invariant joined == Concat(rows[..s])
      {
        assert rows[..s + 1][..s] == rows[..s];
        joined := joined + rows[s];
      }
      assert rows[..|rows|] == rows;
    }
  }

  function ColumnOf(shards: seq<Vec>, avail: seq<nat>, b: nat): (v: Vec)
    requires forall i :: 0 <= i < |avail| ==> avail[i] < |shards| && b < |shards[avail[i]]|
    ensures |v| == |avail|
  {
    seq(|avail|, i requires 0 <= i < |avail| => shards[avail[i]][b])
  }

  /** The reconstructed rows are the data shards. */
  lemma SameRows(k: nat, m: nat, avail: seq<nat>, shards: seq<Vec>, data: Vec, rows: seq<Vec>)
    requires 0 < k && k + m <= 32 && |avail| == k && Increasing(avail, 0, k + m) && |shards| == k + m
    requires forall i :: 0 <= i < k ==> shards[avail[i]] == Encoded(k, m, data)[avail[i]]
    requires Shape(rows, k, ShardSize(k, |data|))
    requires Solved(Chosen(Generator(k, m), avail), shards, avail, ShardSize(k, |data|), rows)
    ensures forall s :: 0 <= s < k ==> rows[s] == DataShard(k, data, s)
  {
    hide MulVec, Generator;
    forall s, b | 0 <= s < k && 0 <= b < ShardSize(k, |data|) ensures rows[s][b] == DataShard(k, data, s)[b] {
      ChosenColumn(k, m, data, avail, b);
      assert Solves(Chosen(Generator(k, m), avail), DataColumn(k, data, b), shards, avail, b);
    }
  }
}
