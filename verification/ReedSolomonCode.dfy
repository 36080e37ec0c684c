/** The code of erasure/reed_solomon.hpp as functions: which shards it makes,
    which of them it picks for decoding, and when they determine the data. */
module ReedSolomonCode {
  import opened GF256
  import opened GFLinear

  /** Identity rows, then parity row r with entries (r + 1)^c. */
  function Generator(k: nat, m: nat): (g: Mat)
    requires k + m <= 32
    ensures Shape(g, k + m, k)
  {
    seq(k + m, r requires 0 <= r < k + m => GeneratorRow(k, r))
  }

  function GeneratorRow(k: nat, r: nat): (v: Vec)
    requires r < 32
    ensures |v| == k
  {
    if r < k then UnitVec(k, r) else ParityRow(k, r - k)
  }

  function ParityRow(k: nat, r: nat): (v: Vec)
    requires r < 32
    ensures |v| == k
  {
    seq(k, c requires 0 <= c < k => Power(Elem(r + 1), c))
  }

  // ---------- data and its columns ----------

  function ShardSize(k: nat, len: nat): nat
    requires k > 0
  {
    (len + k - 1) / k
  }

  lemma SizeFits(k: nat, len: nat)
    requires k > 0
    ensures len <= k * ShardSize(k, len)
  {
    var q, r := (len + k - 1) / k, (len + k - 1) % k;
    assert len + k - 1 == k * q + r;
  }

  function Padded(k: nat, data: Vec): (p: Vec)
    requires k > 0
    ensures |p| == k * ShardSize(k, |data|) && |data| <= |p| && p[..|data|] == data
  {
    SizeFits(k, |data|);
    data + Zero(k * ShardSize(k, |data|) - |data|)
  }

  lemma SliceFits(k: nat, size: nat, s: nat)
    requires s < k
    ensures 0 <= s * size <= (s + 1) * size <= k * size && (s + 1) * size == s * size + size
  {
    assert (k - (s + 1)) * size >= 0;
    assert k * size == (s + 1) * size + (k - (s + 1)) * size;
  }

  function DataShard(k: nat, data: Vec, s: nat): (v: Vec)
    requires s < k
    ensures |v| == ShardSize(k, |data|)
  {
    var size := ShardSize(k, |data|);
    SliceFits(k, size, s);
    Padded(k, data)[s * size..(s + 1) * size]
  }

  /** Byte b of every data shard. */
  function DataColumn(k: nat, data: Vec, b: nat): (v: Vec)
    requires k > 0 && b < ShardSize(k, |data|)
    ensures |v| == k
  {
    seq(k, s requires 0 <= s < k => DataShard(k, data, s)[b])
  }

  /** The shards of data: each column times the generator. */
  function Encoded(k: nat, m: nat, data: Vec): (shards: seq<Vec>)
    requires 0 < k && k + m <= 32
    ensures |shards| == k + m && forall s :: 0 <= s < k + m ==> |shards[s]| == ShardSize(k, |data|)
  {
    var size := ShardSize(k, |data|);
    seq(k + m, s requires 0 <= s < k + m =>
      seq(size, b requires 0 <= b < size => Dot(Generator(k, m)[s], DataColumn(k, data, b))))
  }

  /** The code is systematic: the first k shards are the data. */
  lemma Systematic(k: nat, m: nat, data: Vec, s: nat)
    requires 0 < k && k + m <= 32 && s < k
    ensures Encoded(k, m, data)[s] == DataShard(k, data, s)
  {
    hide Dot;
    forall b | 0 <= b < ShardSize(k, |data|)
      ensures Encoded(k, m, data)[s][b] == DataShard(k, data, s)[b]
    {
      UnitDot(k, s, DataColumn(k, data, b));
    }
  }

  // ---------- the shards chosen for decoding ----------

  /** The first k present shards, in order, from index i on. */
  function Available(present: set<nat>, i: nat, n: nat, k: nat): (avail: seq<nat>)
    requires i <= n
    ensures |avail| <= k
    decreases n - i
  {
    if i == n || k == 0 then []
    else if i in present then [i] + Available(present, i + 1, n, k - 1)
    else Available(present, i + 1, n, k)
  }

  predicate Increasing(avail: seq<nat>, lo: nat, hi: nat) {
    && (forall i :: 0 <= i < |avail| ==> lo <= avail[i] < hi)
    && forall i, j :: 0 <= i < j < |avail| ==> avail[i] < avail[j]
  }

  lemma {:induction false} AvailableIs(present: set<nat>, i: nat, n: nat, k: nat)
    requires i <= n
    ensures var avail := Available(present, i, n, k);
      && Increasing(avail, i, n)
      && (forall j :: 0 <= j < |avail| ==> avail[j] in present)
    decreases n - i
  {
    if i < n && k > 0 {
      AvailableIs(present, i + 1, n, if i in present then k - 1 else k);
    }
  }

  ghost function Among(present: set<nat>, i: nat, n: nat): set<nat> {
    set j | j in present && i <= j < n
  }

  /** Enough shards are found exactly when enough are present. */
  lemma {:induction false} AvailableCount(present: set<nat>, i: nat, n: nat, k: nat)
    requires i <= n
    ensures |Available(present, i, n, k)| == if |Among(present, i, n)| < k then |Among(present, i, n)| else k
    decreases n - i
  {
    if i == n {
      assert Among(present, i, n) == {};
    } else if k > 0 {
      if i in present {
        assert Among(present, i, n) == Among(present, i + 1, n) + {i};
        AvailableCount(present, i + 1, n, k - 1);
      } else {
        assert Among(present, i, n) == Among(present, i + 1, n);
        AvailableCount(present, i + 1, n, k);
      }
    }
  }

  function Chosen(g: Mat, avail: seq<nat>): (sub: Mat)
    requires forall i :: 0 <= i < |avail| ==> avail[i] < |g|
  {
    seq(|avail|, i requires 0 <= i < |avail| => g[avail[i]])
  }

  /** The chosen shards do not determine the data. */
  ghost predicate Ambiguous(k: nat, m: nat, avail: seq<nat>)
    requires k + m <= 32 && |avail| == k && Increasing(avail, 0, k + m)
  {
    Dependent(Chosen(Generator(k, m), avail), k)
  }

  /** Column b of the chosen shards is the chosen rows times column b of the data. */
  lemma ChosenColumn(k: nat, m: nat, data: Vec, avail: seq<nat>, b: nat)
    requires 0 < k && k + m <= 32 && |avail| == k && Increasing(avail, 0, k + m) && b < ShardSize(k, |data|)
    ensures MulVec(Chosen(Generator(k, m), avail), DataColumn(k, data, b))
      == seq(k, i requires 0 <= i < k => Encoded(k, m, data)[avail[i]][b])
  {
    hide Dot, Generator;
    var w := MulVec(Chosen(Generator(k, m), avail), DataColumn(k, data, b));
    forall i | 0 <= i < k ensures w[i] == Encoded(k, m, data)[avail[i]][b] {
    }
  }

  // ---------- two parity shards ----------

  lemma {:induction false} PowerOfOne(c: nat)
    ensures Power(1, c) == 1
  {
    hide Times;
    if c > 0 {
      PowerOfOne(c - 1);
      TimesZero(1);
    }
  }

  lemma PowerOfTwo(c: nat)
    ensures Power(2, c) == Pw(c)
  {
    SmallPowers();
    PowerOfPw(1, c);
    assert 1 * c == c;
  }

  lemma FirstParityRows(k: nat, c: nat)
    requires c < k < 255
    ensures ParityRow(k, 0)[c] == 1 && ParityRow(k, 1)[c] == Pw(c) != 0
  {
    PowerOfOne(c);
    PowerOfTwo(c);
    PwNonZero(c);
    assert Elem(1) == 1 && Elem(2) == 2;
  }

  /** A vector that a parity row kills and that lives on one column is zero. */
  lemma OneColumn(p: Vec, z: Vec, a: nat)
    requires |p| == |z| && a < |z| && p[a] != 0 && Dot(p, z) == 0
    requires forall i :: 0 <= i < |z| && i != a ==> z[i] == 0
    ensures z == Zero(|z|)
  {
    DotSingle(p, z, a);
    NoZeroDivisors(p[a], z[a]);
    hide Times, Dot;
  }

  /** The two first parity rows kill no nonzero vector that lives on two columns. */
  lemma TwoColumns(k: nat, z: Vec, a: nat, b: nat)
    requires k < 255 && |z| == k && a < b < k
    requires Dot(ParityRow(k, 0), z) == 0 && Dot(ParityRow(k, 1), z) == 0
    requires forall i :: 0 <= i < k && i != a && i != b ==> z[i] == 0
    ensures z == Zero(k)
  {
    hide Times, Dot, Plus, Pw, ParityRow;
    DotPair(ParityRow(k, 0), z, a, b);
    DotPair(ParityRow(k, 1), z, a, b);
    FirstParityRows(k, a);
    FirstParityRows(k, b);
    TimesZero(z[a]);
    TimesZero(z[b]);
    PlusLaws(z[a], z[b], 0);
    TimesDistributes(z[a], Pw(a), Pw(b));
    NoZeroDivisors(Plus(Pw(a), Pw(b)), z[a]);
    PwInjective(a, b);
    PlusLaws(Pw(a), Pw(b), 0);
  }

  ghost function Lost(avail: seq<nat>, k: nat): set<nat> {
    set i | 0 <= i < k && i !in avail
  }

  ghost function Range(k: nat): set<nat> {
    if k == 0 then {} else Range(k - 1) + {k - 1}
  }

  lemma {:induction false} RangeIs(k: nat)
    ensures |Range(k)| == k && forall i :: i in Range(k) <==> 0 <= i < k
  {
    if k > 0 { RangeIs(k - 1); }
  }

  ghost function Elements(s: seq<nat>): set<nat> {
    set i | i in s
  }

  lemma {:induction false} ElementCount(s: seq<nat>, hi: nat)
    requires Increasing(s, 0, hi)
    ensures |Elements(s)| == |s|
  {
    if s == [] {
      assert Elements(s) == {};
    } else {
      var init, last := s[..|s| - 1], s[|s| - 1];
      ElementCount(init, hi);
      assert s == init + [last];
      assert Elements(s) == Elements(init) + {last};
    }
  }

  /** When i data shards were chosen, k - i are lost. */
  lemma LostCount(avail: seq<nat>, k: nat, hi: nat, i: nat)
    requires Increasing(avail, 0, hi) && i <= |avail| && i <= k
    requires (forall j :: 0 <= j < i ==> avail[j] < k) && (forall j :: i <= j < |avail| ==> k <= avail[j])
    ensures |Lost(avail, k)| == k - i
  {
    var data := avail[..i];
    RangeIs(k);
    ElementCount(data, hi);
    hide Range;
    forall x | 0 <= x < k ensures x in avail <==> x in data {
      if x in avail {
        var j :| 0 <= j < |avail| && avail[j] == x;
        assert data[j] == x;
      }
    }
    assert Lost(avail, k) == Range(k) - Elements(data);
    assert Elements(data) <= Range(k);
  }

  lemma KilledRow(k: nat, m: nat, avail: seq<nat>, z: Vec, j: nat)
    requires k + m <= 32 && |avail| == k && Increasing(avail, 0, k + m) && |z| == k && j < k
    ensures MulVec(Chosen(Generator(k, m), avail), z)[j] == Dot(GeneratorRow(k, avail[j]), z)
  {
    hide Dot, GeneratorRow;
  }

  /** A vector that the chosen rows kill vanishes on every chosen data shard. */
  lemma KilledOutsideLost(k: nat, m: nat, avail: seq<nat>, z: Vec)
    requires k + m <= 32 && |avail| == k && Increasing(avail, 0, k + m) && |z| == k
    requires MulVec(Chosen(Generator(k, m), avail), z) == Zero(k)
    ensures forall i :: 0 <= i < k && i !in Lost(avail, k) ==> z[i] == 0
    ensures forall j :: 0 <= j < k && avail[j] >= k ==> Dot(ParityRow(k, avail[j] - k), z) == 0
  {
    hide Dot, ParityRow, MulVec, Generator;
    forall j | 0 <= j < k ensures Dot(GeneratorRow(k, avail[j]), z) == 0 {
      KilledRow(k, m, avail, z, j);
    }
    forall i | 0 <= i < k && i !in Lost(avail, k) ensures z[i] == 0 {
      var j :| 0 <= j < k && avail[j] == i;
      UnitDot(k, i, z);
    }
  }

  /** With at most two parity shards, any k shards determine the data. */
  lemma TwoParityShards(k: nat, m: nat, avail: seq<nat>)
    requires 0 < k && k + m <= 32 && m <= 2 && |avail| == k && Increasing(avail, 0, k + m)
    ensures !Ambiguous(k, m, avail)
  {
    forall z: Vec | |z| == k && MulVec(Chosen(Generator(k, m), avail), z) == Zero(k) ensures z == Zero(k) {
      KilledOutsideLost(k, m, avail, z);
      hide Dot, Generator, ParityRow;
      if avail[k - 1] < k {
        NoneLost(k, m, avail, z);
      } else if k == 1 || avail[k - 2] < k {
        OneLost(k, m, avail, z);
      } else {
        TwoLost(k, m, avail, z);
      }
    }
  }

  lemma NoneLost(k: nat, m: nat, avail: seq<nat>, z: Vec)
    requires 0 < k && |avail| == k && Increasing(avail, 0, k + m) && |z| == k && avail[k - 1] < k
    requires forall i :: 0 <= i < k && i !in Lost(avail, k) ==> z[i] == 0
    ensures z == Zero(k)
  {
    LostCount(avail, k, k + m, k);
    assert Lost(avail, k) == {};
  }

  lemma OneLost(k: nat, m: nat, avail: seq<nat>, z: Vec)
    requires 0 < k && k + m <= 32 && m <= 2 && |avail| == k && Increasing(avail, 0, k + m) && |z| == k
    requires avail[k - 1] >= k && (k == 1 || avail[k - 2] < k)
    requires forall i :: 0 <= i < k && i !in Lost(avail, k) ==> z[i] == 0
    requires Dot(ParityRow(k, avail[k - 1] - k), z) == 0
    ensures z == Zero(k)
  {
    hide Dot, ParityRow;
    LostCount(avail, k, k + m, k - 1);
    var a :| a in Lost(avail, k);
    assert Lost(avail, k) == {a} by { Singleton(Lost(avail, k), a); }
    FirstParityRows(k, a);
    OneColumn(ParityRow(k, avail[k - 1] - k), z, a);
  }

  lemma Singleton(s: set<nat>, a: nat)
    requires |s| == 1 && a in s
    ensures s == {a}
  {
    assert |s - {a}| == 0;
  }

  lemma TwoLost(k: nat, m: nat, avail: seq<nat>, z: Vec)
    requires 1 < k && k + m <= 32 && m <= 2 && |avail| == k && Increasing(avail, 0, k + m) && |z| == k
    requires avail[k - 1] >= k && avail[k - 2] >= k
    requires forall i :: 0 <= i < k && i !in Lost(avail, k) ==> z[i] == 0
    requires forall j :: 0 <= j < k && avail[j] >= k ==> Dot(ParityRow(k, avail[j] - k), z) == 0
    ensures z == Zero(k)
  {
    hide Dot, ParityRow;
    assert avail[k - 2] == k && avail[k - 1] == k + 1;
    assert Dot(ParityRow(k, avail[k - 2] - k), z) == 0 && Dot(ParityRow(k, avail[k - 1] - k), z) == 0;
    LostCount(avail, k, k + m, k - 2);
    var a :| a in Lost(avail, k);
    assert |Lost(avail, k) - {a}| == 1;
    var b :| b in Lost(avail, k) - {a};
    Singleton(Lost(avail, k) - {a}, b);
    forall i | 0 <= i < k && i != a && i != b ensures z[i] == 0 {
      assert i !in Lost(avail, k) - {a};
    }
    if a < b { TwoColumns(k, z, a, b); } else { TwoColumns(k, z, b, a); }
  }

  // ---------- three parity shards are not enough ----------

  /** Only positions i < j < l matter when the other products vanish. */
  lemma {:induction false} DotTriple(u: Vec, v: Vec, i: nat, j: nat, l: nat)
    requires |u| == |v| && i < j < l < |u|
    requires forall x :: 0 <= x < |u| && x != i && x != j && x != l ==> u[x] == 0 || v[x] == 0
    ensures Dot(u, v) == Plus(Plus(Times(u[i], v[i]), Times(u[j], v[j])), Times(u[l], v[l]))
  {
    var n := |u| - 1;
    if l == n {
      DotPair(u[..n], v[..n], i, j);
    } else {
      DotTriple(u[..n], v[..n], i, j, l);
      TimesZero(u[n]);
      TimesZero(v[n]);
      PlusLaws(Plus(Plus(Times(u[i], v[i]), Times(u[j], v[j])), Times(u[l], v[l])), 0, 0);
    }
    hide Plus, Times;
  }

  /** Lives on columns 1, 2 and 4. */
  function Witness(k: nat): (z: Vec)
    requires k >= 5
    ensures |z| == k
  {
    seq(k, i requires 0 <= i < k => if i == 1 then 20 else if i == 2 then 18 else if i == 4 then 6 else 0)
  }

  lemma SmallPowersOf(a: elem)
    ensures Power(a, 1) == a && Power(a, 2) == Times(a, a) && Power(a, 4) == Times(a, Times(a, Times(a, a)))
  {
    TimesZero(a);
    assert Power(a, 0) == 1 && Power(a, 1) == Times(a, 1);
    assert Power(a, 2) == Times(a, Power(a, 1));
    assert Power(a, 3) == Times(a, Power(a, 2));
    assert Power(a, 4) == Times(a, Power(a, 3));
    hide Times;
  }

  lemma ParityKillsWitness(k: nat, r: nat)
    requires 5 <= k && r < 3
    ensures Dot(ParityRow(k, r), Witness(k)) == 0
  {
    hide Dot, Power, Times, Plus, ParityRow, Elem, Witness;
    WitnessDot(k, r);
    SmallElems();
    if r == 0 { FirstRow(); } else if r == 1 { SecondRow(); } else { ThirdRow(); }
  }

  lemma SmallElems()
    ensures Elem(1) == 1 && Elem(2) == 2 && Elem(3) == 3
  {
  }

  lemma WitnessDot(k: nat, r: nat)
    requires 5 <= k && r < 3
    ensures var a := Elem(r + 1);
      Dot(ParityRow(k, r), Witness(k)) ==
        Plus(Plus(Times(a, 20), Times(Times(a, a), 18)), Times(Times(a, Times(a, Times(a, a))), 6))
  {
    hide Dot, Power, Times, Plus, Elem;
    SmallPowersOf(Elem(r + 1));
    DotTriple(ParityRow(k, r), Witness(k), 1, 2, 4);
  }

  lemma FirstRow()
    ensures Times(1, 1) == 1 && Times(1, Times(1, 1)) == 1
    ensures Plus(Plus(Times(1, 20), Times(1, 18)), Times(1, 6)) == 0
  {
    TimesZero(1);
    TimesZero(20);
    TimesZero(18);
    TimesZero(6);
    hide Times;
  }

  lemma TimesTwo(b: elem)
    ensures Times(2, b) == Mulx(b) && Times(3, b) == Plus(Mulx(b), b)
  {
    TimesZero(b);
    TimesMulx(1, b);
    assert Mulx(1) == 2 && Plus(2, 1) == 3;
    TimesDistributes(b, 2, 1);
    hide Times, Plus, Mulx;
  }

  lemma SecondRow()
    ensures Times(2, 2) == 4 && Times(2, Times(2, Times(2, 2))) == 16
    ensures Plus(Plus(Times(2, 20), Times(4, 18)), Times(16, 6)) == 0
  {
    hide Times;
    TimesTwo(2);
    TimesTwo(4);
    TimesTwo(8);
    TimesTwo(20);
    FourTimes(18);
    FourTimes(6);
    FourTimes(24);
    TimesAssociates(4, 4, 6);
  }

  lemma FourTimes(b: elem)
    ensures Times(4, b) == Mulx(Mulx(b)) && Times(4, 4) == 16
  {
    hide Times;
    TimesTwo(2);
    TimesTwo(b);
    TimesTwo(Mulx(b));
    TimesAssociates(2, 2, b);
    TimesTwo(4);
    TimesTwo(8);
    TimesAssociates(2, 2, 4);
  }

  lemma ThirdRow()
    ensures Times(3, 3) == 5 && Times(3, Times(3, Times(3, 3))) == 17
    ensures Plus(Plus(Times(3, 20), Times(5, 18)), Times(17, 6)) == 0
  {
    hide Times;
    TimesTwo(3);
    TimesTwo(5);
    TimesTwo(15);
    TimesTwo(20);
    TimesTwo(18);
    TimesTwo(54);
    TimesAssociates(3, 3, 18);
    TimesTwo(6);
    TimesTwo(10);
    TimesTwo(30);
    TimesTwo(34);
    TimesAssociates(3, 3, 6);
    TimesAssociates(5, 5, 6);
    TimesAssociates(3, 3, 5);
    TimesAssociates(3, 3, 30);
  }

  /** For every k >= 5 and m >= 3: when data shards 1, 2 and 4 are replaced by
      the first three parity shards, the data is not determined. */
  lemma ThreeParityShardsFail(k: nat, m: nat, avail: seq<nat>)
    requires 5 <= k && 3 <= m && k + m <= 32 && |avail| == k && Increasing(avail, 0, k + m)
    requires forall i :: 0 <= i < k ==> avail[i] < k + 3 && avail[i] != 1 && avail[i] != 2 && avail[i] != 4
    ensures Ambiguous(k, m, avail)
  {
    var sub, z := Chosen(Generator(k, m), avail), Witness(k);
    hide Dot, ParityRow, Times, Plus, MulVec, Generator;
    forall j | 0 <= j < k ensures MulVec(sub, z)[j] == 0 {
      KilledRow(k, m, avail, z, j);
      if avail[j] < k {
        UnitDot(k, avail[j], z);
      } else {
        ParityKillsWitness(k, avail[j] - k);
      }
    }
    assert MulVec(sub, z) == Zero(k);
    assert z[1] != Zero(k)[1];
  }

  /** RS(10,4) without data shards 1, 2 and 4. */
  lemma TenFourFails()
    ensures var avail := [0, 3, 5, 6, 7, 8, 9, 10, 11, 12];
      Increasing(avail, 0, 14) && |avail| == 10 && Ambiguous(10, 4, avail)
  {
    ThreeParityShardsFail(10, 4, [0, 3, 5, 6, 7, 8, 9, 10, 11, 12]);
  }

  // ---------- exactly when the data is determined ----------

  /** Some nonzero vector on the lost columns is killed by the chosen parity rows. */
  ghost predicate LostMinorSingular(k: nat, m: nat, avail: seq<nat>)
    requires k + m <= 32 && |avail| == k && Increasing(avail, 0, k + m)
  {
    exists z: Vec :: |z| == k && z != Zero(k)
      && (forall i :: 0 <= i < k && i !in Lost(avail, k) ==> z[i] == 0)
      && (forall j :: 0 <= j < k && avail[j] >= k ==> Dot(ParityRow(k, avail[j] - k), z) == 0)
  }

  lemma MinorOfKernel(k: nat, m: nat, avail: seq<nat>, z: Vec)
    requires k + m <= 32 && |avail| == k && Increasing(avail, 0, k + m) && |z| == k && z != Zero(k)
    requires MulVec(Chosen(Generator(k, m), avail), z) == Zero(k)
    ensures LostMinorSingular(k, m, avail)
  {
    hide Dot, ParityRow, MulVec, Generator;
    KilledOutsideLost(k, m, avail, z);
  }

  lemma KernelOfMinor(k: nat, m: nat, avail: seq<nat>, z: Vec)
    requires k + m <= 32 && |avail| == k && Increasing(avail, 0, k + m) && |z| == k
    requires forall i :: 0 <= i < k && i !in Lost(avail, k) ==> z[i] == 0
    requires forall j :: 0 <= j < k && avail[j] >= k ==> Dot(ParityRow(k, avail[j] - k), z) == 0
    ensures MulVec(Chosen(Generator(k, m), avail), z) == Zero(k)
  {
    hide Dot, ParityRow, MulVec, Generator;
    var w := MulVec(Chosen(Generator(k, m), avail), z);
    forall j | 0 <= j < k ensures w[j] == 0 {
      KilledRow(k, m, avail, z, j);
      if avail[j] < k { UnitDot(k, avail[j], z); }
    }
  }

  lemma AmbiguousIff(k: nat, m: nat, avail: seq<nat>)
    requires k + m <= 32 && |avail| == k && Increasing(avail, 0, k + m)
    ensures Ambiguous(k, m, avail) <==> LostMinorSingular(k, m, avail)
  {
    hide Dot, ParityRow, MulVec, Generator, Lost;
    if Ambiguous(k, m, avail) {
      var z: Vec :| |z| == k && z != Zero(k) && MulVec(Chosen(Generator(k, m), avail), z) == Zero(k);
      MinorOfKernel(k, m, avail, z);
    }
    if LostMinorSingular(k, m, avail) {
      var z: Vec :| |z| == k && z != Zero(k)
        && (forall i :: 0 <= i < k && i !in Lost(avail, k) ==> z[i] == 0)
        && (forall j :: 0 <= j < k && avail[j] >= k ==> Dot(ParityRow(k, avail[j] - k), z) == 0);
      KernelOfMinor(k, m, avail, z);
    }
  }

  // ---------- when decoding fails, the data is really lost ----------

  lemma OneByteShards(k: nat, z: Vec)
    requires 0 < k && |z| == k
    ensures ShardSize(k, k) == 1 && DataColumn(k, z, 0) == z
  {
    QuotientOne(k);
    forall s | 0 <= s < k ensures DataShard(k, z, s)[0] == z[s] {
      SliceFits(k, 1, s);
    }
  }

  lemma QuotientOne(k: nat)
    requires k > 0
    ensures (k + k - 1) / k == 1
  {
    var q, r := (k + k - 1) / k, (k + k - 1) % k;
    assert k + k - 1 == k * q + r;
    assert k * 0 == 0;
    if q > 1 { AtLeastTwice(k, q); }
  }

  lemma AtLeastTwice(k: nat, q: nat)
    requires q >= 2
    ensures k * q >= 2 * k
  {
    assert k * q == 2 * k + k * (q - 2);
  }

  lemma ShardOfBytes(k: nat, m: nat, z: Vec, s: nat)
    requires 0 < k && k + m <= 32 && |z| == k && s < k + m
    ensures Encoded(k, m, z)[s] == [Dot(GeneratorRow(k, s), z)]
  {
    hide Dot, GeneratorRow;
    OneByteShards(k, z);
  }

  /** Two different inputs have the same chosen shards exactly when the rows are dependent. */
  lemma AmbiguousDataExists(k: nat, m: nat, avail: seq<nat>) returns (z: Vec)
    requires 0 < k && k + m <= 32 && |avail| == k && Increasing(avail, 0, k + m) && Ambiguous(k, m, avail)
    ensures |z| == k && z != Zero(k)
    ensures forall i :: 0 <= i < k ==> Encoded(k, m, z)[avail[i]] == Encoded(k, m, Zero(k))[avail[i]]
  {
    hide Dot, Generator, GeneratorRow, Encoded, MulVec;
    var sub := Chosen(Generator(k, m), avail);
    z :| |z| == k && z != Zero(k) && MulVec(sub, z) == Zero(k);
    MulVecZero(sub, k);
    forall i | 0 <= i < k ensures Encoded(k, m, z)[avail[i]] == Encoded(k, m, Zero(k))[avail[i]] {
      ShardOfBytes(k, m, z, avail[i]);
      ShardOfBytes(k, m, Zero(k), avail[i]);
      KilledRow(k, m, avail, z, i);
      KilledRow(k, m, avail, Zero(k), i);
    }
  }
}
