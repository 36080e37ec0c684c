/** The field GF(2^8) of erasure/reed_solomon.hpp: its exp/log tables against
    polynomial multiplication modulo x^8 + x^4 + x^3 + x^2 + 1. */
module GF256 {
  type elem = bv8

  // ---------- addition ----------

  function Plus(a: elem, b: elem): elem {
    a ^ b
  }

  lemma PlusLaws(a: elem, b: elem, c: elem)
    ensures Plus(a, b) == Plus(b, a) && Plus(Plus(a, b), c) == Plus(a, Plus(b, c))
    ensures Plus(a, a) == 0 && Plus(a, 0) == a && Plus(0, a) == a
    ensures Plus(a, b) == 0 ==> a == b
  {
  }

  lemma Swap(p: elem, q: elem, r: elem, s: elem)
    ensures Plus(Plus(p, q), Plus(r, s)) == Plus(Plus(p, r), Plus(q, s))
  {
    PlusLaws(p, q, Plus(r, s));
    PlusLaws(q, r, s);
    PlusLaws(r, q, s);
    PlusLaws(p, r, Plus(q, s));
    hide Plus;
  }

  // ---------- multiplication of polynomials ----------

  /** Multiplication by x. */
  function Mulx(a: elem): elem {
    Plus(a << 1, if a & 0x80 != 0 then 0x1D else 0)
  }

  function Sel(b: elem, mask: elem, v: elem): elem {
    if b & mask != 0 then v else 0
  }

  function Sum(p0: elem, p1: elem, p2: elem, p3: elem, p4: elem, p5: elem, p6: elem, p7: elem): elem {
    Plus(Plus(Plus(p0, p1), Plus(p2, p3)), Plus(Plus(p4, p5), Plus(p6, p7)))
  }

  /** The product: the sum of x^i * a over the bits i of b. */
  function Times(a: elem, b: elem): elem {
    var a1 := Mulx(a);
    var a2 := Mulx(a1);
    var a3 := Mulx(a2);
    var a4 := Mulx(a3);
    var a5 := Mulx(a4);
    var a6 := Mulx(a5);
    var a7 := Mulx(a6);
    Sum(Sel(b, 1, a), Sel(b, 2, a1), Sel(b, 4, a2), Sel(b, 8, a3),
        Sel(b, 16, a4), Sel(b, 32, a5), Sel(b, 64, a6), Sel(b, 128, a7))
  }

  lemma ShiftLinear(a: elem, b: elem)
    ensures Plus(a, b) << 1 == Plus(a << 1, b << 1) && Plus(a, b) & 0x80 == Plus(a & 0x80, b & 0x80)
    ensures (a & 0x80 == 0 || a & 0x80 == 0x80) && (b & 0x80 == 0 || b & 0x80 == 0x80)
  {
  }

  lemma MulxLinear(a: elem, b: elem)
    ensures Mulx(Plus(a, b)) == Plus(Mulx(a), Mulx(b))
  {
    ShiftLinear(a, b);
    Swap(a << 1, b << 1, if a & 0x80 != 0 then 0x1D else 0, if b & 0x80 != 0 then 0x1D else 0);
  }

  lemma SelPlus(b: elem, c: elem, mask: elem, v: elem)
    requires mask == 1 || mask == 2 || mask == 4 || mask == 8 || mask == 16 || mask == 32 || mask == 64 || mask == 128
    ensures Sel(Plus(b, c), mask, v) == Plus(Sel(b, mask, v), Sel(c, mask, v))
  {
    PlusLaws(v, v, v);
  }

  lemma MulxSel(b: elem, mask: elem, v: elem)
    ensures Mulx(Sel(b, mask, v)) == Sel(b, mask, Mulx(v))
  {
  }

  lemma SumPlus(p0: elem, p1: elem, p2: elem, p3: elem, p4: elem, p5: elem, p6: elem, p7: elem,
                q0: elem, q1: elem, q2: elem, q3: elem, q4: elem, q5: elem, q6: elem, q7: elem)
    ensures Sum(Plus(p0, q0), Plus(p1, q1), Plus(p2, q2), Plus(p3, q3), Plus(p4, q4), Plus(p5, q5), Plus(p6, q6), Plus(p7, q7))
      == Plus(Sum(p0, p1, p2, p3, p4, p5, p6, p7), Sum(q0, q1, q2, q3, q4, q5, q6, q7))
  {
    hide Plus;
    Swap(p0, q0, p1, q1);
    Swap(p2, q2, p3, q3);
    Swap(p4, q4, p5, q5);
    Swap(p6, q6, p7, q7);
    var (r0, r1, r2, r3) := (Plus(p0, p1), Plus(p2, p3), Plus(p4, p5), Plus(p6, p7));
    var (s0, s1, s2, s3) := (Plus(q0, q1), Plus(q2, q3), Plus(q4, q5), Plus(q6, q7));
    Swap(r0, s0, r1, s1);
    Swap(r2, s2, r3, s3);
    Swap(Plus(r0, r1), Plus(s0, s1), Plus(r2, r3), Plus(s2, s3));
  }

  lemma SumMulx(p0: elem, p1: elem, p2: elem, p3: elem, p4: elem, p5: elem, p6: elem, p7: elem)
    ensures Mulx(Sum(p0, p1, p2, p3, p4, p5, p6, p7))
      == Sum(Mulx(p0), Mulx(p1), Mulx(p2), Mulx(p3), Mulx(p4), Mulx(p5), Mulx(p6), Mulx(p7))
  {
    hide Plus, Mulx;
    MulxLinear(Plus(Plus(p0, p1), Plus(p2, p3)), Plus(Plus(p4, p5), Plus(p6, p7)));
    MulxLinear(Plus(p0, p1), Plus(p2, p3));
    MulxLinear(Plus(p4, p5), Plus(p6, p7));
    MulxLinear(p0, p1);
    MulxLinear(p2, p3);
    MulxLinear(p4, p5);
    MulxLinear(p6, p7);
  }

  lemma TimesPlus(a: elem, b: elem, c: elem)
    ensures Times(a, Plus(b, c)) == Plus(Times(a, b), Times(a, c))
  {
    hide Plus, Mulx, Sel, Sum;
    var a1 := Mulx(a);
    var a2 := Mulx(a1);
    var a3 := Mulx(a2);
    var a4 := Mulx(a3);
    var a5 := Mulx(a4);
    var a6 := Mulx(a5);
    var a7 := Mulx(a6);
    SelPlus(b, c, 1, a);
    SelPlus(b, c, 2, a1);
    SelPlus(b, c, 4, a2);
    SelPlus(b, c, 8, a3);
    SelPlus(b, c, 16, a4);
    SelPlus(b, c, 32, a5);
    SelPlus(b, c, 64, a6);
    SelPlus(b, c, 128, a7);
    SumPlus(Sel(b, 1, a), Sel(b, 2, a1), Sel(b, 4, a2), Sel(b, 8, a3),
            Sel(b, 16, a4), Sel(b, 32, a5), Sel(b, 64, a6), Sel(b, 128, a7),
            Sel(c, 1, a), Sel(c, 2, a1), Sel(c, 4, a2), Sel(c, 8, a3),
            Sel(c, 16, a4), Sel(c, 32, a5), Sel(c, 64, a6), Sel(c, 128, a7));
  }

  lemma TimesMulx(a: elem, b: elem)
    ensures Times(Mulx(a), b) == Mulx(Times(a, b))
  {
    hide Plus, Mulx, Sel, Sum;
    var a1 := Mulx(a);
    var a2 := Mulx(a1);
    var a3 := Mulx(a2);
    var a4 := Mulx(a3);
    var a5 := Mulx(a4);
    var a6 := Mulx(a5);
    var a7 := Mulx(a6);
    MulxSel(b, 1, a);
    MulxSel(b, 2, a1);
    MulxSel(b, 4, a2);
    MulxSel(b, 8, a3);
    MulxSel(b, 16, a4);
    MulxSel(b, 32, a5);
    MulxSel(b, 64, a6);
    MulxSel(b, 128, a7);
    SumMulx(Sel(b, 1, a), Sel(b, 2, a1), Sel(b, 4, a2), Sel(b, 8, a3),
            Sel(b, 16, a4), Sel(b, 32, a5), Sel(b, 64, a6), Sel(b, 128, a7));
  }

  lemma TimesOne(b: elem)
    ensures Times(1, b) == b && Times(0, b) == 0 && Times(b, 0) == 0
  {
  }

  // ---------- powers of x ----------

  /** x^i. */
  function Pw(i: nat): elem {
    if i == 0 then 1 else Mulx(Pw(i - 1))
  }

  lemma {:induction false} PwPlus(i: nat, j: nat)
    ensures Times(Pw(i), Pw(j)) == Pw(i + j)
  {
    if i == 0 {
      TimesOne(Pw(j));
    } else {
      PwPlus(i - 1, j);
      TimesMulx(Pw(i - 1), Pw(j));
      hide Mulx, Times;
    }
  }

  lemma SmallPowers()
    ensures Pw(1) == 2 && Pw(2) == 4 && Pw(3) == 8 && Pw(4) == 16 && Pw(8) == 0x1D
  {
    PwPlus(4, 4);
  }

  lemma Period()
    ensures Pw(15) == 0x26 && Pw(51) == 0x0A && Pw(85) == 0xD6 && Pw(255) == 1
  {
    SmallPowers();
    hide Pw;
    PwPlus(8, 8);
    PwPlus(16, 16);
    PwPlus(32, 32);
    PwPlus(64, 64);
    assert Pw(16) == 0x4C && Pw(32) == 0x9D && Pw(64) == 0x5F && Pw(128) == 0x85;
    PwPlus(4, 8);
    PwPlus(12, 3);
    PwPlus(16, 32);
    PwPlus(48, 3);
    PwPlus(16, 1);
    PwPlus(17, 17);
    PwPlus(34, 34);
    PwPlus(17, 68);
    assert Pw(17) == 0x98 && Pw(34) == 0x4E && Pw(68) == 0x99 && Pw(85) == 0xD6;
    PwPlus(85, 85);
    PwPlus(170, 85);
  }

  lemma {:induction false} PwMod(i: nat)
    ensures Pw(i) == Pw(i % 255)
  {
    if i >= 255 {
      Period();
      PwPlus(255, i - 255);
      PwMod(i - 255);
      TimesOne(Pw(i - 255));
      hide Pw, Times;
    }
  }

  lemma {:induction false} PwNonZero(i: nat)
    ensures Pw(i) != 0
  {
    if i > 0 { PwNonZero(i - 1); }
  }

  /** If x^d = 1 then some divisor of 255, at most d, does it too. */
  lemma {:induction false} DivisorOfPeriod(d: nat) returns (o: nat)
    requires 0 < d < 255 && Pw(d) == 1
    ensures 0 < o <= d && 255 % o == 0 && Pw(o) == 1
    decreases d
  {
    hide Pw, Times;
    o := d;
    if 255 % d != 0 {
      Period();
      MultiplesAreOne(d, 255 / d);
      PwPlus(d * (255 / d), 255 % d);
      assert d * (255 / d) + 255 % d == 255;
      TimesOne(Pw(255 % d));
      o := DivisorOfPeriod(255 % d);
    }
  }

  lemma {:induction false} MultiplesAreOne(d: nat, k: nat)
    requires Pw(d) == 1
    ensures Pw(d * k) == 1
  {
    if k == 0 {
      assert d * k == 0;
    } else {
      MultiplesAreOne(d, k - 1);
      PwPlus(d, d * (k - 1));
      assert d + d * (k - 1) == d * k;
      TimesOne(1);
      hide Pw, Times;
    }
  }

  lemma ProperDivisor(o: nat, q: nat)
    requires o * q == 255 && o < 255
    ensures (exists k :: o * k == 15) || (exists k :: o * k == 51) || (exists k :: o * k == 85)
  {
    if q <= 15 {
      SmallFactor(q, o);
      assert o * 1 == 51 || o * 1 == 85 || o * 5 == 85 || o * 3 == 51;
    } else {
      if o >= 16 { LargeProduct(o, q); }
      SmallFactor(o, q);
      assert o * 15 == 15 || o * 5 == 15 || o * 3 == 15 || o * 1 == 15;
    }
  }

  lemma LargeProduct(a: nat, b: nat)
    requires a >= 16 && b >= 16
    ensures a * b >= 256
  {
    assert a * b >= 16 * b;
  }

  lemma SmallFactor(a: nat, b: nat)
    requires a * b == 255 && a <= 15
    ensures (a == 1 && b == 255) || (a == 3 && b == 85) || (a == 5 && b == 51) || (a == 15 && b == 17)
  {
    if a == 1 {} else if a == 2 {} else if a == 3 {} else if a == 4 {} else if a == 5 {}
    else if a == 6 {} else if a == 7 {} else if a == 8 {} else if a == 9 {} else if a == 10 {}
    else if a == 11 {} else if a == 12 {} else if a == 13 {} else if a == 14 {}
  }

  /** x generates: its powers below 255 are all different. */
  lemma PrimitiveElement(d: nat)
    requires 0 < d < 255
    ensures Pw(d) != 1
  {
    if Pw(d) == 1 {
      var o := DivisorOfPeriod(d);
      ProperDivisor(o, 255 / o);
      Period();
      var k :| o * k == 15 || o * k == 51 || o * k == 85;
      MultiplesAreOne(o, k);
    }
  }

  // ---------- logarithms ----------

  lemma PwInjective(i: nat, j: nat)
    requires i < j < 255
    ensures Pw(i) != Pw(j)
  {
    hide Pw, Times;
    PwPlus(i, 255 - i);
    PwPlus(j, 255 - i);
    PwPlus(255, j - i);
    Period();
    TimesOne(Pw(j - i));
    PrimitiveElement(j - i);
  }

  ghost function PowersBelow(n: nat): set<elem> {
    set i | 0 <= i < n :: Pw(i)
  }

  lemma {:induction false} CountPowers(n: nat)
    requires n <= 255
    ensures |PowersBelow(n)| == n
  {
    hide Pw;
    if n == 0 {
      assert PowersBelow(0) == {};
    } else {
      CountPowers(n - 1);
      assert PowersBelow(n) == PowersBelow(n - 1) + {Pw(n - 1)};
      forall i | 0 <= i < n - 1 ensures Pw(i) != Pw(n - 1) {
        PwInjective(i, n - 1);
      }
    }
  }

  function Elem(i: nat): elem
    requires i <= 255
  {
    i as elem
  }

  ghost function Below(n: nat): set<elem>
    requires n <= 255
  {
    set i | 1 <= i <= n :: Elem(i)
  }

  lemma {:induction false} CountBelow(n: nat)
    requires n <= 255
    ensures |Below(n)| <= n
  {
    if n == 0 {
      assert Below(0) == {};
    } else {
      CountBelow(n - 1);
      assert Below(n) == Below(n - 1) + {Elem(n)};
    }
  }

  /** Every nonzero element is a power of x. */
  lemma IsPower(a: elem)
    requires a != 0
    ensures exists i :: 0 <= i < 255 && Pw(i) == a
  {
    hide Pw;
    CountPowers(255);
    CountBelow(255);
    forall p | p in PowersBelow(255) ensures p in Below(255) {
      var i :| 0 <= i < 255 && p == Pw(i);
      PwNonZero(i);
      NonZeroBelow(p);
    }
    NonZeroBelow(a);
    SubsetOfSize(PowersBelow(255), Below(255));
  }

  lemma NonZeroBelow(a: elem)
    requires a != 0
    ensures a in Below(255)
  {
    var i := a as nat;
    assert Elem(i) == a && 1 <= i <= 255;
  }

  lemma SubsetOfSize(a: set<elem>, b: set<elem>)
    requires a <= b && |b| <= |a|
    ensures a == b
  {
    assert b == a + (b - a);
    assert |b| == |a| + |b - a|;
  }

  ghost function Log(a: elem): (i: nat)
    requires a != 0
    ensures i < 255 && Pw(i) == a
  {
    IsPower(a);
    var i :| 0 <= i < 255 && Pw(i) == a;
    i
  }

  lemma LogPw(i: nat)
    requires i < 255
    ensures Pw(i) != 0 && Log(Pw(i)) == i
  {
    PwNonZero(i);
    hide Pw;
    var j := Log(Pw(i));
    if j < i { PwInjective(j, i); } else if i < j { PwInjective(i, j); }
  }

  // ---------- the field ----------

  lemma TimesZero(a: elem)
    ensures Times(0, a) == 0 && Times(a, 0) == 0 && Times(1, a) == a && Times(a, 1) == a
  {
    TimesOne(a);
    if a != 0 {
      hide Pw, Times;
      PwPlus(Log(a), 0);
      PwZero();
    }
  }

  lemma PwZero()
    ensures Pw(0) == 1
  {
  }

  lemma TimesPowers(a: elem, b: elem)
    requires a != 0 && b != 0
    ensures Times(a, b) == Pw(Log(a) + Log(b)) != 0
  {
    hide Times, Pw;
    PwPlus(Log(a), Log(b));
    PwNonZero(Log(a) + Log(b));
  }

  lemma TimesCommutes(a: elem, b: elem)
    ensures Times(a, b) == Times(b, a)
  {
    TimesZero(a);
    TimesZero(b);
    hide Times, Pw;
    if a != 0 && b != 0 {
      TimesPowers(a, b);
      TimesPowers(b, a);
    }
  }

  lemma TimesAssociates(a: elem, b: elem, c: elem)
    ensures Times(Times(a, b), c) == Times(a, Times(b, c))
  {
    TimesZero(a);
    TimesZero(b);
    TimesZero(c);
    TimesZero(Times(a, b));
    TimesZero(Times(b, c));
    hide Times, Pw;
    if a != 0 && b != 0 && c != 0 {
      PwPlus(Log(a), Log(b));
      PwPlus(Log(b), Log(c));
      PwPlus(Log(a) + Log(b), Log(c));
      PwPlus(Log(a), Log(b) + Log(c));
    }
  }

  lemma TimesDistributes(a: elem, b: elem, c: elem)
    ensures Times(a, Plus(b, c)) == Plus(Times(a, b), Times(a, c))
    ensures Times(Plus(b, c), a) == Plus(Times(b, a), Times(c, a))
  {
    TimesPlus(a, b, c);
    hide Times, Plus;
    TimesCommutes(a, b);
    TimesCommutes(a, c);
    TimesCommutes(a, Plus(b, c));
  }

  ghost function Inverse(a: elem): elem
    requires a != 0
  {
    Pw(255 - Log(a))
  }

  lemma InverseCancels(a: elem)
    requires a != 0
    ensures Times(a, Inverse(a)) == 1 && Times(Inverse(a), a) == 1 && Inverse(a) != 0
  {
    hide Pw, Times;
    PwPlus(Log(a), 255 - Log(a));
    PwPlus(255 - Log(a), Log(a));
    PwNonZero(255 - Log(a));
    Period();
  }

  lemma NoZeroDivisors(a: elem, b: elem)
    requires Times(a, b) == 0
    ensures a == 0 || b == 0
  {
    hide Times, Pw;
    if a != 0 && b != 0 { TimesPowers(a, b); }
  }

  ghost function Quotient(a: elem, b: elem): elem
    requires b != 0
  {
    Times(a, Inverse(b))
  }

  lemma QuotientTimes(a: elem, b: elem)
    requires b != 0
    ensures Times(Quotient(a, b), b) == a
  {
    InverseCancels(b);
    TimesAssociates(a, Inverse(b), b);
    TimesZero(a);
  }

  /** a^n. */
  function Power(a: elem, n: nat): elem {
    if n == 0 then 1 else Times(a, Power(a, n - 1))
  }

  lemma {:induction false} PowerOfPw(i: nat, n: nat)
    ensures Power(Pw(i), n) == Pw(i * n)
  {
    hide Pw, Times;
    if n == 0 {
      PwZero();
      assert i * n == 0;
    } else {
      PowerOfPw(i, n - 1);
      PwPlus(i, i * (n - 1));
      assert i + i * (n - 1) == i * n;
    }
  }

  // ---------- the tables ----------

  /** An element in the loop's 32-bit variable, and back. */
  function Wide(a: elem): bv32 {
    a as bv32
  }

  function Narrow(x: bv32): elem
    requires x <= 255
  {
    x as elem
  }

  lemma WideNarrow(a: elem)
    ensures Wide(a) <= 255 && Narrow(Wide(a)) == a && Wide(a) as nat == Idx(a)
  {
  }

  /** An element as a table index. */
  function Idx(a: elem): (i: nat)
    ensures i < 256
  {
    a as nat
  }

  lemma IdxInjective(a: elem, b: elem)
    requires a != b
    ensures Idx(a) != Idx(b)
  {
  }

  datatype Result<T> = Ok(value: T) | InvalidArgument

  lemma FirstPower()
    ensures Pw(0) == 1 && Wide(Pw(0)) == 1
  {
  }

  method Double(x: bv32, ghost a: elem) returns (y: bv32)
    requires x == Wide(a)
    ensures y == Wide(Mulx(a))
  {
    y := x << 1;
    if y & 0x100 != 0 { y := y ^ 0x11D; }
  }

  lemma NextPower(i: nat)
    ensures Pw(i + 1) == Mulx(Pw(i))
  {
  }

  /** The table entries of the first i powers of x. */
  ghost predicate Filled(exp: seq<elem>, log: seq<nat>, i: nat) {
    && |exp| == |log| == 256 && i <= 255
    && forall j :: 0 <= j < i ==> exp[j] == Pw(j) && log[Idx(Pw(j))] == j
  }

  lemma FilledNext(exp: seq<elem>, log: seq<nat>, i: nat)
    requires Filled(exp, log, i) && i < 255
    ensures Filled(exp[i := Pw(i)], log[Idx(Pw(i)) := i], i + 1)
  {
    hide Pw, Idx;
    forall j | 0 <= j < i ensures Idx(Pw(j)) != Idx(Pw(i)) {
      PwInjective(j, i);
      IdxInjective(Pw(j), Pw(i));
    }
  }

  lemma FilledAll(exp: seq<elem>, log: seq<nat>)
    requires Filled(exp, log, 255)
    ensures exp[0] == Pw(255) && forall a: elem :: a != 0 ==> log[Idx(a)] == Log(a)
  {
    hide Idx;
    Period();
    FirstPower();
    forall a: elem | a != 0 ensures log[Idx(a)] == Log(a) {
      assert Pw(Log(a)) == a;
    }
  }

  lemma DivIs(a: elem, b: elem)
    requires b != 0
    ensures Quotient(a, b) == if a == 0 then 0 else Pw((Log(a) + 255 - Log(b)) % 255)
  {
    TimesZero(Inverse(b));
    if a != 0 {
      hide Pw, Times;
      PwPlus(Log(a), 255 - Log(b));
      PwMod(Log(a) + (255 - Log(b)));
    }
  }

  class Tables {
    const exp: array<elem>
    const log: array<nat>

    ghost predicate Valid()
      reads this, exp, log
    {
      && exp.Length == 256 && log.Length == 256
      && (forall i :: 0 <= i < 256 ==> exp[i] == Pw(i))
      && (forall a: elem :: a != 0 ==> log[Idx(a)] == Log(a))
    }

    constructor ()
      ensures Valid() && fresh(exp) && fresh(log)
    {
      exp, log := new elem[256], new nat[256];
      new;
      FirstPower();
      hide Pw, Mulx, Idx, Wide, Narrow;
      var x: bv32 := 1;
      for i := 0 to 255
        invariant x == Wide(Pw(i)) && Filled(exp[..], log[..], i)
      {
        FilledNext(exp[..], log[..], i);
        hide Filled;
        WideNarrow(Pw(i));
        exp[i] := Narrow(x);
        log[x as nat] := i;
        x := Double(x, Pw(i));
        NextPower(i);
      }
      FilledAll(exp[..], log[..]);
      exp[255] := exp[0];
    }

    method Mul(a: elem, b: elem) returns (r: elem)
      requires Valid()
      ensures r == Times(a, b)
    {
      TimesZero(a);
      TimesZero(b);
      if a == 0 || b == 0 { return 0; }
      TimesPowers(a, b);
      PwMod(Log(a) + Log(b));
      return exp[(log[Idx(a)] + log[Idx(b)]) % 255];
    }

    method Div(a: elem, b: elem) returns (r: Result<elem>)
      requires Valid()
      ensures r == if b == 0 then InvalidArgument else Ok(Quotient(a, b))
    {
      if b == 0 { return InvalidArgument; }
      DivIs(a, b);
      if a == 0 { return Ok(0); }
      var i: int, j: int := log[Idx(a)], log[Idx(b)];
      return Ok(exp[(i - j + 255) % 255]);
    }

    method Pow(a: elem, n: nat) returns (r: elem)
      requires Valid()
      ensures r == Power(a, n)
    {
      if n == 0 { return 1; }
      TimesZero(Power(a, n - 1));
      if a == 0 { return 0; }
      PowerOfPw(Log(a), n);
      PwMod(Log(a) * n);
      return exp[(log[Idx(a)] * n) % 255];
    }

    method Inv(a: elem) returns (r: Result<elem>)
      requires Valid()
      ensures r == if a == 0 then InvalidArgument else Ok(Inverse(a))
    {
      if a == 0 { return InvalidArgument; }
      return Ok(exp[255 - log[Idx(a)]]);
    }
  }
}
