/** Which codes of erasure/reed_solomon.hpp keep the promise that any k of the
    k + m shards give the data back. */
module ShardChoice {
  import opened GF256
  import opened GFLinear
  import opened ReedSolomonCode

  // ---------- polynomials of degree two ----------

  /** z0 + z1 X + z2 X^2 at p. */
  function At(p: elem, z0: elem, z1: elem, z2: elem): elem {
    Plus(Plus(z0, Times(p, z1)), Times(Times(p, p), z2))
  }

  lemma Cancels(a: elem, b: elem)
    ensures Plus(a, b) == 0 <==> a == b
  {
    PlusLaws(a, b, 0);
  }

  lemma NonZeroFactor(u: elem, y: elem)
    requires u != 0 && Times(u, y) == 0
    ensures y == 0
  {
    NoZeroDivisors(u, y);
    hide Times;
  }

  lemma TimesNothing(u: elem)
    ensures Times(u, 0) == 0
  {
    TimesZero(u);
    hide Times;
  }

  /** A line through two different places that is zero at both is zero. */
  lemma TwoLines(u: elem, v: elem, x: elem, y: elem)
    requires u != v && Plus(x, Times(u, y)) == 0 && Plus(x, Times(v, y)) == 0
    ensures x == 0 && y == 0
  {
    hide Times, Plus;
    Cancels(x, Times(u, y));
    Cancels(x, Times(v, y));
    TimesDistributes(y, u, v);
    Cancels(Times(u, y), Times(v, y));
    Cancels(u, v);
    NonZeroFactor(Plus(u, v), y);
    TimesNothing(u);
  }

  lemma Square(p: elem, q: elem)
    ensures Times(Plus(p, q), Plus(p, q)) == Plus(Times(p, p), Times(q, q))
  {
    hide Times;
    TimesDistributes(Plus(p, q), p, q);
    TimesDistributes(p, p, q);
    TimesDistributes(q, p, q);
    TimesCommutes(p, q);
    Crossed(Times(p, p), Times(p, q), Times(q, q));
  }

  lemma Crossed(a: elem, b: elem, c: elem)
    ensures Plus(Plus(a, b), Plus(b, c)) == Plus(a, c)
  {
  }

  /** Squaring is one to one. */
  lemma SquaresDiffer(p: elem, q: elem)
    requires p != q
    ensures Times(p, p) != Times(q, q)
  {
    hide Times, Plus;
    Square(p, q);
    Cancels(p, q);
    Cancels(Times(p, p), Times(q, q));
    if Times(p, p) == Times(q, q) { NonZeroFactor(Plus(p, q), Plus(p, q)); }
  }

  lemma OneRoot(p: elem, z0: elem, z1: elem, z2: elem)
    requires p != 0 && At(p, z0, z1, z2) == 0
    requires (z0 == 0 && z1 == 0) || (z0 == 0 && z2 == 0) || (z1 == 0 && z2 == 0)
    ensures z0 == 0 && z1 == 0 && z2 == 0
  {
    hide Times;
    TimesNothing(p);
    TimesNothing(Times(p, p));
    if Times(p, p) == 0 { NonZeroFactor(p, p); }
    if z2 != 0 { NonZeroFactor(Times(p, p), z2); }
    if z1 != 0 { NonZeroFactor(p, z1); }
  }

  lemma TwoRoots(p: elem, q: elem, z0: elem, z1: elem, z2: elem)
    requires p != 0 && q != 0 && p != q && At(p, z0, z1, z2) == 0 && At(q, z0, z1, z2) == 0
    requires z0 == 0 || z1 == 0 || z2 == 0
    ensures z0 == 0 && z1 == 0 && z2 == 0
  {
    hide Times;
    if z2 == 0 {
      TimesNothing(Times(p, p));
      TimesNothing(Times(q, q));
      TwoLines(p, q, z0, z1);
    } else if z1 == 0 {
      TimesNothing(p);
      TimesNothing(q);
      SquaresDiffer(p, q);
      TwoLines(Times(p, p), Times(q, q), z0, z2);
    } else {
      Divided(p, z1, z2);
      Divided(q, z1, z2);
      TwoLines(p, q, z1, z2);
    }
  }

  /** A root other than 0 of X (z1 + z2 X). */
  lemma Divided(p: elem, z1: elem, z2: elem)
    requires p != 0 && At(p, 0, z1, z2) == 0
    ensures Plus(z1, Times(p, z2)) == 0
  {
    hide Times;
    TimesAssociates(p, p, z2);
    TimesDistributes(p, z1, Times(p, z2));
    NonZeroFactor(p, Plus(z1, Times(p, z2)));
  }

  /** Two roots p and q of z0 + z1 X + z2 X^2 make p + q a root of z1 + z2 X. */
  lemma Difference(p: elem, q: elem, z0: elem, z1: elem, z2: elem)
    requires p != q && At(p, z0, z1, z2) == 0 && At(q, z0, z1, z2) == 0
    ensures Plus(z1, Times(Plus(p, q), z2)) == 0
  {
    var d := Plus(p, q);
    hide Times;
    TimesDistributes(z1, p, q);
    Square(p, q);
    TimesDistributes(z2, Times(p, p), Times(q, q));
    TimesAssociates(d, d, z2);
    TimesDistributes(d, z1, Times(d, z2));
    Collected(z0, Times(p, z1), Times(Times(p, p), z2), Times(q, z1), Times(Times(q, q), z2));
    Cancels(p, q);
    NonZeroFactor(d, Plus(z1, Times(d, z2)));
  }

  lemma Collected(z: elem, a: elem, b: elem, c: elem, d: elem)
    requires Plus(Plus(z, a), b) == 0 && Plus(Plus(z, c), d) == 0
    ensures Plus(Plus(a, c), Plus(b, d)) == 0
  {
  }

  lemma StillDiffer(p: elem, q: elem, s: elem)
    requires q != s
    ensures Plus(p, q) != Plus(p, s)
  {
  }

  lemma ThreeRoots(p: elem, q: elem, s: elem, z0: elem, z1: elem, z2: elem)
    requires p != q && p != s && q != s
    requires At(p, z0, z1, z2) == 0 && At(q, z0, z1, z2) == 0 && At(s, z0, z1, z2) == 0
    ensures z0 == 0 && z1 == 0 && z2 == 0
  {
    hide Times, Plus;
    Difference(p, q, z0, z1, z2);
    Difference(p, s, z0, z1, z2);
    StillDiffer(p, q, s);
    PlusLaws(z0, 0, 0);
    TwoLines(Plus(p, q), Plus(p, s), z1, z2);
    TimesNothing(p);
    TimesNothing(Times(p, p));
  }

  // ---------- at most three data shards ----------

  function Coefficient(z: Vec, i: nat): elem {
    if i < |z| then z[i] else 0
  }

  lemma RowPowers(k: nat, r: nat)
    requires r < 31
    ensures forall c :: 0 <= c < k ==> ParityRow(k, r)[c] == Power(Elem(r + 1), c)
    ensures var p := Elem(r + 1); p != 0 && Power(p, 0) == 1 && Power(p, 1) == p && Power(p, 2) == Times(p, p)
  {
    SmallPowersOf(Elem(r + 1));
    hide Power, Times;
  }

  /** A parity row evaluates the data, read as a polynomial. */
  lemma ParityDot(k: nat, r: nat, z: Vec)
    requires 0 < k <= 3 && r < 31 && |z| == k
    ensures Dot(ParityRow(k, r), z) == At(Elem(r + 1), z[0], Coefficient(z, 1), Coefficient(z, 2))
  {
    var p, row := Elem(r + 1), ParityRow(k, r);
    RowPowers(k, r);
    hide Power, Times, Plus, ParityRow, Elem, Dot;
    TimesZero(z[0]);
    TimesNothing(p);
    TimesNothing(Times(p, p));
    if k == 1 {
      DotSingle(row, z, 0);
      PlusLaws(z[0], 0, 0);
    } else if k == 2 {
      DotPair(row, z, 0, 1);
      PlusLaws(Plus(z[0], Times(p, z[1])), 0, 0);
    } else {
      DotTriple(row, z, 0, 1, 2);
    }
  }

  lemma IndexOf(i: nat)
    requires i < 32
    ensures Idx(Elem(i)) == i
  {
  }

  lemma RowsDiffer(r: nat, s: nat)
    requires r < 31 && s < 31 && r != s
    ensures Elem(r + 1) != Elem(s + 1) && Elem(r + 1) != 0
  {
    IndexOf(r + 1);
    IndexOf(s + 1);
    IndexOf(0);
    assert Elem(0) == 0;
    hide Elem, Idx;
  }

  /** How many of the k chosen shards are data: the first ones. */
  lemma {:induction false} DataFirst(avail: seq<nat>, k: nat, hi: nat, n: nat) returns (i: nat)
    requires Increasing(avail, 0, hi) && n <= |avail|
    ensures i <= n && (forall j :: 0 <= j < i ==> avail[j] < k) && (forall j :: i <= j < n ==> k <= avail[j])
  {
    if n == 0 || avail[n - 1] < k {
      i := n;
      if n > 0 { forall j | 0 <= j < n ensures avail[j] < k { assert avail[j] <= avail[n - 1]; } }
    } else {
      i := DataFirst(avail, k, hi, n - 1);
    }
  }

  /** With one, two or three data shards, whatever is lost, the chosen parity rows decide it. */
  lemma SmallCodes(k: nat, m: nat, avail: seq<nat>)
    requires 0 < k <= 3 && k + m <= 32 && |avail| == k && Increasing(avail, 0, k + m)
    ensures !Ambiguous(k, m, avail)
  {
    forall z: Vec | |z| == k && MulVec(Chosen(Generator(k, m), avail), z) == Zero(k) ensures z == Zero(k) {
      KilledOutsideLost(k, m, avail, z);
      hide Dot, Generator, ParityRow, MulVec;
      var i := DataFirst(avail, k, k + m, k);
      KilledIsZero(k, m, avail, z, i);
    }
  }

  /** The place at which chosen parity row j evaluates the data. */
  function Place(k: nat, avail: seq<nat>, j: nat): elem
    requires j < |avail| && k <= avail[j] < k + 31
  {
    Elem(avail[j] - k + 1)
  }

  lemma PlaceKills(k: nat, avail: seq<nat>, z: Vec, j: nat)
    requires 0 < k <= 3 && |z| == k && j < |avail| && k <= avail[j] < k + 31 && Dot(ParityRow(k, avail[j] - k), z) == 0
    ensures Place(k, avail, j) != 0 && At(Place(k, avail, j), z[0], Coefficient(z, 1), Coefficient(z, 2)) == 0
  {
    hide Dot, ParityRow, At, Elem;
    ParityDot(k, avail[j] - k, z);
    RowsDiffer(avail[j] - k, if avail[j] == k then 1 else 0);
  }

  lemma PlacesDiffer(k: nat, avail: seq<nat>, i: nat, j: nat)
    requires i < j < |avail| && k <= avail[i] < avail[j] < k + 31
    ensures Place(k, avail, i) != Place(k, avail, j)
  {
    RowsDiffer(avail[i] - k, avail[j] - k);
  }

  /** The first n of the three places are different roots, not 0. */
  predicate Roots(n: nat, p: elem, q: elem, s: elem, z0: elem, z1: elem, z2: elem) {
    && (n >= 1 ==> p != 0 && At(p, z0, z1, z2) == 0)
    && (n >= 2 ==> q != 0 && q != p && At(q, z0, z1, z2) == 0)
    && (n >= 3 ==> s != p && s != q && At(s, z0, z1, z2) == 0)
  }

  /** Enough of the coefficients vanish for the n parity rows at places p, q and s to decide the others. */
  lemma RowsDecide(n: nat, p: elem, q: elem, s: elem, z0: elem, z1: elem, z2: elem)
    requires n <= 3 && FewLeft(n, z0, z1, z2) && Roots(n, p, q, s, z0, z1, z2)
    ensures z0 == 0 && z1 == 0 && z2 == 0
  {
    hide At;
    if n == 1 {
      OneRoot(p, z0, z1, z2);
    } else if n == 2 {
      TwoRoots(p, q, z0, z1, z2);
    } else if n == 3 {
      ThreeRoots(p, q, s, z0, z1, z2);
    }
  }

  lemma KilledIsZero(k: nat, m: nat, avail: seq<nat>, z: Vec, i: nat)
    requires 0 < k <= 3 && k + m <= 32 && |avail| == k && Increasing(avail, 0, k + m) && |z| == k && i <= k
    requires (forall j :: 0 <= j < i ==> avail[j] < k) && (forall j :: i <= j < k ==> k <= avail[j])
    requires forall x :: 0 <= x < k && x !in Lost(avail, k) ==> z[x] == 0
    requires forall j :: 0 <= j < k && avail[j] >= k ==> Dot(ParityRow(k, avail[j] - k), z) == 0
    ensures z == Zero(k)
  {
    hide Dot, ParityRow, Lost, FewLeft, Roots, Increasing;
    ZeroCoefficients(k, k + m, avail, z, i);
    var p, q, s := ChosenRoots(k, m, avail, z, i);
    RowsDecide(k - i, p, q, s, z[0], Coefficient(z, 1), Coefficient(z, 2));
  }

  lemma ChosenRoots(k: nat, m: nat, avail: seq<nat>, z: Vec, i: nat) returns (p: elem, q: elem, s: elem)
    requires 0 < k <= 3 && k + m <= 32 && |avail| == k && Increasing(avail, 0, k + m) && |z| == k && i <= k
    requires forall j :: i <= j < k ==> k <= avail[j]
    requires forall j :: 0 <= j < k && avail[j] >= k ==> Dot(ParityRow(k, avail[j] - k), z) == 0
    ensures Roots(k - i, p, q, s, z[0], Coefficient(z, 1), Coefficient(z, 2))
  {
    hide Dot, ParityRow, At, Place, Coefficient;
    p, q, s := 0, 0, 0;
    if i < k { PlaceKills(k, avail, z, k - 1); p := Place(k, avail, k - 1); }
    if i + 1 < k { PlaceKills(k, avail, z, k - 2); PlacesDiffer(k, avail, k - 2, k - 1); q := Place(k, avail, k - 2); }
    if i + 2 < k {
      PlaceKills(k, avail, z, 0);
      PlacesDiffer(k, avail, 0, 1);
      PlacesDiffer(k, avail, 0, 2);
      s := Place(k, avail, 0);
    }
  }

  /** Of the three coefficients at most n do not vanish. */
  predicate FewLeft(n: nat, z0: elem, z1: elem, z2: elem) {
    && (n == 0 ==> z0 == 0 && z1 == 0 && z2 == 0)
    && (n == 1 ==> (z0 == 0 && z1 == 0) || (z0 == 0 && z2 == 0) || (z1 == 0 && z2 == 0))
    && (n == 2 ==> z0 == 0 || z1 == 0 || z2 == 0)
  }

  lemma ZeroCoefficients(k: nat, hi: nat, avail: seq<nat>, z: Vec, i: nat)
    requires 0 < k <= 3 && |avail| == k && Increasing(avail, 0, hi) && |z| == k && i <= k
    requires (forall j :: 0 <= j < i ==> avail[j] < k) && (forall j :: i <= j < k ==> k <= avail[j])
    requires forall x :: 0 <= x < k && x !in Lost(avail, k) ==> z[x] == 0
    ensures FewLeft(k - i, z[0], Coefficient(z, 1), Coefficient(z, 2))
  {
    LostCount(avail, k, hi, i);
    var lost := Lost(avail, k);
    if k - i == 0 {
      assert lost == {};
    } else if k - i == 1 {
      var a :| a in lost;
      Singleton(lost, a);
    } else if k == 3 {
      AllThree(lost);
    }
  }

  lemma AllThree(s: set<nat>)
    ensures 0 in s && 1 in s && 2 in s ==> |s| >= 3
  {
    if 0 in s && 1 in s && 2 in s {
      assert |s - {0} - {1} - {2}| == |s| - 3;
    }
  }

  // ---------- four data shards and three parity shards ----------

  /** 6 + 7 X + X^3 vanishes at 1, 2 and 3. */
  function Cubic(k: nat): (z: Vec)
    requires k >= 4
    ensures |z| == k
  {
    seq(k, i requires 0 <= i < k => if i == 0 then 6 else if i == 1 then 7 else if i == 3 then 1 else 0)
  }

  lemma Cube(a: elem)
    ensures Power(a, 0) == 1 && Power(a, 1) == a && Power(a, 3) == Times(a, Times(a, a))
  {
    SmallPowersOf(a);
    assert Power(a, 3) == Times(a, Power(a, 2));
    hide Times;
  }

  lemma CubicDot(k: nat, r: nat)
    requires 4 <= k && r < 3
    ensures var a := Elem(r + 1);
      Dot(ParityRow(k, r), Cubic(k)) == Plus(Plus(6, Times(a, 7)), Times(a, Times(a, a)))
  {
    hide Dot, Power, Times, Plus, Elem;
    Cube(Elem(r + 1));
    DotTriple(ParityRow(k, r), Cubic(k), 0, 1, 3);
    TimesZero(6);
    TimesZero(Power(Elem(r + 1), 3));
  }

  lemma ParityKillsCubic(k: nat, r: nat)
    requires 4 <= k && r < 3
    ensures Dot(ParityRow(k, r), Cubic(k)) == 0
  {
    hide Dot, Power, Times, Plus, ParityRow, Elem, Cubic;
    CubicDot(k, r);
    SmallElems();
    RootsOfCubic();
  }

  lemma RootsOfCubic()
    ensures Plus(Plus(6, Times(1, 7)), Times(1, Times(1, 1))) == 0
    ensures Plus(Plus(6, Times(2, 7)), Times(2, Times(2, 2))) == 0
    ensures Plus(Plus(6, Times(3, 7)), Times(3, Times(3, 3))) == 0
  {
    hide Times;
    TimesZero(1);
    TimesZero(7);
    TimesTwo(7);
    TimesTwo(2);
    TimesTwo(4);
    TimesTwo(3);
    TimesTwo(5);
  }

  /** The chosen shards when data shards 0, 1 and 3 are replaced by the first three parity shards. */
  function WithoutThree(k: nat): (avail: seq<nat>)
    requires k >= 4
    ensures |avail| == k
  {
    seq(k, i requires 0 <= i < k => if i == 0 then 2 else i + 3)
  }

  lemma LargeCodesFail(k: nat, m: nat)
    requires 4 <= k && 3 <= m && k + m <= 32
    ensures Increasing(WithoutThree(k), 0, k + m) && Ambiguous(k, m, WithoutThree(k))
  {
    var avail, z := WithoutThree(k), Cubic(k);
    var sub := Chosen(Generator(k, m), avail);
    hide Dot, ParityRow, Times, Plus, MulVec, Generator;
    forall j | 0 <= j < k ensures MulVec(sub, z)[j] == 0 {
      KilledRow(k, m, avail, z, j);
      if avail[j] < k {
        UnitDot(k, avail[j], z);
      } else {
        ParityKillsCubic(k, avail[j] - k);
      }
    }
    assert MulVec(sub, z) == Zero(k);
    assert z[3] != Zero(k)[3];
  }

  // ---------- exactly the codes that keep the promise ----------

  ghost predicate AnyChoiceDecodes(k: nat, m: nat)
    requires k + m <= 32
  {
    forall avail: seq<nat> :: |avail| == k && Increasing(avail, 0, k + m) ==> !Ambiguous(k, m, avail)
  }

  /** Any k of the k + m shards determine the data exactly when m <= 2 or k <= 3. */
  lemma AnyChoiceDecodesIff(k: nat, m: nat)
    requires 0 < k && k + m <= 32
    ensures AnyChoiceDecodes(k, m) <==> m <= 2 || k <= 3
  {
    hide Ambiguous;
    if m <= 2 || k <= 3 {
      forall avail: seq<nat> | |avail| == k && Increasing(avail, 0, k + m) ensures !Ambiguous(k, m, avail) {
        if m <= 2 { TwoParityShards(k, m, avail); } else { SmallCodes(k, m, avail); }
      }
    } else {
      LargeCodesFail(k, m);
    }
  }

  /** decode, given the present shards, can tell the data from any other. */
  ghost predicate Decodable(k: nat, m: nat, present: set<nat>)
    requires 0 < k && k + m <= 32
  {
    var avail := Available(present, 0, k + m, k);
    |avail| == k && Increasing(avail, 0, k + m) && !Ambiguous(k, m, avail)
  }

  lemma {:induction false} AvailableOf(avail: seq<nat>, s: set<nat>, lo: nat, n: nat)
    requires lo <= n && Increasing(avail, lo, n) && forall x :: lo <= x < n ==> (x in s <==> x in avail)
    ensures Available(s, lo, n, |avail|) == avail
    decreases n - lo
  {
    assert avail != [] ==> lo <= avail[0] < n;
    if lo < n && avail != [] {
      if lo in s {
        var i :| 0 <= i < |avail| && avail[i] == lo;
        assert avail[0] <= avail[i];
        var rest := avail[1..];
        forall x | lo + 1 <= x < n ensures x in s <==> x in rest {
          assert avail == [lo] + rest;
        }
        AvailableOf(rest, s, lo + 1, n);
      } else {
        assert forall i :: 0 <= i < |avail| ==> avail[i] != lo;
        AvailableOf(avail, s, lo + 1, n);
      }
    }
  }

  lemma MaskOf(k: nat, n: nat, avail: seq<nat>)
    requires |avail| == k && Increasing(avail, 0, n)
    ensures |Among(Elements(avail), 0, n)| >= k && Available(Elements(avail), 0, n, k) == avail
  {
    AvailableOf(avail, Elements(avail), 0, n);
    AvailableCount(Elements(avail), 0, n, k);
  }

  lemma EnoughPresent(k: nat, m: nat, present: set<nat>)
    requires 0 < k && k + m <= 32 && AnyChoiceDecodes(k, m) && |Among(present, 0, k + m)| >= k
    ensures Decodable(k, m, present)
  {
    hide Ambiguous, Available, Among, Increasing;
    AvailableIs(present, 0, k + m, k);
    AvailableCount(present, 0, k + m, k);
  }

  lemma SomeMaskFails(k: nat, m: nat)
    requires 4 <= k && 3 <= m && k + m <= 32
    ensures var present := Elements(WithoutThree(k));
      |Among(present, 0, k + m)| >= k && !Decodable(k, m, present)
  {
    hide Ambiguous, Available, Among, Elements, WithoutThree;
    LargeCodesFail(k, m);
    MaskOf(k, k + m, WithoutThree(k));
  }

  /** The same for masks, as decode takes them: with k present shards or more it succeeds. */
  lemma AnyMaskDecodesIff(k: nat, m: nat)
    requires 0 < k && k + m <= 32
    ensures (forall present: set<nat> :: |Among(present, 0, k + m)| >= k ==> Decodable(k, m, present)) <==> m <= 2 || k <= 3
  {
    hide AnyChoiceDecodes, Decodable, Among, Elements, WithoutThree;
    AnyChoiceDecodesIff(k, m);
    if m <= 2 || k <= 3 {
      forall present: set<nat> | |Among(present, 0, k + m)| >= k ensures Decodable(k, m, present) {
        EnoughPresent(k, m, present);
      }
    } else {
      SomeMaskFails(k, m);
    }
  }
}
