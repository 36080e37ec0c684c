/** 64-bit words as numbers: exclusive or, shifting and multiplying. */
module Word64 {
  import opened Quotients

  const MAX64: nat := 0xFFFF_FFFF_FFFF_FFFF
  const TWO64: nat := 0x1_0000_0000_0000_0000

  type word = x: nat | x < 0x1_0000_0000_0000_0000

  /** Bit by bit. */
  function Xor(a: nat, b: nat): nat
    decreases a + b
  {
    if a == 0 && b == 0 then 0
    else 2 * Xor(a / 2, b / 2) + if a % 2 != b % 2 then 1 else 0
  }

  lemma {:induction false} XorZero(a: nat)
    ensures Xor(a, 0) == a
  {
    if a > 0 { XorZero(a / 2); }
  }

  lemma {:induction false} XorCancels(a: nat, b: nat)
    ensures Xor(Xor(a, b), b) == a
    decreases a + b
  {
    if a > 0 || b > 0 { XorCancels(a / 2, b / 2); }
  }

  lemma {:induction false} XorSwaps(a: nat, b: nat)
    ensures Xor(a, b) == Xor(b, a)
    decreases a + b
  {
    if a > 0 || b > 0 { XorSwaps(a / 2, b / 2); }
  }

  function Pow2(n: nat): (p: nat)
    ensures p > 0
  {
    if n == 0 then 1 else 2 * Pow2(n - 1)
  }

  lemma HalfThenDivide(a: nat, n: nat)
    requires n > 0
    ensures a / Pow2(n) == (a / 2) / Pow2(n - 1)
  {
    var p := Pow2(n - 1);
    var q, r := (a / 2) / p, (a / 2) % p;
    assert a / 2 == p * q + r;
    assert a == (2 * p) * q + (2 * r + a % 2) by { assert 2 * (p * q) == (2 * p) * q; }
    assert 0 <= 2 * r + a % 2 < 2 * p;
    QuotientIs(a, 2 * p, q, 2 * r + a % 2);
  }

  /** a >> n. */
  function Shr(a: nat, n: nat): nat {
    if n == 0 then a else Shr(a / 2, n - 1)
  }

  lemma {:induction false} ShrIs(a: nat, n: nat)
    ensures Shr(a, n) == a / Pow2(n)
  {
    if n == 0 {
      assert Pow2(0) == 1;
    } else {
      ShrIs(a / 2, n - 1);
      HalfThenDivide(a, n);
    }
  }

  /** Shifting distributes over exclusive or. */
  lemma {:induction false} XorShifted(a: nat, b: nat, n: nat)
    ensures Shr(Xor(a, b), n) == Xor(Shr(a, n), Shr(b, n))
  {
    if n > 0 {
      XorHalf(a, b);
      XorShifted(a / 2, b / 2, n - 1);
    }
  }

  lemma XorHalf(a: nat, b: nat)
    ensures Xor(a, b) / 2 == Xor(a / 2, b / 2)
  {
  }

  lemma {:induction false} XorBelow(a: nat, b: nat, n: nat)
    requires a < Pow2(n) && b < Pow2(n)
    ensures Xor(a, b) < Pow2(n)
  {
    if n == 0 {
      assert a == 0 && b == 0;
    } else {
      XorBelow(a / 2, b / 2, n - 1);
    }
  }

  lemma Powers()
    ensures Pow2(33) == 0x2_0000_0000 && Pow2(64) == TWO64
  {
    SmallPowers();
    hide Pow2;
    PowPlus(16, 16);
    PowPlus(32, 1);
    PowPlus(32, 32);
  }

  lemma SmallPowers()
    ensures Pow2(1) == 2 && Pow2(16) == 0x1_0000
  {
    assert Pow2(1) == 2 && Pow2(4) == 16;
    hide Pow2;
    PowPlus(4, 4);
    PowPlus(8, 8);
  }

  lemma {:induction false} PowPlus(a: nat, b: nat)
    ensures Pow2(a + b) == Pow2(a) * Pow2(b)
  {
    if a > 0 { PowPlus(a - 1, b); }
  }

  function Xor64(a: word, b: word): word {
    Powers();
    XorBelow(a, b, 64);
    Xor(a, b)
  }

  /** x ^= x >> 33. */
  function XorShift(x: word): word {
    Xor64(x, x / 0x2_0000_0000)
  }

  /** The upper bits survive, so a second application undoes the first. */
  lemma XorShiftTwice(x: word)
    ensures XorShift(XorShift(x)) == x
  {
    hide Xor, Pow2, Shr;
    var t := x / 0x2_0000_0000;
    Powers();
    XorShifted(x, t, 33);
    ShrIs(x, 33);
    ShrIs(t, 33);
    ShrIs(XorShift(x), 33);
    assert t / 0x2_0000_0000 == 0;
    XorZero(t);
    XorCancels(x, t);
  }

  /** Multiplication with wrap-around. */
  function Mul(x: word, c: word): word {
    (x * c) % 0x1_0000_0000_0000_0000
  }

  lemma MulInverse(x: word, c: word, d: word, k: nat)
    requires c * d == 1 + k * TWO64
    ensures Mul(Mul(x, c), d) == x
  {
    var q, r := (x * c) / TWO64, (x * c) % TWO64;
    assert x * c == TWO64 * q + r;
    Products(x, c, d, k, q, r);
    Wrapped(r * d, x * k - q * d, x);
  }

  lemma Products(x: int, c: int, d: int, k: int, q: int, r: int)
    requires c * d == 1 + k * TWO64 && x * c == TWO64 * q + r
    ensures r * d == TWO64 * (x * k - q * d) + x
  {
    var cd, qd, xk := c * d, q * d, x * k;
    assert (x * c) * d == x * cd;
    assert (TWO64 * q + r) * d == TWO64 * qd + r * d;
    assert x * (1 + k * TWO64) == x + xk * TWO64;
  }

  lemma Wrapped(v: nat, q: int, r: word)
    requires v == TWO64 * q + r
    ensures v % TWO64 == r
  {
  }
}
