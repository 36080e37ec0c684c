/** Division of natural numbers, from the product back. */
module Quotients {
  lemma QuotientIs(v: nat, m: nat, q: nat, r: nat)
    requires m > 0 && v == m * q + r && r < m
    ensures v / m == q && v % m == r
  {
    var q2, r2 := v / m, v % m;
    assert m * (q2 - q) == r - r2 && m * (q - q2) == r2 - r;
    if q2 > q { AtLeast(m, q2 - q); } else if q > q2 { AtLeast(m, q - q2); }
  }

  lemma AtLeast(m: nat, d: nat)
    requires d > 0
    ensures m <= m * d
  {
    assert m * d == m * (d - 1) + m;
  }
}
