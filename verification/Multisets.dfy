/** Taking one element out of a sequence, contents counted with multiplicity. */
module Multisets {
  lemma Cancel<T>(m: multiset<T>, n: multiset<T>, x: T)
    requires m + multiset{x} == n + multiset{x}
    ensures m == n
  {
    assert m == (m + multiset{x}) - multiset{x};
    assert n == (n + multiset{x}) - multiset{x};
  }

  lemma TakenOut<T>(b: seq<T>, k: nat)
    requires k < |b|
    ensures multiset(b[..k] + b[k + 1..]) + multiset{b[k]} == multiset(b)
  {
    assert b == b[..k] + [b[k]] + b[k + 1..];
  }
}
