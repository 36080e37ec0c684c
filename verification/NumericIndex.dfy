/** Values in a sorted part and a tail that is merged in when it grows
    (NumericIndex of index/payload_index.hpp), against a plain scan. */
module NumericIndex {
  import opened Wrappers
  import opened Filters
  import opened Multisets

  datatype Item = Item(value: real, id: nat)

  predicate Before(a: Item, b: Item) {
    a.value < b.value || (a.value == b.value && a.id <= b.id)
  }

  predicate Ordered(s: seq<Item>) {
    forall i, j :: 0 <= i < j < |s| ==> Before(s[i], s[j])
  }

  // ---------- a plain scan ----------

  function Hits(s: seq<Item>, r: Range): nat {
    if s == [] then 0 else Hits(s[..|s| - 1], r) + if InRange(r, s[|s| - 1].value) then 1 else 0
  }

  function IdsIn(s: seq<Item>, r: Range): seq<nat> {
    if s == [] then [] else IdsIn(s[..|s| - 1], r) + if InRange(r, s[|s| - 1].value) then [s[|s| - 1].id] else []
  }

  function IdSeq(s: seq<Item>): seq<nat> {
    seq(|s|, i requires 0 <= i < |s| => s[i].id)
  }

  lemma {:induction false} ScanConcat(a: seq<Item>, b: seq<Item>, r: Range)
    ensures Hits(a + b, r) == Hits(a, r) + Hits(b, r) && IdsIn(a + b, r) == IdsIn(a, r) + IdsIn(b, r)
  {
    if b == [] {
      assert a + b == a;
    } else {
      assert (a + b)[..|a + b| - 1] == a + b[..|b| - 1];
      ScanConcat(a, b[..|b| - 1], r);
    }
  }

  /** A scan does not depend on the order. */
  lemma {:induction false} ScanPermuted(a: seq<Item>, b: seq<Item>, r: Range)
    requires multiset(a) == multiset(b)
    ensures Hits(a, r) == Hits(b, r) && multiset(IdsIn(a, r)) == multiset(IdsIn(b, r))
  {
    if a == [] {
      assert |multiset(b)| == 0;
    } else {
      var x, init := a[|a| - 1], a[..|a| - 1];
      assert a == init + [x];
      assert x in multiset(b);
      var k :| 0 <= k < |b| && b[k] == x;
      TakenOut(b, k);
      assert multiset(a) == multiset(init) + multiset{x};
      Cancel(multiset(init), multiset(b[..k] + b[k + 1..]), x);
      ScanPermuted(init, b[..k] + b[k + 1..], r);
      ScanWithout(b, k, r);
    }
  }

  lemma ScanWithout(b: seq<Item>, k: nat, r: Range)
    requires k < |b|
    ensures Hits(b, r) == Hits(b[..k] + b[k + 1..], r) + if InRange(r, b[k].value) then 1 else 0
    ensures multiset(IdsIn(b, r)) == multiset(IdsIn(b[..k] + b[k + 1..], r))
      + if InRange(r, b[k].value) then multiset{b[k].id} else multiset{}
  {
    var pre, one, post := b[..k], [b[k]], b[k + 1..];
    assert b == pre + one + post;
    assert one[..0] == [];
    ScanConcat(pre + one, post, r);
    ScanConcat(pre, one, r);
    ScanConcat(pre, post, r);
    hide IdsIn, Hits, InRange;
  }

  lemma {:induction false} AllIn(s: seq<Item>, r: Range)
    requires forall i :: 0 <= i < |s| ==> InRange(r, s[i].value)
    ensures Hits(s, r) == |s| && IdsIn(s, r) == IdSeq(s)
  {
    if s != [] {
      AllIn(s[..|s| - 1], r);
    }
  }

  lemma {:induction false} NoneIn(s: seq<Item>, r: Range)
    requires forall i :: 0 <= i < |s| ==> !InRange(r, s[i].value)
    ensures Hits(s, r) == 0 && IdsIn(s, r) == []
  {
    if s != [] { NoneIn(s[..|s| - 1], r); }
  }

  // ---------- sorting and merging ----------

  method Insert(s: seq<Item>, x: Item) returns (t: seq<Item>)
    requires Ordered(s)
    ensures Ordered(t) && multiset(t) == multiset(s) + multiset{x}
  {
    var k := |s|;
    while k > 0 && !Before(s[k - 1], x)
      invariant 0 <= k <= |s| && forall i :: k <= i < |s| ==> Before(x, s[i])
    {
      k := k - 1;
    }
    t := s[..k] + [x] + s[k..];
    Inserted(s, x, k);
  }

  lemma Inserted(s: seq<Item>, x: Item, k: nat)
    requires k <= |s|
    ensures multiset(s[..k] + [x] + s[k..]) == multiset(s) + multiset{x}
  {
    assert s == s[..k] + s[k..];
  }

  method Sort(s: seq<Item>) returns (t: seq<Item>)
    ensures Ordered(t) && multiset(t) == multiset(s)
  {
    t := [];
    for i := 0 to |s|
      invariant Ordered(t) && multiset(t) == multiset(s[..i])
    {
      assert s[..i + 1] == s[..i] + [s[i]];
      t := Insert(t, s[i]);
    }
    assert s[..|s|] == s;
  }

  /** t holds the first i of a and the first j of b, in order, and nothing left comes before it. */
  ghost predicate Merging(a: seq<Item>, b: seq<Item>, t: seq<Item>, i: nat, j: nat) {
    && i <= |a| && j <= |b| && Ordered(t) && multiset(t) == multiset(a[..i]) + multiset(b[..j])
    && (t != [] && i < |a| ==> Before(t[|t| - 1], a[i]))
    && (t != [] && j < |b| ==> Before(t[|t| - 1], b[j]))
  }

  lemma OneMore(t: seq<Item>, x: Item, a: seq<Item>, i: nat, rest: multiset<Item>)
    requires Ordered(t) && (t != [] ==> Before(t[|t| - 1], x)) && i < |a| && a[i] == x
    requires multiset(t) == multiset(a[..i]) + rest
    ensures Ordered(t + [x]) && multiset(t + [x]) == multiset(a[..i + 1]) + rest
  {
    assert a[..i + 1] == a[..i] + [x];
  }

  method MergeSorted(a: seq<Item>, b: seq<Item>) returns (t: seq<Item>)
    requires Ordered(a) && Ordered(b)
    ensures Ordered(t) && multiset(t) == multiset(a) + multiset(b)
  {
    var i, j := 0, 0;
    t := [];
    while i < |a| || j < |b|
      invariant 0 <= i && 0 <= j && Merging(a, b, t, i, j)
      decreases |a| - i + |b| - j
    {
      hide Ordered;
      if j == |b| || (i < |a| && Before(a[i], b[j])) {
        NextOfA(a, b, t, i, j);
        t := t + [a[i]];
        i := i + 1;
      } else {
        NextOfB(a, b, t, i, j);
        t := t + [b[j]];
        j := j + 1;
      }
    }
    assert a[..i] == a && b[..j] == b;
  }

  lemma NextOfA(a: seq<Item>, b: seq<Item>, t: seq<Item>, i: nat, j: nat)
    requires Ordered(a) && Merging(a, b, t, i, j) && i < |a| && (j == |b| || Before(a[i], b[j]))
    ensures Merging(a, b, t + [a[i]], i + 1, j)
  {
    OneMore(t, a[i], a, i, multiset(b[..j]));
  }

  lemma NextOfB(a: seq<Item>, b: seq<Item>, t: seq<Item>, i: nat, j: nat)
    requires Ordered(b) && Merging(a, b, t, i, j) && j < |b| && (i == |a| || !Before(a[i], b[j]))
    ensures Merging(a, b, t + [b[j]], i, j + 1)
  {
    OneMore(t, b[j], b, j, multiset(a[..i]));
  }

  const MIN_TAIL := 1024

  lemma ScanMiddle(s: seq<Item>, r: Range, b: nat, e: nat)
    requires b <= e <= |s| && forall i :: 0 <= i < |s| ==> (InRange(r, s[i].value) <==> b <= i < e)
    ensures Hits(s, r) == e - b && IdsIn(s, r) == IdsIn(s[b..e], r)
    ensures IdsIn(s[b..e], r) == IdSeq(s[b..e])
  {
    var pre, mid, post := s[..b], s[b..e], s[e..];
    assert s == pre + mid + post;
    NoneIn(pre, r);
    NoneIn(post, r);
    AllIn(mid, r);
    ScanConcat(pre + mid, post, r);
    ScanConcat(pre, mid, r);
    hide IdsIn, Hits, InRange;
  }

  class Index {
    var sorted: seq<Item>
    var tail: seq<Item>
    /** Everything added, in order. */
    ghost var added: seq<Item>

    ghost predicate Valid()
      reads this
    {
      Ordered(sorted) && multiset(sorted + tail) == multiset(added)
    }

    constructor ()
      ensures Valid() && added == []
    {
      sorted, tail, added := [], [], [];
    }

    method Add(v: real, id: nat)
      requires Valid()
      modifies this
      ensures Valid() && added == old(added) + [Item(v, id)]
    {
      tail, added := tail + [Item(v, id)], added + [Item(v, id)];
      var limit := if MIN_TAIL > |sorted| / 16 then MIN_TAIL else |sorted| / 16;
      if |tail| > limit { Merge(); }
    }

    method Merge()
      requires Valid()
      modifies this`sorted, this`tail
      ensures Valid() && tail == []
    {
      var t := Sort(tail);
      sorted := MergeSorted(sorted, t);
      tail := [];
      assert sorted + tail == sorted;
    }

    /** First position whose value is at least v, or above v when `above`. */
    method Bound(v: real, above: bool) returns (k: nat)
      requires Valid()
      ensures k <= |sorted|
      ensures forall i :: 0 <= i < k ==> if above then sorted[i].value <= v else sorted[i].value < v
      ensures forall i :: k <= i < |sorted| ==> if above then sorted[i].value > v else sorted[i].value >= v
    {
      var lo, hi := 0, |sorted|;
      while lo < hi
        invariant 0 <= lo <= hi <= |sorted|
        invariant forall i :: 0 <= i < lo ==> if above then sorted[i].value <= v else sorted[i].value < v
        invariant forall i :: hi <= i < |sorted| ==> if above then sorted[i].value > v else sorted[i].value >= v
      {
        var mid := (lo + hi) / 2;
        if (if above then sorted[mid].value <= v else sorted[mid].value < v) {
          lo := mid + 1;
        } else {
          hi := mid;
        }
      }
      k := lo;
    }

    /** The sorted entries in range are those from b up to e. */
    method Bounds(r: Range) returns (b: nat, e: nat)
      requires Valid()
      ensures b <= e <= |sorted|
      ensures forall i :: 0 <= i < |sorted| ==> (InRange(r, sorted[i].value) <==> b <= i < e)
    {
      b := 0;
      if r.lo.Some? { b := Bound(r.lo.value, !r.loIncl); }
      e := |sorted|;
      if r.hi.Some? { e := Bound(r.hi.value, r.hiIncl); }
      if e < b { e := b; }
    }

    lemma SplitScan(r: Range, b: nat, e: nat)
      requires Valid() && b <= e <= |sorted|
      requires forall i :: 0 <= i < |sorted| ==> (InRange(r, sorted[i].value) <==> b <= i < e)
      ensures Hits(added, r) == e - b + Hits(tail, r)
      ensures multiset(IdsIn(added, r)) ==
        multiset(IdSeq(sorted[b..e])) + multiset(IdsIn(tail, r))
    {
      ScanPermuted(sorted + tail, added, r);
      ScanConcat(sorted, tail, r);
      ScanMiddle(sorted, r, b, e);
      hide Hits, IdsIn, InRange, Ordered;
    }

    /** As many as a plain scan over everything added finds. */
    method Count(r: Range) returns (n: nat)
      requires Valid()
      ensures n == Hits(added, r)
    {
      var b, e := Bounds(r);
      SplitScan(r, b, e);
      hide Ordered;
      n := e - b;
      for i := 0 to |tail|
        invariant n == e - b + Hits(tail[..i], r)
      {
        assert tail[..i + 1][..i] == tail[..i];
        if InRange(r, tail[i].value) { n := n + 1; }
      }
      assert tail[..|tail|] == tail;
    }

    /** The ids that a plain scan over everything added finds. */
    method Collect(r: Range, out: seq<nat>) returns (res: seq<nat>)
      requires Valid()
      ensures multiset(res) == multiset(out) + multiset(IdsIn(added, r))
    {
      var b, e := Bounds(r);
      SplitScan(r, b, e);
      res := AppendIds(sorted[b..e], out);
      res := AppendInRange(tail, r, res);
    }
  }

  method AppendIds(s: seq<Item>, out: seq<nat>) returns (res: seq<nat>)
    ensures res == out + IdSeq(s)
  {
    res := out;
    for i := 0 to |s|
      invariant res == out + IdSeq(s)[..i]
    {
      res := res + [s[i].id];
    }
  }

  method AppendInRange(s: seq<Item>, r: Range, out: seq<nat>) returns (res: seq<nat>)
    ensures res == out + IdsIn(s, r)
  {
    res := out;
    for i := 0 to |s|
      invariant res == out + IdsIn(s[..i], r)
    {
      assert s[..i + 1][..i] == s[..i];
      if InRange(r, s[i].value) { res := res + [s[i].id]; }
    }
    assert s[..|s|] == s;
  }
}
