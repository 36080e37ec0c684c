/** Which group owns which part of the 64-bit hash space, and how a write is
    split by owner (cluster/multi_raft_router.hpp). */
module Placement {
  import opened Wrappers

  import opened Word64

  // ---------- the hash ----------

  /** Mixes one byte into an FNV-1a hash. */
  function FnvStep(h: word, c: char): word {
    Mul(Xor64(h, c as int % 256), 1099511628211)
  }

  function Fnv(h: word, s: string): word {
    if s == [] then h else FnvStep(Fnv(h, s[..|s| - 1]), s[|s| - 1])
  }

  function Fnv1a64(s: string): word {
    Fnv(1469598103934665603, s)
  }

  const FACTOR1: word := 0xff51afd7ed558ccd
  const FACTOR2: word := 0xc4ceb9fe1a85ec53

  /** The murmur3 finalizer. */
  function Mix(h: word): word {
    XorShift(Mul(XorShift(Mul(XorShift(h), FACTOR1)), FACTOR2))
  }

  // The factors are odd, so they have inverses modulo 2^64.
  const INVERSE1: word := 0x4f74430c22a54005
  const INVERSE2: word := 0x9cb4b2f8129337db

  function Unmix(h: word): word {
    XorShift(Mul(XorShift(Mul(XorShift(h), INVERSE2)), INVERSE1))
  }

  /** The final mixing is a bijection on 64-bit words. */
  lemma MixIsBijection(h: word)
    ensures Unmix(Mix(h)) == h && Mix(Unmix(h)) == h
  {
    hide XorShift, Mul;
    var b := Mul(XorShift(h), FACTOR1);
    var d := Mul(XorShift(b), FACTOR2);
    XorShiftTwice(h);
    XorShiftTwice(b);
    XorShiftTwice(d);
    MulInverse(XorShift(h), FACTOR1, INVERSE1, 0x4f3e2925cb7c5b4e);
    MulInverse(XorShift(b), FACTOR2, INVERSE2, 0x7878e44812b2d581);
    var c := Mul(XorShift(h), INVERSE2);
    var a := Mul(XorShift(c), INVERSE1);
    XorShiftTwice(c);
    XorShiftTwice(a);
    MulInverse(XorShift(h), INVERSE2, FACTOR2, 0x7878e44812b2d581);
    MulInverse(XorShift(c), INVERSE1, FACTOR1, 0x4f3e2925cb7c5b4e);
  }

  function ShardHash(id: string): word {
    Mix(Fnv1a64(id))
  }

  // The prime is odd as well.
  const PRIME: word := 1099511628211
  const INVERSE: word := 0xce965057aff6957b

  /** A step can be undone, both for the hash before it and for the byte. */
  lemma FnvStepUndone(h: word, c: char)
    ensures Xor64(Mul(FnvStep(h, c), INVERSE), c as int % 256) == h
    ensures Xor64(Mul(FnvStep(h, c), INVERSE), h) == c as int % 256
  {
    hide Mul;
    var b := c as int % 256;
    MulInverse(Xor64(h, b), PRIME, INVERSE, 0xce9650590f);
    XorCancels(h, b);
    XorSwaps(h, b);
    XorCancels(b, h);
  }

  lemma {:induction false} FnvInjective(h: word, h2: word, s: string)
    requires Fnv(h, s) == Fnv(h2, s)
    ensures h == h2
  {
    hide FnvStep;
    if s != [] {
      var init, c := s[..|s| - 1], s[|s| - 1];
      FnvStepUndone(Fnv(h, init), c);
      FnvStepUndone(Fnv(h2, init), c);
      FnvInjective(h, h2, init);
    }
  }

  lemma {:induction false} FnvConcat(h: word, s: string, t: string)
    ensures Fnv(h, s + t) == Fnv(Fnv(h, s), t)
  {
    hide FnvStep;
    if t == [] {
      assert s + t == s;
    } else {
      assert (s + t)[..|s + t| - 1] == s + t[..|t| - 1];
      FnvConcat(h, s, t[..|t| - 1]);
    }
  }

  /** Ids that differ in one byte never have the same hash, wherever that byte is. */
  lemma OneByteMatters(before: string, c: char, d: char, after: string)
    requires c as int % 256 != d as int % 256
    ensures ShardHash(before + [c] + after) != ShardHash(before + [d] + after)
  {
    hide FnvStep, Mix;
    var start: word := 1469598103934665603;
    var h := Fnv(start, before);
    FnvConcat(start, before + [c], after);
    FnvConcat(start, before + [d], after);
    assert (before + [c])[..|before|] == before && (before + [d])[..|before|] == before;
    FnvStepUndone(h, c);
    FnvStepUndone(h, d);
    var x, y := Fnv1a64(before + [c] + after), Fnv1a64(before + [d] + after);
    MixIsBijection(x);
    MixIsBijection(y);
    if x == y {
      FnvInjective(FnvStep(h, c), FnvStep(h, d), after);
    }
  }

  lemma KnownProduct()
    ensures Mul(0x14650fb0739d03e2, 1099511628211) == 0x44bd8ad473cd9906
  {
  }

  lemma KnownXor()
    ensures Xor(1469598103934665603, 97) == 0x14650fb0739d03e2
  {
    XorZero(11481235186989575);
    assert Xor(22962470373979150, 1) == 22962470373979151;
    assert Xor(45924940747958300, 3) == 45924940747958303;
    assert Xor(91849881495916600, 6) == 91849881495916606;
    assert Xor(183699762991833200, 12) == 183699762991833212;
    assert Xor(367399525983666400, 24) == 367399525983666424;
    assert Xor(734799051967332801, 48) == 734799051967332849;
    assert Xor(1469598103934665603, 97) == 1469598103934665698;
  }

  /** The FNV-1a hash of "a" with this start value, computed. */
  lemma KnownHash()
    ensures Fnv1a64("a") == 0x44bd8ad473cd9906
  {
    hide Mul, Xor, Pow2;
    KnownXor();
    KnownProduct();
    assert "a"[..0] == "" && 'a' as int % 256 == 97;
  }

  method ShardHashOf(id: string) returns (h: word)
    ensures h == ShardHash(id)
  {
    hide FnvStep, XorShift, Mul;
    h := 1469598103934665603;
    for i := 0 to |id|
      invariant h == Fnv(1469598103934665603, id[..i])
    {
      assert id[..i + 1][..i] == id[..i];
      h := FnvStep(h, id[i]);
    }
    assert id[..|id|] == id;
    h := XorShift(h);
    h := Mul(h, FACTOR1);
    h := XorShift(h);
    h := Mul(h, FACTOR2);
    h := XorShift(h);
  }

  // ---------- placements ----------

  /** A group and its inclusive hash range. */
  datatype Group = Group(id: string, replicas: seq<string>, lo: nat, hi: nat)

  datatype Outcome<T> = Ok(value: T) | InvalidArgument

  /** Every hash lies in exactly one range, and the ranges are in order. */
  predicate Tiles(groups: seq<Group>) {
    && groups != [] && groups[0].lo == 0 && groups[|groups| - 1].hi == MAX64
    && (forall i :: 0 <= i < |groups| ==> groups[i].lo <= groups[i].hi)
    && forall i :: 0 < i < |groups| ==> groups[i].lo == groups[i - 1].hi + 1
  }

  /** What validate() accepts: the running bound wraps around at 2^64. */
  predicate Accepted(groups: seq<Group>) {
    && groups != [] && groups[|groups| - 1].hi == MAX64
    && (forall i :: 0 <= i < |groups| ==> groups[i].replicas != [] && groups[i].lo <= groups[i].hi)
    && groups[0].lo == 0
    && forall i :: 0 < i < |groups| ==> groups[i].lo == Next(groups[i - 1].hi)
  }

  /** The word after hi. */
  function Next(hi: nat): nat {
    (hi + 1) % (MAX64 + 1)
  }

  lemma NextIs(hi: nat)
    requires hi <= MAX64
    ensures Next(hi) == if hi == MAX64 then 0 else hi + 1
  {
  }

  predicate Words(groups: seq<Group>) {
    forall i :: 0 <= i < |groups| ==> groups[i].lo <= MAX64 && groups[i].hi <= MAX64
  }

  method Validate(groups: seq<Group>) returns (ok: bool)
    requires Words(groups)
    ensures ok == Accepted(groups)
  {
    if groups == [] { return false; }
    hide Next;
    var next: nat := 0;
    for i := 0 to |groups|
      invariant i == 0 ==> next == 0
      invariant 0 < i < |groups| ==> next == Next(groups[i - 1].hi)
      invariant i > 0 ==> groups[0].lo == 0
      invariant forall j :: 0 <= j < i ==> groups[j].replicas != [] && groups[j].lo <= groups[j].hi
      invariant forall j :: 0 < j < i ==> groups[j].lo == Next(groups[j - 1].hi)
      invariant i == |groups| ==> groups[i - 1].hi == MAX64
    {
      var g := groups[i];
      if g.replicas == [] { return false; }
      if g.lo != next || g.hi < g.lo { return false; }
      if i + 1 == |groups| {
        if g.hi != MAX64 { return false; }
      } else {
        next := Next(g.hi);
      }
    }
    return true;
  }

  /** An accepted placement tiles the hash space exactly when no group before
      the last one already ends at its top. */
  lemma AcceptedTilesIff(groups: seq<Group>)
    requires Words(groups) && Accepted(groups)
    ensures Tiles(groups) <==> forall i :: 0 <= i < |groups| - 1 ==> groups[i].hi != MAX64
  {
    hide Next;
    forall i | 0 <= i < |groups| - 1 ensures groups[i].hi != MAX64 <==> groups[i + 1].lo == groups[i].hi + 1 {
      NextIs(groups[i].hi);
    }
    if Tiles(groups) {
      forall i | 0 <= i < |groups| - 1 ensures groups[i].hi != MAX64 {
        var j := i + 1;
        assert groups[j].lo == groups[j - 1].hi + 1;
      }
    }
    var unwrapped := forall i :: 0 <= i < |groups| - 1 ==> groups[i].hi != MAX64;
    if unwrapped {
      forall i | 0 < i < |groups| ensures groups[i].lo == groups[i - 1].hi + 1 {
        var j := i - 1;
        assert groups[j].hi != MAX64;
      }
    }
  }

  /** Two groups that both own everything pass validate(). */
  lemma OverlapAccepted()
    ensures var g := Group("g", ["r"], 0, MAX64);
      Accepted([g, g]) && !Tiles([g, g])
  {
  }

  /** Equal split of the hash space. */
  method Uniform(replicaSets: seq<seq<string>>, names: seq<string>) returns (p: Outcome<seq<Group>>)
    requires |names| == |replicaSets| <= MAX64
    ensures p.InvalidArgument? <==> replicaSets == [] || exists i :: 0 <= i < |replicaSets| && replicaSets[i] == []
    ensures p.Ok? ==>
      && |p.value| == |replicaSets| && Tiles(p.value) && Balanced(p.value)
      && forall i :: 0 <= i < |p.value| ==> p.value[i].id == names[i] && p.value[i].replicas == replicaSets[i]
  {
    if replicaSets == [] { return InvalidArgument; }
    var n := |replicaSets|;
    var step := MAX64 / n;
    var groups: seq<Group> := [];
    for i := 0 to n
      invariant |groups| == i && forall j :: 0 <= j < i ==> groups[j] == UniformGroup(replicaSets, names, j)
    {
      var lo := if i == 0 then 0 else i * step + 1;
      var hi := if i + 1 == n then MAX64 else (i + 1) * step;
      groups := groups + [Group(names[i], replicaSets[i], lo, hi)];
    }
    UniformTiles(replicaSets, names, groups);
    var ok := Validate(groups);
    if !ok { return InvalidArgument; }
    return Ok(groups);
  }

  function UniformGroup(replicaSets: seq<seq<string>>, names: seq<string>, i: nat): Group
    requires |names| == |replicaSets| && i < |replicaSets|
  {
    var n := |replicaSets|;
    var step := MAX64 / n;
    Group(names[i], replicaSets[i], if i == 0 then 0 else i * step + 1, if i + 1 == n then MAX64 else (i + 1) * step)
  }

  function SizeOf(g: Group): int {
    g.hi - g.lo + 1
  }

  /** With two groups or more, range sizes differ by at most n - 1. */
  predicate Balanced(groups: seq<Group>) {
    |groups| >= 2 ==>
      forall i, j :: 0 <= i < |groups| && 0 <= j < |groups| ==> SizeOf(groups[i]) - SizeOf(groups[j]) <= |groups| - 1
  }

  lemma StepFits(n: nat, i: nat)
    requires 0 < n <= MAX64 && i < n
    ensures var step := MAX64 / n;
      && step >= 1 && (i + 1) * step == i * step + step && n * step + MAX64 % n == MAX64
      && (i + 1) * step <= n * step && (i + 1 == n ==> i * step == n * step - step)
  {
    var step, rest := MAX64 / n, n - (i + 1);
    Divided(MAX64, n);
    assert n * step == (i + 1) * step + rest * step;
  }

  lemma Divided(m: nat, n: nat)
    requires 0 < n <= m
    ensures m / n >= 1 && n * (m / n) + m % n == m
  {
  }

  lemma UniformSizes(replicaSets: seq<seq<string>>, names: seq<string>, i: nat)
    requires 0 < |names| == |replicaSets| <= MAX64 && i < |replicaSets|
    ensures var n := |replicaSets|;
      var g, step := UniformGroup(replicaSets, names, i), MAX64 / n;
      && g.lo <= g.hi <= MAX64
      && (n >= 2 ==> SizeOf(g) == if i == 0 then step + 1 else if i + 1 == n then step + MAX64 % n else step)
  {
    StepFits(|replicaSets|, i);
  }

  lemma UniformJoins(replicaSets: seq<seq<string>>, names: seq<string>, i: nat)
    requires 0 < i < |names| == |replicaSets| <= MAX64
    ensures UniformGroup(replicaSets, names, i).lo == UniformGroup(replicaSets, names, i - 1).hi + 1
  {
  }

  lemma UniformTiles(replicaSets: seq<seq<string>>, names: seq<string>, groups: seq<Group>)
    requires 0 < |names| == |replicaSets| == |groups| <= MAX64
    requires forall j :: 0 <= j < |groups| ==> groups[j] == UniformGroup(replicaSets, names, j)
    ensures Tiles(groups) && Balanced(groups) && Words(groups)
    ensures Accepted(groups) <==> forall i :: 0 <= i < |groups| ==> replicaSets[i] != []
  {
    var n := |groups|;
    forall i | 0 <= i < n
      ensures groups[i].lo <= groups[i].hi <= MAX64 && (0 < i ==> groups[i].lo == groups[i - 1].hi + 1 <= MAX64)
    {
      UniformSizes(replicaSets, names, i);
      if i > 0 { UniformJoins(replicaSets, names, i); }
    }
    UniformAccepted(replicaSets, names, groups);
    UniformBalanced(replicaSets, names, groups);
    hide UniformGroup;
  }

  lemma UniformAccepted(replicaSets: seq<seq<string>>, names: seq<string>, groups: seq<Group>)
    requires 0 < |names| == |replicaSets| == |groups| <= MAX64
    requires forall j :: 0 <= j < |groups| ==> groups[j] == UniformGroup(replicaSets, names, j)
    requires Tiles(groups) && Words(groups)
    ensures Accepted(groups) <==> forall i :: 0 <= i < |groups| ==> replicaSets[i] != []
  {
    hide Next;
    forall i | 0 < i < |groups| ensures groups[i].lo == Next(groups[i - 1].hi) {
      NextIs(groups[i - 1].hi);
    }
    forall i | 0 <= i < |groups| ensures groups[i].replicas == replicaSets[i] {
    }
    hide UniformGroup;
  }

  lemma UniformBalanced(replicaSets: seq<seq<string>>, names: seq<string>, groups: seq<Group>)
    requires 0 < |names| == |replicaSets| == |groups| <= MAX64
    requires forall j :: 0 <= j < |groups| ==> groups[j] == UniformGroup(replicaSets, names, j)
    ensures Balanced(groups)
  {
    hide UniformGroup;
    var n := |groups|;
    if n >= 2 {
      forall i, j | 0 <= i < n && 0 <= j < n ensures SizeOf(groups[i]) - SizeOf(groups[j]) <= n - 1 {
        UniformSizes(replicaSets, names, i);
        UniformSizes(replicaSets, names, j);
      }
    }
  }

  // ---------- owners ----------

  lemma {:induction false} OrderedRanges(groups: seq<Group>, i: nat, j: nat)
    requires Tiles(groups) && i < j < |groups|
    ensures groups[i].hi < groups[j].lo
  {
    if i + 1 < j { OrderedRanges(groups, i, j - 1); }
  }

  predicate Owns(g: Group, h: nat) {
    g.lo <= h <= g.hi
  }

  /** First group whose range does not end before h. */
  method FirstNotBelow(groups: seq<Group>, h: nat) returns (k: nat)
    requires forall i, j :: 0 <= i < j < |groups| ==> groups[i].hi <= groups[j].hi
    ensures k <= |groups|
    ensures forall i :: 0 <= i < k ==> groups[i].hi < h
    ensures k < |groups| ==> h <= groups[k].hi
  {
    var lo, hi := 0, |groups|;
    while lo < hi
      invariant 0 <= lo <= hi <= |groups|
      invariant forall i :: 0 <= i < lo ==> groups[i].hi < h
      invariant hi < |groups| ==> h <= groups[hi].hi
    {
      var mid := (lo + hi) / 2;
      if groups[mid].hi < h { lo := mid + 1; } else { hi := mid; }
    }
    k := lo;
  }

  /** The only group that owns the id's hash. */
  method Owner(groups: seq<Group>, id: string) returns (k: nat)
    requires Tiles(groups)
    ensures k < |groups| && k == OwnerOf(groups, ShardHash(id))
    ensures forall j :: 0 <= j < |groups| ==> (Owns(groups[j], ShardHash(id)) <==> j == k)
  {
    var hash := ShardHashOf(id);
    forall i, j | 0 <= i < j < |groups| ensures groups[i].hi <= groups[j].hi {
      OrderedRanges(groups, i, j);
    }
    k := FirstNotBelow(groups, hash);
    OwnerIs(groups, hash, k);
  }

  lemma OwnerIs(groups: seq<Group>, h: nat, k: nat)
    requires Tiles(groups) && h <= MAX64 && k <= |groups|
    requires (forall i :: 0 <= i < k ==> groups[i].hi < h) && (k < |groups| ==> h <= groups[k].hi)
    ensures k < |groups| && OwnerOf(groups, h) == k
    ensures forall j :: 0 <= j < |groups| ==> (Owns(groups[j], h) <==> j == k)
  {
    assert h <= groups[|groups| - 1].hi;
    forall j | 0 <= j < |groups| ensures Owns(groups[j], h) <==> j == k {
      if k < j { OrderedRanges(groups, k, j); }
      if j == k && 0 < k { assert groups[k].lo == groups[k - 1].hi + 1; }
    }
    FirstOwner(groups, h, 0, k);
  }

  /** By definition: the first group that owns h, searching from i. */
  function OwnerFrom(groups: seq<Group>, h: nat, i: nat): (k: nat)
    requires i <= |groups|
    ensures i <= k <= |groups|
    decreases |groups| - i
  {
    if i == |groups| || Owns(groups[i], h) then i else OwnerFrom(groups, h, i + 1)
  }

  function OwnerOf(groups: seq<Group>, h: nat): nat {
    OwnerFrom(groups, h, 0)
  }

  lemma {:induction false} FirstOwner(groups: seq<Group>, h: nat, i: nat, k: nat)
    requires i <= k < |groups| && Owns(groups[k], h) && forall j :: i <= j < k ==> !Owns(groups[j], h)
    ensures OwnerFrom(groups, h, i) == k
    decreases k - i
  {
    if i < k { FirstOwner(groups, h, i + 1, k); }
  }

  // ---------- splitting a write ----------

  /** One element of the request's array; without an id it gets a new one. */
  datatype Item = Object(id: Option<string>, body: string) | NotAnObject

  function NeedsId(x: Item): bool {
    x.Object? && (x.id.None? || x.id == Some(""))
  }

  /** The items with ids filled in from newIds, in order of need. */
  function WithIds(items: seq<Item>, newIds: nat -> string): seq<Item> {
    if items == [] then []
    else
      var init, x := items[..|items| - 1], items[|items| - 1];
      WithIds(init, newIds) + [if NeedsId(x) then Object(Some(newIds(Needed(init))), x.body) else x]
  }

  function Needed(items: seq<Item>): nat {
    if items == [] then 0 else Needed(items[..|items| - 1]) + if NeedsId(items[|items| - 1]) then 1 else 0
  }

  lemma {:induction false} IdsFilled(items: seq<Item>, newIds: nat -> string)
    requires forall i :: 0 <= i < |items| ==> items[i].Object?
    ensures |WithIds(items, newIds)| == |items|
    ensures forall i :: 0 <= i < |items| ==>
      && WithIds(items, newIds)[i].Object? && WithIds(items, newIds)[i].id.Some?
      && WithIds(items, newIds)[i].body == items[i].body
      && (!NeedsId(items[i]) ==> WithIds(items, newIds)[i] == items[i])
  {
    if items != [] { IdsFilled(items[..|items| - 1], newIds); }
  }

  predicate OwnedBy(groups: seq<Group>, x: Item, g: nat) {
    x.Object? && x.id.Some? && OwnerOf(groups, ShardHash(x.id.value)) == g
  }

  /** The items of one owner, in their order. */
  function Part(groups: seq<Group>, items: seq<Item>, g: nat): seq<Item> {
    if items == [] then []
    else
      var x := items[|items| - 1];
      Part(groups, items[..|items| - 1], g) + if OwnedBy(groups, x, g) then [x] else []
  }

  /** Every item goes to exactly its owner, in order; nothing is lost or sent twice. */
  method SplitUpsert(groups: seq<Group>, items: seq<Item>, newIds: nat -> string) returns (per: Outcome<seq<seq<Item>>>)
    requires Tiles(groups)
    ensures per.InvalidArgument? <==> exists i :: 0 <= i < |items| && items[i].NotAnObject?
    ensures per.Ok? ==>
      && |per.value| == |groups|
      && forall g :: 0 <= g < |groups| ==> per.value[g] == Part(groups, WithIds(items, newIds), g)
  {
    var parts: seq<seq<Item>> := seq(|groups|, g => []);
    var used := 0;
    for i := 0 to |items|
      invariant |parts| == |groups| && used == Needed(items[..i])
      invariant forall j :: 0 <= j < i ==> items[j].Object?
      invariant forall g :: 0 <= g < |groups| ==> parts[g] == Part(groups, WithIds(items[..i], newIds), g)
    {
      var v := items[i];
      if v.NotAnObject? { return InvalidArgument; }
      IdsMore(items, newIds, i);
      if v.id.None? || v.id == Some("") {
        v := Object(Some(newIds(used)), v.body);
        used := used + 1;
      }
      hide WithIds, Needed, Part, Tiles;
      parts := Push(groups, parts, v, WithIds(items[..i], newIds));
    }
    assert items[..|items|] == items;
    return Ok(parts);
  }

  lemma IdsMore(items: seq<Item>, newIds: nat -> string, i: nat)
    requires i < |items|
    ensures WithIds(items[..i + 1], newIds) == WithIds(items[..i], newIds)
      + [if NeedsId(items[i]) then Object(Some(newIds(Needed(items[..i]))), items[i].body) else items[i]]
    ensures Needed(items[..i + 1]) == Needed(items[..i]) + if NeedsId(items[i]) then 1 else 0
  {
    assert items[..i + 1][..i] == items[..i];
  }

  /** Appends one item to its owner's part. */
  method Push(groups: seq<Group>, parts: seq<seq<Item>>, v: Item, ghost sofar: seq<Item>) returns (more: seq<seq<Item>>)
    requires Tiles(groups) && |parts| == |groups| && v.Object? && v.id.Some?
    requires forall g :: 0 <= g < |groups| ==> parts[g] == Part(groups, sofar, g)
    ensures |more| == |groups| && forall g :: 0 <= g < |groups| ==> more[g] == Part(groups, sofar + [v], g)
  {
    PartMore(groups, sofar, v);
    var k := Owner(groups, v.id.value);
    more := parts[k := parts[k] + [v]];
  }

  lemma PartMore(groups: seq<Group>, items: seq<Item>, x: Item)
    ensures forall g :: Part(groups, items + [x], g) == Part(groups, items, g) + if OwnedBy(groups, x, g) then [x] else []
  {
    assert (items + [x])[..|items|] == items;
  }

  function Together(groups: seq<Group>, items: seq<Item>, n: nat): multiset<Item> {
    if n == 0 then multiset{} else Together(groups, items, n - 1) + multiset(Part(groups, items, n - 1))
  }

  lemma {:induction false} TogetherMore(groups: seq<Group>, items: seq<Item>, x: Item, n: nat)
    ensures Together(groups, items + [x], n) == Together(groups, items, n)
      + if x.Object? && x.id.Some? && OwnerOf(groups, ShardHash(x.id.value)) < n then multiset{x} else multiset{}
  {
    hide ShardHash, OwnerOf, Part;
    if n > 0 {
      TogetherMore(groups, items, x, n - 1);
      PartMore(groups, items, x);
    }
  }

  /** The parts hold each item once. */
  lemma {:induction false} NothingLost(groups: seq<Group>, items: seq<Item>)
    requires Tiles(groups) && forall i :: 0 <= i < |items| ==> items[i].Object? && items[i].id.Some?
    ensures Together(groups, items, |groups|) == multiset(items)
  {
    if items == [] {
      NoItems(groups, |groups|);
    } else {
      var init, x := items[..|items| - 1], items[|items| - 1];
      assert items == init + [x];
      NothingLost(groups, init);
      TogetherMore(groups, init, x, |groups|);
      SomeOwner(groups, ShardHash(x.id.value));
      hide ShardHash;
    }
  }

  lemma {:induction false} NoItems(groups: seq<Group>, n: nat)
    ensures Together(groups, [], n) == multiset{}
  {
    if n > 0 { NoItems(groups, n - 1); }
  }

  lemma SomeOwner(groups: seq<Group>, h: nat)
    requires Tiles(groups) && h <= MAX64
    ensures OwnerOf(groups, h) < |groups|
  {
    LastOwner(groups, h, |groups| - 1);
  }

  lemma {:induction false} LastOwner(groups: seq<Group>, h: nat, k: nat)
    requires Tiles(groups) && k < |groups| && h <= groups[k].hi
    ensures OwnerOf(groups, h) < |groups|
  {
    if Owns(groups[k], h) {
      OwnerAtMost(groups, h, 0, k);
    } else {
      LastOwner(groups, h, k - 1);
    }
  }

  lemma {:induction false} OwnerAtMost(groups: seq<Group>, h: nat, i: nat, k: nat)
    requires i <= k < |groups| && Owns(groups[k], h)
    ensures OwnerFrom(groups, h, i) <= k
    decreases k - i
  {
    if i < k { OwnerAtMost(groups, h, i + 1, k); }
  }
}
