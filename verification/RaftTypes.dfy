/** Values shared by the whole Raft model: members, log entries, quorums and
    the membership that a log puts in force. */
module RaftTypes {

  /** Node ids are non-negative; `NO_NODE` stands for the source's -1. */
  type NodeId = nat

  /** One voting member; `addr` only matters to the transport. */
  datatype Member = Member(id: NodeId, addr: string)

  type Membership = seq<Member>

  newtype byte = x: int | 0 <= x < 256

  type Bytes = seq<byte>

  datatype Command =
    | Noop
    | Config(members: Membership)
    | Op(name: string, payload: Bytes)

  datatype Entry = Entry(term: nat, index: nat, cmd: Command)

  type Log = seq<Entry>

  // ---------- memberships and quorums ----------

  function Ids(m: Membership): set<NodeId> {
    set x | x in m :: x.id
  }

  predicate Distinct(m: Membership) {
    forall i, j :: 0 <= i < j < |m| ==> m[i].id != m[j].id
  }

  /** How many members of `m` are in `s`, counted the way the source counts. */
  function CountIn(m: Membership, s: set<NodeId>): nat {
    if m == [] then 0 else CountIn(m[..|m| - 1], s) + if m[|m| - 1].id in s then 1 else 0
  }

  predicate Quorum(m: Membership, s: set<NodeId>) {
    |m| > 0 && 2 * CountIn(m, s) > |m|
  }

  /** How often `m` lists `id`. */
  function Times(m: Membership, id: NodeId): nat {
    CountIn(m, {id})
  }

  function Without(m: Membership, id: NodeId): Membership {
    if m == [] then [] else Without(m[..|m| - 1], id) + if m[|m| - 1].id != id then [m[|m| - 1]] else []
  }

  /** Any quorum of `a` and any quorum of `b` share a server. */
  ghost predicate Meet(a: Membership, b: Membership) {
    forall p: set<NodeId>, q: set<NodeId> :: Quorum(a, p) && Quorum(b, q) ==> p * q != {}
  }

  lemma SharedServer(a: Membership, b: Membership, p: set<NodeId>, q: set<NodeId>)
    requires Meet(a, b) && Quorum(a, p) && Quorum(b, q)
    ensures p * q != {}
  {
  }

  lemma {:induction false} CountApart(m: Membership, p: set<NodeId>, q: set<NodeId>)
    requires p * q == {}
    ensures CountIn(m, p) + CountIn(m, q) <= |m|
  {
    if m != [] {
      CountApart(m[..|m| - 1], p, q);
      assert m[|m| - 1].id !in p * q;
    }
  }

  lemma {:induction false} CountAmong(m: Membership, s: set<NodeId>, ids: set<NodeId>)
    requires Ids(m) <= ids
    ensures CountIn(m, ids * s) == CountIn(m, s)
  {
    if m != [] {
      var init, last := m[..|m| - 1], m[|m| - 1];
      assert m == init + [last];
      assert last.id in Ids(m) && Ids(init) <= Ids(m);
      CountAmong(init, s, ids);
    }
  }

  /** Only members count. */
  lemma QuorumOfMembers(m: Membership, s: set<NodeId>)
    requires Quorum(m, s)
    ensures Quorum(m, Ids(m) * s)
  {
    CountAmong(m, s, Ids(m));
  }

  lemma {:induction false} CountWithout(m: Membership, id: NodeId, s: set<NodeId>)
    ensures |Without(m, id)| == |m| - Times(m, id)
    ensures CountIn(m, s) == CountIn(Without(m, id), s) + if id in s then Times(m, id) else 0
  {
    if m != [] {
      var init, last := m[..|m| - 1], m[|m| - 1];
      CountWithout(init, id, s);
      var w := Without(init, id);
      if last.id != id {
        assert Without(m, id) == w + [last] && (w + [last])[..|w|] == w;
      } else {
        assert Without(m, id) == w;
      }
    }
  }

  /** One more listing, of a new id or of one already there, keeps quorums meeting. */
  lemma AdditionMeets(m: Membership, x: Member)
    ensures Meet(m, m + [x])
  {
    assert (m + [x])[..|m|] == m;
    forall p: set<NodeId>, q: set<NodeId> | Quorum(m, p) && Quorum(m + [x], q) ensures p * q != {} {
      if p * q == {} { CountApart(m, p, q); }
    }
  }

  lemma MeetSelf(m: Membership)
    ensures Meet(m, m)
  {
    forall p: set<NodeId>, q: set<NodeId> | Quorum(m, p) && Quorum(m, q) ensures p * q != {} {
      if p * q == {} { CountApart(m, p, q); }
    }
  }

  lemma MeetSwaps(a: Membership, b: Membership)
    requires Meet(a, b)
    ensures Meet(b, a)
  {
    forall p: set<NodeId>, q: set<NodeId> | Quorum(b, p) && Quorum(a, q) ensures p * q != {} {
      assert q * p == p * q;
    }
  }

  /** What remove_server would have to look at: how often it drops the id, and
      how many listings stay. */
  predicate SafeRemoval(m: Membership, id: NodeId) {
    var rest := |m| - Times(m, id);
    Times(m, id) <= 1 || rest == 0 || (Times(m, id) == 2 && rest % 2 == 0)
  }

  lemma RemovalMeets(m: Membership, id: NodeId)
    requires SafeRemoval(m, id)
    ensures Meet(m, Without(m, id))
  {
    var rest := Without(m, id);
    forall p: set<NodeId>, q: set<NodeId> | Quorum(m, p) && Quorum(rest, q) ensures p * q != {} {
      if p * q == {} {
        CountApart(rest, p, q);
        CountWithout(m, id, p);
      }
    }
  }

  lemma {:induction false} CountAbsent(m: Membership, s: set<NodeId>)
    requires Ids(m) * s == {}
    ensures CountIn(m, s) == 0
  {
    if m != [] {
      var init, last := m[..|m| - 1], m[|m| - 1];
      assert m == init + [last];
      assert last.id in Ids(m) && Ids(init) <= Ids(m);
      assert last.id !in Ids(m) * s && Ids(init) * s == {};
      CountAbsent(init, s);
    }
  }

  lemma {:induction false} CountConcat(a: Membership, b: Membership, s: set<NodeId>)
    ensures CountIn(a + b, s) == CountIn(a, s) + CountIn(b, s)
  {
    if b == [] {
      assert a + b == a;
    } else {
      var init := b[..|b| - 1];
      CountConcat(a, init, s);
      assert (a + b)[..|a + b| - 1] == a + init;
    }
  }

  lemma {:induction false} CountAll(m: Membership, s: set<NodeId>)
    requires Ids(m) <= s
    ensures CountIn(m, s) == |m|
  {
    if m != [] {
      var init, last := m[..|m| - 1], m[|m| - 1];
      assert m == init + [last];
      assert last.id in Ids(m) && Ids(init) <= Ids(m);
      CountAll(init, s);
    }
  }

  lemma {:induction false} WithoutId(m: Membership, id: NodeId)
    ensures id !in Ids(Without(m, id))
  {
    if m != [] {
      var init, last := m[..|m| - 1], m[|m| - 1];
      WithoutId(init, id);
      assert forall x :: x in Without(m, id) ==> x in Without(init, id) || x == last;
    }
  }

  lemma HalvesApart(m: Membership, k: nat)
    requires Distinct(m) && k <= |m|
    ensures Ids(m[..k]) * Ids(m[k..]) == {}
  {
    forall x | x in Ids(m[..k]) ensures x !in Ids(m[k..]) {
      var i :| 0 <= i < k && m[i].id == x;
      forall y | y in m[k..] ensures y.id != x {
        var j :| 0 <= j < |m| - k && m[k..][j] == y;
        assert m[i].id != m[k + j].id;
      }
    }
  }

  /** Of members listed once each, the first k are counted as k. */
  lemma CountHalves(m: Membership, k: nat, p: set<NodeId>)
    requires Distinct(m) && k <= |m| && p * Ids(m) == Ids(m[k..])
    ensures CountIn(m, Ids(m[..k])) == k && CountIn(m, p) == |m| - k
  {
    var a, b := m[..k], m[k..];
    assert m == a + b;
    HalvesApart(m, k);
    assert Ids(m) == Ids(a) + Ids(b);
    CountConcat(a, b, Ids(a));
    CountConcat(a, b, p);
    CountAll(a, Ids(a));
    CountAll(b, p);
    assert Ids(b) * Ids(a) == {};
    CountAbsent(b, Ids(a));
    assert Ids(a) * p == Ids(a) * (p * Ids(m));
    CountAbsent(a, p);
  }

  /** The arithmetic of it: k of the others outvote the rest, who with `id` outvote them. */
  lemma BothOutvote(rest: nat, times: nat, k: nat)
    requires rest > 0 && times >= 2 && (times == 2 ==> rest % 2 == 1) && k == rest / 2 + 1
    ensures k <= rest && 2 * k > rest && 2 * (rest - k + times) > rest + times
  {
  }

  /** Two quorums that share nobody: the first k of those who stay, and the others with `id`. */
  lemma RemovalSplits(m: Membership, id: NodeId)
    requires Distinct(Without(m, id)) && !SafeRemoval(m, id)
    ensures !Meet(m, Without(m, id))
  {
    var rest := Without(m, id);
    CountWithout(m, id, {});
    var k := |rest| / 2 + 1;
    BothOutvote(|rest|, Times(m, id), k);
    var p, q := Ids(rest[k..]) + {id}, Ids(rest[..k]);
    HalvesApart(rest, k);
    WithoutId(m, id);
    Parted(rest, k, id);
    hide Ids, Distinct, CountIn, Without;
    CountHalves(rest, k, p);
    CountWithout(m, id, p);
    assert Quorum(m, p) && Quorum(rest, q);
  }

  lemma Parted(m: Membership, k: nat, id: NodeId)
    requires k <= |m| && id !in Ids(m) && Ids(m[..k]) * Ids(m[k..]) == {}
    ensures var p := Ids(m[k..]) + {id}; p * Ids(m[..k]) == {} && p * Ids(m) == Ids(m[k..])
  {
    assert m == m[..k] + m[k..];
    assert Ids(m) == Ids(m[..k]) + Ids(m[k..]);
  }

  /** When the others are listed once each, that is exactly when removing `id` is safe. */
  lemma RemovalMeetsIff(m: Membership, id: NodeId)
    requires Distinct(Without(m, id))
    ensures Meet(m, Without(m, id)) <==> SafeRemoval(m, id)
  {
    if SafeRemoval(m, id) { RemovalMeets(m, id); } else { RemovalSplits(m, id); }
  }

  // ---------- the membership in force ----------

  /** The newest CONFIG entry of `log`, or `base` when there is none. */
  function ConfigOf(base: Membership, log: Log): Membership {
    if log == [] then base
    else if log[|log| - 1].cmd.Config? then log[|log| - 1].cmd.members
    else ConfigOf(base, log[..|log| - 1])
  }

  lemma {:induction false} ConfigOfQuietSuffix(base: Membership, log: Log, d: nat)
    requires d <= |log|
    requires forall i :: d <= i < |log| ==> !log[i].cmd.Config?
    ensures ConfigOf(base, log) == ConfigOf(base, log[..d])
  {
    if d < |log| {
      var init := log[..|log| - 1];
      ConfigOfQuietSuffix(base, init, d);
      assert init[..d] == log[..d];
    } else {
      assert log[..d] == log;
    }
  }

  lemma ConfigOfLastAt(base: Membership, log: Log, i: nat)
    requires i < |log| && log[i].cmd.Config?
    requires forall j :: i < j < |log| ==> !log[j].cmd.Config?
    ensures ConfigOf(base, log) == log[i].cmd.members
  {
    ConfigOfQuietSuffix(base, log, i + 1);
    assert log[..i + 1][|log[..i + 1]| - 1] == log[i];
  }

  // ---------- logs ----------

  function LastTerm(log: Log): nat {
    if log == [] then 0 else log[|log| - 1].term
  }

  /** Raft's "at least as up to date" comparison of a candidate's log end
      with a voter's log end. */
  predicate UpToDate(lastTerm: nat, lastIndex: nat, myTerm: nat, myIndex: nat) {
    lastTerm > myTerm || (lastTerm == myTerm && lastIndex >= myIndex)
  }

  lemma PrefixTrans(a: Log, b: Log, c: Log)
    requires a <= b && b <= c
    ensures a <= c
  {
  }

  /** Two prefixes of one log are comparable. */
  lemma PrefixesComparable(a: Log, b: Log, c: Log)
    requires a <= c && b <= c
    ensures |a| <= |b| ==> a <= b
    ensures |b| <= |a| ==> b <= a
  {
  }
}
