/** What happens when a removal drops an id that is listed too often: a run of
    two servers in which two overlapping add_server calls list the same server
    twice, its removal then drops two votes at once, and both servers commit
    different entries at index 6. Batches hold one entry throughout, and both
    calls wait for the new server as the source makes them. */
module RaftDoubleAdd {
  import opened Wrappers
  import opened RaftTypes
  import opened RaftState
  import opened RaftCluster

  const M0 := Member(0, "")
  const M1 := Member(1, "")
  const ONE: Membership := [M0]
  const TWO: Membership := [M0, M1]
  const THREE: Membership := [M0, M1, M1]

  const ROOT := Entry(0, 0, Noop)
  const E1 := Entry(1, 1, Noop)
  const E2 := Entry(1, 2, Op("x", []))
  const E3 := Entry(1, 3, Config(TWO))
  const E4 := Entry(1, 4, Op("x", []))
  const E5 := Entry(1, 5, Config(THREE))
  const E6 := Entry(1, 6, Config(ONE))
  const F6 := Entry(2, 6, Noop)

  const L1: seq<Entry> := [ROOT, E1]
  const L2: seq<Entry> := [ROOT, E1, E2]
  const L3: seq<Entry> := [ROOT, E1, E2, E3]
  const L4: seq<Entry> := [ROOT, E1, E2, E3, E4]
  const L5: seq<Entry> := [ROOT, E1, E2, E3, E4, E5]
  const L6: seq<Entry> := [ROOT, E1, E2, E3, E4, E5, E6]
  const LF: seq<Entry> := [ROOT, E1, E2, E3, E4, E5, F6]

  // ---------- who is a quorum ----------

  lemma Counts()
    ensures CountIn(ONE, {0}) == 1 && CountIn(ONE, {1}) == 0
    ensures CountIn(TWO, {0}) == 1 && CountIn(TWO, {0, 1}) == 2
    ensures CountIn(THREE, {0}) == 1 && CountIn(THREE, {0, 1}) == 3 && CountIn(THREE, {1}) == 2
  {
    assert ONE[..0] == [] && TWO[..1] == ONE && THREE[..2] == TWO;
    assert CountIn(ONE, {1}) == 0 && CountIn(TWO, {1}) == 1;
    assert CountIn(ONE, {0, 1}) == 1;
  }

  /** Listed twice, server 1 alone outvotes server 0; once it is removed, server 0 is alone. */
  lemma Quorums()
    ensures Quorum(ONE, {0}) && !Quorum(TWO, {0}) && Quorum(TWO, {0, 1})
    ensures !Quorum(THREE, {0}) && Quorum(THREE, {0, 1}) && Quorum(THREE, {1})
    ensures Ids(ONE) == {0} && Ids(TWO) == {0, 1} && Ids(THREE) == {0, 1} && Ids([]) == {}
    ensures !SafeRemoval(THREE, 1)
  {
    Counts();
    assert M0 in TWO && M1 in TWO && M0 in THREE && M1 in THREE;
    assert forall x :: x in TWO ==> x == M0 || x == M1;
    assert forall x :: x in THREE ==> x == M0 || x == M1;
  }

  // ---------- the nodes along the run ----------

  type Configuration = (seq<(nat, Membership)>, Membership, nat)

  const C3: (nat, Membership) := (3, TWO)
  const C5: (nat, Membership) := (5, THREE)
  const C6: (nat, Membership) := (6, ONE)
  const K0: Configuration := ([], ONE, 0)
  const K3: Configuration := ([C3], TWO, 3)
  const K5: Configuration := ([C3, C5], THREE, 5)
  const K6: Configuration := ([C3, C5, C6], ONE, 6)

  function Lead(log: seq<Entry>, k: Configuration, commit: nat, learners: map<NodeId, Member>, peers: map<NodeId, Peer>): Node {
    Node(0, 1, Some(0), Leader, Store(log, 0, 0, ONE, None, k.0, k.1, k.2),
         commit, 0, Ballot({0}, {}, false, 0), 0, Recv([], 0, 0), learners, peers)
  }

  /** How far server 0 has got with server 1. */
  function Upto(next: nat, match_: nat): map<NodeId, Peer> {
    map[1 := Peer(next, match_, 0, 0, 0)]
  }

  function A0(): Node { NewNode(0, ONE) }
  function A1(): Node { Lead(L1, K0, 1, map[], map[]) }
  function A2(): Node { Lead(L2, K0, 2, map[], map[]) }
  function A3(): Node { Lead(L2, K0, 2, map[1 := M1], Upto(3, 0)) }
  function A4(): Node { Lead(L2, K0, 2, map[1 := M1], Upto(1, 0)) }
  function A5(): Node { Lead(L2, K0, 2, map[1 := M1], Upto(2, 1)) }
  function A6(): Node { Lead(L3, K3, 2, map[], Upto(2, 1)) }
  function A7(): Node { Lead(L4, K3, 2, map[], Upto(2, 1)) }
  function A8(): Node { Lead(L4, K3, 2, map[], Upto(3, 2)) }
  function A9(): Node { Lead(L4, K3, 3, map[], Upto(4, 3)) }
  function A10(): Node { Lead(L5, K5, 3, map[], Upto(4, 3)) }
  function A11(): Node { Lead(L5, K5, 4, map[], Upto(5, 4)) }
  function A12(): Node { Lead(L5, K5, 5, map[], Upto(6, 5)) }
  function A13(): Node { Lead(L6, K6, 6, map[], Upto(6, 5)) }

  function Learn(term: nat, log: seq<Entry>, k: Configuration, commit: nat, peers: map<NodeId, Peer>): Node {
    Node(1, term, if term == 2 then Some(1) else None, if term == 2 then Leader else Follower,
         Store(log, 0, 0, [], None, k.0, k.1, k.2),
         commit, 0, Ballot(if term == 2 then {1} else {}, {}, false, 0), 0, Recv([], 0, 0), map[], peers)
  }

  const NONE: Configuration := ([], [], 0)

  /** What server 1 knows of server 0, which it has never tried to reach. */
  function Unmet(next: nat): map<NodeId, Peer> {
    map[0 := Peer(next, 0, 0, 0, 0)]
  }

  function B0(): Node { NewNode(1, []) }
  function B1(): Node { Learn(1, [ROOT], NONE, 0, map[]) }
  function B2(): Node { Learn(1, L1, NONE, 1, map[]) }
  function B3(): Node { Learn(1, L2, NONE, 2, map[]) }
  function B4(): Node { Learn(1, L3, K3, 2, Unmet(4)) }
  function B5(): Node { Learn(1, L4, K3, 3, Unmet(4)) }
  function B6(): Node { Learn(1, L5, K5, 4, Unmet(4)) }
  function B7(): Node { Learn(2, LF, K5, 6, Unmet(6)) }

  const P0 := AppendArgs(1, 0, 2, 1, [], 2)
  const P1 := AppendArgs(1, 0, 0, 0, [E1], 2)
  const P2 := AppendArgs(1, 0, 1, 1, [E2], 2)
  const P3 := AppendArgs(1, 0, 2, 1, [E3], 2)
  const P4 := AppendArgs(1, 0, 3, 1, [E4], 3)
  const P5 := AppendArgs(1, 0, 4, 1, [E5], 4)

  const TAKEN := AppendReply(1, true, 0, 0)
  const REFUSED := AppendReply(1, false, 1, 0)

  // ---------- the nodes are well formed ----------

  lemma ConfigLists()
    ensures Configs([]) == [] && Configs([E1]) == [] && Configs([E1, E2]) == []
    ensures Configs([E1, E2, E3]) == [C3] && Configs([E1, E2, E3, E4]) == [C3]
    ensures Configs([E1, E2, E3, E4, E5]) == [C3, C5] && Configs([E1, E2, E3, E4, E5, F6]) == [C3, C5]
    ensures Configs([E1, E2, E3, E4, E5, E6]) == [C3, C5, C6]
    ensures Configs([E2]) == [] && Configs([E3]) == [C3] && Configs([E4]) == [] && Configs([E5]) == [C5]
  {
    assert [E1][..0] == [] && [E2][..0] == [] && [E3][..0] == [] && [E4][..0] == [] && [E5][..0] == [];
    assert [E1, E2][..1] == [E1];
    assert [E1, E2, E3][..2] == [E1, E2];
    assert [E1, E2, E3, E4][..3] == [E1, E2, E3];
    assert [E1, E2, E3, E4, E5][..4] == [E1, E2, E3, E4];
    assert [E1, E2, E3, E4, E5, E6][..5] == [E1, E2, E3, E4, E5];
    assert [E1, E2, E3, E4, E5, F6][..5] == [E1, E2, E3, E4, E5];
  }

  lemma Tails()
    ensures [ROOT][1..] == [] && L1[1..] == [E1] && L2[1..] == [E1, E2] && L3[1..] == [E1, E2, E3]
    ensures L4[1..] == [E1, E2, E3, E4] && L5[1..] == [E1, E2, E3, E4, E5]
    ensures L6[1..] == [E1, E2, E3, E4, E5, E6] && LF[1..] == [E1, E2, E3, E4, E5, F6]
  {
  }

  lemma ValidFirst()
    ensures Valid(A0()) && Valid(B0())
  {
    ConfigLists();
    Tails();
    hide Configs, Tracked;
  }

  lemma ValidA()
    ensures Valid(A1()) && Valid(A2()) && Valid(A3()) && Valid(A4()) && Valid(A5()) && Valid(A6())
    ensures Valid(A7()) && Valid(A8()) && Valid(A9()) && Valid(A10()) && Valid(A11()) && Valid(A12()) && Valid(A13())
  {
    hide Configs, Tracked;
    ConfigLists();
    Tails();
  }

  lemma ValidB()
    ensures Valid(B1()) && Valid(B2()) && Valid(B3()) && Valid(B4()) && Valid(B5()) && Valid(B6()) && Valid(B7())
  {
    hide Configs, Tracked;
    ConfigLists();
    Tails();
  }

  // ---------- the leader's own steps ----------

  lemma Elected()
    ensures CommitInLog(A0()) && OnTimeout(A0(), false, true, true) == A1()
  {
    hide Quorum, Configs, Ids;
    Quorums();
    var n := Stand(A0());
    var m := n.(role := Leader, ballot := n.ballot.(prevoting := false), peers := ResetPeers(n));
    assert m.peers == map[];
    assert AppendLocal(m, Noop).st.log == L1;
    assert Holders(AppendLocal(m, Noop), 1) == {0};
  }

  lemma SubmittedFirst()
    ensures CommitInLog(A1()) && Submit(A1(), "x", []) == A2()
  {
    hide Quorum, Configs, Ids;
    Quorums();
    var m := AppendLocal(A1(), Op("x", []));
    assert m.st.log == L2;
    assert Holders(m, 2) == {0};
    assert NewCommit(m, 2) == 2;
  }

  /** Both calls find server 1 two entries behind and wait. */
  lemma BothWait()
    ensures MayChangeConfig(A2()) && BeginAdd(A2(), M1) == A3() && M1.id !in Ids(A2().st.config)
    ensures MayChangeConfig(A3()) && BeginAdd(A3(), M1) == A3() && M1.id !in Ids(A3().st.config)
    ensures !CaughtUp(A3(), 1, 1)
  {
    Quorums();
    assert A2().learners[1 := M1] == map[1 := M1];
    assert A3().learners[1 := M1] == map[1 := M1];
  }

  /** The first call goes on, and its CONFIG leaves server 1 two entries behind again. */
  lemma AddedOnce()
    ensures CaughtUp(A5(), 1, 1) && CommitInLog(A5()) && MayChangeConfig(A5()) && FinishAdd(A5(), M1) == A6()
    ensures !CaughtUp(A6(), 1, 1)
  {
    hide Quorum, Configs, Ids;
    Quorums();
    var m := AppendLocal(A5(), Config(TWO));
    assert ONE + [M1] == TWO;
    assert m.st.log == L3 && m.st.logConfigs == [C3];
    assert m.peers == A5().peers;
    assert Holders(m, 3) == {0};
    assert NewCommit(m, 3) == 2;
    assert A5().learners - {1} == map[];
  }

  lemma SubmittedSecond()
    ensures CommitInLog(A6()) && Submit(A6(), "x", []) == A7() && !CaughtUp(A7(), 1, 1) && !CaughtUp(A8(), 1, 1)
  {
    hide Quorum, Configs, Ids;
    Quorums();
    var m := AppendLocal(A6(), Op("x", []));
    assert m.st.log == L4;
    assert Holders(m, 4) == {0} && Holders(m, 3) == {0};
    assert NewCommit(m, 3) == 2;
    assert NewCommit(m, 4) == 2;
  }

  /** The CONFIG has committed when the second call goes on, and nothing looks the id up again. */
  lemma AddedTwice()
    ensures CaughtUp(A9(), 1, 1) && CommitInLog(A9()) && MayChangeConfig(A9()) && FinishAdd(A9(), M1) == A10()
  {
    hide Quorum, Configs, Ids;
    Quorums();
    var m := AppendLocal(A9(), Config(THREE));
    assert TWO + [M1] == THREE;
    assert m.st.log == L5 && m.st.logConfigs == [C3, C5];
    assert m.peers == A9().peers;
    assert Holders(m, 5) == {0} && Holders(m, 4) == {0};
    assert NewCommit(m, 4) == 3;
    assert NewCommit(m, 5) == 3;
    assert A9().learners - {1} == map[];
  }

  lemma WithoutOne()
    ensures Without(THREE, 1) == ONE
  {
    assert THREE[..2] == TWO && TWO[..1] == ONE && ONE[..0] == [];
    assert Without(ONE, 1) == ONE && Without(TWO, 1) == ONE;
  }

  /** Both votes of server 1 go at once, and server 0 commits alone. */
  lemma Removed()
    ensures CommitInLog(A12()) && MayChangeConfig(A12()) && RemoveServer(A12(), 1) == A13()
    ensures A12().st.config == THREE && 1 in Ids(THREE)
  {
    hide Quorum, Configs, Ids;
    Quorums();
    WithoutOne();
    hide Without;
    assert A12().learners - {1} == map[];
    var m := AppendLocal(A12(), Config(ONE));
    assert m.st.log == L6 && m.st.logConfigs == [C3, C5, C6];
    assert m.peers == A12().peers;
    assert Holders(m, 6) == {0};
    assert NewCommit(m, 6) == 6;
  }

  /** Server 1, not knowing of its removal, is a majority of its configuration. */
  lemma Usurped()
    ensures CommitInLog(B6()) && OnTimeout(B6(), false, true, true) == B7()
  {
    hide Quorum, Configs, Ids;
    Quorums();
    var n := Stand(B6());
    var m := n.(role := Leader, ballot := n.ballot.(prevoting := false), peers := ResetPeers(n));
    assert m.peers == Unmet(6);
    var l := AppendLocal(m, Noop);
    assert l.st.log == LF;
    assert Holders(l, 6) == {1};
    assert NewCommit(l, 6) == 6;
  }

  // ---------- replicating one entry ----------

  lemma Sent()
    ensures Valid(A3()) && CanAppend(A3(), 1) && MakeAppend(A3(), 1, 1) == P0
    ensures Valid(A4()) && CanAppend(A4(), 1) && MakeAppend(A4(), 1, 1) == P1
    ensures Valid(A7()) && CanAppend(A7(), 1) && MakeAppend(A7(), 1, 1) == P2
    ensures Valid(A8()) && CanAppend(A8(), 1) && MakeAppend(A8(), 1, 1) == P3
    ensures Valid(A10()) && CanAppend(A10(), 1) && MakeAppend(A10(), 1, 1) == P4
    ensures Valid(A11()) && CanAppend(A11(), 1) && MakeAppend(A11(), 1, 1) == P5
  {
    ValidA();
    hide Valid;
    assert L2[3..3] == [] && L2[1..2] == [E1] && L4[2..3] == [E2] && L4[3..4] == [E3] && L5[4..5] == [E4] && L5[5..6] == [E5];
  }

  lemma Probed()
    ensures Valid(B0()) && WellFormed(P0) && OnAppendEntries(B0(), P0, true) == (B1(), REFUSED)
  {
    ValidFirst();
    assert Follow(B0(), 1) == B1();
  }

  /** A follower takes one entry that follows its last one. */
  lemma TakesOne(n: Node, a: AppendArgs, e: Entry)
    requires Valid(n) && WellFormed(a) && a.entries == [e] && n.role == Follower && n.currentTerm == a.term
    requires n.st.snapIndex <= a.prevLogIndex == LastIndex(n.st) && TermAt(n.st, a.prevLogIndex) == a.prevLogTerm
    requires !n.ballot.prevoting
    ensures n.commitIndex <= LastIndex(n.st) && n.st.snapIndex < e.index == LastIndex(n.st) + 1
    ensures LogShape(n.st) && OnAppendEntries(n, a, true)
      == (Splice(n, e.index, [e]).(commitIndex := CommitTo(n.commitIndex, a.leaderCommit, e.index)), AppendReply(n.currentTerm, true, 0, 0))
  {
    assert Follow(n, a.term) == n;
    assert a.entries[0].index == a.prevLogIndex + 1;
    assert FirstNew(n.st, a.entries, 0) == 0;
    assert a.entries[0..] == [e];
    hide Splice, ConfigsAgree, CommitTo, Follow;
  }

  lemma Stored(n: Node, e: Entry, log: seq<Entry>, k: Configuration)
    requires LogShape(n.st) && n.st.snapIndex == 0 && e.index == |n.st.log| && n.st.log + [e] == log
    requires Configs(n.st.log[1..]) + Configs([e]) == k.0
    requires if k.0 == [] then k.1 == n.st.snapConfig && k.2 == 0 else (k.2, k.1) == k.0[|k.0| - 1]
    ensures SpliceStore(n.st, e.index, [e]) == n.st.(log := log, logConfigs := k.0, config := k.1, configIndex := k.2)
  {
    assert n.st.log[..e.index] == n.st.log;
  }

  lemma TookFirst()
    ensures Valid(B1()) && WellFormed(P1) && OnAppendEntries(B1(), P1, true) == (B2(), TAKEN)
  {
    Quorums();
    ValidB();
    ConfigLists();
    Tails();
    hide OnAppendEntries, Valid, SpliceStore, Configs, Ids;
    TakesOne(B1(), P1, E1);
    Stored(B1(), E1, L1, NONE);
    assert Splice(B1(), 1, [E1]).peers == map[];
  }

  lemma TookSecond()
    ensures Valid(B2()) && WellFormed(P2) && OnAppendEntries(B2(), P2, true) == (B3(), TAKEN)
  {
    Quorums();
    ValidB();
    ConfigLists();
    Tails();
    hide OnAppendEntries, Valid, SpliceStore, Configs, Ids;
    TakesOne(B2(), P2, E2);
    Stored(B2(), E2, L2, NONE);
    assert Splice(B2(), 2, [E2]).peers == map[];
  }

  lemma TookConfig()
    ensures Valid(B3()) && WellFormed(P3) && OnAppendEntries(B3(), P3, true) == (B4(), TAKEN)
  {
    Quorums();
    ValidB();
    ConfigLists();
    Tails();
    hide OnAppendEntries, Valid, SpliceStore, Configs, Ids;
    TakesOne(B3(), P3, E3);
    Stored(B3(), E3, L3, K3);
    assert Splice(B3(), 3, [E3]).peers == Unmet(4);
  }

  lemma TookLast()
    ensures Valid(B4()) && WellFormed(P4) && OnAppendEntries(B4(), P4, true) == (B5(), TAKEN)
    ensures Valid(B5()) && WellFormed(P5) && OnAppendEntries(B5(), P5, true) == (B6(), TAKEN)
  {
    Quorums();
    ValidB();
    ConfigLists();
    Tails();
    hide OnAppendEntries, Valid, SpliceStore, Configs, Ids;
    TakesOne(B4(), P4, E4);
    TakesOne(B5(), P5, E5);
    Stored(B4(), E4, L4, K3);
    Stored(B5(), E5, L5, K5);
    assert Splice(B4(), 4, [E4]).peers == Unmet(4) && Splice(B5(), 5, [E5]).peers == Unmet(4);
  }

  lemma BackedOff()
    ensures CommitInLog(A3()) && OnAppendReply(A3(), 1, 0, P0, REFUSED) == A4()
  {
    assert BackedUp(A3().st, P0, REFUSED) == 1;
    assert A3().peers[1 := Peer(1, 0, 0, 0, 0)] == Upto(1, 0);
  }

  /** Server 1 has stored everything up to k and server 0 hears of it. */
  function Heard(n: Node, k: nat): Node {
    n.(peers := Upto(k + 1, k))
  }

  lemma Acked(n: Node, a: AppendArgs, next: nat, m: nat)
    requires CommitInLog(n) && n.role == Leader && n.currentTerm == 1 == a.term && n.peers == Upto(next, m)
    requires |a.entries| == 1 && m <= a.prevLogIndex
    ensures CommitInLog(Heard(n, a.prevLogIndex + 1))
    ensures OnAppendReply(n, 1, 0, a, TAKEN) == AdvanceCommit(Heard(n, a.prevLogIndex + 1))
  {
    var k := a.prevLogIndex + 1;
    assert n.peers[1 := Peer(k + 1, k, 0, 0, 0)] == Upto(k + 1, k);
    hide AdvanceCommit;
  }

  lemma AckedFirst()
    ensures CommitInLog(A4()) && OnAppendReply(A4(), 1, 0, P1, TAKEN) == A5()
    ensures CommitInLog(A7()) && OnAppendReply(A7(), 1, 0, P2, TAKEN) == A8()
  {
    Quorums();
    Acked(A4(), P1, 1, 0);
    Acked(A7(), P2, 2, 1);
    hide OnAppendReply, Quorum;
    var m := Heard(A7(), 2);
    assert Holders(m, 4) == {0} && Holders(m, 3) == {0};
    assert NewCommit(m, 3) == 2;
    assert NewCommit(m, 4) == 2;
  }

  lemma AckedConfig()
    ensures CommitInLog(A8()) && OnAppendReply(A8(), 1, 0, P3, TAKEN) == A9()
  {
    Quorums();
    Acked(A8(), P3, 3, 2);
    hide OnAppendReply, Quorum;
    var m := Heard(A8(), 3);
    assert Holders(m, 4) == {0} && Holders(m, 3) == {0, 1};
    assert NewCommit(m, 3) == 3;
    assert NewCommit(m, 4) == 3;
  }

  lemma AckedLast()
    ensures CommitInLog(A10()) && OnAppendReply(A10(), 1, 0, P4, TAKEN) == A11()
    ensures CommitInLog(A11()) && OnAppendReply(A11(), 1, 0, P5, TAKEN) == A12()
  {
    Quorums();
    Acked(A10(), P4, 4, 3);
    Acked(A11(), P5, 5, 4);
    hide OnAppendReply, Quorum;
    var m, m2 := Heard(A10(), 4), Heard(A11(), 5);
    assert Holders(m, 5) == {0} && Holders(m, 4) == {0, 1} && Holders(m2, 5) == {0, 1};
    assert NewCommit(m, 4) == 4;
    assert NewCommit(m, 5) == 4;
    assert NewCommit(m2, 5) == 5;
  }

  // ---------- the run ----------

  function Both(a: Node, adding: map<nat, Adding>, b: Node, net: set<Msg>): Cluster {
    Cluster(map[0 := Server(a, [], Idle, map[], adding), 1 := Server(b, [], Idle, map[], map[])], net)
  }

  /** AppendEntries and the catch-up margin use a batch of one entry. */
  predicate OneEntry(l: Label) {
    (l.SendAppend? ==> l.maxEntries == 1) && (l.AddBegin? || l.AddFinish? ==> l.margin == 1)
  }

  ghost predicate Reaches(app: App, r: Run, s: Cluster) {
    && IsRun(app, ONE, r) && r.states[|r.labels|] == s
    && forall i :: 0 <= i < |r.labels| ==> OneEntry(r.labels[i])
  }

  lemma Longer(app: App, r: Run, s: Cluster, l: Label, s2: Cluster) returns (r2: Run)
    requires Reaches(app, r, s) && Enabled(app, s, l) && s2 == Do(app, s, l) && OneEntry(l)
    ensures Reaches(app, r2, s2)
    ensures !SafeStep(s, l) || !CleanRun(app, ONE, r) ==> !CleanRun(app, ONE, r2)
  {
    hide Enabled, Do, Init, SafeStep, OneEntry;
    r2 := Run(r.states + [s2], r.labels + [l]);
    forall i | 0 <= i < |r.labels| ensures r2.states[i] == r.states[i] && r2.labels[i] == r.labels[i] {}
    assert r2.states[|r.labels|] == s && r2.labels[|r.labels|] == l;
  }

  /** A step of server 0 that sends nothing. */
  lemma Act(app: App, r: Run, a: Node, add: map<nat, Adding>, b: Node, net: set<Msg>, l: Label, a2: Node, add2: map<nat, Adding>)
      returns (r2: Run)
    requires Reaches(app, r, Both(a, add, b, net)) && Enabled(app, Both(a, add, b, net), l) && OneEntry(l) && l.v == 0
    requires Outcome(app, Both(a, add, b, net), l) == (Server(a2, [], Idle, map[], add2), {})
    ensures Reaches(app, r2, Both(a2, add2, b, net))
    ensures !SafeStep(Both(a, add, b, net), l) || !CleanRun(app, ONE, r) ==> !CleanRun(app, ONE, r2)
  {
    hide Enabled, Outcome, Reaches, SafeStep, CleanRun, OneEntry;
    var s, s2 := Both(a, add, b, net), Both(a2, add2, b, net);
    assert s.servers[0 := Server(a2, [], Idle, map[], add2)] == s2.servers;
    assert net + {} == net;
    r2 := Longer(app, r, s, l, s2);
  }

  /** Server 0 sends, server 1 handles, server 0 hears the answer. */
  lemma Exchange(app: App, r: Run, a: Node, add: map<nat, Adding>, b: Node, net: set<Msg>, p: AppendArgs, b2: Node,
                 rep: AppendReply, a2: Node) returns (r2: Run, net2: set<Msg>)
    requires Reaches(app, r, Both(a, add, b, net)) && a.hbRound == 0
    requires Valid(a) && CanAppend(a, 1) && MakeAppend(a, 1, 1) == p
    requires Valid(b) && WellFormed(p) && OnAppendEntries(b, p, true) == (b2, rep)
    requires CommitInLog(a) && OnAppendReply(a, 1, 0, p, rep) == a2
    ensures Reaches(app, r2, Both(a2, add, b2, net2))
  {
    hide Valid, CanAppend, MakeAppend, OnAppendEntries, OnAppendReply, WellFormed, Reaches, CommitInLog, SafeStep, CleanRun;
    var req, ans := AppReq(0, 1, 0, p), AppRep(1, 0, 0, p, rep);
    net2 := net + {req} + {ans};
    var s, s1, s2 := Both(a, add, b, net), Both(a, add, b, net + {req}), Both(a, add, b2, net2);
    assert s.servers[0 := Server(a, [], Idle, map[], add)] == s.servers;
    r2 := Longer(app, r, s, SendAppend(0, 1, 1), s1);
    assert s1.servers[1 := Server(b2, [], Idle, map[], map[])] == s2.servers;
    r2 := Longer(app, r2, s1, HandleAppend(1, req, true), s2);
    r2 := Act(app, r2, a, add, b2, net2, AppendBack(0, ans), a2, add);
  }

  lemma Started(app: App)
    ensures Reaches(app, Run([Both(A0(), map[], B0(), {})], []), Both(A0(), map[], B0(), {}))
  {
    Quorums();
  }

  const CALL := Adding(M1, 1)

  lemma UntilBothWait(app: App) returns (r: Run)
    ensures Reaches(app, r, Both(A3(), map[0 := CALL, 1 := CALL], B0(), {}))
  {
    hide A0;
    Started(app);
    ValidFirst();
    ValidA();
    Elected();
    SubmittedFirst();
    BothWait();
    hide Valid, Reaches, OnTimeout, Submit, BeginAdd, FinishAdd, MayChangeConfig, CaughtUp, Ids, SafeStep, CleanRun;
    r := Run([Both(A0(), map[], B0(), {})], []);
    r := Act(app, r, A0(), map[], B0(), {}, Timeout(0, false, true, true), A1(), map[]);
    r := Act(app, r, A1(), map[], B0(), {}, ClientSubmit(0, "x", []), A2(), map[]);
    r := Act(app, r, A2(), map[], B0(), {}, AddBegin(0, 0, M1, 1), A3(), map[0 := CALL]);
    r := Act(app, r, A3(), map[0 := CALL], B0(), {}, AddBegin(0, 1, M1, 1), A3(), map[0 := CALL, 1 := CALL]);
  }

  /** The first call ends; the second goes on waiting. */
  lemma UntilAddedOnce(app: App) returns (r: Run, net: set<Msg>)
    ensures Reaches(app, r, Both(A7(), map[1 := CALL], B2(), net))
  {
    r := UntilBothWait(app);
    ValidA();
    Sent();
    Probed();
    BackedOff();
    TookFirst();
    AckedFirst();
    AddedOnce();
    SubmittedSecond();
    hide Valid, CanAppend, MakeAppend, OnAppendEntries, OnAppendReply, WellFormed, Reaches, CommitInLog, MayChangeConfig, CaughtUp,
      FinishAdd, Submit, SafeStep, CleanRun;
    var both := map[0 := CALL, 1 := CALL];
    r, net := Exchange(app, r, A3(), both, B0(), {}, P0, B1(), REFUSED, A4());
    r, net := Exchange(app, r, A4(), both, B1(), net, P1, B2(), TAKEN, A5());
    assert both - {0} == map[1 := CALL];
    r := Act(app, r, A5(), both, B2(), net, AddFinish(0, 0, 1), A6(), map[1 := CALL]);
    r := Act(app, r, A6(), map[1 := CALL], B2(), net, ClientSubmit(0, "x", []), A7(), map[1 := CALL]);
  }

  lemma UntilAddedTwice(app: App) returns (r: Run, net: set<Msg>)
    ensures Reaches(app, r, Both(A10(), map[], B4(), net))
  {
    r, net := UntilAddedOnce(app);
    ValidA();
    Sent();
    TookSecond();
    TookConfig();
    AckedFirst();
    AckedConfig();
    AddedTwice();
    hide Valid, CanAppend, MakeAppend, OnAppendEntries, OnAppendReply, WellFormed, Reaches, CommitInLog, MayChangeConfig, CaughtUp,
      FinishAdd, SafeStep, CleanRun;
    r, net := Exchange(app, r, A7(), map[1 := CALL], B2(), net, P2, B3(), TAKEN, A8());
    r, net := Exchange(app, r, A8(), map[1 := CALL], B3(), net, P3, B4(), TAKEN, A9());
    assert map[1 := CALL] - {1} == map[];
    r := Act(app, r, A9(), map[1 := CALL], B4(), net, AddFinish(0, 1, 1), A10(), map[]);
  }

  lemma UntilRemoved(app: App) returns (r: Run, net: set<Msg>)
    ensures Reaches(app, r, Both(A13(), map[], B6(), net)) && !CleanRun(app, ONE, r)
  {
    r, net := UntilAddedTwice(app);
    ValidA();
    Sent();
    TookLast();
    AckedLast();
    Removed();
    Quorums();
    hide Valid, CanAppend, MakeAppend, OnAppendEntries, OnAppendReply, WellFormed, Reaches, CommitInLog, MayChangeConfig, RemoveServer,
      CleanRun, Ids, SafeRemoval;
    r, net := Exchange(app, r, A10(), map[], B4(), net, P4, B5(), TAKEN, A11());
    r, net := Exchange(app, r, A11(), map[], B5(), net, P5, B6(), TAKEN, A12());
    r := Act(app, r, A12(), map[], B6(), net, Remove(0, 1), A13(), map[]);
  }

  /** Removing a server listed twice ends with two servers that have each
      committed a different entry at index 6. */
  lemma DoubleAddIsUnsafe(app: App) returns (r: Run)
    ensures IsRun(app, ONE, r) && !CleanRun(app, ONE, r) && forall i :: 0 <= i < |r.labels| ==> OneEntry(r.labels[i])
    ensures var last := r.states[|r.labels|].servers;
      && 0 in last && 1 in last
      && last[0].n.commitIndex == 6 && last[1].n.commitIndex == 6 && last[1].n.role == Leader
      && last[0].n.st.snapIndex == 0 && last[1].n.st.snapIndex == 0
      && |last[0].n.st.log| == 7 && |last[1].n.st.log| == 7 && last[0].n.st.log[6] != last[1].n.st.log[6]
  {
    var net: set<Msg>;
    r, net := UntilRemoved(app);
    ValidB();
    Usurped();
    hide Valid, OnTimeout, CommitInLog, SafeStep, CleanRun, IsRun;
    var s, s2 := Both(A13(), map[], B6(), net), Both(A13(), map[], B7(), net);
    assert s.servers[1 := Server(B7(), [], Idle, map[], map[])] == s2.servers;
    assert net + {} == net;
    r := Longer(app, r, s, Timeout(1, false, true, true), s2);
  }
}
