/** What holds of every run in which remove_server drops no id that is listed
    too often: with elections, membership changes, compaction, snapshot transfer, restarts
    and messages that are lost, delayed, duplicated or reordered. */
module RaftSafety {
  import opened Wrappers
  import opened RaftTypes
  import opened RaftState
  import opened RaftNodeInvariant
  import opened RaftCluster
  import opened RaftHistory
  import S = RaftSteps
  import opened RaftGhost
  import opened RaftRefineBase
  import opened RaftRefineAppend
  import opened RaftRefineSnapshot
  import opened RaftRefineLocal
  import opened RaftInduction

  ghost predicate At(r: Run, i: nat, v: NodeId) {
    i < |r.states| && v in r.states[i].servers
  }

  ghost function ServerAt(r: Run, i: nat, v: NodeId): Server
    requires At(r, i, v)
  {
    r.states[i].servers[v]
  }

  ghost predicate LeaderAt(r: Run, i: nat, v: NodeId, t: nat) {
    At(r, i, v) && ServerAt(r, i, v).n.role == Leader && ServerAt(r, i, v).n.currentTerm == t
  }

  /** The whole log of a node: what its snapshot restores, then its log array. */
  ghost function FullLog(app: App, s: Store): Log {
    (if s.snapIndex > 0 && s.snapData.Some? then app(s.snapData.value) else [])
    + (if s.log == [] then [] else s.log[1..])
  }

  lemma FullLogIs(app: App, g: Ghost, v: NodeId, n: Node)
    requires NodeOk(app, g, v, n)
    ensures v in g.h.log && FullLog(app, n.st) == g.h.log[v] && LastIndex(n.st) == |FullLog(app, n.st)|
  {
    var full := g.h.log[v];
    RepFacts(n.st, full);
    assert full == full[..n.st.snapIndex] + full[n.st.snapIndex..];
  }

  lemma GhostAt(app: App, r: Run, gs: seq<Ghost>, i: nat, v: NodeId)
    requires Witness(app, r, gs) && At(r, i, v)
    ensures HistOk(gs[i]) && ServerOk(app, gs[i], v, ServerAt(r, i, v)) && NodeOk(app, gs[i], v, ServerAt(r, i, v).n)
  {
    assert CInv(app, r.states[i], gs[i]);
    assert ServerOk(app, gs[i], v, r.states[i].servers[v]);
  }

  lemma ExtendsGrows(g: Ghost, g2: Ghost, v: NodeId)
    requires Extends(g, g2, v)
    ensures S.Grows(g.h, g2.h)
  {
  }

  lemma {:induction false} GrowsOver(app: App, r: Run, gs: seq<Ghost>, i: nat, j: nat)
    requires Witness(app, r, gs) && i <= j < |gs|
    ensures S.Grows(gs[i].h, gs[j].h)
    decreases j - i
  {
    hide CInv, S.Grows, Extends;
    if i == j {
      S.GrowsRefl(gs[i].h);
    } else {
      GrowsOver(app, r, gs, i, j - 1);
      assert Linked(r.states[j - 1], r.labels[j - 1], gs[j - 1], gs[j]);
      ExtendsGrows(gs[j - 1], gs[j], r.labels[j - 1].v);
      S.GrowsTrans(gs[i].h, gs[j - 1].h, gs[j].h);
    }
  }

  // ---------- elections ----------

  lemma LeaderIs(app: App, r: Run, gs: seq<Ghost>, i: nat, v: NodeId, t: nat, k: nat)
    requires Witness(app, r, gs) && LeaderAt(r, i, v, t) && i <= k < |gs|
    ensures FromLeader(gs[k].h, v, t) && t in gs[i].h.ll
    ensures FullLog(app, ServerAt(r, i, v).n.st) == gs[i].h.ll[t] <= gs[k].h.ll[t]
  {
    GhostAt(app, r, gs, i, v);
    GrowsOver(app, r, gs, i, k);
    FullLogIs(app, gs[i], v, ServerAt(r, i, v).n);
  }

  /** Election Safety, under membership changes: at most one leader per term. */
  lemma ElectionSafety(app: App, base: Membership, r: Run, i: nat, u: NodeId, j: nat, v: NodeId, t: nat)
    requires CleanRun(app, base, r) && LeaderAt(r, i, u, t) && LeaderAt(r, j, v, t)
    ensures u == v
  {
    var gs := EveryRunHasWitness(app, base, r);
    var k := |gs| - 1;
    LeaderIs(app, r, gs, i, u, t, k);
    LeaderIs(app, r, gs, j, v, t, k);
  }

  /** A leader never overwrites or deletes entries in its log. */
  lemma LeaderAppendOnly(app: App, base: Membership, r: Run, i: nat, j: nat, v: NodeId, t: nat)
    requires CleanRun(app, base, r) && i <= j && LeaderAt(r, i, v, t) && LeaderAt(r, j, v, t)
    ensures FullLog(app, ServerAt(r, i, v).n.st) <= FullLog(app, ServerAt(r, j, v).n.st)
  {
    var gs := EveryRunHasWitness(app, base, r);
    LeaderIs(app, r, gs, i, v, t, j);
    LeaderIs(app, r, gs, j, v, t, j);
  }

  // ---------- logs ----------

  lemma FullLogPref(app: App, r: Run, gs: seq<Ghost>, i: nat, v: NodeId, k: nat)
    requires Witness(app, r, gs) && At(r, i, v) && i <= k < |gs|
    ensures Pref(gs[k].h, FullLog(app, ServerAt(r, i, v).n.st)) && InvLeaderLogs(gs[k].h)
  {
    GhostAt(app, r, gs, i, v);
    FullLogIs(app, gs[i], v, ServerAt(r, i, v).n);
    assert LogOk(gs[i].h, v);
    GrowsOver(app, r, gs, i, k);
    S.PrefGrows(gs[i].h, gs[k].h, gs[i].h.log[v]);
    assert CInv(app, r.states[k], gs[k]);
  }

  /** Log Matching, across servers, moments, truncations and compactions. */
  lemma LogMatching(app: App, base: Membership, r: Run, i: nat, u: NodeId, j: nat, v: NodeId, k: nat)
    requires CleanRun(app, base, r) && At(r, i, u) && At(r, j, v)
    requires k < |FullLog(app, ServerAt(r, i, u).n.st)| && k < |FullLog(app, ServerAt(r, j, v).n.st)|
    requires FullLog(app, ServerAt(r, i, u).n.st)[k].term == FullLog(app, ServerAt(r, j, v).n.st)[k].term
    ensures FullLog(app, ServerAt(r, i, u).n.st)[..k + 1] == FullLog(app, ServerAt(r, j, v).n.st)[..k + 1]
  {
    var gs := EveryRunHasWitness(app, base, r);
    var last := |gs| - 1;
    FullLogPref(app, r, gs, i, u, last);
    FullLogPref(app, r, gs, j, v, last);
    Matching(gs[last].h, FullLog(app, ServerAt(r, i, u).n.st), FullLog(app, ServerAt(r, j, v).n.st), k);
  }

  /** Leader Completeness: what any server has committed is in the log of every
      later leader of its term or a later one. */
  lemma LeaderCompleteness(app: App, base: Membership, r: Run, i: nat, u: NodeId, j: nat, v: NodeId, t: nat)
    requires CleanRun(app, base, r) && i <= j && At(r, i, u) && LeaderAt(r, j, v, t)
    requires ServerAt(r, i, u).n.currentTerm <= t
    ensures var n := ServerAt(r, i, u).n;
      n.commitIndex <= |FullLog(app, n.st)| && FullLog(app, n.st)[..n.commitIndex] <= FullLog(app, ServerAt(r, j, v).n.st)
  {
    hide CleanRun;
    var gs := EveryRunHasWitness(app, base, r);
    var n := ServerAt(r, i, u).n;
    GhostAt(app, r, gs, i, u);
    FullLogIs(app, gs[i], u, n);
    LeaderIs(app, r, gs, j, v, t, j);
    GrowsOver(app, r, gs, i, j);
    var p := FullLog(app, n.st)[..n.commitIndex];
    CommittedGrows(gs[i].h, gs[j].h, p, n.currentTerm, t);
    assert CInv(app, r.states[j], gs[j]);
    CommittedInLeader(gs[j].h, p, t, t);
  }

  // ---------- state machines ----------

  lemma AppliedIsCommitted(app: App, r: Run, gs: seq<Ghost>, i: nat, v: NodeId, k: nat)
    requires Witness(app, r, gs) && At(r, i, v) && i <= k < |gs|
    ensures Inv(gs[k].h) && Committed(gs[k].h, ServerAt(r, i, v).sm, ServerAt(r, i, v).n.currentTerm)
  {
    GhostAt(app, r, gs, i, v);
    GrowsOver(app, r, gs, i, k);
    var sv := ServerAt(r, i, v);
    CommittedGrows(gs[i].h, gs[k].h, sv.sm, sv.n.currentTerm, sv.n.currentTerm);
    assert CInv(app, r.states[k], gs[k]);
  }

  /** State Machine Safety: no two servers, at any two moments of a run, have
      applied different entries at the same index. */
  lemma StateMachineSafety(app: App, base: Membership, r: Run, i: nat, u: NodeId, j: nat, v: NodeId)
    requires CleanRun(app, base, r) && At(r, i, u) && At(r, j, v)
    ensures ServerAt(r, i, u).sm <= ServerAt(r, j, v).sm || ServerAt(r, j, v).sm <= ServerAt(r, i, u).sm
  {
    var gs := EveryRunHasWitness(app, base, r);
    var last := |gs| - 1;
    AppliedIsCommitted(app, r, gs, i, u, last);
    AppliedIsCommitted(app, r, gs, j, v, last);
    var a, b := ServerAt(r, i, u), ServerAt(r, j, v);
    if |a.sm| <= |b.sm| {
      CommittedComparable(gs[last].h, a.sm, a.n.currentTerm, b.sm, b.n.currentTerm);
    } else {
      CommittedComparable(gs[last].h, b.sm, b.n.currentTerm, a.sm, a.n.currentTerm);
    }
  }

  /** What a server has applied is the committed part of its log, up to lastApplied. */
  lemma AppliedIsLogPrefix(app: App, base: Membership, r: Run, i: nat, v: NodeId)
    requires CleanRun(app, base, r) && At(r, i, v)
    ensures var sv := ServerAt(r, i, v);
      && |sv.sm| == sv.n.lastApplied <= sv.n.commitIndex
      && sv.n.lastApplied <= |FullLog(app, sv.n.st)| && sv.sm == FullLog(app, sv.n.st)[..sv.n.lastApplied]
      && forall k :: 0 <= k < |sv.sm| ==> sv.sm[k].index == k + 1
  {
    hide CleanRun;
    var gs := EveryRunHasWitness(app, base, r);
    GhostAt(app, r, gs, i, v);
    var sv := ServerAt(r, i, v);
    AppliedPrefix(app, gs[i], v, sv);
    FullLogIs(app, gs[i], v, sv.n);
    assert LogOk(gs[i].h, v);
    forall k | 0 <= k < |sv.sm| ensures sv.sm[k].index == k + 1 {
      PrefixOfLeader(gs[i].h, gs[i].h.log[v], k);
    }
  }

  /** Within one process lifetime a state machine only moves forward: by the
      entry of the next index, or by a snapshot that extends what was applied. */
  lemma AppliesForward(app: App, base: Membership, r: Run, i: nat, v: NodeId)
    requires CleanRun(app, base, r) && i < |r.labels| && At(r, i, v) && !(r.labels[i].Crash? && r.labels[i].v == v)
    ensures At(r, i + 1, v)
    ensures var sv, sv2 := ServerAt(r, i, v), ServerAt(r, i + 1, v);
      && sv.sm <= sv2.sm
      && (sv2.sm != sv.sm ==> r.labels[i] == ApplyEnd(v))
      && (sv2.sm != sv.sm && sv.work.Applying? ==>
            sv2.sm == sv.sm + [sv.work.entry] && sv.work.entry.index == |sv2.sm|)
  {
    hide Do, Enabled;
    var gs := EveryRunHasWitness(app, base, r);
    GhostAt(app, r, gs, i, v);
    assert Enabled(app, r.states[i], r.labels[i]) && r.states[i + 1] == Do(app, r.states[i], r.labels[i]);
    hide CInv, Enabled, NodeOk, ReadsOk, HistOk, Outcome;
    if r.labels[i] != ApplyEnd(v) {
      OthersKeepState(app, r.states[i], r.labels[i], v);
    } else {
      AppliedExtends(app, gs[i], v, ServerAt(r, i, v), r.states[i], r.labels[i]);
    }
  }

  lemma OthersKeepState(app: App, s: Cluster, l: Label, v: NodeId)
    requires Enabled(app, s, l) && v in s.servers && !(l.Crash? && l.v == v) && l != ApplyEnd(v)
    ensures v in Do(app, s, l).servers && Do(app, s, l).servers[v].sm == s.servers[v].sm
  {
  }

  lemma AppliedExtends(app: App, g: Ghost, v: NodeId, sv: Server, s: Cluster, l: Label)
    requires HistOk(g) && ServerOk(app, g, v, sv) && Enabled(app, s, l) && l == ApplyEnd(v) && s.servers[v] == sv
    ensures v in Do(app, s, l).servers
    ensures var sv2 := Do(app, s, l).servers[v];
      && sv.sm <= sv2.sm
      && (sv.work.Applying? ==> sv2.sm == sv.sm + [sv.work.entry] && sv.work.entry.index == |sv2.sm|)
  {
    if sv.work.Restoring? {
      CommittedComparable(g.h, sv.sm, sv.n.currentTerm, app(sv.work.data), sv.n.currentTerm);
    }
  }

  // ---------- the guards of the steps always hold ----------

  lemma NodesStayValid(app: App, base: Membership, r: Run, i: nat, v: NodeId)
    requires CleanRun(app, base, r) && At(r, i, v)
    ensures var n := ServerAt(r, i, v).n;
      Valid(n) && (n.lastApplied < n.st.snapIndex ==> n.st.snapData.Some?)
      && (n.role == Leader && n.st.snapIndex > 0 ==> n.st.snapData.Some?)
    ensures forall m :: m in r.states[i].net && m.AppReq? ==> WellFormed(m.app)
  {
    var gs := EveryRunHasWitness(app, base, r);
    GhostAt(app, r, gs, i, v);
    assert CInv(app, r.states[i], gs[i]);
    forall m | m in r.states[i].net && m.AppReq? ensures WellFormed(m.app) {
      assert MsgOk(app, gs[i], m);
    }
  }

  /** A snapshot that reaches a node covers all it has committed, or the node
      keeps its log above the snapshot: installing it loses nothing committed. */
  lemma SnapshotsCoverCommitted(app: App, base: Membership, r: Run, i: nat, v: NodeId, m: Msg)
    requires CleanRun(app, base, r) && At(r, i, v) && Addressed(r.states[i], v, m) && m.SnapReq?
    requires ServerAt(r, i, v).n.currentTerm <= m.snap.term && ServerAt(r, i, v).n.st.snapIndex < m.snap.lastIncludedIndex
    ensures CoversCommitted(ServerAt(r, i, v).n, m.snap)
  {
    var gs := EveryRunHasWitness(app, base, r);
    var g, n, a := gs[i], ServerAt(r, i, v).n, m.snap;
    GhostAt(app, r, gs, i, v);
    assert CInv(app, r.states[i], g);
    assert MsgOk(app, g, m);
    var full, l := g.h.log[v], g.h.ll[a.term];
    assert LogOk(g.h, v);
    LeaderPref(g.h, a.term);
    CommittedInLeader(g.h, full[..n.commitIndex], n.currentTerm, a.term);
    InstalledIsLeaders(g.h, n.st, full, l, a);
    assert full[..n.commitIndex] <= Installed(n.st, full, l, a);
  }

  // ---------- snapshot transfer ----------

  ghost predicate SentAt(r: Run, j: nat, w: NodeId, t: nat, idx: nat, data: Bytes) {
    LeaderAt(r, j, w, t) && ServerAt(r, j, w).n.st.snapIndex == idx && ServerAt(r, j, w).n.st.snapData == Some(data)
  }

  /** At some moment before i the leader of term t had `data` as its snapshot at index idx. */
  ghost predicate LeaderHad(r: Run, i: nat, t: nat, idx: nat, data: Bytes) {
    exists j: nat, w: NodeId :: j < i && SentAt(r, j, w, t, idx, data)
  }

  lemma {:induction false} SnapshotsFromLeaders(app: App, r: Run, gs: seq<Ghost>, i: nat, t: nat, idx: nat)
    requires Witness(app, r, gs) && i < |gs| && (t, idx) in gs[i].sn
    ensures LeaderHad(r, i, t, idx, gs[i].sn[(t, idx)])
    decreases i
  {
    hide CInv, Extends;
    if i > 0 {
      var s, l := r.states[i - 1], r.labels[i - 1];
      assert Linked(s, l, gs[i - 1], gs[i]);
      if (t, idx) in gs[i - 1].sn && gs[i - 1].sn[(t, idx)] == gs[i].sn[(t, idx)] {
        SnapshotsFromLeaders(app, r, gs, i - 1, t, idx);
      } else {
        assert SentAt(r, i - 1, l.v, t, idx, gs[i].sn[(t, idx)]);
      }
    }
  }

  /** What a node has received so far is a prefix of one snapshot of one leader,
      of its term or an earlier one. */
  lemma ReceivedIsPrefix(app: App, base: Membership, r: Run, i: nat, v: NodeId)
    requires CleanRun(app, base, r) && At(r, i, v) && ServerAt(r, i, v).n.recv.buf != []
    ensures var n := ServerAt(r, i, v).n;
      exists t: nat, data: Bytes :: t <= n.currentTerm && LeaderHad(r, i, t, n.recv.index, data) && n.recv.buf <= data
  {
    var gs := EveryRunHasWitness(app, base, r);
    GhostAt(app, r, gs, i, v);
    var n, g := ServerAt(r, i, v).n, gs[i];
    SnapshotsFromLeaders(app, r, gs, i, g.rt[v], n.recv.index);
  }

  /** The bytes a node installs are exactly the snapshot that the leader of the
      message's term had at that index. */
  lemma SnapshotReassembly(app: App, base: Membership, r: Run, i: nat, v: NodeId, m: Msg, io: bool)
    requires CleanRun(app, base, r) && At(r, i, v) && Addressed(r.states[i], v, m) && m.SnapReq?
    requires OnInstallSnapshot(ServerAt(r, i, v).n, m.snap, io).0.st != ServerAt(r, i, v).n.st
    ensures var st := OnInstallSnapshot(ServerAt(r, i, v).n, m.snap, io).0.st;
      && st.snapIndex == m.snap.lastIncludedIndex && st.snapData.Some?
      && LeaderHad(r, i, m.snap.term, st.snapIndex, st.snapData.value)
  {
    var gs := EveryRunHasWitness(app, base, r);
    var g, n, a := gs[i], ServerAt(r, i, v).n, m.snap;
    GhostAt(app, r, gs, i, v);
    assert CInv(app, r.states[i], g);
    assert MsgOk(app, g, m);
    InstalledBytes(app, g, v, n, m.src, a, io);
    SnapshotsFromLeaders(app, r, gs, i, a.term, a.lastIncludedIndex);
  }

  lemma InstalledBytes(app: App, g: Ghost, v: NodeId, n: Node, src: NodeId, a: SnapshotArgs, io: bool)
    requires HistOk(g) && NodeOk(app, g, v, n) && SnapArgsOk(app, g, src, v, a)
    requires OnInstallSnapshot(n, a, io).0.st != n.st
    ensures var st := OnInstallSnapshot(n, a, io).0.st;
      && st.snapIndex == a.lastIncludedIndex && (a.term, a.lastIncludedIndex) in g.sn
      && st.snapData == Some(g.sn[(a.term, a.lastIncludedIndex)])
  {
    hide HistOk, NodeOk;
    var g1 := FollowStep(app, g, v, n, a.term);
    MoveFromStep(app, g, g1, v, n, Follow(n, a.term));
    SnapArgsGrow(app, g, g1, v, src, v, a);
    ReassembledIs(app, g1, v, Follow(n, a.term), src, a);
  }

  // ---------- linearizable reads ----------

  /** The read call `id` of v, begun at step b, is still running at state e. */
  ghost predicate Reading(r: Run, b: nat, e: nat, v: NodeId, id: nat) {
    && b < e < |r.states| && |r.states| == |r.labels| + 1 && r.labels[b] == ReadBegin(v, id)
    && forall k :: b < k <= e ==> At(r, k, v) && id in ServerAt(r, k, v).pending
  }

  lemma {:induction false} BegunStays(app: App, base: Membership, r: Run, gs: seq<Ghost>, b: nat, e: nat, v: NodeId, id: nat)
    requires IsRun(app, base, r) && Witness(app, r, gs) && Reading(r, b, e, v, id)
    ensures (v, id) in gs[e].begun && gs[e].begun[(v, id)] == gs[b].h.commits
    decreases e
  {
    hide CInv, Extends, IsRun, Do;
    var s, l := r.states[e - 1], r.labels[e - 1];
    assert Linked(s, l, gs[e - 1], gs[e]);
    if e > b + 1 {
      BegunStays(app, base, r, gs, b, e - 1, v, id);
      NotBegunAgain(app, base, r, b, e, v, id);
    }
  }

  lemma NotBegunAgain(app: App, base: Membership, r: Run, b: nat, e: nat, v: NodeId, id: nat)
    requires IsRun(app, base, r) && Reading(r, b, e, v, id) && b + 1 < e
    ensures r.labels[e - 1] != ReadBegin(v, id)
  {
    assert Enabled(app, r.states[e - 1], r.labels[e - 1]);
    assert At(r, e - 1, v) && id in ServerAt(r, e - 1, v).pending;
  }

  /** ReadIndex is linearizable: when the call returns, the local state machine
      contains everything that any server had committed or applied when it began. */
  lemma ReadIndexIsLinearizable(app: App, base: Membership, r: Run, b: nat, e: nat, v: NodeId, id: nat, u: NodeId)
    requires CleanRun(app, base, r) && Reading(r, b, e, v, id) && At(r, b, u)
    requires e < |r.labels| && r.labels[e] == ReadReturn(v, id)
    ensures ServerAt(r, e, v).pending[id].Ready?
    ensures var ri := ServerAt(r, e, v).pending[id].ri;
      && ServerAt(r, b, u).n.commitIndex <= ri <= |ServerAt(r, e, v).sm|
      && ServerAt(r, b, u).sm <= ServerAt(r, e, v).sm
  {
    var gs := EveryRunHasWitness(app, base, r);
    BegunStays(app, base, r, gs, b, e, v, id);
    ReadReturns(app, base, r, e, v, id);
    hide *;
    ReadSees(app, base, r, gs, b, e, v, id, u);
    StateMachineSafety(app, base, r, b, u, e, v);
    ShorterIsPrefix(ServerAt(r, b, u).sm, ServerAt(r, e, v).sm);
  }

  lemma ShorterIsPrefix(a: Log, b: Log)
    requires (a <= b || b <= a) && |a| <= |b|
    ensures a <= b
  {
  }

  lemma ReadReturns(app: App, base: Membership, r: Run, e: nat, v: NodeId, id: nat)
    requires IsRun(app, base, r) && e < |r.labels| && r.labels[e] == ReadReturn(v, id) && At(r, e, v)
    ensures id in ServerAt(r, e, v).pending && ServerAt(r, e, v).pending[id].Ready?
    ensures ServerAt(r, e, v).n.lastApplied >= ServerAt(r, e, v).pending[id].ri
  {
    assert Enabled(app, r.states[e], r.labels[e]);
  }

  lemma ReadSees(app: App, base: Membership, r: Run, gs: seq<Ghost>, b: nat, e: nat, v: NodeId, id: nat, u: NodeId)
    requires Witness(app, r, gs) && At(r, b, u) && At(r, e, v) && (v, id) in gs[e].begun
    requires gs[e].begun[(v, id)] == gs[b].h.commits
    requires id in ServerAt(r, e, v).pending && ServerAt(r, e, v).pending[id].Ready?
    requires ServerAt(r, e, v).n.lastApplied >= ServerAt(r, e, v).pending[id].ri
    ensures ServerAt(r, b, u).n.commitIndex <= ServerAt(r, e, v).pending[id].ri <= |ServerAt(r, e, v).sm|
    ensures |ServerAt(r, b, u).sm| <= ServerAt(r, b, u).n.commitIndex
  {
    GhostAt(app, r, gs, b, u);
    GhostAt(app, r, gs, e, v);
    var n, sv := ServerAt(r, b, u).n, ServerAt(r, e, v);
    assert ReadOk(gs[e], v, sv.n, id, sv.pending[id]);
    var p := gs[b].h.log[u][..n.commitIndex];
    if p != [] {
      var cm :| cm in gs[b].h.commits && cm.term <= n.currentTerm && Covers(gs[b].h, cm, p);
    }
  }
}
