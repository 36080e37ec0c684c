/** Refinement of the steps a server takes by itself: client commands,
    membership changes, applying, compacting and restarting. */
module RaftRefineLocal {
  import opened RaftTypes
  import opened RaftState
  import opened RaftNodeInvariant
  import opened RaftCluster
  import opened RaftHistory
  import S = RaftSteps
  import opened RaftGhost
  import opened RaftRefineBase
  import opened RaftRefineLeader
  import opened RaftRefineVotes
  import opened RaftRefineAppend

  // ---------- client commands and membership changes ----------

  lemma LoseQuorumStep(app: App, g: Ghost, v: NodeId, n: Node)
    requires HistOk(g) && NodeOk(app, g, v, n)
    ensures NodeStep(app, g, g, v, n, n.(role := Follower))
  {
    FollowerOk(app, g, v, n);
    NodeStepRefl(app, g, v, n, n.(role := Follower));
  }

  lemma SubmitStep(app: App, g: Ghost, v: NodeId, n: Node, name: string, payload: Bytes) returns (g2: Ghost)
    requires HistOk(g) && NodeOk(app, g, v, n) && n.role == Leader && CommitInLog(n)
    ensures NodeStep(app, g, g2, v, n, Submit(n, name, payload))
  {
    ValidNode(app, g, v, n);
    AppendLocalValid(n, Op(name, payload));
    hide HistOk, NodeOk, NodeStep;
    g2 := AppendAndCommitOk(app, g, v, n, Op(name, payload));
  }

  lemma ValidNode(app: App, g: Ghost, v: NodeId, n: Node)
    requires NodeOk(app, g, v, n)
    ensures Valid(n)
  {
  }

  /** A leader's configuration is the one its log puts in force. */
  lemma LeaderConfig(app: App, g: Ghost, v: NodeId, n: Node)
    requires HistOk(g) && NodeOk(app, g, v, n) && n.role == Leader
    ensures v in g.h.log && n.st.config == ConfigOf(g.h.base, g.h.log[v])
  {
    assert LogOk(g.h, v);
  }

  lemma ChangeConfigStep(app: App, g: Ghost, v: NodeId, n: Node, nc: Membership) returns (g2: Ghost)
    requires HistOk(g) && NodeOk(app, g, v, n) && CommitInLog(n) && MayChangeConfig(n)
    requires Meet(n.st.config, nc)
    ensures NodeStep(app, g, g2, v, n, ChangeConfig(n, nc))
  {
    ValidNode(app, g, v, n);
    NodeFacts(app, g, v, n);
    MayChangeHolds(app, g, v, n, nc);
    AppendLocalValid(n, Config(nc));
    hide HistOk, NodeOk, NodeStep, S.MayChange;
    g2 := AppendAndCommitOk(app, g, v, n, Config(nc));
  }

  lemma WithLearners(app: App, g: Ghost, g2: Ghost, v: NodeId, n: Node, m: Node, learners: map<NodeId, Member>)
    requires NodeStep(app, g, g2, v, n, m)
    ensures NodeStep(app, g, g2, v, n, m.(learners := learners))
  {
    LearnersOk(app, g2, v, m, learners);
    hide HistOk, NodeOk;
  }

  lemma AddFinishStep(app: App, g: Ghost, v: NodeId, n: Node, m: Member) returns (g2: Ghost)
    requires HistOk(g) && NodeOk(app, g, v, n) && CommitInLog(n) && MayChangeConfig(n)
    ensures NodeStep(app, g, g2, v, n, FinishAdd(n, m))
  {
    var nc := n.st.config + [m];
    AdditionMeets(n.st.config, m);
    hide HistOk, NodeOk, NodeStep;
    g2 := ChangeConfigStep(app, g, v, n, nc);
    WithLearners(app, g, g2, v, n, ChangeConfig(n, nc), n.learners - {m.id});
    SameLearners(n, nc);
  }

  lemma SameLearners(n: Node, nc: Membership)
    requires CommitInLog(n) && CommitInLog(AppendLocal(n, Config(nc)))
    ensures ChangeConfig(n, nc).learners == n.learners
  {
  }

  lemma LearnersStep(app: App, g: Ghost, v: NodeId, n: Node, learners: map<NodeId, Member>)
    requires HistOk(g) && NodeOk(app, g, v, n)
    ensures NodeStep(app, g, g, v, n, n.(learners := learners))
  {
    LearnersOk(app, g, v, n, learners);
    NodeStepRefl(app, g, v, n, n.(learners := learners));
  }

  lemma RemoveStep(app: App, g: Ghost, v: NodeId, n: Node, id: NodeId) returns (g2: Ghost)
    requires HistOk(g) && NodeOk(app, g, v, n) && CommitInLog(n) && MayChangeConfig(n)
    requires SafeRemoval(n.st.config, id)
    ensures NodeStep(app, g, g2, v, n, RemoveServer(n, id))
  {
    var m := n.(learners := n.learners - {id});
    LearnersStep(app, g, v, n, n.learners - {id});
    RemovalMeets(n.st.config, id);
    hide HistOk, NodeOk, NodeStep;
    NodeStepKeeps(app, g, g, v, n, m);
    g2 := ChangeConfigStep(app, g, v, m, Without(n.st.config, id));
    NodeStepTrans(app, g, g, g2, v, n, m, RemoveServer(n, id));
  }

  lemma NodeStepKeeps(app: App, g: Ghost, g2: Ghost, v: NodeId, n: Node, n2: Node)
    requires NodeStep(app, g, g2, v, n, n2)
    ensures HistOk(g2) && NodeOk(app, g2, v, n2)
  {
  }

  lemma NewLearnersStep(app: App, g: Ghost, v: NodeId, n: Node, learners: map<NodeId, Member>)
    requires HistOk(g) && NodeOk(app, g, v, n) && n.st.log != []
    ensures NodeStep(app, g, g, v, n, Reconcile(n.(learners := learners)))
  {
    hide HistOk, NodeOk;
    LearnersStep(app, g, v, n, learners);
    var g2 := ThenReconcile(app, g, g, v, n, n.(learners := learners));
  }

  lemma AddBegun(app: App, g: Ghost, v: NodeId, n: Node, m: Member)
    requires HistOk(g) && NodeOk(app, g, v, n) && CommitInLog(n)
    ensures NodeStep(app, g, g, v, n, BeginAdd(n, m)) && BeginAdd(n, m).st == n.st && CommitInLog(BeginAdd(n, m))
    ensures MayChangeConfig(n) ==> MayChangeConfig(BeginAdd(n, m))
  {
    NewLearnersStep(app, g, v, n, n.learners[m.id := m]);
    hide HistOk, NodeOk, NodeStep;
  }

  /** add_server when the learner need not be waited for. */
  lemma AddAtOnce(app: App, g: Ghost, v: NodeId, n: Node, m: Member) returns (g2: Ghost)
    requires HistOk(g) && NodeOk(app, g, v, n) && CommitInLog(n) && MayChangeConfig(n)
    ensures CommitInLog(BeginAdd(n, m)) && NodeStep(app, g, g2, v, n, FinishAdd(BeginAdd(n, m), m))
  {
    assert n.st.log != [];
    hide HistOk, NodeOk, NodeStep, BeginAdd, FinishAdd, MayChangeConfig, CommitInLog;
    AddBegun(app, g, v, n, m);
    NodeStepKeeps(app, g, g, v, n, BeginAdd(n, m));
    g2 := AddFinishStep(app, g, v, BeginAdd(n, m), m);
    NodeStepTrans(app, g, g, g2, v, n, BeginAdd(n, m), FinishAdd(BeginAdd(n, m), m));
  }

  // ---------- applying ----------

  /** A step of the acting server that may also touch its state machine and reads. */
  ghost predicate ServerGood(app: App, g: Ghost, g2: Ghost, v: NodeId, sv2: Server) {
    HistOk(g2) && Extends(g, g2, v) && ServerOk(app, g2, v, sv2)
  }

  lemma SameGhost(app: App, g: Ghost, v: NodeId, sv2: Server)
    requires HistOk(g) && ServerOk(app, g, v, sv2)
    ensures ServerGood(app, g, g, v, sv2)
  {
    HistByRefl(g.h, v);
  }

  /** The application's state is a prefix of the node's committed log. */
  lemma AppliedPrefix(app: App, g: Ghost, v: NodeId, sv: Server)
    requires HistOk(g) && ServerOk(app, g, v, sv)
    ensures v in g.h.log && sv.n.lastApplied == |sv.sm| <= sv.n.commitIndex <= |g.h.log[v]|
    ensures sv.sm == g.h.log[v][..|sv.sm|]
    ensures Committed(g.h, g.h.log[v][..sv.n.commitIndex], sv.n.currentTerm) && LogRep(app, g.h, sv.n, g.h.log[v])
  {
    var n, full := sv.n, g.h.log[v];
    CommittedComparable(g.h, sv.sm, n.currentTerm, full[..n.commitIndex], n.currentTerm);
    assert full[..n.commitIndex][..|sv.sm|] == full[..|sv.sm|];
  }

  lemma WithWork(app: App, g: Ghost, v: NodeId, sv: Server, work: Work)
    requires HistOk(g) && ServerOk(app, g, v, sv) && WorkOk(app, g.h, sv.(work := work))
    ensures ServerGood(app, g, g, v, sv.(work := work))
  {
    var sv2 := sv.(work := work);
    forall id | id in sv2.pending ensures ReadOk(g, v, sv2.n, id, sv2.pending[id]) {
      assert ReadOk(g, v, sv.n, id, sv.pending[id]);
    }
    hide HistOk, NodeOk, WorkOk;
    SameGhost(app, g, v, sv2);
  }

  lemma ApplyBeginStep(app: App, g: Ghost, v: NodeId, sv: Server)
    requires HistOk(g) && ServerOk(app, g, v, sv)
    requires Valid(sv.n) && sv.n.lastApplied < sv.n.commitIndex
    requires sv.n.lastApplied < sv.n.st.snapIndex ==> sv.n.st.snapData.Some?
    ensures ServerGood(app, g, g, v, sv.(work := BeginWork(sv.n)))
  {
    AppliedPrefix(app, g, v, sv);
    BegunWork(app, g.h, sv, g.h.log[v]);
    WithWork(app, g, v, sv, BeginWork(sv.n));
  }

  lemma BegunWork(app: App, h: Hist, sv: Server, full: Log)
    requires LogRep(app, h, sv.n, full) && WorkOk(app, h, sv) && sv.n.lastApplied < sv.n.commitIndex
    requires sv.n.lastApplied < sv.n.st.snapIndex ==> sv.n.st.snapData.Some?
    requires |sv.sm| <= |full| && sv.sm == full[..|sv.sm|]
    ensures WorkOk(app, h, sv.(work := BeginWork(sv.n)))
  {
    var n, k := sv.n, |sv.sm|;
    RepFacts(n.st, full);
    if n.lastApplied < n.st.snapIndex {
      CommittedPrefix(h, full[..n.commitIndex], n.currentTerm, n.st.snapIndex);
      assert full[..n.commitIndex][..n.st.snapIndex] == full[..n.st.snapIndex];
    } else {
      CommittedPrefix(h, full[..n.commitIndex], n.currentTerm, k + 1);
      assert full[..n.commitIndex][..k + 1] == sv.sm + [full[k]];
      assert n.st.log[k + 1 - n.st.snapIndex] == full[k];
    }
  }

  lemma ApplyEndStep(app: App, g: Ghost, v: NodeId, sv: Server)
    requires HistOk(g) && ServerOk(app, g, v, sv) && (sv.work.Applying? || sv.work.Restoring?)
    ensures ServerGood(app, g, g, v, EndWork(app, sv))
  {
    var sv2 := EndWork(app, sv);
    assert sv2.n == sv.n.(lastApplied := sv2.n.lastApplied);
    forall id | id in sv2.pending ensures ReadOk(g, v, sv2.n, id, sv2.pending[id]) {
      assert ReadOk(g, v, sv.n, id, sv.pending[id]);
    }
    AppliedNode(app, g, v, sv.n, sv2.n.lastApplied);
    HistByRefl(g.h, v);
  }

  lemma AppliedNode(app: App, g: Ghost, v: NodeId, n: Node, k: nat)
    requires NodeOk(app, g, v, n) && k <= n.commitIndex
    ensures NodeOk(app, g, v, n.(lastApplied := k))
  {
  }

  // ---------- compacting ----------

  lemma SnapBeginStep(app: App, g: Ghost, v: NodeId, sv: Server, data: Bytes)
    requires HistOk(g) && ServerOk(app, g, v, sv) && Valid(sv.n)
    requires sv.n.lastApplied > sv.n.st.snapIndex && app(data) == sv.sm
    ensures ServerGood(app, g, g, v, sv.(work := Snapping(sv.n.lastApplied, TermAt(sv.n.st, sv.n.lastApplied), data)))
  {
    AppliedPrefix(app, g, v, sv);
    RepFacts(sv.n.st, g.h.log[v]);
    assert TermAt(sv.n.st, sv.n.lastApplied) == TermOf(g.h.log[v], sv.n.lastApplied);
    WithWork(app, g, v, sv, Snapping(sv.n.lastApplied, TermAt(sv.n.st, sv.n.lastApplied), data));
  }

  lemma PieceIndices(s: Store, i: nat, j: nat)
    requires LogShape(s) && i <= j <= |s.log|
    ensures forall k :: 0 <= k < j - i ==> s.log[i..j][k].index == s.snapIndex + i + k
  {
  }

  /** The configuration recorded with a snapshot is the one in force at its index. */
  lemma ConfigAtIndex(h: Hist, s: Store, full: Log, idx: nat)
    requires StoreOk(s) && Rep(s, full) && ConfRep(h, s.snapConfig, full[..s.snapIndex])
    requires s.snapIndex < idx <= |full|
    ensures ConfRep(h, ConfigAt(s.snapConfig, s.logConfigs, idx), full[..idx])
  {
    hide Configs, ConfRep, ConfigAt;
    RepFacts(s, full);
    var prefix, suffix := s.log[1..idx - s.snapIndex + 1], Above(s, idx);
    assert s.log[1..] == prefix + suffix;
    PieceIndices(s, 1, idx - s.snapIndex + 1);
    PieceIndices(s, idx - s.snapIndex + 1, |s.log|);
    ConfigsConcat(prefix, suffix);
    ConfigsInRange(prefix, s.snapIndex + 1, idx);
    ConfigsInRange(suffix, idx + 1, LastIndex(s));
    ConfigAtSplit(s.snapConfig, Configs(prefix), Configs(suffix), idx);
    PrefixConfig(h, s, full, idx, prefix);
  }

  lemma PrefixConfig(h: Hist, s: Store, full: Log, idx: nat, prefix: seq<Entry>)
    requires LogShape(s) && Rep(s, full) && ConfRep(h, s.snapConfig, full[..s.snapIndex])
    requires s.snapIndex < idx <= |full| && |s.log| == |full| - s.snapIndex + 1
    requires prefix == s.log[1..idx - s.snapIndex + 1]
    ensures var c := Configs(prefix); ConfRep(h, if c == [] then s.snapConfig else c[|c| - 1].1, full[..idx])
  {
    var cut := s.(log := s.log[..idx - s.snapIndex + 1], logConfigs := Configs(prefix));
    assert cut.log[1..] == prefix == s.log[1..][..idx - s.snapIndex];
    assert full[..idx][s.snapIndex..] == full[s.snapIndex..][..idx - s.snapIndex];
    assert full[..idx][..s.snapIndex] == full[..s.snapIndex];
    RecomputeOk(cut);
    ConfigInForce(h, RecomputeStore(cut), full[..idx]);
  }

  lemma CompactRep(app: App, h: Hist, n: Node, full: Log, idx: nat, term: nat, data: Bytes)
    requires LogRep(app, h, n, full) && n.st.snapIndex < idx <= n.commitIndex
    requires term == TermOf(full, idx) && app(data) == full[..idx]
    ensures idx <= LastIndex(n.st) && LogRep(app, h, Compact(n, idx, term, data), full)
  {
    var s := n.st;
    RepFacts(s, full);
    CompactStoreOk(s, idx, term, data);
    CompactValid(n, idx, term, data);
    ConfigAtIndex(h, s, full, idx);
    assert Above(s, idx) == s.log[1..][idx - s.snapIndex..] == full[idx..];
  }

  lemma CompactLead(g: Ghost, v: NodeId, n: Node, idx: nat, term: nat, data: Bytes)
    requires LeadOk(g, v, n) && StoreOk(n.st) && n.st.snapIndex < idx <= LastIndex(n.st)
    ensures LeadOk(g, v, Compact(n, idx, term, data))
  {
    CompactStoreOk(n.st, idx, term, data);
  }

  lemma CompactNode(app: App, g: Ghost, v: NodeId, n: Node, idx: nat, term: nat, data: Bytes)
    requires NodeOk(app, g, v, n) && n.st.snapIndex < idx <= LastIndex(n.st)
    requires LogRep(app, g.h, Compact(n, idx, term, data), g.h.log[v])
    ensures NodeOk(app, g, v, Compact(n, idx, term, data)) && Moves(n, Compact(n, idx, term, data))
  {
    CompactLead(g, v, n, idx, term, data);
  }

  lemma SnapEndStep(app: App, g: Ghost, v: NodeId, sv: Server, io: bool)
    requires HistOk(g) && ServerOk(app, g, v, sv) && sv.work.Snapping?
    ensures ServerGood(app, g, g, v, EndSnap(sv, io))
  {
    var idx, term, data := sv.work.idx, sv.work.term, sv.work.data;
    WithWork(app, g, v, sv, Idle);
    if io && sv.n.st.snapIndex < idx <= LastIndex(sv.n.st) {
      AppliedPrefix(app, g, v, sv);
      CompactRep(app, g.h, sv.n, g.h.log[v], idx, term, data);
      CompactNode(app, g, v, sv.n, idx, term, data);
      hide HistOk, NodeOk, WorkOk, ReadsOk, Moves, LogRep;
      var n2 := Compact(sv.n, idx, term, data);
      ServerFromNode(app, g, g, v, sv.(work := Idle), n2);
    }
  }

  // ---------- restarting ----------

  lemma RestartLog(app: App, h: Hist, n: Node, full: Log, initialApplied: nat)
    requires LogRep(app, h, n, full) && initialApplied <= n.lastApplied
    ensures LogRep(app, h, Restart(n, initialApplied), full)
    ensures Restart(n, initialApplied).lastApplied == initialApplied
  {
    RestartValid(n, initialApplied);
    var n2 := Restart(n, initialApplied);
    RepFacts(n.st, full);
    assert n2.st.log == n.st.log;
    CommittedPrefix(h, full[..n.commitIndex], n.currentTerm, n2.commitIndex);
    assert full[..n.commitIndex][..n2.commitIndex] == full[..n2.commitIndex];
  }

  lemma RestartNode(app: App, g: Ghost, v: NodeId, n: Node, initialApplied: nat)
    requires NodeOk(app, g, v, n) && n.st.log != []
    requires LogRep(app, g.h, Restart(n, initialApplied), g.h.log[v])
    ensures NodeOk(app, g, v, Restart(n, initialApplied))
  {
  }

  lemma CrashStep(app: App, g: Ghost, v: NodeId, sv: Server, initialApplied: nat)
    requires HistOk(g) && ServerOk(app, g, v, sv) && sv.n.st.log != [] && initialApplied <= |sv.sm|
    ensures ServerGood(app, g, g, v, Reboot(sv, initialApplied))
  {
    AppliedPrefix(app, g, v, sv);
    RestartLog(app, g.h, sv.n, g.h.log[v], initialApplied);
    RestartNode(app, g, v, sv.n, initialApplied);
    CommittedPrefix(g.h, sv.sm, sv.n.currentTerm, initialApplied);
    hide NodeOk, HistOk, LogRep;
    SameGhost(app, g, v, Reboot(sv, initialApplied));
  }
}
