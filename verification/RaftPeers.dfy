/** Every node tracks all the other members of its configuration, in every run. */
module RaftPeers {
  import opened RaftTypes
  import opened RaftState
  import opened RaftNodeInvariant
  import opened RaftCluster

  predicate TracksAll(n: Node) {
    Ids(n.st.config) - {n.id} <= n.peers.Keys
  }

  predicate AllTrack(s: Cluster) {
    forall v :: v in s.servers ==> TracksAll(s.servers[v].n)
  }

  // ---------- nodes ----------

  lemma ReconcileCovers(n: Node)
    requires n.st.log != []
    ensures TracksAll(Reconcile(n))
  {
  }

  lemma SameCovers(n: Node, n2: Node)
    requires TracksAll(n) && n2.id == n.id && n2.st.config == n.st.config && n.peers.Keys <= n2.peers.Keys
    ensures TracksAll(n2)
  {
  }

  lemma AppendLocalCovers(n: Node, cmd: Command)
    requires TracksAll(n) && n.st.log != []
    ensures TracksAll(AppendLocal(n, cmd))
  {
    var m := n.(st := AppendStore(n.st, Entry(n.currentTerm, LastIndex(n.st) + 1, cmd)));
    ReconcileCovers(m);
    if !cmd.Config? { SameCovers(n, m); }
    hide Reconcile, TracksAll;
  }

  lemma AdvanceCommitCovers(n: Node)
    requires TracksAll(n) && CommitInLog(n)
    ensures TracksAll(AdvanceCommit(n))
  {
    hide NewCommit;
  }

  lemma BecomeLeaderCovers(n: Node, io: bool)
    requires TracksAll(n) && Valid(n)
    ensures TracksAll(BecomeLeader(n, io))
  {
    var m := n.(role := Leader, ballot := n.ballot.(prevoting := false), peers := ResetPeers(n));
    SameCovers(n, m);
    AppendLocalValid(m, Noop);
    AppendLocalCovers(m, Noop);
    AdvanceCommitCovers(AppendLocal(m, Noop));
    SameCovers(m, m.(role := Follower));
    hide AdvanceCommit, AppendLocal, TracksAll, ResetPeers;
  }

  lemma StartElectionCovers(n: Node, ioMeta: bool, ioNoop: bool)
    requires TracksAll(n) && Valid(n)
    ensures TracksAll(StartElection(n, ioMeta, ioNoop))
  {
    SameCovers(n, Stand(n));
    BecomeLeaderCovers(Stand(n), ioNoop);
    hide BecomeLeader, TracksAll, Quorum;
  }

  lemma TimeoutCovers(n: Node, preVote: bool, ioMeta: bool, ioNoop: bool)
    requires TracksAll(n) && Valid(n)
    ensures TracksAll(OnTimeout(n, preVote, ioMeta, ioNoop))
  {
    StartElectionCovers(n, ioMeta, ioNoop);
    SameCovers(n, StartPreVote(n));
    hide StartElection, TracksAll;
  }

  lemma VoteReplyCovers(n: Node, p: NodeId, a: VoteArgs, r: VoteReply, io: bool)
    requires TracksAll(n) && Valid(n)
    ensures TracksAll(OnVoteReply(n, p, a, r, io))
  {
    SameCovers(n, StepDown(n, r.term));
    SameCovers(n, CountVote(n, p));
    BecomeLeaderCovers(CountVote(n, p), io);
    hide BecomeLeader, TracksAll, Quorum, StepDown;
  }

  lemma PreVoteReplyCovers(n: Node, p: NodeId, round: nat, r: VoteReply, ioMeta: bool, ioNoop: bool)
    requires TracksAll(n) && Valid(n)
    ensures TracksAll(OnPreVoteReply(n, p, round, r, ioMeta, ioNoop))
  {
    SameCovers(n, StepDown(n, r.term));
    var m := n.(ballot := n.ballot.(prevotes := n.ballot.prevotes + {p}));
    var m2 := m.(ballot := m.ballot.(prevoting := false));
    SameCovers(n, m);
    SameCovers(n, m2);
    StartElectionCovers(m2, ioMeta, ioNoop);
    hide StartElection, TracksAll, Quorum, StepDown;
  }

  lemma RequestVoteCovers(n: Node, a: VoteArgs, checkQuorum: bool, recent: bool, io: bool)
    requires TracksAll(n) && n.st.log != []
    ensures TracksAll(OnRequestVote(n, a, checkQuorum, recent, io).0)
  {
    hide Grants, CandidateUpToDate;
    SameCovers(n, OnRequestVote(n, a, checkQuorum, recent, io).0);
  }

  lemma SpliceCovers(n: Node, at: nat, tail: seq<Entry>)
    requires LogShape(n.st) && n.st.snapIndex < at <= LastIndex(n.st) + 1
    ensures SpliceStore(n.st, at, tail).log != [] && TracksAll(Splice(n, at, tail))
  {
    ReconcileCovers(n.(st := SpliceStore(n.st, at, tail)));
  }

  lemma AppendFromCovers(n: Node, a: AppendArgs, prev: nat, prevTerm: nat, skip: nat, io: bool)
    requires TracksAll(n) && Valid(n) && WellFormed(a) && prev == a.prevLogIndex + skip && skip <= |a.entries| && n.st.snapIndex <= prev
    ensures TracksAll(AppendFrom(n, a, prev, prevTerm, skip, io).0)
  {
    var out := AppendFrom(n, a, prev, prevTerm, skip, io);
    if prev <= LastIndex(n.st) {
      FirstNewAt(n.st, a, skip);
      var i := FirstNew(n.st, a.entries, skip);
      if i < |a.entries| { SpliceCovers(n, a.entries[i].index, a.entries[i..]); }
    }
    hide Splice, RunStart, CommitTo, FirstNew, ConfigsAgree;
  }

  lemma AppendCovers(n: Node, a: AppendArgs, io: bool)
    requires TracksAll(n) && Valid(n) && WellFormed(a)
    ensures TracksAll(OnAppendEntries(n, a, io).0)
  {
    var f := Follow(n, a.term);
    SameCovers(n, f);
    FollowValid(n, a.term);
    if a.prevLogIndex >= f.st.snapIndex {
      AppendFromCovers(f, a, a.prevLogIndex, a.prevLogTerm, 0, io);
    } else if f.st.snapIndex < a.prevLogIndex + |a.entries| {
      AppendFromCovers(f, a, f.st.snapIndex, f.st.snapTerm, f.st.snapIndex - a.prevLogIndex, io);
    }
    hide AppendFrom, Follow, Valid, TracksAll;
  }

  lemma InstallCovers(n: Node, a: SnapshotArgs, data: Bytes)
    requires a.lastIncludedIndex > n.st.snapIndex
    ensures TracksAll(Install(n, a, data))
  {
    ReconcileCovers(n.(st := InstallStore(n.st, a, data)));
  }

  lemma SnapshotCovers(n: Node, a: SnapshotArgs, io: bool)
    requires TracksAll(n)
    ensures TracksAll(OnInstallSnapshot(n, a, io).0)
  {
    var f := Follow(n, a.term);
    SameCovers(n, f);
    if a.lastIncludedIndex > f.st.snapIndex {
      InstallCovers(f.(recv := Recv([], 0, 0)), a, Received(f.recv, a).buf);
    }
    hide Install, Follow;
  }

  lemma AppendReplyCovers(n: Node, p: NodeId, round: nat, a: AppendArgs, r: AppendReply)
    requires TracksAll(n) && CommitInLog(n)
    ensures TracksAll(OnAppendReply(n, p, round, a, r))
  {
    if n.role == Leader && p in n.peers {
      AdvanceCommitCovers(n.(peers := n.peers[p := Matched(AckedPeer(n.peers[p], round), a.prevLogIndex + |a.entries|)]));
    }
    hide AdvanceCommit, BackedUp, Transient, Matched, AckedPeer, CommitInLog;
  }

  lemma SnapshotReplyCovers(n: Node, p: NodeId, round: nat, a: SnapshotArgs, r: SnapshotReply)
    requires TracksAll(n) && CommitInLog(n)
    ensures TracksAll(OnSnapshotReply(n, p, round, a, r))
  {
    if n.role == Leader && p in n.peers {
      var q := AckedPeer(n.peers[p], round).(snapOffset := r.nextOffset);
      AdvanceCommitCovers(n.(peers := n.peers[p := Matched(q, a.lastIncludedIndex).(snapSending := 0)]));
    }
    hide AdvanceCommit, Matched, AckedPeer, CommitInLog;
  }

  lemma ChangeCovers(n: Node, nc: Membership)
    requires TracksAll(n) && Valid(n)
    ensures TracksAll(ChangeConfig(n, nc))
  {
    AppendLocalValid(n, Config(nc));
    AppendLocalCovers(n, Config(nc));
    AdvanceCommitCovers(AppendLocal(n, Config(nc)));
    hide AdvanceCommit, AppendLocal, TracksAll;
  }

  lemma SubmitCovers(n: Node, name: string, payload: Bytes)
    requires TracksAll(n) && Valid(n)
    ensures TracksAll(Submit(n, name, payload))
  {
    AppendLocalValid(n, Op(name, payload));
    AppendLocalCovers(n, Op(name, payload));
    AdvanceCommitCovers(AppendLocal(n, Op(name, payload)));
    hide AdvanceCommit, AppendLocal, TracksAll;
  }

  lemma AddCovers(n: Node, m: Member)
    requires TracksAll(n) && Valid(n)
    ensures TracksAll(FinishAdd(n, m)) && TracksAll(BeginAdd(n, m)) && TracksAll(AbandonLearner(n, m.id))
    ensures TracksAll(RemoveServer(n, m.id))
  {
    ReconcileCovers(n.(learners := n.learners[m.id := m]));
    ReconcileCovers(n.(learners := n.learners - {m.id}));
    var c := ChangeConfig(n, n.st.config + [m]);
    ChangeCovers(n, n.st.config + [m]);
    SameCovers(c, FinishAdd(n, m));
    SameCovers(n, n.(learners := n.learners - {m.id}));
    ChangeCovers(n.(learners := n.learners - {m.id}), Without(n.st.config, m.id));
    hide ChangeConfig, Reconcile, Without, TracksAll;
  }

  lemma ValidFacts(n: Node)
    requires Valid(n)
    ensures CommitInLog(n) && n.st.log != []
  {
  }

  lemma StartAddCovers(sv: Server, id: nat, member: Member, margin: nat)
    requires TracksAll(sv.n) && Valid(sv.n)
    ensures TracksAll(StartAdd(sv, id, member, margin).n)
  {
    hide TracksAll, Valid, FinishAdd, CaughtUp, CommitInLog;
    ValidFacts(sv.n);
    AddCovers(sv.n, member);
    var n := BeginAdd(sv.n, member);
    MembershipOpsValid(sv.n, member);
    ValidFacts(n);
    AddCovers(n, member);
  }

  lemma RestCovers(n: Node, idx: nat, term: nat, data: Bytes, initialApplied: nat)
    requires TracksAll(n) && n.st.log != []
    ensures n.st.snapIndex < idx <= LastIndex(n.st) ==> TracksAll(Compact(n, idx, term, data))
    ensures TracksAll(Restart(n, initialApplied))
  {
    hide ConfigAt, Configs, Tracked;
  }

  // ---------- servers ----------

  lemma ServerCovers(app: App, s: Cluster, l: Label)
    requires Enabled(app, s, l) && TracksAll(s.servers[l.v].n) && (l.ApplyEnd? || l.SnapEnd? || l.Crash? || l.ReadRound? || l.AddBegin?)
    ensures TracksAll(Outcome(app, s, l).0.n)
  {
    hide TracksAll, EndWork, StartAdd, Compact, Restart, EndSnap, Reboot, BeginRound;
    var sv := s.servers[l.v];
    match l
    case ApplyEnd(_) => EndWorkCovers(app, sv);
    case SnapEnd(_, io) => EndSnapCovers(sv, io);
    case Crash(_, initialApplied) => RebootCovers(sv, initialApplied);
    case ReadRound(_, id) => RoundCovers(sv, id);
    case AddBegin(_, id, member, margin) => StartAddCovers(sv, id, member, margin);
  }

  lemma EndWorkCovers(app: App, sv: Server)
    requires TracksAll(sv.n) && (sv.work.Applying? || sv.work.Restoring?)
    ensures TracksAll(EndWork(app, sv).n)
  {
    SameCovers(sv.n, EndWork(app, sv).n);
  }

  lemma EndSnapCovers(sv: Server, io: bool)
    requires TracksAll(sv.n) && sv.work.Snapping? && sv.n.st.log != []
    ensures TracksAll(EndSnap(sv, io).n)
  {
    RestCovers(sv.n, sv.work.idx, sv.work.term, sv.work.data, 0);
    hide Compact, Restart;
  }

  lemma RebootCovers(sv: Server, initialApplied: nat)
    requires TracksAll(sv.n) && sv.n.st.log != [] && initialApplied <= |sv.sm|
    ensures TracksAll(Reboot(sv, initialApplied).n)
  {
    RestCovers(sv.n, 0, 0, [], initialApplied);
    hide Compact, Restart;
  }

  lemma RoundCovers(sv: Server, id: nat)
    requires TracksAll(sv.n) && id in sv.pending && sv.pending[id].Waiting?
    ensures TracksAll(BeginRound(sv, id).n)
  {
    hide Quorum;
    SameCovers(sv.n, BeginRound(sv, id).n);
  }

  lemma HandlerCovers(app: App, s: Cluster, l: Label)
    requires Enabled(app, s, l) && TracksAll(s.servers[l.v].n)
    requires l.HandleVote? || l.HandleAppend? || l.HandleSnapshot? || l.VoteBack? || l.AppendBack? || l.SnapshotBack?
    ensures TracksAll(Outcome(app, s, l).0.n)
  {
    var n := s.servers[l.v].n;
    assert CommitInLog(n) && n.st.log != [];
    hide TracksAll, OnRequestVote, OnAppendEntries, OnInstallSnapshot, OnVoteReply, OnPreVoteReply, OnAppendReply, OnSnapshotReply,
      Valid, WellFormed, CommitInLog;
    match l
    case HandleVote(_, m, checkQuorum, recent, io) => RequestVoteCovers(n, m.vote, checkQuorum, recent, io);
    case HandleAppend(_, m, io) => AppendCovers(n, m.app, io);
    case HandleSnapshot(_, m, io) => SnapshotCovers(n, m.snap, io);
    case VoteBack(_, m, ioMeta, ioNoop) =>
      PreVoteReplyCovers(n, m.src, m.round, m.voteReply, ioMeta, ioNoop);
      VoteReplyCovers(n, m.src, m.vote, m.voteReply, ioNoop);
    case AppendBack(_, m) => AppendReplyCovers(n, m.src, m.round, m.app, m.appReply);
    case SnapshotBack(_, m) => SnapshotReplyCovers(n, m.src, m.round, m.snap, m.snapReply);
  }

  lemma LocalCovers(app: App, s: Cluster, l: Label)
    requires Enabled(app, s, l) && TracksAll(s.servers[l.v].n)
    requires l.Timeout? || l.LoseQuorum? || l.SendSnapshot? || l.ClientSubmit? || l.AddFinish? || l.AddAbandon? || l.Remove?
    ensures TracksAll(Outcome(app, s, l).0.n)
  {
    var sv := s.servers[l.v];
    var n := sv.n;
    assert CommitInLog(n) && n.st.log != [];
    hide OnTimeout, Submit, FinishAdd, AbandonLearner, RemoveServer, Valid, CommitInLog, MayChangeConfig;
    match l
    case Timeout(_, preVote, ioMeta, ioNoop) => TimeoutCovers(n, preVote, ioMeta, ioNoop);
    case LoseQuorum(_) => SameCovers(n, n.(role := Follower));
    case SendSnapshot(_, p, size) => SameCovers(n, MakeSnapshot(n, p, size).0);
    case ClientSubmit(_, name, payload) => SubmitCovers(n, name, payload);
    case AddFinish(_, id, _) => AddCovers(n, sv.adding[id].member);
    case AddAbandon(_, id) => AddCovers(n, sv.adding[id].member);
    case Remove(_, id) => AddCovers(n, Member(id, ""));
  }

  /** Every step keeps it. */
  lemma StepCovers(app: App, s: Cluster, l: Label)
    requires Enabled(app, s, l) && AllTrack(s)
    ensures AllTrack(Do(app, s, l))
  {
    hide TracksAll, Valid;
    if l.ApplyEnd? || l.SnapEnd? || l.Crash? || l.ReadRound? || l.AddBegin? {
      ServerCovers(app, s, l);
    } else if l.HandleVote? || l.HandleAppend? || l.HandleSnapshot? || l.VoteBack? || l.AppendBack? || l.SnapshotBack? {
      HandlerCovers(app, s, l);
    } else if l.Timeout? || l.LoseQuorum? || l.SendSnapshot? || l.ClientSubmit? || l.AddFinish? || l.AddAbandon? || l.Remove? {
      LocalCovers(app, s, l);
    }
  }

  lemma InitCovers(s: Cluster, base: Membership)
    requires Init(s, base)
    ensures AllTrack(s)
  {
    forall v | v in s.servers ensures TracksAll(s.servers[v].n) {
      NewNodeCovers(v, if v in Ids(base) then base else []);
    }
  }

  lemma NewNodeCovers(v: NodeId, config: Membership)
    ensures TracksAll(NewNode(v, config))
  {
    hide Tracked;
  }

  /** In every run every node tracks the other members of its configuration. */
  lemma {:induction false} AlwaysCovered(app: App, base: Membership, r: Run, i: nat)
    requires IsRun(app, base, r) && i < |r.states|
    ensures AllTrack(r.states[i])
    decreases i
  {
    hide AllTrack, Enabled, Do, Init;
    if i == 0 {
      InitCovers(r.states[0], base);
    } else {
      AlwaysCovered(app, base, r, i - 1);
      var j := i - 1;
      assert Enabled(app, r.states[j], r.labels[j]) && r.states[j + 1] == Do(app, r.states[j], r.labels[j]);
      StepCovers(app, r.states[j], r.labels[j]);
    }
  }
}
