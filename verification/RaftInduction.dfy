/** Every step of a clean run keeps the relation between the cluster and its
    history, so every reachable cluster has one. */
module RaftInduction {
  import opened RaftTypes
  import opened RaftState
  import opened RaftNodeInvariant
  import opened RaftCluster
  import opened RaftHistory
  import S = RaftSteps
  import opened RaftGhost
  import opened RaftRefineBase
  import opened RaftRefineLeader
  import opened RaftRefineVotes
  import opened RaftRefineAppend
  import opened RaftRefineSnapshot
  import opened RaftRefineLocal
  import opened RaftRefineRead

  /** What a step records about reads and about snapshots sent. */
  ghost predicate Tracks(s: Cluster, l: Label, g: Ghost, g2: Ghost) {
    && g2.begun == (if l.ReadBegin? then g.begun[(l.v, l.id) := g.h.commits] else g.begun)
    && (g2.sn == g.sn || SendsSnapshot(s, l, g, g2))
  }

  ghost predicate SendsSnapshot(s: Cluster, l: Label, g: Ghost, g2: Ghost) {
    && l.v in s.servers
    && var n := s.servers[l.v].n;
    && n.role == Leader && n.st.snapData.Some?
    && g2.sn == g.sn[(n.currentTerm, n.st.snapIndex) := n.st.snapData.value]
  }

  ghost predicate Reaches(app: App, s: Cluster, l: Label, g: Ghost, g2: Ghost, sv2: Server, sent: set<Msg>) {
    ServerGood(app, g, g2, l.v, sv2) && NetOk(app, g2, sent) && Tracks(s, l, g, g2)
  }

  ghost predicate StepOk(app: App, s: Cluster, l: Label, g: Ghost, g2: Ghost) {
    Enabled(app, s, l) && Reaches(app, s, l, g, g2, Outcome(app, s, l).0, Outcome(app, s, l).1)
  }

  lemma ByNodeStep(app: App, s: Cluster, l: Label, g: Ghost, g2: Ghost, sv: Server, n2: Node, sent: set<Msg>)
    requires ServerOk(app, g, l.v, sv) && NodeStep(app, g, g2, l.v, sv.n, n2) && NetOk(app, g2, sent) && !l.ReadBegin?
    ensures Reaches(app, s, l, g, g2, sv.(n := n2), sent)
  {
    hide ServerOk, NodeOk, HistOk;
    ServerStep(app, g, g2, l.v, sv, n2);
  }

  lemma ByNodeMove(app: App, s: Cluster, l: Label, g: Ghost, g2: Ghost, sv: Server, n2: Node, sent: set<Msg>)
    requires ServerOk(app, g, l.v, sv) && NodeMove(app, g, g2, l.v, sv.n, n2) && NetOk(app, g2, sent) && !l.ReadBegin?
    requires g2.sn == g.sn || SendsSnapshot(s, l, g, g2)
    ensures Reaches(app, s, l, g, g2, sv.(n := n2), sent)
  {
    hide ServerOk, NodeOk, HistOk, SendsSnapshot;
    ServerMove(app, g, g2, l.v, sv, n2);
  }

  lemma OneMsg(app: App, g: Ghost, m: Msg)
    requires MsgOk(app, g, m)
    ensures NetOk(app, g, {m})
  {
  }

  lemma Acting(app: App, s: Cluster, g: Ghost, l: Label)
    requires CInv(app, s, g) && Enabled(app, s, l)
    ensures l.v in s.servers && HistOk(g) && MarksKnown(g) && Valid(s.servers[l.v].n)
    ensures ServerOk(app, g, l.v, s.servers[l.v]) && NodeOk(app, g, l.v, s.servers[l.v].n)
  {
    assert ServerOk(app, g, l.v, s.servers[l.v]);
  }

  lemma Delivered(app: App, s: Cluster, g: Ghost, v: NodeId, m: Msg)
    requires CInv(app, s, g) && Addressed(s, v, m)
    ensures MsgOk(app, g, m)
  {
  }

  // ---------- elections ----------

  lemma TimeoutOk(app: App, s: Cluster, g: Ghost, l: Label) returns (g2: Ghost)
    requires CInv(app, s, g) && Enabled(app, s, l) && l.Timeout?
    ensures StepOk(app, s, l, g, g2)
  {
    Acting(app, s, g, l);
    var sv := s.servers[l.v];
    hide CInv, HistOk, ServerOk, NodeOk, NodeStep, NetOk, Reaches;
    g2 := OnTimeoutStep(app, g, l.v, sv.n, l.preVote, l.ioMeta, l.ioNoop);
    NothingSent(app, g2);
    ByNodeStep(app, s, l, g, g2, sv, OnTimeout(sv.n, l.preVote, l.ioMeta, l.ioNoop), {});
  }

  lemma NothingSent(app: App, g: Ghost)
    ensures NetOk(app, g, {})
  {
  }

  lemma LoseQuorumOk(app: App, s: Cluster, g: Ghost, l: Label)
    requires CInv(app, s, g) && Enabled(app, s, l) && l.LoseQuorum?
    ensures StepOk(app, s, l, g, g)
  {
    Acting(app, s, g, l);
    var sv := s.servers[l.v];
    hide CInv, HistOk, ServerOk, NodeOk, NodeStep, NetOk, Reaches;
    LoseQuorumStep(app, g, l.v, sv.n);
    NothingSent(app, g);
    ByNodeStep(app, s, l, g, g, sv, sv.n.(role := Follower), {});
  }

  lemma SendVoteStepOk(app: App, s: Cluster, g: Ghost, l: Label)
    requires CInv(app, s, g) && Enabled(app, s, l) && l.SendVote?
    ensures StepOk(app, s, l, g, g)
  {
    Acting(app, s, g, l);
    var sv := s.servers[l.v];
    SendVoteOk(app, g, l.v, sv.n, l.p, l.preVote);
    hide CInv, HistOk, ServerOk, NodeOk, NetOk, MsgOk, Reaches;
    var m := VoteReq(l.v, l.p, sv.n.ballot.prevoteRound, if l.preVote then MakePreVote(sv.n) else MakeVote(sv.n));
    OneMsg(app, g, m);
    NoChange(app, s, l, g, sv, {m});
  }

  lemma NoChange(app: App, s: Cluster, l: Label, g: Ghost, sv: Server, sent: set<Msg>)
    requires HistOk(g) && ServerOk(app, g, l.v, sv) && NetOk(app, g, sent) && !l.ReadBegin?
    ensures Reaches(app, s, l, g, g, sv, sent)
  {
    hide HistOk, ServerOk, Extends;
    SameGhost(app, g, l.v, sv);
  }

  lemma HandleVoteOk(app: App, s: Cluster, g: Ghost, l: Label) returns (g2: Ghost)
    requires CInv(app, s, g) && Enabled(app, s, l) && l.HandleVote?
    ensures StepOk(app, s, l, g, g2)
  {
    Acting(app, s, g, l);
    var sv, m := s.servers[l.v], l.m;
    Delivered(app, s, g, l.v, m);
    hide CInv, HistOk, ServerOk, NodeOk, NodeStep, NetOk, MsgOk, Reaches;
    g2 := HandleVoteStep(app, g, l.v, sv.n, m, l.checkQuorum, l.recent, l.io);
    var out := OnRequestVote(sv.n, m.vote, l.checkQuorum, l.recent, l.io);
    OneMsg(app, g2, VoteRep(l.v, m.src, m.round, m.vote, out.1));
    ByNodeStep(app, s, l, g, g2, sv, out.0, {VoteRep(l.v, m.src, m.round, m.vote, out.1)});
  }

  lemma VoteBackOk(app: App, s: Cluster, g: Ghost, l: Label) returns (g2: Ghost)
    requires CInv(app, s, g) && Enabled(app, s, l) && l.VoteBack?
    ensures StepOk(app, s, l, g, g2)
  {
    Acting(app, s, g, l);
    var sv, m := s.servers[l.v], l.m;
    Delivered(app, s, g, l.v, m);
    hide CInv, HistOk, ServerOk, NodeOk, NodeStep, NetOk, MsgOk, Reaches;
    if m.vote.preVote {
      g2 := PreVoteReplyStep(app, g, l.v, sv.n, m.src, m.round, m.voteReply, l.ioMeta, l.ioNoop);
    } else {
      g2 := VoteReplyStep(app, g, l.v, sv.n, m, l.ioNoop);
    }
    NothingSent(app, g2);
    ByNodeStep(app, s, l, g, g2, sv, VoteBackNode(sv.n, m, l.ioMeta, l.ioNoop), {});
  }

  // ---------- replication ----------

  lemma SendAppendOk(app: App, s: Cluster, g: Ghost, l: Label) returns (g2: Ghost)
    requires CInv(app, s, g) && Enabled(app, s, l) && l.SendAppend?
    ensures StepOk(app, s, l, g, g2)
  {
    Acting(app, s, g, l);
    var sv := s.servers[l.v];
    var n := sv.n;
    g2 := RoundGhost(g, n.currentTerm, n.hbRound);
    var m := AppReq(l.v, l.p, n.hbRound, MakeAppend(n, l.p, l.maxEntries));
    MakeAppendOk(app, g, l.v, n, l.p, l.maxEntries);
    AppReqOk(app, g, l.v, n, m);
    hide CInv, HistOk, ServerOk, NodeOk, NodeMove, NetOk, MsgOk, Reaches, AppendArgsOk;
    OneMsg(app, g2, m);
    ByNodeMove(app, s, l, g, g2, sv, n, {m});
  }

  lemma AppReqOk(app: App, g: Ghost, v: NodeId, n: Node, m: Msg)
    requires HistOk(g) && NodeOk(app, g, v, n) && n.role == Leader && m.AppReq?
    requires m.src == v && m.round == n.hbRound && m.app.term == n.currentTerm && AppendArgsOk(g.h, v, m.app)
    ensures var g2 := RoundGhost(g, n.currentTerm, n.hbRound);
      NodeMove(app, g, g2, v, n, n) && MsgOk(app, g2, m)
  {
    hide HistOk, NodeOk, Extends, AppendArgsOk;
    RoundGhostOk(app, g, v, n);
  }

  lemma HandleAppendOk(app: App, s: Cluster, g: Ghost, l: Label) returns (g2: Ghost)
    requires CInv(app, s, g) && Enabled(app, s, l) && l.HandleAppend?
    ensures StepOk(app, s, l, g, g2)
  {
    Acting(app, s, g, l);
    var sv, m := s.servers[l.v], l.m;
    Delivered(app, s, g, l.v, m);
    hide CInv, HistOk, MarksKnown, ServerOk, NodeOk, NodeStep, NetOk, MsgOk, Reaches;
    g2 := HandleAppendStep(app, g, l.v, sv.n, m, l.io);
    var out := OnAppendEntries(sv.n, m.app, l.io);
    OneMsg(app, g2, AppRep(l.v, m.src, m.round, m.app, out.1));
    ByNodeStep(app, s, l, g, g2, sv, out.0, {AppRep(l.v, m.src, m.round, m.app, out.1)});
  }

  lemma AppendBackOk(app: App, s: Cluster, g: Ghost, l: Label) returns (g2: Ghost)
    requires CInv(app, s, g) && Enabled(app, s, l) && l.AppendBack?
    ensures StepOk(app, s, l, g, g2)
  {
    hide CInv, HistOk, ServerOk, NodeOk, NetOk, MsgOk, Extends, MarksKnown;
    Acting(app, s, g, l);
    Delivered(app, s, g, l.v, l.m);
    g2 := AppendBackStep(app, g, l.v, s.servers[l.v], l.m);
    NothingSent(app, g2);
  }

  // ---------- snapshots ----------

  lemma SendSnapshotOk(app: App, s: Cluster, g: Ghost, l: Label) returns (g2: Ghost)
    requires CInv(app, s, g) && Enabled(app, s, l) && l.SendSnapshot?
    ensures StepOk(app, s, l, g, g2)
  {
    Acting(app, s, g, l);
    var sv := s.servers[l.v];
    hide CInv, HistOk, ServerOk, NodeOk, NodeMove, NetOk, MsgOk, Reaches;
    g2 := SendSnapshotStep(app, g, l.v, sv.n, l.p, l.size);
    var out := MakeSnapshot(sv.n, l.p, l.size);
    OneMsg(app, g2, SnapReq(l.v, l.p, sv.n.hbRound, out.1));
    ByNodeMove(app, s, l, g, g2, sv, out.0, {SnapReq(l.v, l.p, sv.n.hbRound, out.1)});
  }

  lemma HandleSnapshotOk(app: App, s: Cluster, g: Ghost, l: Label) returns (g2: Ghost)
    requires CInv(app, s, g) && Enabled(app, s, l) && l.HandleSnapshot?
    ensures StepOk(app, s, l, g, g2)
  {
    Acting(app, s, g, l);
    var sv, m := s.servers[l.v], l.m;
    Delivered(app, s, g, l.v, m);
    hide CInv, HistOk, MarksKnown, ServerOk, NodeOk, NodeMove, NetOk, MsgOk, Reaches;
    g2 := HandleSnapshotStep(app, g, l.v, sv.n, m, l.io);
    var out := OnInstallSnapshot(sv.n, m.snap, l.io);
    OneMsg(app, g2, SnapRep(l.v, m.src, m.round, m.snap, out.1));
    ByNodeMove(app, s, l, g, g2, sv, out.0, {SnapRep(l.v, m.src, m.round, m.snap, out.1)});
  }

  lemma SnapshotBackOk(app: App, s: Cluster, g: Ghost, l: Label) returns (g2: Ghost)
    requires CInv(app, s, g) && Enabled(app, s, l) && l.SnapshotBack?
    ensures StepOk(app, s, l, g, g2)
  {
    hide CInv, HistOk, ServerOk, NodeOk, NetOk, MsgOk, Extends, MarksKnown;
    Acting(app, s, g, l);
    Delivered(app, s, g, l.v, l.m);
    g2 := SnapshotBackStep(app, g, l.v, s.servers[l.v], l.m);
    NothingSent(app, g2);
  }

  // ---------- clients and membership ----------

  lemma SubmitOk(app: App, s: Cluster, g: Ghost, l: Label) returns (g2: Ghost)
    requires CInv(app, s, g) && Enabled(app, s, l) && l.ClientSubmit?
    ensures StepOk(app, s, l, g, g2)
  {
    Acting(app, s, g, l);
    var sv := s.servers[l.v];
    hide CInv, HistOk, ServerOk, NodeOk, NodeStep, NetOk, Reaches;
    g2 := SubmitStep(app, g, l.v, sv.n, l.name, l.payload);
    NothingSent(app, g2);
    ByNodeStep(app, s, l, g, g2, sv, Submit(sv.n, l.name, l.payload), {});
  }

  /** The invariant does not look at waiting add_server calls. */
  lemma WhileAdding(app: App, s: Cluster, l: Label, g: Ghost, g2: Ghost, sv: Server, sent: set<Msg>, adding: map<nat, Adding>)
    requires Reaches(app, s, l, g, g2, sv, sent)
    ensures Reaches(app, s, l, g, g2, sv.(adding := adding), sent)
  {
    hide HistOk, NodeOk, Extends, NetOk, Tracks;
    assert WorkOk(app, g2.h, sv.(adding := adding)) && ReadsOk(g2, l.v, sv.(adding := adding));
  }

  lemma AddBeginOk(app: App, s: Cluster, g: Ghost, l: Label) returns (g2: Ghost)
    requires CInv(app, s, g) && Enabled(app, s, l) && l.AddBegin?
    ensures StepOk(app, s, l, g, g2)
  {
    hide CInv, HistOk, ServerOk, NodeOk, NodeStep, NetOk, Reaches, MarksKnown, FinishAdd, BeginAdd;
    Acting(app, s, g, l);
    var sv := s.servers[l.v];
    var n := BeginAdd(sv.n, l.member);
    AddBegun(app, g, l.v, sv.n, l.member);
    NothingSent(app, g);
    if CaughtUp(n, l.member.id, l.margin) {
      g2 := AddAtOnce(app, g, l.v, sv.n, l.member);
      NothingSent(app, g2);
      ByNodeStep(app, s, l, g, g2, sv, FinishAdd(n, l.member), {});
    } else {
      g2 := g;
      ByNodeStep(app, s, l, g, g, sv, n, {});
      WhileAdding(app, s, l, g, g, sv.(n := n), {}, sv.adding[l.id := Adding(l.member, n.currentTerm)]);
    }
  }

  lemma AddFinishOk(app: App, s: Cluster, g: Ghost, l: Label) returns (g2: Ghost)
    requires CInv(app, s, g) && Enabled(app, s, l) && l.AddFinish?
    ensures StepOk(app, s, l, g, g2)
  {
    hide CInv, HistOk, ServerOk, NodeOk, NodeStep, NetOk, Reaches, MarksKnown, FinishAdd;
    Acting(app, s, g, l);
    var sv := s.servers[l.v];
    var m := sv.adding[l.id].member;
    g2 := AddFinishStep(app, g, l.v, sv.n, m);
    NothingSent(app, g2);
    ByNodeStep(app, s, l, g, g2, sv, FinishAdd(sv.n, m), {});
    WhileAdding(app, s, l, g, g2, sv.(n := FinishAdd(sv.n, m)), {}, sv.adding - {l.id});
  }

  lemma AddAbandonOk(app: App, s: Cluster, g: Ghost, l: Label)
    requires CInv(app, s, g) && Enabled(app, s, l) && l.AddAbandon?
    ensures StepOk(app, s, l, g, g)
  {
    hide CInv, HistOk, ServerOk, NodeOk, NodeStep, NetOk, Reaches, MarksKnown, Reconcile;
    Acting(app, s, g, l);
    var sv := s.servers[l.v];
    var n := AbandonLearner(sv.n, sv.adding[l.id].member.id);
    NewLearnersStep(app, g, l.v, sv.n, sv.n.learners - {sv.adding[l.id].member.id});
    NothingSent(app, g);
    ByNodeStep(app, s, l, g, g, sv, n, {});
    WhileAdding(app, s, l, g, g, sv.(n := n), {}, sv.adding - {l.id});
  }

  lemma RemoveOk(app: App, s: Cluster, g: Ghost, l: Label) returns (g2: Ghost)
    requires CInv(app, s, g) && Enabled(app, s, l) && l.Remove? && SafeStep(s, l)
    ensures StepOk(app, s, l, g, g2)
  {
    Acting(app, s, g, l);
    var sv := s.servers[l.v];
    hide CInv, HistOk, ServerOk, NodeOk, NodeStep, NetOk, Reaches;
    g2 := RemoveStep(app, g, l.v, sv.n, l.id);
    NothingSent(app, g2);
    ByNodeStep(app, s, l, g, g2, sv, RemoveServer(sv.n, l.id), {});
  }

  // ---------- applying, compacting, restarting, reading ----------

  lemma ByServer(app: App, s: Cluster, l: Label, g: Ghost, sv2: Server)
    requires ServerGood(app, g, g, l.v, sv2) && !l.ReadBegin?
    ensures Reaches(app, s, l, g, g, sv2, {})
  {
    hide ServerGood;
    NothingSent(app, g);
  }

  lemma ApplyOk(app: App, s: Cluster, g: Ghost, l: Label)
    requires CInv(app, s, g) && Enabled(app, s, l) && (l.ApplyBegin? || l.ApplyEnd?)
    ensures StepOk(app, s, l, g, g)
  {
    hide CInv, HistOk, ServerOk, NodeOk, ServerGood, Reaches, Valid, EndWork, BeginWork, MarksKnown;
    Acting(app, s, g, l);
    var sv := s.servers[l.v];
    if l.ApplyBegin? {
      ApplyBeginStep(app, g, l.v, sv);
      ByServer(app, s, l, g, sv.(work := BeginWork(sv.n)));
    } else {
      ApplyEndStep(app, g, l.v, sv);
      ByServer(app, s, l, g, EndWork(app, sv));
    }
  }

  lemma CompactionOk(app: App, s: Cluster, g: Ghost, l: Label)
    requires CInv(app, s, g) && Enabled(app, s, l) && (l.SnapBegin? || l.SnapEnd?)
    ensures StepOk(app, s, l, g, g)
  {
    hide CInv, HistOk, ServerOk, NodeOk, ServerGood, Reaches, EndSnap, MarksKnown;
    Acting(app, s, g, l);
    var sv := s.servers[l.v];
    if l.SnapBegin? {
      SnapBeginStep(app, g, l.v, sv, l.data);
      ByServer(app, s, l, g, sv.(work := Snapping(sv.n.lastApplied, TermAt(sv.n.st, sv.n.lastApplied), l.data)));
    } else {
      SnapEndStep(app, g, l.v, sv, l.io);
      ByServer(app, s, l, g, EndSnap(sv, l.io));
    }
  }

  lemma CrashOk(app: App, s: Cluster, g: Ghost, l: Label)
    requires CInv(app, s, g) && Enabled(app, s, l) && l.Crash?
    ensures StepOk(app, s, l, g, g)
  {
    hide CInv, HistOk, ServerOk, NodeOk, ServerGood, Reaches, Reboot, MarksKnown;
    Acting(app, s, g, l);
    var sv := s.servers[l.v];
    CrashStep(app, g, l.v, sv, l.initialApplied);
    ByServer(app, s, l, g, Reboot(sv, l.initialApplied));
  }

  lemma ReadStartOk(app: App, s: Cluster, g: Ghost, l: Label) returns (g2: Ghost)
    requires CInv(app, s, g) && Enabled(app, s, l) && (l.ReadBegin? || l.ReadRound?)
    ensures StepOk(app, s, l, g, g2)
  {
    hide CInv, HistOk, ServerOk, NodeOk, NetOk, ServerGood;
    Acting(app, s, g, l);
    var sv := s.servers[l.v];
    if l.ReadBegin? {
      g2 := ReadBeginStep(app, g, l.v, sv, l.id);
    } else {
      g2 := ReadRoundStep(app, g, l.v, sv, l.id);
    }
    NothingSent(app, g2);
  }

  lemma ReadEndOk(app: App, s: Cluster, g: Ghost, l: Label)
    requires CInv(app, s, g) && Enabled(app, s, l) && (l.ReadConfirm? || l.ReadReturn?)
    ensures StepOk(app, s, l, g, g)
  {
    hide CInv, HistOk, ServerOk, NodeOk, NetOk, ServerGood;
    Acting(app, s, g, l);
    var sv := s.servers[l.v];
    if l.ReadConfirm? {
      ReadConfirmStep(app, g, l.v, sv, l.id);
    } else {
      ReadReturnStep(app, g, l.v, sv, l.id);
    }
    NothingSent(app, g);
  }

  // ---------- any step ----------

  lemma EveryStepOk(app: App, s: Cluster, g: Ghost, l: Label) returns (g2: Ghost)
    requires CInv(app, s, g) && Enabled(app, s, l) && SafeStep(s, l)
    ensures StepOk(app, s, l, g, g2)
  {
    hide CInv, Enabled, StepOk, SafeStep;
    g2 := g;
    match l {
      case Timeout(_, _, _, _) => g2 := TimeoutOk(app, s, g, l);
      case LoseQuorum(_) => LoseQuorumOk(app, s, g, l);
      case SendVote(_, _, _) => SendVoteStepOk(app, s, g, l);
      case SendAppend(_, _, _) => g2 := SendAppendOk(app, s, g, l);
      case SendSnapshot(_, _, _) => g2 := SendSnapshotOk(app, s, g, l);
      case HandleVote(_, _, _, _, _) => g2 := HandleVoteOk(app, s, g, l);
      case HandleAppend(_, _, _) => g2 := HandleAppendOk(app, s, g, l);
      case HandleSnapshot(_, _, _) => g2 := HandleSnapshotOk(app, s, g, l);
      case VoteBack(_, _, _, _) => g2 := VoteBackOk(app, s, g, l);
      case AppendBack(_, _) => g2 := AppendBackOk(app, s, g, l);
      case SnapshotBack(_, _) => g2 := SnapshotBackOk(app, s, g, l);
      case ClientSubmit(_, _, _) => g2 := SubmitOk(app, s, g, l);
      case AddBegin(_, _, _, _) => g2 := AddBeginOk(app, s, g, l);
      case AddFinish(_, _, _) => g2 := AddFinishOk(app, s, g, l);
      case AddAbandon(_, _) => AddAbandonOk(app, s, g, l);
      case Remove(_, _) => g2 := RemoveOk(app, s, g, l);
      case ApplyBegin(_) => ApplyOk(app, s, g, l);
      case ApplyEnd(_) => ApplyOk(app, s, g, l);
      case SnapBegin(_, _) => CompactionOk(app, s, g, l);
      case SnapEnd(_, _) => CompactionOk(app, s, g, l);
      case Crash(_, _) => CrashOk(app, s, g, l);
      case ReadBegin(_, _) => g2 := ReadStartOk(app, s, g, l);
      case ReadRound(_, _) => g2 := ReadStartOk(app, s, g, l);
      case ReadConfirm(_, _) => ReadEndOk(app, s, g, l);
      case ReadReturn(_, _) => ReadEndOk(app, s, g, l);
    }
  }

  ghost predicate Linked(s: Cluster, l: Label, g: Ghost, g2: Ghost) {
    Extends(g, g2, l.v) && Tracks(s, l, g, g2)
  }

  lemma StepKeepsInvariant(app: App, s: Cluster, g: Ghost, l: Label) returns (g2: Ghost)
    requires CInv(app, s, g) && Enabled(app, s, l) && SafeStep(s, l)
    ensures CInv(app, Do(app, s, l), g2) && Linked(s, l, g, g2)
  {
    Acting(app, s, g, l);
    g2 := EveryStepOk(app, s, g, l);
    hide CInv, Enabled, HistOk, ServerOk, NetOk, Extends, Outcome, Tracks;
    ClusterStep(app, s, g, g2, l.v, Outcome(app, s, l).0, Outcome(app, s, l).1);
  }

  // ---------- the beginning ----------

  ghost function Everywhere<T>(vs: set<NodeId>, x: T): (m: map<NodeId, T>)
    ensures m.Keys == vs && forall v :: v in vs ==> m[v] == x
    decreases |vs|
  {
    if vs == {} then map[] else var v :| v in vs; Everywhere(vs - {v}, x)[v := x]
  }

  ghost function FirstHist(s: Cluster, base: Membership): Hist {
    Hist(base, Everywhere(s.servers.Keys, 0), Everywhere(s.servers.Keys, []), map[], map[], map[], map[], map[], {})
  }

  ghost function FirstGhost(s: Cluster, base: Membership): Ghost {
    Ghost(FirstHist(s, base), map[], {}, map[], map[], map[], map[])
  }

  lemma NewNodeOk(app: App, s: Cluster, base: Membership, v: NodeId)
    requires v in s.servers
    ensures NodeOk(app, FirstGhost(s, base), v, NewNode(v, if v in Ids(base) then base else []))
  {
    var n := NewNode(v, if v in Ids(base) then base else []);
    assert n.st.log[1..] == [];
  }

  lemma InitOk(app: App, s: Cluster, base: Membership)
    requires Init(s, base)
    ensures CInv(app, s, FirstGhost(s, base))
  {
    hide HistOk, NodeOk, WorkOk;
    var g := FirstGhost(s, base);
    FirstHistOk(s, base);
    forall v | v in s.servers ensures ServerOk(app, g, v, s.servers[v]) {
      NewNodeOk(app, s, base, v);
      NewServerOk(app, g, v, s.servers[v]);
    }
  }

  lemma FirstHistOk(s: Cluster, base: Membership)
    ensures HistOk(FirstGhost(s, base))
  {
  }

  lemma NewServerOk(app: App, g: Ghost, v: NodeId, sv: Server)
    requires NodeOk(app, g, v, sv.n) && sv.sm == [] && sv.n.lastApplied == 0 && sv.work == Idle && sv.pending == map[]
    ensures ServerOk(app, g, v, sv)
  {
  }

  // ---------- runs ----------

  function Cut(r: Run): Run
    requires |r.states| == |r.labels| + 1 && r.labels != []
  {
    Run(r.states[..|r.labels|], r.labels[..|r.labels| - 1])
  }

  /** gs accompanies the run: one history per state, each extending the one before. */
  ghost predicate Witness(app: App, r: Run, gs: seq<Ghost>) {
    && |gs| == |r.states| == |r.labels| + 1 && gs[0].sn == map[]
    && (forall i {:trigger CInv(app, r.states[i], gs[i])} :: 0 <= i < |gs| ==> CInv(app, r.states[i], gs[i]))
    && (forall i {:trigger r.labels[i]} :: 0 <= i < |r.labels| ==> Linked(r.states[i], r.labels[i], gs[i], gs[i + 1]))
  }

  lemma {:induction false} EveryRunHasWitness(app: App, base: Membership, r: Run) returns (gs: seq<Ghost>)
    requires CleanRun(app, base, r)
    ensures Witness(app, r, gs)
    decreases |r.labels|
  {
    hide CInv, Enabled, Do, Init, SafeStep, Linked;
    RunShape(app, base, r);
    if r.labels == [] {
      InitOk(app, r.states[0], base);
      gs := [FirstGhost(r.states[0], base)];
    } else {
      var k := |r.labels| - 1;
      CutIsClean(app, base, r);
      hide CleanRun;
      var before := EveryRunHasWitness(app, base, Cut(r));
      LastCut(app, r, before);
      hide Witness;
      var g2 := StepKeepsInvariant(app, r.states[k], before[k], r.labels[k]);
      gs := before + [g2];
      Extended(app, r, before, g2);
    }
  }

  lemma RunShape(app: App, base: Membership, r: Run)
    requires CleanRun(app, base, r)
    ensures |r.states| == |r.labels| + 1 && Init(r.states[0], base)
  {
  }

  /** A run without its last step is a run, and the last step is one. */
  lemma CutIsClean(app: App, base: Membership, r: Run)
    requires CleanRun(app, base, r) && r.labels != []
    ensures |r.states| == |r.labels| + 1 && CleanRun(app, base, Cut(r))
    ensures var k := |r.labels| - 1;
      Enabled(app, r.states[k], r.labels[k]) && SafeStep(r.states[k], r.labels[k])
      && r.states[k + 1] == Do(app, r.states[k], r.labels[k])
  {
    hide Enabled, Do, Init, SafeStep;
    var c := Cut(r);
    assert c.states[0] == r.states[0];
    forall i | 0 <= i < |c.labels|
      ensures Enabled(app, c.states[i], c.labels[i]) && c.states[i + 1] == Do(app, c.states[i], c.labels[i])
        && SafeStep(c.states[i], c.labels[i])
    {
      assert SafeStep(r.states[i], r.labels[i]);
      assert c.states[i] == r.states[i] && c.labels[i] == r.labels[i] && c.states[i + 1] == r.states[i + 1];
    }
    assert SafeStep(r.states[|r.labels| - 1], r.labels[|r.labels| - 1]);
  }

  lemma LastCut(app: App, r: Run, before: seq<Ghost>)
    requires |r.states| == |r.labels| + 1 && r.labels != [] && Witness(app, Cut(r), before)
    ensures |before| == |r.labels| && CInv(app, r.states[|r.labels| - 1], before[|r.labels| - 1])
  {
    hide CInv;
    assert CInv(app, Cut(r).states[|r.labels| - 1], before[|r.labels| - 1]);
  }

  lemma Extended(app: App, r: Run, before: seq<Ghost>, g2: Ghost)
    requires |r.states| == |r.labels| + 1 && r.labels != [] && Witness(app, Cut(r), before)
    requires var k := |r.labels| - 1; CInv(app, r.states[k + 1], g2) && Linked(r.states[k], r.labels[k], before[k], g2)
    ensures Witness(app, r, before + [g2])
  {
    hide CInv, Linked;
    var gs, k, c := before + [g2], |r.labels| - 1, Cut(r);
    forall i | 0 <= i < |gs| ensures CInv(app, r.states[i], gs[i]) {
      if i <= k { assert CInv(app, c.states[i], before[i]); }
    }
    forall i | 0 <= i < |r.labels| ensures Linked(r.states[i], r.labels[i], gs[i], gs[i + 1]) {
      if i < k { assert Linked(c.states[i], c.labels[i], before[i], before[i + 1]); }
    }
  }
}
