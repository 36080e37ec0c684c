/** Refinement of InstallSnapshot: sending a chunk, handling it and the reply. */
module RaftRefineSnapshot {
  import opened RaftTypes
  import opened RaftState
  import opened RaftNodeInvariant
  import opened RaftCluster
  import opened RaftHistory
  import S = RaftSteps
  import opened RaftGhost
  import opened RaftRefineBase
  import opened RaftRefineLeader
  import opened RaftRefineVotes
  import opened RaftRefineAppend

  /** A node step that may also record transfers. */
  ghost predicate NodeMove(app: App, g: Ghost, g2: Ghost, v: NodeId, n: Node, n2: Node) {
    && HistOk(g2) && Extends(g, g2, v) && g2.begun == g.begun && g2.mid == g.mid
    && NodeOk(app, g2, v, n2) && Moves(n, n2)
  }

  lemma MoveFromStep(app: App, g: Ghost, g2: Ghost, v: NodeId, n: Node, n2: Node)
    requires NodeStep(app, g, g2, v, n, n2)
    ensures NodeMove(app, g, g2, v, n, n2)
  {
    hide HistOk, NodeOk, Moves;
    ExtendsByHist(g, g2.h, v);
  }

  lemma MakeMove(app: App, g: Ghost, g2: Ghost, v: NodeId, n: Node, n2: Node)
    requires HistOk(g2) && Extends(g, g2, v) && g2.begun == g.begun && g2.mid == g.mid
    requires NodeOk(app, g2, v, n2) && Moves(n, n2)
    ensures NodeMove(app, g, g2, v, n, n2)
  {
  }

  lemma ExtendsTrans(a: Ghost, b: Ghost, c: Ghost, v: NodeId)
    requires Extends(a, b, v) && Extends(b, c, v) && a.mid == b.mid == c.mid
    ensures Extends(a, c, v)
  {
    HistByTrans(a.h, b.h, c.h, v);
  }

  lemma MoveTrans(app: App, g: Ghost, g1: Ghost, g2: Ghost, v: NodeId, n: Node, m: Node, n2: Node)
    requires NodeMove(app, g, g1, v, n, m) && NodeMove(app, g1, g2, v, m, n2)
    ensures NodeMove(app, g, g2, v, n, n2)
  {
    hide HistOk, NodeOk, Moves, Extends;
    ExtendsTrans(g, g1, g2, v);
    MovesTrans(n, m, n2);
  }

  lemma ServerMove(app: App, g: Ghost, g2: Ghost, v: NodeId, sv: Server, n2: Node)
    requires ServerOk(app, g, v, sv) && NodeMove(app, g, g2, v, sv.n, n2)
    ensures HistOk(g2) && Extends(g, g2, v) && ServerOk(app, g2, v, sv.(n := n2))
  {
    ServerFromNode(app, g, g2, v, sv, n2);
  }

  // ---------- sending a chunk ----------

  function SendGhost(g: Ghost, n: Node): Ghost
    requires n.st.snapData.Some?
  {
    g.(sn := g.sn[(n.currentTerm, n.st.snapIndex) := n.st.snapData.value], hb := g.hb[n.currentTerm := n.hbRound])
  }

  lemma SendingLead(g: Ghost, v: NodeId, n: Node, p: NodeId)
    requires LeadOk(g, v, n) && CanSendSnapshot(n, p)
    ensures LeadOk(SendGhost(g, n), v, n.(peers := n.peers[p := Sending(n.peers[p], n.st.snapIndex)]))
  {
    var g2 := SendGhost(g, n);
    var n2 := n.(peers := n.peers[p := Sending(n.peers[p], n.st.snapIndex)]);
    forall w | w in n2.peers ensures PeerOk(g2, n.currentTerm, w, n2.peers[w]) {
      assert PeerOk(g, n.currentTerm, w, n.peers[w]);
    }
  }

  lemma SendingNode(app: App, g: Ghost, v: NodeId, n: Node, p: NodeId)
    requires NodeOk(app, g, v, n) && CanSendSnapshot(n, p)
    ensures forall size: nat :: var n2 := MakeSnapshot(n, p, size).0; NodeOk(app, SendGhost(g, n), v, n2) && Moves(n, n2)
  {
    SendingLead(g, v, n, p);
    SendingRecv(g, v, n);
  }

  lemma SendingRecv(g: Ghost, v: NodeId, n: Node)
    requires LeadOk(g, v, n) && n.role == Leader && n.st.snapData.Some? && RecvOk(g, v, n.currentTerm, n.recv)
    ensures RecvOk(SendGhost(g, n), v, n.currentTerm, n.recv)
  {
  }

  lemma SendExtends(g: Ghost, v: NodeId, n: Node)
    requires HistOk(g) && LeadOk(g, v, n) && n.role == Leader && n.st.snapData.Some?
    ensures HistOk(SendGhost(g, n)) && Extends(g, SendGhost(g, n), v)
  {
    HistByRefl(g.h, v);
  }

  lemma SendSnapshotStep(app: App, g: Ghost, v: NodeId, n: Node, p: NodeId, size: nat) returns (g2: Ghost)
    requires HistOk(g) && NodeOk(app, g, v, n) && CanSendSnapshot(n, p)
    ensures var out := MakeSnapshot(n, p, size);
      NodeMove(app, g, g2, v, n, out.0) && MsgOk(app, g2, SnapReq(v, p, n.hbRound, out.1)) && g2 == SendGhost(g, n)
  {
    g2 := SendGhost(g, n);
    SendExtends(g, v, n);
    SendingNode(app, g, v, n, p);
    ChunkOk(app, g, v, n, p, size);
    hide *;
    MakeMove(app, g, g2, v, n, MakeSnapshot(n, p, size).0);
  }

  lemma ChunkOk(app: App, g: Ghost, v: NodeId, n: Node, p: NodeId, size: nat)
    requires NodeOk(app, g, v, n) && CanSendSnapshot(n, p)
    ensures MsgOk(app, SendGhost(g, n), SnapReq(v, p, n.hbRound, MakeSnapshot(n, p, size).1))
  {
    var full := g.h.log[v];
    var idx := n.st.snapIndex;
    assert PeerOk(g, n.currentTerm, p, n.peers[p]);
    assert full[..idx] == full[..n.commitIndex][..idx];
    CommittedPrefix(g.h, full[..n.commitIndex], n.currentTerm, idx);
  }

  // ---------- receiving a chunk ----------

  /** The receiver has taken a's bytes: what it holds is a prefix of the snapshot a comes from. */
  function TakeGhost(g: Ghost, v: NodeId, a: SnapshotArgs): Ghost {
    if a.offset == 0 then g.(rt := g.rt[v := a.term], started := g.started + {(v, a.term)}) else g
  }

  lemma TakenIsPrefix(app: App, g: Ghost, v: NodeId, src: NodeId, a: SnapshotArgs, r: Recv)
    requires SnapArgsOk(app, g, src, v, a) && RecvOk(g, v, a.term, r) && !OutOfStep(r, a)
    ensures var d := g.sn[(a.term, a.lastIncludedIndex)];
      Received(r, a).buf <= d && (a.done ==> Received(r, a).buf == d)
    ensures RecvOk(TakeGhost(g, v, a), v, a.term, Received(r, a)) && (v, a.term) in TakeGhost(g, v, a).started
  {
    var d := g.sn[(a.term, a.lastIncludedIndex)];
    if a.offset > 0 {
      assert r.buf == d[..a.offset];
      assert r.buf + a.data == d[..a.offset + |a.data|];
    }
  }

  lemma TakeExtends(g: Ghost, v: NodeId, a: SnapshotArgs)
    requires HistOk(g)
    ensures var g2 := TakeGhost(g, v, a); HistOk(g2) && Extends(g, g2, v) && g2.h == g.h && g2.sn == g.sn
    ensures TakeGhost(g, v, a).begun == g.begun && TakeGhost(g, v, a).mid == g.mid
  {
    HistByRefl(g.h, v);
    hide Inv, HistBy;
  }

  lemma WithRecv(app: App, g: Ghost, g2: Ghost, v: NodeId, n: Node, r: Recv)
    requires NodeOk(app, g, v, n) && n.role == Follower && g2.h == g.h && RecvOk(g2, v, n.currentTerm, r)
    ensures NodeOk(app, g2, v, n.(recv := r)) && Moves(n, n.(recv := r))
  {
  }

  /** Having taken the chunk, v may store any receive buffer that fits. */
  lemma TakeStep(app: App, g: Ghost, v: NodeId, n: Node, src: NodeId, a: SnapshotArgs, r: Recv) returns (g2: Ghost)
    requires HistOk(g) && NodeOk(app, g, v, n) && n.role == Follower && n.currentTerm == a.term
    requires SnapArgsOk(app, g, src, v, a) && !OutOfStep(n.recv, a)
    requires r == Received(n.recv, a) || r.buf == []
    ensures NodeMove(app, g, g2, v, n, n.(recv := r)) && (v, a.term) in g2.started && SnapArgsOk(app, g2, src, v, a)
    ensures g2 == TakeGhost(g, v, a)
  {
    g2 := TakeGhost(g, v, a);
    TakenIsPrefix(app, g, v, src, a, n.recv);
    TakeExtends(g, v, a);
    WithRecv(app, g, g2, v, n, r);
    SnapArgsGrow(app, g, g2, v, src, v, a);
  }

  // ---------- installing ----------

  /** The full log after installing a. */
  function Installed(s: Store, full: Log, l: Log, a: SnapshotArgs): Log
    requires a.lastIncludedIndex <= |l|
  {
    if KeepsSuffix(s, a.lastIncludedIndex, a.lastIncludedTerm) then full else l[..a.lastIncludedIndex]
  }

  /** A kept suffix follows the snapshot in the leader's log's sense; a log
      that does not reach it agrees with the leader's no further than it. */
  lemma InstalledIsLeaders(h: Hist, s: Store, full: Log, l: Log, a: SnapshotArgs)
    requires InvLeaderLogs(h) && Pref(h, full) && Pref(h, l) && Rep(s, full)
    requires s.snapIndex < a.lastIncludedIndex <= |l| && a.lastIncludedTerm == TermOf(l, a.lastIncludedIndex)
    ensures var log, idx := Installed(s, full, l, a), a.lastIncludedIndex;
      && idx <= |log| && log[..idx] == l[..idx] && S.Preserves(full, l, log)
      && (log != full ==> |log| == idx)
  {
    var idx := a.lastIncludedIndex;
    RepFacts(s, full);
    if KeepsSuffix(s, idx, a.lastIncludedTerm) {
      assert TermAt(s, idx) == TermOf(full, idx);
      AgreeUpTo(h, full, l, idx);
    } else {
      forall j {:trigger full[..j]} | 0 <= j <= |full| && full[..j] <= l ensures full[..j] <= l[..idx] {
        NotKept(s, full, l, idx, j);
      }
    }
  }

  lemma NotKept(s: Store, full: Log, l: Log, idx: nat, j: nat)
    requires Rep(s, full) && s.snapIndex < idx <= |l| && j <= |full| && full[..j] <= l
    requires !KeepsSuffix(s, idx, TermOf(l, idx))
    ensures j <= idx && full[..j] <= l[..idx]
  {
    RepFacts(s, full);
    assert idx <= |full| ==> TermAt(s, idx) == TermOf(full, idx);
    forall i | 0 <= i < j ensures full[i] == l[i] {
      assert full[..j][i] == full[i];
    }
  }

  lemma InstallRep(s: Store, full: Log, l: Log, a: SnapshotArgs, data: Bytes)
    requires Rep(s, full) && StoreOk(s) && s.snapIndex < a.lastIncludedIndex <= |l|
    requires a.lastIncludedTerm == TermOf(l, a.lastIncludedIndex)
    requires var log := Installed(s, full, l, a);
      a.lastIncludedIndex <= |log| && log[..a.lastIncludedIndex] == l[..a.lastIncludedIndex]
    ensures StoreOk(InstallStore(s, a, data)) && Rep(InstallStore(s, a, data), Installed(s, full, l, a))
  {
    hide StoreOk, ConfigsAgree, TermAt;
    var idx, log := a.lastIncludedIndex, Installed(s, full, l, a);
    RepFacts(s, full);
    InstallStoreOk(s, a, data);
    var st := InstallStore(s, a, data);
    if KeepsSuffix(s, idx, a.lastIncludedTerm) {
      assert st.log[1..] == s.log[1..][idx - s.snapIndex..];
      assert full[s.snapIndex..][idx - s.snapIndex..] == full[idx..];
    } else {
      assert st.log[1..] == [] == log[idx..];
    }
    assert log[idx - 1] == log[..idx][idx - 1] == l[idx - 1];
  }

  function InstalledNode(n: Node, a: SnapshotArgs, data: Bytes): Node
    requires a.lastIncludedIndex > n.st.snapIndex
  {
    n.(st := InstallStore(n.st, a, data), commitIndex := Max(n.commitIndex, a.lastIncludedIndex))
  }

  lemma InstalledLog(app: App, h: Hist, n: Node, full: Log, l: Log, a: SnapshotArgs, data: Bytes)
    requires InvLeaderLogs(h) && Pref(h, full) && Pref(h, l) && LogRep(app, h, n, full)
    requires n.st.snapIndex < a.lastIncludedIndex <= |l| && a.lastIncludedTerm == TermOf(l, a.lastIncludedIndex)
    requires full[..n.commitIndex] <= l && n.currentTerm == a.term
    requires Committed(h, l[..a.lastIncludedIndex], a.term) && ConfRep(h, a.config, l[..a.lastIncludedIndex])
    requires app(data) == l[..a.lastIncludedIndex]
    ensures var n2 := InstalledNode(n, a, data);
      && LogRep(app, h, n2, Installed(n.st, full, l, a))
      && n2 == n.(st := n2.st, commitIndex := n2.commitIndex) && n.commitIndex <= n2.commitIndex
    ensures CoversCommitted(n, a)
  {
    var log, idx := Installed(n.st, full, l, a), a.lastIncludedIndex;
    InstalledIsLeaders(h, n.st, full, l, a);
    InstallRep(n.st, full, l, a, data);
    assert full[..n.commitIndex] <= log;
    RepFacts(InstallStore(n.st, a, data), log);
    RepFacts(n.st, full);
  }

  lemma InstalledAcceptable(g: Ghost, v: NodeId, n: Node, a: SnapshotArgs)
    requires HistOk(g) && v in g.h.term && v in g.h.log && g.h.term[v] == a.term && a.term in g.h.ll
    requires Rep(n.st, g.h.log[v]) && n.st.snapIndex < a.lastIncludedIndex <= |g.h.ll[a.term]|
    requires a.lastIncludedTerm == TermOf(g.h.ll[a.term], a.lastIncludedIndex)
    ensures S.Acceptable(g.h, v, Installed(n.st, g.h.log[v], g.h.ll[a.term], a), a.lastIncludedIndex)
  {
    var full, l := g.h.log[v], g.h.ll[a.term];
    assert LogOk(g.h, v);
    LeaderPref(g.h, a.term);
    InstalledIsLeaders(g.h, n.st, full, l, a);
    PrefOfPrefix(g.h, l, a.lastIncludedIndex);
    assert LeaderLogOk(g.h, a.term);
  }

  lemma InstallStep(app: App, g: Ghost, v: NodeId, n: Node, src: NodeId, a: SnapshotArgs, data: Bytes) returns (g2: Ghost)
    requires HistOk(g) && NodeOk(app, g, v, n) && n.role == Follower && n.currentTerm == a.term
    requires SnapArgsOk(app, g, src, v, a) && data == g.sn[(a.term, a.lastIncludedIndex)]
    requires n.st.snapIndex < a.lastIncludedIndex
    ensures NodeStep(app, g, g2, v, n, Install(n, a, data)) && AckAtLeast(g2.h, v, a.term, a.lastIncludedIndex)
    ensures CoversCommitted(n, a)
  {
    var full, l := g.h.log[v], g.h.ll[a.term];
    CommittedHere(app, g, v, n);
    InstalledLog(app, g.h, n, full, l, a, data);
    InstalledAcceptable(g, v, n, a);
    hide *;
    g2 := AcceptStep(app, g, v, n, Installed(n.st, full, l, a), a.lastIncludedIndex, InstalledNode(n, a, data));
    g2 := ThenReconcile(app, g, g2, v, n, InstalledNode(n, a, data));
    InstallIs(n, a, data);
  }

  lemma InstallIs(n: Node, a: SnapshotArgs, data: Bytes)
    requires a.lastIncludedIndex > n.st.snapIndex
    ensures InstalledNode(n, a, data).st.log != [] && Install(n, a, data) == Reconcile(InstalledNode(n, a, data))
  {
  }

  // ---------- handling ----------

  ghost predicate SnapOutcome(app: App, g: Ghost, g2: Ghost, v: NodeId, n: Node, a: SnapshotArgs, out: (Node, SnapshotReply)) {
    && NodeMove(app, g, g2, v, n, out.0) && out.0.currentTerm == a.term && out.1.term == a.term
    && (out.1.success && a.done ==> AckAtLeast(g2.h, v, a.term, a.lastIncludedIndex))
    && (out.1.nextOffset > 0 ==> (v, a.term) in g2.started) && g2.sn == g.sn
  }

  lemma FollowedSnapshot(app: App, g: Ghost, v: NodeId, n: Node, src: NodeId, a: SnapshotArgs, io: bool) returns (g2: Ghost)
    requires HistOk(g) && NodeOk(app, g, v, n) && n.role == Follower && n.currentTerm == a.term
    requires SnapArgsOk(app, g, src, v, a)
    ensures SnapOutcome(app, g, g2, v, n, a, SnapshotFollowing(n, a, io))
  {
    g2 := g;
    StartedByOffset(app, g, v, src, a);
    Stay(app, g, v, n);
    hide HistOk, NodeOk, SnapArgsOk, NodeMove;
    if !OutOfStep(n.recv, a) {
      if a.done {
        g2 := Completed(app, g, v, n, src, a, io);
      } else {
        g2 := TakeStep(app, g, v, n, src, a, Received(n.recv, a));
      }
    }
  }

  lemma Stay(app: App, g: Ghost, v: NodeId, n: Node)
    requires HistOk(g) && NodeOk(app, g, v, n)
    ensures NodeMove(app, g, g, v, n, n)
  {
    HistByRefl(g.h, v);
  }

  lemma StartedByOffset(app: App, g: Ghost, v: NodeId, src: NodeId, a: SnapshotArgs)
    requires SnapArgsOk(app, g, src, v, a)
    ensures a.offset != 0 ==> (v, a.term) in g.started
  {
  }

  /** The last chunk of a transfer. */
  lemma Completed(app: App, g: Ghost, v: NodeId, n: Node, src: NodeId, a: SnapshotArgs, io: bool) returns (g2: Ghost)
    requires HistOk(g) && NodeOk(app, g, v, n) && n.role == Follower && n.currentTerm == a.term
    requires SnapArgsOk(app, g, src, v, a) && !OutOfStep(n.recv, a) && a.done
    ensures SnapOutcome(app, g, g2, v, n, a, SnapshotFollowing(n, a, io))
  {
    hide HistOk, Received, OutOfStep, NodeMove;
    var covered := a.lastIncludedIndex <= n.st.snapIndex || a.lastIncludedIndex <= n.lastApplied;
    var m := n.(recv := if covered then Received(n.recv, a).(buf := []) else Recv([], 0, 0));
    g2 := TakeStep(app, g, v, n, src, a, m.recv);
    if covered {
      g2 := ThenCovered(app, g, g2, v, n, m, src, a);
    } else if io {
      ReassembledIs(app, g, v, n, src, a);
      g2 := ThenInstall(app, g, g2, v, n, m, src, a, Received(n.recv, a).buf);
    }
  }

  lemma ThenCovered(app: App, g: Ghost, g1: Ghost, v: NodeId, n: Node, m: Node, src: NodeId, a: SnapshotArgs)
    returns (g2: Ghost)
    requires NodeMove(app, g, g1, v, n, m) && m.role == Follower && m.currentTerm == a.term
    requires SnapArgsOk(app, g1, src, v, a) && (a.lastIncludedIndex <= m.st.snapIndex || a.lastIncludedIndex <= m.lastApplied)
    ensures NodeMove(app, g, g2, v, n, m) && AckAtLeast(g2.h, v, a.term, a.lastIncludedIndex)
    ensures g2.started == g1.started && g2.sn == g1.sn
  {
    hide HistOk, NodeOk, SnapArgsOk;
    g2 := CoveredSnapshot(app, g1, v, m, src, a);
    MoveTrans(app, g, g1, g2, v, n, m, m);
  }

  lemma ThenInstall(app: App, g: Ghost, g1: Ghost, v: NodeId, n: Node, m: Node, src: NodeId, a: SnapshotArgs, data: Bytes)
    returns (g2: Ghost)
    requires NodeMove(app, g, g1, v, n, m) && m.role == Follower && m.currentTerm == a.term
    requires SnapArgsOk(app, g1, src, v, a) && data == g1.sn[(a.term, a.lastIncludedIndex)]
    requires m.st.snapIndex < a.lastIncludedIndex
    ensures NodeMove(app, g, g2, v, n, Install(m, a, data)) && AckAtLeast(g2.h, v, a.term, a.lastIncludedIndex)
    ensures g2.started == g1.started && g2.sn == g1.sn && Install(m, a, data).currentTerm == a.term
  {
    hide HistOk, NodeOk, SnapArgsOk;
    g2 := InstallStep(app, g1, v, m, src, a, data);
    MoveFromStep(app, g1, g2, v, m, Install(m, a, data));
    MoveTrans(app, g, g1, g2, v, n, m, Install(m, a, data));
  }

  /** The bytes a follower installs are the snapshot its leader sends for that index. */
  lemma ReassembledIs(app: App, g: Ghost, v: NodeId, n: Node, src: NodeId, a: SnapshotArgs)
    requires NodeOk(app, g, v, n) && n.currentTerm == a.term
    requires SnapArgsOk(app, g, src, v, a) && !OutOfStep(n.recv, a) && a.done
    ensures Received(n.recv, a).buf == g.sn[(a.term, a.lastIncludedIndex)]
  {
    TakenIsPrefix(app, g, v, src, a, n.recv);
  }

  lemma CoveredSnapshot(app: App, g: Ghost, v: NodeId, n: Node, src: NodeId, a: SnapshotArgs) returns (g2: Ghost)
    requires HistOk(g) && NodeOk(app, g, v, n) && n.role == Follower && n.currentTerm == a.term
    requires SnapArgsOk(app, g, src, v, a) && (a.lastIncludedIndex <= n.st.snapIndex || a.lastIncludedIndex <= n.lastApplied)
    ensures NodeMove(app, g, g2, v, n, n) && AckAtLeast(g2.h, v, a.term, a.lastIncludedIndex) && g2.started == g.started && g2.sn == g.sn
  {
    CommittedHere(app, g, v, n);
    hide HistOk, NodeOk, LogRep, Rep, InvLeaderLogs, NodeMove;
    g2 := CoveredStep(app, g, v, n, a.lastIncludedIndex);
    MoveFromStep(app, g, g2, v, n, n);
  }

  lemma HandleSnapshotStep(app: App, g: Ghost, v: NodeId, n: Node, m: Msg, io: bool) returns (g2: Ghost)
    requires HistOk(g) && MarksKnown(g) && NodeOk(app, g, v, n) && m.SnapReq? && m.dst == v && MsgOk(app, g, m)
    ensures var out := OnInstallSnapshot(n, m.snap, io);
      NodeMove(app, g, g2, v, n, out.0) && MsgOk(app, g2, SnapRep(v, m.src, m.round, m.snap, out.1)) && g2.sn == g.sn
  {
    hide NodeOk;
    var a := m.snap;
    var out := OnInstallSnapshot(n, a, io);
    Stay(app, g, v, n);
    hide HistOk, NodeOk, SnapArgsOk, SnapshotFollowing, MarksKnown;
    if a.term < n.currentTerm {
      g2 := g;
    } else {
      var g1 := FollowStep(app, g, v, n, a.term);
      MoveFromStep(app, g, g1, v, n, Follow(n, a.term));
      SnapArgsGrow(app, g, g1, v, m.src, v, a);
      g2 := FollowedSnapshot(app, g1, v, Follow(n, a.term), m.src, a, io);
      MoveTrans(app, g, g1, g2, v, n, Follow(n, a.term), out.0);
    }
    SnapRepOk(app, g, g2, v, n, out.0, m, out.1);
  }

  lemma SnapRepOk(app: App, g: Ghost, g2: Ghost, v: NodeId, n: Node, n2: Node, m: Msg, r: SnapshotReply)
    requires NodeMove(app, g, g2, v, n, n2) && MarksKnown(g) && m.SnapReq? && m.dst == v && MsgOk(app, g, m)
    requires r.success && m.snap.done ==> AckAtLeast(g2.h, v, m.snap.term, m.snap.lastIncludedIndex)
    requires r.nextOffset > 0 ==> (v, m.snap.term) in g2.started
    requires r.term <= m.snap.term ==> n2.currentTerm == m.snap.term
    ensures MsgOk(app, g2, SnapRep(v, m.src, m.round, m.snap, r))
  {
    MarksKnownCarry(g, g2, v);
    SnapArgsGrow(app, g, g2, v, m.src, v, m.snap);
    if r.term <= m.snap.term { MarksOfReply(g2, v, m.src, m.snap.term, m.round); }
  }

  // ---------- the reply ----------

  /** The peer after a reply of the leader's own term. */
  function ChunkHeard(n: Node, p: NodeId, round: nat, a: SnapshotArgs, r: SnapshotReply): Peer
    requires p in n.peers
  {
    var acked := AckedPeer(n.peers[p], round);
    if Finished(acked, a, r) then Matched(acked.(snapOffset := r.nextOffset), a.lastIncludedIndex).(snapSending := 0)
    else if acked.snapSending == a.lastIncludedIndex then acked.(snapOffset := r.nextOffset) else acked
  }

  predicate Finished(acked: Peer, a: SnapshotArgs, r: SnapshotReply) {
    acked.snapSending == a.lastIncludedIndex && r.success && a.done
  }

  lemma ChunkHeardStep(app: App, g: Ghost, v: NodeId, sv: Server, m: Msg) returns (g2: Ghost)
    requires HistOk(g) && ServerOk(app, g, v, sv) && m.SnapRep? && m.dst == v && MsgOk(app, g, m) && CommitInLog(sv.n)
    requires m.snapReply.term <= sv.n.currentTerm && sv.n.role == Leader && sv.n.currentTerm == m.snap.term && m.src in sv.n.peers
    ensures HistOk(g2) && Extends(g, g2, v) && g2 == g.(h := g2.h)
    ensures var n1 := sv.n.(peers := sv.n.peers[m.src := ChunkHeard(sv.n, m.src, m.round, m.snap, m.snapReply)]);
      ServerOk(app, g2, v, sv.(n := if Finished(AckedPeer(sv.n.peers[m.src], m.round), m.snap, m.snapReply) then AdvanceCommit(n1) else n1))
  {
    var n, p := sv.n, m.src;
    LeaderPeer(app, g, v, sv, p);
    var q := ChunkHeard(n, p, m.round, m.snap, m.snapReply);
    hide HistOk, ServerOk, Extends, AdvanceCommit;
    PeerUpdated(app, g, v, sv, p, q, m.round, m.snapReply.term);
    NoStep(g, v);
    g2 := g;
    if Finished(AckedPeer(n.peers[p], m.round), m.snap, m.snapReply) {
      g2 := CommitServer(app, g, v, sv.(n := n.(peers := n.peers[p := q])));
    }
  }

  lemma SnapshotBackStep(app: App, g: Ghost, v: NodeId, sv: Server, m: Msg) returns (g2: Ghost)
    requires HistOk(g) && ServerOk(app, g, v, sv) && m.SnapRep? && m.dst == v && MsgOk(app, g, m) && CommitInLog(sv.n)
    ensures HistOk(g2) && Extends(g, g2, v)
    ensures ServerOk(app, g2, v, sv.(n := OnSnapshotReply(sv.n, m.src, m.round, m.snap, m.snapReply))) && g2 == g.(h := g2.h)
  {
    hide HistOk, ServerOk, Extends, MsgOk, AdvanceCommit, StepDown;
    NoStep(g, v);
    g2 := g;
    if m.snapReply.term > sv.n.currentTerm {
      g2 := OutdatedStep(app, g, v, sv, m.snapReply.term);
    } else if sv.n.role == Leader && sv.n.currentTerm == m.snap.term && m.src in sv.n.peers {
      g2 := ChunkHeardStep(app, g, v, sv, m);
    }
  }
}
