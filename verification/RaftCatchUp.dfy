/** A leader can bring any server that it tracks up to date, whatever that
    server holds: by probing, by sending its snapshot in chunks, and by sending
    the entries that follow. */
module RaftCatchUp {
  import opened Wrappers
  import opened RaftTypes
  import opened RaftState
  import opened RaftNodeInvariant
  import opened RaftCluster
  import opened RaftHistory
  import S = RaftSteps
  import opened RaftGhost
  import opened RaftRefineBase
  import A = RaftRefineAppend
  import R = RaftRollback
  import opened RaftProgress
  import opened RaftReach

  // ---------- what a follower answers ----------

  /** With its writes succeeding, a follower accepts unless the entry before the new ones differs. */
  ghost predicate Answer(f: Node, a: AppendArgs, r: AppendReply) {
    r.term == a.term && (r.success
      || (LogShape(f.st) && f.st.snapIndex <= a.prevLogIndex && !R.Accepts(f.st, a.prevLogIndex, a.prevLogTerm)
          && r == R.Conflict(f.st, a.term, a.prevLogIndex)))
  }

  lemma Monotone(h: Hist, log: Log)
    requires InvLeaderLogs(h) && Pref(h, log)
    ensures R.Monotone(log)
  {
    forall i, j | 0 <= i <= j < |log| ensures 0 < log[i].term <= log[j].term {
      PrefixOfLeader(h, log, i);
      LogTermsMonotone(h, log, i, j);
    }
  }

  lemma FollowingAnswers(app: App, g: Ghost, u: NodeId, f: Node, src: NodeId, a: AppendArgs)
    requires HistOk(g) && NodeOk(app, g, u, f) && f.currentTerm == a.term && AppendArgsOk(g.h, src, a) && Valid(f)
    requires u in g.h.log && R.Monotone(g.h.log[u])
    ensures WellFormed(a) && Answer(f, a, AppendFollowing(f, a, true).1)
  {
    hide HistOk, NodeOk, LogRep, InvLeaderLogs, Pref, Valid, AppendArgsOk, AppendFrom, R.Monotone, R.Conflict;
    A.SnapshotFacts(app, g, u, f, src, a);
    A.CommittedHere(app, g, u, f);
    if a.prevLogIndex < f.st.snapIndex {
      if f.st.snapIndex < a.prevLogIndex + |a.entries| {
        var skip := f.st.snapIndex - a.prevLogIndex;
        A.NothingToRefuse(app, g, u, f, src, a, skip);
        A.AppendFromIs(f, a, f.st.snapIndex, f.st.snapTerm, skip, true);
      }
    } else if R.Accepts(f.st, a.prevLogIndex, a.prevLogTerm) {
      A.NothingToRefuse(app, g, u, f, src, a, 0);
      A.AppendFromIs(f, a, a.prevLogIndex, a.prevLogTerm, 0, true);
    } else {
      A.AppendFromIs(f, a, a.prevLogIndex, a.prevLogTerm, 0, true);
      R.FailureIs(f, g.h.log[u], a, true);
    }
  }

  lemma FollowerAnswers(app: App, g: Ghost, u: NodeId, f: Node, src: NodeId, a: AppendArgs)
    requires HistOk(g) && NodeOk(app, g, u, f) && f.currentTerm <= a.term && AppendArgsOk(g.h, src, a) && Valid(f)
    ensures WellFormed(a) && Answer(f, a, OnAppendEntries(f, a, true).1)
  {
    var g1 := A.FollowStep(app, g, u, f, a.term);
    GrownBy(g.h, g1.h, u);
    AppendArgsGrow(g.h, g1.h, src, a);
    LogOf(app, g1, u, Follow(f, a.term));
    hide HistOk, NodeOk, HistBy, S.Grows, AppendArgsOk, Valid, AppendFollowing, R.Monotone, R.Accepts, R.Conflict;
    FollowingAnswers(app, g1, u, Follow(f, a.term), src, a);
    SameStore(f, a.term);
  }

  lemma GrownBy(h: Hist, h2: Hist, v: NodeId)
    requires HistBy(h, h2, v)
    ensures S.Grows(h, h2)
  {
  }

  lemma LogOf(app: App, g: Ghost, u: NodeId, f: Node)
    requires HistOk(g) && NodeOk(app, g, u, f)
    ensures u in g.h.log && R.Monotone(g.h.log[u]) && Valid(f)
  {
    assert LogOk(g.h, u);
    Monotone(g.h, g.h.log[u]);
  }

  lemma SameStore(f: Node, t: nat)
    ensures Follow(f, t).st == f.st && Follow(f, t).currentTerm == Max(f.currentTerm, t) && Follow(f, t).recv == f.recv
    ensures Follow(f, t).role == Follower
  {
  }

  /** A server still in the leader's term accepts right after what it has acknowledged. */
  lemma MatchedIsAccepted(app: App, g: Ghost, v: NodeId, n: Node, u: NodeId, f: Node, max: nat)
    requires HistOk(g) && NodeOk(app, g, v, n) && NodeOk(app, g, u, f) && Valid(n) && CanAppend(n, u)
    requires f.currentTerm == n.currentTerm && n.peers[u].nextIndex == n.peers[u].matchIndex + 1
    ensures var a := MakeAppend(n, u, max);
      f.st.snapIndex <= a.prevLogIndex ==> R.Accepts(f.st, a.prevLogIndex, a.prevLogTerm)
  {
    var a, t := MakeAppend(n, u, max), n.currentTerm;
    AckedPrefix(app, g, v, n, u, f);
    A.MakeAppendOk(app, g, v, n, u, max);
    var l, full := g.h.ll[t], g.h.log[u];
    RepFacts(f.st, full);
    RepFacts(n.st, g.h.log[v]);
    hide HistOk, NodeOk, MakeAppend;
    if f.st.snapIndex <= a.prevLogIndex {
      PrefixTerm(l, full, n.peers[u].matchIndex, a.prevLogIndex);
      assert TermAt(f.st, a.prevLogIndex) == TermOf(full, a.prevLogIndex);
    }
  }

  lemma PrefixTerm(l: Log, full: Log, k: nat, i: nat)
    requires i <= k <= |l| && k <= |full| && l[..k] == full[..k]
    ensures TermOf(l, i) == TermOf(full, i)
  {
    assert i > 0 ==> l[i - 1] == l[..k][i - 1] && full[i - 1] == full[..k][i - 1];
  }

  /** What a server still in the leader's term has acknowledged, it holds. */
  lemma AckedPrefix(app: App, g: Ghost, v: NodeId, n: Node, u: NodeId, f: Node)
    requires HistOk(g) && NodeOk(app, g, v, n) && NodeOk(app, g, u, f) && n.role == Leader && u in n.peers
    requires f.currentTerm == n.currentTerm
    ensures n.currentTerm in g.h.ll && v in g.h.log && u in g.h.log && g.h.ll[n.currentTerm] == g.h.log[v]
    ensures Rep(f.st, g.h.log[u]) && Rep(n.st, g.h.log[v])
    ensures var k := n.peers[u].matchIndex;
      k <= |g.h.log[v]| && k <= |g.h.log[u]| && g.h.log[v][..k] == g.h.log[u][..k]
  {
    assert PeerOk(g, n.currentTerm, u, n.peers[u]);
    assert CurrentOk(g.h, u);
    assert (u, n.currentTerm) in g.h.ack ==> AckOk(g.h, u, n.currentTerm);
    var k := n.peers[u].matchIndex;
    hide Inv, LogRep;
    if k > 0 {
      var m := g.h.ack[(u, n.currentTerm)];
      assert g.h.log[u][..m] == g.h.ll[n.currentTerm][..m];
      assert g.h.log[v][..k] == g.h.ll[n.currentTerm][..m][..k] == g.h.log[u][..m][..k];
    }
  }

  /** A rejection moves the probe back, and not before index 1. */
  lemma ConflictMovesBack(l: Store, f: Store, full: Log, a: AppendArgs, term: nat)
    requires Rep(f, full) && R.Monotone(full) && f.snapIndex <= a.prevLogIndex && (a.prevLogIndex == 0 ==> a.prevLogTerm == 0)
    requires !R.Accepts(f, a.prevLogIndex, a.prevLogTerm)
    ensures var r := R.Conflict(f, term, a.prevLogIndex);
      !Transient(a, r) && 1 <= BackedUp(l, a, r) <= a.prevLogIndex
  {
    RepFacts(f, full);
    R.ConflictIsNotTransient(f, full, a, term);
  }

  // ---------- one exchange ----------

  /** v leads and tracks u, whose term is not beyond. */
  ghost predicate Leading(s: Cluster, v: NodeId, u: NodeId) {
    && v in s.servers && u in s.servers && u != v
    && var n := s.servers[v].n;
    n.role == Leader && u in n.peers && v in Ids(n.st.config) && s.servers[u].n.currentTerm <= n.currentTerm
  }

  /** Only what v knows of u, v's commit index and u's node have changed, and nothing went back. */
  ghost predicate Moved(s: Cluster, s2: Cluster, v: NodeId, u: NodeId)
    requires Leading(s, v, u)
  {
    && s2.servers.Keys == s.servers.Keys
    && (forall x :: x in s.servers && x != v && x != u ==> s2.servers[x] == s.servers[x])
    && var n, n2 := s.servers[v].n, s2.servers[v].n;
    && s2.servers[v] == s.servers[v].(n := n2) && u in n2.peers
    && n2 == n.(commitIndex := n2.commitIndex, peers := n.peers[u := n2.peers[u]]) && n2.commitIndex >= n.commitIndex
    && n2.peers[u].matchIndex >= n.peers[u].matchIndex && n2.peers[u].ackRound >= n.peers[u].ackRound
    && var f, f2 := s.servers[u].n, s2.servers[u].n;
    && s2.servers[u] == s.servers[u].(n := f2)
    && f2.currentTerm == n.currentTerm && f2.commitIndex >= f.commitIndex && f2.lastApplied == f.lastApplied
  }

  lemma MovedTrans(s: Cluster, m: Cluster, s2: Cluster, v: NodeId, u: NodeId)
    requires Leading(s, v, u) && Moved(s, m, v, u) && Leading(m, v, u) && Moved(m, s2, v, u)
    ensures Moved(s, s2, v, u) && Leading(s2, v, u)
  {
  }

  lemma StillLeading(s: Cluster, s2: Cluster, v: NodeId, u: NodeId)
    requires Leading(s, v, u) && Moved(s, s2, v, u)
    ensures Leading(s2, v, u)
  {
  }

  /** The exchange succeeded: u holds what was sent and is probed right after it, v has
      counted again, and u has committed what v had, as far as it was sent. */
  ghost predicate Hit(s: Cluster, s2: Cluster, v: NodeId, u: NodeId, upTo: nat)
    requires Leading(s, v, u) && Leading(s2, v, u)
  {
    var n, n2 := s.servers[v].n, s2.servers[v].n;
    && n2.peers[u].matchIndex >= upTo && n2.peers[u].nextIndex == n2.peers[u].matchIndex + 1
    && n2.peers[u].ackRound >= n.hbRound && CommitsAll(n2)
    && s2.servers[u].n.commitIndex >= Min(n.commitIndex, upTo)
  }

  lemma FollowerMoves(app: App, g: Ghost, v: NodeId, n: Node, u: NodeId, f: Node, max: nat)
    requires HistOk(g) && NodeOk(app, g, v, n) && NodeOk(app, g, u, f) && Valid(n) && Valid(f) && CanAppend(n, u)
    requires f.currentTerm <= n.currentTerm
    ensures var a := MakeAppend(n, u, max);
      && WellFormed(a) && a.prevLogIndex < n.peers[u].nextIndex && a.term == n.currentTerm && a.leaderCommit == n.commitIndex
      && var (f2, r) := OnAppendEntries(f, a, true);
      && r.term == n.currentTerm && f2.currentTerm == n.currentTerm && f2.commitIndex >= f.commitIndex
      && f2.lastApplied == f.lastApplied
      && (r.success ==> f2.commitIndex >= Min(n.commitIndex, a.prevLogIndex + |a.entries|))
      && (!r.success ==> !Transient(a, r) && 1 <= BackedUp(n.st, a, r) <= a.prevLogIndex)
      && (f.currentTerm == n.currentTerm && n.peers[u].nextIndex == n.peers[u].matchIndex + 1 ==> r.success)
  {
    var a := MakeAppend(n, u, max);
    A.MakeAppendOk(app, g, v, n, u, max);
    LogOf(app, g, u, f);
    FollowerAnswers(app, g, u, f, v, a);
    if f.currentTerm == n.currentTerm && n.peers[u].nextIndex == n.peers[u].matchIndex + 1 {
      MatchedIsAccepted(app, g, v, n, u, f, max);
    }
    ArgsTerm(g.h, v, a);
    RepOf(app, g, u, f);
    var r := OnAppendEntries(f, a, true).1;
    hide HistOk, NodeOk, AppendArgsOk, OnAppendEntries, R.Monotone, R.Accepts, R.Conflict, BackedUp, Transient, StoreOk;
    FollowerKeeps(f, a);
    if r.success {
      AcceptedCommits(f, a, true);
    } else {
      ConflictMovesBack(n.st, f.st, g.h.log[u], a, a.term);
    }
  }

  lemma ArgsTerm(h: Hist, src: NodeId, a: AppendArgs)
    requires AppendArgsOk(h, src, a)
    ensures a.prevLogIndex == 0 ==> a.prevLogTerm == 0
  {
  }

  lemma RepOf(app: App, g: Ghost, u: NodeId, f: Node)
    requires NodeOk(app, g, u, f)
    ensures u in g.h.log && Rep(f.st, g.h.log[u])
  {
  }

  lemma FollowerKeeps(f: Node, a: AppendArgs)
    requires Valid(f) && WellFormed(a) && a.term >= f.currentTerm
    ensures var f2 := OnAppendEntries(f, a, true).0;
      f2.currentTerm == a.term && f2.commitIndex >= f.commitIndex && f2.lastApplied == f.lastApplied
  {
    hide ConfigsAgree, SpliceStore, Tracked, RunStart, FirstNew;
  }

  /** What v makes of the answer. */
  lemma LeaderHears(n: Node, u: NodeId, round: nat, a: AppendArgs, r: AppendReply)
    requires CommitInLog(n) && n.role == Leader && n.currentTerm == a.term == r.term && u in n.peers && n.id in Ids(n.st.config)
    requires !r.success ==> !Transient(a, r)
    ensures var n2, q := OnAppendReply(n, u, round, a, r), n.peers[u];
      && u in n2.peers && n2 == n.(commitIndex := n2.commitIndex, peers := n.peers[u := n2.peers[u]])
      && n2.commitIndex >= n.commitIndex && n2.peers[u].matchIndex >= q.matchIndex && n2.peers[u].ackRound >= q.ackRound
      && (r.success ==>
            && n2.peers[u].matchIndex >= a.prevLogIndex + |a.entries| && n2.peers[u].nextIndex == n2.peers[u].matchIndex + 1
            && n2.peers[u].ackRound >= round && CommitsAll(n2))
      && (!r.success ==> n2.peers[u].nextIndex == BackedUp(n.st, a, r))
  {
    hide BackedUp, CommitsAll, AdvanceCommit, CommitInLog;
    if r.success { SuccessHeard(n, u, round, a, r); }
  }

  /** One request: either it succeeds, or u is probed further back. */
  lemma Attempt(app: App, s: Cluster, v: NodeId, u: NodeId, max: nat) returns (s2: Cluster)
    requires Sound(app, s) && Leading(s, v, u) && Valid(s.servers[v].n) && CanAppend(s.servers[v].n, u)
    ensures Sound(app, s2) && Reaches(app, s, s2) && Moved(s, s2, v, u) && Leading(s2, v, u)
    ensures var n, n2 := s.servers[v].n, s2.servers[v].n;
      var a := MakeAppend(n, u, max);
      || Hit(s, s2, v, u, a.prevLogIndex + |a.entries|)
      || (1 <= n2.peers[u].nextIndex < n.peers[u].nextIndex
          && !(s.servers[u].n.currentTerm == n.currentTerm && n.peers[u].nextIndex == n.peers[u].matchIndex + 1))
  {
    s2 := Exchange(app, s, v, u, max);
    var g :| CInv(app, s, g);
    BothOk(app, g, s, v, u);
    Exchanges(app, g, s, s2, v, u, max);
  }

  /** v's node went to n2 and u's to f2. */
  ghost predicate Became(s: Cluster, s2: Cluster, v: NodeId, u: NodeId, n2: Node, f2: Node) {
    v in s.servers && u in s.servers && s2.servers == s.servers[u := s.servers[u].(n := f2)][v := s.servers[v].(n := n2)]
  }

  lemma MovesBoth(s: Cluster, s2: Cluster, v: NodeId, u: NodeId, n2: Node, f2: Node)
    requires Leading(s, v, u) && Became(s, s2, v, u, n2, f2)
    requires var n, f := s.servers[v].n, s.servers[u].n;
      && u in n2.peers && n2 == n.(commitIndex := n2.commitIndex, peers := n.peers[u := n2.peers[u]])
      && n2.commitIndex >= n.commitIndex && n2.peers[u].matchIndex >= n.peers[u].matchIndex
      && n2.peers[u].ackRound >= n.peers[u].ackRound
      && f2.currentTerm == n.currentTerm && f2.commitIndex >= f.commitIndex && f2.lastApplied == f.lastApplied
    ensures Moved(s, s2, v, u) && Leading(s2, v, u) && s2.servers[v].n == n2 && s2.servers[u].n == f2
  {
  }

  lemma Exchanges(app: App, g: Ghost, s: Cluster, s2: Cluster, v: NodeId, u: NodeId, max: nat)
    requires HistOk(g) && Leading(s, v, u) && Exchanged(s, s2, v, u, max)
    requires NodeOk(app, g, v, s.servers[v].n) && NodeOk(app, g, u, s.servers[u].n) && CommitInLog(s.servers[v].n)
    requires s.servers[v].n.id == v
    ensures Moved(s, s2, v, u) && Leading(s2, v, u) && Valid(s.servers[v].n) && CanAppend(s.servers[v].n, u)
    ensures var n, n2 := s.servers[v].n, s2.servers[v].n;
      var a := MakeAppend(n, u, max);
      || Hit(s, s2, v, u, a.prevLogIndex + |a.entries|)
      || (1 <= n2.peers[u].nextIndex < n.peers[u].nextIndex
          && !(s.servers[u].n.currentTerm == n.currentTerm && n.peers[u].nextIndex == n.peers[u].matchIndex + 1))
  {
    hide HistOk, NodeOk, OnAppendEntries, OnAppendReply, MakeAppend, Valid, CommitInLog, CommitsAll, BackedUp, Transient, CanAppend,
      WellFormed, Moved;
    var n, f := s.servers[v].n, s.servers[u].n;
    FollowerMoves(app, g, v, n, u, f, max);
    var a := MakeAppend(n, u, max);
    var f2, r := OnAppendEntries(f, a, true).0, OnAppendEntries(f, a, true).1;
    LeaderHears(n, u, n.hbRound, a, r);
    MovesBoth(s, s2, v, u, OnAppendReply(n, u, n.hbRound, a, r), f2);
  }

  lemma BothOk(app: App, g: Ghost, s: Cluster, v: NodeId, u: NodeId)
    requires CInv(app, s, g) && v in s.servers && u in s.servers
    ensures HistOk(g) && NodeOk(app, g, v, s.servers[v].n) && NodeOk(app, g, u, s.servers[u].n)
    ensures Valid(s.servers[u].n) && Valid(s.servers[v].n) && CommitInLog(s.servers[v].n) && s.servers[v].n.id == v
  {
    assert ServerOk(app, g, v, s.servers[v]) && ServerOk(app, g, u, s.servers[u]);
  }

  // ---------- one chunk ----------

  /** The offset of the next chunk for u. */
  function Offset(n: Node, u: NodeId): (off: nat)
    requires CanSendSnapshot(n, u)
    ensures off <= |n.st.snapData.value|
  {
    Min(Sending(n.peers[u], n.st.snapIndex).snapOffset, |n.st.snapData.value|)
  }

  /** How much of the transfer is left, one more when the two do not agree on the offset. */
  ghost function Left(n: Node, u: NodeId, f: Node): nat
    requires CanSendSnapshot(n, u)
  {
    if HasTaken(n, f, Offset(n, u)) then |n.st.snapData.value| - Offset(n, u) else |n.st.snapData.value| + 1
  }

  /** What u holds of the snapshot that v is sending it comes from that snapshot. */
  lemma BufferIsPrefix(app: App, g: Ghost, v: NodeId, n: Node, u: NodeId, f: Node)
    requires NodeOk(app, g, v, n) && NodeOk(app, g, u, f) && CanSendSnapshot(n, u) && f.currentTerm <= n.currentTerm
    requires Offset(n, u) > 0 && f.recv.buf != [] && f.recv.index == n.st.snapIndex
    ensures f.recv.buf <= n.st.snapData.value
  {
    assert PeerOk(g, n.currentTerm, u, n.peers[u]);
    hide LogRep, TermOk, CandOk;
  }

  lemma SameChunk(n: Node, u: NodeId, size: nat)
    requires CanSendSnapshot(n, u)
    ensures MakeSnapshot(n, u, size).1 == Chunk(n, Offset(n, u), size)
  {
  }

  lemma FollowTwice(f: Node, a: SnapshotArgs, io: bool)
    requires f.currentTerm <= a.term
    ensures OnInstallSnapshot(f, a, io) == OnInstallSnapshot(Follow(f, a.term), a, io)
  {
    hide SnapshotFollowing;
  }

  /** A chunk that u cannot place is answered with what u has. */
  lemma ChunkRefused(n: Node, f: Node, off: nat, size: nat)
    requires n.st.snapData.Some? && off <= |n.st.snapData.value| && f.currentTerm == n.currentTerm && f.role == Follower
    requires f.recv.buf != [] && f.recv.index == n.st.snapIndex ==> f.recv.buf <= n.st.snapData.value
    requires OutOfStep(f.recv, Chunk(n, off, size))
    ensures var (f2, r) := OnInstallSnapshot(f, Chunk(n, off, size), true);
      && !r.success && r.term == n.currentTerm && r.nextOffset <= |n.st.snapData.value| && HasTaken(n, f2, r.nextOffset)
  {
  }

  lemma InStepHasTaken(n: Node, f: Node, off: nat, size: nat)
    requires n.st.snapData.Some? && off <= |n.st.snapData.value| && f.currentTerm == n.currentTerm && f.role == Follower
    requires f.recv.buf != [] && f.recv.index == n.st.snapIndex ==> f.recv.buf <= n.st.snapData.value
    requires !OutOfStep(f.recv, Chunk(n, off, size))
    ensures HasTaken(n, f, off)
  {
  }

  lemma ChunkMoves(app: App, g: Ghost, v: NodeId, n: Node, u: NodeId, f: Node, size: nat)
    requires NodeOk(app, g, v, n) && NodeOk(app, g, u, f) && CanSendSnapshot(n, u) && f.currentTerm <= n.currentTerm && size > 0
    ensures var a := MakeSnapshot(n, u, size).1;
      var (f2, r) := OnInstallSnapshot(f, a, true);
      && a.term == r.term == n.currentTerm && a.lastIncludedIndex == n.st.snapIndex
      && ((r.success && a.done)
          || (!(r.success && a.done) && r.nextOffset <= |n.st.snapData.value| && HasTaken(n, f2, r.nextOffset)
              && (HasTaken(n, f, Offset(n, u)) ==> r.nextOffset > Offset(n, u))))
  {
    var off := Offset(n, u);
    var a := Chunk(n, off, size);
    SameChunk(n, u, size);
    if HasTaken(n, f, off) {
      ChunkTaken(n, f, off, size);
    } else {
      FollowTwice(f, a, true);
      SameStore(f, a.term);
      if f.recv.buf != [] && f.recv.index == n.st.snapIndex { BufferIsPrefix(app, g, v, n, u, f); }
      var f1 := Follow(f, a.term);
      hide NodeOk, OnInstallSnapshot, Follow;
      if OutOfStep(f1.recv, a) {
        ChunkRefused(n, f1, off, size);
      } else {
        InStepHasTaken(n, f1, off, size);
        ChunkTaken(n, f1, off, size);
      }
    }
  }

  lemma ReceiverKeeps(f: Node, a: SnapshotArgs)
    requires a.term >= f.currentTerm
    ensures var f2 := OnInstallSnapshot(f, a, true).0;
      f2.currentTerm == a.term && f2.commitIndex >= f.commitIndex && f2.lastApplied == f.lastApplied
  {
    hide InstallStore, Tracked;
  }

  /** What v makes of the answer to a chunk. */
  lemma SenderHears(n: Node, u: NodeId, size: nat, r: SnapshotReply)
    requires CommitInLog(n) && CanSendSnapshot(n, u) && r.term == n.currentTerm && n.id in Ids(n.st.config)
    ensures var (n1, a) := MakeSnapshot(n, u, size);
      CommitInLog(n1)
      && var n2, q := OnSnapshotReply(n1, u, n.hbRound, a, r), n.peers[u];
      && u in n2.peers && n2 == n.(commitIndex := n2.commitIndex, peers := n.peers[u := n2.peers[u]])
      && n2.commitIndex >= n.commitIndex && n2.peers[u].matchIndex >= q.matchIndex && n2.peers[u].ackRound >= q.ackRound
      && (r.success && a.done ==>
            && n2.peers[u].matchIndex >= n.st.snapIndex && n2.peers[u].nextIndex == n2.peers[u].matchIndex + 1
            && n2.peers[u].ackRound >= n.hbRound && CommitsAll(n2))
      && (!(r.success && a.done) ==>
            && n2.peers[u].nextIndex == q.nextIndex && n2.peers[u].snapSending == n.st.snapIndex
            && n2.peers[u].snapOffset == r.nextOffset)
  {
    var n1, a := MakeSnapshot(n, u, size).0, MakeSnapshot(n, u, size).1;
    assert n1 == n.(peers := n.peers[u := n1.peers[u]]) && u in n1.peers;
    hide AdvanceCommit, CommitsAll, OnSnapshotReply;
    if r.success && a.done { LastChunkHeard(n1, u, n.hbRound, a, r); } else { ChunkHeard(n1, u, n.hbRound, a, r); }
  }

  lemma DoneCommits(f: Node, a: SnapshotArgs)
    requires Valid(f) && a.done && OnInstallSnapshot(f, a, true).1.success
    ensures OnInstallSnapshot(f, a, true).0.commitIndex >= a.lastIncludedIndex
  {
    hide InstallStore, Tracked, StoreOk;
  }

  /** One chunk: either u now has all of the snapshot, or less of the transfer is left. */
  lemma ChunkAttempt(app: App, s: Cluster, v: NodeId, u: NodeId, size: nat) returns (s2: Cluster)
    requires Sound(app, s) && Leading(s, v, u) && CanSendSnapshot(s.servers[v].n, u) && size > 0
    ensures Sound(app, s2) && Reaches(app, s, s2) && Moved(s, s2, v, u) && Leading(s2, v, u)
    ensures var n, n2 := s.servers[v].n, s2.servers[v].n;
      || Hit(s, s2, v, u, n.st.snapIndex)
      || (CanSendSnapshot(n2, u) && Left(n2, u, s2.servers[u].n) < Left(n, u, s.servers[u].n))
  {
    s2 := ExchangeChunk(app, s, v, u, size);
    var g :| CInv(app, s, g);
    BothOk(app, g, s, v, u);
    ChunkExchanges(app, g, s, s2, v, u, size);
  }

  lemma ChunkExchanges(app: App, g: Ghost, s: Cluster, s2: Cluster, v: NodeId, u: NodeId, size: nat)
    requires Leading(s, v, u) && ChunkExchanged(s, s2, v, u, size) && size > 0
    requires NodeOk(app, g, v, s.servers[v].n) && NodeOk(app, g, u, s.servers[u].n) && CommitInLog(s.servers[v].n)
    requires s.servers[v].n.id == v && Valid(s.servers[u].n)
    ensures Moved(s, s2, v, u) && Leading(s2, v, u) && CanSendSnapshot(s.servers[v].n, u)
    ensures var n, n2 := s.servers[v].n, s2.servers[v].n;
      || Hit(s, s2, v, u, n.st.snapIndex)
      || (CanSendSnapshot(n2, u) && Left(n2, u, s2.servers[u].n) < Left(n, u, s.servers[u].n))
  {
    hide NodeOk, OnInstallSnapshot, OnSnapshotReply, MakeSnapshot, Valid, CommitInLog, CommitsAll, HasTaken, Moved;
    var n, f := s.servers[v].n, s.servers[u].n;
    ChunkMoves(app, g, v, n, u, f, size);
    var n1, a := MakeSnapshot(n, u, size).0, MakeSnapshot(n, u, size).1;
    var f2, r := OnInstallSnapshot(f, a, true).0, OnInstallSnapshot(f, a, true).1;
    SenderHears(n, u, size, r);
    ReceiverKeeps(f, a);
    var n2 := OnSnapshotReply(n1, u, n.hbRound, a, r);
    MovesBoth(s, s2, v, u, n2, f2);
    if r.success && a.done {
      DoneCommits(f, a);
    } else {
      SameTaken(n, n2, f2, r.nextOffset);
    }
  }

  lemma SameTaken(n: Node, n2: Node, f: Node, off: nat)
    requires n.st == n2.st && n.currentTerm == n2.currentTerm && n.st.snapData.Some? && off <= |n.st.snapData.value|
    ensures HasTaken(n, f, off) == HasTaken(n2, f, off)
  {
  }

  // ---------- until u has everything ----------

  /** u is in v's term and is probed right after what it has acknowledged. */
  ghost predicate Ready(s: Cluster, v: NodeId, u: NodeId) {
    && Leading(s, v, u)
    && var n := s.servers[v].n;
    && s.servers[u].n.currentTerm == n.currentTerm
    && n.peers[u].nextIndex == n.peers[u].matchIndex + 1 && n.peers[u].matchIndex >= n.st.snapIndex
  }

  lemma {:induction false} Transfer(app: App, s: Cluster, v: NodeId, u: NodeId, size: nat) returns (s2: Cluster)
    requires Sound(app, s) && Leading(s, v, u) && CanSendSnapshot(s.servers[v].n, u) && size > 0
    ensures Sound(app, s2) && Reaches(app, s, s2) && Moved(s, s2, v, u) && Ready(s2, v, u)
    decreases Left(s.servers[v].n, u, s.servers[u].n)
  {
    hide Sound, Reaches, Left;
    s2 := ChunkAttempt(app, s, v, u, size);
    if !Hit(s, s2, v, u, s.servers[v].n.st.snapIndex) {
      var m := s2;
      s2 := Transfer(app, m, v, u, size);
      ReachesTrans(app, s, m, s2);
      MovedTrans(s, m, s2, v, u);
    }
  }

  lemma SnapshotIsThere(app: App, s: Cluster, v: NodeId, u: NodeId)
    requires Sound(app, s) && Leading(s, v, u)
    ensures Valid(s.servers[v].n) && (CanAppend(s.servers[v].n, u) || CanSendSnapshot(s.servers[v].n, u))
  {
    SoundServer(app, s, v);
    var g :| CInv(app, s, g);
    assert ServerOk(app, g, v, s.servers[v]);
  }

  lemma {:induction false} Probe(app: App, s: Cluster, v: NodeId, u: NodeId, max: nat, size: nat) returns (s2: Cluster)
    requires Sound(app, s) && Leading(s, v, u) && size > 0
    ensures Sound(app, s2) && Reaches(app, s, s2) && Moved(s, s2, v, u) && Ready(s2, v, u)
    decreases s.servers[v].n.peers[u].nextIndex
  {
    hide Sound, Reaches;
    SnapshotIsThere(app, s, v, u);
    var n := s.servers[v].n;
    if CanAppend(n, u) {
      s2 := Attempt(app, s, v, u, max);
      var a := MakeAppend(n, u, max);
      if !Hit(s, s2, v, u, a.prevLogIndex + |a.entries|) {
        var m := s2;
        s2 := Probe(app, m, v, u, max, size);
        ReachesTrans(app, s, m, s2);
        MovedTrans(s, m, s2, v, u);
      }
    } else {
      s2 := Transfer(app, s, v, u, size);
    }
  }

  /** u holds all of v's log as far as v knows. */
  ghost predicate Full(s: Cluster, v: NodeId, u: NodeId) {
    Ready(s, v, u) && s.servers[v].n.peers[u].matchIndex >= LastIndex(s.servers[v].n.st)
  }

  /** A request to a ready server succeeds. */
  lemma Feed(app: App, s: Cluster, v: NodeId, u: NodeId, max: nat) returns (s2: Cluster)
    requires Sound(app, s) && Ready(s, v, u)
    ensures Sound(app, s2) && Reaches(app, s, s2) && Moved(s, s2, v, u) && Ready(s2, v, u)
    ensures var n := s.servers[v].n;
      && Valid(n) && LastIndex(n.st) >= 0
      && var k := Min(n.peers[u].matchIndex, LastIndex(n.st));
      Hit(s, s2, v, u, k + Min(max, LastIndex(n.st) - k))
  {
    hide Sound, Reaches, CommitsAll;
    SnapshotIsThere(app, s, v, u);
    s2 := Attempt(app, s, v, u, max);
  }

  lemma {:induction false} Fill(app: App, s: Cluster, v: NodeId, u: NodeId, max: nat) returns (s2: Cluster)
    requires Sound(app, s) && Ready(s, v, u) && max > 0
    ensures Sound(app, s2) && Reaches(app, s, s2) && Moved(s, s2, v, u) && Full(s2, v, u)
    decreases LastIndex(s.servers[v].n.st) - s.servers[v].n.peers[u].matchIndex
  {
    hide Sound, Reaches, CommitsAll, Valid;
    var n := s.servers[v].n;
    s2 := Feed(app, s, v, u, max);
    if n.peers[u].matchIndex < LastIndex(n.st) {
      var m := s2;
      s2 := Fill(app, m, v, u, max);
      ReachesTrans(app, s, m, s2);
      MovedTrans(s, m, s2, v, u);
    }
  }

  /** The heart of it: whatever u holds, v can bring it to hold all of v's log. */
  lemma CatchUp(app: App, s: Cluster, v: NodeId, u: NodeId, max: nat, size: nat) returns (s2: Cluster)
    requires Sound(app, s) && Leading(s, v, u) && max > 0 && size > 0
    ensures Sound(app, s2) && Reaches(app, s, s2) && Moved(s, s2, v, u) && Full(s2, v, u)
  {
    hide Sound, Reaches, Moved;
    var m := Probe(app, s, v, u, max, size);
    s2 := Fill(app, m, v, u, max);
    ReachesTrans(app, s, m, s2);
    MovedTrans(s, m, s2, v, u);
  }

  /** A heartbeat to a server that holds everything: quorums are counted, the read round is
      acknowledged, and it commits what v has committed. */
  lemma Heartbeat(app: App, s: Cluster, v: NodeId, u: NodeId) returns (s2: Cluster)
    requires Sound(app, s) && Full(s, v, u)
    ensures Sound(app, s2) && Reaches(app, s, s2) && Moved(s, s2, v, u) && Full(s2, v, u)
    ensures var n, n2 := s.servers[v].n, s2.servers[v].n;
      CommitsAll(n2) && n2.peers[u].ackRound >= n.hbRound && s2.servers[u].n.commitIndex >= n.commitIndex
  {
    hide Sound, Reaches, CommitsAll;
    s2 := Feed(app, s, v, u, 0);
  }

  /** What Full says of the logs: v's is a prefix of u's. */
  lemma FullHasLog(app: App, g: Ghost, s: Cluster, v: NodeId, u: NodeId)
    requires CInv(app, s, g) && Full(s, v, u)
    ensures v in g.h.log && u in g.h.log && g.h.log[v] <= g.h.log[u]
  {
    BothOk(app, g, s, v, u);
    var n := s.servers[v].n;
    AckedPrefix(app, g, v, n, u, s.servers[u].n);
    RepFacts(n.st, g.h.log[v]);
    assert g.h.log[v][..n.peers[u].matchIndex] == g.h.log[v];
  }
}
