/** Refinement of AppendEntries: sending, handling and the reply. */
module RaftRefineAppend {
  import opened RaftTypes
  import opened RaftState
  import opened RaftNodeInvariant
  import opened RaftCluster
  import opened RaftHistory
  import S = RaftSteps
  import opened RaftGhost
  import opened RaftRefineBase
  import opened RaftRefineLeader
  import opened RaftRefineVotes

  // ---------- the follower's log against its leader's ----------

  /** Nodes that agree at index i agree up to it. */
  lemma AgreeUpTo(h: Hist, full: Log, l: Log, i: nat)
    requires InvLeaderLogs(h) && Pref(h, full) && Pref(h, l)
    requires i <= |full| && i <= |l| && TermOf(full, i) == TermOf(l, i)
    ensures full[..i] == l[..i]
  {
    if i > 0 { Matching(h, full, l, i - 1); }
  }

  lemma LeaderPref(h: Hist, t: nat)
    requires InvLeaderLogs(h) && t in h.ll
    ensures Pref(h, h.ll[t])
  {
    assert LeaderLogOk(h, t);
    var l := h.ll[t];
    if l != [] {
      assert PrefUpTo(h, l, |l|);
      assert l[..|l|] == l;
    }
  }

  /** a carries a piece of the log l, and full agrees with l before the entries left after skip. */
  ghost predicate Aligned(s: Store, full: Log, l: Log, a: AppendArgs, skip: nat) {
    && Rep(s, full) && WellFormed(a) && skip <= |a.entries| && InLog(s, a.prevLogIndex + skip)
    && a.prevLogIndex + |a.entries| <= |l| && a.entries == l[a.prevLogIndex..a.prevLogIndex + |a.entries|]
    && a.prevLogIndex + skip <= |full| && full[..a.prevLogIndex + skip] == l[..a.prevLogIndex + skip]
  }

  /** The first entry not already in place starts right after the agreed prefix. */
  lemma AgreedBefore(h: Hist, s: Store, full: Log, l: Log, a: AppendArgs, skip: nat)
    requires InvLeaderLogs(h) && Pref(h, full) && Pref(h, l) && Aligned(s, full, l, a, skip)
    ensures var i := FirstNew(s, a.entries, skip);
      var k := a.prevLogIndex + i;
      && skip <= i <= |a.entries| && k <= |full| && k <= |l| && full[..k] == l[..k]
      && (i < |a.entries| ==> a.entries[i].index == k + 1 && k < |l| && (k == |full| || full[k] != l[k]))
  {
    hide InvLeaderLogs, Pref;
    RepFacts(s, full);
    FirstNewAt(s, a, skip);
    hide FirstNew;
    var i := FirstNew(s, a.entries, skip);
    var k := a.prevLogIndex + i;
    if i > skip {
      assert TermAt(s, a.entries[i - 1].index) == a.entries[i - 1].term;
      assert TermAt(s, k) == TermOf(full, k);
      AgreeUpTo(h, full, l, k);
    }
    if i < |a.entries| && k < |full| {
      assert TermAt(s, k + 1) == TermOf(full, k + 1);
    }
  }

  /** The full log after the handler accepts a's entries. */
  function Accepted(s: Store, full: Log, l: Log, a: AppendArgs, skip: nat): Log
    requires Aligned(s, full, l, a, skip)
  {
    if FirstNew(s, a.entries, skip) < |a.entries| then l[..a.prevLogIndex + |a.entries|] else full
  }

  lemma PreservesShared(full: Log, l: Log, k: nat, m: nat)
    requires k <= |full| && k < m <= |l| && full[..k] == l[..k] && (k == |full| || full[k] != l[k])
    ensures S.Preserves(full, l, l[..m])
  {
    forall j {:trigger full[..j]} | 0 <= j <= |full| && full[..j] <= l ensures full[..j] <= l[..m] {
      forall i | 0 <= i < j ensures full[i] == l[i] {
        assert full[..j][i] == full[i];
      }
    }
  }

  lemma AcceptedIsLeaders(h: Hist, s: Store, full: Log, l: Log, a: AppendArgs, skip: nat)
    requires InvLeaderLogs(h) && Pref(h, full) && Pref(h, l) && Aligned(s, full, l, a, skip)
    ensures var log, m := Accepted(s, full, l, a, skip), a.prevLogIndex + |a.entries|;
      m <= |log| && log[..m] == l[..m] && S.Preserves(full, l, log)
  {
    hide InvLeaderLogs, Pref;
    AgreedBefore(h, s, full, l, a, skip);
    var i, m := FirstNew(s, a.entries, skip), a.prevLogIndex + |a.entries|;
    if i < |a.entries| { PreservesShared(full, l, a.prevLogIndex + i, m); }
  }

  lemma SpliceRep(s: Store, full: Log, at: nat, tail: seq<Entry>)
    requires Rep(s, full) && StoreOk(s) && s.snapIndex < at <= |full| + 1
    requires forall k :: 0 <= k < |tail| ==> tail[k].index == at + k
    ensures at <= LastIndex(s) + 1 && Rep(SpliceStore(s, at, tail), full[..at - 1] + tail)
    ensures SpliceStore(s, at, tail).snapIndex == s.snapIndex && SpliceStore(s, at, tail).snapData == s.snapData
    ensures SpliceStore(s, at, tail).snapConfig == s.snapConfig
  {
    RepFacts(s, full);
    SpliceStoreOk(s, at, tail);
    var s2 := SpliceStore(s, at, tail);
    var log := full[..at - 1] + tail;
    assert s2.log[1..] == s.log[1..][..at - s.snapIndex - 1] + tail;
    assert log[s.snapIndex..] == full[s.snapIndex..][..at - s.snapIndex - 1] + tail;
  }

  // ---------- the follower's node ----------

  /** n, a follower in term t, holds `log` of which the first m entries are its leader's. */
  function AcceptGhost(g: Ghost, v: NodeId, log: Log, m: nat): Ghost
    requires v in g.h.term
  {
    g.(h := S.Accept(g.h, v, log, m))
  }

  lemma AcceptHist(g: Ghost, v: NodeId, log: Log, m: nat)
    requires HistOk(g) && S.Acceptable(g.h, v, log, m)
    ensures HistOk(AcceptGhost(g, v, log, m)) && HistBy(g.h, AcceptGhost(g, v, log, m).h, v)
    ensures AckAtLeast(AcceptGhost(g, v, log, m).h, v, g.h.term[v], m)
  {
    S.AcceptStep(g.h, v, log, m);
    SameLeaders(g, S.Accept(g.h, v, log, m));
  }

  /** A follower whose log changed as its leader wants it. */
  lemma AcceptNode(app: App, g: Ghost, v: NodeId, n: Node, log: Log, m: nat, n2: Node)
    requires NodeOk(app, g, v, n) && n.role == Follower && S.Grows(g.h, AcceptGhost(g, v, log, m).h)
    requires n2 == n.(st := n2.st, commitIndex := n2.commitIndex) && n.commitIndex <= n2.commitIndex
    requires LogRep(app, g.h, n2, log)
    ensures NodeOk(app, AcceptGhost(g, v, log, m), v, n2) && Moves(n, n2)
  {
    var g2 := AcceptGhost(g, v, log, m);
    CommittedGrows(g.h, g2.h, log[..n2.commitIndex], n.currentTerm, n.currentTerm);
    RecvSame(g, g2, v, n.currentTerm, n.recv);
  }

  lemma AcceptStep(app: App, g: Ghost, v: NodeId, n: Node, log: Log, m: nat, n2: Node) returns (g2: Ghost)
    requires HistOk(g) && NodeOk(app, g, v, n) && n.role == Follower && S.Acceptable(g.h, v, log, m)
    requires n2 == n.(st := n2.st, commitIndex := n2.commitIndex) && n.commitIndex <= n2.commitIndex
    requires LogRep(app, g.h, n2, log)
    ensures NodeStep(app, g, g2, v, n, n2) && AckAtLeast(g2.h, v, n.currentTerm, m)
  {
    NodeFacts(app, g, v, n);
    hide HistOk, NodeOk, LogRep, Moves, S.Acceptable;
    g2 := AcceptGhost(g, v, log, m);
    AcceptHist(g, v, log, m);
    AcceptNode(app, g, v, n, log, m, n2);
  }

  lemma CommitToOk(h: Hist, full: Log, log: Log, l: Log, commit: nat, leaderCommit: nat, m: nat, t: nat)
    requires commit <= |full| && Committed(h, full[..commit], t) && full[..commit] <= l
    requires S.Preserves(full, l, log) && m <= |log| && m <= |l| && log[..m] == l[..m]
    requires leaderCommit <= |l| && Committed(h, l[..leaderCommit], t)
    ensures var c := CommitTo(commit, leaderCommit, m);
      commit <= c <= |log| && Committed(h, log[..c], t)
  {
    var c := CommitTo(commit, leaderCommit, m);
    assert full[..commit] <= log;
    if c > commit {
      CommittedPrefix(h, l[..leaderCommit], t, c);
      assert l[..leaderCommit][..c] == l[..c] == log[..m][..c] == log[..c];
    } else {
      assert log[..commit] == full[..commit];
    }
  }

  /** What the follower stores and commits on success. */
  lemma SpliceLogRep(app: App, h: Hist, n: Node, full: Log, log: Log, st: Store, commit: nat)
    requires LogRep(app, h, n, full) && StoreOk(st) && Rep(st, log)
    requires st.snapIndex == n.st.snapIndex && st.snapData == n.st.snapData && st.snapConfig == n.st.snapConfig
    requires n.st.snapIndex <= |log| && log[..n.st.snapIndex] == full[..n.st.snapIndex]
    requires n.commitIndex <= commit <= |log| && Committed(h, log[..commit], n.currentTerm)
    ensures LogRep(app, h, n.(st := st, commitIndex := commit), log)
  {
    RepFacts(st, log);
  }

  /** What the follower's store becomes. */
  function AcceptedStore(s: Store, full: Log, l: Log, a: AppendArgs, skip: nat): Store
    requires Aligned(s, full, l, a, skip)
  {
    RepFacts(s, full);
    FirstNewAt(s, a, skip);
    var i := FirstNew(s, a.entries, skip);
    if i < |a.entries| then SpliceStore(s, a.entries[i].index, a.entries[i..]) else s
  }

  lemma PieceOfLog(full: Log, l: Log, prev: nat, i: nat, m: nat)
    requires prev + i <= m <= |l| && prev + i <= |full| && full[..prev + i] == l[..prev + i]
    ensures full[..prev + i] + l[prev..m][i..] == l[..m]
  {
  }

  lemma AcceptedRep(h: Hist, s: Store, full: Log, l: Log, a: AppendArgs, skip: nat)
    requires InvLeaderLogs(h) && Pref(h, full) && Pref(h, l) && Aligned(s, full, l, a, skip) && StoreOk(s)
    ensures var st := AcceptedStore(s, full, l, a, skip);
      && StoreOk(st) && Rep(st, Accepted(s, full, l, a, skip))
      && st.snapIndex == s.snapIndex && st.snapData == s.snapData && st.snapConfig == s.snapConfig
  {
    hide StoreOk, Pref, InvLeaderLogs, SpliceStore;
    AgreedBefore(h, s, full, l, a, skip);
    RepFacts(s, full);
    FirstNewAt(s, a, skip);
    var i, m := FirstNew(s, a.entries, skip), a.prevLogIndex + |a.entries|;
    if i < |a.entries| {
      var at, tail := a.entries[i].index, a.entries[i..];
      SpliceStoreOk(s, at, tail);
      SpliceRep(s, full, at, tail);
      PieceOfLog(full, l, a.prevLogIndex, i, m);
      assert full[..at - 1] + tail == l[..m];
    }
  }

  /** What a follower becomes when it accepts. */
  function AcceptedNode(n: Node, full: Log, l: Log, a: AppendArgs, skip: nat): Node
    requires Aligned(n.st, full, l, a, skip)
  {
    n.(st := AcceptedStore(n.st, full, l, a, skip),
       commitIndex := CommitTo(n.commitIndex, a.leaderCommit, a.prevLogIndex + |a.entries|))
  }

  /** What the follower holds after accepting is what its leader holds, and all it had committed. */
  lemma AcceptedLog(app: App, h: Hist, n: Node, full: Log, l: Log, a: AppendArgs, skip: nat, t: nat)
    requires InvLeaderLogs(h) && Pref(h, full) && Pref(h, l) && Aligned(n.st, full, l, a, skip) && StoreOk(n.st)
    requires LogRep(app, h, n, full) && n.currentTerm == t && full[..n.commitIndex] <= l
    requires a.leaderCommit <= |l| && Committed(h, l[..a.leaderCommit], t)
    ensures var n2 := AcceptedNode(n, full, l, a, skip);
      && LogRep(app, h, n2, Accepted(n.st, full, l, a, skip))
      && n2 == n.(st := n2.st, commitIndex := n2.commitIndex) && n.commitIndex <= n2.commitIndex
  {
    hide LogRep, InvLeaderLogs, Committed, Pref, StoreOk, Rep, S.Preserves, CommitTo, Aligned, Accepted, AcceptedStore;
    var m := a.prevLogIndex + |a.entries|;
    var log := Accepted(n.st, full, l, a, skip);
    AlignedIs(n.st, full, l, a, skip);
    LogRepFacts(app, h, n, full);
    AcceptedRep(h, n.st, full, l, a, skip);
    AcceptedIsLeaders(h, n.st, full, l, a, skip);
    CommitToOk(h, full, log, l, n.commitIndex, a.leaderCommit, m, t);
    SnapPart(n, full, log, l);
    SpliceLogRep(app, h, n, full, log, AcceptedStore(n.st, full, l, a, skip), CommitTo(n.commitIndex, a.leaderCommit, m));
  }

  lemma AlignedIs(s: Store, full: Log, l: Log, a: AppendArgs, skip: nat)
    requires Aligned(s, full, l, a, skip)
    ensures a.prevLogIndex + |a.entries| <= |l|
  {
  }

  lemma LogRepFacts(app: App, h: Hist, n: Node, full: Log)
    requires LogRep(app, h, n, full)
    ensures n.st.snapIndex <= n.commitIndex <= |full| && Committed(h, full[..n.commitIndex], n.currentTerm)
  {
  }

  lemma SnapPart(n: Node, full: Log, log: Log, l: Log)
    requires n.st.snapIndex <= n.commitIndex <= |full| && full[..n.commitIndex] <= l && S.Preserves(full, l, log)
    ensures n.st.snapIndex <= |log| && log[..n.st.snapIndex] == full[..n.st.snapIndex]
  {
    assert full[..n.commitIndex] <= log;
    assert full[..n.st.snapIndex] == full[..n.commitIndex][..n.st.snapIndex];
  }

  lemma AcceptedIsAcceptable(g: Ghost, v: NodeId, s: Store, t: nat, a: AppendArgs, skip: nat)
    requires HistOk(g) && v in g.h.term && v in g.h.log && g.h.term[v] == t && t in g.h.ll
    requires Aligned(s, g.h.log[v], g.h.ll[t], a, skip)
    ensures S.Acceptable(g.h, v, Accepted(s, g.h.log[v], g.h.ll[t], a, skip), a.prevLogIndex + |a.entries|)
  {
    var full, l, m := g.h.log[v], g.h.ll[t], a.prevLogIndex + |a.entries|;
    assert LogOk(g.h, v);
    LeaderPref(g.h, t);
    AcceptedIsLeaders(g.h, s, full, l, a, skip);
    PrefOfPrefix(g.h, l, m);
    assert LeaderLogOk(g.h, t);
  }

  /** A committed entry is never truncated: the refusal branch is dead in a cluster. */
  lemma NeverRefuses(h: Hist, n: Node, full: Log, l: Log, a: AppendArgs, skip: nat)
    requires InvLeaderLogs(h) && Pref(h, full) && Pref(h, l) && Aligned(n.st, full, l, a, skip)
    requires n.commitIndex <= |full| && full[..n.commitIndex] <= l
    ensures var i := FirstNew(n.st, a.entries, skip); i < |a.entries| ==> n.commitIndex < a.entries[i].index
  {
    AgreedBefore(h, n.st, full, l, a, skip);
    var k := a.prevLogIndex + FirstNew(n.st, a.entries, skip);
    forall j | 0 <= j < n.commitIndex ensures full[j] == l[j] {
      assert full[..n.commitIndex][j] == full[j];
    }
  }

  lemma MarksOfReply(g: Ghost, v: NodeId, leader: NodeId, t: nat, round: nat)
    requires MarksKnown(g) && v in g.h.term && g.h.term[v] <= t
    ensures forall replyTerm: nat :: MarksOk(g, v, leader, t, round, replyTerm)
  {
  }

  lemma AppRepOk(app: App, g: Ghost, g2: Ghost, v: NodeId, m: Msg, r: AppendReply)
    requires m.AppReq? && m.dst == v && MsgOk(app, g, m) && Extends(g, g2, v)
    requires r.success ==> AckAtLeast(g2.h, v, m.app.term, m.app.prevLogIndex + |m.app.entries|)
    requires MarksOk(g2, v, m.src, m.app.term, m.round, r.term)
    ensures MsgOk(app, g2, AppRep(v, m.src, m.round, m.app, r))
  {
    AppendArgsGrow(g.h, g2.h, m.src, m.app);
  }

  // ---------- handling ----------

  lemma CommittedHere(app: App, g: Ghost, v: NodeId, n: Node)
    requires HistOk(g) && NodeOk(app, g, v, n) && n.currentTerm in g.h.ll
    ensures v in g.h.log && v in g.h.term && g.h.term[v] == n.currentTerm
    ensures LogRep(app, g.h, n, g.h.log[v]) && StoreOk(n.st) && Pref(g.h, g.h.log[v]) && Pref(g.h, g.h.ll[n.currentTerm])
    ensures n.commitIndex <= |g.h.log[v]| && g.h.log[v][..n.commitIndex] <= g.h.ll[n.currentTerm]
    ensures n.st.snapIndex <= n.commitIndex && InvLeaderLogs(g.h) && Rep(n.st, g.h.log[v])
  {
    assert LogOk(g.h, v);
    LeaderPref(g.h, n.currentTerm);
    CommittedInLeader(g.h, g.h.log[v][..n.commitIndex], n.currentTerm, n.currentTerm);
  }

  lemma ArgsAligned(app: App, g: Ghost, v: NodeId, n: Node, src: NodeId, a: AppendArgs, skip: nat)
    requires HistOk(g) && NodeOk(app, g, v, n) && n.currentTerm == a.term && AppendArgsOk(g.h, src, a)
    requires skip <= |a.entries| && InLog(n.st, a.prevLogIndex + skip)
    requires TermAt(n.st, a.prevLogIndex + skip) == TermOf(g.h.ll[a.term], a.prevLogIndex + skip)
    ensures v in g.h.log && Aligned(n.st, g.h.log[v], g.h.ll[a.term], a, skip)
  {
    CommittedHere(app, g, v, n);
    var full, prev := g.h.log[v], a.prevLogIndex + skip;
    RepFacts(n.st, full);
    assert TermAt(n.st, prev) == TermOf(full, prev);
    AgreeUpTo(g.h, full, g.h.ll[a.term], prev);
  }

  lemma AcceptedStep(app: App, g: Ghost, v: NodeId, n: Node, src: NodeId, a: AppendArgs, skip: nat) returns (g2: Ghost)
    requires HistOk(g) && NodeOk(app, g, v, n) && n.role == Follower && n.currentTerm == a.term
    requires AppendArgsOk(g.h, src, a) && v in g.h.log && Aligned(n.st, g.h.log[v], g.h.ll[a.term], a, skip)
    ensures NodeStep(app, g, g2, v, n, AcceptedNode(n, g.h.log[v], g.h.ll[a.term], a, skip))
    ensures AckAtLeast(g2.h, v, a.term, a.prevLogIndex + |a.entries|)
  {
    hide NodeOk, NodeStep, Accepted, Aligned, HistOk, AcceptedNode, LogRep, RecvOk, CandOk;
    var full, l, m := g.h.log[v], g.h.ll[a.term], a.prevLogIndex + |a.entries|;
    CommittedHere(app, g, v, n);
    AcceptedIsAcceptable(g, v, n.st, a.term, a, skip);
    AcceptedLog(app, g.h, n, full, l, a, skip, a.term);
    hide *;
    g2 := AcceptStep(app, g, v, n, Accepted(n.st, full, l, a, skip), m, AcceptedNode(n, full, l, a, skip));
  }

  lemma {:induction false} AcceptedIsSplice(n: Node, full: Log, l: Log, a: AppendArgs, skip: nat)
    requires Aligned(n.st, full, l, a, skip)
    ensures var i, n2 := FirstNew(n.st, a.entries, skip), AcceptedNode(n, full, l, a, skip);
      && i <= |a.entries|
      && (i < |a.entries| ==>
            && n.st.snapIndex < a.entries[i].index <= LastIndex(n.st) + 1 && n2.st.log != []
            && Splice(n, a.entries[i].index, a.entries[i..]).(commitIndex := n2.commitIndex) == Reconcile(n2))
      && (i == |a.entries| ==> n.(commitIndex := n2.commitIndex) == n2)
  {
    RepFacts(n.st, full);
    FirstNewAt(n.st, a, skip);
  }

  ghost predicate AppendOutcome(app: App, g: Ghost, g2: Ghost, v: NodeId, n: Node, a: AppendArgs, out: (Node, AppendReply)) {
    && NodeStep(app, g, g2, v, n, out.0) && out.0.currentTerm == a.term && out.1.term == a.term
    && (out.1.success ==> AckAtLeast(g2.h, v, a.term, a.prevLogIndex + |a.entries|))
  }

  /** Neither the consistency check nor the store stands in the way. */
  predicate Succeeds(n: Node, a: AppendArgs, prev: nat, prevTerm: nat, skip: nat, io: bool)
    requires Valid(n) && WellFormed(a) && prev == a.prevLogIndex + skip && skip <= |a.entries| && n.st.snapIndex <= prev
  {
    && prev <= LastIndex(n.st) && TermAt(n.st, prev) == prevTerm
    && var i := FirstNew(n.st, a.entries, skip);
    i < |a.entries| ==> io && n.commitIndex < a.entries[i].index
  }

  lemma AppendFromIs(n: Node, a: AppendArgs, prev: nat, prevTerm: nat, skip: nat, io: bool)
    requires Valid(n) && WellFormed(a) && prev == a.prevLogIndex + skip && skip <= |a.entries| && n.st.snapIndex <= prev
    ensures var out := AppendFrom(n, a, prev, prevTerm, skip, io);
      if Succeeds(n, a, prev, prevTerm, skip, io) then out == (Success(n, a, skip), AppendReply(n.currentTerm, true, 0, 0))
      else out.0 == n && !out.1.success && out.1.term == n.currentTerm
    ensures AppendFrom(n, a, prev, prevTerm, skip, io).0.currentTerm == n.currentTerm
  {
    hide ConfigsAgree, SpliceStore, Tracked, CommitTo, RunStart;
    if prev <= LastIndex(n.st) { FirstNewAt(n.st, a, skip); }
  }

  lemma ArgsWellFormed(h: Hist, src: NodeId, a: AppendArgs)
    requires AppendArgsOk(h, src, a)
    ensures WellFormed(a)
  {
  }

  /** The part of the handler after the term check: the follower either fails
      without a change or accepts. */
  lemma AppendFromStep(app: App, g: Ghost, v: NodeId, n: Node, src: NodeId, a: AppendArgs, prev: nat, prevTerm: nat, skip: nat, io: bool)
    returns (g2: Ghost)
    requires HistOk(g) && NodeOk(app, g, v, n) && n.role == Follower && n.currentTerm == a.term
    requires AppendArgsOk(g.h, src, a) && prev == a.prevLogIndex + skip && skip <= |a.entries| && n.st.snapIndex <= prev
    requires prevTerm == TermOf(g.h.ll[a.term], prev) && Valid(n)
    ensures AppendOutcome(app, g, g2, v, n, a, AppendFrom(n, a, prev, prevTerm, skip, io))
  {
    hide HistOk, NodeOk, NodeStep, AppendArgsOk, Aligned, AppendFrom, Success, Valid, WellFormed, FirstNew, AckAtLeast;
    ArgsWellFormed(g.h, src, a);
    AppendFromIs(n, a, prev, prevTerm, skip, io);
    g2 := g;
    NodeStepRefl(app, g, v, n, n);
    if Succeeds(n, a, prev, prevTerm, skip, io) {
      NothingToRefuse(app, g, v, n, src, a, skip);
      g2 := SuccessStep(app, g, v, n, src, a, skip);
    }
  }

  lemma NothingToRefuse(app: App, g: Ghost, v: NodeId, n: Node, src: NodeId, a: AppendArgs, skip: nat)
    requires HistOk(g) && NodeOk(app, g, v, n) && n.currentTerm == a.term && AppendArgsOk(g.h, src, a)
    requires skip <= |a.entries| && InLog(n.st, a.prevLogIndex + skip)
    requires TermAt(n.st, a.prevLogIndex + skip) == TermOf(g.h.ll[a.term], a.prevLogIndex + skip)
    ensures v in g.h.log && Aligned(n.st, g.h.log[v], g.h.ll[a.term], a, skip)
    ensures var i := FirstNew(n.st, a.entries, skip); i < |a.entries| ==> n.commitIndex < a.entries[i].index
  {
    ArgsAligned(app, g, v, n, src, a, skip);
    CommittedHere(app, g, v, n);
    NeverRefuses(g.h, n, g.h.log[v], g.h.ll[a.term], a, skip);
  }

  /** The handler's result when nothing stands in its way. */
  function Success(n: Node, a: AppendArgs, skip: nat): Node
    requires LogShape(n.st) && WellFormed(a) && skip <= |a.entries| && InLog(n.st, a.prevLogIndex + skip)
  {
    FirstNewAt(n.st, a, skip);
    var i := FirstNew(n.st, a.entries, skip);
    (if i < |a.entries| then Splice(n, a.entries[i].index, a.entries[i..]) else n)
    .(commitIndex := CommitTo(n.commitIndex, a.leaderCommit, a.prevLogIndex + |a.entries|))
  }

  lemma SuccessStep(app: App, g: Ghost, v: NodeId, n: Node, src: NodeId, a: AppendArgs, skip: nat) returns (g2: Ghost)
    requires HistOk(g) && NodeOk(app, g, v, n) && n.role == Follower && n.currentTerm == a.term
    requires AppendArgsOk(g.h, src, a) && v in g.h.log && Aligned(n.st, g.h.log[v], g.h.ll[a.term], a, skip)
    ensures NodeStep(app, g, g2, v, n, Success(n, a, skip))
    ensures AckAtLeast(g2.h, v, a.term, a.prevLogIndex + |a.entries|)
  {
    hide HistOk, NodeOk, NodeStep;
    AcceptedIsSplice(n, g.h.log[v], g.h.ll[a.term], a, skip);
    g2 := AcceptedStep(app, g, v, n, src, a, skip);
    if FirstNew(n.st, a.entries, skip) < |a.entries| {
      g2 := ThenReconcile(app, g, g2, v, n, AcceptedNode(n, g.h.log[v], g.h.ll[a.term], a, skip));
    }
  }

  lemma ThenReconcile(app: App, g: Ghost, g1: Ghost, v: NodeId, n: Node, m: Node) returns (g2: Ghost)
    requires NodeStep(app, g, g1, v, n, m) && m.st.log != []
    ensures NodeStep(app, g, g2, v, n, Reconcile(m)) && g2 == g1
  {
    hide HistOk, HistBy, NodeOk, Moves;
    ReconcileOk(app, g1, v, m);
    MovesTrans(n, m, Reconcile(m));
    g2 := g1;
  }

  /** Entries that lie wholly inside the follower's snapshot are already there. */
  lemma CoveredStep(app: App, g: Ghost, v: NodeId, n: Node, m: nat) returns (g2: Ghost)
    requires HistOk(g) && NodeOk(app, g, v, n) && n.role == Follower && n.currentTerm in g.h.ll && m <= n.commitIndex
    ensures NodeStep(app, g, g2, v, n, n) && AckAtLeast(g2.h, v, n.currentTerm, m)
  {
    var full, t := g.h.log[v], n.currentTerm;
    assert LogOk(g.h, v);
    CommittedInLeader(g.h, full[..n.commitIndex], t, t);
    assert full[..m] == full[..n.commitIndex][..m] == g.h.ll[t][..m];
    assert S.Acceptable(g.h, v, full, m);
    g2 := AcceptStep(app, g, v, n, full, m, n);
  }

  lemma FollowStep(app: App, g: Ghost, v: NodeId, n: Node, t: nat) returns (g2: Ghost)
    requires HistOk(g) && NodeOk(app, g, v, n) && n.currentTerm <= t
    ensures NodeStep(app, g, g2, v, n, Follow(n, t)) && g2 == TermGhost(g, v, n, t)
    ensures S.Grows(g.h, g2.h) && Follow(n, t).currentTerm == t && Follow(n, t).role == Follower && Follow(n, t).st == n.st
    ensures Follow(n, t).recv == n.recv && Follow(n, t).commitIndex == n.commitIndex && Follow(n, t).lastApplied == n.lastApplied
  {
    hide HistOk, NodeOk, Moves, S.Grows;
    FollowOk(app, g, v, n, t);
    g2 := TermGhost(g, v, n, t);
  }

  lemma FollowedAppend(app: App, g: Ghost, v: NodeId, n: Node, src: NodeId, a: AppendArgs, io: bool) returns (g2: Ghost)
    requires HistOk(g) && NodeOk(app, g, v, n) && n.role == Follower && n.currentTerm == a.term
    requires AppendArgsOk(g.h, src, a)
    ensures Valid(n) && AppendOutcome(app, g, g2, v, n, a, AppendFollowing(n, a, io))
  {
    hide HistOk, NodeOk, AppendFrom, AppendArgsOk, Valid, NodeStep, WellFormed;
    BallotOk(app, g, v, n, n.ballot);
    SnapshotFacts(app, g, v, n, src, a);
    if a.prevLogIndex >= n.st.snapIndex {
      g2 := AppendFromStep(app, g, v, n, src, a, a.prevLogIndex, a.prevLogTerm, 0, io);
    } else if a.prevLogIndex + |a.entries| <= n.st.snapIndex {
      g2 := CoveredStep(app, g, v, n, a.prevLogIndex + |a.entries|);
    } else {
      g2 := AppendFromStep(app, g, v, n, src, a, n.st.snapIndex, n.st.snapTerm, n.st.snapIndex - a.prevLogIndex, io);
    }
  }

  lemma SnapshotFacts(app: App, g: Ghost, v: NodeId, n: Node, src: NodeId, a: AppendArgs)
    requires HistOk(g) && NodeOk(app, g, v, n) && n.currentTerm == a.term && AppendArgsOk(g.h, src, a)
    ensures a.term in g.h.ll && WellFormed(a)
    ensures a.prevLogIndex <= |g.h.ll[a.term]| && a.prevLogTerm == TermOf(g.h.ll[a.term], a.prevLogIndex)
    ensures n.st.snapIndex <= |g.h.ll[a.term]| && n.st.snapTerm == TermOf(g.h.ll[a.term], n.st.snapIndex)
    ensures Valid(n) && n.st.snapIndex <= n.commitIndex
  {
    var full, t := g.h.log[v], a.term;
    CommittedInLeader(g.h, full[..n.commitIndex], t, t);
    if n.st.snapIndex > 0 {
      assert full[n.st.snapIndex - 1] == full[..n.commitIndex][n.st.snapIndex - 1];
    }
  }

  lemma HandleAppendStep(app: App, g: Ghost, v: NodeId, n: Node, m: Msg, io: bool) returns (g2: Ghost)
    requires HistOk(g) && MarksKnown(g) && NodeOk(app, g, v, n) && m.AppReq? && m.dst == v && MsgOk(app, g, m)
    requires Valid(n) && WellFormed(m.app)
    ensures var out := OnAppendEntries(n, m.app, io);
      NodeStep(app, g, g2, v, n, out.0) && MsgOk(app, g2, AppRep(v, m.src, m.round, m.app, out.1))
  {
    var a := m.app;
    var out := OnAppendEntries(n, a, io);
    BallotOk(app, g, v, n, n.ballot);
    NodeStepRefl(app, g, v, n, n);
    hide HistOk, NodeOk, HistBy, Moves, AppendArgsOk, AppendFollowing, MarksKnown, S.Grows;
    if a.term < n.currentTerm {
      g2 := g;
    } else {
      var g1 := FollowStep(app, g, v, n, a.term);
      AppendArgsGrow(g.h, g1.h, m.src, a);
      g2 := FollowedAppend(app, g1, v, Follow(n, a.term), m.src, a, io);
      NodeStepTrans(app, g, g1, g2, v, n, Follow(n, a.term), out.0);
    }
    ReplyOk(app, g, g2, v, n, out.0, m, out.1);
  }

  lemma ReplyOk(app: App, g: Ghost, g2: Ghost, v: NodeId, n: Node, n2: Node, m: Msg, r: AppendReply)
    requires NodeStep(app, g, g2, v, n, n2) && MarksKnown(g) && m.AppReq? && m.dst == v && MsgOk(app, g, m)
    requires r.success ==> AckAtLeast(g2.h, v, m.app.term, m.app.prevLogIndex + |m.app.entries|)
    requires r.term <= m.app.term ==> n2.currentTerm == m.app.term
    ensures MsgOk(app, g2, AppRep(v, m.src, m.round, m.app, r))
  {
    ExtendsByHist(g, g2.h, v);
    MarksKnownCarry(g, g2, v);
    if r.term <= m.app.term { MarksOfReply(g2, v, m.src, m.app.term, m.round); }
    AppRepOk(app, g, g2, v, m, r);
  }

  // ---------- sending ----------

  function RoundGhost(g: Ghost, t: nat, round: nat): Ghost {
    g.(hb := g.hb[t := round])
  }

  lemma RoundGhostOk(app: App, g: Ghost, v: NodeId, n: Node)
    requires HistOk(g) && NodeOk(app, g, v, n) && n.role == Leader
    ensures var g2 := RoundGhost(g, n.currentTerm, n.hbRound);
      HistOk(g2) && Extends(g, g2, v) && NodeOk(app, g2, v, n) && FromLeader(g2.h, v, n.currentTerm)
  {
    HistByRefl(g.h, v);
    var g2 := RoundGhost(g, n.currentTerm, n.hbRound);
    forall p | p in n.peers ensures PeerOk(g2, n.currentTerm, p, n.peers[p]) {
      assert PeerOk(g, n.currentTerm, p, n.peers[p]);
    }
  }

  lemma MakeAppendOk(app: App, g: Ghost, v: NodeId, n: Node, p: NodeId, maxEntries: nat)
    requires HistOk(g) && NodeOk(app, g, v, n) && CanAppend(n, p) && Valid(n)
    ensures AppendArgsOk(g.h, v, MakeAppend(n, p, maxEntries))
  {
    SentFromLog(n, p, maxEntries, g.h.log[v]);
    hide HistOk;
  }

  /** What is sent is a piece of the leader's full log. */
  lemma SentFromLog(n: Node, p: NodeId, maxEntries: nat, full: Log)
    requires Valid(n) && CanAppend(n, p) && Rep(n.st, full)
    ensures var a := MakeAppend(n, p, maxEntries);
      && WellFormed(a) && a.prevLogIndex + |a.entries| <= |full|
      && a.entries == full[a.prevLogIndex..a.prevLogIndex + |a.entries|]
      && a.prevLogTerm == TermOf(full, a.prevLogIndex)
  {
    RepFacts(n.st, full);
    var a := MakeAppend(n, p, maxEntries);
    var ni := a.prevLogIndex + 1;
    var from := ni - n.st.snapIndex;
    assert a.entries == n.st.log[from..from + |a.entries|];
    forall k | 0 <= k < |a.entries| ensures a.entries[k] == full[a.prevLogIndex + k] && a.entries[k].index == ni + k {
      assert a.entries[k] == n.st.log[from + k];
    }
    assert TermAt(n.st, ni - 1) == TermOf(full, ni - 1);
  }

  // ---------- the reply ----------

  lemma AckedReads(g: Ghost, v: NodeId, sv: Server, p: NodeId, q: Peer, round: nat, replyTerm: nat)
    requires ReadsOk(g, v, sv) && MarksOk(g, p, v, sv.n.currentTerm, round, replyTerm) && replyTerm <= sv.n.currentTerm
    requires p in sv.n.peers && q.ackRound == Max(sv.n.peers[p].ackRound, round)
    ensures ReadsOk(g, v, sv.(n := sv.n.(peers := sv.n.peers[p := q])))
  {
    var sv2 := sv.(n := sv.n.(peers := sv.n.peers[p := q]));
    forall id | id in sv2.pending ensures ReadOk(g, v, sv2.n, id, sv2.pending[id]) {
      assert ReadOk(g, v, sv.n, id, sv.pending[id]);
    }
  }

  /** A leader records what one peer told it. */
  lemma PeerUpdated(app: App, g: Ghost, v: NodeId, sv: Server, p: NodeId, q: Peer, round: nat, replyTerm: nat)
    requires ServerOk(app, g, v, sv) && sv.n.role == Leader && p in sv.n.peers
    requires RoundOk(g, sv.n.currentTerm, round) && replyTerm <= sv.n.currentTerm
    requires MarksOk(g, p, v, sv.n.currentTerm, round, replyTerm)
    requires q.ackRound == Max(sv.n.peers[p].ackRound, round) && q.nextIndex > 0 && PeerOk(g, sv.n.currentTerm, p, q)
    ensures ServerOk(app, g, v, sv.(n := sv.n.(peers := sv.n.peers[p := q])))
  {
    hide PeerOk;
    var n := sv.n;
    var n2 := n.(peers := n.peers[p := q]);
    forall w | w in n2.peers ensures PeerOk(g, n.currentTerm, w, n2.peers[w]) {
      assert w != p ==> PeerOk(g, n.currentTerm, w, n.peers[w]);
    }
    AckedReads(g, v, sv, p, q, round, replyTerm);
  }

  lemma ServerFacts(app: App, g: Ghost, v: NodeId, sv: Server)
    requires ServerOk(app, g, v, sv)
    ensures NodeOk(app, g, v, sv.n) && CommitInLog(sv.n) && v in g.h.term && v in g.h.log && Valid(sv.n)
  {
  }

  /** The server-level form of a node step. */
  lemma ServerStep(app: App, g: Ghost, g2: Ghost, v: NodeId, sv: Server, n2: Node)
    requires ServerOk(app, g, v, sv) && NodeStep(app, g, g2, v, sv.n, n2)
    ensures Extends(g, g2, v) && ServerOk(app, g2, v, sv.(n := n2))
  {
    ExtendsByHist(g, g2.h, v);
    ServerFromNode(app, g, g2, v, sv, n2);
  }

  lemma LeaderPeer(app: App, g: Ghost, v: NodeId, sv: Server, p: NodeId)
    requires ServerOk(app, g, v, sv) && sv.n.role == Leader && p in sv.n.peers
    ensures PeerOk(g, sv.n.currentTerm, p, sv.n.peers[p]) && sv.n.peers[p].nextIndex > 0
  {
  }

  /** A reply of a later term. */
  lemma OutdatedStep(app: App, g: Ghost, v: NodeId, sv: Server, term: nat) returns (g2: Ghost)
    requires HistOk(g) && ServerOk(app, g, v, sv)
    ensures HistOk(g2) && Extends(g, g2, v) && ServerOk(app, g2, v, sv.(n := StepDown(sv.n, term))) && g2 == g.(h := g2.h)
  {
    ServerFacts(app, g, v, sv);
    g2 := StepDownStep(app, g, v, sv.n, term);
    hide HistOk, ServerOk, NodeOk, StepDown, HistBy, Extends;
    ServerStep(app, g, g2, v, sv, StepDown(sv.n, term));
  }

  lemma NoStep(g: Ghost, v: NodeId)
    ensures Extends(g, g, v)
  {
    HistByRefl(g.h, v);
    ExtendsByHist(g, g.h, v);
  }

  /** The peer after a reply of the leader's own term. */
  function Heard(n: Node, p: NodeId, round: nat, a: AppendArgs, r: AppendReply): Peer
    requires p in n.peers
  {
    var acked := AckedPeer(n.peers[p], round);
    if r.success then Matched(acked, a.prevLogIndex + |a.entries|)
    else if Transient(a, r) then acked else acked.(nextIndex := BackedUp(n.st, a, r))
  }

  lemma HeardStep(app: App, g: Ghost, v: NodeId, sv: Server, m: Msg) returns (g2: Ghost)
    requires HistOk(g) && ServerOk(app, g, v, sv) && m.AppRep? && m.dst == v && MsgOk(app, g, m) && CommitInLog(sv.n)
    requires m.appReply.term <= sv.n.currentTerm && sv.n.role == Leader && sv.n.currentTerm == m.app.term && m.src in sv.n.peers
    ensures HistOk(g2) && Extends(g, g2, v) && g2 == g.(h := g2.h)
    ensures var n1 := sv.n.(peers := sv.n.peers[m.src := Heard(sv.n, m.src, m.round, m.app, m.appReply)]);
      ServerOk(app, g2, v, sv.(n := if m.appReply.success then AdvanceCommit(n1) else n1))
  {
    var n, p := sv.n, m.src;
    LeaderPeer(app, g, v, sv, p);
    var q := Heard(n, p, m.round, m.app, m.appReply);
    hide HistOk, ServerOk, Extends, AdvanceCommit;
    PeerUpdated(app, g, v, sv, p, q, m.round, m.appReply.term);
    NoStep(g, v);
    g2 := g;
    if m.appReply.success {
      g2 := CommitServer(app, g, v, sv.(n := n.(peers := n.peers[p := q])));
    }
  }

  lemma AppendBackStep(app: App, g: Ghost, v: NodeId, sv: Server, m: Msg) returns (g2: Ghost)
    requires HistOk(g) && ServerOk(app, g, v, sv) && m.AppRep? && m.dst == v && MsgOk(app, g, m) && CommitInLog(sv.n)
    ensures HistOk(g2) && Extends(g, g2, v)
    ensures ServerOk(app, g2, v, sv.(n := OnAppendReply(sv.n, m.src, m.round, m.app, m.appReply))) && g2 == g.(h := g2.h)
  {
    hide HistOk, ServerOk, Extends, MsgOk, AdvanceCommit, StepDown;
    NoStep(g, v);
    g2 := g;
    if m.appReply.term > sv.n.currentTerm {
      g2 := OutdatedStep(app, g, v, sv, m.appReply.term);
    } else if sv.n.role == Leader && sv.n.currentTerm == m.app.term && m.src in sv.n.peers {
      g2 := HeardStep(app, g, v, sv, m);
    }
  }

  lemma CommitServer(app: App, g: Ghost, v: NodeId, sv: Server) returns (g2: Ghost)
    requires HistOk(g) && ServerOk(app, g, v, sv) && CommitInLog(sv.n)
    ensures HistOk(g2) && Extends(g, g2, v) && ServerOk(app, g2, v, sv.(n := AdvanceCommit(sv.n)))
    ensures g2 == g.(h := g2.h)
  {
    ServerFacts(app, g, v, sv);
    BallotOk(app, g, v, sv.n, sv.n.ballot);
    NodeStepRefl(app, g, v, sv.n, sv.n);
    hide HistOk, NodeOk, Moves, ServerOk, Extends;
    g2 := ThenCommit(app, g, g, v, sv.n, sv.n);
    ServerStep(app, g, g2, v, sv, AdvanceCommit(sv.n));
  }
}
