/** Fast log rollback: how a leader finds where a follower's log leaves its own. */
module RaftRollback {
  import opened Wrappers
  import opened RaftTypes
  import opened RaftState
  import opened RaftCluster
  import opened RaftHistory
  import S = RaftSteps
  import opened RaftGhost
  import opened RaftRefineBase
  import opened RaftRefineAppend
  import opened RaftInduction
  import opened RaftSafety

  /** Terms are positive and never fall along a log. */
  ghost predicate Monotone(f: Log) {
    forall i, j :: 0 <= i <= j < |f| ==> 0 < f[i].term <= f[j].term
  }

  /** Logs that agree on the term at an index agree up to it. */
  ghost predicate Matched(a: Log, b: Log) {
    forall i {:trigger a[i], b[i]} :: 0 <= i < |a| && i < |b| && a[i].term == b[i].term ==> a[..i + 1] == b[..i + 1]
  }

  /** Leader store l of full log a, follower store f of full log b, and where they part. */
  ghost predicate Parting(l: Store, a: Log, f: Store, b: Log, d: nat) {
    && Rep(l, a) && Rep(f, b) && Monotone(a) && Monotone(b) && Matched(a, b) && IsLcp(a, b, d)
    && f.snapIndex <= d && (l.snapIndex == 0 || l.snapIndex < d)
  }

  /** The follower's consistency check on the entry before the new ones. */
  predicate Accepts(f: Store, prev: nat, prevTerm: nat)
    requires f.snapIndex <= prev
  {
    prev <= LastIndex(f) && TermAt(f, prev) == prevTerm
  }

  /** Its answer when the check fails. */
  function Conflict(f: Store, term: nat, prev: nat): AppendReply
    requires LogShape(f) && f.snapIndex <= prev
  {
    if prev > LastIndex(f) then AppendReply(term, false, LastIndex(f) + 1, 0)
    else AppendReply(term, false, RunStart(f, prev), TermAt(f, prev))
  }

  lemma {:induction false} RunStartIs(f: Store, i: nat)
    requires LogShape(f) && InLog(f, i) && i > f.snapIndex
    ensures f.snapIndex < RunStart(f, i) <= i
    ensures forall k :: RunStart(f, i) <= k <= i ==> TermAt(f, k) == TermAt(f, i)
    ensures RunStart(f, i) == f.snapIndex + 1 || TermAt(f, RunStart(f, i) - 1) != TermAt(f, i)
    decreases i
  {
    if i > f.snapIndex + 1 && TermAt(f, i - 1) == TermAt(f, i) { RunStartIs(f, i - 1); }
  }

  lemma {:induction false} LastOfTermIs(s: Store, i: int, term: nat)
    requires LogShape(s) && i <= LastIndex(s)
    ensures match LastOfTerm(s, i, term)
      case Some(k) => s.snapIndex < k <= i && TermAt(s, k) == term && forall j :: k < j <= i ==> TermAt(s, j) != term
      case None => forall j :: s.snapIndex < j <= i ==> TermAt(s, j) != term
    decreases i
  {
    if i > s.snapIndex && TermAt(s, i) != term { LastOfTermIs(s, i - 1, term); }
  }

  /** The follower accepts exactly when the leader probes at or before the parting point. */
  lemma AcceptsIff(l: Store, a: Log, f: Store, b: Log, d: nat, prev: nat)
    requires Parting(l, a, f, b, d) && f.snapIndex <= prev <= |a|
    ensures Accepts(f, prev, TermOf(a, prev)) <==> prev <= d
  {
    RepFacts(f, b);
    if prev <= |b| {
      assert TermAt(f, prev) == TermOf(b, prev);
      if prev <= d {
        assert prev > 0 ==> a[prev - 1] == a[..d][prev - 1] == b[prev - 1];
      } else {
        assert a[prev - 1].term == b[prev - 1].term ==> a[..prev] == b[..prev];
        ApartAfter(a, b, d, prev);
      }
    }
  }

  lemma ApartAfter(a: Log, b: Log, d: nat, k: nat)
    requires IsLcp(a, b, d) && d < k <= |a| && k <= |b|
    ensures a[..k] != b[..k]
  {
    assert a[..k][d] == a[d] && b[..k][d] == b[d];
  }

  /** A conflict is never mistaken for the answer of a follower that could not persist. */
  lemma ConflictIsNotTransient(f: Store, b: Log, args: AppendArgs, term: nat)
    requires Rep(f, b) && Monotone(b) && f.snapIndex <= args.prevLogIndex && (args.prevLogIndex == 0 ==> args.prevLogTerm == 0)
    requires !Accepts(f, args.prevLogIndex, args.prevLogTerm)
    ensures !Transient(args, Conflict(f, term, args.prevLogIndex))
  {
    RepFacts(f, b);
    if args.prevLogIndex <= |b| {
      assert TermAt(f, args.prevLogIndex) == TermOf(b, args.prevLogIndex);
    }
  }

  /** Every rejection moves the probe strictly back, never past the parting point. */
  lemma RejectionBacksUp(l: Store, a: Log, f: Store, b: Log, d: nat, args: AppendArgs, term: nat)
    requires Parting(l, a, f, b, d) && f.snapIndex <= args.prevLogIndex <= |a|
    requires args.prevLogTerm == TermOf(a, args.prevLogIndex)
    requires !Accepts(f, args.prevLogIndex, args.prevLogTerm)
    ensures d < BackedUp(l, args, Conflict(f, term, args.prevLogIndex)) <= args.prevLogIndex
  {
    var prev := args.prevLogIndex;
    RepFacts(f, b);
    RepFacts(l, a);
    AcceptsIff(l, a, f, b, d, prev);
    if prev <= |b| {
      assert TermAt(f, prev) == TermOf(b, prev);
      RunStartIs(f, prev);
      LastOfTermIs(l, prev, TermAt(f, prev));
      BackedUpToRun(l, a, f, b, d, prev);
    }
  }

  /** With the follower's conflicting term ct: the leader's last entry of ct, or
      else the start of the follower's run of ct, lies after the parting point. */
  lemma BackedUpToRun(l: Store, a: Log, f: Store, b: Log, d: nat, prev: nat)
    requires Parting(l, a, f, b, d) && d < prev <= |a| && prev <= |b| && InLog(f, prev) && prev <= LastIndex(l)
    requires TermAt(f, prev) == b[prev - 1].term != a[prev - 1].term
    ensures var ct := TermAt(f, prev); ct > 0
    ensures match LastOfTerm(l, prev, TermAt(f, prev))
      case Some(k) => d <= k < prev
      case None => d < RunStart(f, prev) <= prev
  {
    var ct := TermAt(f, prev);
    RepFacts(f, b);
    RepFacts(l, a);
    RunStartIs(f, prev);
    LastOfTermIs(l, prev, ct);
    match LastOfTerm(l, prev, ct)
    case Some(k) =>
      assert TermAt(l, prev) == TermOf(a, prev) && TermAt(l, k) == TermOf(a, k);
      if k < d { CommonTerm(l, a, b, d, k, prev); }
    case None =>
      var start := RunStart(f, prev);
      if start <= d { RunInLeader(l, a, f, b, d, start, ct); }
  }

  lemma CommonTerm(l: Store, a: Log, b: Log, d: nat, k: nat, prev: nat)
    requires Rep(l, a) && Monotone(a) && Monotone(b) && IsLcp(a, b, d) && 0 < k < d < prev <= |b| && l.snapIndex < k
    requires a[k - 1].term == b[prev - 1].term
    ensures InLog(l, d) && TermAt(l, d) == b[prev - 1].term
  {
    RepFacts(l, a);
    assert a[d - 1] == a[..d][d - 1] == b[d - 1];
    assert TermAt(l, d) == TermOf(a, d);
  }

  lemma RunInLeader(l: Store, a: Log, f: Store, b: Log, d: nat, start: nat, ct: nat)
    requires Parting(l, a, f, b, d) && f.snapIndex < start <= d && InLog(f, start) && TermAt(f, start) == ct
    requires forall k :: start <= k <= d ==> InLog(f, k) && TermAt(f, k) == ct
    ensures InLog(l, d) && l.snapIndex < d && TermAt(l, d) == ct
  {
    RepFacts(l, a);
    RepFacts(f, b);
    assert TermAt(f, d) == TermOf(b, d) && TermAt(l, d) == TermOf(a, d);
    assert a[d - 1] == a[..d][d - 1] == b[d - 1];
  }

  // ---------- probing until the follower accepts ----------

  function ProbeArgs(l: Store, next: nat): AppendArgs
    requires LogShape(l) && l.snapIndex < next <= LastIndex(l) + 1
  {
    AppendArgs(0, 0, next - 1, TermAt(l, next - 1), [], 0)
  }

  /** The next index at which the follower accepts, starting from `next`. */
  ghost function Probe(l: Store, a: Log, f: Store, b: Log, d: nat, next: nat): nat
    requires Parting(l, a, f, b, d) && d < next <= |a| + 1
    decreases next
  {
    RepFacts(l, a);
    var args := ProbeArgs(l, next);
    assert TermAt(l, next - 1) == TermOf(a, next - 1);
    if Accepts(f, next - 1, args.prevLogTerm) then next
    else
      RejectionBacksUp(l, a, f, b, d, args, 0);
      Probe(l, a, f, b, d, BackedUp(l, args, Conflict(f, 0, next - 1)))
  }

  /** The probes end exactly after the longest common prefix. */
  lemma {:induction false} ProbesEndAtMatch(l: Store, a: Log, f: Store, b: Log, d: nat, next: nat)
    requires Parting(l, a, f, b, d) && d < next <= |a| + 1
    ensures Probe(l, a, f, b, d, next) == d + 1
    decreases next
  {
    RepFacts(l, a);
    var args := ProbeArgs(l, next);
    assert TermAt(l, next - 1) == TermOf(a, next - 1);
    AcceptsIff(l, a, f, b, d, next - 1);
    if next > d + 1 {
      RejectionBacksUp(l, a, f, b, d, args, 0);
      ProbesEndAtMatch(l, a, f, b, d, BackedUp(l, args, Conflict(f, 0, next - 1)));
    }
  }

  // ---------- the handlers of a running cluster ----------

  /** What a failed answer to entries above the snapshot tells: a conflict, a refusal, or a failed write. */
  lemma FailureIs(n: Node, b: Log, a: AppendArgs, io: bool)
    requires Valid(n) && Rep(n.st, b) && Monotone(b) && WellFormed(a) && n.st.snapIndex <= a.prevLogIndex
    requires a.prevLogIndex == 0 ==> a.prevLogTerm == 0
    requires !AppendFrom(n, a, a.prevLogIndex, a.prevLogTerm, 0, io).1.success
    ensures var r := AppendFrom(n, a, a.prevLogIndex, a.prevLogTerm, 0, io).1;
      var i := FirstNew(n.st, a.entries, 0);
      && (!Accepts(n.st, a.prevLogIndex, a.prevLogTerm) ==>
            r == Conflict(n.st, n.currentTerm, a.prevLogIndex) && !Transient(a, r))
      && (Accepts(n.st, a.prevLogIndex, a.prevLogTerm) ==>
            i < |a.entries| && (Transient(a, r) <==> !io && n.commitIndex < a.entries[i].index))
  {
    if !Accepts(n.st, a.prevLogIndex, a.prevLogTerm) {
      ConflictIsNotTransient(n.st, b, a, n.currentTerm);
    } else {
      FirstNewAt(n.st, a, 0);
    }
  }

  lemma RunLogs(app: App, r: Run, gs: seq<Ghost>, i: nat, v: NodeId)
    requires Witness(app, r, gs) && At(r, i, v)
    ensures var n := ServerAt(r, i, v).n;
      var full := FullLog(app, n.st);
      && Monotone(full) && Rep(n.st, full) && Pref(gs[i].h, full)
      && v in gs[i].h.log && full == gs[i].h.log[v] && NodeOk(app, gs[i], v, n)
      && n.st.snapIndex <= n.commitIndex
    ensures HistOk(gs[i]) && InvLeaderLogs(gs[i].h)
  {
    GhostAt(app, r, gs, i, v);
    var h, n := gs[i].h, ServerAt(r, i, v).n;
    FullLogIs(app, gs[i], v, n);
    var full := FullLog(app, n.st);
    assert LogOk(h, v);
    forall j, k | 0 <= j <= k < |full| ensures 0 < full[j].term <= full[k].term {
      PrefixOfLeader(h, full, j);
      LogTermsMonotone(h, full, j, k);
    }
  }

  /** The log of a leader and the one any server, not past its term, had then or
      earlier part as Parting describes, as long as the leader has not compacted its log. */
  lemma LogsPart(app: App, base: Membership, r: Run, gs: seq<Ghost>, j: nat, u: NodeId, k: nat, v: NodeId, t: nat) returns (d: nat)
    requires CleanRun(app, base, r) && Witness(app, r, gs) && j <= k && At(r, j, u) && LeaderAt(r, k, v, t)
    requires ServerAt(r, j, u).n.currentTerm <= t && ServerAt(r, k, v).n.st.snapIndex == 0
    ensures var l, f := ServerAt(r, k, v).n.st, ServerAt(r, j, u).n.st;
      Parting(l, FullLog(app, l), f, FullLog(app, f), d)
  {
    RunLogs(app, r, gs, k, v);
    RunLogs(app, r, gs, j, u);
    FullLogPref(app, r, gs, j, u, k);
    LeaderCompleteness(app, base, r, j, u, k, v, t);
    var l, n := ServerAt(r, k, v).n.st, ServerAt(r, j, u).n;
    hide *;
    d := PartingPoint(gs[k].h, l, FullLog(app, l), n.st, FullLog(app, n.st), n.commitIndex);
  }

  lemma PartingPoint(h: Hist, l: Store, a: Log, f: Store, b: Log, commit: nat) returns (d: nat)
    requires InvLeaderLogs(h) && Pref(h, a) && Pref(h, b) && Rep(l, a) && Rep(f, b) && Monotone(a) && Monotone(b)
    requires f.snapIndex <= commit <= |b| && b[..commit] <= a && l.snapIndex == 0
    ensures Parting(l, a, f, b, d)
  {
    LogsMatched(h, a, b);
    d := LcpExists(a, b, 0);
    CommonIsShort(a, b, d, commit);
  }

  lemma LogsMatched(h: Hist, a: Log, b: Log)
    requires InvLeaderLogs(h) && Pref(h, a) && Pref(h, b)
    ensures Matched(a, b)
  {
    forall k {:trigger a[k], b[k]} | 0 <= k < |a| && k < |b| && a[k].term == b[k].term ensures a[..k + 1] == b[..k + 1] {
      Matching(h, a, b, k);
    }
  }

  /** f rejects what n sends u, for another reason than a failed write. */
  ghost predicate Rejected(n: Node, u: NodeId, f: Node, maxEntries: nat, io: bool) {
    && Valid(n) && Valid(f) && CanAppend(n, u) && WellFormed(MakeAppend(n, u, maxEntries))
    && var a := MakeAppend(n, u, maxEntries);
    var reply := OnAppendEntries(f, a, io).1;
    !reply.success && !Transient(a, reply)
  }

  /** The leader, by now l, probes strictly lower next, yet above every index up
      to which its log agrees with the one that the follower had. */
  ghost predicate BacksUpToMatch(app: App, n: Node, u: NodeId, f: Node, l: Node, maxEntries: nat, io: bool)
    requires Rejected(n, u, f, maxEntries, io)
  {
    var a := MakeAppend(n, u, maxEntries);
    var next := BackedUp(l.st, a, OnAppendEntries(f, a, io).1);
    next <= a.prevLogIndex && AboveCommon(FullLog(app, l.st), FullLog(app, f.st), next)
  }

  ghost predicate AboveCommon(a: Log, b: Log, next: nat) {
    forall k :: 0 <= k <= |a| && k <= |b| && a[..k] == b[..k] ==> k < next
  }

  /** In every run: a request made at moment i, rejected at j and heard of at k,
      as long as the leader has not compacted its log by then. */
  lemma RollbackInRuns(app: App, base: Membership, r: Run, i: nat, j: nat, k: nat, v: NodeId, u: NodeId, t: nat, maxEntries: nat, io: bool)
    requires CleanRun(app, base, r) && i <= j <= k && LeaderAt(r, i, v, t) && LeaderAt(r, k, v, t) && At(r, j, u)
    requires ServerAt(r, j, u).n.currentTerm <= t && ServerAt(r, k, v).n.st.snapIndex == 0
    requires Rejected(ServerAt(r, i, v).n, u, ServerAt(r, j, u).n, maxEntries, io)
    ensures BacksUpToMatch(app, ServerAt(r, i, v).n, u, ServerAt(r, j, u).n, ServerAt(r, k, v).n, maxEntries, io)
  {
    hide Rejected, BacksUpToMatch, CleanRun, ServerAt;
    var gs := EveryRunHasWitness(app, base, r);
    RunLogs(app, r, gs, i, v);
    RunLogs(app, r, gs, j, u);
    GrowsOver(app, r, gs, i, j);
    LeaderAppendOnly(app, base, r, i, k, v, t);
    var n, f, l := ServerAt(r, i, v).n, ServerAt(r, j, u).n, ServerAt(r, k, v).n;
    var d := LogsPart(app, base, r, gs, j, u, k, v, t);
    hide *;
    RejectionAt(app, gs[i], gs[j], v, n, u, f, l, d, maxEntries, io);
  }

  /** What is known of the request when it is answered. */
  lemma RequestAt(app: App, g: Ghost, gf: Ghost, v: NodeId, n: Node, u: NodeId, maxEntries: nat)
    requires HistOk(g) && NodeOk(app, g, v, n) && Rep(n.st, FullLog(app, n.st)) && S.Grows(g.h, gf.h)
    requires Valid(n) && CanAppend(n, u)
    ensures var a := MakeAppend(n, u, maxEntries);
      && AppendArgsOk(gf.h, v, a) && a.term == n.currentTerm
      && a.prevLogIndex <= |FullLog(app, n.st)| && a.prevLogTerm == TermOf(FullLog(app, n.st), a.prevLogIndex)
  {
    hide HistOk, NodeOk, FullLog, AppendArgsOk, MakeAppend, Valid, S.Grows, Rep;
    MakeAppendOk(app, g, v, n, u, maxEntries);
    AppendArgsGrow(g.h, gf.h, v, MakeAppend(n, u, maxEntries));
    MakeAppendAt(n, u, maxEntries, FullLog(app, n.st));
  }

  lemma RejectionAt(app: App, g: Ghost, gf: Ghost, v: NodeId, n: Node, u: NodeId, f: Node, l: Node, d: nat, maxEntries: nat, io: bool)
    requires HistOk(g) && NodeOk(app, g, v, n) && Rep(n.st, FullLog(app, n.st)) && S.Grows(g.h, gf.h)
    requires HistOk(gf) && NodeOk(app, gf, u, f) && f.currentTerm <= n.currentTerm
    requires u in gf.h.log && FullLog(app, f.st) == gf.h.log[u] && FullLog(app, n.st) <= FullLog(app, l.st)
    requires Parting(l.st, FullLog(app, l.st), f.st, FullLog(app, f.st), d) && Rejected(n, u, f, maxEntries, io)
    ensures BacksUpToMatch(app, n, u, f, l, maxEntries, io)
  {
    hide HistOk, NodeOk, FullLog, AppendArgsOk, MakeAppend, Valid, OnAppendEntries, Transient, S.Grows, Rep, Parting,
      WellFormed, BackedUp, AboveCommon, Conflict, Accepts, CanAppend, Monotone, LogShape;
    PartingFacts(l.st, FullLog(app, l.st), f.st, FullLog(app, f.st), d);
    RequestAt(app, g, gf, v, n, u, maxEntries);
    FollowerRejects(app, gf, u, f, v, MakeAppend(n, u, maxEntries), io);
    RejectedBelow(l.st, FullLog(app, l.st), f.st, FullLog(app, f.st), d, MakeAppend(n, u, maxEntries), n.currentTerm);
  }

  lemma PartingFacts(l: Store, a: Log, f: Store, b: Log, d: nat)
    requires Parting(l, a, f, b, d)
    ensures Monotone(b)
  {
  }

  lemma RejectedBelow(l: Store, a: Log, f: Store, b: Log, d: nat, args: AppendArgs, term: nat)
    requires Parting(l, a, f, b, d) && f.snapIndex <= args.prevLogIndex <= |a|
    requires args.prevLogTerm == TermOf(a, args.prevLogIndex)
    requires !Accepts(f, args.prevLogIndex, args.prevLogTerm)
    ensures var next := BackedUp(l, args, Conflict(f, term, args.prevLogIndex));
      next <= args.prevLogIndex && AboveCommon(a, b, next)
  {
    RejectionBacksUp(l, a, f, b, d, args, term);
    forall k | 0 <= k <= |a| && k <= |b| && a[..k] == b[..k] ensures k <= d {
      CommonIsShort(a, b, d, k);
    }
  }

  lemma MakeAppendAt(n: Node, p: NodeId, maxEntries: nat, full: Log)
    requires Valid(n) && CanAppend(n, p) && Rep(n.st, full)
    ensures var a := MakeAppend(n, p, maxEntries);
      a.term == n.currentTerm && a.prevLogIndex <= |full| && a.prevLogTerm == TermOf(full, a.prevLogIndex)
  {
    RepFacts(n.st, full);
    var a := MakeAppend(n, p, maxEntries);
    assert TermAt(n.st, a.prevLogIndex) == TermOf(full, a.prevLogIndex);
  }

  /** A follower that is not past its leader's term refuses nothing but a
      conflict or a failed write. */
  lemma FollowerRejects(app: App, g: Ghost, u: NodeId, f: Node, src: NodeId, a: AppendArgs, io: bool)
    requires HistOk(g) && NodeOk(app, g, u, f) && f.currentTerm <= a.term && AppendArgsOk(g.h, src, a) && Valid(f)
    requires u in g.h.log && Monotone(g.h.log[u])
    requires var r := OnAppendEntries(f, a, io).1; !r.success && !Transient(a, r)
    ensures f.st.snapIndex <= a.prevLogIndex && !Accepts(f.st, a.prevLogIndex, a.prevLogTerm)
    ensures LogShape(f.st) && OnAppendEntries(f, a, io).1 == Conflict(f.st, a.term, a.prevLogIndex)
  {
    var g1 := FollowStep(app, g, u, f, a.term);
    AppendArgsGrow(g.h, g1.h, src, a);
    hide HistOk, HistBy, S.Grows, NodeOk, Moves, AppendArgsOk, Monotone, Valid;
    FollowingRejects(app, g1, u, Follow(f, a.term), src, a, io);
  }

  lemma FollowingRejects(app: App, g: Ghost, u: NodeId, n: Node, src: NodeId, a: AppendArgs, io: bool)
    requires HistOk(g) && NodeOk(app, g, u, n) && n.currentTerm == a.term && AppendArgsOk(g.h, src, a) && Valid(n)
    requires u in g.h.log && Monotone(g.h.log[u])
    requires var r := AppendFollowing(n, a, io).1; !r.success && !Transient(a, r)
    ensures n.st.snapIndex <= a.prevLogIndex && !Accepts(n.st, a.prevLogIndex, a.prevLogTerm)
    ensures LogShape(n.st) && AppendFollowing(n, a, io).1 == Conflict(n.st, a.term, a.prevLogIndex)
  {
    hide HistOk, NodeOk, LogRep, InvLeaderLogs, Pref, Valid, AppendArgsOk;
    SnapshotFacts(app, g, u, n, src, a);
    CommittedHere(app, g, u, n);
    if a.prevLogIndex < n.st.snapIndex {
      if n.st.snapIndex < a.prevLogIndex + |a.entries| {
        NothingToRefuse(app, g, u, n, src, a, n.st.snapIndex - a.prevLogIndex);
      }
    } else {
      if Accepts(n.st, a.prevLogIndex, a.prevLogTerm) {
        NothingToRefuse(app, g, u, n, src, a, 0);
      }
      FailureIs(n, g.h.log[u], a, io);
    }
  }
}
