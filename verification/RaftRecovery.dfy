/** What a cluster can always do again. From the end of any run, with a quorum
    of the membership up, a server whose log is not behind theirs can be
    elected, and whatever it is then asked to do is committed by the quorum and
    applied by all its servers; and a read it is asked for returns. Servers
    outside the quorum take no step. */
module RaftRecovery {
  import opened Wrappers
  import opened RaftTypes
  import opened RaftState
  import opened RaftNodeInvariant
  import opened RaftCluster
  import opened RaftHistory
  import opened RaftGhost
  import I = RaftInduction
  import opened RaftRefineSnapshot
  import opened RaftRefineLocal
  import opened RaftSafety
  import opened RaftPeers
  import opened RaftProgress
  import opened RaftReach
  import opened RaftCatchUp
  import opened RaftElect

  // ---------- bringing the quorum up to date ----------

  /** w holds all of v's log, has committed up to c and has answered round `round`. */
  ghost predicate Brought(s: Cluster, v: NodeId, w: NodeId, c: nat, round: nat) {
    Full(s, v, w) && s.servers[w].n.commitIndex >= c && s.servers[v].n.peers[w].ackRound >= round
  }

  ghost predicate AllBrought(s: Cluster, v: NodeId, ws: set<NodeId>, c: nat, round: nat) {
    forall w :: w in ws ==> Brought(s, v, w, c, round)
  }

  /** v knows more of its peers and may have committed more; others of q may have moved; nobody else has. */
  ghost predicate Spread(s: Cluster, s2: Cluster, v: NodeId, q: set<NodeId>) {
    && v in s.servers && s2.servers.Keys == s.servers.Keys
    && var n, n2 := s.servers[v].n, s2.servers[v].n;
    && s2.servers[v] == s.servers[v].(n := n2)
    && n2 == n.(commitIndex := n2.commitIndex, peers := n2.peers) && n2.commitIndex >= n.commitIndex
    && forall w {:trigger s2.servers[w]} :: w in s.servers && w !in q ==> s2.servers[w] == s.servers[w]
  }

  lemma SpreadTrans(s: Cluster, m: Cluster, s2: Cluster, v: NodeId, q: set<NodeId>)
    requires Spread(s, m, v, q) && Spread(m, s2, v, q)
    ensures Spread(s, s2, v, q)
  {
    forall w | w in s.servers && w !in q ensures s2.servers[w] == s.servers[w] {
      assert m.servers[w] == s.servers[w];
    }
  }

  lemma LedLeads(s: Cluster, v: NodeId, q: set<NodeId>, w: NodeId)
    requires Led(s, v, q) && w in q && w != v
    ensures Leading(s, v, w)
  {
  }

  lemma MovedSpreads(s: Cluster, s2: Cluster, v: NodeId, q: set<NodeId>, w: NodeId)
    requires Led(s, v, q) && w in q && Leading(s, v, w) && Moved(s, s2, v, w)
    ensures Led(s2, v, q) && Spread(s, s2, v, q)
  {
    hide Quorum;
    forall x | x in q ensures s2.servers[x].n.currentTerm <= s2.servers[v].n.currentTerm {
      if x != v && x != w { assert s2.servers[x] == s.servers[x]; }
    }
  }

  lemma MovedKeeps(s: Cluster, s2: Cluster, v: NodeId, w: NodeId, x: NodeId, c: nat, round: nat)
    requires Leading(s, v, w) && Moved(s, s2, v, w) && Brought(s, v, x, c, round) && x != w
    ensures Brought(s2, v, x, c, round)
  {
    assert s2.servers[x] == s.servers[x];
  }

  lemma Bring(app: App, s: Cluster, v: NodeId, w: NodeId) returns (s2: Cluster)
    requires Sound(app, s) && Leading(s, v, w)
    ensures Sound(app, s2) && Reaches(app, s, s2) && Moved(s, s2, v, w)
    ensures Brought(s2, v, w, s.servers[v].n.commitIndex, s.servers[v].n.hbRound) && CommitsAll(s2.servers[v].n)
  {
    hide Sound, Reaches, CommitsAll;
    var m := CatchUp(app, s, v, w, 1, 1);
    s2 := Heartbeat(app, m, v, w);
    ReachesTrans(app, s, m, s2);
    MovedTrans(s, m, s2, v, w);
  }

  lemma {:induction false} BringAll(app: App, s: Cluster, v: NodeId, q: set<NodeId>, todo: set<NodeId>, c: nat, round: nat)
    returns (s2: Cluster)
    requires Sound(app, s) && Led(s, v, q) && todo <= q - {v} && (todo == {} ==> CommitsAll(s.servers[v].n))
    requires c <= s.servers[v].n.commitIndex && round <= s.servers[v].n.hbRound && AllBrought(s, v, q - {v} - todo, c, round)
    ensures Sound(app, s2) && Reaches(app, s, s2) && Spread(s, s2, v, q) && Led(s2, v, q)
    ensures CommitsAll(s2.servers[v].n) && AllBrought(s2, v, q - {v}, c, round)
    decreases todo
  {
    hide Sound, Reaches, CommitsAll, Led, Moved, Leading, Brought;
    if todo == {} {
      s2 := s;
      ReachesSelf(app, s);
      assert q - {v} - todo == q - {v};
      LedFacts(s, v, q);
    } else {
      var w :| w in todo;
      LedLeads(s, v, q, w);
      var m := Bring(app, s, v, w);
      MovedSpreads(s, m, v, q, w);
      BroughtToo(s, m, v, q, todo, w, c, round);
      s2 := BringAll(app, m, v, q, todo - {w}, c, round);
      ReachesTrans(app, s, m, s2);
      SpreadTrans(s, m, s2, v, q);
    }
  }

  lemma LedFacts(s: Cluster, v: NodeId, q: set<NodeId>)
    requires Led(s, v, q)
    ensures Spread(s, s, v, q)
  {
  }

  lemma BroughtToo(s: Cluster, m: Cluster, v: NodeId, q: set<NodeId>, todo: set<NodeId>, w: NodeId, c: nat, round: nat)
    requires Leading(s, v, w) && Moved(s, m, v, w) && AllBrought(s, v, q - {v} - todo, c, round) && w in todo
    requires Brought(m, v, w, s.servers[v].n.commitIndex, s.servers[v].n.hbRound)
    requires c <= s.servers[v].n.commitIndex && round <= s.servers[v].n.hbRound
    ensures AllBrought(m, v, q - {v} - (todo - {w}), c, round)
  {
    hide Moved, Full, Leading;
    forall x | x in q - {v} - (todo - {w}) ensures Brought(m, v, x, c, round) {
      if x != w { MovedKeeps(s, m, v, w, x, c, round); }
    }
  }

  /** With its whole log on a quorum and a last entry of its own term, v has committed everything. */
  lemma AllCommitted(s: Cluster, v: NodeId, q: set<NodeId>, c: nat, round: nat)
    requires Led(s, v, q) && Valid(s.servers[v].n) && CommitsAll(s.servers[v].n) && AllBrought(s, v, q - {v}, c, round)
    requires s.servers[v].n.id == v && TermAt(s.servers[v].n.st, LastIndex(s.servers[v].n.st)) == s.servers[v].n.currentTerm
    ensures s.servers[v].n.commitIndex == LastIndex(s.servers[v].n.st)
  {
    var n := s.servers[v].n;
    var last := LastIndex(n.st);
    forall w | w in q ensures w in Holders(n, last) {
      assert w != v ==> Brought(s, v, w, c, round);
    }
    QuorumGrows(n.st.config, q, Holders(n, last));
    assert OwnFrom(n, last);
  }

  /** The quorum holds everything, v has committed everything, and the others as well. */
  ghost predicate InStep(s: Cluster, v: NodeId, q: set<NodeId>) {
    && Led(s, v, q) && CommitsAll(s.servers[v].n) && s.servers[v].n.commitIndex == LastIndex(s.servers[v].n.st)
    && AllBrought(s, v, q - {v}, s.servers[v].n.commitIndex, s.servers[v].n.hbRound)
  }

  /** Once through the quorum commits the log, twice tells everybody. */
  lemma Replicate(app: App, s: Cluster, v: NodeId, q: set<NodeId>) returns (s2: Cluster)
    requires Sound(app, s) && Led(s, v, q) && CommitsAll(s.servers[v].n)
    requires var n := s.servers[v].n; InLog(n.st, LastIndex(n.st)) && TermAt(n.st, LastIndex(n.st)) == n.currentTerm
    ensures Sound(app, s2) && Reaches(app, s, s2) && Spread(s, s2, v, q) && InStep(s2, v, q)
  {
    hide Sound, Reaches, CommitsAll, Led, Brought, Valid;
    LedHas(s, v, q);
    assert q - {v} - (q - {v}) == {};
    var m := BringAll(app, s, v, q, q - {v}, 0, 0);
    SoundServer(app, m, v);
    AllCommitted(m, v, q, 0, 0);
    s2 := BringAll(app, m, v, q, q - {v}, m.servers[v].n.commitIndex, m.servers[v].n.hbRound);
    ReachesTrans(app, s, m, s2);
    SpreadTrans(s, m, s2, v, q);
    SoundServer(app, s2, v);
    CommitAtMostLast(s2.servers[v].n);
  }

  lemma CommitAtMostLast(n: Node)
    requires Valid(n)
    ensures n.commitIndex <= LastIndex(n.st)
  {
  }

  // ---------- applying ----------

  /** w has applied more; nothing else has changed. */
  ghost predicate Applies(s: Cluster, s2: Cluster, w: NodeId) {
    && w in s.servers && w in s2.servers
    && s2.servers == s.servers[w := s2.servers[w]] && s2.servers[w].pending == s.servers[w].pending
    && s2.servers[w].n == s.servers[w].n.(lastApplied := s2.servers[w].n.lastApplied)
  }

  /** What the apply thread of a server of a clean run finds. */
  predicate WorkFits(sv: Server) {
    && Valid(sv.n) && (sv.n.lastApplied < sv.n.st.snapIndex ==> sv.n.st.snapData.Some?)
    && match sv.work
       case Applying(e) => e.index == sv.n.lastApplied + 1 && e.index <= sv.n.commitIndex
       case Restoring(data, idx) => sv.n.lastApplied < idx <= sv.n.commitIndex
       case Snapping(_, _, _) => true
       case Idle => true
  }

  lemma WorkIsFit(app: App, s: Cluster, w: NodeId)
    requires Sound(app, s) && w in s.servers
    ensures WorkFits(s.servers[w])
  {
    var g :| CInv(app, s, g);
    assert ServerOk(app, g, w, s.servers[w]);
  }

  function Phase(sv: Server): nat {
    if sv.work.Snapping? then 2 else if sv.work.Idle? then 1 else 0
  }

  /** Restoring or applying begins. */
  lemma Begins(app: App, s: Cluster, w: NodeId) returns (s2: Cluster)
    requires Sound(app, s) && w in s.servers && s.servers[w].work.Idle? && s.servers[w].n.lastApplied < s.servers[w].n.commitIndex
    ensures Sound(app, s2) && Reaches(app, s, s2) && Applies(s, s2, w)
    ensures s2.servers[w].n == s.servers[w].n && Phase(s2.servers[w]) == 0
  {
    hide Sound, Reaches, Valid;
    WorkIsFit(app, s, w);
    var sv := s.servers[w];
    s2 := Alone(app, s, ApplyBegin(w), sv.(work := BeginWork(sv.n)));
  }

  lemma Ends(app: App, s: Cluster, w: NodeId) returns (s2: Cluster)
    requires Sound(app, s) && w in s.servers && Phase(s.servers[w]) == 0
    ensures Sound(app, s2) && Reaches(app, s, s2) && Applies(s, s2, w)
    ensures s.servers[w].n.lastApplied < s2.servers[w].n.lastApplied <= s.servers[w].n.commitIndex
  {
    hide Sound, Reaches, Valid;
    WorkIsFit(app, s, w);
    s2 := Alone(app, s, ApplyEnd(w), EndWork(app, s.servers[w]));
  }

  /** A snapshot being taken is given up. */
  lemma GivesUp(app: App, s: Cluster, w: NodeId) returns (s2: Cluster)
    requires Sound(app, s) && w in s.servers && s.servers[w].work.Snapping?
    ensures Sound(app, s2) && Reaches(app, s, s2) && Applies(s, s2, w)
    ensures s2.servers[w].n == s.servers[w].n && Phase(s2.servers[w]) == 1
  {
    hide Sound, Reaches, Valid;
    WorkIsFit(app, s, w);
    s2 := Alone(app, s, SnapEnd(w, false), EndSnap(s.servers[w], false));
  }

  lemma ApplyStep(app: App, s: Cluster, w: NodeId) returns (s2: Cluster)
    requires Sound(app, s) && w in s.servers && (s.servers[w].work.Idle? ==> s.servers[w].n.lastApplied < s.servers[w].n.commitIndex)
    ensures Sound(app, s2) && Reaches(app, s, s2) && Applies(s, s2, w)
    ensures var sv, sv2 := s.servers[w], s2.servers[w];
      sv.n.lastApplied < sv2.n.lastApplied <= sv.n.commitIndex || (sv2.n == sv.n && Phase(sv2) < Phase(sv))
  {
    hide Sound, Reaches, Applies;
    match s.servers[w].work
    case Idle => s2 := Begins(app, s, w);
    case Snapping(_, _, _) => s2 := GivesUp(app, s, w);
    case _ => s2 := Ends(app, s, w);
  }

  lemma {:induction false} Apply(app: App, s: Cluster, w: NodeId) returns (s2: Cluster)
    requires Sound(app, s) && w in s.servers
    ensures Sound(app, s2) && Reaches(app, s, s2) && Applies(s, s2, w)
    ensures s2.servers[w].n.lastApplied == s.servers[w].n.commitIndex
    decreases s.servers[w].n.commitIndex - s.servers[w].n.lastApplied, Phase(s.servers[w])
  {
    hide Sound, Reaches, WorkFits, Applies;
    WorkIsFit(app, s, w);
    FitFacts(s.servers[w]);
    if s.servers[w].work.Idle? && s.servers[w].n.lastApplied == s.servers[w].n.commitIndex {
      s2 := s;
      ReachesSelf(app, s);
      AppliesNothing(s, w);
    } else {
      var m := ApplyStep(app, s, w);
      AppliesFacts(s, m, w);
      s2 := Apply(app, m, w);
      ReachesTrans(app, s, m, s2);
      AppliesTrans(s, m, s2, w);
    }
  }

  lemma AppliesNothing(s: Cluster, w: NodeId)
    requires w in s.servers
    ensures Applies(s, s, w)
  {
  }

  lemma AppliesFacts(s: Cluster, s2: Cluster, w: NodeId)
    requires Applies(s, s2, w)
    ensures w in s.servers && w in s2.servers && s2.servers[w].n.commitIndex == s.servers[w].n.commitIndex
  {
  }

  lemma AppliesTrans(s: Cluster, m: Cluster, s2: Cluster, w: NodeId)
    requires Applies(s, m, w) && Applies(m, s2, w)
    ensures Applies(s, s2, w)
  {
    var x, y := m.servers[w], s2.servers[w];
    assert s.servers[w := x][w := y] == s.servers[w := y];
  }

  lemma FitFacts(sv: Server)
    requires WorkFits(sv)
    ensures sv.n.lastApplied <= sv.n.commitIndex
  {
  }

  /** The server has applied all it had committed; its node is otherwise as before. */
  predicate Settled(sv: Server, sv2: Server) {
    sv2.n == sv.n.(lastApplied := sv.n.commitIndex) && sv2.pending == sv.pending
  }

  /** Servers of `ws` have applied all they have committed; nothing else has changed. */
  ghost predicate AllApplied(s: Cluster, s2: Cluster, ws: set<NodeId>) {
    && ws <= s.servers.Keys && s2.servers.Keys == s.servers.Keys
    && (forall w {:trigger s2.servers[w]} :: w in ws ==> Settled(s.servers[w], s2.servers[w]))
    && forall w {:trigger s2.servers[w]} :: w in s.servers && w !in ws ==> s2.servers[w] == s.servers[w]
  }

  lemma {:induction false} ApplyAll(app: App, s: Cluster, ws: set<NodeId>) returns (s2: Cluster)
    requires Sound(app, s) && ws <= s.servers.Keys
    ensures Sound(app, s2) && Reaches(app, s, s2) && AllApplied(s, s2, ws)
    decreases ws
  {
    hide Sound, Reaches;
    if ws == {} {
      s2 := s;
      ReachesSelf(app, s);
    } else {
      var w :| w in ws;
      var m := Apply(app, s, w);
      s2 := ApplyAll(app, m, ws - {w});
      ReachesTrans(app, s, m, s2);
      AppliedToo(s, m, s2, ws, w);
    }
  }

  lemma AppliedToo(s: Cluster, m: Cluster, s2: Cluster, ws: set<NodeId>, w: NodeId)
    requires w in ws && ws <= s.servers.Keys && Applies(s, m, w) && m.servers[w].n.lastApplied == s.servers[w].n.commitIndex
    requires AllApplied(m, s2, ws - {w})
    ensures AllApplied(s, s2, ws)
  {
    hide Settled;
    OneSettled(s, m, w);
    assert m.servers.Keys == s.servers.Keys;
    assert s2.servers[w] == m.servers[w];
    forall x | x in ws ensures Settled(s.servers[x], s2.servers[x]) {
      if x != w { assert x in ws - {w} && m.servers[x] == s.servers[x]; }
    }
    forall x | x in s.servers && x !in ws ensures s2.servers[x] == s.servers[x] {
      assert x !in ws - {w} && m.servers[x] == s.servers[x];
    }
  }

  lemma OneSettled(s: Cluster, m: Cluster, w: NodeId)
    requires Applies(s, m, w) && m.servers[w].n.lastApplied == s.servers[w].n.commitIndex
    ensures Settled(s.servers[w], m.servers[w])
    ensures m.servers.Keys == s.servers.Keys && forall x {:trigger m.servers[x]} :: x in s.servers && x != w ==> m.servers[x] == s.servers[x]
  {
  }

  lemma StillInStep(s: Cluster, s2: Cluster, v: NodeId, q: set<NodeId>)
    requires InStep(s, v, q) && AllApplied(s, s2, q)
    ensures InStep(s2, v, q)
  {
    hide Quorum;
    var n, n2 := s.servers[v].n, s2.servers[v].n;
    forall k | OwnFrom(n2, k) && Quorum(n2.st.config, Holders(n2, k)) ensures k <= n2.commitIndex {
      assert Holders(n2, k) == Holders(n, k) && OwnFrom(n, k);
    }
    forall w | w in q - {v} ensures Brought(s2, v, w, n2.commitIndex, n2.hbRound) {
      assert Brought(s, v, w, n.commitIndex, n.hbRound);
    }
  }

  // ---------- what the state machines then hold ----------

  /** A server in step that has applied what it committed has applied all of v's log. */
  lemma HasApplied(app: App, s: Cluster, v: NodeId, q: set<NodeId>, w: NodeId)
    requires Sound(app, s) && InStep(s, v, q) && w in q && s.servers[w].n.lastApplied == s.servers[w].n.commitIndex
    ensures FullLog(app, s.servers[v].n.st) <= s.servers[w].sm
  {
    hide Sound, InStep, AllTrack;
    var g := SomeHistory(app, s);
    InStepFacts(s, v, q, w);
    ServerFacts(app, g, s, v);
    ServerFacts(app, g, s, w);
    if w != v { FullHasLog(app, g, s, v, w); }
    hide CInv;
    PrefixOfTaken(g.h.log[v], g.h.log[w], s.servers[w].n.lastApplied);
  }

  lemma SomeHistory(app: App, s: Cluster) returns (g: Ghost)
    requires Sound(app, s)
    ensures CInv(app, s, g)
  {
    hide CInv;
    g :| CInv(app, s, g);
  }

  lemma InStepFacts(s: Cluster, v: NodeId, q: set<NodeId>, w: NodeId)
    requires InStep(s, v, q) && w in q
    ensures v in s.servers && w in s.servers && s.servers[w].n.commitIndex >= LastIndex(s.servers[v].n.st)
    ensures w != v ==> Full(s, v, w)
  {
    assert w != v ==> Brought(s, v, w, s.servers[v].n.commitIndex, s.servers[v].n.hbRound);
  }

  lemma ServerFacts(app: App, g: Ghost, s: Cluster, w: NodeId)
    requires CInv(app, s, g) && w in s.servers
    ensures w in g.h.log && FullLog(app, s.servers[w].n.st) == g.h.log[w] && LastIndex(s.servers[w].n.st) == |g.h.log[w]|
    ensures s.servers[w].n.lastApplied <= |g.h.log[w]| && s.servers[w].sm == g.h.log[w][..s.servers[w].n.lastApplied]
  {
    assert ServerOk(app, g, w, s.servers[w]);
    FullLogIs(app, g, w, s.servers[w].n);
    AppliedPrefix(app, g, w, s.servers[w]);
  }

  lemma PrefixOfTaken(a: Log, b: Log, k: nat)
    requires a <= b && |a| <= k <= |b|
    ensures a <= b[..k]
  {
  }

  // ---------- taking a snapshot ----------

  /** A server that has applied beyond its snapshot can take one of all it has applied; its log stays what it is. */
  lemma TakesSnapshot(app: App, s: Cluster, w: NodeId, data: Bytes) returns (s2: Cluster)
    requires Sound(app, s) && w in s.servers && s.servers[w].work.Idle? && app(data) == s.servers[w].sm
    requires s.servers[w].n.lastApplied > s.servers[w].n.st.snapIndex
    ensures Sound(app, s2) && Reaches(app, s, s2) && w in s2.servers
    ensures var sv, sv2 := s.servers[w], s2.servers[w];
      && s2.servers == s.servers[w := sv2] && sv2.sm == sv.sm
      && sv2.n.st.snapIndex == sv.n.lastApplied && sv2.n.st.snapData == Some(data)
      && FullLog(app, sv2.n.st) == FullLog(app, sv.n.st)
  {
    hide Sound, Reaches, Valid, CompactStore, FullLog;
    SoundServer(app, s, w);
    var sv := s.servers[w];
    AppliedInLog(sv.n);
    var term := TermAt(sv.n.st, sv.n.lastApplied);
    var m := Alone(app, s, SnapBegin(w, data), sv.(work := Snapping(sv.n.lastApplied, term, data)));
    s2 := Alone(app, m, SnapEnd(w, true), sv.(n := Compact(sv.n, sv.n.lastApplied, term, data)));
    ReachesTrans(app, s, m, s2);
    CompactedIs(sv.n, sv.n.lastApplied, term, data);
    assert s2.servers[w].n.st == CompactStore(sv.n.st, sv.n.lastApplied, term, data);
    SameFullLog(app, s, w, term, data);
  }

  lemma AppliedInLog(n: Node)
    requires Valid(n) && n.lastApplied > n.st.snapIndex
    ensures InLog(n.st, n.lastApplied)
  {
  }

  lemma SameFullLog(app: App, s: Cluster, w: NodeId, term: nat, data: Bytes)
    requires Sound(app, s) && w in s.servers && app(data) == s.servers[w].sm
    requires var n := s.servers[w].n; n.st.snapIndex < n.lastApplied <= LastIndex(n.st)
    ensures var n := s.servers[w].n;
      FullLog(app, CompactStore(n.st, n.lastApplied, term, data)) == FullLog(app, n.st)
  {
    hide Sound;
    var g := SomeHistory(app, s);
    ServerFacts(app, g, s, w);
    hide CInv, ConfigAt, Configs;
    var n := s.servers[w].n;
    var full := FullLog(app, n.st);
    var k := n.lastApplied - n.st.snapIndex;
    assert n.st.log[1..][k..] == n.st.log[k + 1..];
    assert full[n.lastApplied..] == n.st.log[k + 1..];
    assert full == full[..n.lastApplied] + full[n.lastApplied..];
    var st2 := CompactStore(n.st, n.lastApplied, term, data);
    assert st2.log[1..] == n.st.log[k + 1..];
  }

  // ---------- serving a request ----------

  /** n2 is n with one more entry, which is not a CONFIG. */
  ghost predicate Submitted(n: Node, n2: Node, cmd: Command) {
    && n2 == n.(st := n.st.(log := n2.st.log), commitIndex := n2.commitIndex) && n2.commitIndex >= n.commitIndex
    && n2.st.log == n.st.log + [Entry(n.currentTerm, LastIndex(n.st) + 1, cmd)]
  }

  lemma SubmitFacts(n: Node, name: string, payload: Bytes)
    requires Valid(n) && n.role == Leader && n.id in Ids(n.st.config)
    ensures Submitted(n, Submit(n, name, payload), Op(name, payload)) && CommitsAll(Submit(n, name, payload))
  {
    var m := AppendLocal(n, Op(name, payload));
    AppendLocalValid(n, Op(name, payload));
    hide CommitsAll, AdvanceCommit, StoreOk;
    AdvanceCommitsAll(m);
  }

  lemma AskLeader(app: App, s: Cluster, v: NodeId, q: set<NodeId>, name: string, payload: Bytes) returns (s2: Cluster)
    requires Sound(app, s) && Led(s, v, q)
    ensures Sound(app, s2) && Reaches(app, s, s2) && Led(s2, v, q) && CommitsAll(s2.servers[v].n)
    ensures s2.servers == s.servers[v := s.servers[v].(n := s2.servers[v].n)]
    ensures Submitted(s.servers[v].n, s2.servers[v].n, Op(name, payload))
  {
    hide Sound, Reaches, CommitsAll, Submit, Led, Valid, CommitInLog, Submitted;
    LedRole(s, v, q);
    SoundServer(app, s, v);
    var sv := s.servers[v];
    InLogAlso(sv.n);
    SubmitFacts(sv.n, name, payload);
    s2 := Alone(app, s, ClientSubmit(v, name, payload), sv.(n := Submit(sv.n, name, payload)));
    LedSubmits(s, s2, v, q, Op(name, payload));
  }

  lemma LedSubmits(s: Cluster, s2: Cluster, v: NodeId, q: set<NodeId>, cmd: Command)
    requires Led(s, v, q) && v in s2.servers && s2.servers == s.servers[v := s2.servers[v]]
    requires Submitted(s.servers[v].n, s2.servers[v].n, cmd)
    ensures Led(s2, v, q)
  {
    hide Quorum;
    forall w | w in q ensures s2.servers[w].n.currentTerm <= s2.servers[v].n.currentTerm {
      assert s.servers[w] == s.servers[w];
    }
  }

  lemma InLogAlso(n: Node)
    requires Valid(n)
    ensures CommitInLog(n)
  {
  }

  /** The leader's log has grown by a last entry that every server of q has committed and applied. */
  ghost predicate Served(app: App, s: Cluster, s2: Cluster, v: NodeId, q: set<NodeId>, cmd: Command) {
    && v in s.servers && s2.servers.Keys == s.servers.Keys && q <= s.servers.Keys
    && (forall w {:trigger s2.servers[w]} :: w in s.servers && w !in q ==> s2.servers[w] == s.servers[w])
    && s2.servers[v].n.role == Leader
    && var before, log := FullLog(app, s.servers[v].n.st), FullLog(app, s2.servers[v].n.st);
    && |before| < |log| && before <= log && log[|log| - 1] == Entry(s2.servers[v].n.currentTerm, |log|, cmd)
    && forall w {:trigger s2.servers[w]} :: w in q ==> s2.servers[w].n.commitIndex >= |log| && log <= s2.servers[w].sm
  }

  lemma LogGrew(app: App, n: Node, n2: Node, n3: Node, cmd: Command)
    requires n.st.log != [] && n2.st == n.st.(log := n2.st.log) && n.st.log <= n2.st.log && Submitted(n2, n3, cmd)
    ensures FullLog(app, n.st) <= FullLog(app, n3.st) && |FullLog(app, n.st)| < |FullLog(app, n3.st)|
    ensures var log := FullLog(app, n3.st); log[|log| - 1] == Entry(n2.currentTerm, LastIndex(n3.st), cmd)
  {
    assert n3.st.log[1..] == n2.st.log[1..] + [n3.st.log[|n2.st.log|]];
    assert n.st.log[1..] <= n2.st.log[1..];
  }

  /** A leader that has just been asked brings its quorum to apply what it was asked for. */
  lemma Finish(app: App, s: Cluster, v: NodeId, q: set<NodeId>) returns (s2: Cluster)
    requires Sound(app, s) && Led(s, v, q) && CommitsAll(s.servers[v].n)
    requires var n := s.servers[v].n; InLog(n.st, LastIndex(n.st)) && TermAt(n.st, LastIndex(n.st)) == n.currentTerm
    ensures Sound(app, s2) && Reaches(app, s, s2) && InStep(s2, v, q)
    ensures forall w {:trigger s2.servers[w]} :: w in s.servers && w !in q ==> w in s2.servers && s2.servers[w] == s.servers[w]
    ensures s2.servers.Keys == s.servers.Keys && s2.servers[v].n.st == s.servers[v].n.st
    ensures s2.servers[v].n.currentTerm == s.servers[v].n.currentTerm && s2.servers[v].n.role == Leader
    ensures forall w {:trigger s2.servers[w]} :: w in q ==>
      w in s2.servers && s2.servers[w].n.lastApplied == s2.servers[w].n.commitIndex
  {
    hide Sound, Reaches, CommitsAll, AllBrought, Quorum;
    var m := Replicate(app, s, v, q);
    s2 := ApplyAll(app, m, q);
    ReachesTrans(app, s, m, s2);
    StillInStep(m, s2, v, q);
    forall w | w in s.servers && w !in q ensures w in s2.servers && s2.servers[w] == s.servers[w] {
      assert m.servers[w] == s.servers[w];
    }
  }

  lemma Recover(app: App, s: Cluster, v: NodeId, q: set<NodeId>, name: string, payload: Bytes) returns (s2: Cluster)
    requires Sound(app, s) && Enough(s, v, q) && Ahead(s, v, q)
    ensures Sound(app, s2) && Reaches(app, s, s2) && Served(app, s, s2, v, q, Op(name, payload))
  {
    hide Sound, Reaches, CommitsAll, Ahead, Enough, Led, InStep, FullLog;
    EnoughFacts(s, v, q);
    HasLog(app, s, v);
    var m1 := Elect(app, s, v, q);
    LedHas(m1, v, q);
    var m2 := AskLeader(app, m1, v, q, name, payload);
    LogGrew(app, s.servers[v].n, m1.servers[v].n, m2.servers[v].n, Op(name, payload));
    s2 := Finish(app, m2, v, q);
    ReachesTrans(app, s, m1, m2);
    ReachesTrans(app, s, m2, s2);
    SameLog(app, s2, v);
    forall w | w in q ensures s2.servers[w].n.commitIndex >= |FullLog(app, s2.servers[v].n.st)|
      && FullLog(app, s2.servers[v].n.st) <= s2.servers[w].sm
    {
      InStepFacts(s2, v, q, w);
      HasApplied(app, s2, v, q, w);
    }
    forall w | w in s.servers && w !in q ensures s2.servers[w] == s.servers[w] {
      assert m1.servers[w] == s.servers[w] && m2.servers[w] == m1.servers[w];
    }
  }

  lemma EnoughFacts(s: Cluster, v: NodeId, q: set<NodeId>)
    requires Enough(s, v, q)
    ensures v in q && q <= s.servers.Keys
  {
  }

  lemma LedHas(s: Cluster, v: NodeId, q: set<NodeId>)
    requires Led(s, v, q)
    ensures v in s.servers && v in q
  {
  }

  lemma SameLog(app: App, s: Cluster, v: NodeId)
    requires Sound(app, s) && v in s.servers
    ensures |FullLog(app, s.servers[v].n.st)| == LastIndex(s.servers[v].n.st)
  {
    hide Sound;
    var g := SomeHistory(app, s);
    ServerFacts(app, g, s, v);
  }

  // ---------- serving a read ----------

  /** The call waits for its round to be confirmed, or is ready, at an index v has committed. */
  predicate Asking(sv: Server, id: nat) {
    id in sv.pending && (sv.pending[id].Confirming? || sv.pending[id].Ready?) && sv.pending[id].ri <= sv.n.commitIndex
    && (sv.pending[id].Confirming? ==> sv.pending[id].term == sv.n.currentTerm && sv.pending[id].round <= sv.n.hbRound)
  }

  lemma Round(app: App, s: Cluster, v: NodeId, q: set<NodeId>, id: nat) returns (s2: Cluster)
    requires Sound(app, s) && Led(s, v, q) && id in s.servers[v].pending && s.servers[v].pending[id] == Waiting(s.servers[v].n.currentTerm)
    requires InLog(s.servers[v].n.st, s.servers[v].n.commitIndex)
    requires TermAt(s.servers[v].n.st, s.servers[v].n.commitIndex) == s.servers[v].n.currentTerm
    ensures Sound(app, s2) && Reaches(app, s, s2) && Led(s2, v, q) && Asking(s2.servers[v], id)
    ensures q == {v} ==> s2.servers[v].pending[id].Ready?
  {
    hide Sound, Reaches, Valid, Led, Asking, BeginRound;
    LedRole(s, v, q);
    SoundServer(app, s, v);
    var sv := s.servers[v];
    BegunRound(sv, id);
    s2 := Alone(app, s, ReadRound(v, id), BeginRound(sv, id));
    LedStays(s, s2, v, q);
    if q == {v} { QuorumAlone(s, v, q); }
  }

  lemma BegunRound(sv: Server, id: nat)
    requires id in sv.pending && sv.pending[id] == Waiting(sv.n.currentTerm)
    ensures var sv2 := BeginRound(sv, id);
      && Asking(sv2, id) && sv2.n == sv.n.(hbRound := sv2.n.hbRound)
      && (Quorum(sv.n.st.config, {sv.n.id}) ==> sv2.pending[id].Ready?)
  {
    hide Quorum;
  }

  lemma LedStays(s: Cluster, s2: Cluster, v: NodeId, q: set<NodeId>)
    requires Led(s, v, q) && v in s2.servers && s2.servers == s.servers[v := s2.servers[v]]
    requires s2.servers[v].n == s.servers[v].n.(hbRound := s2.servers[v].n.hbRound)
    ensures Led(s2, v, q)
  {
    hide Quorum;
    forall w | w in q ensures s2.servers[w].n.currentTerm <= s2.servers[v].n.currentTerm {
      assert s.servers[w] == s.servers[w];
    }
  }

  lemma QuorumAlone(s: Cluster, v: NodeId, q: set<NodeId>)
    requires Led(s, v, q)
    ensures Quorum(s.servers[v].n.st.config, q)
  {
  }

  /** The acknowledgements of the quorum confirm the round. */
  lemma Confirms(app: App, s: Cluster, v: NodeId, q: set<NodeId>, id: nat, c: nat) returns (s2: Cluster)
    requires Sound(app, s) && Led(s, v, q) && Asking(s.servers[v], id) && s.servers[v].pending[id].Confirming?
    requires AllBrought(s, v, q - {v}, c, s.servers[v].pending[id].round)
    ensures Sound(app, s2) && Reaches(app, s, s2) && Led(s2, v, q) && Asking(s2.servers[v], id) && s2.servers[v].pending[id].Ready?
  {
    hide Sound, Reaches, Valid, Quorum, Confirmers, Led, AllBrought;
    LedRole(s, v, q);
    SoundServer(app, s, v);
    var sv := s.servers[v];
    QuorumAnswered(s, v, q, c, sv.pending[id].round);
    s2 := Alone(app, s, ReadConfirm(v, id), sv.(pending := sv.pending[id := RaftCluster.Ready(sv.pending[id].ri)]));
    LedStays(s, s2, v, q);
  }

  lemma QuorumAnswered(s: Cluster, v: NodeId, q: set<NodeId>, c: nat, round: nat)
    requires Led(s, v, q) && AllBrought(s, v, q - {v}, c, round) && s.servers[v].n.id == v
    ensures var n := s.servers[v].n; Quorum(n.st.config, Confirmers(n, round))
  {
    hide Quorum, Full;
    var n := s.servers[v].n;
    forall w | w in q ensures w in Confirmers(n, round) {
      assert w != v ==> Brought(s, v, w, c, round);
    }
    QuorumGrows(n.st.config, q, Confirmers(n, round));
  }

  lemma Spreading(s: Cluster, s2: Cluster, v: NodeId, q: set<NodeId>, id: nat)
    requires Spread(s, s2, v, q) && Asking(s.servers[v], id)
    ensures Asking(s2.servers[v], id) && s2.servers[v].pending[id] == s.servers[v].pending[id]
  {
  }

  /** A read that a leader with a committed entry of its term is asked for can return. */
  lemma Answers(app: App, s: Cluster, v: NodeId, q: set<NodeId>, id: nat) returns (s2: Cluster)
    requires Sound(app, s) && Led(s, v, q) && id in s.servers[v].pending && s.servers[v].pending[id] == Waiting(s.servers[v].n.currentTerm)
    requires InLog(s.servers[v].n.st, s.servers[v].n.commitIndex)
    requires TermAt(s.servers[v].n.st, s.servers[v].n.commitIndex) == s.servers[v].n.currentTerm
    ensures Sound(app, s2) && Reaches(app, s, s2) && Enabled(app, s2, ReadReturn(v, id))
  {
    hide Sound, Reaches, Led, Asking, AllBrought, CommitsAll;
    var m1 := Round(app, s, v, q, id);
    var m2 := m1;
    LedHas(m1, v, q);
    AskingFacts(m1.servers[v], id);
    if m1.servers[v].pending[id].Confirming? {
      var round := m1.servers[v].pending[id].round;
      NothingLeft(m1, v, q, 0, round);
      var m := BringAll(app, m1, v, q, q - {v}, 0, round);
      Spreading(m1, m, v, q, id);
      m2 := Confirms(app, m, v, q, id, 0);
      ReachesTrans(app, m1, m, m2);
    } else {
      ReachesSelf(app, m1);
    }
    ReachesTrans(app, s, m1, m2);
    LedHas(m2, v, q);
    s2 := Apply(app, m2, v);
    ReachesTrans(app, s, m2, s2);
    AskingFacts(m2.servers[v], id);
    SoundServer(app, s2, v);
  }

  lemma AskingFacts(sv: Server, id: nat)
    requires Asking(sv, id)
    ensures id in sv.pending && (sv.pending[id].Confirming? || sv.pending[id].Ready?) && sv.pending[id].ri <= sv.n.commitIndex
    ensures sv.pending[id].Confirming? ==> sv.pending[id].round <= sv.n.hbRound
  {
  }

  lemma NothingLeft(s: Cluster, v: NodeId, q: set<NodeId>, c: nat, round: nat)
    requires v in q
    ensures AllBrought(s, v, q - {v} - (q - {v}), c, round) && (q - {v} == {} ==> q == {v})
  {
    if q - {v} == {} {
      forall x | x in q ensures x == v { assert x !in q - {v}; }
    }
  }

  // ---------- runs ----------

  /** r2 goes on from where r ends. */
  ghost predicate Continues(app: App, base: Membership, r: Run, r2: Run) {
    && CleanRun(app, base, r2) && |r.states| == |r.labels| + 1 && r.states <= r2.states && r.labels <= r2.labels
  }

  function Last(r: Run): Cluster
    requires r.states != []
  {
    r.states[|r.states| - 1]
  }

  lemma OneMore(app: App, base: Membership, r: Run, l: Label) returns (r2: Run)
    requires CleanRun(app, base, r) && Enabled(app, Last(r), l) && SafeStep(Last(r), l)
    ensures Continues(app, base, r, r2) && Last(r2) == Do(app, Last(r), l) && r2.labels == r.labels + [l]
  {
    hide Enabled, Do, SafeStep, Init;
    r2 := Run(r.states + [Do(app, Last(r), l)], r.labels + [l]);
  }

  lemma {:induction false} FollowPath(app: App, base: Membership, r: Run, ls: seq<Label>, s2: Cluster) returns (r2: Run)
    requires CleanRun(app, base, r) && Path(app, Last(r), ls, s2)
    ensures Continues(app, base, r, r2) && Last(r2) == s2
    decreases |ls|
  {
    hide CleanRun, Enabled, Do, SafeStep;
    if ls == [] {
      r2 := r;
      RunLength(app, base, r);
    } else {
      var m := OneMore(app, base, r, ls[0]);
      r2 := FollowPath(app, base, m, ls[1..], s2);
    }
  }

  lemma RunLength(app: App, base: Membership, r: Run)
    requires CleanRun(app, base, r)
    ensures |r.states| == |r.labels| + 1
  {
  }

  lemma EndIsSound(app: App, base: Membership, r: Run)
    requires CleanRun(app, base, r)
    ensures r.states != [] && Sound(app, Last(r))
  {
    var gs := I.EveryRunHasWitness(app, base, r);
    AlwaysCovered(app, base, r, |r.states| - 1);
    hide CInv, AllTrack;
    assert CInv(app, r.states[|gs| - 1], gs[|gs| - 1]);
  }

  /** From the end of every run: if the servers of q are up and a quorum, v is one of
      them and its log is not behind theirs, the run can go on, without any
      other server, until an operation given to v is committed and applied by
      every server of q. */
  lemma Recovery(app: App, base: Membership, r: Run, v: NodeId, q: set<NodeId>, name: string, payload: Bytes) returns (r2: Run)
    requires CleanRun(app, base, r) && Enough(Last(r), v, q) && Ahead(Last(r), v, q)
    ensures Continues(app, base, r, r2) && Served(app, Last(r), Last(r2), v, q, Op(name, payload))
  {
    hide CleanRun, Continues, Sound, Path, Served, Enough, Ahead;
    EndIsSound(app, base, r);
    var s2 := Recover(app, Last(r), v, q, name, payload);
    var ls :| Path(app, Last(r), ls, s2);
    r2 := FollowPath(app, base, r, ls, s2);
    ContinuesFacts(app, base, r, r2);
  }

  /** A cluster that has just been started can elect any member, and serve. */
  lemma FreshCluster(app: App, s: Cluster, base: Membership, v: NodeId, q: set<NodeId>, name: string, payload: Bytes)
    returns (r2: Run)
    requires Init(s, base) && v in q && q <= s.servers.Keys && q <= Ids(base) && Quorum(base, q)
    ensures Continues(app, base, Run([s], []), r2) && Served(app, s, Last(r2), v, q, Op(name, payload))
  {
    hide Quorum, Served, Continues;
    forall w | w in q ensures s.servers[w].n == NewNode(w, base) {
    }
    FreshNotBehind(base, v, v);
    forall w | w in q ensures NotBehind(s.servers[v].n, s.servers[w].n) {
      FreshNotBehind(base, v, w);
    }
    assert CleanRun(app, base, Run([s], []));
    hide Init, Enough, Ahead, CleanRun;
    r2 := Recovery(app, base, Run([s], []), v, q, name, payload);
  }

  lemma FreshNotBehind(base: Membership, v: NodeId, w: NodeId)
    ensures NotBehind(NewNode(v, base), NewNode(w, base)) && NewNode(v, base).st.config == base
  {
  }

  /** A read that a leader is asked for can return, from the end of every run in which it
      has committed an entry of its term and the servers of q are in no later one. */
  lemma ReadCompletes(app: App, base: Membership, r: Run, v: NodeId, q: set<NodeId>, id: nat) returns (r2: Run)
    requires CleanRun(app, base, r) && r.states != [] && Led(Last(r), v, q) && id !in Last(r).servers[v].pending
    requires var n := Last(r).servers[v].n; InLog(n.st, n.commitIndex) && TermAt(n.st, n.commitIndex) == n.currentTerm
    ensures Continues(app, base, r, r2) && |r.labels| + 1 < |r2.labels|
    ensures r2.labels[|r.labels|] == ReadBegin(v, id) && r2.labels[|r2.labels| - 1] == ReadReturn(v, id)
  {
    hide CleanRun, Sound, Path, Enabled, Do, Led, Continues;
    var r1 := Asked(app, base, r, v, q, id);
    ContinuesFacts(app, base, r, r1);
    EndIsSound(app, base, r1);
    var s2 := Answers(app, Last(r1), v, q, id);
    var ls :| Path(app, Last(r1), ls, s2);
    var ra := FollowPath(app, base, r1, ls, s2);
    ContinuesFacts(app, base, r1, ra);
    r2 := OneMore(app, base, ra, ReadReturn(v, id));
    ContinuesFacts(app, base, ra, r2);
    ContinuesTrans(app, base, r, r1, ra);
    ContinuesTrans(app, base, r, ra, r2);
  }

  lemma ContinuesFacts(app: App, base: Membership, r: Run, r2: Run)
    requires Continues(app, base, r, r2)
    ensures CleanRun(app, base, r2) && r2.states != [] && r.labels <= r2.labels
  {
  }

  lemma ContinuesTrans(app: App, base: Membership, r: Run, m: Run, r2: Run)
    requires Continues(app, base, r, m) && Continues(app, base, m, r2)
    ensures Continues(app, base, r, r2)
  {
  }

  /** The call begins. */
  lemma Asked(app: App, base: Membership, r: Run, v: NodeId, q: set<NodeId>, id: nat) returns (r1: Run)
    requires CleanRun(app, base, r) && r.states != [] && Led(Last(r), v, q) && id !in Last(r).servers[v].pending
    ensures Continues(app, base, r, r1) && r1.labels == r.labels + [ReadBegin(v, id)] && r1.states != []
    ensures Led(Last(r1), v, q) && Last(r1).servers[v].n == Last(r).servers[v].n
    ensures id in Last(r1).servers[v].pending && Last(r1).servers[v].pending[id] == Waiting(Last(r).servers[v].n.currentTerm)
  {
    hide CleanRun, Sound, Valid, Led, Enabled, Do, Continues;
    EndIsSound(app, base, r);
    LedRole(Last(r), v, q);
    SoundServer(app, Last(r), v);
    CallBegins(app, Last(r), v, id);
    r1 := OneMore(app, base, r, ReadBegin(v, id));
    ContinuesFacts(app, base, r, r1);
    LedStays(Last(r), Last(r1), v, q);
  }

  lemma CallBegins(app: App, s: Cluster, v: NodeId, id: nat)
    requires v in s.servers && Valid(s.servers[v].n) && s.servers[v].n.role == Leader && id !in s.servers[v].pending
    ensures Enabled(app, s, ReadBegin(v, id)) && SafeStep(s, ReadBegin(v, id))
    ensures var sv := s.servers[v];
      Do(app, s, ReadBegin(v, id)).servers == s.servers[v := sv.(pending := sv.pending[id := Waiting(sv.n.currentTerm)])]
  {
    hide Valid;
  }

  lemma LedRole(s: Cluster, v: NodeId, q: set<NodeId>)
    requires Led(s, v, q)
    ensures v in s.servers && s.servers[v].n.role == Leader && v in Ids(s.servers[v].n.st.config)
  {
  }

  // ---------- commits travel ----------

  /** At step i v sends u a request, which u handles at step j. */
  ghost predicate Delivery(r: Run, i: nat, j: nat, v: NodeId, u: NodeId, max: nat, io: bool) {
    && i < j && |r.states| == |r.labels| + 1 && j < |r.labels| && At(r, i, v) && At(r, j, u) && At(r, j + 1, u)
    && Valid(ServerAt(r, i, v).n) && CanAppend(ServerAt(r, i, v).n, u)
    && r.labels[i] == SendAppend(v, u, max)
    && r.labels[j] == HandleAppend(u, AppReq(v, u, ServerAt(r, i, v).n.hbRound, MakeAppend(ServerAt(r, i, v).n, u, max)), io)
  }

  /** A follower that accepts a request which reaches the sender's commit index has
      committed as much, whatever happened between sending and handling. */
  lemma CommitTravels(app: App, base: Membership, r: Run, i: nat, j: nat, v: NodeId, u: NodeId, max: nat, io: bool)
    requires CleanRun(app, base, r) && Delivery(r, i, j, v, u, max, io)
    requires var n, f := ServerAt(r, i, v).n, ServerAt(r, j, u).n;
      var a := MakeAppend(n, u, max);
      Valid(f) && WellFormed(a) && n.commitIndex <= a.prevLogIndex + |a.entries| && OnAppendEntries(f, a, io).1.success
    ensures ServerAt(r, j + 1, u).n.commitIndex >= ServerAt(r, i, v).n.commitIndex
  {
    hide Valid, WellFormed, OnAppendEntries, MakeAppend, CommitInLog, Init;
    var n, f := ServerAt(r, i, v).n, ServerAt(r, j, u).n;
    var a := MakeAppend(n, u, max);
    assert Enabled(app, r.states[j], r.labels[j]) && r.states[j + 1] == Do(app, r.states[j], r.labels[j]);
    AcceptedCommits(f, a, io);
    CarriesCommit(n, u, max);
  }

  lemma CarriesCommit(n: Node, u: NodeId, max: nat)
    requires Valid(n) && CanAppend(n, u)
    ensures MakeAppend(n, u, max).leaderCommit == n.commitIndex
  {
  }
}
