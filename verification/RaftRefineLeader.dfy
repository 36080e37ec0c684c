/** Refinement of the steps of candidates and leaders: standing, winning,
    appending, committing and changing the membership. */
module RaftRefineLeader {
  import opened RaftTypes
  import opened RaftState
  import opened RaftNodeInvariant
  import opened RaftCluster
  import opened RaftHistory
  import C = RaftCompleteness
  import S = RaftSteps
  import opened RaftGhost
  import opened RaftRefineBase

  ghost predicate NodeParts(app: App, g: Ghost, v: NodeId, n: Node) {
    && TermOk(g.h, v, n) && LogRep(app, g.h, n, g.h.log[v]) && LeadParts(g, v, n)
    && RecvOk(g, v, n.currentTerm, n.recv) && RoundsOk(n)
  }

  /** v's node goes from n to n2 while the history goes from g to g2. */
  ghost predicate NodeStep(app: App, g: Ghost, g2: Ghost, v: NodeId, n: Node, n2: Node) {
    && HistOk(g2) && HistBy(g.h, g2.h, v) && g2 == g.(h := g2.h)
    && NodeOk(app, g2, v, n2) && Moves(n, n2)
  }

  lemma NodeFacts(app: App, g: Ghost, v: NodeId, n: Node)
    requires NodeOk(app, g, v, n)
    ensures v in g.h.term && v in g.h.log && g.h.term[v] == n.currentTerm && Valid(n) && NodeParts(app, g, v, n)
    ensures n.role == Candidate ==> (v, n.currentTerm) in g.h.cl
    ensures n.role == Leader ==> S.Leads(g.h, v)
  {
  }

  lemma PartsFacts(app: App, g: Ghost, v: NodeId, n: Node)
    requires NodeParts(app, g, v, n)
    ensures v in g.h.term && v in g.h.log && g.h.term[v] == n.currentTerm && Valid(n) && Rep(n.st, g.h.log[v])
    ensures n.role == Leader ==> S.Leads(g.h, v)
  {
  }

  // ---------- appending to the leader's log ----------

  function AppendGhost(g: Ghost, v: NodeId, cmd: Command): Ghost
    requires v in g.h.term && v in g.h.log
  {
    g.(h := S.Append(g.h, v, cmd))
  }

  ghost predicate CommandAllowed(h: Hist, v: NodeId, cmd: Command) {
    cmd.Config? ==> v in h.term && v in h.log && S.MayChange(h, v, cmd.members)
  }

  lemma AppendHist(g: Ghost, v: NodeId, cmd: Command)
    requires HistOk(g) && S.Leads(g.h, v) && CommandAllowed(g.h, v, cmd)
    ensures var g2 := AppendGhost(g, v, cmd);
      HistOk(g2) && HistBy(g.h, g2.h, v) && S.Leads(g2.h, v) && AckAtLeast(g2.h, v, g2.h.term[v], |g2.h.log[v]|)
  {
    S.AppendStep(g.h, v, cmd);
    var h2 := S.Append(g.h, v, cmd);
    assert LeaderLogOk(g.h, g.h.term[v]);
    assert S.AckOkAt(g.h, v, g.h.term[v]);
  }

  lemma AppendRep(app: App, h: Hist, h2: Hist, n: Node, full: Log, e: Entry)
    requires LogRep(app, h, n, full) && S.Grows(h, h2) && e.index == |full| + 1
    ensures Valid(n.(st := AppendStore(n.st, e)))
    ensures LogRep(app, h2, n.(st := AppendStore(n.st, e)), full + [e])
  {
    hide Committed, StoreOk;
    RepFacts(n.st, full);
    AppendStoreOk(n.st, e);
    var st2 := AppendStore(n.st, e);
    assert st2.log[1..] == n.st.log[1..] + [e];
    assert (full + [e])[n.st.snapIndex..] == full[n.st.snapIndex..] + [e];
    assert (full + [e])[..n.st.snapIndex] == full[..n.st.snapIndex];
    assert (full + [e])[..n.commitIndex] == full[..n.commitIndex];
    CommittedGrows(h, h2, full[..n.commitIndex], n.currentTerm, n.currentTerm);
  }

  lemma AppendConfigAgrees(n: Node, base: Membership, full: Log, e: Entry)
    requires n.st.config == ConfigOf(base, full) && LogShape(n.st)
    ensures AppendStore(n.st, e).config == ConfigOf(base, full + [e])
  {
    assert (full + [e])[..|full|] == full;
  }

  lemma AppendLead(g: Ghost, v: NodeId, n: Node, cmd: Command)
    requires HistOk(g) && S.Leads(g.h, v) && CommandAllowed(g.h, v, cmd) && LeadParts(g, v, n) && n.role == Leader
    requires LogShape(n.st) && Rep(n.st, g.h.log[v])
    ensures var e := Entry(n.currentTerm, LastIndex(n.st) + 1, cmd);
      LeadOk(AppendGhost(g, v, cmd), v, n.(st := AppendStore(n.st, e)))
  {
    hide HistOk;
    var e := Entry(n.currentTerm, LastIndex(n.st) + 1, cmd);
    var g2 := AppendGhost(g, v, cmd);
    AppendHist(g, v, cmd);
    RepFacts(n.st, g.h.log[v]);
    AppendConfigAgrees(n, g.h.base, g.h.log[v], e);
    forall p | p in n.peers ensures PeerOk(g2, n.currentTerm, p, n.peers[p]) {
      assert PeerOk(g, n.currentTerm, p, n.peers[p]);
      AckGrows(g.h, g2.h, p, n.currentTerm, n.peers[p].matchIndex);
    }
  }

  lemma RecvSame(g: Ghost, g2: Ghost, v: NodeId, t: nat, r: Recv)
    requires RecvOk(g, v, t, r) && g2.sn == g.sn && g2.started == g.started && g2.rt == g.rt
    ensures RecvOk(g2, v, t, r)
  {
  }

  /** The leader's node with the entry, before the membership is looked at. */
  function Extended(n: Node, cmd: Command): Node
    requires n.st.log != []
  {
    n.(st := AppendStore(n.st, Entry(n.currentTerm, LastIndex(n.st) + 1, cmd)))
  }

  lemma AppendTermOk(g: Ghost, v: NodeId, n: Node, cmd: Command)
    requires TermOk(g.h, v, n) && n.st.log != []
    ensures TermOk(AppendGhost(g, v, cmd).h, v, Extended(n, cmd))
  {
  }

  lemma ExtendedRest(app: App, g: Ghost, v: NodeId, n: Node, cmd: Command)
    requires NodeParts(app, g, v, n) && n.role == Leader && n.st.log != []
    ensures var n2 := Extended(n, cmd);
      n2.role == Leader && RecvOk(AppendGhost(g, v, cmd), v, n2.currentTerm, n2.recv) && RoundsOk(n2)
  {
    RecvSame(g, AppendGhost(g, v, cmd), v, n.currentTerm, n.recv);
    hide RecvOk, LogRep, LeadParts;
  }

  lemma ExtendedRep(app: App, g: Ghost, v: NodeId, n: Node, cmd: Command)
    requires NodeParts(app, g, v, n) && S.Grows(g.h, AppendGhost(g, v, cmd).h)
    ensures var g2 := AppendGhost(g, v, cmd);
      n.st.log != [] && v in g2.h.log && LogRep(app, g2.h, Extended(n, cmd), g2.h.log[v])
  {
    hide LogRep, SnapOk, ConfRep;
    PartsFacts(app, g, v, n);
    var full := g.h.log[v];
    RepFacts(n.st, full);
    hide LogRep, LeadParts, RecvOk, S.Grows, AppendStore, Rep, Valid;
    AppendRep(app, g.h, AppendGhost(g, v, cmd).h, n, full, Entry(n.currentTerm, LastIndex(n.st) + 1, cmd));
  }

  lemma AppendedNode(app: App, g: Ghost, v: NodeId, n: Node, cmd: Command)
    requires NodeParts(app, g, v, n) && n.role == Leader && S.Grows(g.h, AppendGhost(g, v, cmd).h)
    requires LeadOk(AppendGhost(g, v, cmd), v, Extended(n, cmd))
    ensures NodeOk(app, AppendGhost(g, v, cmd), v, Extended(n, cmd))
  {
    hide S.Grows, LeadParts, LeadOk, LogRep, RecvOk, RoundsOk, Extended, AppendGhost, TermOk;
    ExtendedRep(app, g, v, n, cmd);
    AppendTermOk(g, v, n, cmd);
    ExtendedRest(app, g, v, n, cmd);
  }

  lemma MovesOn(a: Node, b: Node, c: Node)
    requires Moves(a, b)
    ensures Moves(b, c) ==> Moves(a, c)
  {
  }

  lemma AppendNode(app: App, g: Ghost, v: NodeId, n: Node, cmd: Command)
    requires NodeParts(app, g, v, n) && n.role == Leader && S.Grows(g.h, AppendGhost(g, v, cmd).h)
    requires LeadOk(AppendGhost(g, v, cmd), v, Extended(n, cmd))
    ensures NodeOk(app, AppendGhost(g, v, cmd), v, AppendLocal(n, cmd)) && Moves(n, AppendLocal(n, cmd))
  {
    assert AppendLocal(n, cmd) == if cmd.Config? then Reconcile(Extended(n, cmd)) else Extended(n, cmd);
    assert Moves(n, Extended(n, cmd));
    hide NodeOk, NodeParts, LeadOk, S.Grows, Extended, Reconcile, Moves, AppendLocal;
    AppendedNode(app, g, v, n, cmd);
    ReconcileOk(app, AppendGhost(g, v, cmd), v, Extended(n, cmd));
    MovesOn(n, Extended(n, cmd), Reconcile(Extended(n, cmd)));
  }

  lemma AppendLocalOk(app: App, g: Ghost, v: NodeId, n: Node, cmd: Command)
    requires HistOk(g) && NodeParts(app, g, v, n) && n.role == Leader && CommandAllowed(g.h, v, cmd)
    ensures v in g.h.term && v in g.h.log && n.st.log != []
    ensures var g2 := AppendGhost(g, v, cmd);
      && HistOk(g2) && HistBy(g.h, g2.h, v) && NodeOk(app, g2, v, AppendLocal(n, cmd)) && Moves(n, AppendLocal(n, cmd))
  {
    hide HistOk, HistBy, Rep, LeadParts, LastIndex, AppendStore, LeadOk, LogShape, LogRep, RecvOk;
    PartsFacts(app, g, v, n);
    AppendHist(g, v, cmd);
    AppendLead(g, v, n, cmd);
    AppendNode(app, g, v, n, cmd);
  }

  // ---------- the commit rule ----------

  function CommitGhost(g: Ghost, v: NodeId, n: Node): Ghost
    requires CommitInLog(n) && v in g.h.term && v in g.h.log
  {
    var k := NewCommit(n, LastIndex(n.st));
    if n.role == Leader && k > n.commitIndex
    then g.(h := S.CommitAt(g.h, v, k, Ids(n.st.config) * Holders(n, k))) else g
  }

  lemma QuorumStores(app: App, g: Ghost, v: NodeId, n: Node, k: nat)
    requires HistOk(g) && NodeOk(app, g, v, n) && n.role == Leader && 0 < k <= LastIndex(n.st)
    requires InLog(n.st, k) && TermAt(n.st, k) == n.currentTerm && Quorum(n.st.config, Holders(n, k))
    ensures CommitOk(g.h, Commit(n.currentTerm, k, |g.h.log[v]|, Ids(n.st.config) * Holders(n, k)))
  {
    var full := g.h.log[v];
    var t := n.currentTerm;
    RepFacts(n.st, full);
    assert TermAt(n.st, k) == TermOf(full, k);
    assert g.h.ll[t][..|full|] == full;
    assert LogOk(g.h, v);
    QuorumOfMembers(n.st.config, Holders(n, k));
    forall w | w in Ids(n.st.config) * Holders(n, k) ensures Acked(g.h, w, t, k) {
      if w != v { assert PeerOk(g, t, w, n.peers[w]); }
    }
  }

  lemma CommitLead(g: Ghost, g2: Ghost, v: NodeId, n: Node, k: nat)
    requires LeadOk(g, v, n) && n.role == Leader && k >= n.commitIndex && S.Grows(g.h, g2.h)
    requires exists q :: g2 == g.(h := g.h.(commits := g.h.commits + {Commit(n.currentTerm, k, |g.h.log[v]|, q)}))
    requires v in g.h.log
    ensures LeadOk(g2, v, n.(commitIndex := k))
  {
    forall p | p in n.peers ensures PeerOk(g2, n.currentTerm, p, n.peers[p]) {
      assert PeerOk(g, n.currentTerm, p, n.peers[p]);
    }
  }

  lemma CommitLog(app: App, g: Ghost, g2: Ghost, v: NodeId, n: Node, k: nat, q: set<NodeId>)
    requires NodeOk(app, g, v, n) && S.Leads(g.h, v) && n.commitIndex < k <= LastIndex(n.st) && n.role == Leader
    requires g2 == g.(h := S.CommitAt(g.h, v, k, q)) && S.Grows(g.h, g2.h)
    ensures LogRep(app, g2.h, n.(commitIndex := k), g.h.log[v])
  {
    var full := g.h.log[v];
    RepFacts(n.st, full);
    assert Covers(g2.h, Commit(n.currentTerm, k, |full|, q), full[..k]);
  }

  lemma RaiseCommit(app: App, g: Ghost, v: NodeId, n: Node)
    requires HistOk(g) && NodeOk(app, g, v, n) && n.role == Leader && NewCommit(n, LastIndex(n.st)) > n.commitIndex
    ensures var g2 := CommitGhost(g, v, n);
      && HistOk(g2) && HistBy(g.h, g2.h, v)
  {
    hide NodeParts, CommitOk, Quorum, NodeOk, Inv, HistBy, S.Grows;
    NodeFacts(app, g, v, n);
    NewCommitRange(n, LastIndex(n.st));
    var k := NewCommit(n, LastIndex(n.st));
    var q := Ids(n.st.config) * Holders(n, k);
    QuorumStores(app, g, v, n, k);
    S.CommitStep(g.h, v, k, q);
    CommittedBy(g.h, v, k, q);
  }

  lemma CommittedBy(h: Hist, v: NodeId, k: nat, q: set<NodeId>)
    requires S.Leads(h, v) && S.Grows(h, S.CommitAt(h, v, k, q))
    ensures HistBy(h, S.CommitAt(h, v, k, q), v)
  {
  }

  lemma RaisedNode(app: App, g: Ghost, v: NodeId, n: Node)
    requires NodeOk(app, g, v, n) && n.role == Leader && NewCommit(n, LastIndex(n.st)) > n.commitIndex
    requires S.Grows(g.h, CommitGhost(g, v, n).h)
    ensures NodeOk(app, CommitGhost(g, v, n), v, n.(commitIndex := NewCommit(n, LastIndex(n.st))))
  {
    var g2 := CommitGhost(g, v, n);
    NewCommitRange(n, LastIndex(n.st));
    var k := NewCommit(n, LastIndex(n.st));
    CommitLog(app, g, g2, v, n, k, Ids(n.st.config) * Holders(n, k));
    CommitLead(g, g2, v, n, k);
    RecvSame(g, g2, v, n.currentTerm, n.recv);
  }

  /** A leader with its commit index raised, still leading or not. */
  lemma CommittedOk(app: App, g: Ghost, v: NodeId, n: Node)
    requires HistOk(g) && NodeOk(app, g, v, n) && n.role == Leader
    ensures CommitInLog(n) && v in g.h.term && v in g.h.log
    ensures var g2, m := CommitGhost(g, v, n), n.(commitIndex := NewCommit(n, LastIndex(n.st)));
      && HistOk(g2) && HistBy(g.h, g2.h, v) && n.commitIndex <= m.commitIndex
      && NodeOk(app, g2, v, m) && NodeOk(app, g2, v, m.(role := Follower))
  {
    hide NodeOk, HistOk, HistBy, NodeParts, NewCommit;
    NodeFacts(app, g, v, n);
    HistByRefl(g.h, v);
    NewCommitRange(n, LastIndex(n.st));
    var m := n.(commitIndex := NewCommit(n, LastIndex(n.st)));
    if m.commitIndex > n.commitIndex {
      RaiseCommit(app, g, v, n);
      GrownByHist(g.h, CommitGhost(g, v, n).h, v);
      RaisedNode(app, g, v, n);
    } else {
      assert m == n;
    }
    FollowerOk(app, CommitGhost(g, v, n), v, m);
  }

  lemma GrownByHist(h: Hist, h2: Hist, v: NodeId)
    requires HistBy(h, h2, v)
    ensures S.Grows(h, h2)
  {
  }

  lemma AdvanceCommitOk(app: App, g: Ghost, v: NodeId, n: Node)
    requires HistOk(g) && NodeOk(app, g, v, n)
    ensures CommitInLog(n) && v in g.h.term && v in g.h.log
    ensures var g2 := CommitGhost(g, v, n);
      && HistOk(g2) && HistBy(g.h, g2.h, v) && NodeOk(app, g2, v, AdvanceCommit(n)) && Moves(n, AdvanceCommit(n))
  {
    hide NodeOk, HistOk, HistBy, NodeParts, NewCommit;
    NodeFacts(app, g, v, n);
    HistByRefl(g.h, v);
    if n.role == Leader { CommittedOk(app, g, v, n); }
  }

  /** AdvanceCommit after an earlier part of the same step. */
  lemma ThenCommit(app: App, g: Ghost, g1: Ghost, v: NodeId, n: Node, m: Node) returns (g2: Ghost)
    requires NodeStep(app, g, g1, v, n, m)
    ensures CommitInLog(m) && NodeStep(app, g, g2, v, n, AdvanceCommit(m))
  {
    NodeFacts(app, g1, v, m);
    hide HistOk, HistBy, NodeOk, Moves, Valid;
    AdvanceCommitOk(app, g1, v, m);
    g2 := CommitGhost(g1, v, m);
    HistByTrans(g.h, g1.h, g2.h, v);
    MovesTrans(n, m, AdvanceCommit(m));
  }

  lemma MovesTrans(a: Node, b: Node, c: Node)
    requires Moves(a, b) && Moves(b, c)
    ensures Moves(a, c)
  {
  }

  lemma FollowerOk(app: App, g: Ghost, v: NodeId, n: Node)
    requires NodeOk(app, g, v, n)
    ensures NodeOk(app, g, v, n.(role := Follower))
  {
  }

  // ---------- standing for election ----------

  lemma NotYetLeader(h: Hist, v: NodeId, t: nat)
    requires Inv(h) && v in h.term && h.term[v] < t && t in h.ll && t in h.el
    ensures h.el[t].leader != v
  {
    assert LeaderLogOk(h, t);
    assert CandidateOk(h, h.el[t].leader, t);
  }

  function StandGhost(g: Ghost, v: NodeId): Ghost
    requires v in g.h.term && v in g.h.log
  {
    g.(h := S.Stand(g.h, v))
  }

  lemma StandBy(h: Hist, v: NodeId)
    requires Inv(h) && v in h.term && v in h.log && S.Grows(h, S.Stand(h, v))
    ensures HistBy(h, S.Stand(h, v), v)
  {
    hide S.Grows;
    S.FreshTerm(h, v, h.term[v] + 1);
  }

  lemma SameLeaders(g: Ghost, h2: Hist)
    requires TermsKnown(g) && h2.ll == g.h.ll && h2.base == g.h.base
    ensures TermsKnown(g.(h := h2))
  {
  }

  lemma StandHist(g: Ghost, v: NodeId)
    requires HistOk(g) && v in g.h.term && v in g.h.log
    ensures var g2 := StandGhost(g, v); HistOk(g2) && HistBy(g.h, g2.h, v)
    ensures var t := g.h.term[v] + 1; (t in g.h.ll && t in g.h.el ==> g.h.el[t].leader != v)
  {
    hide Stand, HistBy, Inv, TermsKnown;
    var t := g.h.term[v] + 1;
    S.StandStep(g.h, v);
    StandBy(g.h, v);
    SameLeaders(g, S.Stand(g.h, v));
    hide HistBy, S.Grows, Inv, TermsKnown;
    if t in g.h.ll && t in g.h.el { NotYetLeader(g.h, v, t); }
  }

  lemma StandNode(app: App, g: Ghost, v: NodeId, n: Node)
    requires NodeOk(app, g, v, n) && S.Grows(g.h, StandGhost(g, v).h)
    requires var t := g.h.term[v] + 1; (t in g.h.ll && t in g.h.el ==> g.h.el[t].leader != v)
    ensures NodeOk(app, StandGhost(g, v), v, Stand(n)) && Moves(n, Stand(n))
  {
    var g2 := StandGhost(g, v);
    var t := n.currentTerm + 1;
    CommittedGrows(g.h, g2.h, g.h.log[v][..n.commitIndex], n.currentTerm, t);
    RecvLater(g, g2, v, n.currentTerm, t, n.recv);
  }

  lemma StandOk(app: App, g: Ghost, v: NodeId, n: Node)
    requires HistOk(g) && NodeOk(app, g, v, n)
    ensures v in g.h.term && v in g.h.log
    ensures var g2 := StandGhost(g, v);
      && HistOk(g2) && HistBy(g.h, g2.h, v) && NodeOk(app, g2, v, Stand(n)) && Moves(n, Stand(n))
  {
    NodeFacts(app, g, v, n);
    StandHist(g, v);
    StandNode(app, g, v, n);
  }

  // ---------- winning ----------

  function WinGhost(g: Ghost, v: NodeId, n: Node): Ghost
    requires v in g.h.term && (v, g.h.term[v]) in g.h.cl
  {
    g.(h := S.Win(g.h, v, Ids(n.st.config) * n.ballot.votes))
  }

  lemma CandidateWins(app: App, g: Ghost, v: NodeId, n: Node)
    requires HistOk(g) && NodeOk(app, g, v, n) && n.role == Candidate && Quorum(n.st.config, n.ballot.votes)
    ensures C.Wins(g.h, v, n.currentTerm, Ids(n.st.config) * n.ballot.votes)
    ensures n.currentTerm !in g.h.ll && n.st.config == ConfigOf(g.h.base, g.h.log[v])
  {
    var h, t := g.h, n.currentTerm;
    var q := Ids(n.st.config) * n.ballot.votes;
    assert LogOk(h, v);
    ConfigInForce(h, n.st, h.log[v]);
    QuorumOfMembers(n.st.config, n.ballot.votes);
    if t in h.ll {
      C.LeaderWins(h, t);
      C.OneWinner(h, v, q, h.el[t].leader, h.el[t].voters, t);
    }
  }

  lemma WinHist(g: Ghost, v: NodeId, n: Node)
    requires HistOk(g) && v in g.h.term && g.h.term[v] == n.currentTerm && n.currentTerm !in g.h.ll
    requires C.Wins(g.h, v, n.currentTerm, Ids(n.st.config) * n.ballot.votes)
    ensures HistOk(WinGhost(g, v, n)) && HistBy(g.h, WinGhost(g, v, n).h, v)
  {
    var t := n.currentTerm;
    var h2 := WinGhost(g, v, n).h;
    S.WinStep(g.h, v, Ids(n.st.config) * n.ballot.votes);
    assert CandidateOk(g.h, v, t);
  }

  function AsLeader(n: Node): Node
    requires n.st.log != []
  {
    n.(role := Leader, ballot := n.ballot.(prevoting := false), peers := ResetPeers(n))
  }

  lemma NoCommitYet(h: Hist, t: nat)
    requires InvCommits(h) && t !in h.ll
    ensures forall cm :: cm in h.commits ==> cm.term != t
  {
    forall cm | cm in h.commits ensures cm.term != t {
      assert CommitOk(h, cm);
    }
  }

  lemma WonRep(app: App, g: Ghost, v: NodeId, n: Node)
    requires NodeOk(app, g, v, n) && n.role == Candidate && S.Grows(g.h, WinGhost(g, v, n).h)
    ensures n.st.log != [] && LogRep(app, WinGhost(g, v, n).h, AsLeader(n), g.h.log[v])
  {
    hide S.Grows, LeadOk, RecvOk, RoundsOk, Committed, Probed;
    CommittedGrows(g.h, WinGhost(g, v, n).h, g.h.log[v][..n.commitIndex], n.currentTerm, n.currentTerm);
  }

  lemma WonLead(app: App, g: Ghost, v: NodeId, n: Node)
    requires NodeOk(app, g, v, n) && n.role == Candidate && TermsKnown(g) && n.currentTerm !in g.h.ll && n.st.log != []
    requires n.st.config == ConfigOf(g.h.base, g.h.log[v])
    requires forall cm :: cm in g.h.commits ==> cm.term != n.currentTerm
    ensures LeadParts(WinGhost(g, v, n), v, AsLeader(n))
  {
    hide LogRep, RecvOk, Probed;
  }

  lemma NewLeaderNode(app: App, g: Ghost, v: NodeId, n: Node)
    requires NodeOk(app, g, v, n) && n.role == Candidate && TermsKnown(g) && n.currentTerm !in g.h.ll
    requires n.st.config == ConfigOf(g.h.base, g.h.log[v]) && S.Grows(g.h, WinGhost(g, v, n).h)
    requires forall cm :: cm in g.h.commits ==> cm.term != n.currentTerm
    ensures NodeParts(app, WinGhost(g, v, n), v, AsLeader(n)) && Moves(n, AsLeader(n))
  {
    hide S.Grows, LeadOk, LeadParts, LogRep, RecvOk, TermsKnown, Probed;
    WonRep(app, g, v, n);
    WonLead(app, g, v, n);
    RecvSame(g, WinGhost(g, v, n), v, n.currentTerm, n.recv);
  }

  lemma NewLeaderParts(app: App, g: Ghost, v: NodeId, n: Node)
    requires HistOk(g) && NodeOk(app, g, v, n) && n.role == Candidate && Quorum(n.st.config, n.ballot.votes)
    ensures v in g.h.term && (v, g.h.term[v]) in g.h.cl && n.st.log != []
    ensures var g2 := WinGhost(g, v, n);
      HistOk(g2) && HistBy(g.h, g2.h, v) && NodeParts(app, g2, v, AsLeader(n)) && Moves(n, AsLeader(n))
  {
    NodeFacts(app, g, v, n);
    CandidateWins(app, g, v, n);
    WinHist(g, v, n);
    NoCommitYet(g.h, n.currentTerm);
    NewLeaderNode(app, g, v, n);
  }

  lemma WonAndAppended(app: App, g: Ghost, v: NodeId, n: Node) returns (g2: Ghost)
    requires HistOk(g) && NodeOk(app, g, v, n) && n.role == Candidate && Quorum(n.st.config, n.ballot.votes)
    ensures n.st.log != [] && NodeStep(app, g, g2, v, n, AppendLocal(AsLeader(n), Noop))
  {
    NodeFacts(app, g, v, n);
    NewLeaderParts(app, g, v, n);
    var g1 := WinGhost(g, v, n);
    hide HistOk, HistBy, NodeParts, Moves, NodeOk;
    AppendLocalOk(app, g1, v, AsLeader(n), Noop);
    g2 := AppendGhost(g1, v, Noop);
    HistByTrans(g.h, g1.h, g2.h, v);
    MovesTrans(n, AsLeader(n), AppendLocal(AsLeader(n), Noop));
  }

  lemma NoopFailedOk(app: App, g: Ghost, v: NodeId, n: Node)
    requires NodeOk(app, g, v, n)
    ensures CommitInLog(n) && NodeOk(app, g, v, BecomeLeader(n, false)) && Moves(n, BecomeLeader(n, false))
  {
    var m := n.(role := Follower, ballot := n.ballot.(prevoting := false), peers := ResetPeers(n));
    assert m == BecomeLeader(n, false);
  }

  lemma BecomeLeaderOk(app: App, g: Ghost, v: NodeId, n: Node, io: bool) returns (g2: Ghost)
    requires HistOk(g) && NodeOk(app, g, v, n) && n.role == Candidate && Quorum(n.st.config, n.ballot.votes)
    ensures CommitInLog(n) && NodeStep(app, g, g2, v, n, BecomeLeader(n, io))
  {
    NodeFacts(app, g, v, n);
    HistByRefl(g.h, v);
    hide HistOk, HistBy, NodeOk, Moves;
    if io {
      var g1 := WonAndAppended(app, g, v, n);
      g2 := ThenCommit(app, g, g1, v, n, AppendLocal(AsLeader(n), Noop));
    } else {
      NoopFailedOk(app, g, v, n);
      g2 := g;
    }
  }

  // ---------- changing the membership ----------

  lemma MayChangeHolds(app: App, g: Ghost, v: NodeId, n: Node, nc: Membership)
    requires HistOk(g) && NodeOk(app, g, v, n) && MayChangeConfig(n)
    requires Meet(n.st.config, nc)
    ensures S.MayChange(g.h, v, nc)
  {
    var h, t, full := g.h, n.currentTerm, g.h.log[v];
    RepFacts(n.st, full);
    assert TermAt(n.st, n.commitIndex) == TermOf(full, n.commitIndex);
    assert LeaderLogOk(h, t);
    assert CandidateOk(h, v, t);
    var p := full[..n.commitIndex];
    assert p != [] && p[|p| - 1].term == t;
    var cm :| cm in h.commits && cm.term <= t && Covers(h, cm, p);
    assert LeaderLogOk(h, cm.term);
    assert h.ll[cm.term][|p| - 1] == p[|p| - 1];
    forall j | 0 <= j < |full| && full[j].cmd.Config? ensures j < cm.n {
      ConfigsBelow(n.st, full, j);
    }
  }

  /** A leader appends one entry and looks whether it is already committed. */
  lemma AppendAndCommitOk(app: App, g: Ghost, v: NodeId, n: Node, cmd: Command) returns (g2: Ghost)
    requires HistOk(g) && NodeOk(app, g, v, n) && n.role == Leader && CommandAllowed(g.h, v, cmd)
    requires CommitInLog(n) && CommitInLog(AppendLocal(n, cmd))
    ensures NodeStep(app, g, g2, v, n, AdvanceCommit(AppendLocal(n, cmd)))
  {
    NodeFacts(app, g, v, n);
    hide HistOk, HistBy, NodeOk, NodeParts, Moves, CommandAllowed, Valid;
    AppendLocalOk(app, g, v, n, cmd);
    g2 := ThenCommit(app, g, AppendGhost(g, v, cmd), v, n, AppendLocal(n, cmd));
  }

  lemma LearnersOk(app: App, g: Ghost, v: NodeId, n: Node, learners: map<NodeId, Member>)
    requires NodeOk(app, g, v, n)
    ensures NodeOk(app, g, v, n.(learners := learners))
  {
  }
}
