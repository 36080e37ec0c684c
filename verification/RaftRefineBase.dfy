/** Facts every step of the refinement uses, and the steps in which a server
    changes term, membership peers, its own log or its commit index. */
module RaftRefineBase {
  import opened RaftTypes
  import opened RaftState
  import opened RaftNodeInvariant
  import opened RaftCluster
  import opened RaftHistory
  import C = RaftCompleteness
  import S = RaftSteps
  import opened RaftGhost

  // ---------- committed prefixes ----------

  lemma CommittedInLeader(h: Hist, p: Log, hi: nat, t: nat)
    requires Inv(h) && Committed(h, p, hi) && t in h.ll && hi <= t
    ensures p <= h.ll[t]
  {
    if p != [] {
      var cm :| cm in h.commits && cm.term <= hi && Covers(h, cm, p);
      if cm.term < t {
        assert Has(h, cm.term, cm.n, h.ll[t]);
        assert p == h.ll[cm.term][..cm.n][..|p|];
      }
    }
  }

  lemma CommittedComparable(h: Hist, p: Log, hp: nat, q: Log, hq: nat)
    requires Inv(h) && Committed(h, p, hp) && Committed(h, q, hq) && |p| <= |q|
    ensures p <= q
  {
    if p != [] {
      var a :| a in h.commits && a.term <= hp && Covers(h, a, p);
      var b :| b in h.commits && b.term <= hq && Covers(h, b, q);
      var t := if a.term <= b.term then b.term else a.term;
      WithinLeader(h, a, p, t);
      WithinLeader(h, b, q, t);
    }
  }

  lemma WithinLeader(h: Hist, cm: Commit, p: Log, t: nat)
    requires Inv(h) && cm in h.commits && Covers(h, cm, p) && t in h.ll && cm.term <= t
    ensures p <= h.ll[t]
  {
    if cm.term < t {
      assert Has(h, cm.term, cm.n, h.ll[t]);
      assert p == h.ll[cm.term][..cm.n][..|p|];
    }
  }

  lemma CommittedPrefix(h: Hist, p: Log, hi: nat, k: nat)
    requires Committed(h, p, hi) && k <= |p|
    ensures Committed(h, p[..k], hi)
  {
    if k > 0 {
      var cm :| cm in h.commits && cm.term <= hi && Covers(h, cm, p);
      assert Covers(h, cm, p[..k]);
    }
  }

  // ---------- the configuration in force ----------

  lemma {:induction false} ConfigsDescribe(entries: seq<Entry>)
    ensures var c := Configs(entries);
      if c == [] then forall k :: 0 <= k < |entries| ==> !entries[k].cmd.Config?
      else exists k :: 0 <= k < |entries| && entries[k].cmd.Config?
             && c[|c| - 1] == (entries[k].index, entries[k].cmd.members)
             && forall j :: k < j < |entries| ==> !entries[j].cmd.Config?
  {
    if entries != [] {
      var init, last := entries[..|entries| - 1], entries[|entries| - 1];
      ConfigsDescribe(init);
      if last.cmd.Config? {
        assert entries[|entries| - 1].cmd.Config?;
      } else if Configs(init) != [] {
        var k :| 0 <= k < |init| && init[k].cmd.Config?
             && Configs(init)[|Configs(init)| - 1] == (init[k].index, init[k].cmd.members)
             && forall j :: k < j < |init| ==> !init[j].cmd.Config?;
        assert entries[k] == init[k];
        assert forall j :: k < j < |init| ==> entries[j] == init[j];
      }
    }
  }

  /** The node's configuration is the one its full log puts in force (or it has learnt none yet). */
  lemma ConfigInForce(h: Hist, s: Store, full: Log)
    requires ConfigsAgree(s) && Rep(s, full) && ConfRep(h, s.snapConfig, full[..s.snapIndex])
    ensures ConfRep(h, s.config, full)
  {
    hide Configs;
    ConfigsDescribe(s.log[1..]);
    var above := full[s.snapIndex..];
    if s.logConfigs == [] {
      forall i | s.snapIndex <= i < |full| ensures !full[i].cmd.Config? {
        assert full[i] == above[i - s.snapIndex];
      }
      ConfigOfQuietSuffix(h.base, full, s.snapIndex);
    } else {
      var k :| 0 <= k < |above| && above[k].cmd.Config?
        && s.logConfigs[|s.logConfigs| - 1] == (above[k].index, above[k].cmd.members)
        && forall j :: k < j < |above| ==> !above[j].cmd.Config?;
      forall j | s.snapIndex + k < j < |full| ensures !full[j].cmd.Config? {
        assert full[j] == above[j - s.snapIndex];
      }
      ConfigOfLastAt(h.base, full, s.snapIndex + k);
    }
  }

  /** No CONFIG lies beyond both configIndex and the snapshot. */
  lemma ConfigsBelow(s: Store, full: Log, j: nat)
    requires ConfigsAgree(s) && Rep(s, full) && j < |full| && full[j].cmd.Config?
    requires forall i :: 0 <= i < |full| ==> full[i].index == i + 1
    ensures j + 1 <= s.configIndex || j + 1 <= s.snapIndex
  {
    ConfigsDescribe(s.log[1..]);
    var above := full[s.snapIndex..];
    if j >= s.snapIndex {
      assert full[j] == above[j - s.snapIndex];
    }
  }

  // ---------- frames ----------

  lemma ExtendsByHist(g: Ghost, h2: Hist, v: NodeId)
    requires HistBy(g.h, h2, v)
    ensures Extends(g, g.(h := h2), v)
  {
  }

  /** Nothing that the apply thread, reads or rounds rely on is undone. */
  predicate Moves(n: Node, n2: Node) {
    && n2.lastApplied == n.lastApplied && n.commitIndex <= n2.commitIndex
    && n.currentTerm <= n2.currentTerm && n.hbRound <= n2.hbRound
    && forall p :: p in n2.peers ==>
         n2.peers[p].ackRound == 0 || (p in n.peers && n2.peers[p].ackRound == n.peers[p].ackRound)
  }

  lemma ReadMoves(g: Ghost, g2: Ghost, v: NodeId, n: Node, n2: Node, id: nat, r: Read)
    requires ReadOk(g, v, n, id, r) && S.Grows(g.h, g2.h) && g2.begun == g.begun && g2.mid == g.mid && Moves(n, n2)
    ensures ReadOk(g2, v, n2, id, r)
  {
    if r.Confirming? {
      S.GrowsTrans(g.mid[(v, id)].hist, g.h, g2.h);
    }
  }

  lemma ReadsMove(g: Ghost, g2: Ghost, v: NodeId, sv: Server, n2: Node)
    requires ReadsOk(g, v, sv) && S.Grows(g.h, g2.h) && g2.begun == g.begun && g2.mid == g.mid && Moves(sv.n, n2)
    ensures ReadsOk(g2, v, sv.(n := n2))
  {
    var sv2 := sv.(n := n2);
    forall id | id in sv2.pending ensures ReadOk(g2, v, sv2.n, id, sv2.pending[id]) {
      assert ReadOk(g, v, sv.n, id, sv.pending[id]);
      ReadMoves(g, g2, v, sv.n, n2, id, sv.pending[id]);
    }
  }

  lemma ServerFromNode(app: App, g: Ghost, g2: Ghost, v: NodeId, sv: Server, n2: Node)
    requires ServerOk(app, g, v, sv) && S.Grows(g.h, g2.h) && g2.begun == g.begun && g2.mid == g.mid
    requires NodeOk(app, g2, v, n2) && Moves(sv.n, n2)
    ensures ServerOk(app, g2, v, sv.(n := n2))
  {
    WorkMoves(app, g.h, g2.h, sv, n2);
    ReadsMove(g, g2, v, sv, n2);
  }

  lemma WorkMoves(app: App, h: Hist, h2: Hist, sv: Server, n2: Node)
    requires S.Grows(h, h2) && WorkOk(app, h, sv) && Moves(sv.n, n2)
    ensures WorkOk(app, h2, sv.(n := n2))
  {
    var t, t2 := sv.n.currentTerm, n2.currentTerm;
    CommittedGrows(h, h2, sv.sm, t, t2);
    match sv.work
    case Applying(e) => CommittedGrows(h, h2, sv.sm + [e], t, t2);
    case Restoring(data, idx) => CommittedGrows(h, h2, app(data), t, t2);
    case _ =>
  }

  lemma RoundsMove(n: Node, n2: Node)
    requires RoundsOk(n) && Moves(n, n2)
    ensures RoundsOk(n2)
  {
  }

  // ---------- a later term ----------

  lemma SetTermBy(h: Hist, v: NodeId, t: nat)
    requires Inv(h) && v in h.term && h.term[v] <= t
    ensures Inv(S.SetTerm(h, v, t)) && HistBy(h, S.SetTerm(h, v, t), v)
  {
    S.SetTermStep(h, v, t);
  }

  function TermGhost(g: Ghost, v: NodeId, n: Node, t: nat): Ghost {
    g.(h := S.SetTerm(g.h, v, Max(n.currentTerm, t)))
  }

  lemma RecvLater(g: Ghost, g2: Ghost, v: NodeId, t: nat, t2: nat, r: Recv)
    requires RecvOk(g, v, t, r) && t <= t2 && g2.sn == g.sn && g2.started == g.started && g2.rt == g.rt
    ensures RecvOk(g2, v, t2, r)
  {
    if t < t2 { assert (v, t2) !in g.started; }
  }

  lemma StepDownOk(app: App, g: Ghost, v: NodeId, n: Node, t: nat)
    requires HistOk(g) && NodeOk(app, g, v, n)
    ensures var g2 := TermGhost(g, v, n, t);
      && HistOk(g2) && HistBy(g.h, g2.h, v)
      && NodeOk(app, g2, v, StepDown(n, t)) && Moves(n, StepDown(n, t))
      && StepDown(n, t).currentTerm == Max(n.currentTerm, t)
  {
    assert v in g.h.term && g.h.term[v] == n.currentTerm;
    SetTermBy(g.h, v, Max(n.currentTerm, t));
    hide Inv, HistBy;
    StepDownNode(app, g, v, n, t);
  }

  lemma StepDownNode(app: App, g: Ghost, v: NodeId, n: Node, t: nat)
    requires Inv(g.h) && NodeOk(app, g, v, n) && S.Grows(g.h, TermGhost(g, v, n, t).h)
    ensures NodeOk(app, TermGhost(g, v, n, t), v, StepDown(n, t)) && Moves(n, StepDown(n, t))
  {
    hide Inv, LogRep, LeadOk, RecvOk, RoundsOk, S.Grows, TermOk;
    StepDownRep(app, g, v, n, t);
    StepDownTerm(app, g, v, n, t);
    StepDownRest(app, g, v, n, t);
  }

  lemma StepDownRep(app: App, g: Ghost, v: NodeId, n: Node, t: nat)
    requires NodeOk(app, g, v, n) && S.Grows(g.h, TermGhost(g, v, n, t).h)
    ensures LogRep(app, TermGhost(g, v, n, t).h, StepDown(n, t), g.h.log[v])
  {
    hide Committed, CandOk, LeadOk, RecvOk, RoundsOk, S.Grows;
    CommittedGrows(g.h, TermGhost(g, v, n, t).h, g.h.log[v][..n.commitIndex], n.currentTerm, Max(n.currentTerm, t));
  }

  lemma StepDownTerm(app: App, g: Ghost, v: NodeId, n: Node, t: nat)
    requires Inv(g.h) && NodeOk(app, g, v, n)
    ensures TermOk(TermGhost(g, v, n, t).h, v, StepDown(n, t))
  {
    hide Inv, LogRep, LeadOk, RecvOk, CandOk;
    if t > n.currentTerm { S.FreshTerm(g.h, v, t); }
  }

  lemma StepDownRest(app: App, g: Ghost, v: NodeId, n: Node, t: nat)
    requires NodeOk(app, g, v, n)
    ensures var g2, n2 := TermGhost(g, v, n, t), StepDown(n, t);
      LeadOk(g2, v, n2) && RecvOk(g2, v, n2.currentTerm, n2.recv) && RoundsOk(n2) && n2.role == Follower
  {
    hide LogRep, TermOk, CandOk;
    RecvLater(g, TermGhost(g, v, n, t), v, n.currentTerm, Max(n.currentTerm, t), n.recv);
    hide RecvOk;
  }

  lemma FollowOk(app: App, g: Ghost, v: NodeId, n: Node, t: nat)
    requires HistOk(g) && NodeOk(app, g, v, n) && n.currentTerm <= t
    ensures var g2 := TermGhost(g, v, n, t);
      && HistOk(g2) && HistBy(g.h, g2.h, v)
      && NodeOk(app, g2, v, Follow(n, t)) && Moves(n, Follow(n, t))
      && Follow(n, t).currentTerm == t && Follow(n, t).role == Follower && g2.h.term[v] == t
  {
    hide HistBy, LogRep;
    StepDownOk(app, g, v, n, t);
    if t == n.currentTerm && n.role == Follower {
      assert TermGhost(g, v, n, t).h.term == g.h.term;
      assert TermGhost(g, v, n, t).h == g.h;
      assert TermGhost(g, v, n, t) == g;
    }
  }

  // ---------- membership peers ----------

  lemma ReconcileMoves(n: Node)
    requires n.st.log != []
    ensures Moves(n, Reconcile(n)) && Reconcile(n).st == n.st && Reconcile(n).recv == n.recv
    ensures forall p :: p in Reconcile(n).peers ==>
      (p in n.peers && Reconcile(n).peers[p] == n.peers[p])
      || (Reconcile(n).peers[p].matchIndex == 0 && Reconcile(n).peers[p].snapSending == 0 && Reconcile(n).peers[p].ackRound == 0)
  {
  }

  lemma ReconcileLead(g: Ghost, v: NodeId, n: Node)
    requires LeadParts(g, v, n) && n.st.log != []
    ensures LeadParts(g, v, Reconcile(n))
  {
    ReconcileMoves(n);
    var n2 := Reconcile(n);
    if n.role == Leader {
      forall p | p in n2.peers ensures PeerOk(g, n.currentTerm, p, n2.peers[p]) {
        if p in n.peers && n2.peers[p] == n.peers[p] { assert PeerOk(g, n.currentTerm, p, n.peers[p]); }
      }
    }
  }

  lemma ReconcileOk(app: App, g: Ghost, v: NodeId, n: Node)
    requires NodeOk(app, g, v, n)
    ensures NodeOk(app, g, v, Reconcile(n)) && Moves(n, Reconcile(n))
  {
    ReconcileMoves(n);
    ReconcileLead(g, v, n);
    RoundsMove(n, Reconcile(n));
  }
}
