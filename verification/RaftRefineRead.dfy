/** ReadIndex: a leader that a majority still followed after the call began
    knows every commit made before it. */
module RaftRefineRead {
  import opened RaftTypes
  import opened RaftState
  import opened RaftNodeInvariant
  import opened RaftCluster
  import opened RaftHistory
  import C = RaftCompleteness
  import S = RaftSteps
  import opened RaftGhost
  import opened RaftRefineBase
  import opened RaftRefineLeader
  import opened RaftRefineAppend
  import opened RaftRefineLocal

  // ---------- no later leader ----------

  /** No member of q had left term t when the history was hm. */
  ghost predicate Stayed(hm: Hist, q: set<NodeId>, t: nat) {
    forall p :: p in q ==> p in hm.term && hm.term[p] <= t
  }

  /** Every CONFIG of log b, whose leaders' terms are at most t, was justified
      by a commit that leader t's log a contains. */
  lemma CandidateSettled(h: Hist, a: Log, b: Log, t: nat, d: nat)
    requires Inv(h) && t in h.ll && a == h.ll[t] && Pref(h, b) && IsLcp(b, a, d)
    requires forall i :: 0 <= i < |b| ==> b[i].term <= t
    ensures SettledAfter(h, b, d)
  {
    forall i: nat, x | d <= i < |b| && b[i].cmd.Config? && Justifies(h, x, b, i) ensures x.n <= d {
      assert CommitOk(h, x);
      if x.term < t { assert Has(h, x.term, x.n, h.ll[t]); }
      C.SharedIfHeld(h, b, a, d, i, x);
    }
    C.SettleBy(h, b, d);
  }

  lemma VoterInQuorum(hm: Hist, h: Hist, t: nat, q: set<NodeId>, u: nat) returns (p: NodeId)
    requires Inv(hm) && Inv(h) && S.Grows(hm, h) && t in hm.ll && Quorum(Conf(h, h.ll[t]), q)
    requires t < u && u in hm.ll && forall x :: x in hm.ll && x < u ==> x <= t
    ensures p in q && p in hm.term && u <= hm.term[p]
  {
    assert LeaderLogOk(hm, u) && ElectionOk(hm, u) && LeaderLogOk(h, t);
    var e, a := hm.el[u], h.ll[t];
    var b := hm.cl[(e.leader, u)];
    C.LeaderWins(h, u);
    LeaderPref(h, t);
    var d := LcpExists(a, b, 0);
    C.WinnerSideSettled(h, a, e.leader, u, e.voters, d);
    C.LcpSym(a, b, d);
    CandidateTerms(hm, e.leader, u, t);
    S.PrefGrows(hm, h, b);
    CandidateSettled(h, a, b, t, d);
    MembershipsMeet(h, a, b, d);
    SharedServer(Conf(h, a), Conf(h, b), q, e.voters);
    p :| p in q * e.voters;
    assert VoteOk(hm, p, u);
  }

  lemma CandidateTerms(h: Hist, c: NodeId, u: nat, t: nat)
    requires Inv(h) && (c, u) in h.cl && forall x :: x in h.ll && x < u ==> x <= t
    ensures Pref(h, h.cl[(c, u)]) && forall i :: 0 <= i < |h.cl[(c, u)]| ==> h.cl[(c, u)][i].term <= t
  {
    var b := h.cl[(c, u)];
    assert CandidateOk(h, c, u);
    forall i | 0 <= i < |b| ensures b[i].term <= t {
      PrefixOfLeader(h, b, i);
    }
  }

  lemma {:induction false} NoLaterLeader(hm: Hist, h: Hist, t: nat, q: set<NodeId>, u: nat)
    requires Inv(hm) && Inv(h) && S.Grows(hm, h) && t in hm.ll && Quorum(Conf(h, h.ll[t]), q)
    requires Stayed(hm, q, t) && u in hm.ll
    ensures u <= t
    decreases u
  {
    if t < u {
      forall x | x in hm.ll && x < u ensures x <= t {
        NoLaterLeader(hm, h, t, q, x);
      }
      var p := VoterInQuorum(hm, h, t, q, u);
    }
  }

  /** If a majority of leader t's membership had not left term t, every commit so far is of term t or less. */
  lemma NoLaterCommit(hm: Hist, h: Hist, t: nat, q: set<NodeId>)
    requires Inv(hm) && Inv(h) && S.Grows(hm, h) && t in hm.ll && Quorum(Conf(h, h.ll[t]), q)
    requires Stayed(hm, q, t)
    ensures forall cm :: cm in hm.commits ==> cm.term <= t
  {
    forall cm | cm in hm.commits ensures cm.term <= t {
      assert CommitOk(hm, cm);
      NoLaterLeader(hm, h, t, q, cm.term);
    }
  }

  // ---------- what the leader's commit index covers ----------

  /** A leader that has committed an entry of its own term knows all commits up to its term. */
  lemma ReadIndexCovers(app: App, g: Ghost, v: NodeId, n: Node)
    requires HistOk(g) && NodeOk(app, g, v, n) && n.role == Leader
    requires InLog(n.st, n.commitIndex) && TermAt(n.st, n.commitIndex) == n.currentTerm
    ensures forall cm :: cm in g.h.commits && cm.term <= n.currentTerm ==> cm.n <= n.commitIndex
  {
    var full, t := g.h.log[v], n.currentTerm;
    RepFacts(n.st, full);
    assert TermAt(n.st, n.commitIndex) == TermOf(full, n.commitIndex);
    assert LeaderLogOk(g.h, t) && CandidateOk(g.h, v, t);
    var last: nat := n.commitIndex - 1;
    forall cm | cm in g.h.commits && cm.term < t ensures cm.n <= n.commitIndex {
      assert CommitOk(g.h, cm) && Has(g.h, cm.term, cm.n, g.h.ll[t]);
      assert full[cm.n - 1] == g.h.ll[cm.term][..cm.n][cm.n - 1];
      var own: nat := cm.n - 1;
      if last < own { TermsMonotone(g.h, t, last, own); }
    }
  }

  lemma QuorumOfLeader(app: App, g: Ghost, v: NodeId, n: Node, s: set<NodeId>)
    requires HistOk(g) && NodeOk(app, g, v, n) && n.role == Leader && Quorum(n.st.config, s)
    ensures n.currentTerm in g.h.ll && Quorum(Conf(g.h, g.h.ll[n.currentTerm]), Ids(n.st.config) * s)
  {
    LeaderConfig(app, g, v, n);
    QuorumOfMembers(n.st.config, s);
  }

  // ---------- the steps of a read ----------

  function BegunGhost(g: Ghost, v: NodeId, id: nat): Ghost {
    g.(begun := g.begun[(v, id) := g.h.commits])
  }

  lemma SameHistory(app: App, g: Ghost, g2: Ghost, v: NodeId, sv: Server)
    requires HistOk(g) && ServerOk(app, g, v, sv) && g2 == g.(begun := g2.begun, mid := g2.mid)
    ensures HistOk(g2) && HistBy(g.h, g2.h, v) && NodeOk(app, g2, v, sv.n) && WorkOk(app, g2.h, sv)
  {
    HistByRefl(g.h, v);
    if sv.n.role == Leader {
      forall p | p in sv.n.peers ensures PeerOk(g2, sv.n.currentTerm, p, sv.n.peers[p]) {
        assert PeerOk(g, sv.n.currentTerm, p, sv.n.peers[p]);
      }
    }
  }

  lemma Compose(app: App, g: Ghost, g2: Ghost, v: NodeId, sv2: Server)
    requires HistOk(g2) && Extends(g, g2, v)
    requires NodeOk(app, g2, v, sv2.n) && WorkOk(app, g2.h, sv2) && ReadsOk(g2, v, sv2)
    ensures ServerGood(app, g, g2, v, sv2)
  {
  }

  lemma BegunReads(g: Ghost, v: NodeId, sv: Server, id: nat)
    requires ReadsOk(g, v, sv) && id !in sv.pending
    ensures ReadsOk(BegunGhost(g, v, id), v, sv.(pending := sv.pending[id := Waiting(sv.n.currentTerm)]))
  {
    var sv2 := sv.(pending := sv.pending[id := Waiting(sv.n.currentTerm)]);
    forall i | i in sv2.pending ensures ReadOk(BegunGhost(g, v, id), v, sv2.n, i, sv2.pending[i]) {
      if i != id { assert ReadOk(g, v, sv.n, i, sv.pending[i]); }
    }
  }

  lemma BegunExtends(g: Ghost, v: NodeId, id: nat)
    requires HistBy(g.h, g.h, v)
    ensures Extends(g, BegunGhost(g, v, id), v)
  {
  }

  lemma ReadBeginStep(app: App, g: Ghost, v: NodeId, sv: Server, id: nat) returns (g2: Ghost)
    requires HistOk(g) && ServerOk(app, g, v, sv) && id !in sv.pending
    ensures ServerGood(app, g, g2, v, sv.(pending := sv.pending[id := Waiting(sv.n.currentTerm)])) && g2 == BegunGhost(g, v, id)
  {
    hide Inv;
    g2 := BegunGhost(g, v, id);
    SameHistory(app, g, g2, v, sv);
    BegunReads(g, v, sv, id);
    BegunExtends(g, v, id);
    hide HistOk, NodeOk, ReadsOk, Extends;
    Compose(app, g, g2, v, sv.(pending := sv.pending[id := Waiting(sv.n.currentTerm)]));
  }

  lemma ReadsBut(app: App, g: Ghost, v: NodeId, sv: Server, id: nat, r: Read)
    requires HistOk(g) && ServerOk(app, g, v, sv) && ReadOk(g, v, sv.n, id, r)
    ensures ServerGood(app, g, g, v, sv.(pending := sv.pending[id := r]))
  {
    var sv2 := sv.(pending := sv.pending[id := r]);
    forall i | i in sv2.pending ensures ReadOk(g, v, sv2.n, i, sv2.pending[i]) {
      if i != id { assert ReadOk(g, v, sv.n, i, sv.pending[i]); }
    }
    hide HistOk, NodeOk, ReadOk;
    SameGhost(app, g, v, sv2);
  }

  lemma AloneIsCurrent(app: App, g: Ghost, v: NodeId, n: Node)
    requires HistOk(g) && NodeOk(app, g, v, n) && n.role == Leader && Quorum(n.st.config, {n.id})
    requires InLog(n.st, n.commitIndex) && TermAt(n.st, n.commitIndex) == n.currentTerm
    ensures AllBelow(g.h.commits, n.commitIndex)
  {
    QuorumOfLeader(app, g, v, n, {n.id});
    ReadIndexCovers(app, g, v, n);
    S.GrowsRefl(g.h);
    NoLaterCommit(g.h, g.h, n.currentTerm, Ids(n.st.config) * {n.id});
  }

  function RoundMark(g: Ghost, v: NodeId, n: Node, id: nat): Ghost {
    g.(mid := g.mid[(v, id) := Mark(g.h, n.currentTerm, n.hbRound + 1)])
  }

  lemma NextRound(app: App, g: Ghost, v: NodeId, n: Node)
    requires NodeOk(app, g, v, n)
    ensures NodeOk(app, g, v, n.(hbRound := n.hbRound + 1))
  {
  }

  lemma MarkExtends(app: App, g: Ghost, v: NodeId, n: Node, id: nat)
    requires HistOk(g) && NodeOk(app, g, v, n) && n.role == Leader
    ensures HistOk(RoundMark(g, v, n, id)) && Extends(g, RoundMark(g, v, n, id), v)
  {
    HistByRefl(g.h, v);
  }

  lemma NewRoundOk(app: App, g: Ghost, v: NodeId, sv: Server, id: nat)
    requires HistOk(g) && ServerOk(app, g, v, sv) && sv.n.role == Leader
    requires id in sv.pending && sv.pending[id].Waiting? && sv.pending[id].term == sv.n.currentTerm
    requires InLog(sv.n.st, sv.n.commitIndex) && TermAt(sv.n.st, sv.n.commitIndex) == sv.n.currentTerm
    ensures var n2 := sv.n.(hbRound := sv.n.hbRound + 1);
      ReadOk(RoundMark(g, v, sv.n, id), v, n2, id, Confirming(sv.n.currentTerm, sv.n.commitIndex, n2.hbRound))
  {
    ReadIndexCovers(app, g, v, sv.n);
    S.GrowsRefl(g.h);
    assert ReadOk(g, v, sv.n, id, sv.pending[id]);
  }

  lemma OtherReadsRound(g: Ghost, g2: Ghost, v: NodeId, sv: Server, id: nat, i: nat)
    requires ReadsOk(g, v, sv) && i in sv.pending && i != id && g2 == RoundMark(g, v, sv.n, id)
    ensures ReadOk(g2, v, sv.n.(hbRound := sv.n.hbRound + 1), i, sv.pending[i])
  {
    assert ReadOk(g, v, sv.n, i, sv.pending[i]);
  }

  lemma ReadRoundStep(app: App, g: Ghost, v: NodeId, sv: Server, id: nat) returns (g2: Ghost)
    requires HistOk(g) && ServerOk(app, g, v, sv) && sv.n.role == Leader
    requires id in sv.pending && sv.pending[id].Waiting? && sv.pending[id].term == sv.n.currentTerm
    requires InLog(sv.n.st, sv.n.commitIndex) && TermAt(sv.n.st, sv.n.commitIndex) == sv.n.currentTerm
    ensures ServerGood(app, g, g2, v, BeginRound(sv, id)) && g2 == g.(mid := g2.mid)
  {
    g2 := g;
    if Quorum(sv.n.st.config, {sv.n.id}) {
      AloneIsCurrent(app, g, v, sv.n);
      assert ReadOk(g, v, sv.n, id, sv.pending[id]);
      hide HistOk, NodeOk, WorkOk, ReadsOk;
      ReadsBut(app, g, v, sv, id, Ready(sv.n.commitIndex));
    } else {
      g2 := NewRound(app, g, v, sv, id);
    }
  }

  lemma NewRound(app: App, g: Ghost, v: NodeId, sv: Server, id: nat) returns (g2: Ghost)
    requires HistOk(g) && ServerOk(app, g, v, sv) && sv.n.role == Leader
    requires id in sv.pending && sv.pending[id].Waiting? && sv.pending[id].term == sv.n.currentTerm
    requires InLog(sv.n.st, sv.n.commitIndex) && TermAt(sv.n.st, sv.n.commitIndex) == sv.n.currentTerm
    requires !Quorum(sv.n.st.config, {sv.n.id})
    ensures ServerGood(app, g, g2, v, BeginRound(sv, id)) && g2 == g.(mid := g2.mid)
  {
    hide HistOk, NodeOk, ReadsOk, Extends;
    var sv2 := BeginRound(sv, id);
    g2 := RoundMark(g, v, sv.n, id);
    MarkExtends(app, g, v, sv.n, id);
    RoundReads(app, g, v, sv, id);
    SameHistory(app, g, g2, v, sv);
    NextRound(app, g2, v, sv.n);
    Compose(app, g, g2, v, sv2);
  }

  lemma RoundReads(app: App, g: Ghost, v: NodeId, sv: Server, id: nat)
    requires HistOk(g) && ServerOk(app, g, v, sv) && sv.n.role == Leader
    requires id in sv.pending && sv.pending[id].Waiting? && sv.pending[id].term == sv.n.currentTerm
    requires InLog(sv.n.st, sv.n.commitIndex) && TermAt(sv.n.st, sv.n.commitIndex) == sv.n.currentTerm
    requires !Quorum(sv.n.st.config, {sv.n.id})
    ensures ReadsOk(RoundMark(g, v, sv.n, id), v, BeginRound(sv, id))
  {
    hide ReadOk;
    var sv2, g2 := BeginRound(sv, id), RoundMark(g, v, sv.n, id);
    NewRoundOk(app, g, v, sv, id);
    hide HistOk, NodeOk, WorkOk, ReadOk;
    forall i | i in sv2.pending ensures ReadOk(g2, v, sv2.n, i, sv2.pending[i]) {
      if i != id { OtherReadsRound(g, g2, v, sv, id, i); }
    }
  }

  /** A majority answered a round numbered after the call began. */
  lemma ConfirmedIsCurrent(app: App, g: Ghost, v: NodeId, sv: Server, id: nat)
    requires HistOk(g) && ServerOk(app, g, v, sv) && sv.n.role == Leader
    requires id in sv.pending && sv.pending[id].Confirming? && sv.pending[id].term == sv.n.currentTerm
    requires Quorum(sv.n.st.config, Confirmers(sv.n, sv.pending[id].round))
    ensures ReadOk(g, v, sv.n, id, Ready(sv.pending[id].ri))
  {
    hide Quorum, Inv;
    var n, r := sv.n, sv.pending[id];
    assert ReadOk(g, v, n, id, r);
    var k := g.mid[(v, id)];
    var q := Ids(n.st.config) * Confirmers(n, r.round);
    QuorumOfLeader(app, g, v, n, Confirmers(n, r.round));
    NoLaterCommit(k.hist, g.h, r.term, q);
  }

  lemma ReadConfirmStep(app: App, g: Ghost, v: NodeId, sv: Server, id: nat)
    requires HistOk(g) && ServerOk(app, g, v, sv) && sv.n.role == Leader
    requires id in sv.pending && sv.pending[id].Confirming? && sv.pending[id].term == sv.n.currentTerm
    requires Quorum(sv.n.st.config, Confirmers(sv.n, sv.pending[id].round))
    ensures ServerGood(app, g, g, v, sv.(pending := sv.pending[id := Ready(sv.pending[id].ri)]))
  {
    ConfirmedIsCurrent(app, g, v, sv, id);
    hide HistOk, ServerOk, ReadOk;
    ReadsBut(app, g, v, sv, id, Ready(sv.pending[id].ri));
  }

  lemma ReadReturnStep(app: App, g: Ghost, v: NodeId, sv: Server, id: nat)
    requires HistOk(g) && ServerOk(app, g, v, sv)
    ensures ServerGood(app, g, g, v, sv.(pending := sv.pending - {id}))
  {
    var sv2 := sv.(pending := sv.pending - {id});
    forall i | i in sv2.pending ensures ReadOk(g, v, sv2.n, i, sv2.pending[i]) {
      assert ReadOk(g, v, sv.n, i, sv.pending[i]);
    }
    hide HistOk, NodeOk, ReadOk;
    SameGhost(app, g, v, sv2);
  }
}
