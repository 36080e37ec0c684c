/** The relation between a cluster and its history, and how it survives a
    step of one server. */
module RaftGhost {
  import opened Wrappers
  import opened RaftTypes
  import opened RaftState
  import opened RaftNodeInvariant
  import opened RaftCluster
  import opened RaftHistory
  import S = RaftSteps

  /** The history when a read numbered its heartbeat round. */
  datatype Mark = Mark(hist: Hist, term: nat, round: nat)

  datatype Ghost = Ghost(
    h: Hist,
    sn: map<(nat, nat), Bytes>,             // (term, index) -> bytes the leader of term sends for index
    started: set<(NodeId, nat)>,             // (v, t): v took the first chunk of a transfer of t's leader
    rt: map<NodeId, nat>,                   // the term whose leader filled v's receive buffer
    hb: map<nat, nat>,                      // highest round number sent in a term
    begun: map<(NodeId, nat), set<Commit>>, // commits when a read call began
    mid: map<(NodeId, nat), Mark>)

  // ---------- logs as the node stores them ----------

  function TermOf(full: Log, i: nat): nat
    requires i <= |full|
  {
    if i == 0 then 0 else full[i - 1].term
  }

  /** The log array holds the part of the full log above the snapshot. */
  ghost predicate Rep(s: Store, full: Log) {
    && LogShape(s) && s.snapIndex <= |full| && s.log[1..] == full[s.snapIndex..]
    && s.snapTerm == TermOf(full, s.snapIndex)
  }

  lemma RepFacts(s: Store, full: Log)
    requires Rep(s, full)
    ensures LastIndex(s) == |full|
    ensures forall i {:trigger TermAt(s, i)} {:trigger TermOf(full, i)} ::
      s.snapIndex <= i <= |full| ==> TermAt(s, i) == TermOf(full, i)
    ensures forall k {:trigger s.log[k]} :: 0 < k < |s.log| ==> s.log[k] == full[s.snapIndex + k - 1]
  {
    forall k | 0 < k < |s.log| ensures s.log[k] == full[s.snapIndex + k - 1] {
      assert s.log[1..][k - 1] == full[s.snapIndex..][k - 1];
    }
    forall i | s.snapIndex <= i <= |full| ensures TermAt(s, i) == TermOf(full, i) {
      if i > s.snapIndex { assert s.log[i - s.snapIndex] == full[i - 1]; }
    }
  }

  /** p is committed by a leader of term at most hi. */
  ghost predicate Committed(h: Hist, p: Log, hi: nat) {
    p == [] || exists cm :: cm in h.commits && cm.term <= hi && Covers(h, cm, p)
  }

  ghost predicate Covers(h: Hist, cm: Commit, p: Log) {
    cm.term in h.ll && |p| <= cm.n && p <= h.ll[cm.term]
  }

  /** A node that has not learnt the configuration has an empty one. */
  ghost predicate ConfRep(h: Hist, config: Membership, log: Log) {
    config == [] || config == ConfigOf(h.base, log)
  }

  // ---------- one server ----------

  ghost predicate AckAtLeast(h: Hist, v: NodeId, t: nat, m: nat) {
    m == 0 || ((v, t) in h.ack && m <= h.ack[(v, t)])
  }

  ghost predicate TermOk(h: Hist, v: NodeId, n: Node) {
    && n.id == v && v in h.term && v in h.log && n.currentTerm == h.term[v]
    && (match n.votedFor
        case None => (v, n.currentTerm) !in h.voted
        case Some(c) => (v, n.currentTerm) in h.voted && h.voted[(v, n.currentTerm)] == c)
  }

  ghost predicate SnapOk(app: App, s: Store, full: Log) {
    s.snapIndex > 0 && s.snapIndex <= |full| ==> s.snapData.Some? && app(s.snapData.value) == full[..s.snapIndex]
  }

  ghost predicate LogRep(app: App, h: Hist, n: Node, full: Log) {
    && Valid(n) && Rep(n.st, full) && SnapOk(app, n.st, full)
    && ConfRep(h, n.st.snapConfig, full[..n.st.snapIndex])
    && n.commitIndex <= |full| && Committed(h, full[..n.commitIndex], n.currentTerm)
  }

  ghost predicate CandOk(h: Hist, v: NodeId, n: Node)
    requires v in h.log
  {
    var t := n.currentTerm;
    n.role == Candidate ==>
      && (v, t) in h.cl && h.cl[(v, t)] == h.log[v]
      && (forall w :: w in n.ballot.votes ==> (w, t) in h.voted && h.voted[(w, t)] == v)
      && !(t in h.ll && t in h.el && h.el[t].leader == v)
  }

  ghost predicate PeerOk(g: Ghost, t: nat, p: NodeId, q: Peer) {
    && AckAtLeast(g.h, p, t, q.matchIndex)
    && (q.snapSending != 0 && q.snapOffset > 0 ==> (p, t) in g.started)
  }

  /** A leader; its own log may not count as stored yet. */
  ghost predicate LeadParts(g: Ghost, v: NodeId, n: Node) {
    var t := n.currentTerm;
    n.role == Leader ==>
      && S.Leads(g.h, v) && g.h.term[v] == t && n.st.config == ConfigOf(g.h.base, g.h.log[v])
      && (forall p :: p in n.peers ==> PeerOk(g, t, p, n.peers[p]))
      && (forall cm :: cm in g.h.commits && cm.term == t ==> cm.n <= n.commitIndex)
      && (forall i :: (t, i) in g.sn ==> i <= n.st.snapIndex)
      && ((t, n.st.snapIndex) in g.sn ==> n.st.snapData == Some(g.sn[(t, n.st.snapIndex)]))
      && (t in g.hb ==> g.hb[t] <= n.hbRound)
  }

  ghost predicate LeadOk(g: Ghost, v: NodeId, n: Node) {
    && LeadParts(g, v, n)
    && (n.role == Leader ==> AckAtLeast(g.h, v, n.currentTerm, |g.h.log[v]|))
  }

  ghost predicate RecvOk(g: Ghost, v: NodeId, t: nat, r: Recv) {
    && (r.buf != [] ==>
         && v in g.rt && g.rt[v] <= t
         && (g.rt[v], r.index) in g.sn && r.buf <= g.sn[(g.rt[v], r.index)]
         && ((v, t) in g.started ==> g.rt[v] == t))
    && (forall u :: (v, u) in g.started ==> u <= t)
  }

  ghost predicate RoundsOk(n: Node) {
    forall p :: p in n.peers ==> n.peers[p].ackRound <= n.hbRound
  }

  ghost predicate NodeOk(app: App, g: Ghost, v: NodeId, n: Node) {
    && TermOk(g.h, v, n) && LogRep(app, g.h, n, g.h.log[v]) && CandOk(g.h, v, n) && LeadOk(g, v, n)
    && RecvOk(g, v, n.currentTerm, n.recv) && RoundsOk(n)
  }

  ghost predicate WorkOk(app: App, h: Hist, sv: Server) {
    && |sv.sm| == sv.n.lastApplied && Committed(h, sv.sm, sv.n.currentTerm)
    && match sv.work
       case Idle => true
       case Applying(e) =>
         e.index == sv.n.lastApplied + 1 && e.index <= sv.n.commitIndex && Committed(h, sv.sm + [e], sv.n.currentTerm)
       case Restoring(data, idx) =>
         sv.n.lastApplied < idx <= sv.n.commitIndex && |app(data)| == idx && Committed(h, app(data), sv.n.currentTerm)
       case Snapping(idx, term, data) =>
         idx == sv.n.lastApplied && 0 < idx && app(data) == sv.sm && term == sv.sm[idx - 1].term
  }

  ghost predicate AllBelow(commits: set<Commit>, ri: nat) {
    forall cm :: cm in commits ==> cm.n <= ri
  }

  ghost predicate ReadOk(g: Ghost, v: NodeId, n: Node, id: nat, r: Read) {
    && (v, id) in g.begun
    && match r
       case Waiting(t) => g.begun[(v, id)] <= g.h.commits && t <= n.currentTerm
       case Confirming(t, ri, round) =>
         && (v, id) in g.mid
         && var k := g.mid[(v, id)];
         && k.term == t && k.round == round && 0 < round <= n.hbRound && t <= n.currentTerm
         && Inv(k.hist) && S.Grows(k.hist, g.h)
         && t in k.hist.ll && v in k.hist.term && k.hist.term[v] == t
         && g.begun[(v, id)] <= k.hist.commits
         && (forall cm :: cm in k.hist.commits && cm.term <= t ==> cm.n <= ri)
         && (n.currentTerm == t ==>
              forall p :: p in n.peers && n.peers[p].ackRound >= round ==> p in k.hist.term && k.hist.term[p] <= t)
       case Ready(ri) => AllBelow(g.begun[(v, id)], ri)
  }

  ghost predicate ReadsOk(g: Ghost, v: NodeId, sv: Server) {
    && (forall id {:trigger ReadOk(g, v, sv.n, id, sv.pending[id])} ::
          id in sv.pending ==> ReadOk(g, v, sv.n, id, sv.pending[id]))
  }

  ghost predicate ServerOk(app: App, g: Ghost, v: NodeId, sv: Server) {
    NodeOk(app, g, v, sv.n) && WorkOk(app, g.h, sv) && ReadsOk(g, v, sv)
  }

  // ---------- messages ----------

  ghost predicate VoteArgsOk(h: Hist, src: NodeId, a: VoteArgs) {
    !a.preVote ==>
      && a.candidateId == src && (src, a.term) in h.cl
      && a.lastLogIndex == |h.cl[(src, a.term)]| && a.lastLogTerm == LastTerm(h.cl[(src, a.term)])
  }

  ghost predicate FromLeader(h: Hist, src: NodeId, t: nat) {
    t in h.ll && t in h.el && h.el[t].leader == src
  }

  ghost predicate AppendArgsOk(h: Hist, src: NodeId, a: AppendArgs) {
    && FromLeader(h, src, a.term) && WellFormed(a)
    && var l := h.ll[a.term];
    && a.prevLogIndex + |a.entries| <= |l|
    && a.entries == l[a.prevLogIndex..a.prevLogIndex + |a.entries|]
    && a.prevLogTerm == TermOf(l, a.prevLogIndex)
    && a.leaderCommit <= |l| && Committed(h, l[..a.leaderCommit], a.term)
  }

  ghost predicate SnapArgsOk(app: App, g: Ghost, src: NodeId, dst: NodeId, a: SnapshotArgs) {
    && FromLeader(g.h, src, a.term)
    && var l := g.h.ll[a.term];
    && 0 < a.lastIncludedIndex <= |l| && a.lastIncludedTerm == TermOf(l, a.lastIncludedIndex)
    && Committed(g.h, l[..a.lastIncludedIndex], a.term)
    && ConfRep(g.h, a.config, l[..a.lastIncludedIndex])
    && (a.term, a.lastIncludedIndex) in g.sn
    && var d := g.sn[(a.term, a.lastIncludedIndex)];
    && app(d) == l[..a.lastIncludedIndex]
    && a.offset + |a.data| <= |d| && a.data == d[a.offset..a.offset + |a.data|]
    && (a.done <==> a.offset + |a.data| == |d|)
    && (a.offset > 0 ==> (dst, a.term) in g.started)
  }

  ghost predicate RoundOk(g: Ghost, t: nat, round: nat) {
    t in g.hb && round <= g.hb[t]
  }

  /** A reply to a round a read waits for shows that the replier had not left term t. */
  ghost predicate MarksOk(g: Ghost, replier: NodeId, leader: NodeId, t: nat, round: nat, replyTerm: nat) {
    replyTerm <= t ==>
      forall k :: k in g.mid && k.0 == leader && g.mid[k].term == t && g.mid[k].round <= round ==>
        replier in g.mid[k].hist.term && g.mid[k].hist.term[replier] <= t
  }

  ghost predicate MsgOk(app: App, g: Ghost, m: Msg) {
    match m
    case VoteReq(src, dst, _, a) => VoteArgsOk(g.h, src, a)
    case VoteRep(src, dst, _, a, r) =>
      !a.preVote && r.voteGranted ==> (src, a.term) in g.h.voted && g.h.voted[(src, a.term)] == dst
    case AppReq(src, dst, round, a) => AppendArgsOk(g.h, src, a) && RoundOk(g, a.term, round)
    case AppRep(src, dst, round, a, r) =>
      && AppendArgsOk(g.h, dst, a) && RoundOk(g, a.term, round)
      && (r.success ==> AckAtLeast(g.h, src, a.term, a.prevLogIndex + |a.entries|))
      && MarksOk(g, src, dst, a.term, round, r.term)
    case SnapReq(src, dst, round, a) => SnapArgsOk(app, g, src, dst, a) && RoundOk(g, a.term, round)
    case SnapRep(src, dst, round, a, r) =>
      && SnapArgsOk(app, g, dst, src, a) && RoundOk(g, a.term, round)
      && (r.success && a.done ==> AckAtLeast(g.h, src, a.term, a.lastIncludedIndex))
      && (r.nextOffset > 0 ==> (src, a.term) in g.started)
      && MarksOk(g, src, dst, a.term, round, r.term)
  }

  // ---------- the cluster ----------

  ghost predicate ServersOk(app: App, g: Ghost, servers: map<NodeId, Server>) {
    forall v {:trigger ServerOk(app, g, v, servers[v])} :: v in servers ==> ServerOk(app, g, v, servers[v])
  }

  ghost predicate NetOk(app: App, g: Ghost, net: set<Msg>) {
    forall m {:trigger MsgOk(app, g, m)} :: m in net ==> MsgOk(app, g, m)
  }

  ghost predicate TermsKnown(g: Ghost) {
    && (forall k :: k in g.sn ==> k.0 in g.h.ll)
    && (forall t :: t in g.hb ==> t in g.h.ll)
  }

  /** A read's history lies in the past. */
  ghost predicate MarksKnown(g: Ghost) {
    forall k :: k in g.mid ==> S.Grows(g.mid[k].hist, g.h)
  }

  ghost predicate HistOk(g: Ghost) {
    Inv(g.h) && TermsKnown(g)
  }

  ghost predicate CInv(app: App, s: Cluster, g: Ghost) {
    && HistOk(g) && MarksKnown(g)
    && g.h.term.Keys == s.servers.Keys && g.h.log.Keys == s.servers.Keys
    && ServersOk(app, g, s.servers) && NetOk(app, g, s.net)
  }

  // ---------- growth caused by one server ----------

  ghost predicate HistBy(h: Hist, h2: Hist, v: NodeId) {
    && S.Grows(h, h2)
    && (forall u :: u in h.log && u != v ==> u in h2.log && h2.log[u] == h.log[u])
    && (forall u :: u in h.term && u != v ==> u in h2.term && h2.term[u] == h.term[u])
    && (forall t :: t in h.ll && h2.ll[t] != h.ll[t] ==> t in h2.el && h2.el[t].leader == v)
    && (forall t :: t in h2.ll && t !in h.ll ==> t in h2.el && h2.el[t].leader == v)
    && (forall t :: t in h2.el && t !in h.el ==> h2.el[t].leader == v)
    && (forall k :: k in h2.voted && k !in h.voted ==> k.0 == v)
    && (forall cm :: cm in h2.commits && cm !in h.commits ==> cm.term in h2.el && h2.el[cm.term].leader == v)
  }

  lemma HistByTrans(a: Hist, b: Hist, c: Hist, v: NodeId)
    requires HistBy(a, b, v) && HistBy(b, c, v)
    ensures HistBy(a, c, v)
  {
    S.GrowsTrans(a, b, c);
  }

  lemma HistByRefl(h: Hist, v: NodeId)
    ensures HistBy(h, h, v)
  {
  }

  ghost predicate Extends(g: Ghost, g2: Ghost, v: NodeId) {
    && HistBy(g.h, g2.h, v)
    && (forall k :: k in g.sn ==> k in g2.sn && g2.sn[k] == g.sn[k])
    && (forall k :: k in g2.sn && k !in g.sn ==> k.0 in g2.h.el && g2.h.el[k.0].leader == v)
    && g.started <= g2.started
    && (forall k :: k in g2.started && k !in g.started ==> k.0 == v)
    && (forall u :: u in g.rt && u != v ==> u in g2.rt && g2.rt[u] == g.rt[u])
    && (forall t :: t in g.hb ==> t in g2.hb && g.hb[t] <= g2.hb[t])
    && (forall t :: t in g2.hb && (t !in g.hb || g2.hb[t] != g.hb[t]) ==> t in g2.h.el && g2.h.el[t].leader == v)
    && (forall k :: k in g.begun && k.0 != v ==> k in g2.begun && g2.begun[k] == g.begun[k])
    && (forall k :: k in g.mid && k.0 != v ==> k in g2.mid && g2.mid[k] == g.mid[k])
    && (forall k :: k in g2.mid && !(k in g.mid && g2.mid[k] == g.mid[k]) ==>
          k.0 == v && g2.mid[k].hist == g2.h && (g2.mid[k].term in g.hb ==> g.hb[g2.mid[k].term] < g2.mid[k].round))
  }

  lemma CommittedGrows(h: Hist, h2: Hist, p: Log, hi: nat, hi2: nat)
    requires S.Grows(h, h2) && Committed(h, p, hi) && hi <= hi2
    ensures Committed(h2, p, hi2)
  {
    if p != [] {
      var cm :| cm in h.commits && cm.term <= hi && Covers(h, cm, p);
      assert Covers(h2, cm, p);
    }
  }

  lemma AckGrows(h: Hist, h2: Hist, v: NodeId, t: nat, m: nat)
    requires S.Grows(h, h2) && AckAtLeast(h, v, t, m)
    ensures AckAtLeast(h2, v, t, m)
  {
  }

  // ---------- another server's view of the step ----------

  lemma OtherNode(app: App, g: Ghost, g2: Ghost, v: NodeId, u: NodeId, n: Node)
    requires Extends(g, g2, v) && u != v && NodeOk(app, g, u, n)
    ensures NodeOk(app, g2, u, n)
  {
    assert TermOk(g2.h, u, n);
    CommittedGrows(g.h, g2.h, g.h.log[u][..n.commitIndex], n.currentTerm, n.currentTerm);
    assert LogRep(app, g2.h, n, g2.h.log[u]);
    assert CandOk(g2.h, u, n);
    OtherLeader(g, g2, v, u, n);
  }

  lemma OtherLeader(g: Ghost, g2: Ghost, v: NodeId, u: NodeId, n: Node)
    requires Extends(g, g2, v) && u != v && LeadOk(g, u, n) && u in g.h.log && u in g.h.term
    ensures LeadOk(g2, u, n)
  {
    if n.role == Leader {
      var t := n.currentTerm;
      assert t in g2.h.el && g2.h.el[t] == g.h.el[t];
      assert g2.h.ll[t] == g.h.ll[t];
      forall p | p in n.peers ensures PeerOk(g2, t, p, n.peers[p]) {
        assert PeerOk(g, t, p, n.peers[p]);
        AckGrows(g.h, g2.h, p, t, n.peers[p].matchIndex);
      }
      AckGrows(g.h, g2.h, u, t, |g.h.log[u]|);
    }
  }

  lemma WorkGrows(app: App, h: Hist, h2: Hist, sv: Server)
    requires S.Grows(h, h2) && WorkOk(app, h, sv)
    ensures WorkOk(app, h2, sv)
  {
    var t := sv.n.currentTerm;
    CommittedGrows(h, h2, sv.sm, t, t);
    match sv.work
    case Applying(e) => CommittedGrows(h, h2, sv.sm + [e], t, t);
    case Restoring(data, idx) => CommittedGrows(h, h2, app(data), t, t);
    case _ =>
  }

  lemma OtherReads(g: Ghost, g2: Ghost, v: NodeId, u: NodeId, sv: Server)
    requires Extends(g, g2, v) && u != v && ReadsOk(g, u, sv)
    ensures ReadsOk(g2, u, sv)
  {
    forall id | id in sv.pending ensures ReadOk(g2, u, sv.n, id, sv.pending[id]) {
      assert ReadOk(g, u, sv.n, id, sv.pending[id]);
      if sv.pending[id].Confirming? {
        S.GrowsTrans(g.mid[(u, id)].hist, g.h, g2.h);
      }
    }
  }

  lemma OtherServer(app: App, g: Ghost, g2: Ghost, v: NodeId, u: NodeId, sv: Server)
    requires Extends(g, g2, v) && u != v && ServerOk(app, g, u, sv)
    ensures ServerOk(app, g2, u, sv)
  {
    OtherNode(app, g, g2, v, u, sv.n);
    WorkGrows(app, g.h, g2.h, sv);
    OtherReads(g, g2, v, u, sv);
  }

  // ---------- messages in flight ----------

  lemma AppendArgsGrow(h: Hist, h2: Hist, src: NodeId, a: AppendArgs)
    requires S.Grows(h, h2) && AppendArgsOk(h, src, a)
    ensures AppendArgsOk(h2, src, a)
  {
    var l, l2 := h.ll[a.term], h2.ll[a.term];
    var end := a.prevLogIndex + |a.entries|;
    assert l2[a.prevLogIndex..end] == l[a.prevLogIndex..end];
    assert l2[..a.leaderCommit] == l[..a.leaderCommit];
    CommittedGrows(h, h2, l[..a.leaderCommit], a.term, a.term);
  }

  lemma SnapArgsGrow(app: App, g: Ghost, g2: Ghost, v: NodeId, src: NodeId, dst: NodeId, a: SnapshotArgs)
    requires Extends(g, g2, v) && SnapArgsOk(app, g, src, dst, a)
    ensures SnapArgsOk(app, g2, src, dst, a)
  {
    var l, l2 := g.h.ll[a.term], g2.h.ll[a.term];
    assert l2[..a.lastIncludedIndex] == l[..a.lastIncludedIndex];
    CommittedGrows(g.h, g2.h, l[..a.lastIncludedIndex], a.term, a.term);
  }

  lemma MarksGrow(g: Ghost, g2: Ghost, v: NodeId, replier: NodeId, leader: NodeId, t: nat, round: nat, replyTerm: nat)
    requires Extends(g, g2, v) && RoundOk(g, t, round) && MarksOk(g, replier, leader, t, round, replyTerm)
    ensures MarksOk(g2, replier, leader, t, round, replyTerm)
  {
  }

  lemma MsgGrows(app: App, g: Ghost, g2: Ghost, v: NodeId, m: Msg)
    requires Extends(g, g2, v) && MsgOk(app, g, m)
    ensures MsgOk(app, g2, m)
  {
    match m
    case VoteReq(src, dst, _, a) =>
    case VoteRep(src, dst, _, a, r) =>
    case AppReq(src, dst, round, a) => AppendArgsGrow(g.h, g2.h, src, a);
    case AppRep(src, dst, round, a, r) =>
      AppendArgsGrow(g.h, g2.h, dst, a);
      MarksGrow(g, g2, v, src, dst, a.term, round, r.term);
    case SnapReq(src, dst, round, a) => SnapArgsGrow(app, g, g2, v, src, dst, a);
    case SnapRep(src, dst, round, a, r) =>
      SnapArgsGrow(app, g, g2, v, dst, src, a);
      MarksGrow(g, g2, v, src, dst, a.term, round, r.term);
  }

  lemma ServersCarry(app: App, servers: map<NodeId, Server>, g: Ghost, g2: Ghost, v: NodeId, sv: Server)
    requires Extends(g, g2, v) && ServerOk(app, g2, v, sv) && ServersOk(app, g, servers)
    ensures ServersOk(app, g2, servers[v := sv])
  {
    var servers2 := servers[v := sv];
    forall u | u in servers2 ensures ServerOk(app, g2, u, servers2[u]) {
      if u != v {
        assert servers2[u] == servers[u];
        assert ServerOk(app, g, u, servers[u]);
        OtherServer(app, g, g2, v, u, servers[u]);
      }
    }
  }

  lemma NetCarries(app: App, g: Ghost, g2: Ghost, v: NodeId, net: set<Msg>, sent: set<Msg>)
    requires Extends(g, g2, v) && NetOk(app, g, net) && NetOk(app, g2, sent)
    ensures NetOk(app, g2, net + sent)
  {
    forall m | m in net + sent ensures MsgOk(app, g2, m) {
      if m in net {
        assert MsgOk(app, g, m);
        MsgGrows(app, g, g2, v, m);
      } else {
        assert m in sent;
      }
    }
  }

  lemma MarksKnownCarry(g: Ghost, g2: Ghost, v: NodeId)
    requires Extends(g, g2, v) && MarksKnown(g)
    ensures MarksKnown(g2)
  {
    forall k | k in g2.mid ensures S.Grows(g2.mid[k].hist, g2.h) {
      if k in g.mid && g2.mid[k] == g.mid[k] {
        S.GrowsTrans(g.mid[k].hist, g.h, g2.h);
      }
    }
  }

  /** A step of server v that ends well for v and sends only good messages is good for the cluster. */
  lemma ClusterStep(app: App, s: Cluster, g: Ghost, g2: Ghost, v: NodeId, sv: Server, sent: set<Msg>)
    requires CInv(app, s, g) && v in s.servers && Extends(g, g2, v)
    requires HistOk(g2) && ServerOk(app, g2, v, sv) && NetOk(app, g2, sent)
    ensures CInv(app, Cluster(s.servers[v := sv], s.net + sent), g2)
  {
    hide NetOk, WorkOk, ReadsOk, NodeOk;
    MarksKnownCarry(g, g2, v);
    ServersCarry(app, s.servers, g, g2, v, sv);
    NetCarries(app, g, g2, v, s.net, sent);
    assert s.servers[v := sv].Keys == s.servers.Keys;
  }
}
