/** Refinement of elections: timers, vote requests and their replies. */
module RaftRefineVotes {
  import opened Wrappers
  import opened RaftTypes
  import opened RaftState
  import opened RaftNodeInvariant
  import opened RaftCluster
  import opened RaftHistory
  import S = RaftSteps
  import opened RaftGhost
  import opened RaftRefineBase
  import opened RaftRefineLeader

  lemma NodeStepRefl(app: App, g: Ghost, v: NodeId, n: Node, n2: Node)
    requires HistOk(g) && NodeOk(app, g, v, n2) && Moves(n, n2)
    ensures NodeStep(app, g, g, v, n, n2)
  {
    HistByRefl(g.h, v);
  }

  lemma NodeStepTrans(app: App, g: Ghost, g1: Ghost, g2: Ghost, v: NodeId, n: Node, m: Node, n2: Node)
    requires NodeStep(app, g, g1, v, n, m) && NodeStep(app, g1, g2, v, m, n2)
    ensures NodeStep(app, g, g2, v, n, n2)
  {
    hide HistOk, HistBy, NodeOk, Moves;
    HistByTrans(g.h, g1.h, g2.h, v);
    MovesTrans(n, m, n2);
  }

  lemma StepDownStep(app: App, g: Ghost, v: NodeId, n: Node, t: nat) returns (g2: Ghost)
    requires HistOk(g) && NodeOk(app, g, v, n)
    ensures NodeStep(app, g, g2, v, n, StepDown(n, t)) && g2 == TermGhost(g, v, n, t)
  {
    StepDownOk(app, g, v, n, t);
    g2 := TermGhost(g, v, n, t);
  }

  // ---------- starting an election ----------

  lemma StandStep(app: App, g: Ghost, v: NodeId, n: Node) returns (g2: Ghost)
    requires HistOk(g) && NodeOk(app, g, v, n)
    ensures NodeStep(app, g, g2, v, n, Stand(n))
  {
    NodeFacts(app, g, v, n);
    hide HistOk, HistBy, NodeOk, Moves;
    StandOk(app, g, v, n);
    g2 := StandGhost(g, v);
  }

  lemma StartElectionStep(app: App, g: Ghost, v: NodeId, n: Node, ioMeta: bool, ioNoop: bool) returns (g2: Ghost)
    requires HistOk(g) && NodeOk(app, g, v, n) && CommitInLog(n)
    ensures NodeStep(app, g, g2, v, n, StartElection(n, ioMeta, ioNoop))
  {
    hide HistOk, NodeOk;
    if !ioMeta {
      NodeStepRefl(app, g, v, n, n);
      g2 := g;
    } else {
      hide HistBy, Moves;
      var g1 := StandStep(app, g, v, n);
      if Quorum(n.st.config, {n.id}) {
        g2 := BecomeLeaderOk(app, g1, v, Stand(n), ioNoop);
        NodeStepTrans(app, g, g1, g2, v, n, Stand(n), BecomeLeader(Stand(n), ioNoop));
      } else {
        g2 := g1;
      }
    }
  }

  /** The pre-vote bookkeeping is not part of the history. */
  lemma BallotOk(app: App, g: Ghost, v: NodeId, n: Node, b: Ballot)
    requires NodeOk(app, g, v, n) && b.votes == n.ballot.votes
    ensures NodeOk(app, g, v, n.(ballot := b)) && Moves(n, n.(ballot := b))
  {
  }

  lemma OnTimeoutStep(app: App, g: Ghost, v: NodeId, n: Node, preVote: bool, ioMeta: bool, ioNoop: bool)
    returns (g2: Ghost)
    requires HistOk(g) && NodeOk(app, g, v, n) && CommitInLog(n)
    ensures NodeStep(app, g, g2, v, n, OnTimeout(n, preVote, ioMeta, ioNoop))
  {
    g2 := g;
    BallotOk(app, g, v, n, n.ballot);
    BallotOk(app, g, v, n, StartPreVote(n).ballot);
    hide HistOk, NodeOk, Moves;
    if n.role == Leader || n.id !in Ids(n.st.config) {
      NodeStepRefl(app, g, v, n, n);
    } else if preVote && |n.st.config| > 1 && n.role == Follower {
      NodeStepRefl(app, g, v, n, StartPreVote(n));
    } else {
      g2 := StartElectionStep(app, g, v, n, ioMeta, ioNoop);
    }
  }

  // ---------- receiving a vote request ----------

  lemma GrantNode(app: App, g: Ghost, v: NodeId, n: Node, c: NodeId)
    requires NodeOk(app, g, v, n) && n.votedFor == None && v in g.h.term && S.Grows(g.h, S.Grant(g.h, v, c))
    ensures NodeOk(app, g.(h := S.Grant(g.h, v, c)), v, n.(votedFor := Some(c)))
    ensures Moves(n, n.(votedFor := Some(c)))
  {
    var g2 := g.(h := S.Grant(g.h, v, c));
    CommittedGrows(g.h, g2.h, g.h.log[v][..n.commitIndex], n.currentTerm, n.currentTerm);
    if n.role == Leader {
      forall p | p in n.peers ensures PeerOk(g2, n.currentTerm, p, n.peers[p]) {
        assert PeerOk(g, n.currentTerm, p, n.peers[p]);
      }
    }
  }

  lemma GrantHist(g: Ghost, v: NodeId, c: NodeId)
    requires HistOk(g) && v in g.h.term && v in g.h.log && (v, g.h.term[v]) !in g.h.voted && (c, g.h.term[v]) in g.h.cl
    requires var cand := g.h.cl[(c, g.h.term[v])];
      UpToDate(LastTerm(cand), |cand|, LastTerm(g.h.log[v]), |g.h.log[v]|)
    ensures HistOk(g.(h := S.Grant(g.h, v, c))) && HistBy(g.h, S.Grant(g.h, v, c), v)
  {
    S.GrantStep(g.h, v, c);
    SameLeaders(g, S.Grant(g.h, v, c));
  }

  lemma LastOfRep(s: Store, full: Log)
    requires Rep(s, full)
    ensures LastIndex(s) == |full| && TermAt(s, LastIndex(s)) == LastTerm(full)
  {
    RepFacts(s, full);
    assert TermAt(s, |full|) == TermOf(full, |full|);
  }

  lemma GrantOk(app: App, g: Ghost, v: NodeId, n: Node, a: VoteArgs) returns (g2: Ghost)
    requires HistOk(g) && NodeOk(app, g, v, n) && n.currentTerm == a.term && Grants(n, a, true)
    requires (a.candidateId, a.term) in g.h.cl && VoteArgsOk(g.h, a.candidateId, a) && !a.preVote
    ensures NodeStep(app, g, g2, v, n, n.(votedFor := Some(a.candidateId)))
    ensures (v, a.term) in g2.h.voted && g2.h.voted[(v, a.term)] == a.candidateId
  {
    NodeFacts(app, g, v, n);
    if n.votedFor == Some(a.candidateId) {
      g2 := g;
      NodeStepRefl(app, g, v, n, n);
      assert n.(votedFor := Some(a.candidateId)) == n;
    } else {
      LastOfRep(n.st, g.h.log[v]);
      g2 := g.(h := S.Grant(g.h, v, a.candidateId));
      GrantHist(g, v, a.candidateId);
      GrantNode(app, g, v, n, a.candidateId);
    }
  }

  lemma AccepterOk(app: App, g: Ghost, v: NodeId, n: Node, t: nat) returns (g2: Ghost)
    requires HistOk(g) && NodeOk(app, g, v, n) && n.currentTerm <= t
    ensures NodeStep(app, g, g2, v, n, if t > n.currentTerm then StepDown(n, t) else n)
    ensures g2.h == g.h.(term := g2.h.term)
  {
    if t > n.currentTerm {
      g2 := StepDownStep(app, g, v, n, t);
    } else {
      g2 := g;
      BallotOk(app, g, v, n, n.ballot);
      NodeStepRefl(app, g, v, n, n);
    }
  }

  lemma HandleVoteStep(app: App, g: Ghost, v: NodeId, n: Node, m: Msg, checkQuorum: bool, recent: bool, io: bool)
    returns (g2: Ghost)
    requires HistOk(g) && NodeOk(app, g, v, n) && m.VoteReq? && MsgOk(app, g, m) && n.st.log != []
    ensures var out := OnRequestVote(n, m.vote, checkQuorum, recent, io);
      NodeStep(app, g, g2, v, n, out.0) && MsgOk(app, g2, VoteRep(v, m.src, m.round, m.vote, out.1))
  {
    hide HistOk, NodeOk;
    var a := m.vote;
    var out := OnRequestVote(n, a, checkQuorum, recent, io);
    g2 := g;
    BallotOk(app, g, v, n, n.ballot);
    NodeStepRefl(app, g, v, n, n);
    if !(a.preVote || a.term < n.currentTerm || (a.term > n.currentTerm && checkQuorum && (n.role == Leader || recent))) {
      var g1 := AccepterOk(app, g, v, n, a.term);
      g2 := g1;
      var k := if a.term > n.currentTerm then StepDown(n, a.term) else n;
      if Grants(k, a, io) {
        g2 := ThenGrant(app, g, g1, v, n, k, a);
      }
    }
  }

  lemma ThenGrant(app: App, g: Ghost, g1: Ghost, v: NodeId, n: Node, k: Node, a: VoteArgs) returns (g2: Ghost)
    requires NodeStep(app, g, g1, v, n, k) && k.currentTerm == a.term && k.st.log != [] && Grants(k, a, true)
    requires (a.candidateId, a.term) in g1.h.cl && VoteArgsOk(g1.h, a.candidateId, a) && !a.preVote
    ensures NodeStep(app, g, g2, v, n, k.(votedFor := Some(a.candidateId)))
    ensures (v, a.term) in g2.h.voted && g2.h.voted[(v, a.term)] == a.candidateId
  {
    hide HistOk, HistBy, NodeOk, Moves, Grants, VoteArgsOk;
    g2 := GrantOk(app, g1, v, k, a);
    NodeStepTrans(app, g, g1, g2, v, n, k, k.(votedFor := Some(a.candidateId)));
  }

  // ---------- replies ----------

  lemma CountVoteOk(app: App, g: Ghost, v: NodeId, n: Node, p: NodeId)
    requires NodeOk(app, g, v, n) && (p, n.currentTerm) in g.h.voted && g.h.voted[(p, n.currentTerm)] == v
    ensures NodeOk(app, g, v, CountVote(n, p)) && Moves(n, CountVote(n, p))
  {
  }

  lemma VoteReplyStep(app: App, g: Ghost, v: NodeId, n: Node, m: Msg, io: bool) returns (g2: Ghost)
    requires HistOk(g) && NodeOk(app, g, v, n) && m.VoteRep? && !m.vote.preVote && m.dst == v && MsgOk(app, g, m)
    requires CommitInLog(n)
    ensures NodeStep(app, g, g2, v, n, OnVoteReply(n, m.src, m.vote, m.voteReply, io))
  {
    hide BecomeLeader, NodeStep, HistOk, NodeOk, Quorum, CommitInLog, AdvanceCommit, ResetPeers, AppendLocal, HistBy,
      Moves, StepDown, TermGhost, VoteArgsOk, AckAtLeast, RoundOk, MarksOk, SnapArgsOk, AppendArgsOk, Inv, TermsKnown,
      TermOk, CandOk, RoundsOk, LeadOk, RecvOk, LogRep, CountIn, LogShape, LastIndex, NewCommit, Ids, Probed,
      Reconcile, AppendStore, Max, LastTerm, Committed, ConfRep;
    var a, r := m.vote, m.voteReply;
    g2 := g;
    if r.term > n.currentTerm {
      g2 := StepDownStep(app, g, v, n, r.term);
    } else if n.role == Candidate && n.currentTerm == a.term && r.voteGranted {
      var k := CountVote(n, m.src);
      CountVoteOk(app, g, v, n, m.src);
      hide HistOk, NodeOk, Moves;
      NodeStepRefl(app, g, v, n, k);
      if Quorum(k.st.config, k.ballot.votes) {
        g2 := BecomeLeaderOk(app, g, v, k, io);
        NodeStepTrans(app, g, g, g2, v, n, k, BecomeLeader(k, io));
      }
    } else {
      NodeStepRefl(app, g, v, n, n);
    }
  }

  lemma PreVoteReplyStep(app: App, g: Ghost, v: NodeId, n: Node, p: NodeId, round: nat, r: VoteReply, ioMeta: bool, ioNoop: bool)
    returns (g2: Ghost)
    requires HistOk(g) && NodeOk(app, g, v, n) && CommitInLog(n)
    ensures NodeStep(app, g, g2, v, n, OnPreVoteReply(n, p, round, r, ioMeta, ioNoop))
  {
    g2 := g;
    if r.term > n.currentTerm && !r.voteGranted {
      g2 := StepDownStep(app, g, v, n, r.term);
    } else {
      var b := n.ballot.(prevotes := n.ballot.prevotes + {p});
      BallotOk(app, g, v, n, n.ballot);
      BallotOk(app, g, v, n, b);
      BallotOk(app, g, v, n, b.(prevoting := false));
      hide HistOk, NodeOk, Moves;
      var k := n.(ballot := b.(prevoting := false));
      NodeStepRefl(app, g, v, n, n);
      NodeStepRefl(app, g, v, n, n.(ballot := b));
      NodeStepRefl(app, g, v, n, k);
      if n.ballot.prevoting && n.ballot.prevoteRound == round && n.role == Follower && r.voteGranted
         && Quorum(n.st.config, b.prevotes) {
        g2 := StartElectionStep(app, g, v, k, ioMeta, ioNoop);
        NodeStepTrans(app, g, g, g2, v, n, k, StartElection(k, ioMeta, ioNoop));
      }
    }
  }

  lemma SendVoteOk(app: App, g: Ghost, v: NodeId, n: Node, p: NodeId, preVote: bool)
    requires NodeOk(app, g, v, n) && (!preVote ==> n.role == Candidate) && n.st.log != []
    ensures MsgOk(app, g, VoteReq(v, p, n.ballot.prevoteRound, if preVote then MakePreVote(n) else MakeVote(n)))
  {
    LastOfRep(n.st, g.h.log[v]);
  }
}
