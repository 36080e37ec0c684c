/** Leader Completeness and Election Safety under single-server membership
    changes, as statements about one history. */
module RaftCompleteness {
  import opened RaftTypes
  import opened RaftHistory

  lemma ConfigJustified(h: Hist, log: Log, i: nat)
    requires InvLeaderLogs(h) && InvConfigs(h) && Pref(h, log) && i < |log| && log[i].cmd.Config?
    ensures Justified(h, log, i)
  {
    PrefixOfLeader(h, log, i);
    var l := h.ll[log[i].term];
    assert log[..i + 1][i] == l[..i + 1][i];
    assert l[i] == log[i];
    assert ConfigOk(h, log[i].term, i);
    assert log[..i] == log[..i + 1][..i] == l[..i];
    var cm :| Justifies(h, cm, l, i);
    assert forall j :: 0 <= j < i ==> log[j] == log[..i][j] == l[j];
    assert Justifies(h, cm, log, i);
  }

  /** The justifying commit is a prefix of the log it justifies. */
  lemma JustificationIsPrefix(h: Hist, log: Log, i: nat, cm: Commit)
    requires InvLeaderLogs(h) && InvCommits(h) && Pref(h, log)
    requires i < |log| && Justifies(h, cm, log, i)
    ensures 0 < cm.n <= i && Own(h, cm.term, cm.n) && h.ll[cm.term][..cm.n] == log[..cm.n]
    ensures log[cm.n - 1].term == log[i].term
  {
    assert CommitOk(h, cm);
    PrefixOfLeader(h, log, i);
    assert log[..cm.n] == log[..i + 1][..cm.n] == h.ll[cm.term][..cm.n];
    assert log[cm.n - 1] == log[..cm.n][cm.n - 1] == h.ll[cm.term][cm.n - 1];
  }

  lemma SettleBy(h: Hist, log: Log, d: nat)
    requires InvLeaderLogs(h) && InvCommits(h) && InvConfigs(h) && Pref(h, log) && d <= |log|
    requires forall i: nat, cm :: d <= i < |log| && log[i].cmd.Config? && Justifies(h, cm, log, i) ==> cm.n <= d
    ensures SettledAfter(h, log, d)
  {
    forall i | d <= i < |log| && log[i].cmd.Config?
      ensures JustifiedWithin(h, log, i, d) && Meet(Conf(h, log[..i]), log[i].cmd.members)
    {
      ConfigJustified(h, log, i);
      var cm :| Justifies(h, cm, log, i);
      JustificationIsPrefix(h, log, i, cm);
    }
  }

  ghost predicate Earlier(a: Commit, b: Commit) {
    a.term < b.term || (a.term == b.term && a.len < b.len)
  }

  /** Everything committed before cm, in history order, is in b. */
  ghost predicate HasEarlier(h: Hist, cm: Commit, b: Log) {
    forall x :: x in h.commits && Earlier(x, cm) ==> Has(h, x.term, x.n, b)
  }

  ghost predicate LaterHave(h: Hist, cm: Commit, hi: int) {
    forall x :: x in h.ll && cm.term < x <= hi ==> Has(h, cm.term, cm.n, h.ll[x])
  }

  lemma CommitSideSettled(h: Hist, cm: Commit, b: Log, d: nat)
    requires InvLeaderLogs(h) && InvCommits(h) && InvConfigs(h)
    requires CommitOk(h, cm) && Pref(h, b) && HasEarlier(h, cm, b)
    requires IsLcp(h.ll[cm.term][..cm.len], b, d)
    ensures SettledAfter(h, h.ll[cm.term][..cm.len], d)
  {
    var l := h.ll[cm.term];
    var a := l[..cm.len];
    assert PrefUpTo(h, l, cm.len) by { assert LeaderLogOk(h, cm.term); }
    forall i: nat, x | d <= i < |a| && a[i].cmd.Config? && Justifies(h, x, a, i) ensures x.n <= d {
      JustificationIsPrefix(h, a, i, x);
      assert LeaderLogOk(h, cm.term);
      assert a[i] == l[i];
      assert Earlier(x, cm);
      assert a[..x.n] == b[..x.n];
      CommonIsShort(a, b, d, x.n);
    }
    SettleBy(h, a, d);
  }

  lemma CandidateSideSettled(h: Hist, cm: Commit, b: Log, u: nat, d: nat)
    requires InvLeaderLogs(h) && InvCommits(h) && InvConfigs(h) && InvComplete(h)
    requires CommitOk(h, cm) && Pref(h, b) && LastTerm(b) < u
    requires LaterHave(h, cm, u - 1)
    requires IsLcp(h.ll[cm.term][..cm.len], b, d) && d < cm.n
    ensures SettledAfter(h, b, d)
  {
    var l := h.ll[cm.term];
    var a := l[..cm.len];
    forall j: nat, x | d <= j < |b| && b[j].cmd.Config? && Justifies(h, x, b, j) ensures x.n <= d {
      JustificationIsPrefix(h, b, j, x);
      PrefixOfLeader(h, b, j);
      var upToJ: nat := j + 1;
      if x.term < cm.term {
        assert Has(h, x.term, x.n, l);
        PrefixShare(a, b, d, l, x.n);
      } else if x.term == cm.term {
        PrefixShare(a, b, d, l, upToJ);
      } else {
        OwnBefore(h, cm.term, cm.n, b, j);
        PrefixShare(a, b, d, l, cm.n);
      }
    }
    SettleBy(h, b, d);
  }

  /** A voter that both stored cm and voted for the owner of log b. */
  ghost predicate Electors(h: Hist, u: nat, b: Log, q: set<NodeId>, hi: int) {
    && Quorum(Conf(h, b), q)
    && forall v :: v in q ==> Promise(h, v, u, b, hi)
  }

  /** A commit reaches every later winner: the quorums meet, because those of
      the two memberships do. */
  lemma Contained(h: Hist, cm: Commit, b: Log, u: nat, q: set<NodeId>, hi: int)
    requires InvLeaderLogs(h) && InvCommits(h) && InvConfigs(h) && InvComplete(h)
    requires CommitOk(h, cm) && cm.term < u && Pref(h, b) && LastTerm(b) < u
    requires HasEarlier(h, cm, b) && LaterHave(h, cm, u - 1) && LaterHave(h, cm, hi)
    requires Electors(h, u, b, q, hi)
    ensures Has(h, cm.term, cm.n, b)
  {
    var l := h.ll[cm.term];
    var a := l[..cm.len];
    var d := LcpExists(a, b, 0);
    if cm.n <= d {
      assert l[..cm.n] == a[..d][..cm.n] == b[..cm.n];
    } else {
      CommitSideSettled(h, cm, b, d);
      CandidateSideSettled(h, cm, b, u, d);
      assert PrefUpTo(h, l, cm.len) by { assert LeaderLogOk(h, cm.term); }
      MembershipsMeet(h, a, b, d);
      SharedServer(Conf(h, a), Conf(h, b), cm.voters, q);
      HeldByElector(h, cm, b, u, q, hi);
    }
  }

  lemma HeldByElector(h: Hist, cm: Commit, b: Log, u: nat, q: set<NodeId>, hi: int)
    requires CommitOk(h, cm) && cm.term < u && LaterHave(h, cm, hi) && Electors(h, u, b, q, hi) && cm.voters * q != {}
    ensures Has(h, cm.term, cm.n, b)
  {
    var v :| v in cm.voters * q;
    assert Acked(h, v, cm.term, cm.n);
  }

  /** q elects c in term u. */
  ghost predicate Wins(h: Hist, c: NodeId, u: nat, q: set<NodeId>) {
    && (c, u) in h.cl && Quorum(Conf(h, h.cl[(c, u)]), q)
    && forall v :: v in q ==> (v, u) in h.voted && h.voted[(v, u)] == c
  }

  /** A winner has every earlier commit (before it is recorded as leader). */
  lemma {:induction false} WinnerHas(h: Hist, c: NodeId, u: nat, q: set<NodeId>, cm: Commit)
    requires Inv(h) && Wins(h, c, u, q) && cm in h.commits && cm.term < u
    ensures Has(h, cm.term, cm.n, h.cl[(c, u)])
    decreases cm.term, cm.len
  {
    var b := h.cl[(c, u)];
    forall x | x in h.commits && Earlier(x, cm) ensures Has(h, x.term, x.n, b) {
      WinnerHas(h, c, u, q, x);
    }
    assert CommitOk(h, cm) && CandidateOk(h, c, u);
    forall v | v in q ensures Promise(h, v, u, b, u) {
      assert VoteOk(h, v, u);
    }
    Contained(h, cm, b, u, q, u);
  }

  /** A new commit is in every leader already elected in a later term. */
  lemma {:induction false} NewCommitHeld(h: Hist, cm: Commit, u: nat)
    requires Inv(h) && CommitOk(h, cm) && u in h.ll && cm.term < u
    ensures Has(h, cm.term, cm.n, h.ll[u])
    decreases u
  {
    assert LeaderLogOk(h, u) && ElectionOk(h, u);
    var start := h.el[u].start;
    var b := h.ll[u][..start];
    forall x | x in h.ll && cm.term < x <= u - 1 ensures Has(h, cm.term, cm.n, h.ll[x]) {
      NewCommitHeld(h, cm, x);
    }
    forall x | x in h.commits && Earlier(x, cm) ensures Has(h, x.term, x.n, b) {
      assert CommitOk(h, x);
      HadAtElection(h, x.term, x.n, u);
    }
    assert CandidateOk(h, h.el[u].leader, u);
    Contained(h, cm, b, u, h.el[u].voters, u - 1);
  }

  lemma SharedIfHeld(h: Hist, a: Log, b: Log, d: nat, i: nat, x: Commit)
    requires InvLeaderLogs(h) && InvCommits(h) && Pref(h, a) && IsLcp(a, b, d)
    requires i < |a| && Justifies(h, x, a, i) && Has(h, x.term, x.n, b)
    ensures x.n <= d
  {
    JustificationIsPrefix(h, a, i, x);
    assert a[..x.n] == h.ll[x.term][..x.n] == b[..x.n];
    CommonIsShort(a, b, d, x.n);
  }

  lemma JustifiedByEarlierTerm(h: Hist, a: Log, u: nat, i: nat, x: Commit)
    requires InvLeaderLogs(h) && Pref(h, a) && LastTerm(a) < u && i < |a| && Justifies(h, x, a, i)
    ensures x in h.commits && x.term < u
  {
    PrefixOfLeader(h, a, i);
  }

  lemma WinnerSideSettled(h: Hist, a: Log, e: NodeId, u: nat, q: set<NodeId>, d: nat)
    requires Inv(h) && Pref(h, a) && LastTerm(a) < u && Wins(h, e, u, q)
    requires IsLcp(a, h.cl[(e, u)], d)
    ensures SettledAfter(h, a, d)
  {
    forall i: nat, x | d <= i < |a| && a[i].cmd.Config? && Justifies(h, x, a, i) ensures x.n <= d {
      JustifiedByEarlierTerm(h, a, u, i, x);
      WinnerHas(h, e, u, q, x);
      SharedIfHeld(h, a, h.cl[(e, u)], d, i, x);
    }
    SettleBy(h, a, d);
  }

  lemma LcpSym(a: Log, b: Log, d: nat)
    requires IsLcp(a, b, d)
    ensures IsLcp(b, a, d)
  {
  }

  /** Election Safety: one winner per term. */
  lemma OneWinner(h: Hist, c: NodeId, p: set<NodeId>, e: NodeId, q: set<NodeId>, u: nat)
    requires Inv(h) && Wins(h, c, u, p) && Wins(h, e, u, q)
    ensures c == e
  {
    var a, b := h.cl[(c, u)], h.cl[(e, u)];
    var d := LcpExists(a, b, 0);
    assert CandidateOk(h, c, u) && CandidateOk(h, e, u);
    WinnerSideSettled(h, a, e, u, q, d);
    LcpSym(a, b, d);
    WinnerSideSettled(h, b, c, u, p, d);
    MembershipsMeet(h, a, b, d);
    SharedServer(Conf(h, a), Conf(h, b), p, q);
    var v :| v in p * q;
  }

  lemma LeaderWins(h: Hist, u: nat)
    requires InvLeaderLogs(h) && InvElections(h) && u in h.ll
    ensures LeaderLogOk(h, u) && Wins(h, h.el[u].leader, u, h.el[u].voters)
  {
    assert LeaderLogOk(h, u) && ElectionOk(h, u);
  }
}
