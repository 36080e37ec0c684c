/** The history of a Raft run: what the proof remembers about elections,
    votes, acknowledgements and commits. None of it exists in the program;
    RaftCluster runs without it and RaftInduction rebuilds it step by step.

    `ll[t]` is the log of the leader of term t, which only grows. Every log in
    the cluster is a prefix of `ll[t]` for the term t of its last entry. */
module RaftHistory {
  import opened RaftTypes

  datatype Election = Election(leader: NodeId, voters: set<NodeId>, start: nat)

  /** The leader of `term` counted `voters` for index `n` when its log had length `len`. */
  datatype Commit = Commit(term: nat, n: nat, len: nat, voters: set<NodeId>)

  datatype Hist = Hist(
    base: Membership,
    term: map<NodeId, nat>,
    log: map<NodeId, Log>,
    ll: map<nat, Log>,
    el: map<nat, Election>,
    voted: map<(NodeId, nat), NodeId>,
    cl: map<(NodeId, nat), Log>,
    ack: map<(NodeId, nat), nat>,
    commits: set<Commit>)

  // ---------- vocabulary ----------

  ghost predicate Own(h: Hist, t: nat, n: nat) {
    t in h.ll && 0 < n <= |h.ll[t]| && h.ll[t][n - 1].term == t
  }

  ghost predicate Has(h: Hist, t: nat, n: nat, log: Log) {
    t in h.ll && n <= |h.ll[t]| && h.ll[t][..n] <= log
  }

  /** v stored the first n entries of leader t's log, the last being of term t. */
  ghost predicate Acked(h: Hist, v: NodeId, t: nat, n: nat) {
    (v, t) in h.ack && n <= h.ack[(v, t)] && Own(h, t, n)
  }

  /** Some leader after t, up to term hi, does not have them. */
  ghost predicate Lost(h: Hist, t: nat, n: nat, hi: int) {
    exists u :: u in h.ll && t < u <= hi && !Has(h, t, n, h.ll[u])
  }

  ghost predicate Pref(h: Hist, log: Log) {
    log == [] || (LastTerm(log) in h.ll && log <= h.ll[LastTerm(log)])
  }

  ghost predicate PrefUpTo(h: Hist, log: Log, k: nat) {
    k <= |log| && Pref(h, log[..k])
  }

  ghost function Conf(h: Hist, log: Log): Membership {
    ConfigOf(h.base, log)
  }

  /** What v's vote in term t says about the candidate's log. */
  ghost predicate Promise(h: Hist, v: NodeId, t: nat, log: Log, hi: int) {
    forall s: nat, n: nat :: Acked(h, v, s, n) && s < t ==> Has(h, s, n, log) || Lost(h, s, n, hi)
  }

  /** The commit that allowed leader log[i].term to append the CONFIG at i. */
  ghost predicate Justifies(h: Hist, cm: Commit, log: Log, i: nat)
    requires i < |log|
  {
    && cm in h.commits && cm.term == log[i].term && cm.len <= i
    && forall j :: 0 <= j < i && log[j].cmd.Config? ==> j < cm.n
  }

  ghost predicate Justified(h: Hist, log: Log, i: nat)
    requires i < |log| && log[i].cmd.Config?
  {
    && Meet(Conf(h, log[..i]), log[i].cmd.members)
    && exists cm :: Justifies(h, cm, log, i)
  }

  // ---------- invariant ----------

  ghost predicate LeaderLogOk(h: Hist, t: nat)
    requires t in h.ll
  {
    && t in h.el && h.el[t].start <= |h.ll[t]|
    && (h.el[t].leader, t) in h.cl
    && h.cl[(h.el[t].leader, t)] == h.ll[t][..h.el[t].start]
    && (forall i :: 0 <= i < |h.ll[t]| ==> h.ll[t][i].index == i + 1 && 0 < h.ll[t][i].term <= t)
    && (forall i :: 0 <= i < |h.ll[t]| ==> (h.ll[t][i].term == t <==> h.el[t].start <= i))
    && (forall k :: 0 < k <= |h.ll[t]| ==> PrefUpTo(h, h.ll[t], k))
  }

  ghost predicate InvLeaderLogs(h: Hist) {
    && h.el.Keys <= h.ll.Keys
    && forall t {:trigger LeaderLogOk(h, t)} :: t in h.ll ==> LeaderLogOk(h, t)
  }

  ghost predicate LogOk(h: Hist, v: NodeId)
    requires v in h.log && v in h.term
  {
    Pref(h, h.log[v]) && LastTerm(h.log[v]) <= h.term[v]
  }

  ghost predicate InvLogs(h: Hist) {
    && h.term.Keys == h.log.Keys
    && forall v {:trigger LogOk(h, v)} :: v in h.log ==> LogOk(h, v)
  }

  ghost predicate CandidateOk(h: Hist, c: NodeId, t: nat)
    requires (c, t) in h.cl
  {
    c in h.term && 0 < t <= h.term[c] && Pref(h, h.cl[(c, t)]) && LastTerm(h.cl[(c, t)]) < t
  }

  ghost predicate InvCandidates(h: Hist) {
    forall c, t {:trigger CandidateOk(h, c, t)} :: (c, t) in h.cl ==> CandidateOk(h, c, t)
  }

  ghost predicate VoteOk(h: Hist, v: NodeId, t: nat)
    requires (v, t) in h.voted
  {
    && v in h.term && t <= h.term[v]
    && (h.voted[(v, t)], t) in h.cl
    && Promise(h, v, t, h.cl[(h.voted[(v, t)], t)], t)
  }

  ghost predicate InvVotes(h: Hist) {
    forall v, t {:trigger VoteOk(h, v, t)} :: (v, t) in h.voted ==> VoteOk(h, v, t)
  }

  ghost predicate ElectionOk(h: Hist, t: nat)
    requires t in h.ll && LeaderLogOk(h, t)
  {
    var e := h.el[t];
    && Quorum(Conf(h, h.ll[t][..e.start]), e.voters)
    && forall v :: v in e.voters ==>
         && (v, t) in h.voted && h.voted[(v, t)] == e.leader
         && Promise(h, v, t, h.ll[t][..e.start], t - 1)
  }

  ghost predicate InvElections(h: Hist) {
    forall t {:trigger ElectionOk(h, t)} :: t in h.ll ==> LeaderLogOk(h, t) && ElectionOk(h, t)
  }

  ghost predicate AckOk(h: Hist, v: NodeId, t: nat)
    requires (v, t) in h.ack
  {
    v in h.log && v in h.term && t in h.ll && t <= h.term[v] && h.ack[(v, t)] <= |h.ll[t]|
  }

  ghost predicate Kept(h: Hist, v: NodeId, t: nat, n: nat) {
    v in h.log && v in h.term && (Has(h, t, n, h.log[v]) || Lost(h, t, n, h.term[v]))
  }

  ghost predicate InvAcks(h: Hist) {
    && (forall v, t {:trigger AckOk(h, v, t)} :: (v, t) in h.ack ==> AckOk(h, v, t))
    && (forall v: NodeId, t: nat, n: nat {:trigger Kept(h, v, t, n)} :: Acked(h, v, t, n) ==> Kept(h, v, t, n))
  }

  /** A node holds whatever it has acknowledged to the leader of its current term. */
  ghost predicate CurrentOk(h: Hist, v: NodeId) {
    v in h.term && v in h.log
    && ((v, h.term[v]) in h.ack ==> Has(h, h.term[v], h.ack[(v, h.term[v])], h.log[v]))
  }

  ghost predicate InvCurrent(h: Hist) {
    forall v {:trigger CurrentOk(h, v)} :: v in h.log ==> CurrentOk(h, v)
  }

  ghost predicate CommitOk(h: Hist, cm: Commit) {
    && Own(h, cm.term, cm.n) && cm.n <= cm.len <= |h.ll[cm.term]|
    && Quorum(Conf(h, h.ll[cm.term][..cm.len]), cm.voters)
    && forall v :: v in cm.voters ==> Acked(h, v, cm.term, cm.n)
  }

  ghost predicate InvCommits(h: Hist) {
    forall cm {:trigger CommitOk(h, cm)} :: cm in h.commits ==> CommitOk(h, cm)
  }

  ghost predicate ConfigOk(h: Hist, t: nat, i: nat)
    requires t in h.ll && i < |h.ll[t]|
  {
    h.ll[t][i].cmd.Config? && h.ll[t][i].term == t ==> Justified(h, h.ll[t], i)
  }

  ghost predicate InvConfigs(h: Hist) {
    forall t, i {:trigger ConfigOk(h, t, i)} :: t in h.ll && 0 <= i < |h.ll[t]| ==> ConfigOk(h, t, i)
  }

  /** Leader Completeness. */
  ghost predicate InvComplete(h: Hist) {
    forall cm, u {:trigger Has(h, cm.term, cm.n, h.ll[u])} ::
      cm in h.commits && u in h.ll && cm.term < u ==> Has(h, cm.term, cm.n, h.ll[u])
  }

  ghost predicate Inv(h: Hist) {
    && InvLeaderLogs(h) && InvLogs(h) && InvCandidates(h) && InvVotes(h) && InvElections(h)
    && InvAcks(h) && InvCommits(h) && InvConfigs(h) && InvComplete(h) && InvCurrent(h)
  }

  // ---------- consequences about single logs ----------

  lemma TermsMonotone(h: Hist, t: nat, i: nat, j: nat)
    requires InvLeaderLogs(h) && t in h.ll && i <= j < |h.ll[t]|
    ensures h.ll[t][i].term <= h.ll[t][j].term
  {
    assert LeaderLogOk(h, t);
    var p := h.ll[t][..j + 1];
    assert PrefUpTo(h, h.ll[t], j + 1);
    var s := LastTerm(p);
    assert s == h.ll[t][j].term;
    assert LeaderLogOk(h, s);
    assert h.ll[s][i] == p[i];
  }

  /** A log's prefix up to any entry is a prefix of that entry's leader log. */
  lemma PrefixOfLeader(h: Hist, log: Log, i: nat)
    requires InvLeaderLogs(h) && Pref(h, log) && i < |log|
    ensures log[i].term in h.ll && log[..i + 1] <= h.ll[log[i].term]
    ensures log[i].index == i + 1 && 0 < log[i].term <= LastTerm(log)
  {
    var t := LastTerm(log);
    assert LeaderLogOk(h, t);
    assert log[..i + 1] == h.ll[t][..i + 1];
    assert PrefUpTo(h, h.ll[t], i + 1);
    TermsMonotone(h, t, i, |log| - 1);
  }

  lemma LogTermsMonotone(h: Hist, log: Log, i: nat, j: nat)
    requires InvLeaderLogs(h) && Pref(h, log) && i <= j < |log|
    ensures log[i].term <= log[j].term
  {
    TermsMonotone(h, LastTerm(log), i, j);
  }

  lemma PrefOfPrefix(h: Hist, log: Log, k: nat)
    requires InvLeaderLogs(h) && Pref(h, log) && k <= |log|
    ensures Pref(h, log[..k])
  {
    if k > 0 {
      PrefixOfLeader(h, log, k - 1);
      assert log[..k][k - 1] == log[k - 1];
    }
  }

  /** Log Matching. */
  lemma Matching(h: Hist, a: Log, b: Log, i: nat)
    requires InvLeaderLogs(h) && Pref(h, a) && Pref(h, b)
    requires i < |a| && i < |b| && a[i].term == b[i].term
    ensures a[..i + 1] == b[..i + 1]
  {
    PrefixOfLeader(h, a, i);
    PrefixOfLeader(h, b, i);
  }

  /** An entry of term t sits in leader u's log before every entry of a later term. */
  lemma OwnBefore(h: Hist, t: nat, n: nat, log: Log, j: nat)
    requires InvLeaderLogs(h) && Own(h, t, n) && Pref(h, log)
    requires j < |log| && t < log[j].term && log[j].term in h.ll && Has(h, t, n, h.ll[log[j].term])
    ensures Has(h, t, n, log) && n <= j
  {
    var u := log[j].term;
    PrefixOfLeader(h, log, j);
    assert u in h.ll && log[..j + 1] <= h.ll[u];
    assert h.ll[u][n - 1] == h.ll[t][..n][n - 1];
    assert h.ll[u][j] == log[..j + 1][j];
    if n > j { TermsMonotone(h, u, j, n - 1); }
    assert h.ll[t][..n] == log[..j + 1][..n] == log[..n];
  }

  /** What a later leader has, it already had when elected. */
  lemma HadAtElection(h: Hist, t: nat, n: nat, u: nat)
    requires InvLeaderLogs(h) && Own(h, t, n) && u in h.ll && t < u && Has(h, t, n, h.ll[u])
    ensures LeaderLogOk(h, u) && n <= h.el[u].start && Has(h, t, n, h.ll[u][..h.el[u].start])
  {
    assert LeaderLogOk(h, u);
    assert h.ll[u][n - 1] == h.ll[t][..n][n - 1];
  }

  // ---------- divergence of two logs ----------

  ghost predicate IsLcp(a: Log, b: Log, d: nat) {
    && d <= |a| && d <= |b| && a[..d] == b[..d]
    && (d == |a| || d == |b| || a[d] != b[d])
  }

  lemma {:induction false} LcpExists(a: Log, b: Log, k: nat) returns (d: nat)
    requires k <= |a| && k <= |b| && a[..k] == b[..k]
    ensures IsLcp(a, b, d)
    decreases |a| - k
  {
    if k == |a| || k == |b| || a[k] != b[k] {
      d := k;
    } else {
      assert a[..k + 1] == a[..k] + [a[k]];
      assert b[..k + 1] == b[..k] + [b[k]];
      d := LcpExists(a, b, k + 1);
    }
  }

  lemma CommonIsShort(a: Log, b: Log, d: nat, k: nat)
    requires IsLcp(a, b, d) && k <= |a| && k <= |b| && a[..k] == b[..k]
    ensures k <= d
  {
    assert forall i :: 0 <= i < k ==> a[i] == a[..k][i];
    assert forall i :: 0 <= i < k ==> b[i] == b[..k][i];
  }

  lemma PrefixShare(a: Log, b: Log, d: nat, l: Log, m: nat)
    requires IsLcp(a, b, d) && a <= l && m <= |b| && b[..m] <= l
    ensures m <= d || |a| <= d
  {
    var k := if m <= |a| then m else |a|;
    assert a[..k] == l[..k] == b[..m][..k] == b[..k];
    CommonIsShort(a, b, d, k);
  }

  /** The CONFIG at i of log was justified inside log[..d]. */
  ghost predicate JustifiedWithin(h: Hist, log: Log, i: nat, d: nat)
    requires i < |log|
  {
    exists cm :: Justifies(h, cm, log, i) && 0 < cm.n <= d && d <= |log| && log[cm.n - 1].term == log[i].term
  }

  ghost predicate SettledAfter(h: Hist, log: Log, d: nat) {
    && d <= |log|
    && forall i :: d <= i < |log| && log[i].cmd.Config? ==>
         JustifiedWithin(h, log, i, d) && Meet(Conf(h, log[..i]), log[i].cmd.members)
  }

  lemma OneConfigAfter(h: Hist, log: Log, d: nat, i: nat, j: nat)
    requires SettledAfter(h, log, d) && d <= i < |log| && d <= j < |log|
    requires log[i].cmd.Config? && log[j].cmd.Config?
    ensures i == j
  {
    assert JustifiedWithin(h, log, i, d) && JustifiedWithin(h, log, j, d);
  }

  /** With at most one CONFIG after the divergence, the membership moved once. */
  lemma ConfMovedOnce(h: Hist, log: Log, d: nat, i: nat)
    requires SettledAfter(h, log, d) && d <= i < |log| && log[i].cmd.Config?
    ensures Meet(Conf(h, log[..d]), Conf(h, log))
  {
    forall j | d <= j < |log| && log[j].cmd.Config? ensures j == i {
      OneConfigAfter(h, log, d, i, j);
    }
    ConfigOfLastAt(h.base, log, i);
    var p := log[..i];
    assert p[..d] == log[..d];
    forall j | d <= j < i ensures !p[j].cmd.Config? {
      assert p[j] == log[j];
    }
    ConfigOfQuietSuffix(h.base, p, d);
    assert JustifiedWithin(h, log, i, d);
  }

  /** The step at the heart of the membership proof: two logs whose later
      CONFIGs were all justified before they diverged use memberships whose
      quorums meet. */
  lemma MembershipsMeet(h: Hist, a: Log, b: Log, d: nat)
    requires InvLeaderLogs(h) && Pref(h, a) && Pref(h, b) && IsLcp(a, b, d)
    requires SettledAfter(h, a, d) && SettledAfter(h, b, d)
    ensures Meet(Conf(h, a), Conf(h, b))
  {
    if i :| d <= i < |a| && a[i].cmd.Config? {
      ConfMovedOnce(h, a, d, i);
      if j :| d <= j < |b| && b[j].cmd.Config? {
        JustifiedBelow(h, a, b, d, i, j);
        JustifiedBelow(h, b, a, d, j, i);
        SameTermCommon(h, a, b, d, i, j);
        assert false;
      } else {
        ConfigOfQuietSuffix(h.base, b, d);
      }
    } else {
      ConfigOfQuietSuffix(h.base, a, d);
      if j :| d <= j < |b| && b[j].cmd.Config? {
        ConfMovedOnce(h, b, d, j);
        MeetSwaps(Conf(h, b), Conf(h, a));
      } else {
        ConfigOfQuietSuffix(h.base, b, d);
        MeetSelf(Conf(h, a));
      }
    }
  }

  lemma JustifiedBelow(h: Hist, a: Log, b: Log, d: nat, i: nat, j: nat)
    requires InvLeaderLogs(h) && Pref(h, a) && Pref(h, b) && IsLcp(a, b, d)
    requires SettledAfter(h, a, d) && d <= i < |a| && a[i].cmd.Config? && d <= j < |b|
    ensures a[i].term <= b[j].term
  {
    assert JustifiedWithin(h, a, i, d);
    var cm :| Justifies(h, cm, a, i) && 0 < cm.n <= d && a[cm.n - 1].term == a[i].term;
    assert a[cm.n - 1] == a[..d][cm.n - 1] == b[cm.n - 1];
    LogTermsMonotone(h, b, cm.n - 1, j);
  }

  /** Entries of one term leave the common prefix on at most one side. */
  lemma SameTermCommon(h: Hist, a: Log, b: Log, d: nat, i: nat, j: nat)
    requires InvLeaderLogs(h) && Pref(h, a) && Pref(h, b) && IsLcp(a, b, d)
    requires i < |a| && j < |b| && a[i].term == b[j].term
    ensures i < d || j < d
  {
    PrefixOfLeader(h, a, i);
    PrefixOfLeader(h, b, j);
    var k := if i <= j then i + 1 else j + 1;
    assert a[..k] == h.ll[a[i].term][..k] == b[..k];
    CommonIsShort(a, b, d, k);
  }
}
