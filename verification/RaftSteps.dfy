/** The seven ways the history of a run grows, each keeping its invariant. */
module RaftSteps {
  import opened RaftTypes
  import opened RaftHistory
  import opened RaftCompleteness

  /** h2 extends h: leader logs only gain entries of their own term, and
      nothing recorded is forgotten. */
  ghost predicate Grows(h: Hist, h2: Hist) {
    && h.base == h2.base
    && h.term.Keys == h2.term.Keys && h.log.Keys == h2.log.Keys
    && (forall v :: v in h.term ==> v in h2.term && h.term[v] <= h2.term[v])
    && (forall t :: t in h.ll ==> t in h2.ll && h.ll[t] <= h2.ll[t])
    && (forall t, i :: t in h.ll && |h.ll[t]| <= i < |h2.ll[t]| ==> h2.ll[t][i].term == t)
    && (forall t :: t in h.el ==> t in h2.el && h.el[t] == h2.el[t])
    && (forall k :: k in h.voted ==> k in h2.voted && h.voted[k] == h2.voted[k])
    && (forall k :: k in h.cl ==> k in h2.cl && h.cl[k] == h2.cl[k])
    && (forall k :: k in h.ack ==> k in h2.ack && h.ack[k] <= h2.ack[k])
    && h.commits <= h2.commits
  }

  lemma GrowsRefl(h: Hist)
    ensures Grows(h, h)
  {
  }

  lemma GrowsTrans(a: Hist, b: Hist, c: Hist)
    requires Grows(a, b) && Grows(b, c)
    ensures Grows(a, c)
  {
    forall t, i | t in a.ll && |a.ll[t]| <= i < |c.ll[t]| ensures c.ll[t][i].term == t {
      if i < |b.ll[t]| { assert c.ll[t][i] == b.ll[t][i]; }
    }
  }

  lemma HasGrows(h: Hist, h2: Hist, t: nat, n: nat, a: Log, b: Log)
    requires Grows(h, h2) && Has(h, t, n, a) && a <= b
    ensures Has(h2, t, n, b)
  {
    assert h.ll[t][..n] == h2.ll[t][..n];
  }

  lemma OwnGrows(h: Hist, h2: Hist, t: nat, n: nat)
    requires Grows(h, h2) && Own(h, t, n)
    ensures Own(h2, t, n) && h2.ll[t][..n] == h.ll[t][..n]
  {
  }

  lemma OwnShrinks(h: Hist, h2: Hist, t: nat, n: nat)
    requires Grows(h, h2) && t in h.ll && n <= |h.ll[t]| && Own(h2, t, n)
    ensures Own(h, t, n) && h2.ll[t][..n] == h.ll[t][..n]
  {
  }

  lemma PrefGrows(h: Hist, h2: Hist, log: Log)
    requires Grows(h, h2) && Pref(h, log)
    ensures Pref(h2, log)
  {
  }

  /** What a leader misses it never gains later. */
  lemma LostGrows(h: Hist, h2: Hist, t: nat, n: nat, hi: int, hi2: int)
    requires Grows(h, h2) && Own(h, t, n) && Lost(h, t, n, hi) && hi <= hi2
    ensures Lost(h2, t, n, hi2)
  {
    var u :| u in h.ll && t < u <= hi && !Has(h, t, n, h.ll[u]);
    if Has(h2, t, n, h2.ll[u]) { MissGrows(h, h2, t, n, u); }
  }

  lemma MissGrows(h: Hist, h2: Hist, t: nat, n: nat, u: nat)
    requires Grows(h, h2) && Own(h, t, n) && u in h.ll && t < u && Has(h2, t, n, h2.ll[u])
    ensures Has(h, t, n, h.ll[u])
  {
    OwnGrows(h, h2, t, n);
    var p := h2.ll[t][..n];
    assert h2.ll[u][n - 1] == p[n - 1] == h.ll[t][n - 1];
    assert h.ll[t][..n] == p;
  }

  ghost predicate AcksBounded(h: Hist) {
    forall k :: k in h.ack ==> k.1 in h.ll && h.ack[k] <= |h.ll[k.1]|
  }

  lemma AcksBoundedInv(h: Hist)
    requires InvAcks(h)
    ensures AcksBounded(h)
  {
    forall k | k in h.ack ensures k.1 in h.ll && h.ack[k] <= |h.ll[k.1]| {
      assert (k.0, k.1) == k;
      assert AckOk(h, k.0, k.1);
    }
  }

  /** Acknowledgements of terms before v's own are frozen. */
  ghost predicate Frozen(h: Hist, h2: Hist) {
    forall v, s :: v in h.term && s < h.term[v] && (v, s) in h2.ack ==>
      (v, s) in h.ack && h.ack[(v, s)] == h2.ack[(v, s)]
  }

  ghost predicate Step(h: Hist, h2: Hist) {
    Inv(h) && Grows(h, h2) && Frozen(h, h2) && AcksBounded(h)
  }

  lemma AckedShrinks(h: Hist, h2: Hist, v: NodeId, t: nat, n: nat)
    requires Grows(h, h2) && AcksBounded(h) && Acked(h2, v, t, n) && (v, t) in h.ack && n <= h.ack[(v, t)]
    ensures Acked(h, v, t, n)
  {
    OwnShrinks(h, h2, t, n);
  }

  lemma PromiseGrows(h: Hist, h2: Hist, v: NodeId, t: nat, log: Log, hi: int)
    requires Grows(h, h2) && Frozen(h, h2) && AcksBounded(h)
    requires v in h.term && t <= h.term[v] && Promise(h, v, t, log, hi)
    ensures Promise(h2, v, t, log, hi)
  {
    forall s: nat, n: nat | Acked(h2, v, s, n) && s < t
      ensures Has(h2, s, n, log) || Lost(h2, s, n, hi)
    {
      AckedShrinks(h, h2, v, s, n);
      if Has(h, s, n, log) {
        HasGrows(h, h2, s, n, log, log);
      } else {
        LostGrows(h, h2, s, n, hi, hi);
      }
    }
  }

  // ---------- what carries over a step by itself ----------

  lemma LeaderLogsCarry(h: Hist, h2: Hist, t: nat)
    requires Step(h, h2) && t in h.ll && h.ll[t] == h2.ll[t]
    ensures LeaderLogOk(h2, t)
  {
    assert LeaderLogOk(h, t);
    forall k {:trigger PrefUpTo(h2, h2.ll[t], k)} | 0 < k <= |h2.ll[t]| ensures PrefUpTo(h2, h2.ll[t], k) {
      assert PrefUpTo(h, h.ll[t], k);
    }
  }

  lemma ElectionsCarry(h: Hist, h2: Hist, t: nat)
    requires Step(h, h2) && t in h.ll && LeaderLogOk(h2, t)
    ensures ElectionOk(h2, t)
  {
    assert LeaderLogOk(h, t) && ElectionOk(h, t);
    var e := h.el[t];
    assert h2.ll[t][..e.start] == h.ll[t][..e.start];
    forall v | v in e.voters
      ensures && (v, t) in h2.voted && h2.voted[(v, t)] == e.leader
              && Promise(h2, v, t, h2.ll[t][..e.start], t - 1)
    {
      assert VoteOk(h, v, t);
      PromiseGrows(h, h2, v, t, h.ll[t][..e.start], t - 1);
    }
  }

  lemma CandidatesCarry(h: Hist, h2: Hist, c: NodeId, t: nat)
    requires Step(h, h2) && (c, t) in h.cl
    ensures CandidateOk(h2, c, t)
  {
    assert CandidateOk(h, c, t);
    PrefGrows(h, h2, h.cl[(c, t)]);
  }

  lemma VotesCarry(h: Hist, h2: Hist, v: NodeId, t: nat)
    requires Step(h, h2) && (v, t) in h.voted
    ensures VoteOk(h2, v, t)
  {
    assert VoteOk(h, v, t);
    PromiseGrows(h, h2, v, t, h.cl[(h.voted[(v, t)], t)], t);
  }

  lemma CommitsCarry(h: Hist, h2: Hist, cm: Commit)
    requires Grows(h, h2) && CommitOk(h, cm)
    ensures CommitOk(h2, cm)
  {
    assert h2.ll[cm.term][..cm.len] == h.ll[cm.term][..cm.len];
    forall v | v in cm.voters ensures Acked(h2, v, cm.term, cm.n) {
      assert Acked(h, v, cm.term, cm.n);
    }
  }

  lemma ConfigsCarry(h: Hist, h2: Hist, t: nat, i: nat)
    requires Step(h, h2) && t in h.ll && i < |h.ll[t]|
    ensures ConfigOk(h2, t, i)
  {
    assert ConfigOk(h, t, i);
    assert h2.ll[t][i] == h.ll[t][i];
    assert h2.ll[t][..i] == h.ll[t][..i];
    if h.ll[t][i].cmd.Config? && h.ll[t][i].term == t {
      var cm :| Justifies(h, cm, h.ll[t], i);
      assert Justifies(h2, cm, h2.ll[t], i);
    }
  }

  lemma CompleteCarry(h: Hist, h2: Hist, cm: Commit, u: nat)
    requires Step(h, h2) && cm in h.commits && u in h.ll && cm.term < u
    ensures Has(h2, cm.term, cm.n, h2.ll[u])
  {
    HasGrows(h, h2, cm.term, cm.n, h.ll[u], h2.ll[u]);
  }

  lemma LogsCarry(h: Hist, h2: Hist, v: NodeId)
    requires Step(h, h2) && v in h.log && h2.log[v] == h.log[v]
    ensures LogOk(h2, v)
  {
    assert LogOk(h, v);
    PrefGrows(h, h2, h.log[v]);
  }

  lemma KeptCarries(h: Hist, h2: Hist, v: NodeId, t: nat, n: nat)
    requires Grows(h, h2) && Kept(h, v, t, n) && Own(h, t, n) && h.log[v] <= h2.log[v]
    ensures Kept(h2, v, t, n)
  {
    if Has(h, t, n, h.log[v]) {
      HasGrows(h, h2, t, n, h.log[v], h2.log[v]);
    } else {
      LostGrows(h, h2, t, n, h.term[v], h2.term[v]);
    }
  }

  /** Everything about leader logs, for a step that changes none of them. */
  lemma LeadersCarry(h: Hist, h2: Hist)
    requires Step(h, h2) && h.ll == h2.ll && h.el == h2.el
    ensures InvLeaderLogs(h2) && InvElections(h2) && InvConfigs(h2)
  {
    forall t | t in h2.ll ensures LeaderLogOk(h2, t) && ElectionOk(h2, t) {
      LeaderLogsCarry(h, h2, t);
      ElectionsCarry(h, h2, t);
    }
    forall t, i | t in h2.ll && 0 <= i < |h2.ll[t]| ensures ConfigOk(h2, t, i) {
      ConfigsCarry(h, h2, t, i);
    }
  }

  lemma AllCommitsCarry(h: Hist, h2: Hist)
    requires Step(h, h2) && h.ll == h2.ll && h.commits == h2.commits
    ensures InvCommits(h2) && InvComplete(h2)
  {
    forall cm | cm in h2.commits ensures CommitOk(h2, cm) {
      assert CommitOk(h, cm);
      CommitsCarry(h, h2, cm);
    }
    forall cm, u | cm in h2.commits && u in h2.ll && cm.term < u ensures Has(h2, cm.term, cm.n, h2.ll[u]) {
      CompleteCarry(h, h2, cm, u);
    }
  }

  lemma CandidatesAndVotesCarry(h: Hist, h2: Hist)
    requires Step(h, h2) && h.cl == h2.cl && h.voted == h2.voted
    ensures InvCandidates(h2) && InvVotes(h2)
  {
    forall c, t | (c, t) in h2.cl ensures CandidateOk(h2, c, t) {
      CandidatesCarry(h, h2, c, t);
    }
    forall v, t | (v, t) in h2.voted ensures VoteOk(h2, v, t) {
      VotesCarry(h, h2, v, t);
    }
  }

  /** A later term has no acknowledgements yet. */
  lemma CurrentCarries(h: Hist, h2: Hist, v: NodeId)
    requires Step(h, h2) && v in h.log && h.log[v] == h2.log[v] && h.ack == h2.ack
    ensures CurrentOk(h2, v)
  {
    assert CurrentOk(h, v);
    assert (v, h2.term[v]) in h.ack ==> AckOk(h, v, h2.term[v]);
    if (v, h2.term[v]) in h.ack {
      HasGrows(h, h2, h.term[v], h.ack[(v, h.term[v])], h.log[v], h.log[v]);
    }
  }

  lemma LogsAndAcksCarry(h: Hist, h2: Hist)
    requires Step(h, h2) && h.log == h2.log && h.ack == h2.ack
    ensures InvLogs(h2) && InvAcks(h2) && InvCurrent(h2)
  {
    forall v | v in h2.log ensures CurrentOk(h2, v) { CurrentCarries(h, h2, v); }
    forall v | v in h2.log ensures LogOk(h2, v) { LogsCarry(h, h2, v); }
    forall v, t | (v, t) in h2.ack ensures AckOk(h2, v, t) { assert AckOk(h, v, t); }
    forall v: NodeId, t: nat, n: nat | Acked(h2, v, t, n) ensures Kept(h2, v, t, n) {
      AckedShrinks(h, h2, v, t, n);
      assert Kept(h, v, t, n);
      KeptCarries(h, h2, v, t, n);
    }
  }

  // ---------- 1. a node adopts a later term ----------

  function SetTerm(h: Hist, v: NodeId, t: nat): Hist {
    h.(term := h.term[v := t])
  }

  lemma SetTermStep(h: Hist, v: NodeId, t: nat)
    requires Inv(h) && v in h.term && h.term[v] <= t
    ensures Inv(SetTerm(h, v, t)) && Grows(h, SetTerm(h, v, t))
  {
    hide Step, InvComplete, AcksBounded, InvVotes;
    var h2 := SetTerm(h, v, t);
    AcksBoundedInv(h);
    LeadersCarry(h, h2);
    AllCommitsCarry(h, h2);
    CandidatesAndVotesCarry(h, h2);
    LogsAndAcksCarry(h, h2);
  }

  // ---------- 2. a node stands for election ----------

  function Stand(h: Hist, v: NodeId): Hist
    requires v in h.term && v in h.log
  {
    var t := h.term[v] + 1;
    h.(term := h.term[v := t], voted := h.voted[(v, t) := v], cl := h.cl[(v, t) := h.log[v]])
  }

  lemma FreshTerm(h: Hist, v: NodeId, t: nat)
    requires Inv(h) && v in h.term && h.term[v] < t
    ensures (v, t) !in h.voted && (v, t) !in h.cl
  {
    assert (v, t) in h.voted ==> VoteOk(h, v, t);
    assert (v, t) in h.cl ==> CandidateOk(h, v, t);
  }

  lemma StandIsStep(h: Hist, v: NodeId)
    requires Inv(h) && v in h.term && v in h.log
    ensures Step(h, Stand(h, v))
  {
    hide InvElections, InvCommits, InvAcks, InvComplete;
    FreshTerm(h, v, h.term[v] + 1);
    AcksBoundedInv(h);
  }

  lemma StandCandidates(h: Hist, v: NodeId)
    requires Inv(h) && v in h.term && v in h.log
    ensures InvCandidates(Stand(h, v))
  {
    var h2 := Stand(h, v);
    StandIsStep(h, v);
    assert LogOk(h, v);
    forall c, u | (c, u) in h2.cl ensures CandidateOk(h2, c, u) {
      if (c, u) in h.cl {
        CandidatesCarry(h, h2, c, u);
      } else {
        PrefGrows(h, h2, h.log[v]);
      }
    }
  }

  lemma StandVotes(h: Hist, v: NodeId)
    requires Inv(h) && v in h.term && v in h.log
    ensures InvVotes(Stand(h, v))
  {
    var h2 := Stand(h, v);
    StandIsStep(h, v);
    SelfPromise(h, h2, v);
    forall w, u | (w, u) in h2.voted ensures VoteOk(h2, w, u) {
      if (w, u) in h.voted {
        VotesCarry(h, h2, w, u);
      }
    }
  }

  lemma StandStep(h: Hist, v: NodeId)
    requires Inv(h) && v in h.term && v in h.log
    ensures Inv(Stand(h, v)) && Grows(h, Stand(h, v))
  {
    StandIsStep(h, v);
    LeadersCarry(h, Stand(h, v));
    AllCommitsCarry(h, Stand(h, v));
    LogsAndAcksCarry(h, Stand(h, v));
    StandCandidates(h, v);
    StandVotes(h, v);
  }

  lemma SelfPromise(h: Hist, h2: Hist, v: NodeId)
    requires InvAcks(h) && Grows(h, h2) && AcksBounded(h) && h.ack == h2.ack && v in h.term && v in h.log
    ensures Promise(h2, v, h.term[v] + 1, h.log[v], h.term[v] + 1)
  {
    forall s: nat, n: nat | Acked(h2, v, s, n) && s < h.term[v] + 1
      ensures Has(h2, s, n, h.log[v]) || Lost(h2, s, n, h.term[v] + 1)
    {
      AckedShrinks(h, h2, v, s, n);
      assert Kept(h, v, s, n);
      if Has(h, s, n, h.log[v]) {
        HasGrows(h, h2, s, n, h.log[v], h.log[v]);
      } else {
        LostGrows(h, h2, s, n, h.term[v], h.term[v] + 1);
      }
    }
  }

  // ---------- 3. a vote ----------

  function Grant(h: Hist, v: NodeId, c: NodeId): Hist
    requires v in h.term
  {
    h.(voted := h.voted[(v, h.term[v]) := c])
  }

  /** The election restriction: an up-to-date candidate has everything v has stored,
      unless a leader in between has already lost it. */
  lemma UpToDateHas(h: Hist, log: Log, cand: Log, t: nat, n: nat, u: nat)
    requires InvLeaderLogs(h) && Pref(h, log) && Pref(h, cand) && LastTerm(cand) < u
    requires Own(h, t, n) && Has(h, t, n, log)
    requires UpToDate(LastTerm(cand), |cand|, LastTerm(log), |log|)
    ensures Has(h, t, n, cand) || Lost(h, t, n, u)
  {
    assert log[n - 1] == h.ll[t][..n][n - 1];
    PrefixOfLeader(h, log, n - 1);
    var s := LastTerm(cand);
    if s == LastTerm(log) {
      assert log == h.ll[s][..|log|] == cand[..|log|];
    } else {
      if Has(h, t, n, h.ll[s]) {
        OwnBefore(h, t, n, cand, |cand| - 1);
      }
    }
  }

  lemma VoterPromise(h: Hist, h2: Hist, v: NodeId, t: nat, cand: Log)
    requires Inv(h) && Grows(h, h2) && AcksBounded(h) && h.ack == h2.ack
    requires v in h.log && v in h.term && h.term[v] == t && Pref(h, cand) && LastTerm(cand) < t
    requires UpToDate(LastTerm(cand), |cand|, LastTerm(h.log[v]), |h.log[v]|)
    ensures Promise(h2, v, t, cand, t)
  {
    assert LogOk(h, v);
    forall s: nat, n: nat | Acked(h2, v, s, n) && s < t ensures Has(h2, s, n, cand) || Lost(h2, s, n, t) {
      AckedShrinks(h, h2, v, s, n);
      assert Kept(h, v, s, n);
      if Has(h, s, n, h.log[v]) {
        UpToDateHas(h, h.log[v], cand, s, n, t);
      }
      if Has(h, s, n, cand) {
        HasGrows(h, h2, s, n, cand, cand);
      } else {
        LostGrows(h, h2, s, n, t, t);
      }
    }
  }

  /** A voter's log end lets it vote for c. */
  ghost predicate Grantable(h: Hist, v: NodeId, c: NodeId) {
    && v in h.term && (v, h.term[v]) !in h.voted && (c, h.term[v]) in h.cl && v in h.log
    && var cand := h.cl[(c, h.term[v])];
    UpToDate(LastTerm(cand), |cand|, LastTerm(h.log[v]), |h.log[v]|)
  }

  lemma GrantIsStep(h: Hist, v: NodeId, c: NodeId)
    requires Inv(h) && Grantable(h, v, c)
    ensures AcksBounded(h) && Step(h, Grant(h, v, c)) && Grows(h, Grant(h, v, c)) && CandidateOk(h, c, h.term[v])
  {
    AcksBoundedInv(h);
  }

  lemma GrantVotes(h: Hist, v: NodeId, c: NodeId)
    requires Inv(h) && Grantable(h, v, c) && AcksBounded(h) && CandidateOk(h, c, h.term[v])
    requires Step(h, Grant(h, v, c)) && Grows(h, Grant(h, v, c))
    ensures InvCandidates(Grant(h, v, c)) && InvVotes(Grant(h, v, c))
  {
    var h2 := Grant(h, v, c);
    hide Inv, Step, Grows, AcksBounded, Promise;
    forall e, u | (e, u) in h2.cl ensures CandidateOk(h2, e, u) {
      CandidatesCarry(h, h2, e, u);
    }
    forall w, u | (w, u) in h2.voted ensures VoteOk(h2, w, u) {
      if (w, u) == (v, h.term[v]) {
        VoterPromise(h, h2, v, u, h.cl[(c, u)]);
      } else {
        VotesCarry(h, h2, w, u);
      }
    }
  }

  lemma GrantStep(h: Hist, v: NodeId, c: NodeId)
    requires Inv(h) && Grantable(h, v, c)
    ensures Inv(Grant(h, v, c)) && Grows(h, Grant(h, v, c))
  {
    var h2 := Grant(h, v, c);
    hide Step, AcksBounded, InvComplete, InvVotes, InvElections, InvConfigs, InvCommits, InvAcks, InvLogs, InvLeaderLogs, InvCandidates,
      UpToDate;
    GrantIsStep(h, v, c);
    LeadersCarry(h, h2);
    AllCommitsCarry(h, h2);
    LogsAndAcksCarry(h, h2);
    GrantVotes(h, v, c);
  }

  // ---------- 4. a candidate wins ----------

  function Win(h: Hist, c: NodeId, q: set<NodeId>): Hist
    requires c in h.term && (c, h.term[c]) in h.cl
  {
    var log := h.cl[(c, h.term[c])];
    h.(ll := h.ll[h.term[c] := log], el := h.el[h.term[c] := Election(c, q, |log|)])
  }

  lemma WinStep(h: Hist, c: NodeId, q: set<NodeId>)
    requires Inv(h) && c in h.term && h.term[c] !in h.ll && Wins(h, c, h.term[c], q)
    ensures Inv(Win(h, c, q)) && Grows(h, Win(h, c, q))
  {
    var u := h.term[c];
    var h2 := Win(h, c, q);
    AcksBoundedInv(h);
    assert Step(h, h2);
    CandidatesAndVotesCarry(h, h2);
    LogsAndAcksCarry(h, h2);
    WinnerLogOk(h, h2, c, u);
    WinnerElectionOk(h, h2, c, u, q);
    forall t | t in h2.ll ensures LeaderLogOk(h2, t) && ElectionOk(h2, t) {
      if t != u {
        LeaderLogsCarry(h, h2, t);
        ElectionsCarry(h, h2, t);
      }
    }
    forall cm | cm in h2.commits ensures CommitOk(h2, cm) {
      assert CommitOk(h, cm);
      CommitsCarry(h, h2, cm);
    }
    forall t, i | t in h2.ll && 0 <= i < |h2.ll[t]| ensures ConfigOk(h2, t, i) {
      if t != u { ConfigsCarry(h, h2, t, i); }
    }
    forall cm, t | cm in h2.commits && t in h2.ll && cm.term < t ensures Has(h2, cm.term, cm.n, h2.ll[t]) {
      if t == u {
        WinnerHas(h, c, u, q, cm);
        HasGrows(h, h2, cm.term, cm.n, h2.ll[u], h2.ll[u]);
      } else {
        CompleteCarry(h, h2, cm, t);
      }
    }
  }

  lemma WinnerLogOk(h: Hist, h2: Hist, c: NodeId, u: nat)
    requires InvLeaderLogs(h) && InvCandidates(h) && Grows(h, h2) && (c, u) in h.cl && u in h2.ll && u in h2.el
    requires h2.cl == h.cl && h2.ll[u] == h.cl[(c, u)] && h2.el[u].leader == c && h2.el[u].start == |h.cl[(c, u)]|
    ensures LeaderLogOk(h2, u)
    ensures forall i :: 0 <= i < |h2.ll[u]| ==> h2.ll[u][i].term < u
  {
    var log := h.cl[(c, u)];
    assert CandidateOk(h, c, u);
    assert log[..|log|] == log;
    forall i | 0 <= i < |log| ensures log[i].index == i + 1 && 0 < log[i].term < u {
      PrefixOfLeader(h, log, i);
    }
    forall k {:trigger PrefUpTo(h2, h2.ll[u], k)} | 0 < k <= |log| ensures PrefUpTo(h2, h2.ll[u], k) {
      PrefOfPrefix(h, log, k);
      PrefGrows(h, h2, log[..k]);
    }
  }

  lemma WinnerElectionOk(h: Hist, h2: Hist, c: NodeId, u: nat, q: set<NodeId>)
    requires Step(h, h2) && u !in h.ll && Wins(h, c, u, q)
    requires u in h2.ll && LeaderLogOk(h2, u) && h2.ll[u] == h.cl[(c, u)] && h2.el[u] == Election(c, q, |h.cl[(c, u)]|)
    ensures ElectionOk(h2, u)
  {
    var log := h.cl[(c, u)];
    assert h2.ll[u][..|log|] == log;
    forall v | v in q ensures Promise(h2, v, u, log, u - 1) {
      assert VoteOk(h, v, u);
      StrictPromise(h, v, u, log);
      PromiseGrows(h, h2, v, u, log, u - 1);
    }
  }

  /** Before term u has a leader, a vote in it speaks of earlier leaders only. */
  lemma StrictPromise(h: Hist, v: NodeId, u: nat, log: Log)
    requires Promise(h, v, u, log, u) && u !in h.ll
    ensures Promise(h, v, u, log, u - 1)
  {
    forall s: nat, n: nat | Acked(h, v, s, n) && s < u ensures Has(h, s, n, log) || Lost(h, s, n, u - 1) {
      if !Has(h, s, n, log) {
        var x :| x in h.ll && s < x <= u && !Has(h, s, n, h.ll[x]);
        assert x != u;
      }
    }
  }

  // ---------- 5. a leader appends ----------

  function AckUpTo(h: Hist, v: NodeId, t: nat, n: nat): map<(NodeId, nat), nat> {
    h.ack[(v, t) := if (v, t) in h.ack && n < h.ack[(v, t)] then h.ack[(v, t)] else n]
  }

  ghost predicate Leads(h: Hist, v: NodeId) {
    && v in h.term && v in h.log && h.term[v] in h.ll && h.term[v] in h.el
    && h.el[h.term[v]].leader == v && h.log[v] == h.ll[h.term[v]]
  }

  function Append(h: Hist, v: NodeId, cmd: Command): Hist
    requires v in h.term && v in h.log
  {
    var t := h.term[v];
    var log := h.log[v] + [Entry(t, |h.log[v]| + 1, cmd)];
    h.(log := h.log[v := log], ll := h.ll[t := log], ack := AckUpTo(h, v, t, |log|))
  }

  /** The guard on a membership change. */
  ghost predicate MayChange(h: Hist, v: NodeId, members: Membership)
    requires v in h.term && v in h.log
  {
    && Meet(Conf(h, h.log[v]), members)
    && exists cm :: cm in h.commits && cm.term == h.term[v]
         && forall j :: 0 <= j < |h.log[v]| && h.log[v][j].cmd.Config? ==> j < cm.n
  }

  lemma AppendIsStep(h: Hist, v: NodeId, cmd: Command)
    requires Inv(h) && Leads(h, v)
    ensures Step(h, Append(h, v, cmd))
  {
    hide InvComplete, InvVotes, InvConfigs, InvCommits, InvElections;
    AcksBoundedInv(h);
    assert AckOkAt(h, v, h.term[v]);
  }

  ghost predicate AckOkAt(h: Hist, v: NodeId, t: nat) {
    (v, t) in h.ack ==> AckOk(h, v, t)
  }

  lemma AppendLeaderLog(h: Hist, v: NodeId, cmd: Command)
    requires Inv(h) && Leads(h, v)
    ensures LeaderLogOk(Append(h, v, cmd), h.term[v])
  {
    var t := h.term[v];
    var h2 := Append(h, v, cmd);
    AppendIsStep(h, v, cmd);
    assert LeaderLogOk(h, t);
    assert CandidateOk(h, v, t);
    var log := h2.ll[t];
    assert log[..h.el[t].start] == h.ll[t][..h.el[t].start];
    forall k {:trigger PrefUpTo(h2, h2.ll[t], k)} | 0 < k <= |log| ensures PrefUpTo(h2, h2.ll[t], k) {
      if k < |log| {
        assert PrefUpTo(h, h.ll[t], k);
        assert log[..k] == h.ll[t][..k];
        PrefGrows(h, h2, log[..k]);
      } else {
        assert log[..k] == log;
      }
    }
  }

  lemma AppendStep(h: Hist, v: NodeId, cmd: Command)
    requires Inv(h) && Leads(h, v)
    requires cmd.Config? ==> MayChange(h, v, cmd.members)
    ensures Inv(Append(h, v, cmd)) && Grows(h, Append(h, v, cmd)) && Leads(Append(h, v, cmd), v)
  {
    var t := h.term[v];
    var h2 := Append(h, v, cmd);
    AppendIsStep(h, v, cmd);
    CandidatesAndVotesCarry(h, h2);
    AppendLeaderLog(h, v, cmd);
    forall u | u in h2.ll ensures LeaderLogOk(h2, u) && ElectionOk(h2, u) {
      if u != t { LeaderLogsCarry(h, h2, u); }
      ElectionsCarry(h, h2, u);
    }
    forall cm | cm in h2.commits ensures CommitOk(h2, cm) {
      assert CommitOk(h, cm);
      CommitsCarry(h, h2, cm);
    }
    AppendAcks(h, v, cmd);
    AppendConfigs(h, v, cmd);
    forall cm, u | cm in h2.commits && u in h2.ll && cm.term < u ensures Has(h2, cm.term, cm.n, h2.ll[u]) {
      CompleteCarry(h, h2, cm, u);
    }
  }

  lemma AppendAcks(h: Hist, v: NodeId, cmd: Command)
    requires Inv(h) && Leads(h, v)
    ensures InvLogs(Append(h, v, cmd)) && InvAcks(Append(h, v, cmd)) && InvCurrent(Append(h, v, cmd))
  {
    var t := h.term[v];
    var h2 := Append(h, v, cmd);
    AppendIsStep(h, v, cmd);
    forall w | w in h2.log ensures CurrentOk(h2, w) { AppenderCurrent(h, v, cmd, w); }
    forall w | w in h2.log ensures LogOk(h2, w) {
      if w != v { LogsCarry(h, h2, w); }
    }
    forall w, s | (w, s) in h2.ack ensures AckOk(h2, w, s) {
      assert AckOkAt(h, w, s);
    }
    forall w: NodeId, s: nat, n: nat | Acked(h2, w, s, n) ensures Kept(h2, w, s, n) {
      AppenderKeeps(h, v, cmd, w, s, n);
    }
  }

  lemma AppenderCurrent(h: Hist, v: NodeId, cmd: Command, w: NodeId)
    requires Inv(h) && Leads(h, v) && w in h.log && Step(h, Append(h, v, cmd)) && AckOkAt(h, v, h.term[v])
    ensures CurrentOk(Append(h, v, cmd), w)
  {
    var h2 := Append(h, v, cmd);
    assert CurrentOk(h, w);
    if w != v && (w, h.term[w]) in h.ack {
      HasGrows(h, h2, h.term[w], h.ack[(w, h.term[w])], h.log[w], h.log[w]);
    }
  }

  lemma AppenderKeeps(h: Hist, v: NodeId, cmd: Command, w: NodeId, s: nat, n: nat)
    requires Inv(h) && Leads(h, v) && Acked(Append(h, v, cmd), w, s, n)
    requires Step(h, Append(h, v, cmd)) && AcksBounded(h)
    ensures Kept(Append(h, v, cmd), w, s, n)
  {
    var h2 := Append(h, v, cmd);
    if (w, s) != (v, h.term[v]) {
      AckedShrinks(h, h2, w, s, n);
      assert Kept(h, w, s, n);
      KeptCarries(h, h2, w, s, n);
    }
  }

  lemma AppendConfigs(h: Hist, v: NodeId, cmd: Command)
    requires Inv(h) && Leads(h, v)
    requires cmd.Config? ==> MayChange(h, v, cmd.members)
    ensures InvConfigs(Append(h, v, cmd))
  {
    var t := h.term[v];
    var h2 := Append(h, v, cmd);
    AppendIsStep(h, v, cmd);
    forall u, i | u in h2.ll && 0 <= i < |h2.ll[u]| ensures ConfigOk(h2, u, i) {
      if u == t && i == |h.ll[t]| {
        assert h2.ll[t][..i] == h.log[v];
        if cmd.Config? {
          var cm :| cm in h.commits && cm.term == h.term[v]
           && forall j :: 0 <= j < |h.log[v]| && h.log[v][j].cmd.Config? ==> j < cm.n;
          assert CommitOk(h, cm);
          assert Justifies(h2, cm, h2.ll[t], i);
        }
      } else {
        ConfigsCarry(h, h2, u, i);
      }
    }
  }

  // ---------- 6. a follower stores entries of its leader ----------

  function Accept(h: Hist, v: NodeId, log: Log, m: nat): Hist
    requires v in h.term
  {
    h.(log := h.log[v := log], ack := AckUpTo(h, v, h.term[v], m))
  }

  /** Nothing of v's log that agrees with its leader's log is dropped. */
  ghost predicate Preserves(mine: Log, leader: Log, log: Log) {
    forall k {:trigger mine[..k]} :: 0 <= k <= |mine| && mine[..k] <= leader ==> mine[..k] <= log
  }

  /** log is what v may hold after taking the first m entries of its leader. */
  ghost predicate Acceptable(h: Hist, v: NodeId, log: Log, m: nat) {
    && v in h.term && v in h.log && h.term[v] in h.ll
    && Pref(h, log) && LastTerm(log) <= h.term[v]
    && m <= |log| && m <= |h.ll[h.term[v]]| && log[..m] == h.ll[h.term[v]][..m]
    && Preserves(h.log[v], h.ll[h.term[v]], log)
  }

  lemma AcceptStep(h: Hist, v: NodeId, log: Log, m: nat)
    requires Inv(h) && Acceptable(h, v, log, m)
    ensures Inv(Accept(h, v, log, m)) && Grows(h, Accept(h, v, log, m))
  {
    var h2 := Accept(h, v, log, m);
    AcksBoundedInv(h);
    assert Step(h, h2);
    LeadersCarry(h, h2);
    AllCommitsCarry(h, h2);
    CandidatesAndVotesCarry(h, h2);
    forall w | w in h2.log ensures LogOk(h2, w) && CurrentOk(h2, w) {
      AccepterCurrent(h, v, log, m, w);
      if w == v { PrefGrows(h, h2, log); } else { LogsCarry(h, h2, w); }
    }
    forall w, s | (w, s) in h2.ack ensures AckOk(h2, w, s) {
      assert AckOkAt(h, w, s);
    }
    forall w: NodeId, s: nat, n: nat | Acked(h2, w, s, n) ensures Kept(h2, w, s, n) {
      AccepterKeeps(h, v, log, m, w, s, n);
    }
  }

  lemma AccepterCurrent(h: Hist, v: NodeId, log: Log, m: nat, w: NodeId)
    requires Inv(h) && Acceptable(h, v, log, m) && Grows(h, Accept(h, v, log, m)) && w in h.log
    ensures CurrentOk(Accept(h, v, log, m), w)
  {
    var t, l := h.term[v], h.ll[h.term[v]];
    assert CurrentOk(h, w);
    if w == v && (v, t) in h.ack && m < h.ack[(v, t)] {
      var k := h.ack[(v, t)];
      assert h.log[v][..k] == l[..k];
      assert h.log[v][..k] <= l;
    }
  }

  lemma AccepterKeeps(h: Hist, v: NodeId, log: Log, m: nat, w: NodeId, s: nat, n: nat)
    requires Inv(h) && Acceptable(h, v, log, m) && Grows(h, Accept(h, v, log, m)) && AcksBounded(h)
    requires Acked(Accept(h, v, log, m), w, s, n)
    ensures Kept(Accept(h, v, log, m), w, s, n)
  {
    var h2 := Accept(h, v, log, m);
    if w == v && s == h.term[v] && n <= m {
      assert h.ll[s][..n] == log[..m][..n] == log[..n];
    } else {
      AckedShrinks(h, h2, w, s, n);
      assert Kept(h, w, s, n);
      if w == v {
        OldAckOfAccepter(h, h2, v, log, s, n);
      } else {
        KeptCarries(h, h2, w, s, n);
      }
    }
  }

  lemma OldAckOfAccepter(h: Hist, h2: Hist, v: NodeId, log: Log, s: nat, n: nat)
    requires Inv(h) && Acked(h, v, s, n) && Kept(h, v, s, n) && Grows(h, h2) && v in h2.log && h2.log[v] == log
    requires h.term[v] in h.ll && h2.term == h.term && Preserves(h.log[v], h.ll[h.term[v]], log)
    ensures Kept(h2, v, s, n)
  {
    var t := h.term[v];
    assert AckOk(h, v, s);
    if Has(h, s, n, h.log[v]) {
      assert h.log[v][..n] == h.ll[s][..n];
      if h.log[v][..n] <= h.ll[t] {
        HasGrows(h, h2, s, n, log, log);
      } else {
        assert Lost(h, s, n, t);
        LostGrows(h, h2, s, n, t, t);
      }
    } else {
      LostGrows(h, h2, s, n, t, t);
    }
  }

  // ---------- 7. a leader commits ----------

  function CommitAt(h: Hist, v: NodeId, n: nat, q: set<NodeId>): Hist
    requires v in h.term && v in h.log
  {
    h.(commits := h.commits + {Commit(h.term[v], n, |h.log[v]|, q)})
  }

  lemma CommitStep(h: Hist, v: NodeId, n: nat, q: set<NodeId>)
    requires Inv(h) && Leads(h, v) && CommitOk(h, Commit(h.term[v], n, |h.log[v]|, q))
    ensures Inv(CommitAt(h, v, n, q)) && Grows(h, CommitAt(h, v, n, q))
  {
    var cm := Commit(h.term[v], n, |h.log[v]|, q);
    var h2 := CommitAt(h, v, n, q);
    AcksBoundedInv(h);
    assert Step(h, h2);
    CandidatesAndVotesCarry(h, h2);
    LogsAndAcksCarry(h, h2);
    LeadersCarry(h, h2);
    NewCommitsOk(h, h2, cm);
  }

  lemma NewCommitsOk(h: Hist, h2: Hist, cm: Commit)
    requires Step(h, h2) && h.ll == h2.ll && CommitOk(h, cm) && h2.commits == h.commits + {cm}
    ensures InvCommits(h2) && InvComplete(h2)
  {
    forall c | c in h2.commits ensures CommitOk(h2, c) {
      assert c != cm ==> CommitOk(h, c);
      CommitsCarry(h, h2, c);
    }
    forall c, u | c in h2.commits && u in h2.ll && c.term < u ensures Has(h2, c.term, c.n, h2.ll[u]) {
      if c == cm {
        NewCommitHeld(h, cm, u);
        HasGrows(h, h2, c.term, c.n, h.ll[u], h2.ll[u]);
      } else {
        CompleteCarry(h, h2, c, u);
      }
    }
  }
}
