/** What the handlers get done: when an AppendEntries commits and what it
    stores, when a vote is granted and who leads, how a transfer ends, and how
    far a leader commits. */
module RaftProgress {
  import opened Wrappers
  import opened RaftTypes
  import opened RaftState
  import opened RaftNodeInvariant
  import opened RaftGhost
  import A = RaftRefineAppend

  // ---------- AppendEntries ----------

  /** n2 has committed whatever the leader has and the request reaches, and if more than n, nothing else. */
  predicate Commits(n: Node, n2: Node, a: AppendArgs) {
    && Min(a.leaderCommit, a.prevLogIndex + |a.entries|) <= n2.commitIndex
    && (n2.commitIndex > n.commitIndex ==>
          n2.commitIndex <= a.leaderCommit && n2.commitIndex <= a.prevLogIndex + |a.entries|)
  }

  lemma FromCommits(n: Node, a: AppendArgs, prev: nat, prevTerm: nat, skip: nat, io: bool)
    requires Valid(n) && WellFormed(a) && prev == a.prevLogIndex + skip && skip <= |a.entries| && n.st.snapIndex <= prev
    requires AppendFrom(n, a, prev, prevTerm, skip, io).1.success
    ensures Commits(n, AppendFrom(n, a, prev, prevTerm, skip, io).0, a)
  {
    hide AppendFrom, Splice, A.Succeeds, Valid, WellFormed;
    A.AppendFromIs(n, a, prev, prevTerm, skip, io);
  }

  /** A success commits whatever the leader has committed and the request reaches, with or
      without entries, and nothing beyond it. */
  lemma AcceptedCommits(n: Node, a: AppendArgs, io: bool)
    requires Valid(n) && WellFormed(a) && OnAppendEntries(n, a, io).1.success
    ensures Commits(n, OnAppendEntries(n, a, io).0, a)
  {
    hide AppendFrom, StoreOk, WellFormed;
    var f := Follow(n, a.term);
    if a.prevLogIndex >= n.st.snapIndex {
      FromCommits(f, a, a.prevLogIndex, a.prevLogTerm, 0, io);
    } else if n.st.snapIndex < a.prevLogIndex + |a.entries| {
      FromCommits(f, a, n.st.snapIndex, n.st.snapTerm, n.st.snapIndex - a.prevLogIndex, io);
    }
  }

  /** A request that follows on, and asks nobody to forget a committed entry, is accepted. */
  lemma ConsistentIsAccepted(n: Node, a: AppendArgs)
    requires Valid(n) && WellFormed(a) && a.term >= n.currentTerm
    requires n.st.snapIndex <= a.prevLogIndex <= LastIndex(n.st) && TermAt(n.st, a.prevLogIndex) == a.prevLogTerm
    requires forall k :: 0 <= k < |a.entries| && a.entries[k].index <= n.commitIndex ==>
      TermAt(n.st, a.entries[k].index) == a.entries[k].term
    ensures OnAppendEntries(n, a, true).1.success
  {
    var f := Follow(n, a.term);
    A.AppendFromIs(f, a, a.prevLogIndex, a.prevLogTerm, 0, true);
    FirstNewAt(f.st, a, 0);
    hide ConfigsAgree, Splice, CommitTo, RunStart;
  }

  /** The store holds entry k of the request. */
  predicate Stores(st: Store, a: AppendArgs, k: nat)
    requires k < |a.entries|
  {
    InLog(st, a.entries[k].index) && TermAt(st, a.entries[k].index) == a.entries[k].term
  }

  lemma FromStores(n: Node, a: AppendArgs, prev: nat, prevTerm: nat, skip: nat, io: bool, k: nat)
    requires Valid(n) && WellFormed(a) && prev == a.prevLogIndex + skip && skip <= |a.entries| && n.st.snapIndex <= prev
    requires AppendFrom(n, a, prev, prevTerm, skip, io).1.success && skip <= k < |a.entries|
    ensures Stores(AppendFrom(n, a, prev, prevTerm, skip, io).0.st, a, k)
  {
    hide AppendFrom, Splice, ConfigsAgree, WellFormed;
    A.AppendFromIs(n, a, prev, prevTerm, skip, io);
    StoredBySuccess(n, a, skip, k);
  }

  /** After a success the follower's log has each of the entries, unless its snapshot covers it. */
  lemma AcceptedStores(n: Node, a: AppendArgs, io: bool, k: nat)
    requires Valid(n) && WellFormed(a) && OnAppendEntries(n, a, io).1.success
    requires k < |a.entries| && a.entries[k].index > n.st.snapIndex
    ensures Stores(OnAppendEntries(n, a, io).0.st, a, k)
  {
    hide AppendFrom, StoreOk, Stores;
    var f := Follow(n, a.term);
    if a.prevLogIndex >= n.st.snapIndex {
      FromStores(f, a, a.prevLogIndex, a.prevLogTerm, 0, io, k);
    } else {
      FromStores(f, a, n.st.snapIndex, n.st.snapTerm, n.st.snapIndex - a.prevLogIndex, io, k);
    }
  }

  lemma FirstNewFacts(s: Store, a: AppendArgs, skip: nat)
    requires LogShape(s) && WellFormed(a) && skip <= |a.entries| && InLog(s, a.prevLogIndex + skip)
    ensures var i := FirstNew(s, a.entries, skip);
      && skip <= i <= |a.entries| && a.prevLogIndex + i <= LastIndex(s)
      && forall k :: skip <= k < i ==> TermAt(s, a.entries[k].index) == a.entries[k].term
  {
    hide FirstNew;
    FirstNewAt(s, a, skip);
  }

  lemma RecomputedLog(s: Store, at: nat, tail: seq<Entry>)
    requires s.snapIndex < at <= LastIndex(s) + 1
    ensures SpliceStore(s, at, tail).log == s.log[..at - s.snapIndex] + tail
    ensures SpliceStore(s, at, tail).snapIndex == s.snapIndex
  {
  }

  lemma StoredBySuccess(n: Node, a: AppendArgs, skip: nat, k: nat)
    requires LogShape(n.st) && WellFormed(a) && skip <= k < |a.entries| && InLog(n.st, a.prevLogIndex + skip)
    ensures Stores(A.Success(n, a, skip).st, a, k)
  {
    hide FirstNew, Tracked, Configs, LogShape, CommitTo, SpliceStore;
    FirstNewFacts(n.st, a, skip);
    var i := FirstNew(n.st, a.entries, skip);
    var p := a.entries[k].index - n.st.snapIndex;
    assert k < i ==> TermAt(n.st, a.entries[k].index) == a.entries[k].term;
    if i < |a.entries| {
      var cut := a.entries[i].index - n.st.snapIndex;
      var st := A.Success(n, a, skip).st;
      RecomputedLog(n.st, a.entries[i].index, a.entries[i..]);
      assert st.log == n.st.log[..cut] + a.entries[i..];
      if k < i {
        assert st.log[p] == n.st.log[p];
      } else {
        assert st.log[p] == a.entries[i..][k - i];
      }
    }
  }

  // ---------- votes ----------

  /** Of two logs, one is up to date for the other; a log is for itself; and the order is transitive. */
  lemma UpToDateIsOrder(t1: nat, i1: nat, t2: nat, i2: nat, t3: nat, i3: nat)
    ensures UpToDate(t1, i1, t2, i2) || UpToDate(t2, i2, t1, i1)
    ensures UpToDate(t1, i1, t1, i1)
    ensures UpToDate(t1, i1, t2, i2) && UpToDate(t2, i2, t3, i3) ==> UpToDate(t1, i1, t3, i3)
  {
  }

  /** A log whose terms do not fall is up to date for each of its prefixes. */
  lemma ExtensionIsUpToDate(log: Log, k: nat)
    requires k <= |log| && forall i, j :: 0 <= i <= j < |log| ==> log[i].term <= log[j].term
    ensures UpToDate(LastTerm(log), |log|, LastTerm(log[..k]), k)
  {
  }

  /** Everything but the log comparison that a vote depends on. */
  predicate MayVote(n: Node, a: VoteArgs, checkQuorum: bool, recent: bool, io: bool) {
    if a.term > n.currentTerm then io && !(checkQuorum && (n.role == Leader || recent))
    else a.term == n.currentTerm && (n.votedFor == Some(a.candidateId) || (n.votedFor == None && io))
  }

  /** A vote is granted exactly when nothing else forbids it and the candidate's
      log is up to date for the voter's. */
  lemma GrantedIff(n: Node, full: Log, a: VoteArgs, cand: Log, checkQuorum: bool, recent: bool, io: bool)
    requires Rep(n.st, full) && !a.preVote && a.lastLogIndex == |cand| && a.lastLogTerm == LastTerm(cand)
    ensures var out := OnRequestVote(n, a, checkQuorum, recent, io);
      && (out.1.voteGranted <==>
            MayVote(n, a, checkQuorum, recent, io) && UpToDate(LastTerm(cand), |cand|, LastTerm(full), |full|))
      && (out.1.voteGranted ==> out.0.votedFor == Some(a.candidateId) && out.0.currentTerm == out.1.term == a.term)
  {
    RepFacts(n.st, full);
  }

  /** A candidate whose log is the voter's, or continues it, gets the vote; both logs may be empty. */
  lemma ContinuingCandidateIsGranted(n: Node, full: Log, a: VoteArgs, cand: Log, checkQuorum: bool, recent: bool)
    requires Rep(n.st, full) && !a.preVote && a.lastLogIndex == |cand| && a.lastLogTerm == LastTerm(cand)
    requires full <= cand && forall i, j :: 0 <= i <= j < |cand| ==> cand[i].term <= cand[j].term
    requires MayVote(n, a, checkQuorum, recent, true)
    ensures OnRequestVote(n, a, checkQuorum, recent, true).1.voteGranted
  {
    assert full == cand[..|full|];
    ExtensionIsUpToDate(cand, |full|);
    GrantedIff(n, full, a, cand, checkQuorum, recent, true);
  }

  /** A pre-vote asks the same of the log, and that the voter hears from no leader; it changes nothing. */
  lemma PreVoteGrantedIff(n: Node, full: Log, a: VoteArgs, cand: Log, checkQuorum: bool, recent: bool, io: bool)
    requires Rep(n.st, full) && a.preVote && a.lastLogIndex == |cand| && a.lastLogTerm == LastTerm(cand)
    ensures var out := OnRequestVote(n, a, checkQuorum, recent, io);
      && out.0 == n
      && (out.1.voteGranted <==>
            a.term > n.currentTerm && n.role != Leader && !recent && UpToDate(LastTerm(cand), |cand|, LastTerm(full), |full|))
  {
    RepFacts(n.st, full);
  }

  // ---------- standing and winning ----------

  /** What becoming leader adds: a NOOP of the own term at the end. */
  predicate NowLeads(n: Node, n2: Node) {
    && n2.role == Leader && n2.currentTerm == n.currentTerm && n2.id == n.id
    && n2.st == AppendStore(n.st, Entry(n.currentTerm, LastIndex(n.st) + 1, Noop)) && n2.commitIndex >= n.commitIndex
    && n2.peers.Keys == n.peers.Keys && forall p :: p in n2.peers ==> n2.peers[p].nextIndex == LastIndex(n.st) + 1
  }

  lemma BecomesLeader(n: Node)
    requires Valid(n) && n.id in Ids(n.st.config)
    ensures NowLeads(n, BecomeLeader(n, true))
  {
    var m := n.(role := Leader, ballot := n.ballot.(prevoting := false), peers := ResetPeers(n));
    AppendLocalValid(m, Noop);
    NewCommitRange(AppendLocal(m, Noop), LastIndex(n.st) + 1);
    hide NewCommit, ConfigsAgree, Tracked;
  }

  /** A vote counts, and with the quorum's last vote the candidate leads. */
  lemma QuorumLeads(n: Node, p: NodeId, a: VoteArgs, r: VoteReply)
    requires Valid(n) && n.id in Ids(n.st.config) && n.role == Candidate && n.currentTerm == a.term
    requires r.voteGranted && r.term <= n.currentTerm
    ensures var n2 := OnVoteReply(n, p, a, r, true);
      if Quorum(n.st.config, n.ballot.votes + {p}) then NowLeads(n, n2)
      else n2 == n.(ballot := n.ballot.(votes := n.ballot.votes + {p}))
  {
    BecomesLeader(CountVote(n, p));
    hide BecomeLeader, Quorum, Valid;
  }

  /** Without pre-vote a member that is not leader stands for the next term, and leads it if it is a quorum alone. */
  lemma TimeoutStands(n: Node)
    requires Valid(n) && n.id in Ids(n.st.config) && n.role != Leader
    ensures var n2 := OnTimeout(n, false, true, true);
      if Quorum(n.st.config, {n.id}) then NowLeads(Stand(n), n2) else n2 == Stand(n)
  {
    BecomesLeader(Stand(n));
    hide BecomeLeader, Quorum, Valid;
  }

  /** With pre-vote it asks first, and a quorum of answers makes it stand. */
  lemma PreQuorumStands(n: Node, p: NodeId, round: nat, r: VoteReply)
    requires Valid(n) && n.role == Follower && n.ballot.prevoting && n.ballot.prevoteRound == round
    requires r.voteGranted && Quorum(n.st.config, n.ballot.prevotes + {p}) && !Quorum(n.st.config, {n.id})
    ensures var n2 := OnPreVoteReply(n, p, round, r, true, true);
      n2.role == Candidate && n2.currentTerm == n.currentTerm + 1 && n2.votedFor == Some(n.id) && n2.ballot.votes == {n.id}
  {
  }

  /** A pre-vote changes neither term nor vote until a quorum has answered in its round; then the node stands. */
  lemma PreVoteThenStand(n: Node, p: NodeId, round: nat, r: VoteReply)
    requires Valid(n) && n.id in Ids(n.st.config) && n.role == Follower && |n.st.config| > 1 && r.voteGranted
    requires !Quorum(n.st.config, {n.id}) && Quorum(n.st.config, {n.id, p})
    ensures var m := OnTimeout(n, true, true, true);
      && m == n.(ballot := m.ballot) && CommitInLog(m)
      && var n2 := OnPreVoteReply(m, p, round, r, true, true);
      if round == m.ballot.prevoteRound
      then n2.role == Candidate && n2.currentTerm == n.currentTerm + 1 && n2.votedFor == Some(n.id) && n2.ballot.votes == {n.id}
      else n2 == m
  {
    hide Quorum, ConfigsAgree, LogShape;
    assert {n.id} + {p} == {n.id, p};
  }

  // ---------- what a leader makes of replies ----------

  /** From index k on the log holds entries of the current term only. */
  predicate OwnFrom(n: Node, k: int) {
    && n.st.snapIndex <= k <= LastIndex(n.st)
    && forall i :: k <= i <= LastIndex(n.st) ==> TermAt(n.st, i) == n.currentTerm
  }

  /** Whatever a quorum holds of the entries of the current term is committed. */
  ghost predicate CommitsAll(n: Node) {
    forall k {:trigger OwnFrom(n, k)} :: OwnFrom(n, k) && Quorum(n.st.config, Holders(n, k)) ==> k <= n.commitIndex
  }

  lemma AdvanceCommitsAll(n: Node)
    requires CommitInLog(n) && n.role == Leader
    ensures CommitsAll(AdvanceCommit(n)) && AdvanceCommit(n).commitIndex >= n.commitIndex
    ensures n.id in Ids(n.st.config) ==> AdvanceCommit(n) == n.(commitIndex := AdvanceCommit(n).commitIndex)
  {
    NewCommitRange(n, LastIndex(n.st));
    var n2 := AdvanceCommit(n);
    forall k | OwnFrom(n2, k) && Quorum(n2.st.config, Holders(n2, k)) ensures k <= n2.commitIndex {
      assert Holders(n2, k) == Holders(n, k);
      if k > n.commitIndex { NewCommitIsMax(n, LastIndex(n.st), k); }
    }
  }

  /** A leader outside the membership steps down as soon as that membership is committed, not before. */
  lemma LeavesWhenCommitted(n: Node)
    requires CommitInLog(n) && n.role == Leader && n.id !in Ids(n.st.config)
    ensures var n2 := AdvanceCommit(n); n2.role == Leader <==> n2.commitIndex < n2.st.configIndex
  {
  }

  /** A successful reply: the peer holds what was sent, is probed right after it, and the quorums are counted again. */
  lemma SuccessHeard(n: Node, p: NodeId, round: nat, a: AppendArgs, r: AppendReply)
    requires CommitInLog(n) && n.role == Leader && n.currentTerm == a.term && p in n.peers
    requires r.success && r.term <= n.currentTerm
    ensures var n2, q := OnAppendReply(n, p, round, a, r), n.peers[p];
      && p in n2.peers && n2.peers[p].matchIndex == Max(q.matchIndex, a.prevLogIndex + |a.entries|)
      && n2.peers[p].nextIndex == n2.peers[p].matchIndex + 1 && n2.peers[p].ackRound >= Max(round, q.ackRound)
      && CommitsAll(n2) && n2.commitIndex >= n.commitIndex
      && (n.id in Ids(n.st.config) ==> n2 == n.(commitIndex := n2.commitIndex, peers := n.peers[p := n2.peers[p]]))
  {
    var acked := AckedPeer(n.peers[p], round);
    AdvanceCommitsAll(n.(peers := n.peers[p := Matched(acked, a.prevLogIndex + |a.entries|)]));
    hide AdvanceCommit, CommitsAll;
  }

  /** The reply to the last chunk: the peer holds everything up to the snapshot. */
  lemma LastChunkHeard(n: Node, p: NodeId, round: nat, a: SnapshotArgs, r: SnapshotReply)
    requires CommitInLog(n) && n.role == Leader && n.currentTerm == a.term && p in n.peers
    requires r.success && a.done && r.term <= n.currentTerm && n.peers[p].snapSending == a.lastIncludedIndex
    ensures var n2 := OnSnapshotReply(n, p, round, a, r);
      && p in n2.peers && n2.peers[p].matchIndex >= Max(n.peers[p].matchIndex, a.lastIncludedIndex)
      && n2.peers[p].ackRound >= Max(round, n.peers[p].ackRound)
      && n2.peers[p].nextIndex == n2.peers[p].matchIndex + 1 && CommitsAll(n2) && n2.commitIndex >= n.commitIndex
      && (n.id in Ids(n.st.config) ==> n2 == n.(commitIndex := n2.commitIndex, peers := n.peers[p := n2.peers[p]]))
  {
    var q := AckedPeer(n.peers[p], round).(snapOffset := r.nextOffset);
    AdvanceCommitsAll(n.(peers := n.peers[p := Matched(q, a.lastIncludedIndex).(snapSending := 0)]));
    hide AdvanceCommit, CommitsAll;
  }

  /** An earlier chunk, or one out of step: the transfer goes on where the receiver says. */
  lemma ChunkHeard(n: Node, p: NodeId, round: nat, a: SnapshotArgs, r: SnapshotReply)
    requires CommitInLog(n) && n.role == Leader && n.currentTerm == a.term && p in n.peers
    requires !(r.success && a.done) && r.term <= n.currentTerm && n.peers[p].snapSending == a.lastIncludedIndex
    ensures var n2 := OnSnapshotReply(n, p, round, a, r);
      p in n2.peers && n2 == n.(peers := n.peers[p := n2.peers[p]])
      && n2.peers[p] == AckedPeer(n.peers[p], round).(snapOffset := r.nextOffset)
  {
  }

  // ---------- a whole transfer ----------

  /** The receiver and its last answer after taking the rest of n's snapshot from `off` on, chunk by chunk. */
  function Fed(n: Node, f: Node, off: nat, size: nat): (Node, SnapshotReply)
    requires n.st.snapData.Some? && off <= |n.st.snapData.value| && size > 0
    decreases |n.st.snapData.value| - off
  {
    var a := Chunk(n, off, size);
    var out := OnInstallSnapshot(f, a, true);
    if a.done then out else Fed(n, out.0, off + |a.data|, size)
  }

  /** f has taken the first `off` bytes of n's snapshot. */
  predicate HasTaken(n: Node, f: Node, off: nat)
    requires n.st.snapData.Some? && off <= |n.st.snapData.value|
  {
    off > 0 ==>
      && f.currentTerm == n.currentTerm && f.role == Follower
      && f.recv == Recv(n.st.snapData.value[..off], n.st.snapIndex, n.st.snapTerm)
  }

  /** One chunk in order: the buffer grows by it, and the last one completes the snapshot. */
  lemma ChunkTaken(n: Node, f: Node, off: nat, size: nat)
    requires n.st.snapData.Some? && off <= |n.st.snapData.value| && size > 0
    requires f.currentTerm <= n.currentTerm && HasTaken(n, f, off)
    ensures var a := Chunk(n, off, size);
      var (f2, r) := OnInstallSnapshot(f, a, true);
      && r.success && r.term == n.currentTerm && r.nextOffset == off + |a.data|
      && (!a.done ==>
            && |a.data| > 0 && HasTaken(n, f2, off + |a.data|)
            && f2.st == f.st && f2.lastApplied == f.lastApplied && f2.currentTerm == n.currentTerm)
      && (a.done && f.st.snapIndex < n.st.snapIndex && f.lastApplied < n.st.snapIndex ==>
            f2 == Install(Follow(f, n.currentTerm).(recv := Recv([], 0, 0)), a, n.st.snapData.value))
  {
    var a := Chunk(n, off, size);
    var data := n.st.snapData.value;
    var g := Follow(f, n.currentTerm);
    assert off > 0 ==> g.recv == f.recv;
    assert data[..off] + a.data == data[..off + |a.data|];
    assert off == 0 ==> a.data == data[..off + |a.data|];
    assert a.done ==> data[..off + |a.data|] == data;
    hide Install;
  }

  /** What a node that installed n's snapshot holds. */
  predicate HasSnapshot(n: Node, f: Node) {
    && f.st.snapIndex == n.st.snapIndex && f.st.snapTerm == n.st.snapTerm && f.st.snapConfig == n.st.snapConfig
    && f.st.snapData == n.st.snapData && f.commitIndex >= n.st.snapIndex
  }

  /** For any chunk size, taking a leader's chunks in order ends with the snapshot
      installed and a successful answer that reports all of it. */
  lemma {:induction false} TransferInstalls(n: Node, f: Node, off: nat, size: nat)
    requires n.st.snapData.Some? && off <= |n.st.snapData.value| && size > 0
    requires f.currentTerm <= n.currentTerm && HasTaken(n, f, off)
    requires f.st.snapIndex < n.st.snapIndex && f.lastApplied < n.st.snapIndex
    ensures var (f2, r) := Fed(n, f, off, size);
      HasSnapshot(n, f2) && f2.currentTerm == n.currentTerm
      && r.success && r.term == n.currentTerm && r.nextOffset == |n.st.snapData.value|
    decreases |n.st.snapData.value| - off
  {
    ChunkTaken(n, f, off, size);
    var a := Chunk(n, off, size);
    if a.done {
      InstalledIs(n, Follow(f, n.currentTerm).(recv := Recv([], 0, 0)), a);
    } else {
      hide OnInstallSnapshot, HasSnapshot;
      TransferInstalls(n, OnInstallSnapshot(f, a, true).0, off + |a.data|, size);
    }
  }

  lemma InstalledIs(n: Node, f: Node, a: SnapshotArgs)
    requires n.st.snapData.Some? && f.st.snapIndex < n.st.snapIndex && f.currentTerm == n.currentTerm
    requires a.lastIncludedIndex == n.st.snapIndex && a.lastIncludedTerm == n.st.snapTerm && a.config == n.st.snapConfig
    ensures var f2 := Install(f, a, n.st.snapData.value); HasSnapshot(n, f2) && f2.currentTerm == n.currentTerm
  {
  }

  // ---------- compaction ----------

  /** Compacting moves the snapshot to the index and keeps its bytes. */
  lemma CompactedIs(n: Node, idx: nat, term: nat, data: Bytes)
    requires n.st.snapIndex < idx <= LastIndex(n.st)
    ensures var n2 := Compact(n, idx, term, data);
      n2.st.snapIndex == idx && n2.st.snapTerm == term && n2.st.snapData == Some(data) && LastIndex(n2.st) == LastIndex(n.st)
      && n2 == n.(st := n2.st)
  {
  }

  // ---------- membership changes ----------

  /** n2's log is n's and one more entry, the membership nc, which is in force at once. */
  predicate NowIn(n: Node, n2: Node, nc: Membership) {
    && n2.st.log == n.st.log + [Entry(n.currentTerm, LastIndex(n.st) + 1, Config(nc))] && n2.st.snapIndex == n.st.snapIndex
    && n2.st.config == nc && n2.st.configIndex == LastIndex(n2.st)
    && n2.commitIndex >= n.commitIndex && n2.currentTerm == n.currentTerm
  }

  lemma ChangedIs(n: Node, nc: Membership)
    requires Valid(n)
    ensures NowIn(n, ChangeConfig(n, nc), nc) && ChangeConfig(n, nc).learners == n.learners
  {
    AppendLocalValid(n, Config(nc));
    NewCommitRange(AppendLocal(n, Config(nc)), LastIndex(n.st) + 1);
    hide NewCommit, ConfigsAgree, Tracked, LogShape;
  }

  /** Adding a server lists it once more, at the end; removing one drops it and nobody else. */
  lemma MembershipChanges(n: Node, m: Member, id: NodeId)
    requires Valid(n)
    ensures var n2 := FinishAdd(n, m);
      NowIn(n, n2, n.st.config + [m]) && m.id !in n2.learners && Ids(n2.st.config) == Ids(n.st.config) + {m.id}
    ensures var n2 := RemoveServer(n, id);
      NowIn(n, n2, n2.st.config) && id !in n2.learners && Ids(n2.st.config) == Ids(n.st.config) - {id}
  {
    ChangedIs(n, n.st.config + [m]);
    ChangedIs(n.(learners := n.learners - {id}), Without(n.st.config, id));
    IdsWithout(n.st.config, id);
    hide ChangeConfig, Without;
    IdsOfBoth(n.st.config, m);
  }

  /** A leader that removes itself leads until that is committed. */
  lemma SelfRemoval(n: Node)
    requires Valid(n) && n.role == Leader
    ensures var n2 := RemoveServer(n, n.id); n2.role == Leader <==> n2.commitIndex < LastIndex(n2.st)
  {
    MembershipChanges(n, Member(n.id, ""), n.id);
    var m := n.(learners := n.learners - {n.id});
    var nc := Without(n.st.config, n.id);
    AppendLocalValid(m, Config(nc));
    hide AdvanceCommit, Without, Tracked, Configs, LogShape, NowIn;
    LeavesWhenCommitted(AppendLocal(m, Config(nc)));
  }

  /** A new server is tracked before it is a member, and abandoning it leaves the rest as it is. */
  lemma LearnerTracked(n: Node, m: Member)
    requires Valid(n) && m.id != n.id
    ensures var n2 := BeginAdd(n, m);
      && m.id in n2.peers && m.id in n2.learners && n2 == n.(learners := n2.learners, peers := n2.peers)
      && (m.id in n.peers ==> n2.peers[m.id] == n.peers[m.id])
      && m.id !in AbandonLearner(n2, m.id).learners && AbandonLearner(n2, m.id).st == n.st
  {
    hide ConfigsAgree, LogShape;
  }

  lemma {:induction false} IdsWithout(c: Membership, id: NodeId)
    ensures Ids(Without(c, id)) == Ids(c) - {id}
  {
    if c != [] {
      var init, last := c[..|c| - 1], c[|c| - 1];
      IdsWithout(init, id);
      assert c == init + [last];
      var w := Without(init, id);
      assert Without(c, id) == if last.id != id then w + [last] else w;
      IdsOfBoth(init, last);
      IdsOfBoth(w, last);
    }
  }

  lemma IdsOfBoth(c: Membership, m: Member)
    ensures Ids(c + [m]) == Ids(c) + {m.id}
  {
    forall x | x in Ids(c) ensures x in Ids(c + [m]) {
      var k :| 0 <= k < |c| && c[k].id == x;
      assert (c + [m])[k].id == x;
    }
    assert (c + [m])[|c|].id == m.id;
  }
}
