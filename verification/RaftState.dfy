/** One Raft node as a value, and what each handler or locked section of
    consensus/raft.hpp makes of it. `log[0]` is the sentinel for `snapIndex`.

    `io` flags say whether the write a step depends on reaches the disk; `recent`
    says whether the node heard from a leader within the election timeout. */
module RaftState {
  import opened Wrappers
  import opened RaftTypes

  datatype Role = Follower | Candidate | Leader

  datatype Peer = Peer(nextIndex: nat, matchIndex: nat, ackRound: nat, snapSending: nat, snapOffset: nat)

  /** The log array, the snapshot it starts from, and the configuration they imply. */
  datatype Store = Store(
    log: seq<Entry>,
    snapIndex: nat, snapTerm: nat, snapConfig: Membership, snapData: Option<Bytes>,
    logConfigs: seq<(nat, Membership)>, config: Membership, configIndex: nat)

  datatype Ballot = Ballot(votes: set<NodeId>, prevotes: set<NodeId>, prevoting: bool, prevoteRound: nat)

  /** A snapshot being received. */
  datatype Recv = Recv(buf: Bytes, index: nat, term: nat)

  datatype Node = Node(
    id: NodeId,
    currentTerm: nat, votedFor: Option<NodeId>, role: Role,
    st: Store,
    commitIndex: nat, lastApplied: nat,
    ballot: Ballot, hbRound: nat, recv: Recv,
    learners: map<NodeId, Member>, peers: map<NodeId, Peer>)

  datatype AppendArgs = AppendArgs(
    term: nat, leaderId: NodeId, prevLogIndex: nat, prevLogTerm: nat, entries: seq<Entry>, leaderCommit: nat)
  datatype AppendReply = AppendReply(term: nat, success: bool, conflictIndex: nat, conflictTerm: nat)
  datatype VoteArgs = VoteArgs(term: nat, candidateId: NodeId, lastLogIndex: nat, lastLogTerm: nat, preVote: bool)
  datatype VoteReply = VoteReply(term: nat, voteGranted: bool)
  datatype SnapshotArgs = SnapshotArgs(
    term: nat, leaderId: NodeId, lastIncludedIndex: nat, lastIncludedTerm: nat, config: Membership,
    offset: nat, data: Bytes, done: bool)
  datatype SnapshotReply = SnapshotReply(term: nat, success: bool, nextOffset: nat)

  // ---------- the store ----------

  function LastIndex(s: Store): int {
    s.snapIndex + |s.log| - 1
  }

  predicate InLog(s: Store, i: int) {
    s.snapIndex <= i <= LastIndex(s)
  }

  function TermAt(s: Store, i: int): nat
    requires InLog(s, i)
  {
    s.log[i - s.snapIndex].term
  }

  /** The CONFIG entries of a piece of log, with their indices. */
  function Configs(entries: seq<Entry>): seq<(nat, Membership)> {
    if entries == [] then []
    else
      var last := entries[|entries| - 1];
      Configs(entries[..|entries| - 1]) + if last.cmd.Config? then [(last.index, last.cmd.members)] else []
  }

  /** The log array: consecutive indices from the sentinel on, which carries
      the snapshot's index and term. */
  predicate LogShape(s: Store) {
    && s.log != [] && s.log[0] == Entry(s.snapTerm, s.snapIndex, Noop)
    && forall k :: 0 <= k < |s.log| ==> s.log[k].index == s.snapIndex + k
  }

  /** logConfigs lists the CONFIG entries of the log, and the newest one, or
      else the snapshot's configuration, is in force. Compaction may leave
      configIndex below the snapshot. */
  predicate ConfigsAgree(s: Store) {
    && s.log != [] && s.logConfigs == Configs(s.log[1..])
    && (if s.logConfigs == [] then s.config == s.snapConfig && s.configIndex <= s.snapIndex
        else (s.configIndex, s.config) == s.logConfigs[|s.logConfigs| - 1])
  }

  predicate StoreOk(s: Store) {
    LogShape(s) && ConfigsAgree(s)
  }

  function RecomputeStore(s: Store): Store {
    if s.logConfigs == [] then s.(config := s.snapConfig, configIndex := s.snapIndex)
    else
      var last := s.logConfigs[|s.logConfigs| - 1];
      s.(config := last.1, configIndex := last.0)
  }

  function AppendStore(s: Store, e: Entry): Store {
    var t := s.(log := s.log + [e]);
    if e.cmd.Config? then RecomputeStore(t.(logConfigs := t.logConfigs + [(e.index, e.cmd.members)])) else t
  }

  /** Replaces the log from `at` on, or appends when `at` is just past the end. */
  function SpliceStore(s: Store, at: nat, tail: seq<Entry>): Store
    requires s.snapIndex < at <= LastIndex(s) + 1
  {
    var keep := s.log[..at - s.snapIndex];
    RecomputeStore(s.(log := keep + tail, logConfigs := Configs(keep[1..]) + Configs(tail)))
  }

  predicate KeepsSuffix(s: Store, idx: nat, term: nat) {
    InLog(s, idx) && TermAt(s, idx) == term
  }

  /** A complete received snapshot replaces the log up to its index. */
  function InstallStore(s: Store, a: SnapshotArgs, data: Bytes): Store
    requires a.lastIncludedIndex > s.snapIndex
  {
    var idx := a.lastIncludedIndex;
    var suffix := if KeepsSuffix(s, idx, a.lastIncludedTerm) then s.log[idx - s.snapIndex + 1..] else [];
    RecomputeStore(Store([Entry(a.lastIncludedTerm, idx, Noop)] + suffix, idx, a.lastIncludedTerm, a.config,
                         Some(data), Configs(suffix), s.config, s.configIndex))
  }

  /** The configuration in force at index idx, from the snapshot and the entries up to idx. */
  function ConfigAt(snapConfig: Membership, configs: seq<(nat, Membership)>, idx: nat): Membership {
    if configs == [] then snapConfig
    else if configs[|configs| - 1].0 <= idx then configs[|configs| - 1].1
    else ConfigAt(snapConfig, configs[..|configs| - 1], idx)
  }

  function CompactStore(s: Store, idx: nat, term: nat, data: Bytes): Store
    requires s.snapIndex < idx <= LastIndex(s)
  {
    var suffix := s.log[idx - s.snapIndex + 1..];
    Store([Entry(term, idx, Noop)] + suffix, idx, term, ConfigAt(s.snapConfig, s.logConfigs, idx), Some(data),
          Configs(suffix), s.config, s.configIndex)
  }

  // ---------- the node ----------

  /** What every handler keeps. */
  predicate Valid(n: Node) {
    && StoreOk(n.st)
    && n.st.snapIndex <= n.commitIndex <= LastIndex(n.st)
    && n.lastApplied <= n.commitIndex
    && (forall p :: p in n.peers ==> n.peers[p].nextIndex > 0)
  }

  function StepDown(n: Node, term: nat): Node {
    var m := if term > n.currentTerm then n.(currentTerm := term, votedFor := None) else n;
    m.(role := Follower, ballot := m.ballot.(prevoting := false))
  }

  predicate IsLeast(p: NodeId, ids: set<NodeId>) {
    p in ids && forall q :: q in ids ==> p <= q
  }

  lemma {:induction false} LeastExists(ids: set<NodeId>)
    requires ids != {}
    ensures exists p :: IsLeast(p, ids)
  {
    var x :| x in ids;
    if ids != {x} {
      LeastExists(ids - {x});
      var y :| IsLeast(y, ids - {x});
      var p := if x < y then x else y;
      forall q | q in ids ensures p <= q {
        assert q == x || q in ids - {x};
      }
      assert IsLeast(p, ids);
    } else {
      assert IsLeast(x, ids);
    }
  }

  /** The source keeps peers and learners in ordered maps and walks them from the smallest id. */
  function Least(ids: set<NodeId>): (p: NodeId)
    requires ids != {}
    ensures p in ids
  {
    LeastExists(ids);
    var p :| p in ids && IsLeast(p, ids);
    p
  }

  /** A peer starts in the middle of nothing: probed at `next`, nothing matched. */
  function NewPeer(next: nat): Peer {
    Peer(next, 0, 0, 0, 0)
  }

  /** Everybody in `want` is tracked; who was already keeps its progress. */
  function Tracked(peers: map<NodeId, Peer>, want: set<NodeId>, next: nat): (r: map<NodeId, Peer>)
    ensures forall p :: p in r <==> p in peers || p in want
    ensures forall p :: p in r ==> r[p] == if p in peers then peers[p] else NewPeer(next)
    decreases |want|
  {
    if want == {} then peers
    else
      var p := Least(want);
      var r := Tracked(peers, want - {p}, next);
      if p in r then r else r[p := NewPeer(next)]
  }

  /** Every peer in `keys` is probed anew at `next`. */
  function Probed(peers: map<NodeId, Peer>, keys: set<NodeId>, next: nat): (r: map<NodeId, Peer>)
    requires keys <= peers.Keys
    ensures r.Keys == keys
    ensures forall p :: p in keys ==> r[p] == peers[p].(nextIndex := next, matchIndex := 0, snapSending := 0)
    decreases |keys|
  {
    if keys == {} then map[]
    else
      var p := Least(keys);
      Probed(peers, keys - {p}, next)[p := peers[p].(nextIndex := next, matchIndex := 0, snapSending := 0)]
  }

  /** Peers for every current member and learner; those already known keep their progress. */
  function Reconcile(n: Node): Node
    requires n.st.log != []
  {
    n.(peers := Tracked(n.peers, Ids(n.st.config) + n.learners.Keys - {n.id}, LastIndex(n.st) + 1))
  }

  function AppendLocal(n: Node, cmd: Command): Node
    requires n.st.log != []
  {
    var m := n.(st := AppendStore(n.st, Entry(n.currentTerm, LastIndex(n.st) + 1, cmd)));
    if cmd.Config? then Reconcile(m) else m
  }

  /** The members known to hold everything up to index k. */
  function Holders(n: Node, k: nat): set<NodeId> {
    {n.id} + set p | p in n.peers && n.peers[p].matchIndex >= k
  }

  predicate CommitInLog(n: Node) {
    LogShape(n.st) && n.st.snapIndex <= n.commitIndex <= LastIndex(n.st)
  }

  /** The highest entry of the current term that a majority holds, searched from index k down. */
  function NewCommit(n: Node, k: int): nat
    requires CommitInLog(n) && n.commitIndex <= k <= LastIndex(n.st)
    decreases k
  {
    if k <= n.commitIndex || TermAt(n.st, k) != n.currentTerm then n.commitIndex
    else if Quorum(n.st.config, Holders(n, k)) then k
    else NewCommit(n, k - 1)
  }

  function AdvanceCommit(n: Node): Node
    requires CommitInLog(n)
  {
    if n.role != Leader then n
    else
      var commit := NewCommit(n, LastIndex(n.st));
      n.(commitIndex := commit,
         role := if n.st.configIndex <= commit && n.id !in Ids(n.st.config) then Follower else Leader)
  }

  function ResetPeers(n: Node): map<NodeId, Peer>
    requires n.st.log != []
  {
    Probed(n.peers, n.peers.Keys, LastIndex(n.st) + 1)
  }

  function BecomeLeader(n: Node, io: bool): Node
    requires CommitInLog(n)
  {
    var m := n.(role := Leader, ballot := n.ballot.(prevoting := false), peers := ResetPeers(n));
    if io then AdvanceCommit(AppendLocal(m, Noop)) else m.(role := Follower)
  }

  function Stand(n: Node): Node {
    n.(role := Candidate, currentTerm := n.currentTerm + 1, votedFor := Some(n.id),
       ballot := n.ballot.(votes := {n.id}, prevoting := false))
  }

  function StartElection(n: Node, ioMeta: bool, ioNoop: bool): Node
    requires CommitInLog(n)
  {
    if !ioMeta then n
    else if Quorum(n.st.config, {n.id}) then BecomeLeader(Stand(n), ioNoop)
    else Stand(n)
  }

  function StartPreVote(n: Node): Node {
    n.(ballot := n.ballot.(prevoting := true, prevoteRound := n.ballot.prevoteRound + 1, prevotes := {n.id}))
  }

  /** The election timer fires. */
  function OnTimeout(n: Node, preVote: bool, ioMeta: bool, ioNoop: bool): Node
    requires CommitInLog(n)
  {
    if n.role == Leader || n.id !in Ids(n.st.config) then n
    else if preVote && |n.st.config| > 1 && n.role == Follower then StartPreVote(n)
    else StartElection(n, ioMeta, ioNoop)
  }

  // ---------- AppendEntries, follower side ----------

  predicate WellFormed(a: AppendArgs) {
    forall k :: 0 <= k < |a.entries| ==> a.entries[k].index == a.prevLogIndex + 1 + k
  }

  /** First index of the run of equal terms that ends at i (within the log array). */
  function RunStart(s: Store, i: nat): nat
    requires InLog(s, i)
    decreases i
  {
    if i > s.snapIndex + 1 && TermAt(s, i - 1) == TermAt(s, i) then RunStart(s, i - 1) else i
  }

  /** First of the entries from position i on that is new or conflicts. */
  function FirstNew(s: Store, entries: seq<Entry>, i: nat): nat
    requires i <= |entries|
    requires forall k :: i <= k < |entries| ==> s.snapIndex <= entries[k].index
    decreases |entries| - i
  {
    if i == |entries| || entries[i].index > LastIndex(s) || TermAt(s, entries[i].index) != entries[i].term then i
    else FirstNew(s, entries, i + 1)
  }

  lemma {:induction false} FirstNewAt(s: Store, a: AppendArgs, skip: nat)
    requires LogShape(s) && WellFormed(a) && skip <= |a.entries| && InLog(s, a.prevLogIndex + skip)
    ensures var i := FirstNew(s, a.entries, skip);
      && skip <= i <= |a.entries| && a.prevLogIndex + i <= LastIndex(s)
      && (forall k :: skip <= k < i ==> TermAt(s, a.entries[k].index) == a.entries[k].term)
      && (i < |a.entries| && a.entries[i].index <= LastIndex(s) ==>
            TermAt(s, a.entries[i].index) != a.entries[i].term)
    decreases |a.entries| - skip
  {
    if skip < |a.entries| && a.entries[skip].index <= LastIndex(s)
       && TermAt(s, a.entries[skip].index) == a.entries[skip].term {
      FirstNewAt(s, a, skip + 1);
    }
  }

  /** The follower's commit index after hearing leaderCommit with entries up to lastNew. */
  function CommitTo(commit: nat, leaderCommit: nat, lastNew: nat): nat {
    var c := if leaderCommit < lastNew then leaderCommit else lastNew;
    if leaderCommit > commit && c > commit then c else commit
  }

  function Fail(n: Node, index: nat, term: nat): (Node, AppendReply) {
    (n, AppendReply(n.currentTerm, false, index, term))
  }

  function Splice(n: Node, at: nat, tail: seq<Entry>): Node
    requires LogShape(n.st) && n.st.snapIndex < at <= LastIndex(n.st) + 1
  {
    Reconcile(n.(st := SpliceStore(n.st, at, tail)))
  }

  /** The part of the handler after the sender's term has been accepted;
      prev and prevTerm are adjusted to the snapshot and the first skip entries dropped. */
  function AppendFrom(n: Node, a: AppendArgs, prev: nat, prevTerm: nat, skip: nat, io: bool): (Node, AppendReply)
    requires Valid(n) && WellFormed(a) && prev == a.prevLogIndex + skip && skip <= |a.entries| && n.st.snapIndex <= prev
  {
    if prev > LastIndex(n.st) then Fail(n, LastIndex(n.st) + 1, 0)
    else if TermAt(n.st, prev) != prevTerm then Fail(n, RunStart(n.st, prev), TermAt(n.st, prev))
    else
      var i := FirstNew(n.st, a.entries, skip);
      if i < |a.entries| && a.entries[i].index <= n.commitIndex then Fail(n, 0, 0)
      else if i < |a.entries| && !io then Fail(n, a.prevLogIndex + 1, 0)
      else
        FirstNewAt(n.st, a, skip);
        var m := if i < |a.entries| then Splice(n, a.entries[i].index, a.entries[i..]) else n;
        (m.(commitIndex := CommitTo(n.commitIndex, a.leaderCommit, a.prevLogIndex + |a.entries|)),
         AppendReply(n.currentTerm, true, 0, 0))
  }

  /** Any message of a current leader makes the receiver its follower. */
  function Follow(n: Node, term: nat): Node {
    if term > n.currentTerm || n.role != Follower then StepDown(n, term)
    else n.(ballot := n.ballot.(prevoting := false))
  }

  /** Entries at or below the snapshot are skipped, and the snapshot stands in for the one before the rest. */
  function AppendFollowing(n: Node, a: AppendArgs, io: bool): (Node, AppendReply)
    requires Valid(n) && WellFormed(a)
  {
    if a.prevLogIndex >= n.st.snapIndex then AppendFrom(n, a, a.prevLogIndex, a.prevLogTerm, 0, io)
    else if a.prevLogIndex + |a.entries| <= n.st.snapIndex then (n, AppendReply(n.currentTerm, true, 0, 0))
    else AppendFrom(n, a, n.st.snapIndex, n.st.snapTerm, n.st.snapIndex - a.prevLogIndex, io)
  }

  function OnAppendEntries(n: Node, a: AppendArgs, io: bool): (Node, AppendReply)
    requires Valid(n) && WellFormed(a)
  {
    if a.term < n.currentTerm then Fail(n, 0, 0) else AppendFollowing(Follow(n, a.term), a, io)
  }

  // ---------- RequestVote ----------

  predicate CandidateUpToDate(s: Store, a: VoteArgs)
    requires s.log != []
  {
    UpToDate(a.lastLogTerm, a.lastLogIndex, TermAt(s, LastIndex(s)), LastIndex(s))
  }

  predicate Grants(n: Node, a: VoteArgs, io: bool)
    requires n.st.log != []
  {
    CandidateUpToDate(n.st, a) && (n.votedFor == Some(a.candidateId) || (n.votedFor == None && io))
  }

  function OnRequestVote(n: Node, a: VoteArgs, checkQuorum: bool, recent: bool, io: bool): (Node, VoteReply)
    requires n.st.log != []
  {
    var recentLeader := n.role == Leader || recent;
    if a.preVote then (n, VoteReply(n.currentTerm, a.term > n.currentTerm && CandidateUpToDate(n.st, a) && !recentLeader))
    else if a.term < n.currentTerm || (a.term > n.currentTerm && checkQuorum && recentLeader) then
      (n, VoteReply(n.currentTerm, false))
    else
      var m := if a.term > n.currentTerm then StepDown(n, a.term) else n;
      if Grants(m, a, io) then (m.(votedFor := Some(a.candidateId)), VoteReply(m.currentTerm, true))
      else (m, VoteReply(m.currentTerm, false))
  }

  // ---------- InstallSnapshot ----------

  function Install(n: Node, a: SnapshotArgs, data: Bytes): Node
    requires a.lastIncludedIndex > n.st.snapIndex
  {
    var m := Reconcile(n.(st := InstallStore(n.st, a, data)));
    m.(commitIndex := Max(n.commitIndex, a.lastIncludedIndex))
  }

  predicate SameTransfer(r: Recv, a: SnapshotArgs) {
    r.index == a.lastIncludedIndex && r.term == a.lastIncludedTerm
  }

  /** The chunk does not continue the transfer in progress. */
  predicate OutOfStep(r: Recv, a: SnapshotArgs) {
    a.offset != 0 && (!SameTransfer(r, a) || a.offset != |r.buf|)
  }

  function Received(r: Recv, a: SnapshotArgs): Recv {
    Recv(if a.offset == 0 then a.data else r.buf + a.data, a.lastIncludedIndex, a.lastIncludedTerm)
  }

  /** The part of the handler after the sender's term has been accepted. */
  function SnapshotFollowing(n: Node, a: SnapshotArgs, io: bool): (Node, SnapshotReply) {
    if OutOfStep(n.recv, a) then
      (n, SnapshotReply(n.currentTerm, false, if SameTransfer(n.recv, a) then |n.recv.buf| else 0))
    else
      var r := Received(n.recv, a);
      if !a.done then (n.(recv := r), SnapshotReply(n.currentTerm, true, |r.buf|))
      else if a.lastIncludedIndex <= n.st.snapIndex || a.lastIncludedIndex <= n.lastApplied then
        (n.(recv := r.(buf := [])), SnapshotReply(n.currentTerm, true, |r.buf|))
      else if !io then (n.(recv := Recv([], 0, 0)), SnapshotReply(n.currentTerm, false, 0))
      else (Install(n.(recv := Recv([], 0, 0)), a, r.buf), SnapshotReply(n.currentTerm, true, |r.buf|))
  }

  function OnInstallSnapshot(n: Node, a: SnapshotArgs, io: bool): (Node, SnapshotReply) {
    if a.term < n.currentTerm then (n, SnapshotReply(n.currentTerm, false, 0))
    else SnapshotFollowing(Follow(n, a.term), a, io)
  }

  // ---------- the leader's replicator ----------

  predicate CanAppend(n: Node, p: NodeId) {
    n.role == Leader && p in n.peers && n.peers[p].nextIndex > n.st.snapIndex
  }

  function Min(a: int, b: int): int {
    if a < b then a else b
  }

  function Max(a: int, b: int): int {
    if a < b then b else a
  }

  function MakeAppend(n: Node, p: NodeId, maxEntries: nat): AppendArgs
    requires Valid(n) && CanAppend(n, p)
  {
    var ni := Min(n.peers[p].nextIndex, LastIndex(n.st) + 1);
    var count := Min(maxEntries, LastIndex(n.st) + 1 - ni);
    var from := ni - n.st.snapIndex;
    AppendArgs(n.currentTerm, n.id, ni - 1, TermAt(n.st, ni - 1), n.st.log[from..from + count], n.commitIndex)
  }

  /** Last index at or below i, above the snapshot, whose entry has the given term. */
  function LastOfTerm(s: Store, i: int, term: nat): Option<nat>
    requires i <= LastIndex(s)
    decreases i
  {
    if i <= s.snapIndex then None
    else if TermAt(s, i) == term then Some(i)
    else LastOfTerm(s, i - 1, term)
  }

  predicate Transient(a: AppendArgs, r: AppendReply) {
    r.conflictTerm == 0 && r.conflictIndex == a.prevLogIndex + 1
  }

  /** Where to probe next after a rejection. */
  function BackedUp(s: Store, a: AppendArgs, r: AppendReply): nat {
    var found := if r.conflictTerm > 0 then LastOfTerm(s, Min(a.prevLogIndex, LastIndex(s)), r.conflictTerm) else None;
    var back := if found.Some? then found.value + 1 else r.conflictIndex;
    Max(1, Min(back, a.prevLogIndex))
  }

  function AckedPeer(p: Peer, round: nat): Peer {
    p.(ackRound := Max(p.ackRound, round))
  }

  function Matched(p: Peer, upTo: nat): Peer {
    p.(matchIndex := Max(p.matchIndex, upTo), nextIndex := Max(p.matchIndex, upTo) + 1)
  }

  function OnAppendReply(n: Node, p: NodeId, round: nat, a: AppendArgs, r: AppendReply): Node
    requires CommitInLog(n)
  {
    if r.term > n.currentTerm then StepDown(n, r.term)
    else if n.role != Leader || n.currentTerm != a.term || p !in n.peers then n
    else
      var acked := AckedPeer(n.peers[p], round);
      if r.success then
        AdvanceCommit(n.(peers := n.peers[p := Matched(acked, a.prevLogIndex + |a.entries|)]))
      else if Transient(a, r) then n.(peers := n.peers[p := acked])
      else n.(peers := n.peers[p := acked.(nextIndex := BackedUp(n.st, a, r))])
  }

  predicate CanSendSnapshot(n: Node, p: NodeId) {
    n.role == Leader && p in n.peers && n.peers[p].nextIndex <= n.st.snapIndex && n.st.snapData.Some?
  }

  function Sending(p: Peer, idx: nat): Peer {
    if p.snapSending != idx then p.(snapSending := idx, snapOffset := 0) else p
  }

  function Chunk(n: Node, offset: nat, size: nat): SnapshotArgs
    requires n.st.snapData.Some?
  {
    var data := n.st.snapData.value;
    var off := Min(offset, |data|);
    var count := Min(size, |data| - off);
    SnapshotArgs(n.currentTerm, n.id, n.st.snapIndex, n.st.snapTerm, n.st.snapConfig,
                 off, data[off..off + count], off + count == |data|)
  }

  function MakeSnapshot(n: Node, p: NodeId, size: nat): (Node, SnapshotArgs)
    requires CanSendSnapshot(n, p)
  {
    var q := Sending(n.peers[p], n.st.snapIndex);
    (n.(peers := n.peers[p := q]), Chunk(n, q.snapOffset, size))
  }

  function OnSnapshotReply(n: Node, p: NodeId, round: nat, a: SnapshotArgs, r: SnapshotReply): Node
    requires CommitInLog(n)
  {
    if r.term > n.currentTerm then StepDown(n, r.term)
    else if n.role != Leader || n.currentTerm != a.term || p !in n.peers then n
    else
      var acked := AckedPeer(n.peers[p], round);
      if acked.snapSending != a.lastIncludedIndex then n.(peers := n.peers[p := acked])
      else
        var q := acked.(snapOffset := r.nextOffset);
        if r.success && a.done then
          AdvanceCommit(n.(peers := n.peers[p := Matched(q, a.lastIncludedIndex).(snapSending := 0)]))
        else n.(peers := n.peers[p := q])
  }

  function CountVote(n: Node, p: NodeId): Node {
    n.(ballot := n.ballot.(votes := n.ballot.votes + {p}))
  }

  function OnVoteReply(n: Node, p: NodeId, a: VoteArgs, r: VoteReply, io: bool): Node
    requires CommitInLog(n)
  {
    if r.term > n.currentTerm then StepDown(n, r.term)
    else if n.role == Candidate && n.currentTerm == a.term && r.voteGranted then
      var m := CountVote(n, p);
      if Quorum(m.st.config, m.ballot.votes) then BecomeLeader(m, io) else m
    else n
  }

  function OnPreVoteReply(n: Node, p: NodeId, round: nat, r: VoteReply, ioMeta: bool, ioNoop: bool): Node
    requires CommitInLog(n)
  {
    if r.term > n.currentTerm && !r.voteGranted then StepDown(n, r.term)
    else if n.ballot.prevoting && n.ballot.prevoteRound == round && n.role == Follower && r.voteGranted then
      var prevotes := n.ballot.prevotes + {p};
      var m := n.(ballot := n.ballot.(prevotes := prevotes));
      if Quorum(n.st.config, prevotes) then
        StartElection(m.(ballot := m.ballot.(prevoting := false)), ioMeta, ioNoop)
      else m
    else n
  }

  function MakeVote(n: Node): VoteArgs
    requires n.st.log != []
  {
    VoteArgs(n.currentTerm, n.id, LastIndex(n.st), TermAt(n.st, LastIndex(n.st)), false)
  }

  function MakePreVote(n: Node): VoteArgs
    requires n.st.log != []
  {
    VoteArgs(n.currentTerm + 1, n.id, LastIndex(n.st), TermAt(n.st, LastIndex(n.st)), true)
  }

  // ---------- client and membership operations ----------

  function Submit(n: Node, name: string, payload: Bytes): Node
    requires CommitInLog(n)
  {
    AdvanceCommit(AppendLocal(n, Op(name, payload)))
  }

  predicate MayChangeConfig(n: Node)
    requires CommitInLog(n)
  {
    n.role == Leader && n.st.configIndex <= n.commitIndex && TermAt(n.st, n.commitIndex) == n.currentTerm
  }

  function ChangeConfig(n: Node, nc: Membership): Node
    requires CommitInLog(n)
  {
    AdvanceCommit(AppendLocal(n, Config(nc)))
  }

  /** add_server before the catch-up wait. */
  function BeginAdd(n: Node, m: Member): Node
    requires n.st.log != []
  {
    Reconcile(n.(learners := n.learners[m.id := m]))
  }

  /** What add_server waits for: the learner is within one batch of the log's end. */
  predicate CaughtUp(n: Node, id: NodeId, margin: nat)
    requires n.st.log != []
  {
    id in n.peers && n.peers[id].matchIndex + Max(1, margin) >= LastIndex(n.st)
  }

  /** add_server after it. The id is not looked up in the membership again. */
  function FinishAdd(n: Node, m: Member): Node
    requires CommitInLog(n)
  {
    ChangeConfig(n, n.st.config + [m]).(learners := n.learners - {m.id})
  }

  function AbandonLearner(n: Node, id: NodeId): Node
    requires n.st.log != []
  {
    Reconcile(n.(learners := n.learners - {id}))
  }

  function RemoveServer(n: Node, id: NodeId): Node
    requires CommitInLog(n)
  {
    ChangeConfig(n.(learners := n.learners - {id}), Without(n.st.config, id))
  }

  // ---------- compaction and restart ----------

  function Compact(n: Node, idx: nat, term: nat, data: Bytes): Node
    requires n.st.snapIndex < idx <= LastIndex(n.st)
  {
    n.(st := CompactStore(n.st, idx, term, data))
  }

  function NewNode(id: NodeId, config: Membership): Node {
    var st := Store([Entry(0, 0, Noop)], 0, 0, config, None, [], config, 0);
    Reconcile(Node(id, 0, None, Follower, st, 0, 0, Ballot({}, {}, false, 0), 0, Recv([], 0, 0), map[], map[]))
  }

  /** A process that starts from what the node had on disk. */
  function Restart(n: Node, initialApplied: nat): Node
    requires n.st.log != []
  {
    var st := RecomputeStore(n.st.(logConfigs := Configs(n.st.log[1..])));
    var applied := Min(initialApplied, LastIndex(st));
    Reconcile(Node(n.id, n.currentTerm, n.votedFor, Follower, st, Max(st.snapIndex, applied), applied,
                   Ballot({}, {}, false, 0), 0, Recv([], 0, 0), map[], map[]))
  }
}
