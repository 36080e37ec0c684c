/** The node of consensus/raft.hpp as the program keeps it: fields updated in
    place by handlers and locked sections. Each method is proved to do what
    RaftState says of the node as a value. */
module RaftNode {
  import opened Wrappers
  import opened RaftTypes
  import opened RaftState
  import opened RaftNodeInvariant

  // ---------- what the loops over logConfigs compute ----------

  /** The CONFIG entries of a log array, split at index idx. */
  lemma SplitConfigs(s: Store, idx: nat)
    requires StoreOk(s) && InLog(s, idx)
    ensures var low, high := Configs(s.log[1..idx - s.snapIndex + 1]), Configs(Above(s, idx));
      && s.logConfigs == low + high
      && (forall c :: 0 <= c < |low| ==> low[c].0 <= idx) && (forall c :: 0 <= c < |high| ==> idx < high[c].0)
  {
    var prefix, suffix := s.log[1..idx - s.snapIndex + 1], Above(s, idx);
    assert s.log[1..] == prefix + suffix;
    ConfigsConcat(prefix, suffix);
    ConfigsInRange(prefix, s.snapIndex + 1, idx);
    ConfigsInRange(suffix, idx + 1, LastIndex(s));
  }

  lemma NobodyNew(peers: map<NodeId, Peer>, next: nat)
    ensures Tracked(peers, {}, next) == peers
  {
  }

  lemma WithOneMore(peers: map<NodeId, Peer>, want: set<NodeId>, p: NodeId, next: nat)
    ensures var m := Tracked(peers, want, next);
      Tracked(peers, want + {p}, next) == if p in m then m else m[p := NewPeer(next)]
  {
  }

  method KeepAbove(configs: seq<(nat, Membership)>, idx: nat,
                   ghost low: seq<(nat, Membership)>, ghost high: seq<(nat, Membership)>)
    returns (kept: seq<(nat, Membership)>)
    requires configs == low + high
    requires forall c :: 0 <= c < |low| ==> low[c].0 <= idx
    requires forall c :: 0 <= c < |high| ==> idx < high[c].0
    ensures kept == high
  {
    kept := [];
    for j := 0 to |configs|
      invariant kept == if j > |low| then high[..j - |low|] else []
    {
      if configs[j].0 > idx {
        kept := kept + [configs[j]];
      }
    }
    assert |configs| == |low| + |high| && high[..|high|] == high;
  }

  class RaftNode {
    const id: NodeId
    var currentTerm: nat
    var votedFor: Option<NodeId>
    var role: Role
    var log: seq<Entry>
    var snapIndex: nat
    var snapTerm: nat
    var snapConfig: Membership
    var snapData: Option<Bytes>
    var logConfigs: seq<(nat, Membership)>
    var config: Membership
    var configIndex: nat
    var commitIndex: nat
    var lastApplied: nat
    var votes: set<NodeId>
    var prevotes: set<NodeId>
    var prevoting: bool
    var prevoteRound: nat
    var hbRound: nat
    var recvBuf: Bytes
    var recvIndex: nat
    var recvTerm: nat
    var learners: map<NodeId, Member>
    var peers: map<NodeId, Peer>

    ghost function St(): Store
      reads this
    {
      Store(log, snapIndex, snapTerm, snapConfig, snapData, logConfigs, config, configIndex)
    }

    ghost function State(): Node
      reads this
    {
      Node(id, currentTerm, votedFor, role, St(), commitIndex, lastApplied,
           Ballot(votes, prevotes, prevoting, prevoteRound), hbRound, Recv(recvBuf, recvIndex, recvTerm), learners, peers)
    }

    constructor (id: NodeId, members: Membership)
      ensures State() == NewNode(id, members) && Valid(State())
    {
      this.id := id;
      currentTerm, votedFor, role := 0, None, Follower;
      log, snapIndex, snapTerm, snapConfig, snapData := [Entry(0, 0, Noop)], 0, 0, members, None;
      logConfigs, config, configIndex := [], members, 0;
      commitIndex, lastApplied := 0, 0;
      votes, prevotes, prevoting, prevoteRound := {}, {}, false, 0;
      hbRound, recvBuf, recvIndex, recvTerm := 0, [], 0, 0;
      learners, peers := map[], map[];
      new;
      ReconcilePeers();
    }

    function Last(): int
      reads this
    {
      snapIndex + |log| - 1
    }

    function Term(i: int): nat
      requires snapIndex <= i <= Last()
      reads this
    {
      log[i - snapIndex].term
    }

    /** Counts the members of the configuration in force that are in s. */
    method HasQuorum(s: set<NodeId>) returns (ok: bool)
      ensures ok == Quorum(config, s)
    {
      var count := 0;
      for i := 0 to |config|
        invariant count == CountIn(config[..i], s)
      {
        assert config[..i + 1][..i] == config[..i];
        if config[i].id in s { count := count + 1; }
      }
      assert config[..|config|] == config;
      ok := |config| > 0 && 2 * count > |config|;
    }

    // ---------- configuration and peers ----------

    /** Starts tracking p unless it is this node or already tracked. */
    method AddPeer(p: NodeId, ghost was: map<NodeId, Peer>, ghost done: set<NodeId>)
      requires log != [] && peers == Tracked(was, done - {id}, Last() + 1)
      modifies this`peers
      ensures peers == Tracked(was, done + {p} - {id}, Last() + 1)
    {
      hide Tracked;
      WithOneMore(was, done - {id}, p, Last() + 1);
      if p != id && p !in peers {
        peers := peers[p := NewPeer(Last() + 1)];
      }
      assert done + {p} - {id} == if p == id then done - {id} else done - {id} + {p};
    }

    method ReconcilePeers()
      requires log != []
      modifies this`peers
      ensures State() == Reconcile(old(State()))
    {
      hide Tracked;
      ghost var was, done := peers, {};
      NobodyNew(was, Last() + 1);
      for i := 0 to |config|
        invariant done == set j | 0 <= j < i :: config[j].id
        invariant peers == Tracked(was, done - {id}, Last() + 1)
      {
        AddPeer(config[i].id, was, done);
        done := done + {config[i].id};
      }
      assert done == Ids(config);
      var rest := learners.Keys;
      while rest != {}
        invariant rest <= learners.Keys && done == Ids(config) + (learners.Keys - rest)
        invariant peers == Tracked(was, done - {id}, Last() + 1)
      {
        var p :| p in rest;
        AddPeer(p, was, done);
        rest := rest - {p};
        done := done + {p};
      }
      assert done == Ids(config) + learners.Keys;
    }

    method RecomputeConfig()
      requires log != []
      modifies this`config, this`configIndex, this`peers
      ensures State() == Reconcile(old(State()).(st := RecomputeStore(old(St()))))
    {
      if logConfigs == [] {
        config, configIndex := snapConfig, snapIndex;
      } else {
        config, configIndex := logConfigs[|logConfigs| - 1].1, logConfigs[|logConfigs| - 1].0;
      }
      ReconcilePeers();
    }

    /** Records the CONFIG entries of newly stored entries. */
    method NoteConfigs(entries: seq<Entry>)
      modifies this`logConfigs
      ensures logConfigs == old(logConfigs) + Configs(entries)
    {
      for j := 0 to |entries|
        invariant logConfigs == old(logConfigs) + Configs(entries[..j])
      {
        assert entries[..j + 1][..j] == entries[..j];
        if entries[j].cmd.Config? {
          logConfigs := logConfigs + [(entries[j].index, entries[j].cmd.members)];
        }
      }
      assert entries[..|entries|] == entries;
    }

    // ---------- terms and elections ----------

    method BecomeFollower(term: nat)
      modifies this`currentTerm, this`votedFor, this`role, this`prevoting
      ensures State() == StepDown(old(State()), term)
    {
      if term > currentTerm {
        currentTerm, votedFor := term, None;
      }
      role, prevoting := Follower, false;
    }

    /** Appends one entry of the current term to a leader's own log. */
    method AppendOwn(cmd: Command)
      requires log != []
      modifies this`log, this`logConfigs, this`config, this`configIndex, this`peers
      ensures State() == AppendLocal(old(State()), cmd)
    {
      var e := Entry(currentTerm, Last() + 1, cmd);
      log := log + [e];
      if cmd.Config? {
        logConfigs := logConfigs + [(e.index, cmd.members)];
        RecomputeConfig();
      }
    }

    /** Searches downwards for an entry of the current term that a majority holds. */
    method HighestHeld() returns (commit: nat)
      requires CommitInLog(State())
      ensures commit == NewCommit(State(), Last())
    {
      var k := Last();
      while k > commitIndex
        invariant commitIndex <= k <= Last()
        invariant NewCommit(State(), Last()) == NewCommit(State(), k)
      {
        if Term(k) != currentTerm { break; }
        var ok := HasQuorum({id} + set p | p in peers && peers[p].matchIndex >= k);
        if ok { return k; }
        k := k - 1;
      }
      return commitIndex;
    }

    method AdvanceCommitIndex()
      requires Valid(State())
      modifies this`commitIndex, this`role
      ensures State() == AdvanceCommit(old(State()))
    {
      if role != Leader { return; }
      commitIndex := HighestHeld();
      if configIndex <= commitIndex && id !in set m | m in config :: m.id {
        role := Follower;
      }
    }

    method AppendNoop()
      requires Valid(State())
      modifies this
      ensures CommitInLog(AppendLocal(old(State()), Noop)) && State() == AdvanceCommit(AppendLocal(old(State()), Noop))
    {
      hide AdvanceCommit, Reconcile;
      ghost var before := State();
      AppendOwn(Noop);
      AppendStoreOk(before.st, Entry(before.currentTerm, LastIndex(before.st) + 1, Noop));
      AdvanceCommitIndex();
    }

    method Lead(io: bool)
      requires Valid(State())
      modifies this
      ensures State() == BecomeLeader(old(State()), io)
    {
      hide AdvanceCommit, AppendLocal, Probed;
      role, prevoting := Leader, false;
      ResetProgress();
      if io {
        AppendNoop();
      } else {
        role := Follower;
      }
    }

    method ResetProgress()
      requires log != []
      modifies this`peers
      ensures peers == ResetPeers(old(State()))
    {
      ghost var was := peers;
      var rest := peers.Keys;
      while rest != {}
        invariant rest <= was.Keys && peers.Keys == was.Keys
        invariant forall p :: p in was ==>
          peers[p] == (if p in rest then was[p] else was[p].(nextIndex := Last() + 1, matchIndex := 0, snapSending := 0))
      {
        var p :| p in rest;
        peers := peers[p := peers[p].(nextIndex := Last() + 1, matchIndex := 0, snapSending := 0)];
        rest := rest - {p};
      }
    }

    method BeginElection(ioMeta: bool, ioNoop: bool)
      requires Valid(State())
      modifies this
      ensures State() == StartElection(old(State()), ioMeta, ioNoop)
    {
      if !ioMeta { return; }
      BecomeCandidate();
      var won := HasQuorum({id});
      if won { Lead(ioNoop); }
    }

    method CountOwnVote()
      modifies this`votes, this`prevoting
      ensures State() == old(State()).(ballot := old(State()).ballot.(votes := {id}, prevoting := false))
    {
      votes, prevoting := {id}, false;
    }

    method BecomeCandidate()
      modifies this
      ensures State() == Stand(old(State()))
    {
      role, currentTerm, votedFor := Candidate, currentTerm + 1, Some(id);
      CountOwnVote();
    }

    method TimerFires(preVote: bool, ioMeta: bool, ioNoop: bool)
      requires Valid(State())
      modifies this
      ensures State() == OnTimeout(old(State()), preVote, ioMeta, ioNoop)
    {
      if role == Leader || id !in set m | m in config :: m.id { return; }
      if preVote && |config| > 1 && role == Follower {
        prevoting, prevoteRound, prevotes := true, prevoteRound + 1, {id};
      } else {
        BeginElection(ioMeta, ioNoop);
      }
    }

    method VoteReplied(p: NodeId, a: VoteArgs, r: VoteReply, io: bool)
      requires Valid(State())
      modifies this
      ensures State() == OnVoteReply(old(State()), p, a, r, io)
    {
      if r.term > currentTerm { BecomeFollower(r.term); return; }
      if role == Candidate && currentTerm == a.term && r.voteGranted {
        votes := votes + {p};
        var won := HasQuorum(votes);
        if won { Lead(io); }
      }
    }

    method PreVoteReplied(p: NodeId, round: nat, r: VoteReply, ioMeta: bool, ioNoop: bool)
      requires Valid(State())
      modifies this
      ensures State() == OnPreVoteReply(old(State()), p, round, r, ioMeta, ioNoop)
    {
      if r.term > currentTerm && !r.voteGranted { BecomeFollower(r.term); return; }
      if prevoting && prevoteRound == round && role == Follower && r.voteGranted {
        prevotes := prevotes + {p};
        var won := HasQuorum(prevotes);
        if won {
          prevoting := false;
          BeginElection(ioMeta, ioNoop);
        }
      }
    }

    method HandleRequestVote(a: VoteArgs, checkQuorum: bool, recent: bool, io: bool) returns (reply: VoteReply)
      requires log != []
      modifies this
      ensures (State(), reply) == OnRequestVote(old(State()), a, checkQuorum, recent, io)
    {
      var lastIndex := Last();
      var lastTerm := Term(lastIndex);
      var logOk := a.lastLogTerm > lastTerm || (a.lastLogTerm == lastTerm && a.lastLogIndex >= lastIndex);
      var recentLeader := role == Leader || recent;
      if a.preVote {
        return VoteReply(currentTerm, a.term > currentTerm && logOk && !recentLeader);
      }
      if a.term < currentTerm || (a.term > currentTerm && checkQuorum && recentLeader) {
        return VoteReply(currentTerm, false);
      }
      if a.term > currentTerm { BecomeFollower(a.term); }
      var granted := logOk && (votedFor == Some(a.candidateId) || (votedFor == None && io));
      if granted { votedFor := Some(a.candidateId); }
      return VoteReply(currentTerm, granted);
    }

    // ---------- AppendEntries ----------

    method AcceptSender(term: nat)
      modifies this`currentTerm, this`votedFor, this`role, this`prevoting
      ensures State() == Follow(old(State()), term)
    {
      if term > currentTerm || role != Follower { BecomeFollower(term); }
      prevoting := false;
    }

    method ConflictStart(prev: nat) returns (index: nat)
      requires snapIndex <= prev <= Last()
      ensures index == RunStart(St(), prev)
    {
      index := prev;
      while index > snapIndex + 1 && Term(index - 1) == Term(prev)
        invariant snapIndex <= index <= prev && Term(index) == Term(prev)
        invariant RunStart(St(), prev) == RunStart(St(), index)
      {
        index := index - 1;
      }
    }

    /** Skips the entries that are already in the log. */
    method FindFirstNew(entries: seq<Entry>, skip: nat) returns (i: nat, truncAt: nat)
      requires skip <= |entries| && forall k :: skip <= k < |entries| ==> snapIndex <= entries[k].index
      requires forall k :: skip <= k < |entries| ==> entries[k].index > 0
      ensures i == FirstNew(St(), entries, skip) && skip <= i <= |entries|
      ensures truncAt == if i < |entries| && entries[i].index <= Last() then entries[i].index else 0
    {
      i, truncAt := skip, 0;
      while i < |entries|
        invariant skip <= i <= |entries| && truncAt == 0
        invariant FirstNew(St(), entries, skip) == FirstNew(St(), entries, i)
      {
        var e := entries[i];
        if e.index > Last() { break; }
        if Term(e.index) != e.term {
          truncAt := e.index;
          break;
        }
        i := i + 1;
      }
    }

    /** Drops the log from truncAt on and stores tail instead. */
    method Overwrite(truncAt: nat, tail: seq<Entry>)
      requires StoreOk(St()) && snapIndex < truncAt <= Last()
      modifies this`log, this`logConfigs
      ensures log == old(log)[..truncAt - snapIndex] + tail
      ensures logConfigs == Configs(old(log)[..truncAt - snapIndex][1..])
    {
      ghost var high := Configs(Above(St(), truncAt - 1));
      ghost var low := Configs(log[1..truncAt - snapIndex]);
      SplitConfigs(St(), truncAt - 1);
      assert log[..truncAt - snapIndex][1..] == log[1..truncAt - snapIndex];
      log := log[..truncAt - snapIndex] + tail;
      PopConfigs(truncAt, low, high);
    }

    method PopConfigs(truncAt: nat, ghost low: seq<(nat, Membership)>, ghost high: seq<(nat, Membership)>)
      requires logConfigs == low + high
      requires forall c :: 0 <= c < |low| ==> low[c].0 < truncAt
      requires forall c :: 0 <= c < |high| ==> truncAt <= high[c].0
      modifies this`logConfigs
      ensures logConfigs == low
    {
      ghost var k := |high|;
      assert high[..k] == high;
      while logConfigs != [] && logConfigs[|logConfigs| - 1].0 >= truncAt
        invariant 0 <= k <= |high| && logConfigs == low + high[..k]
        decreases |logConfigs|
      {
        k := k - 1;
        logConfigs := logConfigs[..|logConfigs| - 1];
      }
      assert k == 0;
    }

    /** Stores the entries from position i on, which are new or conflict. */
    method StoreTail(truncAt: nat, tail: seq<Entry>)
      requires StoreOk(St()) && tail != [] && snapIndex < tail[0].index <= Last() + 1
      requires truncAt == if tail[0].index <= Last() then tail[0].index else 0
      modifies this`log, this`logConfigs, this`config, this`configIndex, this`peers
      ensures State() == Splice(old(State()), tail[0].index, tail)
    {
      hide Reconcile, RecomputeStore;
      ghost var at := tail[0].index;
      if truncAt > 0 {
        Overwrite(truncAt, tail);
      } else {
        assert log[..at - snapIndex] == log;
        log := log + tail;
      }
      NoteConfigs(tail);
      RecomputeConfig();
    }

    method HandleAppendEntries(a: AppendArgs, io: bool) returns (reply: AppendReply)
      requires Valid(State()) && WellFormed(a)
      modifies this
      ensures (State(), reply) == OnAppendEntries(old(State()), a, io)
      ensures Valid(State())
    {
      OnAppendEntriesValid(State(), a, io);
      if a.term < currentTerm { return AppendReply(currentTerm, false, 0, 0); }
      AcceptSender(a.term);
      var prev, prevTerm, skip := a.prevLogIndex, a.prevLogTerm, 0;
      if prev < snapIndex {
        if prev + |a.entries| <= snapIndex { return AppendReply(currentTerm, true, 0, 0); }
        skip, prev, prevTerm := snapIndex - prev, snapIndex, snapTerm;
      }
      reply := CheckAndStore(a, prev, prevTerm, skip, io);
    }

    method CheckAndStore(a: AppendArgs, prev: nat, prevTerm: nat, skip: nat, io: bool) returns (reply: AppendReply)
      requires Valid(State()) && WellFormed(a)
      requires prev == a.prevLogIndex + skip && skip <= |a.entries| && snapIndex <= prev
      modifies this
      ensures (State(), reply) == AppendFrom(old(State()), a, prev, prevTerm, skip, io)
    {
      hide Splice, SpliceStore, Reconcile, Configs;
      if prev > Last() { return AppendReply(currentTerm, false, Last() + 1, 0); }
      if Term(prev) != prevTerm {
        var start := ConflictStart(prev);
        return AppendReply(currentTerm, false, start, Term(prev));
      }
      FirstNewAt(St(), a, skip);
      var i, truncAt := FindFirstNew(a.entries, skip);
      if 0 < truncAt <= commitIndex { return AppendReply(currentTerm, false, 0, 0); }
      if i < |a.entries| {
        if !io { return AppendReply(currentTerm, false, a.prevLogIndex + 1, 0); }
        StoreTail(truncAt, a.entries[i..]);
      }
      var lastNew := a.prevLogIndex + |a.entries|;
      var upTo := if a.leaderCommit < lastNew then a.leaderCommit else lastNew;
      if a.leaderCommit > commitIndex && upTo > commitIndex { commitIndex := upTo; }
      return AppendReply(currentTerm, true, 0, 0);
    }

    // ---------- InstallSnapshot ----------

    /** The CONFIG entries left above idx. */
    method ConfigsAbove(idx: nat) returns (kept: seq<(nat, Membership)>)
      requires StoreOk(St()) && InLog(St(), idx)
      ensures kept == Configs(log[idx - snapIndex + 1..])
    {
      SplitConfigs(St(), idx);
      kept := KeepAbove(logConfigs, idx, Configs(log[1..idx - snapIndex + 1]), Configs(log[idx - snapIndex + 1..]));
    }

    /** The membership in force at idx. */
    method MembersAt(idx: nat) returns (members: Membership)
      ensures members == ConfigAt(snapConfig, logConfigs, idx)
    {
      members := snapConfig;
      for j := 0 to |logConfigs|
        invariant members == ConfigAt(snapConfig, logConfigs[..j], idx)
      {
        assert logConfigs[..j + 1][..j] == logConfigs[..j];
        if logConfigs[j].0 <= idx { members := logConfigs[j].1; }
      }
      assert logConfigs[..|logConfigs|] == logConfigs;
    }

    /** Makes the snapshot's sentinel the start of the log. */
    method StartFrom(idx: nat, term: nat, members: Membership, data: Bytes,
                     suffix: seq<Entry>, kept: seq<(nat, Membership)>)
      modifies this`snapIndex, this`snapTerm, this`snapConfig, this`snapData, this`log, this`logConfigs
      ensures St() == Store([Entry(term, idx, Noop)] + suffix, idx, term, members, Some(data), kept,
                            old(config), old(configIndex))
    {
      snapIndex, snapTerm, snapConfig, snapData := idx, term, members, Some(data);
      log, logConfigs := [Entry(term, idx, Noop)] + suffix, kept;
    }

    method Adopt(a: SnapshotArgs, data: Bytes)
      requires StoreOk(St()) && a.lastIncludedIndex > snapIndex
      modifies this`snapIndex, this`snapTerm, this`snapConfig, this`snapData, this`log, this`logConfigs
      ensures log != [] && RecomputeStore(St()) == InstallStore(old(St()), a, data)
    {
      var idx, term := a.lastIncludedIndex, a.lastIncludedTerm;
      var suffix: seq<Entry> := [];
      var kept: seq<(nat, Membership)> := [];
      if idx <= Last() && Term(idx) == term {
        suffix := log[idx - snapIndex + 1..];
        kept := ConfigsAbove(idx);
      }
      StartFrom(idx, term, a.config, data, suffix, kept);
    }

    method InstallReceived(a: SnapshotArgs, data: Bytes)
      requires StoreOk(St()) && a.lastIncludedIndex > snapIndex
      modifies this
      ensures State() == Install(old(State()), a, data)
    {
      hide Configs, Reconcile, ConfigsAgree, RecomputeStore;
      Adopt(a, data);
      RecomputeConfig();
      commitIndex := if a.lastIncludedIndex > commitIndex then a.lastIncludedIndex else commitIndex;
    }

    method HandleInstallSnapshot(a: SnapshotArgs, io: bool) returns (reply: SnapshotReply)
      requires StoreOk(St())
      modifies this
      ensures (State(), reply) == OnInstallSnapshot(old(State()), a, io)
    {
      if a.term < currentTerm { return SnapshotReply(currentTerm, false, 0); }
      AcceptSender(a.term);
      reply := TakeChunk(a, io);
    }

    method TakeChunk(a: SnapshotArgs, io: bool) returns (reply: SnapshotReply)
      requires StoreOk(St())
      modifies this
      ensures (State(), reply) == SnapshotFollowing(old(State()), a, io)
    {
      var same := recvIndex == a.lastIncludedIndex && recvTerm == a.lastIncludedTerm;
      if a.offset != 0 && (!same || a.offset != |recvBuf|) {
        return SnapshotReply(currentTerm, false, if same then |recvBuf| else 0);
      }
      if a.offset == 0 {
        recvBuf, recvIndex, recvTerm := a.data, a.lastIncludedIndex, a.lastIncludedTerm;
      } else {
        recvBuf := recvBuf + a.data;
      }
      var next := |recvBuf|;
      if !a.done { return SnapshotReply(currentTerm, true, next); }
      if a.lastIncludedIndex <= snapIndex || a.lastIncludedIndex <= lastApplied {
        recvBuf := [];
        return SnapshotReply(currentTerm, true, next);
      }
      var data := recvBuf;
      recvBuf, recvIndex, recvTerm := [], 0, 0;
      if !io { return SnapshotReply(currentTerm, false, 0); }
      InstallReceived(a, data);
      return SnapshotReply(currentTerm, true, next);
    }

    // ---------- replication, leader side ----------

    method BuildAppend(p: NodeId, maxEntries: nat) returns (a: AppendArgs)
      requires Valid(State()) && CanAppend(State(), p)
      ensures a == MakeAppend(State(), p, maxEntries)
    {
      var ni := peers[p].nextIndex;
      if ni > Last() + 1 { ni := Last() + 1; }
      var entries: seq<Entry> := [];
      var i := ni;
      while i <= Last() && |entries| < maxEntries
        invariant ni <= i <= Last() + 1 && i - ni <= maxEntries
        invariant entries == log[ni - snapIndex..i - snapIndex]
      {
        entries := entries + [log[i - snapIndex]];
        i := i + 1;
      }
      a := AppendArgs(currentTerm, id, ni - 1, Term(ni - 1), entries, commitIndex);
    }

    /** Where to probe after a rejection. */
    method BackUp(a: AppendArgs, r: AppendReply) returns (next: nat)
      requires log != []
      ensures next == BackedUp(St(), a, r)
    {
      var back := r.conflictIndex;
      if r.conflictTerm > 0 {
        var i := if a.prevLogIndex < Last() then a.prevLogIndex else Last();
        ghost var from := i;
        while i > snapIndex
          invariant i <= from
          invariant LastOfTerm(St(), from, r.conflictTerm) == LastOfTerm(St(), i, r.conflictTerm)
          invariant back == r.conflictIndex
        {
          if Term(i) == r.conflictTerm {
            back := i + 1;
            break;
          }
          i := i - 1;
        }
      }
      next := Max(1, if back < a.prevLogIndex then back else a.prevLogIndex);
    }

    method AppendReplied(p: NodeId, round: nat, a: AppendArgs, r: AppendReply)
      requires Valid(State())
      modifies this
      ensures State() == OnAppendReply(old(State()), p, round, a, r)
    {
      if r.term > currentTerm { BecomeFollower(r.term); return; }
      if role != Leader || currentTerm != a.term || p !in peers { return; }
      var ps := peers[p];
      ps := ps.(ackRound := Max(ps.ackRound, round));
      if r.success {
        var m := a.prevLogIndex + |a.entries|;
        if m > ps.matchIndex { ps := ps.(matchIndex := m); }
        ps := ps.(nextIndex := ps.matchIndex + 1);
        peers := peers[p := ps];
        AdvanceCommitIndex();
      } else {
        if !(r.conflictTerm == 0 && r.conflictIndex == a.prevLogIndex + 1) {
          var next := BackUp(a, r);
          ps := ps.(nextIndex := next);
        }
        peers := peers[p := ps];
      }
    }

    method BuildSnapshot(p: NodeId, size: nat) returns (a: SnapshotArgs)
      requires CanSendSnapshot(State(), p)
      modifies this`peers
      ensures (State(), a) == MakeSnapshot(old(State()), p, size)
    {
      assert peers[p := peers[p]] == peers;
      if peers[p].snapSending != snapIndex {
        peers := peers[p := peers[p].(snapSending := snapIndex, snapOffset := 0)];
      }
      var data := snapData.value;
      var off := Min(peers[p].snapOffset, |data|);
      var count := Min(size, |data| - off);
      a := SnapshotArgs(currentTerm, id, snapIndex, snapTerm, snapConfig, off, data[off..off + count], off + count == |data|);
    }

    method SnapshotReplied(p: NodeId, round: nat, a: SnapshotArgs, r: SnapshotReply)
      requires Valid(State())
      modifies this
      ensures State() == OnSnapshotReply(old(State()), p, round, a, r)
    {
      if r.term > currentTerm { BecomeFollower(r.term); return; }
      if role != Leader || currentTerm != a.term || p !in peers { return; }
      var ps := peers[p];
      ps := ps.(ackRound := Max(ps.ackRound, round));
      var finished := ps.snapSending == a.lastIncludedIndex && r.success && a.done;
      if ps.snapSending == a.lastIncludedIndex {
        ps := ps.(snapOffset := r.nextOffset);
      }
      if finished {
        var m := Max(ps.matchIndex, a.lastIncludedIndex);
        ps := ps.(matchIndex := m, nextIndex := m + 1, snapSending := 0);
      }
      peers := peers[p := ps];
      if finished { AdvanceCommitIndex(); }
    }

    // ---------- client, membership and compaction ----------

    method SubmitCommand(name: string, payload: Bytes)
      requires Valid(State())
      modifies this
      ensures State() == Submit(old(State()), name, payload) && Valid(State())
    {
      SubmitValid(State(), name, payload);
      AppendLocalValid(State(), Op(name, payload));
      AppendOwn(Op(name, payload));
      AdvanceCommitIndex();
    }

    method AppendMembership(members: Membership)
      requires Valid(State())
      modifies this
      ensures State() == ChangeConfig(old(State()), members) && Valid(State())
    {
      ChangeConfigValid(State(), members);
      AppendLocalValid(State(), Config(members));
      AppendOwn(Config(members));
      AdvanceCommitIndex();
    }

    method DropMember(gone: NodeId)
      requires Valid(State())
      modifies this
      ensures State() == RemoveServer(old(State()), gone) && Valid(State())
    {
      learners := learners - {gone};
      var left: Membership := [];
      for i := 0 to |config|
        invariant left == Without(config[..i], gone)
      {
        assert config[..i + 1][..i] == config[..i];
        if config[i].id != gone { left := left + [config[i]]; }
      }
      assert config[..|config|] == config;
      AppendMembership(left);
    }

    method StartLearner(m: Member)
      requires log != []
      modifies this`learners, this`peers
      ensures State() == BeginAdd(old(State()), m)
    {
      learners := learners[m.id := m];
      ReconcilePeers();
    }

    method PromoteLearner(m: Member)
      requires Valid(State())
      modifies this
      ensures State() == FinishAdd(old(State()), m) && Valid(State())
    {
      AppendMembership(config + [m]);
      learners := learners - {m.id};
    }

    method DropLearner(gone: NodeId)
      requires log != []
      modifies this`learners, this`peers
      ensures State() == AbandonLearner(old(State()), gone)
    {
      learners := learners - {gone};
      ReconcilePeers();
    }

    method CompactTo(idx: nat, term: nat, data: Bytes)
      requires StoreOk(St()) && snapIndex < idx <= Last()
      modifies this`snapIndex, this`snapTerm, this`snapConfig, this`snapData, this`log, this`logConfigs
      ensures St() == CompactStore(old(St()), idx, term, data)
      ensures State() == Compact(old(State()), idx, term, data)
    {
      var members := MembersAt(idx);
      var kept := ConfigsAbove(idx);
      StartFrom(idx, term, members, data, log[idx - snapIndex + 1..], kept);
    }
  }
}
