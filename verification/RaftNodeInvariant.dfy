/** Every handler keeps `Valid`: the log array starts at the snapshot's
    sentinel and counts up, logConfigs are exactly its CONFIG entries, and
    applied <= commit, snapshot <= commit <= last index. */
module RaftNodeInvariant {
  import opened Wrappers
  import opened RaftTypes
  import opened RaftState

  lemma {:induction false} ConfigsConcat(a: seq<Entry>, b: seq<Entry>)
    ensures Configs(a + b) == Configs(a) + Configs(b)
  {
    if b == [] {
      assert a + b == a;
    } else {
      var init := b[..|b| - 1];
      assert (a + b)[..|a + b| - 1] == a + init;
      ConfigsConcat(a, init);
    }
  }

  lemma {:induction false} ConfigsInRange(entries: seq<Entry>, lo: int, hi: int)
    requires forall k :: 0 <= k < |entries| ==> lo <= entries[k].index <= hi
    ensures forall c :: 0 <= c < |Configs(entries)| ==> lo <= Configs(entries)[c].0 <= hi
  {
    if entries != [] {
      ConfigsInRange(entries[..|entries| - 1], lo, hi);
    }
  }

  // ---------- the store ----------

  lemma RecomputeOk(s: Store)
    requires LogShape(s) && s.logConfigs == Configs(s.log[1..])
    ensures StoreOk(RecomputeStore(s))
  {
  }

  lemma AppendStoreOk(s: Store, e: Entry)
    requires StoreOk(s) && e.index == LastIndex(s) + 1
    ensures StoreOk(AppendStore(s, e)) && LastIndex(AppendStore(s, e)) == LastIndex(s) + 1
    ensures AppendStore(s, e).log == s.log + [e]
  {
    var log := s.log + [e];
    assert log[1..][..|log[1..]| - 1] == s.log[1..];
    assert log[1..][|log[1..]| - 1] == e;
    var t := s.(log := log);
    assert LogShape(t);
    if e.cmd.Config? {
      RecomputeOk(t.(logConfigs := t.logConfigs + [(e.index, e.cmd.members)]));
    }
  }

  lemma SpliceStoreOk(s: Store, at: nat, tail: seq<Entry>)
    requires StoreOk(s) && s.snapIndex < at <= LastIndex(s) + 1
    requires forall k :: 0 <= k < |tail| ==> tail[k].index == at + k
    ensures StoreOk(SpliceStore(s, at, tail)) && LastIndex(SpliceStore(s, at, tail)) == at + |tail| - 1
    ensures SpliceStore(s, at, tail).log == s.log[..at - s.snapIndex] + tail
  {
    var keep := s.log[..at - s.snapIndex];
    assert (keep + tail)[1..] == keep[1..] + tail;
    ConfigsConcat(keep[1..], tail);
    RecomputeOk(s.(log := keep + tail, logConfigs := Configs(keep[1..]) + Configs(tail)));
  }

  lemma SentinelShape(s: Store, suffix: seq<Entry>)
    requires s.log == [Entry(s.snapTerm, s.snapIndex, Noop)] + suffix
    requires forall k :: 0 <= k < |suffix| ==> suffix[k].index == s.snapIndex + 1 + k
    ensures LogShape(s) && s.log[1..] == suffix && LastIndex(s) == s.snapIndex + |suffix|
  {
  }

  /** What the log array keeps above index idx. */
  function Above(s: Store, idx: nat): seq<Entry>
    requires InLog(s, idx)
  {
    s.log[idx - s.snapIndex + 1..]
  }

  lemma AboveCounts(s: Store, idx: nat)
    requires LogShape(s) && InLog(s, idx)
    ensures |Above(s, idx)| == LastIndex(s) - idx
    ensures forall k :: 0 <= k < |Above(s, idx)| ==> Above(s, idx)[k].index == idx + 1 + k
  {
  }

  lemma InstallStoreOk(s: Store, a: SnapshotArgs, data: Bytes)
    requires StoreOk(s) && a.lastIncludedIndex > s.snapIndex
    ensures StoreOk(InstallStore(s, a, data))
    ensures LastIndex(InstallStore(s, a, data)) ==
      if KeepsSuffix(s, a.lastIncludedIndex, a.lastIncludedTerm) then LastIndex(s) else a.lastIncludedIndex
  {
    var idx, term := a.lastIncludedIndex, a.lastIncludedTerm;
    var suffix := if KeepsSuffix(s, idx, term) then Above(s, idx) else [];
    if KeepsSuffix(s, idx, term) { AboveCounts(s, idx); }
    var t := Store([Entry(term, idx, Noop)] + suffix, idx, term, a.config, Some(data), Configs(suffix), s.config, s.configIndex);
    SentinelShape(t, suffix);
    RecomputeOk(t);
  }

  lemma {:induction false} ConfigAtSplit(
      snapConfig: Membership, low: seq<(nat, Membership)>, high: seq<(nat, Membership)>, idx: nat)
    requires forall c :: 0 <= c < |low| ==> low[c].0 <= idx
    requires forall c :: 0 <= c < |high| ==> high[c].0 > idx
    ensures ConfigAt(snapConfig, low + high, idx) == if low == [] then snapConfig else low[|low| - 1].1
    decreases |high|
  {
    if high == [] {
      assert low + high == low;
    } else {
      assert (low + high)[..|low + high| - 1] == low + high[..|high| - 1];
      ConfigAtSplit(snapConfig, low, high[..|high| - 1], idx);
    }
  }

  /** Compaction changes no entry above the snapshot and not the membership in force. */
  lemma CompactStoreOk(s: Store, idx: nat, term: nat, data: Bytes)
    requires StoreOk(s) && s.snapIndex < idx <= LastIndex(s)
    ensures var c := CompactStore(s, idx, term, data);
      && StoreOk(c) && LastIndex(c) == LastIndex(s) && c.log[1..] == Above(s, idx)
      && c.config == s.config && c.configIndex == s.configIndex
  {
    var c := CompactStore(s, idx, term, data);
    AboveCounts(s, idx);
    SentinelShape(c, Above(s, idx));
    ConfigAfterCompaction(s, idx);
  }

  lemma ConfigAfterCompaction(s: Store, idx: nat)
    requires StoreOk(s) && s.snapIndex < idx <= LastIndex(s)
    ensures var left := Configs(Above(s, idx));
      if left == [] then s.config == ConfigAt(s.snapConfig, s.logConfigs, idx) && s.configIndex <= idx
      else left[|left| - 1] == (s.configIndex, s.config)
  {
    var prefix, suffix := s.log[1..idx - s.snapIndex + 1], Above(s, idx);
    assert s.log[1..] == prefix + suffix;
    ConfigsConcat(prefix, suffix);
    ConfigsInRange(prefix, s.snapIndex + 1, idx);
    ConfigsInRange(suffix, idx + 1, LastIndex(s));
    ConfigAtSplit(s.snapConfig, Configs(prefix), Configs(suffix), idx);
  }

  // ---------- commit ----------

  lemma {:induction false} NewCommitRange(n: Node, k: int)
    requires CommitInLog(n) && n.commitIndex <= k <= LastIndex(n.st)
    ensures n.commitIndex <= NewCommit(n, k) <= k
    ensures NewCommit(n, k) > n.commitIndex ==>
      TermAt(n.st, NewCommit(n, k)) == n.currentTerm && Quorum(n.st.config, Holders(n, NewCommit(n, k)))
    decreases k
  {
    if k > n.commitIndex && TermAt(n.st, k) == n.currentTerm && !Quorum(n.st.config, Holders(n, k)) {
      NewCommitRange(n, k - 1);
    }
  }

  /** The commit rule misses no index that a majority holds, as long as every
      entry from it on is of the current term. */
  lemma {:induction false} NewCommitIsMax(n: Node, k: int, j: int)
    requires CommitInLog(n) && n.commitIndex <= k <= LastIndex(n.st)
    requires n.commitIndex < j <= k && Quorum(n.st.config, Holders(n, j))
    requires forall i :: j <= i <= k ==> TermAt(n.st, i) == n.currentTerm
    ensures j <= NewCommit(n, k)
    decreases k
  {
    if !Quorum(n.st.config, Holders(n, k)) {
      NewCommitIsMax(n, k - 1, j);
    }
  }

  // ---------- the handlers ----------

  lemma AppendLocalValid(n: Node, cmd: Command)
    requires Valid(n)
    ensures Valid(AppendLocal(n, cmd))
  {
    AppendStoreOk(n.st, Entry(n.currentTerm, LastIndex(n.st) + 1, cmd));
  }

  lemma AdvanceCommitValid(n: Node)
    requires Valid(n)
    ensures Valid(AdvanceCommit(n))
  {
    NewCommitRange(n, LastIndex(n.st));
  }

  lemma BecomeLeaderValid(n: Node, io: bool)
    requires Valid(n)
    ensures Valid(BecomeLeader(n, io))
  {
    var m := n.(role := Leader, ballot := n.ballot.(prevoting := false), peers := ResetPeers(n));
    assert Valid(m);
    AppendLocalValid(m, Noop);
    AdvanceCommitValid(AppendLocal(m, Noop));
  }

  lemma StartElectionValid(n: Node, ioMeta: bool, ioNoop: bool)
    requires Valid(n)
    ensures Valid(StartElection(n, ioMeta, ioNoop))
  {
    assert Valid(Stand(n));
    BecomeLeaderValid(Stand(n), ioNoop);
  }

  lemma OnTimeoutValid(n: Node, preVote: bool, ioMeta: bool, ioNoop: bool)
    requires Valid(n)
    ensures Valid(OnTimeout(n, preVote, ioMeta, ioNoop))
  {
    StartElectionValid(n, ioMeta, ioNoop);
  }

  lemma SpliceValid(n: Node, at: nat, tail: seq<Entry>)
    requires Valid(n) && n.commitIndex < at <= LastIndex(n.st) + 1
    requires forall k :: 0 <= k < |tail| ==> tail[k].index == at + k
    ensures Valid(Splice(n, at, tail)) && LastIndex(Splice(n, at, tail).st) == at + |tail| - 1
  {
    SpliceStoreOk(n.st, at, tail);
  }

  lemma AppendFromValid(n: Node, a: AppendArgs, prev: nat, prevTerm: nat, skip: nat, io: bool)
    requires Valid(n) && WellFormed(a) && prev == a.prevLogIndex + skip && skip <= |a.entries| && n.st.snapIndex <= prev
    ensures Valid(AppendFrom(n, a, prev, prevTerm, skip, io).0)
  {
    if prev <= LastIndex(n.st) && TermAt(n.st, prev) == prevTerm {
      var i := FirstNew(n.st, a.entries, skip);
      FirstNewAt(n.st, a, skip);
      if i < |a.entries| && n.commitIndex < a.entries[i].index {
        SpliceValid(n, a.entries[i].index, a.entries[i..]);
      }
    }
  }

  lemma FollowValid(n: Node, term: nat)
    requires Valid(n)
    ensures Valid(Follow(n, term)) && Valid(StepDown(n, term))
  {
  }

  lemma OnAppendEntriesValid(n: Node, a: AppendArgs, io: bool)
    requires Valid(n) && WellFormed(a)
    ensures Valid(OnAppendEntries(n, a, io).0)
  {
    if a.term >= n.currentTerm {
      var m := Follow(n, a.term);
      FollowValid(n, a.term);
      if a.prevLogIndex >= m.st.snapIndex {
        AppendFromValid(m, a, a.prevLogIndex, a.prevLogTerm, 0, io);
      } else if a.prevLogIndex + |a.entries| > m.st.snapIndex {
        AppendFromValid(m, a, m.st.snapIndex, m.st.snapTerm, m.st.snapIndex - a.prevLogIndex, io);
      }
    }
  }

  lemma OnRequestVoteValid(n: Node, a: VoteArgs, checkQuorum: bool, recent: bool, io: bool)
    requires Valid(n)
    ensures Valid(OnRequestVote(n, a, checkQuorum, recent, io).0)
  {
  }

  /** The source installs a snapshot without a kept suffix even below its own
      commit index; RaftSafety shows that this does not arise in a cluster. */
  predicate CoversCommitted(n: Node, a: SnapshotArgs) {
    KeepsSuffix(n.st, a.lastIncludedIndex, a.lastIncludedTerm) || n.commitIndex <= a.lastIncludedIndex
  }

  lemma InstallValid(n: Node, a: SnapshotArgs, data: Bytes)
    requires Valid(n) && a.lastIncludedIndex > n.st.snapIndex && CoversCommitted(n, a)
    ensures Valid(Install(n, a, data))
  {
    InstallStoreOk(n.st, a, data);
  }

  lemma OnInstallSnapshotValid(n: Node, a: SnapshotArgs, io: bool)
    requires Valid(n)
    requires CoversCommitted(n, a) || a.lastIncludedIndex <= n.lastApplied || a.lastIncludedIndex <= n.st.snapIndex
    ensures Valid(OnInstallSnapshot(n, a, io).0)
  {
    hide Received;
    var m := Follow(n, a.term);
    FollowValid(n, a.term);
    var k := m.(recv := Recv([], 0, 0));
    if a.lastIncludedIndex > k.st.snapIndex && a.lastIncludedIndex > k.lastApplied {
      InstallValid(k, a, Received(m.recv, a).buf);
    }
  }

  lemma OnAppendReplyValid(n: Node, p: NodeId, round: nat, a: AppendArgs, r: AppendReply)
    requires Valid(n)
    ensures Valid(OnAppendReply(n, p, round, a, r))
  {
    if p in n.peers {
      var k := n.(peers := n.peers[p := Matched(AckedPeer(n.peers[p], round), a.prevLogIndex + |a.entries|)]);
      assert Valid(k);
      AdvanceCommitValid(k);
    }
  }

  lemma OnSnapshotReplyValid(n: Node, p: NodeId, round: nat, a: SnapshotArgs, r: SnapshotReply)
    requires Valid(n)
    ensures Valid(OnSnapshotReply(n, p, round, a, r))
  {
    if p in n.peers {
      var q := AckedPeer(n.peers[p], round).(snapOffset := r.nextOffset);
      var k := n.(peers := n.peers[p := Matched(q, a.lastIncludedIndex).(snapSending := 0)]);
      assert Valid(k);
      AdvanceCommitValid(k);
    }
  }

  lemma OnVoteReplyValid(n: Node, p: NodeId, a: VoteArgs, r: VoteReply, io: bool)
    requires Valid(n)
    ensures Valid(OnVoteReply(n, p, a, r, io))
  {
    assert Valid(CountVote(n, p));
    BecomeLeaderValid(CountVote(n, p), io);
  }

  lemma OnPreVoteReplyValid(n: Node, p: NodeId, round: nat, r: VoteReply, ioMeta: bool, ioNoop: bool)
    requires Valid(n)
    ensures Valid(OnPreVoteReply(n, p, round, r, ioMeta, ioNoop))
  {
    var m := n.(ballot := n.ballot.(prevotes := n.ballot.prevotes + {p}, prevoting := false));
    assert Valid(m);
    StartElectionValid(m, ioMeta, ioNoop);
  }

  lemma ChangeConfigValid(n: Node, nc: Membership)
    requires Valid(n)
    ensures Valid(ChangeConfig(n, nc))
  {
    AppendLocalValid(n, Config(nc));
    AdvanceCommitValid(AppendLocal(n, Config(nc)));
  }

  lemma MembershipOpsValid(n: Node, m: Member)
    requires Valid(n)
    ensures Valid(BeginAdd(n, m)) && Valid(AbandonLearner(n, m.id))
    ensures Valid(FinishAdd(n, m)) && Valid(RemoveServer(n, m.id))
  {
    ChangeConfigValid(n, n.st.config + [m]);
    ChangeConfigValid(n.(learners := n.learners - {m.id}), Without(n.st.config, m.id));
  }

  lemma SubmitValid(n: Node, name: string, payload: Bytes)
    requires Valid(n)
    ensures Valid(Submit(n, name, payload))
  {
    AppendLocalValid(n, Op(name, payload));
    AdvanceCommitValid(AppendLocal(n, Op(name, payload)));
  }

  lemma CompactValid(n: Node, idx: nat, term: nat, data: Bytes)
    requires Valid(n) && n.st.snapIndex < idx <= n.commitIndex
    ensures Valid(Compact(n, idx, term, data))
  {
    CompactStoreOk(n.st, idx, term, data);
  }

  lemma RestartValid(n: Node, initialApplied: nat)
    requires Valid(n)
    ensures Valid(Restart(n, initialApplied))
  {
    RecomputeOk(n.st.(logConfigs := Configs(n.st.log[1..])));
  }
}
