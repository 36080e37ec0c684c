/** A cluster of Raft nodes and the messages between them. Every handler and
    every locked section of a replicator, timer or apply thread is one atomic
    step. Messages are never removed, so they may be delayed, duplicated and
    reordered without bound; a lost message is one that is never delivered. */
module RaftCluster {
  import opened RaftTypes
  import opened RaftState

  /** What the apply thread does between two locked sections. */
  datatype Work =
    | Idle
    | Applying(entry: Entry)
    | Restoring(data: Bytes, idx: nat)
    | Snapping(idx: nat, term: nat, data: Bytes)

  /** A read_index call in progress. */
  datatype Read =
    | Waiting(term: nat)
    | Confirming(term: nat, ri: nat, round: nat)
    | Ready(ri: nat)

  /** An add_server call that waits, without the lock, for its learner. */
  datatype Adding = Adding(member: Member, term: nat)

  /** `sm` is the application's state machine, as the entries that produced it;
      sm[k] is the entry of index k + 1. */
  datatype Server = Server(n: Node, sm: Log, work: Work, pending: map<nat, Read>, adding: map<nat, Adding>)

  /** A reply carries its request: the source holds both across the call. */
  datatype Msg =
    | VoteReq(src: NodeId, dst: NodeId, round: nat, vote: VoteArgs)
    | VoteRep(src: NodeId, dst: NodeId, round: nat, vote: VoteArgs, voteReply: VoteReply)
    | AppReq(src: NodeId, dst: NodeId, round: nat, app: AppendArgs)
    | AppRep(src: NodeId, dst: NodeId, round: nat, app: AppendArgs, appReply: AppendReply)
    | SnapReq(src: NodeId, dst: NodeId, round: nat, snap: SnapshotArgs)
    | SnapRep(src: NodeId, dst: NodeId, round: nat, snap: SnapshotArgs, snapReply: SnapshotReply)

  datatype Cluster = Cluster(servers: map<NodeId, Server>, net: set<Msg>)

  /** What a snapshot's bytes restore. */
  type App = Bytes -> Log

  datatype Label =
    | Timeout(v: NodeId, preVote: bool, ioMeta: bool, ioNoop: bool)
    | LoseQuorum(v: NodeId)
    | SendVote(v: NodeId, p: NodeId, preVote: bool)
    | SendAppend(v: NodeId, p: NodeId, maxEntries: nat)
    | SendSnapshot(v: NodeId, p: NodeId, size: nat)
    | HandleVote(v: NodeId, m: Msg, checkQuorum: bool, recent: bool, io: bool)
    | HandleAppend(v: NodeId, m: Msg, io: bool)
    | HandleSnapshot(v: NodeId, m: Msg, io: bool)
    | VoteBack(v: NodeId, m: Msg, ioMeta: bool, ioNoop: bool)
    | AppendBack(v: NodeId, m: Msg)
    | SnapshotBack(v: NodeId, m: Msg)
    | ClientSubmit(v: NodeId, name: string, payload: Bytes)
    | AddBegin(v: NodeId, id: nat, member: Member, margin: nat)
    | AddFinish(v: NodeId, id: nat, margin: nat)
    | AddAbandon(v: NodeId, id: nat)
    | Remove(v: NodeId, id: NodeId)
    | ApplyBegin(v: NodeId)
    | ApplyEnd(v: NodeId)
    | SnapBegin(v: NodeId, data: Bytes)
    | SnapEnd(v: NodeId, io: bool)
    | Crash(v: NodeId, initialApplied: nat)
    | ReadBegin(v: NodeId, id: nat)
    | ReadRound(v: NodeId, id: nat)
    | ReadConfirm(v: NodeId, id: nat)
    | ReadReturn(v: NodeId, id: nat)

  predicate Addressed(s: Cluster, v: NodeId, m: Msg) {
    m in s.net && m.dst == v
  }

  predicate StillLeader(n: Node, term: nat) {
    n.role == Leader && n.currentTerm == term
  }

  /** Members whose acknowledgement of a round at or after `round` has been recorded. */
  function Confirmers(n: Node, round: nat): set<NodeId> {
    {n.id} + set p | p in n.peers && n.peers[p].ackRound >= round
  }

  ghost predicate Enabled(app: App, s: Cluster, l: Label) {
    && l.v in s.servers && Valid(s.servers[l.v].n)
    && var sv := s.servers[l.v];
    var n := sv.n;
    match l
    case Timeout(_, _, _, _) => true
    case LoseQuorum(_) => n.role == Leader
    case SendVote(_, p, preVote) =>
      if preVote then n.ballot.prevoting && n.role == Follower else n.role == Candidate
    case SendAppend(v, p, _) => CanAppend(n, p) && p != v
    case SendSnapshot(v, p, _) => CanSendSnapshot(n, p) && p != v
    case HandleVote(v, m, _, _, _) => Addressed(s, v, m) && m.VoteReq?
    case HandleAppend(v, m, _) => Addressed(s, v, m) && m.AppReq? && WellFormed(m.app)
    case HandleSnapshot(v, m, _) => Addressed(s, v, m) && m.SnapReq?
    case VoteBack(v, m, _, _) => Addressed(s, v, m) && m.VoteRep?
    case AppendBack(v, m) => Addressed(s, v, m) && m.AppRep?
    case SnapshotBack(v, m) => Addressed(s, v, m) && m.SnapRep?
    case ClientSubmit(_, _, _) => n.role == Leader
    case AddBegin(_, id, member, _) => MayChangeConfig(n) && member.id !in Ids(n.st.config) && id !in sv.adding
    case AddFinish(_, id, margin) =>
      id in sv.adding && StillLeader(n, sv.adding[id].term) && CaughtUp(n, sv.adding[id].member.id, margin)
      && MayChangeConfig(n)
    case AddAbandon(_, id) => id in sv.adding
    case Remove(_, id) => MayChangeConfig(n) && id in Ids(n.st.config) && |n.st.config| != 1
    case ApplyBegin(_) =>
      sv.work == Idle && n.lastApplied < n.commitIndex && (n.lastApplied < n.st.snapIndex ==> n.st.snapData.Some?)
    case ApplyEnd(_) => sv.work.Applying? || sv.work.Restoring?
    case SnapBegin(_, data) => sv.work == Idle && n.lastApplied > n.st.snapIndex && app(data) == sv.sm
    case SnapEnd(_, _) => sv.work.Snapping?
    case Crash(_, initialApplied) => initialApplied <= |sv.sm|
    case ReadBegin(_, id) => n.role == Leader && id !in sv.pending
    case ReadRound(_, id) =>
      id in sv.pending && sv.pending[id].Waiting? && StillLeader(n, sv.pending[id].term)
      && TermAt(n.st, n.commitIndex) == n.currentTerm
    case ReadConfirm(_, id) =>
      id in sv.pending && sv.pending[id].Confirming? && StillLeader(n, sv.pending[id].term)
      && Quorum(n.st.config, Confirmers(n, sv.pending[id].round))
    case ReadReturn(_, id) => id in sv.pending && sv.pending[id].Ready? && n.lastApplied >= sv.pending[id].ri
  }

  function BeginWork(n: Node): Work
    requires Valid(n) && n.lastApplied < n.commitIndex && (n.lastApplied < n.st.snapIndex ==> n.st.snapData.Some?)
  {
    if n.lastApplied < n.st.snapIndex then Restoring(n.st.snapData.value, n.st.snapIndex)
    else Applying(n.st.log[n.lastApplied + 1 - n.st.snapIndex])
  }

  function EndWork(app: App, sv: Server): Server
    requires sv.work.Applying? || sv.work.Restoring?
  {
    match sv.work
    case Applying(e) =>
      sv.(work := Idle, sm := sv.sm + [e],
          n := if e.index == sv.n.lastApplied + 1 then sv.n.(lastApplied := e.index) else sv.n)
    case Restoring(data, idx) =>
      sv.(work := Idle, sm := app(data), n := sv.n.(lastApplied := Max(sv.n.lastApplied, idx)))
  }

  function EndSnap(sv: Server, io: bool): Server
    requires sv.work.Snapping?
  {
    var idx := sv.work.idx;
    if !io || idx <= sv.n.st.snapIndex || idx > LastIndex(sv.n.st) then sv.(work := Idle)
    else sv.(work := Idle, n := Compact(sv.n, idx, sv.work.term, sv.work.data))
  }

  function Reboot(sv: Server, initialApplied: nat): Server
    requires sv.n.st.log != [] && initialApplied <= |sv.sm|
  {
    var n := Restart(sv.n, initialApplied);
    Server(n, if n.lastApplied <= |sv.sm| then sv.sm[..n.lastApplied] else sv.sm, Idle, map[], map[])
  }

  function BeginRound(sv: Server, id: nat): Server
    requires id in sv.pending && sv.pending[id].Waiting?
  {
    var n := sv.n;
    if Quorum(n.st.config, {n.id}) then sv.(pending := sv.pending[id := Ready(n.commitIndex)])
    else sv.(n := n.(hbRound := n.hbRound + 1),
             pending := sv.pending[id := Confirming(sv.pending[id].term, n.commitIndex, n.hbRound + 1)])
  }

  /** The lock is only released when the learner is not yet close enough. */
  function StartAdd(sv: Server, id: nat, member: Member, margin: nat): Server
    requires CommitInLog(sv.n)
  {
    var n := BeginAdd(sv.n, member);
    if CaughtUp(n, member.id, margin) then sv.(n := FinishAdd(n, member))
    else sv.(n := n, adding := sv.adding[id := Adding(member, n.currentTerm)])
  }

  function VoteBackNode(n: Node, m: Msg, ioMeta: bool, ioNoop: bool): Node
    requires Valid(n) && m.VoteRep?
  {
    if m.vote.preVote then OnPreVoteReply(n, m.src, m.round, m.voteReply, ioMeta, ioNoop)
    else OnVoteReply(n, m.src, m.vote, m.voteReply, ioNoop)
  }

  /** The acting server afterwards, and what it sends. */
  function Outcome(app: App, s: Cluster, l: Label): (Server, set<Msg>)
    requires Enabled(app, s, l)
  {
    var sv := s.servers[l.v];
    var n := sv.n;
    match l
    case Timeout(_, preVote, ioMeta, ioNoop) => (sv.(n := OnTimeout(n, preVote, ioMeta, ioNoop)), {})
    case LoseQuorum(_) => (sv.(n := n.(role := Follower)), {})
    case SendVote(v, p, preVote) =>
      (sv, {VoteReq(v, p, n.ballot.prevoteRound, if preVote then MakePreVote(n) else MakeVote(n))})
    case SendAppend(v, p, maxEntries) => (sv, {AppReq(v, p, n.hbRound, MakeAppend(n, p, maxEntries))})
    case SendSnapshot(v, p, size) =>
      var out := MakeSnapshot(n, p, size);
      (sv.(n := out.0), {SnapReq(v, p, n.hbRound, out.1)})
    case HandleVote(v, m, checkQuorum, recent, io) =>
      var out := OnRequestVote(n, m.vote, checkQuorum, recent, io);
      (sv.(n := out.0), {VoteRep(v, m.src, m.round, m.vote, out.1)})
    case HandleAppend(v, m, io) =>
      var out := OnAppendEntries(n, m.app, io);
      (sv.(n := out.0), {AppRep(v, m.src, m.round, m.app, out.1)})
    case HandleSnapshot(v, m, io) =>
      var out := OnInstallSnapshot(n, m.snap, io);
      (sv.(n := out.0), {SnapRep(v, m.src, m.round, m.snap, out.1)})
    case VoteBack(_, m, ioMeta, ioNoop) => (sv.(n := VoteBackNode(n, m, ioMeta, ioNoop)), {})
    case AppendBack(_, m) => (sv.(n := OnAppendReply(n, m.src, m.round, m.app, m.appReply)), {})
    case SnapshotBack(_, m) => (sv.(n := OnSnapshotReply(n, m.src, m.round, m.snap, m.snapReply)), {})
    case ClientSubmit(_, name, payload) => (sv.(n := Submit(n, name, payload)), {})
    case AddBegin(_, id, member, margin) => (StartAdd(sv, id, member, margin), {})
    case AddFinish(_, id, _) => (sv.(n := FinishAdd(n, sv.adding[id].member), adding := sv.adding - {id}), {})
    case AddAbandon(_, id) => (sv.(n := AbandonLearner(n, sv.adding[id].member.id), adding := sv.adding - {id}), {})
    case Remove(_, id) => (sv.(n := RemoveServer(n, id)), {})
    case ApplyBegin(_) => (sv.(work := BeginWork(n)), {})
    case ApplyEnd(_) => (EndWork(app, sv), {})
    case SnapBegin(_, data) => (sv.(work := Snapping(n.lastApplied, TermAt(n.st, n.lastApplied), data)), {})
    case SnapEnd(_, io) => (EndSnap(sv, io), {})
    case Crash(_, initialApplied) => (Reboot(sv, initialApplied), {})
    case ReadBegin(_, id) => (sv.(pending := sv.pending[id := Waiting(n.currentTerm)]), {})
    case ReadRound(_, id) => (BeginRound(sv, id), {})
    case ReadConfirm(_, id) => (sv.(pending := sv.pending[id := Ready(sv.pending[id].ri)]), {})
    case ReadReturn(_, id) => (sv.(pending := sv.pending - {id}), {})
  }

  function Do(app: App, s: Cluster, l: Label): Cluster
    requires Enabled(app, s, l)
  {
    var out := Outcome(app, s, l);
    Cluster(s.servers[l.v := out.0], s.net + out.1)
  }

  /** All nodes start empty; the members of `base` know it, the others wait to be added. */
  ghost predicate Init(s: Cluster, base: Membership) {
    && s.net == {}
    && forall v :: v in s.servers ==>
         s.servers[v] == Server(NewNode(v, if v in Ids(base) then base else []), [], Idle, map[], map[])
  }

  datatype Run = Run(states: seq<Cluster>, labels: seq<Label>)

  ghost predicate IsRun(app: App, base: Membership, r: Run) {
    && |r.states| == |r.labels| + 1
    && Init(r.states[0], base)
    && forall i :: 0 <= i < |r.labels| ==>
         Enabled(app, r.states[i], r.labels[i]) && r.states[i + 1] == Do(app, r.states[i], r.labels[i])
  }

  /** remove_server drops no id that is listed so often that quorums could part. */
  predicate SafeStep(s: Cluster, l: Label) {
    l.Remove? && l.v in s.servers ==> SafeRemoval(s.servers[l.v].n.st.config, l.id)
  }

  ghost predicate CleanRun(app: App, base: Membership, r: Run) {
    && IsRun(app, base, r)
    && forall i :: 0 <= i < |r.labels| ==> SafeStep(r.states[i], r.labels[i])
  }
}
