/** What a cluster can still do from where it is: steps one after another, and
    one exchange of a request and its reply between two servers. */
module RaftReach {
  import opened Wrappers
  import opened RaftTypes
  import opened RaftState
  import opened RaftNodeInvariant
  import opened RaftCluster
  import opened RaftHistory
  import S = RaftSteps
  import opened RaftGhost
  import opened RaftInduction
  import opened RaftPeers
  import A = RaftRefineAppend

  // ---------- steps one after another ----------

  ghost predicate Path(app: App, s: Cluster, ls: seq<Label>, s2: Cluster)
    decreases |ls|
  {
    if ls == [] then s2 == s
    else Enabled(app, s, ls[0]) && SafeStep(s, ls[0]) && Path(app, Do(app, s, ls[0]), ls[1..], s2)
  }

  /** Safe steps lead from s to s2. */
  ghost predicate Reaches(app: App, s: Cluster, s2: Cluster) {
    exists ls :: Path(app, s, ls, s2)
  }

  /** What holds of every cluster of a clean run: some history explains it, and members are tracked. */
  ghost predicate Sound(app: App, s: Cluster) {
    AllTrack(s) && exists g :: CInv(app, s, g)
  }

  lemma {:induction false} PathTrans(app: App, s: Cluster, a: seq<Label>, m: Cluster, b: seq<Label>, s2: Cluster)
    requires Path(app, s, a, m) && Path(app, m, b, s2)
    ensures Path(app, s, a + b, s2)
    decreases |a|
  {
    hide Enabled, Do, SafeStep;
    if a == [] {
      assert a + b == b;
    } else {
      PathTrans(app, Do(app, s, a[0]), a[1..], m, b, s2);
      assert (a + b)[1..] == a[1..] + b && (a + b)[0] == a[0];
    }
  }

  lemma ReachesSelf(app: App, s: Cluster)
    ensures Reaches(app, s, s)
  {
    assert Path(app, s, [], s);
  }

  lemma ReachesTrans(app: App, s: Cluster, m: Cluster, s2: Cluster)
    requires Reaches(app, s, m) && Reaches(app, m, s2)
    ensures Reaches(app, s, s2)
  {
    hide Path;
    var a :| Path(app, s, a, m);
    var b :| Path(app, m, b, s2);
    PathTrans(app, s, a, m, b, s2);
  }

  lemma OneStep(app: App, s: Cluster, l: Label, s2: Cluster)
    requires Sound(app, s) && Enabled(app, s, l) && SafeStep(s, l) && s2 == Do(app, s, l)
    ensures Sound(app, s2) && Reaches(app, s, s2)
  {
    hide CInv, Enabled, SafeStep, Do, Linked, AllTrack;
    StepCovers(app, s, l);
    var g :| CInv(app, s, g);
    var g2 := StepKeepsInvariant(app, s, g, l);
    assert [l][1..] == [] && [l][0] == l;
    assert Path(app, s2, [], s2);
    assert Path(app, s, [l], s2);
  }

  // ---------- what is known of every server ----------

  lemma SoundServer(app: App, s: Cluster, v: NodeId)
    requires Sound(app, s) && v in s.servers
    ensures Valid(s.servers[v].n) && s.servers[v].n.id == v && TracksAll(s.servers[v].n)
  {
    var g :| CInv(app, s, g);
    assert ServerOk(app, g, v, s.servers[v]);
  }

  // ---------- an exchange of AppendEntries ----------

  lemma RequestOk(app: App, s: Cluster, v: NodeId, u: NodeId, max: nat)
    requires Sound(app, s) && v in s.servers && u in s.servers && CanAppend(s.servers[v].n, u)
    ensures Valid(s.servers[v].n) && Valid(s.servers[u].n) && WellFormed(MakeAppend(s.servers[v].n, u, max))
  {
    SoundServer(app, s, v);
    SoundServer(app, s, u);
    var g :| CInv(app, s, g);
    assert ServerOk(app, g, v, s.servers[v]);
    A.MakeAppendOk(app, g, v, s.servers[v].n, u, max);
    A.ArgsWellFormed(g.h, v, MakeAppend(s.servers[v].n, u, max));
  }

  /** s2 is s after v sent u one request, u handled it with its writes succeeding, and v heard the answer. */
  ghost predicate Exchanged(s: Cluster, s2: Cluster, v: NodeId, u: NodeId, max: nat) {
    && v in s.servers && u in s.servers
    && var n, f := s.servers[v].n, s.servers[u].n;
    && Valid(n) && Valid(f) && CanAppend(n, u) && WellFormed(MakeAppend(n, u, max))
    && var a := MakeAppend(n, u, max);
    var out := OnAppendEntries(f, a, true);
    s2.servers == s.servers[u := s.servers[u].(n := out.0)][v := s.servers[v].(n := OnAppendReply(n, u, n.hbRound, a, out.1))]
  }

  lemma Exchange(app: App, s: Cluster, v: NodeId, u: NodeId, max: nat) returns (s2: Cluster)
    requires Sound(app, s) && v in s.servers && u in s.servers && u != v && CanAppend(s.servers[v].n, u)
    ensures Sound(app, s2) && Reaches(app, s, s2) && Exchanged(s, s2, v, u, max)
  {
    RequestOk(app, s, v, u, max);
    hide Sound, Reaches, Valid, WellFormed, MakeAppend, OnAppendEntries, OnAppendReply, CommitInLog, SafeStep;
    var n, f := s.servers[v].n, s.servers[u].n;
    var a := MakeAppend(n, u, max);
    var out := OnAppendEntries(f, a, true);
    var req, ans := AppReq(v, u, n.hbRound, a), AppRep(u, v, n.hbRound, a, out.1);
    var s1 := Cluster(s.servers, s.net + {req});
    Sends(app, s, v, u, max, s1);
    var sa := Cluster(s.servers[u := s.servers[u].(n := out.0)], s1.net + {ans});
    Handles(app, s1, u, req, sa);
    ReachesTrans(app, s, s1, sa);
    s2 := Cluster(sa.servers[v := s.servers[v].(n := OnAppendReply(n, u, n.hbRound, a, out.1))], sa.net);
    Hears(app, sa, v, ans, s2);
    ReachesTrans(app, s, sa, s2);
  }

  lemma Sends(app: App, s: Cluster, v: NodeId, u: NodeId, max: nat, s2: Cluster)
    requires Sound(app, s) && v in s.servers && u != v && Valid(s.servers[v].n) && CanAppend(s.servers[v].n, u)
    requires s2 == Cluster(s.servers, s.net + {AppReq(v, u, s.servers[v].n.hbRound, MakeAppend(s.servers[v].n, u, max))})
    ensures Sound(app, s2) && Reaches(app, s, s2)
  {
    hide Sound, Reaches, Valid, CanAppend, MakeAppend;
    assert s.servers[v := s.servers[v]] == s.servers;
    OneStep(app, s, SendAppend(v, u, max), s2);
  }

  lemma Handles(app: App, s: Cluster, u: NodeId, m: Msg, s2: Cluster)
    requires Sound(app, s) && u in s.servers && Valid(s.servers[u].n) && Addressed(s, u, m) && m.AppReq? && WellFormed(m.app)
    requires var out := OnAppendEntries(s.servers[u].n, m.app, true);
      s2 == Cluster(s.servers[u := s.servers[u].(n := out.0)], s.net + {AppRep(u, m.src, m.round, m.app, out.1)})
    ensures Sound(app, s2) && Reaches(app, s, s2)
  {
    hide Sound, Reaches, Valid, WellFormed, OnAppendEntries;
    OneStep(app, s, HandleAppend(u, m, true), s2);
  }

  lemma Hears(app: App, s: Cluster, v: NodeId, m: Msg, s2: Cluster)
    requires Sound(app, s) && v in s.servers && Valid(s.servers[v].n) && Addressed(s, v, m) && m.AppRep?
    requires s2 == Cluster(s.servers[v := s.servers[v].(n := OnAppendReply(s.servers[v].n, m.src, m.round, m.app, m.appReply))], s.net)
    ensures Sound(app, s2) && Reaches(app, s, s2)
  {
    hide Sound, Reaches, OnAppendReply;
    assert s.net + {} == s.net;
    OneStep(app, s, AppendBack(v, m), s2);
  }

  // ---------- an exchange of one chunk ----------

  ghost predicate ChunkExchanged(s: Cluster, s2: Cluster, v: NodeId, u: NodeId, size: nat) {
    && v in s.servers && u in s.servers
    && var n, f := s.servers[v].n, s.servers[u].n;
    && Valid(n) && CanSendSnapshot(n, u)
    && var sent := MakeSnapshot(n, u, size);
    var out := OnInstallSnapshot(f, sent.1, true);
    && CommitInLog(sent.0)
    && s2.servers == s.servers[u := s.servers[u].(n := out.0)]
         [v := s.servers[v].(n := OnSnapshotReply(sent.0, u, n.hbRound, sent.1, out.1))]
  }

  lemma ExchangeChunk(app: App, s: Cluster, v: NodeId, u: NodeId, size: nat) returns (s2: Cluster)
    requires Sound(app, s) && v in s.servers && u in s.servers && u != v && CanSendSnapshot(s.servers[v].n, u)
    ensures Sound(app, s2) && Reaches(app, s, s2) && ChunkExchanged(s, s2, v, u, size)
  {
    SoundServer(app, s, v);
    SoundServer(app, s, u);
    SendingValid(s.servers[v].n, u, size);
    hide Sound, Reaches, OnInstallSnapshot, OnSnapshotReply, MakeSnapshot, Valid, CommitInLog, CanSendSnapshot;
    var n, f := s.servers[v].n, s.servers[u].n;
    var n1, a := MakeSnapshot(n, u, size).0, MakeSnapshot(n, u, size).1;
    var f1, r := OnInstallSnapshot(f, a, true).0, OnInstallSnapshot(f, a, true).1;
    var ans := SnapRep(u, v, n.hbRound, a, r);
    var sa := Delivered(app, s, v, u, size);
    var n2 := OnSnapshotReply(n1, u, n.hbRound, a, r);
    s2 := Cluster(sa.servers[v := s.servers[v].(n := n2)], sa.net);
    AfterBoth(s.servers, v, u, n1, f1, n2);
    HearsChunk(app, sa, v, ans, s2);
    ReachesTrans(app, s, sa, s2);
  }

  lemma AfterBoth(servers: map<NodeId, Server>, v: NodeId, u: NodeId, n1: Node, f1: Node, n2: Node)
    requires v in servers && u in servers && u != v
    ensures var sent := servers[v := servers[v].(n := n1)][u := servers[u].(n := f1)];
      && sent[v].n == n1 && sent[v].(n := n2) == servers[v].(n := n2)
      && sent[v := servers[v].(n := n2)] == servers[u := servers[u].(n := f1)][v := servers[v].(n := n2)]
  {
  }

  /** The chunk is sent and handled; the answer is on its way. */
  lemma Delivered(app: App, s: Cluster, v: NodeId, u: NodeId, size: nat) returns (sa: Cluster)
    requires Sound(app, s) && v in s.servers && u in s.servers && u != v
    requires Valid(s.servers[v].n) && Valid(s.servers[u].n) && CanSendSnapshot(s.servers[v].n, u)
    ensures Sound(app, sa) && Reaches(app, s, sa)
    ensures var n, f := s.servers[v].n, s.servers[u].n;
      var (n1, a) := MakeSnapshot(n, u, size);
      var (f1, r) := OnInstallSnapshot(f, a, true);
      && sa.servers == s.servers[v := s.servers[v].(n := n1)][u := s.servers[u].(n := f1)]
      && Addressed(sa, v, SnapRep(u, v, n.hbRound, a, r))
  {
    hide Sound, Reaches, OnInstallSnapshot, MakeSnapshot, Valid, CanSendSnapshot;
    var n, f := s.servers[v].n, s.servers[u].n;
    var n1, a := MakeSnapshot(n, u, size).0, MakeSnapshot(n, u, size).1;
    var f1, r := OnInstallSnapshot(f, a, true).0, OnInstallSnapshot(f, a, true).1;
    var req, ans := SnapReq(v, u, n.hbRound, a), SnapRep(u, v, n.hbRound, a, r);
    var s1 := Cluster(s.servers[v := s.servers[v].(n := n1)], s.net + {req});
    SendsChunk(app, s, v, u, size, s1);
    sa := Cluster(s1.servers[u := s.servers[u].(n := f1)], s1.net + {ans});
    HandlesChunk(app, s1, u, req, sa);
    ReachesTrans(app, s, s1, sa);
  }

  lemma SendingValid(n: Node, u: NodeId, size: nat)
    requires Valid(n) && CanSendSnapshot(n, u)
    ensures Valid(MakeSnapshot(n, u, size).0) && CommitInLog(MakeSnapshot(n, u, size).0)
  {
  }

  lemma SendsChunk(app: App, s: Cluster, v: NodeId, u: NodeId, size: nat, s2: Cluster)
    requires Sound(app, s) && v in s.servers && u != v && Valid(s.servers[v].n) && CanSendSnapshot(s.servers[v].n, u)
    requires var sent := MakeSnapshot(s.servers[v].n, u, size);
      s2 == Cluster(s.servers[v := s.servers[v].(n := sent.0)], s.net + {SnapReq(v, u, s.servers[v].n.hbRound, sent.1)})
    ensures Sound(app, s2) && Reaches(app, s, s2)
  {
    hide Sound, Reaches, Valid, CanSendSnapshot, MakeSnapshot;
    OneStep(app, s, SendSnapshot(v, u, size), s2);
  }

  lemma HandlesChunk(app: App, s: Cluster, u: NodeId, m: Msg, s2: Cluster)
    requires Sound(app, s) && u in s.servers && Valid(s.servers[u].n) && Addressed(s, u, m) && m.SnapReq?
    requires var out := OnInstallSnapshot(s.servers[u].n, m.snap, true);
      s2 == Cluster(s.servers[u := s.servers[u].(n := out.0)], s.net + {SnapRep(u, m.src, m.round, m.snap, out.1)})
    ensures Sound(app, s2) && Reaches(app, s, s2)
  {
    hide Sound, Reaches, Valid, OnInstallSnapshot;
    OneStep(app, s, HandleSnapshot(u, m, true), s2);
  }

  lemma HearsChunk(app: App, s: Cluster, v: NodeId, m: Msg, s2: Cluster)
    requires Sound(app, s) && v in s.servers && Valid(s.servers[v].n) && Addressed(s, v, m) && m.SnapRep?
    requires s2 == Cluster(s.servers[v := s.servers[v].(n := OnSnapshotReply(s.servers[v].n, m.src, m.round, m.snap, m.snapReply))], s.net)
    ensures Sound(app, s2) && Reaches(app, s, s2)
  {
    hide Sound, Reaches, OnSnapshotReply;
    assert s.net + {} == s.net;
    OneStep(app, s, SnapshotBack(v, m), s2);
  }

  // ---------- an exchange of a vote ----------

  ghost predicate VoteExchanged(s: Cluster, s2: Cluster, v: NodeId, u: NodeId) {
    && v in s.servers && u in s.servers
    && var n, f := s.servers[v].n, s.servers[u].n;
    && Valid(n) && Valid(f)
    && var a := MakeVote(n);
    var out := OnRequestVote(f, a, false, false, true);
    s2.servers == s.servers[u := s.servers[u].(n := out.0)][v := s.servers[v].(n := OnVoteReply(n, u, a, out.1, true))]
  }

  lemma ExchangeVote(app: App, s: Cluster, v: NodeId, u: NodeId) returns (s2: Cluster)
    requires Sound(app, s) && v in s.servers && u in s.servers && u != v && s.servers[v].n.role == Candidate
    ensures Sound(app, s2) && Reaches(app, s, s2) && VoteExchanged(s, s2, v, u)
  {
    SoundServer(app, s, v);
    SoundServer(app, s, u);
    PlainVote(s.servers[v].n);
    hide Sound, Reaches, OnRequestVote, OnVoteReply, MakeVote, Valid, CommitInLog;
    var n, f := s.servers[v].n, s.servers[u].n;
    var a := MakeVote(n);
    var out := OnRequestVote(f, a, false, false, true);
    var req, ans := VoteReq(v, u, n.ballot.prevoteRound, a), VoteRep(u, v, n.ballot.prevoteRound, a, out.1);
    var s1 := Cluster(s.servers, s.net + {req});
    SendsVote(app, s, v, u, s1);
    var sa := Cluster(s.servers[u := s.servers[u].(n := out.0)], s1.net + {ans});
    HandlesVote(app, s1, u, req, sa);
    ReachesTrans(app, s, s1, sa);
    s2 := Cluster(sa.servers[v := s.servers[v].(n := OnVoteReply(n, u, a, out.1, true))], sa.net);
    HearsVote(app, sa, v, ans, s2);
    ReachesTrans(app, s, sa, s2);
  }

  lemma PlainVote(n: Node)
    requires Valid(n)
    ensures n.st.log != [] && CommitInLog(n) && !MakeVote(n).preVote
  {
  }

  lemma SendsVote(app: App, s: Cluster, v: NodeId, u: NodeId, s2: Cluster)
    requires Sound(app, s) && v in s.servers && Valid(s.servers[v].n) && s.servers[v].n.role == Candidate && s.servers[v].n.st.log != []
    requires s2 == Cluster(s.servers, s.net + {VoteReq(v, u, s.servers[v].n.ballot.prevoteRound, MakeVote(s.servers[v].n))})
    ensures Sound(app, s2) && Reaches(app, s, s2)
  {
    hide Sound, Reaches, Valid, MakeVote;
    assert s.servers[v := s.servers[v]] == s.servers;
    OneStep(app, s, SendVote(v, u, false), s2);
  }

  lemma HandlesVote(app: App, s: Cluster, u: NodeId, m: Msg, s2: Cluster)
    requires Sound(app, s) && u in s.servers && Valid(s.servers[u].n) && Addressed(s, u, m) && m.VoteReq? && s.servers[u].n.st.log != []
    requires var out := OnRequestVote(s.servers[u].n, m.vote, false, false, true);
      s2 == Cluster(s.servers[u := s.servers[u].(n := out.0)], s.net + {VoteRep(u, m.src, m.round, m.vote, out.1)})
    ensures Sound(app, s2) && Reaches(app, s, s2)
  {
    hide Sound, Reaches, Valid, OnRequestVote;
    OneStep(app, s, HandleVote(u, m, false, false, true), s2);
  }

  lemma HearsVote(app: App, s: Cluster, v: NodeId, m: Msg, s2: Cluster)
    requires Sound(app, s) && v in s.servers && Valid(s.servers[v].n) && CommitInLog(s.servers[v].n)
    requires Addressed(s, v, m) && m.VoteRep? && !m.vote.preVote
    requires s2 == Cluster(s.servers[v := s.servers[v].(n := OnVoteReply(s.servers[v].n, m.src, m.vote, m.voteReply, true))], s.net)
    ensures Sound(app, s2) && Reaches(app, s, s2)
  {
    hide Sound, Reaches, OnVoteReply, Valid, CommitInLog;
    assert s.net + {} == s.net;
    OneStep(app, s, VoteBack(v, m, true, true), s2);
  }

  // ---------- steps of one server ----------

  /** One step that sends nothing. */
  lemma Alone(app: App, s: Cluster, l: Label, sv: Server) returns (s2: Cluster)
    requires Sound(app, s) && Enabled(app, s, l) && SafeStep(s, l) && Outcome(app, s, l) == (sv, {})
    ensures Sound(app, s2) && Reaches(app, s, s2) && s2.servers == s.servers[l.v := sv]
  {
    hide Sound, Reaches, Enabled, Outcome, SafeStep;
    s2 := Cluster(s.servers[l.v := sv], s.net);
    assert s.net + {} == s.net;
    OneStep(app, s, l, s2);
  }
}
