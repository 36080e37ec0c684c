/** A server whose log is not behind a quorum's can become leader from any
    cluster of a clean run. */
module RaftElect {
  import opened Wrappers
  import opened RaftTypes
  import opened RaftState
  import opened RaftNodeInvariant
  import opened RaftCluster
  import opened RaftHistory
  import opened RaftGhost
  import opened RaftPeers
  import opened RaftProgress
  import opened RaftReach

  // ---------- logs ----------

  predicate NotBehind(n: Node, f: Node) {
    && n.st.log != [] && f.st.log != []
    && UpToDate(TermAt(n.st, LastIndex(n.st)), LastIndex(n.st), TermAt(f.st, LastIndex(f.st)), LastIndex(f.st))
  }

  /** n2 has n's log, or n's log and more; its configuration and what it has applied are n's. */
  predicate Grew(n: Node, n2: Node) {
    && n2.id == n.id && n2.st.config == n.st.config && n2.peers.Keys == n.peers.Keys && n2.lastApplied == n.lastApplied
    && n2.commitIndex >= n.commitIndex && n2.currentTerm >= n.currentTerm
    && n2.st == n.st.(log := n2.st.log) && n.st.log <= n2.st.log
    && forall k :: |n.st.log| <= k < |n2.st.log| ==> n2.st.log[k].term >= n.currentTerm && n2.st.log[k].cmd.Noop?
  }

  lemma GrewTrans(a: Node, b: Node, c: Node)
    requires Grew(a, b) && Grew(b, c)
    ensures Grew(a, c)
  {
    forall k | |a.st.log| <= k < |c.st.log| ensures c.st.log[k].term >= a.currentTerm && c.st.log[k].cmd.Noop? {
      if k < |b.st.log| { assert c.st.log[k] == b.st.log[k]; }
    }
  }

  /** A longer log that ends in terms as late as any is still not behind. */
  lemma GrownNotBehind(n: Node, n2: Node, f: Node)
    requires Grew(n, n2) && NotBehind(n, f) && TermAt(n.st, LastIndex(n.st)) <= n.currentTerm
    ensures NotBehind(n2, f)
  {
    var last := |n2.st.log| - 1;
    if last < |n.st.log| { assert n2.st.log == n.st.log; }
  }

  lemma StandGrew(n: Node)
    ensures Grew(n, Stand(n))
  {
  }

  lemma LeadsGrew(n: Node, n2: Node)
    requires Valid(n) && NowLeads(n, n2) && n2.lastApplied == n.lastApplied
    ensures Grew(n, n2)
  {
  }

  // ---------- standing for election ----------

  ghost predicate Member(s: Cluster, v: NodeId) {
    v in s.servers && v in Ids(s.servers[v].n.st.config)
  }

  /** Server v is sv with another node now, which has grown; nobody else has changed. */
  ghost predicate Acted(s: Cluster, s2: Cluster, v: NodeId) {
    && v in s.servers && v in s2.servers
    && s2.servers == s.servers[v := s.servers[v].(n := s2.servers[v].n)] && Grew(s.servers[v].n, s2.servers[v].n)
  }

  /** v stands, or leads because it is a quorum alone. */
  ghost predicate Stands(n: Node) {
    n.role == Leader || (n.role == Candidate && n.ballot.votes == {n.id} && !Quorum(n.st.config, {n.id}))
  }

  lemma Campaign(app: App, s: Cluster, v: NodeId) returns (s2: Cluster)
    requires Sound(app, s) && Member(s, v)
    ensures Sound(app, s2) && Reaches(app, s, s2) && Acted(s, s2, v)
    ensures Stands(s2.servers[v].n) && s2.servers[v].n.currentTerm == s.servers[v].n.currentTerm + 1
  {
    hide Sound, Reaches, OnTimeout, Quorum;
    SoundServer(app, s, v);
    var sv := s.servers[v];
    var m := s;
    ReachesSelf(app, s);
    if sv.n.role == Leader {
      m := Alone(app, s, LoseQuorum(v), sv.(n := sv.n.(role := Follower)));
    }
    var n := sv.n.(role := if sv.n.role == Leader then Follower else sv.n.role);
    assert m.servers[v].n == n;
    TimeoutFacts(n);
    SoundServer(app, m, v);
    s2 := Alone(app, m, Timeout(v, false, true, true), sv.(n := OnTimeout(n, false, true, true)));
    ReachesTrans(app, s, m, s2);
  }

  lemma TimeoutFacts(n: Node)
    requires Valid(n) && n.id in Ids(n.st.config) && n.role != Leader
    ensures var n2 := OnTimeout(n, false, true, true);
      Stands(n2) && Grew(n, n2) && n2.currentTerm == n.currentTerm + 1
  {
    TimeoutStands(n);
    TimeoutApplied(n);
    StandGrew(n);
    hide OnTimeout, Quorum;
    var n2 := OnTimeout(n, false, true, true);
    if n2.role == Leader {
      LeadsGrew(Stand(n), n2);
      GrewTrans(n, Stand(n), n2);
    }
  }

  lemma TimeoutApplied(n: Node)
    requires CommitInLog(n)
    ensures OnTimeout(n, false, true, true).lastApplied == n.lastApplied
  {
    hide NewCommit, Tracked, Probed, Quorum;
  }

  /** v stands again and again until its term is beyond t. */
  lemma {:induction false} Raise(app: App, s: Cluster, v: NodeId, t: nat) returns (s2: Cluster)
    requires Sound(app, s) && Member(s, v)
    ensures Sound(app, s2) && Reaches(app, s, s2) && Acted(s, s2, v)
    ensures Stands(s2.servers[v].n) && s2.servers[v].n.currentTerm > t
    decreases t - s.servers[v].n.currentTerm
  {
    hide Sound, Reaches, Stands, Grew;
    s2 := Campaign(app, s, v);
    if s2.servers[v].n.currentTerm <= t {
      var m := s2;
      SameConfig(s.servers[v].n, m.servers[v].n);
      s2 := Raise(app, m, v, t);
      ReachesTrans(app, s, m, s2);
      GrewTrans(s.servers[v].n, m.servers[v].n, s2.servers[v].n);
    }
  }

  lemma SameConfig(n: Node, n2: Node)
    requires Grew(n, n2)
    ensures n2.st.config == n.st.config && n2.id == n.id && n2.currentTerm >= n.currentTerm && n2.peers.Keys == n.peers.Keys
  {
  }

  // ---------- collecting votes ----------

  /** A server of an earlier term votes for a candidate that is not behind it. */
  lemma Votes(n: Node, f: Node)
    requires Valid(n) && Valid(f) && f.currentTerm < n.currentTerm && NotBehind(n, f)
    ensures var (f2, r) := OnRequestVote(f, MakeVote(n), false, false, true);
      && r == VoteReply(n.currentTerm, true) && f2.currentTerm == n.currentTerm && f2.st == f.st
      && f2.commitIndex == f.commitIndex && f2.lastApplied == f.lastApplied
  {
  }

  /** Only its node has changed, which is now in term t, with its log, commit index and applied index as before. */
  ghost predicate Voted(sv: Server, sv2: Server, t: nat) {
    && sv2 == sv.(n := sv2.n) && sv2.n.currentTerm <= t && sv2.n.st == sv.n.st
    && sv2.n.commitIndex == sv.n.commitIndex && sv2.n.lastApplied == sv.n.lastApplied
  }

  /** The servers of q have voted, or have not been asked, and v has grown; nobody else has changed. */
  ghost predicate Polled(s: Cluster, s2: Cluster, v: NodeId, q: set<NodeId>) {
    && v in s.servers && s2.servers.Keys == s.servers.Keys
    && s2.servers[v] == s.servers[v].(n := s2.servers[v].n) && Grew(s.servers[v].n, s2.servers[v].n)
    && s2.servers[v].n.currentTerm == s.servers[v].n.currentTerm
    && (forall w {:trigger s2.servers[w]} :: w in s.servers && w != v ==>
          if w in q then Voted(s.servers[w], s2.servers[w], s2.servers[v].n.currentTerm) else s2.servers[w] == s.servers[w])
  }

  lemma PolledTrans(s: Cluster, m: Cluster, s2: Cluster, v: NodeId, q: set<NodeId>)
    requires Polled(s, m, v, q) && Polled(m, s2, v, q)
    ensures Polled(s, s2, v, q)
  {
    GrewTrans(s.servers[v].n, m.servers[v].n, s2.servers[v].n);
    hide Grew;
    forall w | w in s.servers && w != v
      ensures if w in q then Voted(s.servers[w], s2.servers[w], s2.servers[v].n.currentTerm) else s2.servers[w] == s.servers[w]
    {
      assert m.servers[w] == m.servers[w];
    }
  }

  /** v still lacks only the votes of `todo`, whose servers are of earlier terms and not ahead of it. */
  ghost predicate Polling(s: Cluster, v: NodeId, q: set<NodeId>, todo: set<NodeId>) {
    && Member(s, v) && v in q && v !in todo && todo <= q && q <= s.servers.Keys
    && var n := s.servers[v].n;
    && n.role == Candidate && q - todo <= n.ballot.votes && !Quorum(n.st.config, n.ballot.votes) && Quorum(n.st.config, q)
    && (forall w {:trigger s.servers[w]} :: w in q ==> s.servers[w].n.currentTerm <= n.currentTerm)
    && forall w :: w in todo ==> s.servers[w].n.currentTerm < n.currentTerm && NotBehind(n, s.servers[w].n)
  }

  lemma QuorumGrows(m: Membership, p: set<NodeId>, q: set<NodeId>)
    requires p <= q && Quorum(m, p)
    ensures Quorum(m, q)
  {
    CountGrows(m, p, q);
  }

  lemma {:induction false} CountGrows(m: Membership, p: set<NodeId>, q: set<NodeId>)
    requires p <= q
    ensures CountIn(m, p) <= CountIn(m, q)
  {
    if m != [] { CountGrows(m[..|m| - 1], p, q); }
  }

  /** One vote: v leads, or has one vote more. */
  lemma Ask(app: App, s: Cluster, v: NodeId, q: set<NodeId>, todo: set<NodeId>, w: NodeId) returns (s2: Cluster)
    requires Sound(app, s) && Polling(s, v, q, todo) && w in todo
    ensures Sound(app, s2) && Reaches(app, s, s2) && Polled(s, s2, v, q)
    ensures s2.servers[v].n.role == Leader || Polling(s2, v, q, todo - {w})
  {
    s2 := ExchangeVote(app, s, v, w);
    SoundServer(app, s, v);
    hide Sound, Reaches, OnRequestVote, OnVoteReply, MakeVote, Quorum, NotBehind, Valid;
    var n, f := s.servers[v].n, s.servers[w].n;
    VoteArgsIs(n);
    Votes(n, f);
    var a, r := MakeVote(n), OnRequestVote(f, MakeVote(n), false, false, true).1;
    var n2 := OnVoteReply(n, w, a, r, true);
    VoteGrew(n, w, a, r);
    Asked(s, s2, v, q, todo, w, n2, OnRequestVote(f, a, false, false, true).0);
  }

  lemma VoteArgsIs(n: Node)
    requires Valid(n)
    ensures MakeVote(n).term == n.currentTerm && CommitInLog(n)
  {
  }

  lemma VoteGrew(n: Node, w: NodeId, a: VoteArgs, r: VoteReply)
    requires Valid(n) && n.id in Ids(n.st.config) && n.role == Candidate && n.currentTerm == a.term
    requires r == VoteReply(n.currentTerm, true)
    ensures var n2 := OnVoteReply(n, w, a, r, true);
      && Grew(n, n2) && n2.currentTerm == n.currentTerm
      && if Quorum(n.st.config, n.ballot.votes + {w}) then n2.role == Leader
         else n2 == n.(ballot := n.ballot.(votes := n.ballot.votes + {w}))
  {
    QuorumLeads(n, w, a, r);
    VoteApplied(n, w, a, r);
    hide OnVoteReply, Quorum;
    var n2 := OnVoteReply(n, w, a, r, true);
    if Quorum(n.st.config, n.ballot.votes + {w}) { LeadsGrew(n, n2); }
  }

  lemma VoteApplied(n: Node, w: NodeId, a: VoteArgs, r: VoteReply)
    requires CommitInLog(n)
    ensures OnVoteReply(n, w, a, r, true).lastApplied == n.lastApplied
  {
    hide NewCommit, Tracked, Probed, Quorum;
  }

  lemma Asked(s: Cluster, s2: Cluster, v: NodeId, q: set<NodeId>, todo: set<NodeId>, w: NodeId, n2: Node, f2: Node)
    requires Polling(s, v, q, todo) && w in todo && w in s.servers
    requires s2.servers == s.servers[w := s.servers[w].(n := f2)][v := s.servers[v].(n := n2)]
    requires Grew(s.servers[v].n, n2) && n2.currentTerm == s.servers[v].n.currentTerm
    requires Voted(s.servers[w], s.servers[w].(n := f2), n2.currentTerm)
    requires var n := s.servers[v].n;
      if Quorum(n.st.config, n.ballot.votes + {w}) then n2.role == Leader
      else n2 == n.(ballot := n.ballot.(votes := n.ballot.votes + {w}))
    ensures Polled(s, s2, v, q) && (s2.servers[v].n.role == Leader || Polling(s2, v, q, todo - {w}))
  {
    hide Quorum, Grew, UpToDate;
    assert s2.servers.Keys == s.servers.Keys;
    assert s2.servers[v].n == n2 && s2.servers[w].n == f2;
    assert Polled(s, s2, v, q);
    if n2.role != Leader {
      assert Member(s2, v);
      assert q - (todo - {w}) <= n2.ballot.votes;
      forall x | x in todo - {w} ensures s2.servers[x] == s.servers[x] {
      }
    }
  }

  lemma {:induction false} Poll(app: App, s: Cluster, v: NodeId, q: set<NodeId>, todo: set<NodeId>) returns (s2: Cluster)
    requires Sound(app, s) && Polling(s, v, q, todo)
    ensures Sound(app, s2) && Reaches(app, s, s2) && Polled(s, s2, v, q) && s2.servers[v].n.role == Leader
    decreases todo
  {
    hide Sound, Reaches, Polled;
    if todo == {} {
      QuorumGrows(s.servers[v].n.st.config, q, s.servers[v].n.ballot.votes);
      assert false;
    } else {
      var w :| w in todo;
      s2 := Ask(app, s, v, q, todo, w);
      PolledKeys(s, s2, v, q);
      if s2.servers[v].n.role != Leader {
        var m := s2;
        s2 := Poll(app, m, v, q, todo - {w});
        ReachesTrans(app, s, m, s2);
        PolledTrans(s, m, s2, v, q);
      }
    }
  }

  lemma PolledKeys(s: Cluster, s2: Cluster, v: NodeId, q: set<NodeId>)
    requires Polled(s, s2, v, q)
    ensures v in s.servers && s2.servers.Keys == s.servers.Keys
  {
  }

  // ---------- a whole election ----------

  /** The servers of q are members in v's configuration and a quorum of it. */
  ghost predicate Enough(s: Cluster, v: NodeId, q: set<NodeId>) {
    && v in q && q <= s.servers.Keys
    && q <= Ids(s.servers[v].n.st.config) && Quorum(s.servers[v].n.st.config, q)
  }

  /** v's log is not behind that of any of q. */
  ghost predicate Ahead(s: Cluster, v: NodeId, q: set<NodeId>) {
    v in q && q <= s.servers.Keys && forall w {:trigger s.servers[w]} :: w in q ==> NotBehind(s.servers[v].n, s.servers[w].n)
  }

  /** v leads, and the servers of q are in no later term. */
  ghost predicate Led(s: Cluster, v: NodeId, q: set<NodeId>) {
    && Enough(s, v, q) && s.servers[v].n.role == Leader && q - {v} <= s.servers[v].n.peers.Keys
    && forall w {:trigger s.servers[w]} :: w in q ==> s.servers[w].n.currentTerm <= s.servers[v].n.currentTerm
  }

  /** Among any servers there is one whose log is not behind any of the others. */
  lemma {:induction false} SomeoneIsAhead(app: App, s: Cluster, q: set<NodeId>) returns (v: NodeId)
    requires Sound(app, s) && q != {} && q <= s.servers.Keys
    ensures Ahead(s, v, q)
    decreases q
  {
    hide Sound;
    var x :| x in q;
    v := x;
    HasLog(app, s, x);
    if q != {x} {
      var y := SomeoneIsAhead(app, s, q - {x});
      HasLog(app, s, y);
      if NotBehind(s.servers[y].n, s.servers[x].n) { v := y; }
      forall w | w in q ensures NotBehind(s.servers[v].n, s.servers[w].n) {
        assert w == x || w in q - {x};
      }
    }
  }

  lemma HasLog(app: App, s: Cluster, v: NodeId)
    requires Sound(app, s) && v in s.servers
    ensures s.servers[v].n.st.log != [] && TermAt(s.servers[v].n.st, LastIndex(s.servers[v].n.st)) <= s.servers[v].n.currentTerm
  {
    var g :| CInv(app, s, g);
    assert ServerOk(app, g, v, s.servers[v]);
    assert LogOk(g.h, v);
    RepFacts(s.servers[v].n.st, g.h.log[v]);
  }

  lemma {:induction false} TermBound(s: Cluster, q: set<NodeId>) returns (t: nat)
    requires q <= s.servers.Keys
    ensures forall w {:trigger s.servers[w]} :: w in q ==> s.servers[w].n.currentTerm <= t
    decreases q
  {
    t := 0;
    if q != {} {
      var x :| x in q;
      t := TermBound(s, q - {x});
      if t < s.servers[x].n.currentTerm { t := s.servers[x].n.currentTerm; }
      forall w | w in q ensures s.servers[w].n.currentTerm <= t {
        assert w == x || w in q - {x};
      }
    }
  }

  /** v stands in a term beyond all of q's; it leads already, or lacks the votes of the others. */
  lemma Raised(app: App, s: Cluster, s2: Cluster, v: NodeId, q: set<NodeId>, t: nat)
    requires Sound(app, s) && Enough(s, v, q) && Ahead(s, v, q) && Acted(s, s2, v) && Stands(s2.servers[v].n)
    requires s2.servers[v].n.currentTerm > t && s.servers[v].n.id == v
    requires forall w {:trigger s.servers[w]} :: w in q ==> s.servers[w].n.currentTerm <= t
    ensures Polled(s2, s2, v, q) && (s2.servers[v].n.role == Leader || Polling(s2, v, q, q - {v}))
  {
    HasLog(app, s, v);
    hide Sound, Quorum, UpToDate;
    var n, n2 := s.servers[v].n, s2.servers[v].n;
    forall w | w in q - {v} ensures s2.servers[w] == s.servers[w] && NotBehind(n2, s2.servers[w].n) {
      GrownNotBehind(n, n2, s.servers[w].n);
    }
  }

  /** The servers of q have voted, or have not been asked; v has grown and may be in a later term. */
  ghost predicate Elected(s: Cluster, s2: Cluster, v: NodeId, q: set<NodeId>) {
    && v in s.servers && s2.servers.Keys == s.servers.Keys
    && s2.servers[v] == s.servers[v].(n := s2.servers[v].n) && Grew(s.servers[v].n, s2.servers[v].n)
    && forall w {:trigger s2.servers[w]} :: w in s.servers && w !in q ==> s2.servers[w] == s.servers[w]
  }

  lemma AfterPoll(app: App, s: Cluster, m: Cluster, s2: Cluster, v: NodeId, q: set<NodeId>, t: nat)
    requires Sound(app, s2) && Enough(s, v, q) && Acted(s, m, v) && Polled(m, s2, v, q) && s2.servers[v].n.role == Leader
    requires m.servers[v].n.currentTerm > t
    requires forall w {:trigger s.servers[w]} :: w in q ==> s.servers[w].n.currentTerm <= t
    ensures Elected(s, s2, v, q) && Led(s2, v, q)
  {
    GrewTrans(s.servers[v].n, m.servers[v].n, s2.servers[v].n);
    SameConfig(s.servers[v].n, m.servers[v].n);
    SameConfig(s.servers[v].n, s2.servers[v].n);
    SoundServer(app, s2, v);
    hide Sound, Quorum, Grew;
    forall w | w in q ensures s2.servers[w].n.currentTerm <= s2.servers[v].n.currentTerm {
      if w != v { assert m.servers[w] == s.servers[w]; }
    }
    forall w | w in s.servers && w !in q ensures s2.servers[w] == s.servers[w] {
      assert m.servers[w] == s.servers[w];
    }
  }

  /** With a quorum up, a server whose log is not behind theirs can become leader,
      whatever terms they are in and whatever votes they have cast. */
  lemma Elect(app: App, s: Cluster, v: NodeId, q: set<NodeId>) returns (s2: Cluster)
    requires Sound(app, s) && Enough(s, v, q) && Ahead(s, v, q)
    ensures Sound(app, s2) && Reaches(app, s, s2) && Elected(s, s2, v, q) && Led(s2, v, q)
  {
    hide Sound, Reaches, Stands, Polled, Polling, Ahead;
    SoundServer(app, s, v);
    var t := TermBound(s, q);
    var m := Raise(app, s, v, t);
    Raised(app, s, m, v, q, t);
    if m.servers[v].n.role == Leader {
      s2 := m;
    } else {
      s2 := Poll(app, m, v, q, q - {v});
      ReachesTrans(app, s, m, s2);
    }
    AfterPoll(app, s, m, s2, v, q, t);
  }
}
