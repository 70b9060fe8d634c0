/**
 The cluster is never beyond help: from every reachable state, whatever has been lost, and with only the
 servers of some majority taking part, there is a way on in which a command is committed and handed to the
 service of every one of them.
 */
module RaftProgress {
  import opened RaftTypes
  import opened RaftNode
  import opened RaftCluster
  import RaftRefinement
  import opened RaftSafety
  import opened RaftSteps
  import opened RaftProbe
  import opened RaftCommit
  import A = RaftAnswers
  import RaftVotes

  // ----- Choosing whom to elect ----------------------------------------------------------------

  /** The end of a's log is at least as up to date as that of b's. */
  predicate Ahead(a: Node, b: Node)
    requires |a.logs| >= 1 && |b.logs| >= 1
  {
    a.LastTerm() > b.LastTerm() || (a.LastTerm() == b.LastTerm() && a.Last() >= b.Last())
  }

  ghost predicate Present(c: Cluster, q: set<NodeId>) {
    forall v :: v in q ==> v < |c.nodes| && |c.nodes[v].logs| >= 1
  }

  lemma {:induction false} MostUpToDate(c: Cluster, q: set<NodeId>) returns (i: NodeId, t: nat)
    requires q != {} && Present(c, q)
    ensures i in q && forall v :: v in q ==> Ahead(c.nodes[i], c.nodes[v]) && c.nodes[v].term <= t
    decreases |q|
  {
    var x: NodeId :| x in q;
    i, t := x, c.nodes[x].term;
    if q != {x} {
      assert q == (q - {x}) + {x};
      var y, u := MostUpToDate(c, q - {x});
      i := if Ahead(c.nodes[x], c.nodes[y]) then x else y;
      t := Max(t, u);
    }
  }

  // ----- The election --------------------------------------------------------------------------

  /** The node has the same log, snapshot, commit index and applied index. */
  predicate SameData(n: Node, m: Node) {
    && m.logs == n.logs && m.snapshotIndex == n.snapshotIndex && m.snapshot == n.snapshot
    && m.commitIndex == n.commitIndex && m.appliedIndex == n.appliedIndex
  }

  /** A leader that has not heard from anybody yet. */
  predicate FreshLeader(n: Node, peers: nat) {
    n.role == Leader && n.matchIndex == Repeat(0, peers)
  }

  /** Server i asks for votes in term t, has got those outside `left`, and still waits for those in it. */
  ghost predicate Campaign(c0: Cluster, c: Cluster, i: NodeId, args: VoteArgs, q: set<NodeId>, left: set<NodeId>) {
    && Accounted(c) && |c.nodes| == |c0.nodes| && i in q && q <= Ids(|c.nodes|) && left <= q - {i}
    && args.candidate == i && c.nodes[i].term == args.term
    && (forall v: nat :: v < |c.nodes| ==> SameData(c0.nodes[v], c.nodes[v]))
    && (c.nodes[i].role == Candidate ==> c.nodes[i].voteCount == |q| - |left| <= |c.nodes| / 2)
    && (c.nodes[i].role == Candidate || FreshLeader(c.nodes[i], |c.nodes|))
    && (forall v :: v in left ==> Willing(c, i, args, v))
    && (forall v :: v in q && v !in left ==> c.nodes[v].term == args.term)
  }

  /** Server v has been asked and will grant its vote. */
  predicate Willing(c: Cluster, i: NodeId, args: VoteArgs, v: NodeId) {
    && v < |c.nodes| && |c.nodes[v].logs| >= 1 && c.nodes[v].term < args.term
    && (args.lastLogTerm > c.nodes[v].LastTerm() ||
        (args.lastLogTerm == c.nodes[v].LastTerm() && args.lastLogIndex >= c.nodes[v].Last()))
    && VoteRequest(v, args) in c.net && Call(i, args.term, v) in c.calls
  }

  lemma WillingGrants(n: Node, args: VoteArgs)
    requires |n.logs| >= 1 && n.term < args.term
    requires args.lastLogTerm > n.LastTerm() || (args.lastLogTerm == n.LastTerm() && args.lastLogIndex >= n.Last())
    ensures var o := HandleVote(n, args);
            o.reply == VoteReply(args.term, true) && o.node.term == args.term && SameData(n, o.node)
  {
  }

  lemma CountedVote(n: Node, me: NodeId, peers: nat, args: VoteArgs)
    requires |n.logs| >= 1 && n.term == args.term && (n.role == Candidate || FreshLeader(n, peers))
    ensures var m := HandleVoteReply(n, me, peers, args, VoteReply(args.term, true));
            && m.term == n.term && SameData(n, m)
            && (m.role == Candidate ==> n.role == Candidate && m.voteCount == n.voteCount + 1 <= peers / 2)
            && (m.role == Candidate || FreshLeader(m, peers))
  {
  }

  /** One more server votes and its vote is counted. */
  lemma OneVote(a: Cluster, c0: Cluster, c: Cluster, i: NodeId, args: VoteArgs, q: set<NodeId>, left: set<NodeId>, v: NodeId)
    returns (c': Cluster)
    requires Leads(a, c) && Campaign(c0, c, i, args, q, left) && v in left
    ensures Leads(a, c') && Campaign(c0, c', i, args, q, left - {v})
  {
    hide Leads, Accounted, HandleVote, HandleVoteReply;
    assert Willing(c, i, args, v);
    WillingGrants(c.nodes[v], args);
    var c1 := Votes(a, c, v, args);
    InOrderNode(c1, i);
    CountedVote(c1.nodes[i], i, |c.nodes|, args);
    c' := Counts(a, c1, i, v, args, VoteReply(args.term, true));
    forall u | u in left - {v}
      ensures Willing(c', i, args, u)
    {
      assert Willing(c, i, args, u);
    }
  }

  lemma {:induction false} AllVote(a: Cluster, c0: Cluster, c: Cluster, i: NodeId, args: VoteArgs, q: set<NodeId>, left: set<NodeId>)
    returns (c': Cluster)
    requires Leads(a, c) && Campaign(c0, c, i, args, q, left)
    ensures Leads(a, c') && Campaign(c0, c', i, args, q, {})
    decreases |left|
  {
    hide Leads, Campaign;
    c' := c;
    if left != {} {
      var v: NodeId :| v in left;
      var c1 := OneVote(a, c0, c, i, args, q, left, v);
      c' := AllVote(a, c0, c1, i, args, q, left - {v});
    }
  }

  /** Server i puts itself beyond all terms of q and asks for votes. */
  lemma Opens(a: Cluster, c: Cluster, i: NodeId, q: set<NodeId>, top: nat) returns (c': Cluster, args: VoteArgs)
    requires Leads(a, c) && Accounted(c) && Majority(q, |c.nodes|) && |q| >= 2 && i in q && Present(c, q)
    requires forall v :: v in q ==> Ahead(c.nodes[i], c.nodes[v]) && c.nodes[v].term <= top
    ensures Leads(a, c') && Campaign(c, c', i, args, q, q - {i}) && args.term == top + 2
  {
    hide Leads, Accounted, Majority, BeginElection, Meet;
    assert forall v :: v in q ==> v < |c.nodes|;
    MeetsRole(c.nodes[i], top + 1);
    var c1 := Adopts(a, c, i, top + 1);
    c' := Stands(a, c1, i);
    var n := c'.nodes[i];
    Candidacy(c.nodes[i], i, top + 1);
    args := VoteRound(n, i);
    TwoOfMajority(q, |c.nodes|, i);
    forall v | v in q - {i}
      ensures Willing(c', i, args, v)
    {
      assert Ahead(c.nodes[i], c.nodes[v]) && c'.nodes[v] == c.nodes[v];
      assert VoteRequest(v, args) in c'.net && Call(i, args.term, v) in c'.calls;
    }
  }

  lemma MeetsRole(n: Node, t: nat)
    requires n.term < t
    ensures Meet(n, t).role == Follower && Meet(n, t).term == t
  {
  }

  lemma Candidacy(n: Node, i: NodeId, t: nat)
    requires |n.logs| >= 1 && n.term < t
    ensures var m := BeginElection(Meet(n, t), i);
            && SameData(n, m) && m.role == Candidate && m.voteCount == 1 && m.term == t + 1
            && VoteRound(m, i) == VoteArgs(t + 1, i, n.Last(), n.LastTerm())
  {
  }

  lemma TwoOfMajority(q: set<NodeId>, n: nat, i: NodeId)
    requires Majority(q, n) && |q| >= 2 && i in q
    ensures q <= Ids(n) && |q - {i}| == |q| - 1 && 1 <= n / 2
  {
    SubsetSize(q, Ids(n));
  }

  /** A majority can elect the most up to date of its servers. */
  lemma CanElect(a: Cluster, c: Cluster, q: set<NodeId>) returns (c': Cluster, i: NodeId)
    requires Leads(a, c) && Accounted(c) && Majority(q, |c.nodes|) && |q| >= 2
    ensures Leads(a, c') && Accounted(c') && |c'.nodes| == |c.nodes| && i in q && i < |c.nodes| && FreshLeader(c'.nodes[i], |c.nodes|)
    ensures forall v :: v in q ==> v < |c.nodes| && c'.nodes[v].term == c'.nodes[i].term
  {
    hide Leads, Accounted;
    forall v | v in q
      ensures v < |c.nodes| && |c.nodes[v].logs| >= 1
    {
      InOrderNode(c, v);
    }
    var top: nat;
    i, top := MostUpToDate(c, q);
    var c1, args := Opens(a, c, i, q, top);
    c' := AllVote(a, c, c1, i, args, q, q - {i});
  }

  // ----- Rounds --------------------------------------------------------------------------------

  /** A round touches what the leader knows of this follower, its commit index, and the follower. */
  lemma RoundFrame(p: Pair, me: NodeId, peer: NodeId)
    requires Probing(p, peer)
    ensures var q, l, f := Round(p, me, peer), p.leader, p.follower;
            && |q.leader.matchIndex| == |l.matchIndex| && |q.leader.nextIndex| == |l.nextIndex|
            && q.leader == l.(matchIndex := l.matchIndex[peer := q.leader.matchIndex[peer]],
                              nextIndex := l.nextIndex[peer := q.leader.nextIndex[peer]], commitIndex := q.leader.commitIndex)
            && (q.leader.matchIndex[peer] != l.matchIndex[peer] ==> q.leader.nextIndex[peer] == q.leader.matchIndex[peer] + 1)
            && q.follower.term == l.term && q.follower.appliedIndex == f.appliedIndex
            && (q.follower.snapshotIndex == f.snapshotIndex || q.follower.snapshotIndex == l.snapshotIndex)
  {
    hide LeaderCommit, AppendTrail, FirstMissing, BeforeRun;
    AnswerFrame(p.follower, HeartbeatFor(p.leader, me, peer));
    assert p.leader.matchIndex[peer := p.leader.matchIndex[peer]] == p.leader.matchIndex;
    assert p.leader.nextIndex[peer := p.leader.nextIndex[peer]] == p.leader.nextIndex;
  }

  lemma AnswerFrame(f: Node, args: AppendArgs)
    requires |f.logs| >= 1 && f.term <= args.term
    ensures var o := HandleAppend(f, args);
            && o.reply.term == o.node.term == args.term && o.node.appliedIndex == f.appliedIndex
            && (o.node.snapshotIndex == f.snapshotIndex || o.node.snapshotIndex == args.snapshotIndex)
  {
    hide AppendTrail, FirstMissing, BeforeRun;
  }

  lemma {:induction false} RoundsFrame(p: Pair, me: NodeId, peer: NodeId, k: nat, q: Pair)
    requires Probing(p, peer) && Reaches(p, me, peer, k, q)
    ensures var l, f := p.leader, p.follower;
            && |q.leader.matchIndex| == |l.matchIndex| && |q.leader.nextIndex| == |l.nextIndex|
            && q.leader == l.(matchIndex := l.matchIndex[peer := q.leader.matchIndex[peer]],
                              nextIndex := l.nextIndex[peer := q.leader.nextIndex[peer]], commitIndex := q.leader.commitIndex)
            && (k > 0 && q.leader.matchIndex[peer] == l.Last() ==> q.leader.nextIndex[peer] == l.Last() + 1)
            && (k > 0 ==> q.follower.term == l.term) && q.follower.appliedIndex == f.appliedIndex
            && (q.follower.snapshotIndex == f.snapshotIndex || q.follower.snapshotIndex == l.snapshotIndex)
    decreases k
  {
    hide Round;
    if k > 0 {
      RoundFrame(p, me, peer);
      var p1 := Round(p, me, peer);
      if k > 1 {
        RoundsFrame(p1, me, peer, k - 1, q);
      }
    } else {
      assert p.leader.matchIndex[peer := p.leader.matchIndex[peer]] == p.leader.matchIndex;
      assert p.leader.nextIndex[peer := p.leader.nextIndex[peer]] == p.leader.nextIndex;
    }
  }

  /** A round between two servers of the cluster. */
  lemma PlaysRound(a: Cluster, c: Cluster, i: NodeId, j: NodeId) returns (c': Cluster)
    requires Leads(a, c) && Accounted(c) && i < |c.nodes| && j < |c.nodes| && i != j && Probing(Pair(c.nodes[i], c.nodes[j]), j)
    ensures var q := Round(Pair(c.nodes[i], c.nodes[j]), i, j);
            Leads(a, c') && Accounted(c') && c'.nodes == c.nodes[i := q.leader][j := q.follower] && c'.delivered == c.delivered
  {
    hide Leads, Accounted, HandleAppend, HandleAppendReply;
    var c1 := Beats(a, c, i, j);
    var args := HeartbeatFor(c.nodes[i], i, j);
    var c2 := Hears(a, c1, j, args);
    c' := Learns(a, c2, i, j, args, HandleAppend(c.nodes[j], args).reply);
  }

  lemma {:induction false} PlaysRounds(a: Cluster, c: Cluster, i: NodeId, j: NodeId, k: nat, q: Pair) returns (c': Cluster)
    requires Leads(a, c) && Accounted(c) && i < |c.nodes| && j < |c.nodes| && i != j
    requires Reaches(Pair(c.nodes[i], c.nodes[j]), i, j, k, q)
    ensures Leads(a, c') && Accounted(c') && c'.nodes == c.nodes[i := q.leader][j := q.follower] && c'.delivered == c.delivered
    decreases k
  {
    hide Leads, Accounted, Round, Probing;
    if k == 0 {
      c' := c;
    } else {
      var c1 := PlaysRound(a, c, i, j);
      c' := PlaysRounds(a, c1, i, j, k - 1, q);
      assert c1.nodes[i := q.leader][j := q.follower] == c.nodes[i := q.leader][j := q.follower];
    }
  }

  // ----- Replication ---------------------------------------------------------------------------

  /** The server has room for index x: it has neither compacted nor applied it. */
  predicate Below(n: Node, x: nat) {
    n.snapshotIndex < x && n.appliedIndex < x
  }

  /** Server i leads, its last entry is the command, at x; the servers in `left` have still to be brought up to it. */
  ghost predicate Replicating(c: Cluster, i: NodeId, q: set<NodeId>, left: set<NodeId>, x: nat, command: Bytes) {
    && Accounted(c) && Majority(q, |c.nodes|) && i in q && left <= q - {i} && i < |c.nodes|
    && var l := c.nodes[i];
       && l.Valid(|c.nodes|) && l.role == Leader && l.Last() == x >= 1 && Below(l, x) && l.At(x) == Entry(command, l.term)
       && (forall v :: v in q ==> v < |c.nodes| && Below(c.nodes[v], x) && c.nodes[v].term <= l.term)
       && (forall v :: v in left ==> l.matchIndex[v] == 0)
       && (forall v :: v in q - {i} - left ==> l.matchIndex[v] == x && l.nextIndex[v] == x + 1)
  }

  lemma PairReady(c: Cluster, i: NodeId, j: NodeId)
    requires Accounted(c) && i < |c.nodes| && j < |c.nodes| && c.nodes[i].role == Leader && c.nodes[j].term <= c.nodes[i].term
    ensures var p := Pair(c.nodes[i], c.nodes[j]); Probing(p, j) && Rooted(p)
    ensures c.nodes[j].snapshotIndex <= c.nodes[j].commitIndex <= c.nodes[i].Last() && c.nodes[j].appliedIndex <= c.nodes[j].commitIndex
  {
    hide Related;
    var s :| Related(c, s);
    ReachablePair(c, s, i, j);
    InOrderNode(c, j);
  }

  /** One more follower is brought up to the end of the leader's log. */
  lemma BringUp(a: Cluster, c: Cluster, i: NodeId, q: set<NodeId>, left: set<NodeId>, x: nat, command: Bytes, v: NodeId)
    returns (c': Cluster)
    requires Leads(a, c) && Replicating(c, i, q, left, x, command) && v in left
    ensures Leads(a, c') && Replicating(c', i, q, left - {v}, x, command)
  {
    hide Leads, Accounted, Majority, Reaches, Rooted, TermRuns;
    PairReady(c, i, v);
    var p := Pair(c.nodes[i], c.nodes[v]);
    var k, r := ProbeConverges(p, i, v);
    RoundsFrame(p, i, v, k, r);
    NotYet(p, i, v, k, r);
    c' := PlaysRounds(a, c, i, v, k, r);
    forall u | u in q
      ensures u < |c'.nodes| && Below(c'.nodes[u], x) && c'.nodes[u].term <= c'.nodes[i].term
    {
      assert Below(c.nodes[u], x);
    }
    forall u | u in q - {i} - (left - {v})
      ensures c'.nodes[i].matchIndex[u] == x && c'.nodes[i].nextIndex[u] == x + 1
    {
      assert u == v || u in q - {i} - left;
    }
  }

  lemma NotYet(p: Pair, me: NodeId, peer: NodeId, k: nat, q: Pair)
    requires Probing(p, peer) && Reaches(p, me, peer, k, q) && Probing(q, peer)
    requires p.leader.matchIndex[peer] == 0 < p.leader.Last() == q.leader.matchIndex[peer]
    ensures k > 0
  {
  }

  lemma {:induction false} BringAllUp(a: Cluster, c: Cluster, i: NodeId, q: set<NodeId>, left: set<NodeId>, x: nat, command: Bytes)
    returns (c': Cluster)
    requires Leads(a, c) && Replicating(c, i, q, left, x, command)
    ensures Leads(a, c') && Replicating(c', i, q, {}, x, command)
    decreases |left|
  {
    hide Leads, Replicating;
    c' := c;
    if left != {} {
      var v: NodeId :| v in left;
      var c1 := BringUp(a, c, i, q, left, x, command, v);
      c' := BringAllUp(a, c1, i, q, left - {v}, x, command);
    }
  }

  // ----- Commitment ----------------------------------------------------------------------------

  /** All of q hold the command; those outside `left` have committed it. */
  ghost predicate Settling(c: Cluster, i: NodeId, q: set<NodeId>, left: set<NodeId>, x: nat, command: Bytes) {
    && Replicating(c, i, q, {}, x, command) && left <= q
    && forall v :: v in q - left ==> c.nodes[v].commitIndex >= x
  }

  lemma MatchedPair(c: Cluster, i: NodeId, v: NodeId) returns (ll: Log, lf: Log)
    requires Accounted(c) && i < |c.nodes| && v < |c.nodes| && c.nodes[i].role == Leader && c.nodes[v].term <= c.nodes[i].term
    requires |c.nodes[i].logs| >= 1 && v < |c.nodes[i].matchIndex| && c.nodes[i].matchIndex[v] == c.nodes[i].Last()
    ensures Holds(Pair(c.nodes[i], c.nodes[v]), v, ll, lf)
  {
    hide Related;
    var s :| Related(c, s);
    MatchedHolds(c, s, i, v);
    ll, lf := s.servers[i].log, s.servers[v].log;
  }

  /** A round at the end of the log: the leader hears of success and commits, the follower learns what was committed. */
  lemma EndRound(p: Pair, me: NodeId, peer: NodeId, ll: Log, lf: Log, q: set<NodeId>)
    requires Holds(p, peer, ll, lf) && p.leader.nextIndex[peer] == p.leader.Last() + 1
    requires me < |p.leader.matchIndex| && Majority(q, |p.leader.matchIndex|) && me in q && me != peer
    requires A.KnownHolders(p.leader, me, q, p.leader.Last()) && p.leader.LastTerm() == p.leader.term
    ensures var r, l, f := Round(p, me, peer), p.leader, p.follower;
            && r.leader == l.(commitIndex := l.Last())
            && r.follower.snapshotIndex == f.snapshotIndex && r.follower.appliedIndex == f.appliedIndex
            && r.follower.term == l.term && r.follower.commitIndex >= l.commitIndex
  {
    hide HandleAppend, HandleAppendReply, RaftRefinement.View, HeartbeatFor;
    var l, r := p.leader, Round(p, me, peer);
    ProbeHit(p, me, peer, ll, lf);
    EndBeat(l, me, peer);
    Recognised(p.follower, HeartbeatFor(l, me, peer));
    EndAnswer(l, me, peer, HeartbeatFor(l, me, peer), q);
  }

  lemma Recognised(f: Node, args: AppendArgs)
    requires f.term <= args.term
    ensures var m := Recognise(f, args);
            m.snapshotIndex == f.snapshotIndex && m.appliedIndex == f.appliedIndex && m.term == args.term && m.logs == f.logs
  {
  }

  lemma EndBeat(l: Node, me: NodeId, peer: NodeId)
    requires l.Valid(|l.matchIndex|) && peer < |l.nextIndex| && l.nextIndex[peer] == l.Last() + 1 && (l.snapshotIndex > 0 ==> l.snapshot != [])
    ensures var args := HeartbeatFor(l, me, peer);
            args.term == l.term && args.snapshot == [] && args.prevLogIndex == l.Last() && args.entries == [] && args.leader == me
  {
  }

  lemma EndAnswer(l: Node, me: NodeId, peer: NodeId, sent: AppendArgs, q: set<NodeId>)
    requires l.Valid(|l.matchIndex|) && me < |l.matchIndex| && peer < |l.matchIndex| && l.role == Leader && l.commitIndex <= l.Last()
    requires l.matchIndex[peer] == l.Last() && l.nextIndex[peer] == l.Last() + 1 && l.LastTerm() == l.term
    requires sent.term == l.term && NewMatch(sent) == l.Last()
    requires Majority(q, |l.matchIndex|) && me in q && A.KnownHolders(l, me, q, l.Last())
    ensures HandleAppendReply(l, me, peer, sent, AppendReply(l.term, true, 0)) == l.(commitIndex := l.Last())
  {
    var reply := AppendReply(l.term, true, 0);
    var n := HandleAppendReply(l, me, peer, sent, reply);
    assert l.matchIndex[peer := l.Last()] == l.matchIndex && l.nextIndex[peer := l.Last() + 1] == l.nextIndex;
    if l.commitIndex < l.Last() {
      assert A.KnownHolders(n, me, q, l.Last());
      assert A.HeldByMajority(n, me, l.Last());
      A.CommitsExactly(l, me, peer, sent, reply, l.Last());
    }
  }

  /** The leader commits the command. */
  lemma LeaderCommits(a: Cluster, c: Cluster, i: NodeId, q: set<NodeId>, x: nat, command: Bytes, v: NodeId) returns (c': Cluster)
    requires Leads(a, c) && Replicating(c, i, q, {}, x, command) && v in q - {i}
    ensures Leads(a, c') && Settling(c', i, q, q - {i}, x, command)
  {
    hide Leads, Accounted, Majority, Holds, Round, Probing;
    c' := EndPlay(a, c, i, q, x, command, v);
  }

  /** Once the leader has committed the command, a round commits it at the follower. */
  lemma FollowerCommits(a: Cluster, c: Cluster, i: NodeId, q: set<NodeId>, left: set<NodeId>, x: nat, command: Bytes, v: NodeId)
    returns (c': Cluster)
    requires Leads(a, c) && Settling(c, i, q, left, x, command) && i !in left && v in left
    ensures Leads(a, c') && Settling(c', i, q, left - {v}, x, command)
  {
    hide Leads, Accounted, Majority, Replicating;
    InQuorum(c, i, q, x, command);
    assert i in q - left;
    c' := EndPlay(a, c, i, q, x, command, v);
  }

  lemma InQuorum(c: Cluster, i: NodeId, q: set<NodeId>, x: nat, command: Bytes)
    requires Replicating(c, i, q, {}, x, command)
    ensures i in q && i < |c.nodes| && forall v :: v in q ==> v < |c.nodes|
  {
  }

  /** A round at the end of the log, in the cluster. */
  lemma EndPlay(a: Cluster, c: Cluster, i: NodeId, q: set<NodeId>, x: nat, command: Bytes, v: NodeId) returns (c': Cluster)
    requires Leads(a, c) && Replicating(c, i, q, {}, x, command) && v in q - {i}
    ensures Leads(a, c') && Replicating(c', i, q, {}, x, command) && |c'.nodes| == |c.nodes| && v < |c.nodes|
    ensures c'.nodes[i].commitIndex >= x && c'.nodes[v].commitIndex >= c.nodes[i].commitIndex
    ensures forall u :: u in q && u != i && u != v ==> u < |c.nodes| && c'.nodes[u] == c.nodes[u]
  {
    hide Leads, Accounted, Majority, Holds, Round;
    PairReady(c, i, v);
    var p := Pair(c.nodes[i], c.nodes[v]);
    var ll, lf := MatchedPair(c, i, v);
    EndRound(p, i, v, ll, lf, q);
    c' := PlaysRound(a, c, i, v);
  }

  lemma {:induction false} AllCommit(a: Cluster, c: Cluster, i: NodeId, q: set<NodeId>, left: set<NodeId>, x: nat, command: Bytes)
    returns (c': Cluster)
    requires Leads(a, c) && Settling(c, i, q, left, x, command) && i !in left
    ensures Leads(a, c') && Settling(c', i, q, {}, x, command)
    decreases |left|
  {
    hide Leads, Settling;
    c' := c;
    if left != {} {
      var v: NodeId :| v in left;
      var c1 := FollowerCommits(a, c, i, q, left, x, command, v);
      c' := AllCommit(a, c1, i, q, left - {v}, x, command);
    }
  }

  // ----- Delivery ------------------------------------------------------------------------------

  /** Every server of q holds and has committed the command at x; those outside `left` have handed it over. */
  ghost predicate Delivering(c: Cluster, q: set<NodeId>, left: set<NodeId>, x: nat, command: Bytes) {
    && Accounted(c) && x >= 1 && left <= q
    && (forall v :: v in q ==> v < |c.nodes|)
    && (forall v :: v in left ==> Ripe(c.nodes[v], x, command))
    && (forall v :: v in q - left ==> Delivery(v, x, command) in c.delivered)
  }

  predicate Ripe(n: Node, x: nat, command: Bytes) {
    && Below(n, x) && |n.logs| >= 1 && n.snapshotIndex <= n.commitIndex && x <= n.commitIndex <= n.Last() && n.At(x).command == command
  }

  lemma RipeBatch(n: Node, i: NodeId, x: nat, command: Bytes)
    requires Ripe(n, x, command)
    ensures n.appliedIndex < n.commitIndex && Delivery(i, x, command) in Handed(i, ApplyBatch(n))
  {
    var from, end := Max(n.appliedIndex, n.snapshotIndex) + 1, n.commitIndex + 1;
    CommandsShape(n, from, end);
    var batch := ApplyBatch(n);
    assert batch[|ApplyHead(n)| + x - from] == Command(x, command);
  }

  lemma OneDelivers(a: Cluster, c: Cluster, q: set<NodeId>, left: set<NodeId>, x: nat, command: Bytes, v: NodeId) returns (c': Cluster)
    requires Leads(a, c) && Delivering(c, q, left, x, command) && v in left
    ensures Leads(a, c') && Delivering(c', q, left - {v}, x, command)
  {
    hide Leads, Accounted, Ripe, ApplyBatch, Handed;
    RipeBatch(c.nodes[v], v, x, command);
    c' := Applies(a, c, v);
  }

  lemma {:induction false} AllDeliver(a: Cluster, c: Cluster, q: set<NodeId>, left: set<NodeId>, x: nat, command: Bytes)
    returns (c': Cluster)
    requires Leads(a, c) && Delivering(c, q, left, x, command)
    ensures Leads(a, c') && Delivering(c', q, {}, x, command)
    decreases |left|
  {
    hide Leads, Delivering;
    c' := c;
    if left != {} {
      var v: NodeId :| v in left;
      var c1 := OneDelivers(a, c, q, left, x, command, v);
      c' := AllDeliver(a, c1, q, left - {v}, x, command);
    }
  }

  /** What everybody has committed is the command. */
  lemma AllRipe(c: Cluster, i: NodeId, q: set<NodeId>, x: nat, command: Bytes)
    requires Settling(c, i, q, {}, x, command)
    ensures Delivering(c, q, q, x, command)
  {
    hide Accounted, Majority, Holds;
    forall v | v in q
      ensures Ripe(c.nodes[v], x, command)
    {
      InOrderNode(c, v);
      assert v in q - {};
      if v != i {
        var ll, lf := MatchedPair(c, i, v);
        HeldEntry(Pair(c.nodes[i], c.nodes[v]), v, ll, lf, x);
      }
    }
  }

  lemma HeldEntry(p: Pair, peer: NodeId, ll: Log, lf: Log, x: nat)
    requires Holds(p, peer, ll, lf) && p.leader.snapshotIndex < x <= p.leader.Last() && p.follower.snapshotIndex < x
    ensures |p.follower.logs| >= 1 && x <= p.follower.Last() && p.follower.At(x) == p.leader.At(x)
  {
    assert p.follower.At(x) == lf[x] && p.leader.At(x) == ll[x];
  }

  // ----- The theorem ---------------------------------------------------------------------------

  /** The new leader takes the command. */
  lemma TakesIn(a: Cluster, c: Cluster, i: NodeId, q: set<NodeId>, command: Bytes) returns (c': Cluster, x: nat)
    requires Leads(a, c) && Accounted(c) && Majority(q, |c.nodes|) && i in q && i < |c.nodes| && FreshLeader(c.nodes[i], |c.nodes|)
    requires forall v :: v in q ==> v < |c.nodes| && c.nodes[v].term == c.nodes[i].term
    ensures Leads(a, c') && Replicating(c', i, q, q - {i}, x, command) && |c'.nodes| == |c.nodes|
  {
    hide Leads, Accounted, Majority;
    InOrderNode(c, i);
    x := c.nodes[i].Last() + 1;
    c' := Starts(a, c, i, command);
    InOrderNode(c', i);
    forall v | v in q
      ensures Below(c'.nodes[v], x)
    {
      PairReady(c, i, v);
    }
  }

  lemma CanServe(c: Cluster, q: set<NodeId>, command: Bytes) returns (c': Cluster, x: nat)
    requires Accounted(c) && Majority(q, |c.nodes|) && |q| >= 2
    ensures Leads(c, c') && Delivering(c', q, {}, x, command)
  {
    hide Leads, Accounted, Majority, Replicating, Settling, Delivering, FreshLeader;
    Stay(c);
    var c1, i := CanElect(c, c, q);
    var c2, c3;
    c2, x := TakesIn(c, c1, i, q, command);
    c3 := BringAllUp(c, c2, i, q, q - {i}, x, command);
    var v := Another(q, i);
    var c4 := LeaderCommits(c, c3, i, q, x, command, v);
    var c5 := AllCommit(c, c4, i, q, q - {i}, x, command);
    AllRipe(c5, i, q, x, command);
    c' := AllDeliver(c, c5, q, q, x, command);
  }

  lemma Another(q: set<NodeId>, i: NodeId) returns (v: NodeId)
    requires |q| >= 2 && i in q
    ensures v in q - {i}
  {
    assert |q - {i}| == |q| - 1;
    v :| v in q - {i};
  }

  /**
   From every reachable state, and for any majority of at least two servers, the run has a continuation in
   which the command has been handed, under one index, to the service of every server of that majority.
   */
  lemma CommandCanBeServed(run: seq<Cluster>, peers: nat, q: set<NodeId>, command: Bytes) returns (run': seq<Cluster>, x: nat)
    requires IsRun(run, peers) && Majority(q, peers) && |q| >= 2
    ensures IsRun(run', peers) && run <= run' && |run'| >= 1
    ensures forall v :: v in q ==> Delivery(v, x, command) in run'[|run'| - 1].delivered
  {
    hide Leads, Accounted, IsRun, Majority;
    RunShape(run, peers);
    RunAccounted(run, peers);
    var c;
    c, x := CanServe(run[|run| - 1], q, command);
    run' := RunGoesOn(run, peers, c);
    forall v | v in q
      ensures Delivery(v, x, command) in c.delivered
    {
      assert v in q - {};
    }
  }

  lemma RunShape(run: seq<Cluster>, peers: nat)
    requires IsRun(run, peers)
    ensures |run| >= 1 && |run[|run| - 1].nodes| == peers
  {
    hide Steps, RaftVotes.VotesOk;
    RaftVotes.RunKeeps(run, peers, |run| - 1);
  }
}
