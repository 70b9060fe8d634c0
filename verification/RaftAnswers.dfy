/**
 What the servers must do, not only what they may: exactly when a vote is granted, when the leader's commit
 index rises, when leadership is taken over on request, and that a later term is always learnt of.
 */
module RaftAnswers {
  import opened RaftTypes
  import opened RaftNode
  import opened RaftCluster
  import opened RaftRefinement
  import opened RaftSafety
  import opened RaftTheorems
  import H = RaftHistory

  // ----- Votes -----------------------------------------------------------------------------

  /** The voter has not given its vote of the candidate's term to anybody else. */
  predicate VoteOpen(n: Node, args: VoteArgs) {
    args.term > n.term || (args.term == n.term && (n.voteFor == None || n.voteFor == Some(args.candidate)))
  }

  /** On compacted logs, with the uncompacted ones they stand for. */
  lemma GrantsExactly(n: Node, v: Log, args: VoteArgs, l: Log)
    requires View(n.logs, n.snapshotIndex, v)
    requires |l| >= 1 && args.lastLogIndex == |l| - 1 && args.lastLogTerm == l[|l| - 1].term
    ensures |v| >= 1
    ensures var o := HandleVote(n, args);
            && (o.reply.granted <==> VoteOpen(n, args) && UpToDate(l, v))
            && o.reply.term == o.node.term == Max(n.term, args.term)
            && (o.reply.granted ==> o.node.voteFor == Some(args.candidate))
            && (args.term <= n.term && !o.reply.granted ==> o.node == n)
            && o.node.logs == n.logs && o.node.commitIndex == n.commitIndex
  {
    LastTermView(n, v);
  }

  /**
   A candidate that asks at one moment is granted the vote at another if and only if its term is not behind,
   the vote of that term is not somebody else's, and its whole log, compacted part included, was at least as
   up to date as the voter's now is.  The reply carries the later of the two terms.
   */
  lemma VoteExactly(c: Cluster, s: H.State, j: NodeId, c': Cluster, s': H.State, i: NodeId)
    requires Related(c, s) && Related(c', s') && j < |c.nodes| && i < |c'.nodes|
    ensures j < |s.servers| && i < |s'.servers| && |c.nodes[j].logs| >= 1 && |c'.nodes[i].logs| >= 1
    ensures |s.servers[j].log| >= 1 && |s'.servers[i].log| >= 1
    ensures var args, n := VoteRound(c.nodes[j], j), c'.nodes[i];
            var reply := HandleVote(n, args).reply;
            && (reply.granted <==> VoteOpen(n, args) && UpToDate(s.servers[j].log, s'.servers[i].log))
            && reply.term == Max(n.term, args.term)
  {
    hide Related, HandleVote, UpToDate;
    WholeLog(c, s, j);
    WholeLog(c', s', i);
    LastTermView(c.nodes[j], s.servers[j].log);
    GrantsExactly(c'.nodes[i], s'.servers[i].log, VoteRound(c.nodes[j], j), s.servers[j].log);
  }

  // ----- The commit index of the leader ------------------------------------------------------

  /** Everybody in q but the leader itself is known to hold index N. */
  predicate KnownHolders(n: Node, me: NodeId, q: set<NodeId>, N: nat) {
    forall v :: v in q && v != me ==> v < |n.matchIndex| && n.matchIndex[v] >= N
  }

  /** A majority with the leader in it is known to hold index N, which is of the leader's own term. */
  ghost predicate HeldByMajority(n: Node, me: NodeId, N: nat)
    requires n.snapshotIndex <= N < n.snapshotIndex + |n.logs|
  {
    n.At(N).term == n.term && exists q :: Majority(q, |n.matchIndex|) && me in q && KnownHolders(n, me, q, N)
  }

  lemma {:induction false} HoldersAreCounted(matchIndex: seq<nat>, me: NodeId, N: nat, k: nat, q: set<NodeId>)
    requires k <= |matchIndex| && me !in q && forall v :: v in q ==> v < k && matchIndex[v] >= N
    ensures |q| <= CountHolders(matchIndex, me, N, k)
    decreases k
  {
    if k == 0 {
      assert q == {};
    } else if k - 1 in q {
      HoldersAreCounted(matchIndex, me, N, k - 1, q - {k - 1});
    } else {
      HoldersAreCounted(matchIndex, me, N, k - 1, q);
    }
  }

  /** Counting finds a majority exactly when there is one. */
  lemma CountedExactly(n: Node, me: NodeId, N: nat)
    requires n.snapshotIndex <= N < n.snapshotIndex + |n.logs| && me < |n.matchIndex|
    ensures Committable(n, me, N) <==> HeldByMajority(n, me, N)
  {
    var peers := |n.matchIndex|;
    if Committable(n, me, N) {
      var others := Holders(n.matchIndex, me, N, peers);
      var q := others + {me};
      assert Majority(q, peers) && KnownHolders(n, me, q, N);
    }
    if HeldByMajority(n, me, N) {
      var q :| Majority(q, peers) && me in q && KnownHolders(n, me, q, N);
      HoldersAreCounted(n.matchIndex, me, N, peers, q - {me});
    }
  }

  /**
   When an acknowledgement arrives, the leader's commit index comes to lie at or above N, which it had not
   reached before, if and only if N or some index above it is of the leader's term and is now known to be
   held by a majority, whichever servers that majority is made of.
   */
  lemma CommitsExactly(n: Node, me: NodeId, server: NodeId, sent: AppendArgs, reply: AppendReply, N: nat)
    requires n.Valid(|n.matchIndex|) && me < |n.matchIndex| && server < |n.matchIndex| && n.role == Leader
    requires reply.success && reply.term <= n.term == sent.term && n.commitIndex < N <= n.Last()
    ensures var n' := HandleAppendReply(n, me, server, sent, reply);
            && n' == n.(matchIndex := n'.matchIndex, nextIndex := n'.nextIndex, commitIndex := n'.commitIndex)
            && (n'.commitIndex >= N <==> exists x :: N <= x <= n.Last() && HeldByMajority(n', me, x))
            && n'.commitIndex <= n.Last()
  {
    hide HeldByMajority, Committable;
    var n' := HandleAppendReply(n, me, server, sent, reply);
    forall x | N <= x <= n.Last()
      ensures HeldByMajority(n', me, x) <==> Committable(n'.(commitIndex := n.commitIndex), me, x)
    {
      CountedExactly(n', me, x);
      SameCount(n', n'.(commitIndex := n.commitIndex), me, x);
    }
  }

  lemma SameCount(n: Node, m: Node, me: NodeId, x: nat)
    requires n.snapshotIndex <= x < n.snapshotIndex + |n.logs| && m == n.(commitIndex := m.commitIndex)
    ensures Committable(n, me, x) <==> Committable(m, me, x)
  {
  }

  // ----- Taking over leadership on request ---------------------------------------------------

  /** What the leader asks of the server it wants to hand over to. */
  function HandOver(n: Node, me: NodeId): TimeoutArgs
    requires |n.logs| >= 1
  {
    TimeoutArgs(n.term, me, n.Last(), n.LastTerm())
  }

  /**
   A server asked by the leader to take over stands for election if and only if it is of the leader's term,
   follows that very leader, and has exactly the leader's log, compacted parts included.
   */
  lemma TakesOverExactly(c: Cluster, s: H.State, i: NodeId, j: NodeId)
    requires Related(c, s) && i < |c.nodes| && j < |c.nodes|
    ensures i < |s.servers| && j < |s.servers| && |c.nodes[i].logs| >= 1 && |c.nodes[j].logs| >= 1
    ensures var l, n := c.nodes[i], c.nodes[j];
            var o := HandleTimeoutNow(n, j, HandOver(l, i));
            && (o.reply <==> n.term == l.term && n.leaderId == Some(i) && s.servers[j].log == s.servers[i].log)
            && (o.reply ==> o.node.role == Candidate && o.node.term == l.term + 1 && o.node.voteFor == Some(j))
  {
    hide Related, H.Progress;
    WholeLog(c, s, i);
    WholeLog(c, s, j);
    var l, n := c.nodes[i], c.nodes[j];
    LastTermView(l, s.servers[i].log);
    LastTermView(n, s.servers[j].log);
    if n.Last() == l.Last() && n.LastTerm() == l.LastTerm() {
      SameState(c, s);
      WholeLogsMatch(c, s, i, c, s, j, n.Last());
    }
  }

  // ----- Later terms are learnt of -----------------------------------------------------------

  /** Every answer carries the later of the two terms, which the server that gives it has adopted. */
  lemma AnswersCarryTerm(n: Node, v: VoteArgs, a: AppendArgs)
    requires |n.logs| >= 1
    ensures HandleVote(n, v).reply.term == HandleVote(n, v).node.term == Max(n.term, v.term)
    ensures HandleAppend(n, a).reply.term == HandleAppend(n, a).node.term == Max(n.term, a.term)
  {
    hide AppendTrail, FirstMissing, BeforeRun;
  }

  /** Whoever is answered with a later term adopts it and gives up its candidacy or leadership. */
  lemma LaterTermsSpread(n: Node, me: NodeId, peers: nat, v: VoteArgs, a: AppendArgs, src: NodeId, vr: VoteReply, ar: AppendReply)
    requires n.Valid(peers) && src < peers
    ensures vr.term > n.term ==> HandleVoteReply(n, me, peers, v, vr) == Meet(n, vr.term)
    ensures ar.term > n.term ==> HandleAppendReply(n, me, src, a, ar) == Meet(n, ar.term)
    ensures HandleVoteReply(n, me, peers, v, vr).term == Max(n.term, vr.term)
    ensures HandleAppendReply(n, me, src, a, ar).term == Max(n.term, ar.term)
    ensures forall t: nat :: t > n.term ==> var m := Meet(n, t); m.role == Follower && m.voteFor == None && m.leaderId == None
  {
    hide LeaderCommit;
  }

  // ----- Compaction --------------------------------------------------------------------------

  /** Compaction reaches the index asked for, keeps every later entry and the term at the cut, and nothing else changes. */
  lemma CompactsExactly(n: Node, index: nat, state: ServiceState)
    requires |n.logs| >= 1 && index <= n.Last()
    ensures var m := TakeSnapshot(n, index, state);
            && |m.logs| >= 1 && m.snapshotIndex == Max(n.snapshotIndex, index) && m.Last() == n.Last()
            && (forall x :: m.snapshotIndex < x <= m.Last() ==> m.At(x) == n.At(x))
            && m.logs[0].term == n.At(m.snapshotIndex).term
            && (index > n.snapshotIndex ==> m.snapshot == state)
            && m == n.(logs := m.logs, snapshotIndex := m.snapshotIndex, snapshot := m.snapshot)
  {
  }

  // ----- What never falls ----------------------------------------------------------------------

  /** An answer never takes back what the leader knows, and success is taken in. */
  lemma OnlyLearns(n: Node, me: NodeId, src: NodeId, sent: AppendArgs, reply: AppendReply)
    requires n.Valid(|n.matchIndex|) && src < |n.matchIndex|
    ensures var m := HandleAppendReply(n, me, src, sent, reply);
            && |m.matchIndex| == |n.matchIndex| && m.commitIndex >= n.commitIndex
            && (forall v :: 0 <= v < |n.matchIndex| ==> m.matchIndex[v] >= n.matchIndex[v])
            && (n.role == Leader && n.term == sent.term && reply.term <= n.term && reply.success ==>
                  m.matchIndex[src] >= NewMatch(sent) && m.nextIndex[src] == m.matchIndex[src] + 1)
            && (n.role == Leader && n.term == sent.term && reply.term <= n.term && !reply.success && sent.prevLogIndex < n.matchIndex[src] ==>
                  m == n)
  {
    hide LeaderCommit;
  }

  /** The commit index, the applied index, the term and the snapshot of a server have not gone back. */
  predicate NoStepBack(n: Node, m: Node) {
    m.commitIndex >= n.commitIndex && m.appliedIndex >= n.appliedIndex && m.term >= n.term && m.snapshotIndex >= n.snapshotIndex
  }

  /** In every reachable state, only a crash takes a server's commit index back, or what it has applied. */
  lemma NeverFalls(c: Cluster, s: H.State, e: Event, i: NodeId)
    requires Related(c, s) && Possible(c, e) && i < |c.nodes| && (e.Do? || e.node != i)
    ensures i < |After(c, e).nodes| && NoStepBack(c.nodes[i], After(c, e).nodes[i])
  {
    hide Related, Sends, CallsAfter, Handed, ApplyBatch, Local, Enabled, NoStepBack, H.Progress;
    if e.Do? && e.node == i {
      var s' := StepRelated(c, s, e);
      NodeInOrder(c, s, i);
      LogReachesCommit(c, s, After(c, e), s', i);
      WorkNeverFalls(c, i, e.work);
    } else {
      assert NoStepBack(c.nodes[i], c.nodes[i]) by {
        Itself(c.nodes[i]);
      }
    }
  }

  lemma Itself(n: Node)
    ensures NoStepBack(n, n)
  {
  }

  /** Whatever happens to a log, what was committed stays in it or in the snapshot. */
  lemma LogReachesCommit(c: Cluster, s: H.State, c': Cluster, s': H.State, i: NodeId)
    requires Related(c, s) && Related(c', s') && H.Progress(s, s') && i < |c.nodes| && i < |c'.nodes|
    ensures |c'.nodes[i].logs| >= 1 && c.nodes[i].commitIndex <= c'.nodes[i].Last()
  {
    hide Related, H.Progress;
    NodeInOrder(c', s', i);
    var x := c.nodes[i].commitIndex;
    if c'.nodes[i].snapshotIndex < x {
      StillHeld(c, s, c', s', i, x);
    }
  }

  lemma WorkNeverFalls(c: Cluster, i: NodeId, w: Work)
    requires Shaped(c) && i < |c.nodes| && Enabled(c, i, w) && c.nodes[i].appliedIndex <= c.nodes[i].commitIndex
    requires var m := Local(c, i, w).0; |m.logs| >= 1 && c.nodes[i].commitIndex <= m.Last()
    ensures NoStepBack(c.nodes[i], Local(c, i, w).0)
  {
    hide HandleAppend, HandleAppendReply, AppendTrail, Service;
    var n := c.nodes[i];
    match w
    case OnAppendRequest(args) => AppendNeverFalls(n, args);
    case OnAppendResponse(src, args, reply) => ReplyNeverFalls(n, i, src, args, reply);
    case _ =>
  }

  lemma AppendNeverFalls(n: Node, args: AppendArgs)
    requires |n.logs| >= 1 && |HandleAppend(n, args).node.logs| >= 1 && n.commitIndex <= HandleAppend(n, args).node.Last()
    ensures NoStepBack(n, HandleAppend(n, args).node)
  {
    hide AppendTrail, FirstMissing, BeforeRun;
  }

  lemma ReplyNeverFalls(n: Node, me: NodeId, src: NodeId, sent: AppendArgs, reply: AppendReply)
    requires n.Valid(|n.matchIndex|) && src < |n.matchIndex|
    ensures NoStepBack(n, HandleAppendReply(n, me, src, sent, reply))
  {
    hide LeaderCommit;
  }
}
