/** Ways on from a reachable state of the cluster: what each event of one server does, and nothing else. */
module RaftSteps {
  import opened RaftTypes
  import opened RaftNode
  import opened RaftCluster
  import opened RaftSafety
  import opened RaftTheorems
  import H = RaftHistory

  // ----- Continuations -----------------------------------------------------------------------

  /** Some history explains the state; and so it is with every reachable one. */
  ghost predicate Accounted(c: Cluster) {
    exists s :: Related(c, s)
  }

  ghost predicate Path(cs: seq<Cluster>, c: Cluster, c': Cluster) {
    |cs| >= 1 && cs[0] == c && cs[|cs| - 1] == c' && forall k :: 0 <= k < |cs| - 1 ==> Steps(cs[k], cs[k + 1])
  }

  ghost predicate Leads(c: Cluster, c': Cluster) {
    exists cs :: Path(cs, c, c')
  }

  lemma Stay(c: Cluster)
    ensures Leads(c, c)
  {
    assert Path([c], c, c);
  }

  lemma Join(a: Cluster, b: Cluster, c: Cluster)
    requires Leads(a, b) && Leads(b, c)
    ensures Leads(a, c)
  {
    hide Steps;
    var cs :| Path(cs, a, b);
    var ds :| Path(ds, b, c);
    var all := cs + ds[1..];
    forall k | 0 <= k < |all| - 1
      ensures Steps(all[k], all[k + 1])
    {
      if k < |cs| - 1 {
        assert Steps(cs[k], cs[k + 1]);
      } else {
        var m := k - (|cs| - 1);
        assert all[k] == ds[m] && all[k + 1] == ds[m + 1] && Steps(ds[m], ds[m + 1]);
      }
    }
    assert Path(all, a, c);
  }

  /** One event more. */
  lemma Then(a: Cluster, b: Cluster, e: Event)
    requires Leads(a, b) && Accounted(b) && Possible(b, e)
    ensures Leads(a, After(b, e)) && Accounted(After(b, e))
  {
    hide Leads, Related, Possible, After;
    OneEvent(b, e);
    Join(a, b, After(b, e));
    var s :| Related(b, s);
    var s' := StepRelated(b, s, e);
  }

  lemma OneEvent(c: Cluster, e: Event)
    requires Possible(c, e)
    ensures Leads(c, After(c, e))
  {
    hide Possible, After;
    assert Steps(c, After(c, e));
    assert Path([c, After(c, e)], c, After(c, e));
  }

  lemma RunAccounted(run: seq<Cluster>, peers: nat)
    requires IsRun(run, peers)
    ensures Accounted(run[|run| - 1])
  {
    hide Related, Steps;
    var hs := ExplainRun(run, peers);
  }

  /** A way on from the last state of a run is a way on of the run. */
  lemma RunGoesOn(run: seq<Cluster>, peers: nat, c: Cluster) returns (run': seq<Cluster>)
    requires IsRun(run, peers) && Leads(run[|run| - 1], c)
    ensures IsRun(run', peers) && run <= run' && |run'| >= 1 && run'[|run'| - 1] == c
  {
    hide Steps;
    var cs :| Path(cs, run[|run| - 1], c);
    run' := run + cs[1..];
    forall k | 0 <= k < |run'| - 1
      ensures Steps(run'[k], run'[k + 1])
    {
      if k < |run| - 1 {
        assert Steps(run[k], run[k + 1]);
      } else {
        var m := k - (|run| - 1);
        assert run'[k] == cs[m] && run'[k + 1] == cs[m + 1] && Steps(cs[m], cs[m + 1]);
      }
    }
  }

  /** Indices in order, in every explained state. */
  lemma InOrderNode(c: Cluster, i: NodeId)
    requires Accounted(c) && i < |c.nodes|
    ensures var n := c.nodes[i];
            && n.Valid(|c.nodes|) && Shaped(c)
            && n.snapshotIndex <= n.commitIndex <= n.Last() && n.appliedIndex <= n.commitIndex
            && (n.snapshotIndex > 0 ==> n.snapshot != [])
            && (n.role == Leader ==> forall p :: 0 <= p < |c.nodes| ==> n.nextIndex[p] >= 1)
  {
    hide Related;
    var s :| Related(c, s);
    NodeInOrder(c, s, i);
    ShapedState(c, s);
  }

  lemma ShapedState(c: Cluster, s: H.State)
    requires Related(c, s)
    ensures Shaped(c)
  {
    hide H.Inv;
  }

  // ----- One event of one server ---------------------------------------------------------------

  /** Only server i has changed, to n; messages may have been added, and the services were handed nothing. */
  ghost predicate Moves(c: Cluster, c': Cluster, i: NodeId, n: Node) {
    && i < |c.nodes| && c'.nodes == c.nodes[i := n]
    && c.net <= c'.net && c'.streams == c.streams && c'.delivered == c.delivered
  }

  lemma NothingHanded(c: Cluster, i: NodeId)
    requires i < |c.streams|
    ensures c.streams[i := c.streams[i].(msgs := c.streams[i].msgs + [])] == c.streams
    ensures c.delivered + Handed(i, []) == c.delivered
  {
    assert c.streams[i].msgs + [] == c.streams[i].msgs;
  }

  lemma Adopts(a: Cluster, c: Cluster, i: NodeId, t: nat) returns (c': Cluster)
    requires Leads(a, c) && Accounted(c) && i < |c.nodes|
    ensures Leads(a, c') && Accounted(c') && Moves(c, c', i, Meet(c.nodes[i], t)) && c'.calls == c.calls
  {
    hide Leads, Accounted;
    InOrderNode(c, i);
    NothingHanded(c, i);
    Then(a, c, Do(i, OnHigherTerm(t)));
    c' := After(c, Do(i, OnHigherTerm(t)));
  }

  lemma Stands(a: Cluster, c: Cluster, i: NodeId) returns (c': Cluster)
    requires Leads(a, c) && Accounted(c) && i < |c.nodes| && c.nodes[i].role != Leader
    ensures Leads(a, c') && Accounted(c') && Moves(c, c', i, BeginElection(c.nodes[i], i)) && |c.nodes[i].logs| >= 1
    ensures forall p: nat :: p < |c.nodes| && p != i ==>
              VoteRequest(p, VoteRound(BeginElection(c.nodes[i], i), i)) in c'.net && Call(i, c.nodes[i].term + 1, p) in c'.calls
  {
    hide Leads, Accounted;
    InOrderNode(c, i);
    NothingHanded(c, i);
    Then(a, c, Do(i, OnTimeout));
    c' := After(c, Do(i, OnTimeout));
    forall p: nat | p < |c.nodes| && p != i
      ensures VoteRequest(p, VoteRound(BeginElection(c.nodes[i], i), i)) in c'.net && Call(i, c.nodes[i].term + 1, p) in c'.calls
    {
      assert p in Ids(|c.nodes|);
    }
  }

  lemma Votes(a: Cluster, c: Cluster, j: NodeId, args: VoteArgs) returns (c': Cluster)
    requires Leads(a, c) && Accounted(c) && j < |c.nodes| && VoteRequest(j, args) in c.net
    ensures |c.nodes[j].logs| >= 1
    ensures Leads(a, c') && Accounted(c') && Moves(c, c', j, HandleVote(c.nodes[j], args).node) && c'.calls == c.calls
    ensures VoteResponse(j, args, HandleVote(c.nodes[j], args).reply) in c'.net
  {
    hide Leads, Accounted, HandleVote;
    InOrderNode(c, j);
    NothingHanded(c, j);
    Then(a, c, Do(j, OnVoteRequest(args)));
    c' := After(c, Do(j, OnVoteRequest(args)));
  }

  lemma Counts(a: Cluster, c: Cluster, i: NodeId, src: NodeId, args: VoteArgs, reply: VoteReply) returns (c': Cluster)
    requires Leads(a, c) && Accounted(c) && i < |c.nodes|
    requires args.candidate == i && VoteResponse(src, args, reply) in c.net && Call(i, args.term, src) in c.calls
    ensures |c.nodes[i].logs| >= 1
    ensures Leads(a, c') && Accounted(c') && Moves(c, c', i, HandleVoteReply(c.nodes[i], i, |c.nodes|, args, reply))
    ensures c'.calls == c.calls - {Call(i, args.term, src)}
  {
    hide Leads, Accounted, HandleVoteReply;
    InOrderNode(c, i);
    NothingHanded(c, i);
    Then(a, c, Do(i, OnVoteResponse(src, args, reply)));
    c' := After(c, Do(i, OnVoteResponse(src, args, reply)));
  }

  lemma Starts(a: Cluster, c: Cluster, i: NodeId, command: Bytes) returns (c': Cluster)
    requires Leads(a, c) && Accounted(c) && i < |c.nodes| && c.nodes[i].role == Leader
    ensures Leads(a, c') && Accounted(c') && Moves(c, c', i, StartCommand(c.nodes[i], command)) && c'.calls == c.calls
  {
    hide Leads, Accounted;
    InOrderNode(c, i);
    NothingHanded(c, i);
    Then(a, c, Do(i, OnStart(command)));
    c' := After(c, Do(i, OnStart(command)));
  }

  lemma Beats(a: Cluster, c: Cluster, i: NodeId, j: NodeId) returns (c': Cluster)
    requires Leads(a, c) && Accounted(c) && i < |c.nodes| && j < |c.nodes| && i != j && c.nodes[i].role == Leader
    ensures var n := c.nodes[i];
            n.Valid(|c.nodes|) && n.nextIndex[j] >= 1 && (n.snapshotIndex > 0 ==> n.snapshot != [])
    ensures Leads(a, c') && Accounted(c') && Moves(c, c', i, c.nodes[i]) && c'.nodes == c.nodes && c'.calls == c.calls
    ensures AppendRequest(j, HeartbeatFor(c.nodes[i], i, j)) in c'.net
  {
    hide Leads, Accounted, HeartbeatFor;
    InOrderNode(c, i);
    NothingHanded(c, i);
    assert j in Ids(|c.nodes[i].nextIndex|);
    assert AppendRequest(j, HeartbeatFor(c.nodes[i], i, j)) in Heartbeats(c.nodes[i], i);
    Then(a, c, Do(i, OnHeartbeat));
    c' := After(c, Do(i, OnHeartbeat));
  }

  lemma Hears(a: Cluster, c: Cluster, j: NodeId, args: AppendArgs) returns (c': Cluster)
    requires Leads(a, c) && Accounted(c) && j < |c.nodes| && AppendRequest(j, args) in c.net
    ensures |c.nodes[j].logs| >= 1
    ensures Leads(a, c') && Accounted(c') && Moves(c, c', j, HandleAppend(c.nodes[j], args).node) && c'.calls == c.calls
    ensures AppendResponse(j, args, HandleAppend(c.nodes[j], args).reply) in c'.net
  {
    hide Leads, Accounted, HandleAppend;
    InOrderNode(c, j);
    NothingHanded(c, j);
    Then(a, c, Do(j, OnAppendRequest(args)));
    c' := After(c, Do(j, OnAppendRequest(args)));
  }

  lemma Learns(a: Cluster, c: Cluster, i: NodeId, src: NodeId, args: AppendArgs, reply: AppendReply) returns (c': Cluster)
    requires Leads(a, c) && Accounted(c) && i < |c.nodes| && src < |c.nodes|
    requires args.leader == i && AppendResponse(src, args, reply) in c.net
    ensures c.nodes[i].Valid(|c.nodes|)
    ensures Leads(a, c') && Accounted(c') && Moves(c, c', i, HandleAppendReply(c.nodes[i], i, src, args, reply)) && c'.calls == c.calls
  {
    hide Leads, Accounted, HandleAppendReply;
    InOrderNode(c, i);
    NothingHanded(c, i);
    Then(a, c, Do(i, OnAppendResponse(src, args, reply)));
    c' := After(c, Do(i, OnAppendResponse(src, args, reply)));
  }

  /** The service of server i is handed what has been committed since. */
  lemma Applies(a: Cluster, c: Cluster, i: NodeId) returns (c': Cluster)
    requires Leads(a, c) && Accounted(c) && i < |c.nodes| && c.nodes[i].appliedIndex < c.nodes[i].commitIndex
    ensures Leads(a, c') && Accounted(c') && c'.nodes == c.nodes[i := c.nodes[i].(appliedIndex := c.nodes[i].commitIndex)]
    ensures |c.nodes[i].logs| >= 1 && c.nodes[i].snapshotIndex <= c.nodes[i].commitIndex <= c.nodes[i].Last()
    ensures c'.delivered == c.delivered + Handed(i, ApplyBatch(c.nodes[i])) && c.net <= c'.net && c'.calls == c.calls
    ensures i < |c.streams| && c'.streams == c.streams[i := c.streams[i].(msgs := c.streams[i].msgs + ApplyBatch(c.nodes[i]))]
  {
    hide Leads, Accounted, ApplyBatch;
    InOrderNode(c, i);
    Then(a, c, Do(i, OnApply));
    c' := After(c, Do(i, OnApply));
  }

  /** The service of server i gives the state it had at an index it has applied, and the log is cut there. */
  lemma Compacts(a: Cluster, c: Cluster, i: NodeId, index: nat) returns (c': Cluster, state: ServiceState)
    requires Leads(a, c) && Accounted(c) && i < |c.nodes| && index <= c.nodes[i].appliedIndex
    ensures |c.nodes[i].logs| >= 1 && index <= c.nodes[i].Last()
    ensures Leads(a, c') && Accounted(c') && Moves(c, c', i, TakeSnapshot(c.nodes[i], index, state)) && c'.calls == c.calls
  {
    hide Leads, Accounted, Service, TakeSnapshot;
    InOrderNode(c, i);
    NothingHanded(c, i);
    AppliedState(c, i);
    state := Service(c.streams[i])[..index];
    Then(a, c, Do(i, OnSnapshot(index, state)));
    c' := After(c, Do(i, OnSnapshot(index, state)));
  }

  lemma AppliedState(c: Cluster, i: NodeId)
    requires Accounted(c) && i < |c.nodes|
    ensures i < |c.streams| && |Service(c.streams[i])| == c.nodes[i].appliedIndex
  {
    hide Related, Service, InOrder;
    var s :| Related(c, s);
    StreamReached(c, s, i);
  }

  /** Server i crashes between two critical sections. */
  lemma Crashes(a: Cluster, c: Cluster, i: NodeId) returns (c': Cluster)
    requires Leads(a, c) && Accounted(c) && i < |c.nodes|
    ensures Leads(a, c') && Accounted(c') && c'.nodes == c.nodes[i := Recover(c.nodes[i].Saved(), |c.nodes|)] && c'.net == c.net
  {
    hide Leads, Accounted;
    InOrderNode(c, i);
    Then(a, c, Crash(i));
    c' := After(c, Crash(i));
  }
}
