/** The theorems are not about nothing: a run in which a leader is elected and a command is committed and applied. */
module RaftExample {
  import opened RaftTypes
  import opened RaftNode
  import opened RaftCluster

  lemma Extend(run: seq<Cluster>, peers: nat, e: Event) returns (run': seq<Cluster>)
    requires IsRun(run, peers) && Possible(run[|run| - 1], e)
    ensures IsRun(run', peers) && |run'| >= 1 && run'[|run'| - 1] == After(run[|run| - 1], e)
  {
    hide Possible, After;
    var c' := After(run[|run| - 1], e);
    run' := run + [c'];
    forall k | 0 <= k < |run'| - 1
      ensures Steps(run'[k], run'[k + 1])
    {
      if k < |run| - 1 {
        assert Steps(run[k], run[k + 1]);
      }
    }
  }

  /** The states of the two servers that take part. */
  ghost predicate Scene(c: Cluster, a: Node, b: Node) {
    Shaped(c) && |c.nodes| == 3 && c.nodes[0] == a && c.nodes[1] == b
  }

  function Blank(): Node {
    Recover(BLANK, 3)
  }

  function Candidate0(): Node {
    BeginElection(Blank(), 0)
  }

  const ASK := VoteArgs(1, 0, 0, 0)

  function Voter(): Node {
    Blank().(term := 1, voteFor := Some(0))
  }

  function Leader0(): Node {
    Candidate0().(voteCount := 2, role := Leader, leaderId := Some(0), matchIndex := [0, 0, 0], nextIndex := [1, 1, 1])
  }

  function Leader1(command: Bytes): Node {
    Leader0().(logs := [SENTINEL, Entry(command, 1)])
  }

  function Offer(command: Bytes): AppendArgs {
    AppendArgs(1, 0, 0, 0, [Entry(command, 1)], 0, [], 0, 0)
  }

  function Holder(command: Bytes): Node {
    Voter().(logs := [SENTINEL, Entry(command, 1)], leaderId := Some(0))
  }

  lemma Stands(c: Cluster)
    requires Scene(c, Blank(), Blank())
    ensures var e := Do(0, OnTimeout);
            && Possible(c, e)
            && var c' := After(c, e); Scene(c', Candidate0(), Blank()) && VoteRequest(1, ASK) in c'.net && Call(0, 1, 1) in c'.calls
  {
    assert Ids(3) == {0, 1, 2};
  }

  lemma Grants(c: Cluster)
    requires Scene(c, Candidate0(), Blank()) && VoteRequest(1, ASK) in c.net && Call(0, 1, 1) in c.calls
    ensures var e := Do(1, OnVoteRequest(ASK));
            && Possible(c, e)
            && var c' := After(c, e);
               Scene(c', Candidate0(), Voter()) && VoteResponse(1, ASK, VoteReply(1, true)) in c'.net && Call(0, 1, 1) in c'.calls
  {
  }

  lemma Leads(c: Cluster)
    requires Scene(c, Candidate0(), Voter()) && VoteResponse(1, ASK, VoteReply(1, true)) in c.net && Call(0, 1, 1) in c.calls
    ensures var e := Do(0, OnVoteResponse(1, ASK, VoteReply(1, true)));
            Possible(c, e) && Scene(After(c, e), Leader0(), Voter())
  {
    assert Repeat(0, 3) == [0, 0, 0] && Repeat(1, 3) == [1, 1, 1];
  }

  lemma TakesCommand(c: Cluster, command: Bytes)
    requires Scene(c, Leader0(), Voter())
    ensures var e := Do(0, OnStart(command));
            Possible(c, e) && Scene(After(c, e), Leader1(command), Voter())
  {
    assert [SENTINEL] + [Entry(command, 1)] == [SENTINEL, Entry(command, 1)];
  }

  lemma Offers(c: Cluster, command: Bytes)
    requires Scene(c, Leader1(command), Voter())
    ensures var e := Do(0, OnHeartbeat);
            && Possible(c, e)
            && Scene(After(c, e), Leader1(command), Voter()) && AppendRequest(1, Offer(command)) in After(c, e).net
  {
    var n := Leader1(command);
    assert n.logs[1..] == [Entry(command, 1)];
    assert HeartbeatFor(n, 0, 1) == Offer(command);
    assert 1 in Ids(3);
  }

  lemma Accepts(c: Cluster, command: Bytes)
    requires Scene(c, Leader1(command), Voter()) && AppendRequest(1, Offer(command)) in c.net
    ensures var e := Do(1, OnAppendRequest(Offer(command)));
            && Possible(c, e)
            && Scene(After(c, e), Leader1(command), Holder(command))
            && AppendResponse(1, Offer(command), AppendReply(1, true, 0)) in After(c, e).net
  {
    var n := Voter();
    assert FirstMissing(Recognise(n, Offer(command)), 0, Offer(command).entries, 0) == 0;
    assert n.logs[..1] + Offer(command).entries[0..] == [SENTINEL, Entry(command, 1)];
  }

  /** Server 0 leads and has committed the command. */
  predicate HasCommitted(c: Cluster, command: Bytes) {
    && Shaped(c) && |c.nodes| >= 1
    && var n := c.nodes[0];
       n == Leader1(command).(commitIndex := 1, matchIndex := n.matchIndex, nextIndex := n.nextIndex)
  }

  lemma Commits(c: Cluster, command: Bytes)
    requires Scene(c, Leader1(command), Holder(command))
    requires AppendResponse(1, Offer(command), AppendReply(1, true, 0)) in c.net
    ensures var e := Do(0, OnAppendResponse(1, Offer(command), AppendReply(1, true, 0)));
            && Possible(c, e)
            && HasCommitted(After(c, e), command)
  {
    var m := [0, 1, 0];
    assert Leader1(command).matchIndex[1 := 1] == m;
    assert CountHolders(m, 0, 1, 0) == 0;
    assert CountHolders(m, 0, 1, 1) == 0;
    assert CountHolders(m, 0, 1, 2) == 1;
    assert CountHolders(m, 0, 1, 3) == 1;
  }

  lemma Applies(c: Cluster, command: Bytes)
    requires HasCommitted(c, command)
    ensures Possible(c, Do(0, OnApply)) && Delivery(0, 1, command) in After(c, Do(0, OnApply)).delivered
  {
    var n := c.nodes[0];
    CommandsShape(n, 1, 2);
    assert ApplyBatch(n)[0] == Command(1, command);
  }

  /** Any command can be committed and handed to the service. */
  lemma CommitHappens(command: Bytes) returns (run: seq<Cluster>)
    ensures IsRun(run, 3) && |run| >= 1 && Delivery(0, 1, command) in run[|run| - 1].delivered
  {
    hide IsRun, Possible, After, Scene, Blank, Candidate0, Voter, Leader0, Leader1, Offer, Holder, HasCommitted;
    run := [FreshCluster(3)];
    assert IsRun(run, 3) && Scene(run[0], Blank(), Blank()) by {
      Begins();
    }
    Stands(run[|run| - 1]);
    run := Extend(run, 3, Do(0, OnTimeout));
    Grants(run[|run| - 1]);
    run := Extend(run, 3, Do(1, OnVoteRequest(ASK)));
    Leads(run[|run| - 1]);
    run := Extend(run, 3, Do(0, OnVoteResponse(1, ASK, VoteReply(1, true))));
    TakesCommand(run[|run| - 1], command);
    run := Extend(run, 3, Do(0, OnStart(command)));
    Offers(run[|run| - 1], command);
    run := Extend(run, 3, Do(0, OnHeartbeat));
    Accepts(run[|run| - 1], command);
    run := Extend(run, 3, Do(1, OnAppendRequest(Offer(command))));
    Commits(run[|run| - 1], command);
    run := Extend(run, 3, Do(0, OnAppendResponse(1, Offer(command), AppendReply(1, true, 0))));
    Applies(run[|run| - 1], command);
    run := Extend(run, 3, Do(0, OnApply));
  }

  lemma Begins()
    ensures IsRun([FreshCluster(3)], 3) && Scene(FreshCluster(3), Blank(), Blank())
  {
  }
}
