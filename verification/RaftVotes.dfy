/** Votes as they were cast in the run: what a candidate has counted is what distinct servers have granted. */
module RaftVotes {
  import opened RaftTypes
  import opened RaftNode
  import opened RaftCluster

  /** At some moment up to k server v stood in term t with its vote given to c. */
  ghost predicate Cast(run: seq<Cluster>, k: nat, v: NodeId, t: nat, c: NodeId)
    requires k < |run|
  {
    exists j: nat :: CastAt(run, j, v, t, c) && j <= k
  }

  predicate CastAt(run: seq<Cluster>, j: nat, v: NodeId, t: nat, c: NodeId) {
    j < |run| && v < |run[j].nodes| && run[j].nodes[v].term == t && run[j].nodes[v].voteFor == Some(c)
  }

  lemma CastStays(run: seq<Cluster>, k: nat, v: NodeId, t: nat, c: NodeId)
    requires k + 1 < |run| && Cast(run, k, v, t, c)
    ensures Cast(run, k + 1, v, t, c)
  {
    var j: nat :| CastAt(run, j, v, t, c) && j <= k;
    assert CastAt(run, j, v, t, c) && j <= k + 1;
  }

  /** The servers of q have voted for i in its term, and none of them has a call from i left to answer. */
  ghost predicate Tally(run: seq<Cluster>, k: nat, i: NodeId, q: set<NodeId>)
    requires k < |run| && i < |run[k].nodes|
  {
    var n := run[k].nodes[i];
    && q <= Ids(|run[k].nodes|) && |q| == n.voteCount
    && (forall v :: v in q ==> Cast(run, k, v, n.term, i) && Call(i, n.term, v) !in run[k].calls)
  }

  /** A granting response tells of a vote that was cast. */
  ghost predicate GrantOk(run: seq<Cluster>, k: nat, m: Msg)
    requires k < |run|
  {
    m.VoteResponse? && m.voteReply.granted ==>
      m.src < |run[k].nodes| && Cast(run, k, m.src, m.voteArgs.term, m.voteArgs.candidate)
  }

  /** A call in progress goes to another server and belongs to no later term than its caller's. */
  predicate CallInTerm(c: Cluster, call: Call) {
    call.caller < |c.nodes| && call.callee != call.caller && call.term <= c.nodes[call.caller].term
  }

  ghost predicate Counted(run: seq<Cluster>, k: nat, i: NodeId)
    requires k < |run| && i < |run[k].nodes|
  {
    run[k].nodes[i].role == Candidate ==> exists q :: Tally(run, k, i, q)
  }

  ghost predicate VotesOk(run: seq<Cluster>, k: nat)
    requires k < |run|
  {
    && (forall m :: m in run[k].net ==> GrantOk(run, k, m))
    && (forall call :: call in run[k].calls ==> CallInTerm(run[k], call))
    && (forall i :: 0 <= i < |run[k].nodes| ==> Counted(run, k, i))
  }

  // ----- One event -------------------------------------------------------------------------

  /** From k to k + 1 only server i has changed, and only its calls. */
  ghost predicate OneServer(run: seq<Cluster>, k: nat, i: NodeId) {
    && k + 1 < |run| && i < |run[k].nodes| && |run[k + 1].nodes| == |run[k].nodes|
    && (forall j :: 0 <= j < |run[k].nodes| && j != i ==> run[k + 1].nodes[j] == run[k].nodes[j])
    && (forall call :: call in run[k + 1].calls && call !in run[k].calls ==> call.caller == i)
    && run[k].nodes[i].term <= run[k + 1].nodes[i].term
  }

  lemma OthersStillCounted(run: seq<Cluster>, k: nat, i: NodeId, j: NodeId)
    requires OneServer(run, k, i) && j < |run[k].nodes| && j != i && Counted(run, k, j)
    ensures Counted(run, k + 1, j)
  {
    if run[k + 1].nodes[j].role == Candidate {
      var q :| Tally(run, k, j, q);
      TallyStays(run, k, i, j, q);
    }
  }

  /** A tally lasts while term and count of its candidate do and no new call of its term begins. */
  lemma TallyStays(run: seq<Cluster>, k: nat, i: NodeId, j: NodeId, q: set<NodeId>)
    requires OneServer(run, k, i) && j < |run[k].nodes| && Tally(run, k, j, q)
    requires run[k + 1].nodes[j].term == run[k].nodes[j].term && run[k + 1].nodes[j].voteCount == run[k].nodes[j].voteCount
    requires j == i ==> run[k + 1].calls <= run[k].calls
    ensures Tally(run, k + 1, j, q)
  {
    forall v | v in q
      ensures Cast(run, k + 1, v, run[k].nodes[j].term, j)
    {
      CastStays(run, k, v, run[k].nodes[j].term, j);
    }
  }

  lemma GrantStays(run: seq<Cluster>, k: nat, i: NodeId, m: Msg)
    requires OneServer(run, k, i) && GrantOk(run, k, m)
    ensures GrantOk(run, k + 1, m)
  {
    if m.VoteResponse? && m.voteReply.granted {
      CastStays(run, k, m.src, m.voteArgs.term, m.voteArgs.candidate);
    }
  }

  /** Put together what one event does. */
  lemma EventKeeps(run: seq<Cluster>, k: nat, i: NodeId)
    requires k < |run| && VotesOk(run, k) && OneServer(run, k, i)
    requires forall m :: m in run[k + 1].net && m !in run[k].net ==> GrantOk(run, k + 1, m)
    requires forall call :: call in run[k + 1].calls && call !in run[k].calls ==> CallInTerm(run[k + 1], call)
    requires Counted(run, k + 1, i)
    ensures VotesOk(run, k + 1)
  {
    hide Counted, GrantOk;
    var k' := k + 1;
    forall m | m in run[k'].net
      ensures GrantOk(run, k', m)
    {
      if m in run[k].net {
        GrantStays(run, k, i, m);
      }
    }
    forall j | 0 <= j < |run[k'].nodes|
      ensures Counted(run, k', j)
    {
      if j != i {
        OthersStillCounted(run, k, i, j);
      }
    }
  }

  lemma NoCallToSelf(run: seq<Cluster>, k: nat, i: NodeId, t: nat)
    requires k < |run| && VotesOk(run, k)
    ensures Call(i, t, i) !in run[k].calls
  {
  }

  /** An election round begins with the candidate's own vote. */
  lemma RoundBegins(run: seq<Cluster>, k: nat, i: NodeId, n: Node)
    requires k < |run| && VotesOk(run, k) && OneServer(run, k, i) && n.term >= run[k].nodes[i].term
    requires run[k + 1].nodes[i] == BeginElection(n, i)
    requires forall call :: call in run[k + 1].calls && call !in run[k].calls ==> call.callee != i
    ensures Counted(run, k + 1, i)
  {
    assert CastAt(run, k + 1, i, n.term + 1, i);
    assert |{i}| == 1 && {i} <= Ids(|run[k + 1].nodes|);
    NoCallToSelf(run, k, i, n.term + 1);
    assert Tally(run, k + 1, i, {i});
  }

  /** Counting a reply adds a voter that was not counted before, because its call was still open. */
  lemma VoteCounted(run: seq<Cluster>, k: nat, i: NodeId, src: NodeId, args: VoteArgs, reply: VoteReply)
    requires k < |run| && VotesOk(run, k) && OneServer(run, k, i) && |run[k].nodes[i].logs| >= 1
    requires VoteResponse(src, args, reply) in run[k].net && args.candidate == i && Call(i, args.term, src) in run[k].calls
    requires run[k + 1].nodes[i] == HandleVoteReply(run[k].nodes[i], i, |run[k].nodes|, args, reply)
    requires run[k + 1].calls == run[k].calls - {Call(i, args.term, src)}
    ensures Counted(run, k + 1, i)
  {
    var n, n' := run[k].nodes[i], run[k + 1].nodes[i];
    if n'.role == Candidate {
      assert Counted(run, k, i);
      var q :| Tally(run, k, i, q);
      if n'.voteCount == n.voteCount {
        TallyStays(run, k, i, i, q);
      } else {
        assert src !in q;
        assert GrantOk(run, k, VoteResponse(src, args, reply));
        NewVoter(run, k, i, src, q);
      }
    }
  }

  lemma NewVoter(run: seq<Cluster>, k: nat, i: NodeId, src: NodeId, q: set<NodeId>)
    requires OneServer(run, k, i) && Tally(run, k, i, q) && src !in q && src < |run[k].nodes|
    requires Cast(run, k, src, run[k].nodes[i].term, i)
    requires run[k + 1].nodes[i].term == run[k].nodes[i].term && run[k + 1].nodes[i].voteCount == run[k].nodes[i].voteCount + 1
    requires run[k + 1].calls == run[k].calls - {Call(i, run[k].nodes[i].term, src)}
    ensures Tally(run, k + 1, i, q + {src})
  {
    forall v | v in q + {src}
      ensures Cast(run, k + 1, v, run[k].nodes[i].term, i)
    {
      CastStays(run, k, v, run[k].nodes[i].term, i);
    }
  }

  /** A server that stays a candidate of its term by any other work keeps its count. */
  lemma StillCounted(run: seq<Cluster>, k: nat, i: NodeId)
    requires k < |run| && VotesOk(run, k) && OneServer(run, k, i) && run[k + 1].calls <= run[k].calls
    requires run[k + 1].nodes[i].role == Candidate ==>
               run[k].nodes[i].role == Candidate && run[k + 1].nodes[i].term == run[k].nodes[i].term &&
               run[k + 1].nodes[i].voteCount == run[k].nodes[i].voteCount
    ensures Counted(run, k + 1, i)
  {
    if run[k + 1].nodes[i].role == Candidate {
      assert Counted(run, k, i);
      var q :| Tally(run, k, i, q);
      TallyStays(run, k, i, i, q);
    }
  }

  // ----- Every event -----------------------------------------------------------------------

  lemma DoKeeps(run: seq<Cluster>, k: nat, i: NodeId, w: Work)
    requires k + 1 < |run| && VotesOk(run, k) && Possible(run[k], Do(i, w)) && run[k + 1] == After(run[k], Do(i, w))
    ensures VotesOk(run, k + 1)
  {
    hide VotesOk, Counted, GrantOk;
    WorkMoves(run[k], i, w);
    match w
    case OnTimeout => Elects(run, k, i, run[k].nodes[i]);
    case OnTimeoutNow(args) =>
      if HandleTimeoutNow(run[k].nodes[i], i, args).reply {
        Elects(run, k, i, Meet(run[k].nodes[i], args.term));
      } else {
        Quiet(run, k, i, w);
      }
    case OnVoteResponse(src, args, reply) => CountsVote(run, k, i, src, args, reply);
    case OnVoteRequest(args) => Answers(run, k, i, args);
    case _ => Quiet(run, k, i, w);
  }

  /** What holds of every work: one server changes, its term does not fall. */
  lemma WorkMoves(c: Cluster, i: NodeId, w: Work)
    requires Possible(c, Do(i, w))
    ensures var c' := After(c, Do(i, w));
            && |c'.nodes| == |c.nodes| && i < |c.nodes| && c.nodes[i].term <= c'.nodes[i].term && |c.nodes[i].logs| >= 1
            && (forall j :: 0 <= j < |c.nodes| && j != i ==> c'.nodes[j] == c.nodes[j])
            && (forall call :: call in c'.calls && call !in c.calls ==> call.caller == i)
  {
    hide HandleAppend, Commands, LeaderCommit, ApplyBatch;
    LocalTerm(c, i, w);
  }

  lemma LocalTerm(c: Cluster, i: NodeId, w: Work)
    requires Shaped(c) && i < |c.nodes| && Enabled(c, i, w)
    ensures c.nodes[i].term <= Local(c, i, w).0.term
  {
    if w.OnAppendRequest? {
      AppendTerm(c.nodes[i], w.appendArgs);
    }
  }

  lemma AppendTerm(n: Node, args: AppendArgs)
    requires |n.logs| >= 1
    ensures var r := HandleAppend(n, args).node; n.term <= r.term && (r.role == Candidate ==> r == n)
  {
  }

  lemma Elects(run: seq<Cluster>, k: nat, i: NodeId, n: Node)
    requires k + 1 < |run| && VotesOk(run, k) && OneServer(run, k, i) && n.term >= run[k].nodes[i].term && |n.logs| >= 1
    requires run[k + 1].nodes[i] == BeginElection(n, i)
    requires run[k + 1].net == run[k].net + VoteRequests(VoteRound(BeginElection(n, i), i), i, |run[k].nodes|)
    requires run[k + 1].calls == run[k].calls + VoteCalls(VoteRound(BeginElection(n, i), i), i, |run[k].nodes|)
    ensures VotesOk(run, k + 1)
  {
    RoundBegins(run, k, i, n);
    EventKeeps(run, k, i);
  }

  lemma CountsVote(run: seq<Cluster>, k: nat, i: NodeId, src: NodeId, args: VoteArgs, reply: VoteReply)
    requires k + 1 < |run| && VotesOk(run, k) && OneServer(run, k, i)
    requires Possible(run[k], Do(i, OnVoteResponse(src, args, reply)))
    requires run[k + 1] == After(run[k], Do(i, OnVoteResponse(src, args, reply)))
    ensures VotesOk(run, k + 1)
  {
    hide HandleVoteReply, VotesOk, Counted, GrantOk;
    VoteCounted(run, k, i, src, args, reply);
    EventKeeps(run, k, i);
  }

  lemma Answers(run: seq<Cluster>, k: nat, i: NodeId, args: VoteArgs)
    requires k + 1 < |run| && VotesOk(run, k) && OneServer(run, k, i)
    requires Possible(run[k], Do(i, OnVoteRequest(args))) && run[k + 1] == After(run[k], Do(i, OnVoteRequest(args)))
    ensures VotesOk(run, k + 1)
  {
    hide VotesOk, Counted;
    var o := HandleVote(run[k].nodes[i], args);
    if o.reply.granted {
      assert CastAt(run, k + 1, i, args.term, args.candidate);
    }
    StillCounted(run, k, i);
    EventKeeps(run, k, i);
  }

  /** The work neither elects, nor counts, nor answers a vote. */
  lemma Quiet(run: seq<Cluster>, k: nat, i: NodeId, w: Work)
    requires k + 1 < |run| && VotesOk(run, k) && OneServer(run, k, i)
    requires Possible(run[k], Do(i, w)) && run[k + 1] == After(run[k], Do(i, w))
    requires !w.OnTimeout? && !w.OnVoteResponse? && !w.OnVoteRequest?
    requires w.OnTimeoutNow? ==> !HandleTimeoutNow(run[k].nodes[i], i, w.timeoutArgs).reply
    ensures VotesOk(run, k + 1)
  {
    hide VotesOk, Counted, HandleAppend, HandleAppendReply, TakeSnapshot, ApplyBatch, HeartbeatFor;
    QuietWork(run[k], i, w);
    StillCounted(run, k, i);
    EventKeeps(run, k, i);
  }

  lemma QuietWork(c: Cluster, i: NodeId, w: Work)
    requires Shaped(c) && i < |c.nodes| && Enabled(c, i, w)
    requires !w.OnTimeout? && !w.OnVoteResponse? && !w.OnVoteRequest?
    requires w.OnTimeoutNow? ==> !HandleTimeoutNow(c.nodes[i], i, w.timeoutArgs).reply
    ensures var n, n' := c.nodes[i], Local(c, i, w).0;
            n'.role == Candidate ==> n.role == Candidate && n'.term == n.term && n'.voteCount == n.voteCount
    ensures forall m :: m in Sends(c, i, w) ==> !m.VoteResponse?
    ensures CallsAfter(c, i, w) == c.calls
  {
    if w.OnAppendRequest? {
      AppendTerm(c.nodes[i], w.appendArgs);
    }
  }

  lemma RestartKeeps(run: seq<Cluster>, k: nat, i: NodeId, d: Durable)
    requires k + 1 < |run| && VotesOk(run, k) && i < |run[k].nodes| && |run[k].streams| == |run[k].nodes|
    requires run[k + 1] == Restart(run[k], i, d) && run[k].nodes[i].term <= d.term
    ensures VotesOk(run, k + 1)
  {
    hide VotesOk, Counted, GrantOk;
    StillCounted(run, k, i);
    EventKeeps(run, k, i);
  }

  // ----- Runs ------------------------------------------------------------------------------

  /** No durable state written by a work is of an earlier term. */
  lemma TrailTerm(c: Cluster, i: NodeId, w: Work, x: nat)
    requires Shaped(c) && i < |c.nodes| && Enabled(c, i, w) && x < |Local(c, i, w).1|
    ensures c.nodes[i].term <= Local(c, i, w).1[x].term
  {
    if w.OnAppendRequest? {
      AppendTrailTerm(c.nodes[i], w.appendArgs, x);
    }
  }

  lemma AppendTrailTerm(n: Node, args: AppendArgs, x: nat)
    requires |n.logs| >= 1 && x < |HandleAppend(n, args).trail|
    ensures n.term <= HandleAppend(n, args).trail[x].term
  {
    hide FirstMissing, BeforeRun;
    var m := Recognise(n, args);
    var trail := Follow(m, args).trail;
    assert forall y :: 0 <= y < |trail| ==> trail[y].term == m.term;
  }

  lemma StepKeeps(run: seq<Cluster>, k: nat)
    requires k + 1 < |run| && VotesOk(run, k) && Steps(run[k], run[k + 1])
    ensures VotesOk(run, k + 1)
  {
    hide VotesOk, Enabled, Local, Execute;
    var e :| Possible(run[k], e) && run[k + 1] == After(run[k], e);
    match e
    case Do(i, w) => DoKeeps(run, k, i, w);
    case Crash(i) => RestartKeeps(run, k, i, run[k].nodes[i].Saved());
    case CrashDuring(i, w, x) =>
      TrailTerm(run[k], i, w, x);
      RestartKeeps(run, k, i, Local(run[k], i, w).1[x]);
  }

  lemma {:induction false} RunKeeps(run: seq<Cluster>, peers: nat, k: nat)
    requires IsRun(run, peers) && k < |run|
    ensures VotesOk(run, k) && |run[k].nodes| == peers
    decreases k
  {
    hide VotesOk, Steps;
    if k == 0 {
      StartVotes(run, peers);
    } else {
      RunKeeps(run, peers, k - 1);
      var j := k - 1;
      assert Steps(run[j], run[j + 1]);
      StepKeeps(run, j);
      SameServers(run[j], run[j + 1]);
    }
  }

  lemma StartVotes(run: seq<Cluster>, peers: nat)
    requires |run| >= 1 && run[0] == FreshCluster(peers)
    ensures VotesOk(run, 0) && |run[0].nodes| == peers
  {
  }

  lemma SameServers(c: Cluster, c': Cluster)
    requires Steps(c, c')
    ensures |c'.nodes| == |c.nodes|
  {
    hide Enabled, Local, Sends, CallsAfter;
  }

  /**
   A candidate has counted as many votes as there are distinct servers that, at some moment of the run
   so far, stood in its term with their vote given to it.
   */
  lemma VotesAreDistinct(run: seq<Cluster>, peers: nat, k: nat, i: NodeId) returns (q: set<NodeId>)
    requires IsRun(run, peers) && k < |run| && i < |run[k].nodes| && run[k].nodes[i].role == Candidate
    ensures q <= Ids(peers) && |q| == run[k].nodes[i].voteCount
    ensures forall v :: v in q ==> exists j: nat :: j <= k && CastAt(run, j, v, run[k].nodes[i].term, i)
  {
    hide IsRun;
    RunKeeps(run, peers, k);
    assert Counted(run, k, i);
    q :| Tally(run, k, i, q);
    forall v | v in q
      ensures exists j: nat :: j <= k && CastAt(run, j, v, run[k].nodes[i].term, i)
    {
      assert Cast(run, k, v, run[k].nodes[i].term, i);
    }
  }
}
