/**
 A run in which a follower gets stuck.  A new leader probes the follower twice before the first answer comes;
 the first refusal makes it go back and succeed, the second, late one makes it go back once more although
 everything is known to match.  The follower then compacts its log and restarts: it refuses every further
 message, and the leader takes every refusal for a late one.
 */
module RaftStuckRun {
  import opened RaftTypes
  import opened RaftNode
  import opened RaftCluster
  import opened RaftSafety
  import opened RaftSteps
  import opened RaftProbe
  import opened RaftCommit

  function Blank(): Node {
    Recover(BLANK, 3)
  }

  /** The log with both commands. */
  function Full(x: Bytes, y: Bytes): Log {
    [SENTINEL, Entry(x, 1), Entry(y, 1)]
  }

  // ----- A first leader commits two commands -----------------------------------------------------

  function FirstLeader(): Node {
    BeginElection(Blank(), 0).(voteCount := 2, role := Leader, leaderId := Some(0), matchIndex := [0, 0, 0], nextIndex := [1, 1, 1])
  }

  function Helper(): Node {
    Blank().(term := 1, voteFor := Some(0))
  }

  lemma FirstElection(a: Cluster) returns (c: Cluster)
    requires a == FreshCluster(3) && Accounted(a)
    ensures Leads(a, c) && Accounted(c) && c.nodes == [FirstLeader(), Helper(), Blank()]
  {
    hide Leads, Accounted;
    Stay(a);
    assert a.nodes == [Blank(), Blank(), Blank()];
    var c1 := Stands(a, a, 0);
    var args := VoteArgs(1, 0, 0, 0);
    assert VoteRound(BeginElection(Blank(), 0), 0) == args;
    var c2 := Votes(a, c1, 1, args);
    c := Counts(a, c2, 0, 1, args, VoteReply(1, true));
    assert Repeat(0, 3) == [0, 0, 0] && Repeat(1, 3) == [1, 1, 1];
  }

  function Writer(x: Bytes, y: Bytes): Node {
    FirstLeader().(logs := Full(x, y))
  }

  function Offer(x: Bytes, y: Bytes, term: nat, commit: nat): AppendArgs {
    AppendArgs(term, 0, 0, 0, [Entry(x, 1), Entry(y, 1)], commit, [], 0, 0)
  }

  function Holder(x: Bytes, y: Bytes): Node {
    Helper().(logs := Full(x, y), leaderId := Some(0))
  }

  /** The log offered from the start on is taken over whole. */
  lemma TakesOffer(n: Node, x: Bytes, y: Bytes, term: nat, commit: nat)
    requires n.logs == [SENTINEL] && n.snapshotIndex == 0 && n.commitIndex == 0 && n.term <= term && commit <= 2
    ensures var o := HandleAppend(n, Offer(x, y, term, commit));
            && o.reply == AppendReply(term, true, 0)
            && o.node == Recognise(n, Offer(x, y, term, commit)).(logs := Full(x, y), commitIndex := commit)
  {
    var args := Offer(x, y, term, commit);
    var m := Recognise(n, args);
    assert FirstMissing(m, 0, args.entries, 0) == 0;
    assert m.logs[..1] + args.entries[0..] == Full(x, y);
  }

  lemma OfferMade(n: Node, x: Bytes, y: Bytes, j: NodeId)
    requires n.logs == Full(x, y) && n.snapshotIndex == 0 && j < |n.nextIndex| && n.nextIndex[j] == 1
    ensures HeartbeatFor(n, 0, j) == Offer(x, y, n.term, n.commitIndex)
  {
    assert n.logs[1..] == [Entry(x, 1), Entry(y, 1)];
  }

  function Committed(x: Bytes, y: Bytes): Node {
    Writer(x, y).(commitIndex := 2, matchIndex := [0, 2, 0], nextIndex := [1, 3, 1])
  }

  lemma CommitsBoth(x: Bytes, y: Bytes)
    ensures HandleAppendReply(Writer(x, y), 0, 1, Offer(x, y, 1, 0), AppendReply(1, true, 0)) == Committed(x, y)
  {
    var m := [0, 2, 0];
    assert Writer(x, y).matchIndex[1 := 2] == m && Writer(x, y).nextIndex[1 := 3] == [1, 3, 1];
    assert CountHolders(m, 0, 2, 0) == 0;
    assert CountHolders(m, 0, 2, 1) == 0;
    assert CountHolders(m, 0, 2, 2) == 1;
    assert CountHolders(m, 0, 2, 3) == 1;
  }

  lemma FirstReign(a: Cluster, c: Cluster, x: Bytes, y: Bytes) returns (c': Cluster)
    requires Leads(a, c) && Accounted(c) && c.nodes == [FirstLeader(), Helper(), Blank()]
    ensures Leads(a, c') && Accounted(c') && c'.nodes == [Committed(x, y), Holder(x, y), Blank()]
  {
    hide Leads, Accounted, HandleAppend, HandleAppendReply, HeartbeatFor;
    var c1 := Starts(a, c, 0, x);
    var c2 := Starts(a, c1, 0, y);
    assert [SENTINEL] + [Entry(x, 1)] + [Entry(y, 1)] == Full(x, y);
    assert c2.nodes[0] == Writer(x, y);
    OfferMade(Writer(x, y), x, y, 1);
    var c3 := Beats(a, c2, 0, 1);
    TakesOffer(Helper(), x, y, 1, 0);
    var c4 := Hears(a, c3, 1, Offer(x, y, 1, 0));
    assert c4.nodes[1] == Holder(x, y);
    CommitsBoth(x, y);
    c' := Learns(a, c4, 0, 1, Offer(x, y, 1, 0), AppendReply(1, true, 0));
  }

  // ----- The same server leads again, in term 3 --------------------------------------------------

  function Again(x: Bytes, y: Bytes, match2: nat, next2: nat): Node {
    Node(3, Some(0), Full(x, y), Leader, Some(0), 2, 2, 0, 0, [], [0, 0, match2], [3, 3, next2])
  }

  lemma SecondElection(a: Cluster, c: Cluster, x: Bytes, y: Bytes) returns (c': Cluster)
    requires Leads(a, c) && Accounted(c) && c.nodes == [Committed(x, y), Holder(x, y), Blank()]
    ensures Leads(a, c') && Accounted(c') && |c'.nodes| == 3 && c'.nodes[0] == Again(x, y, 0, 3) && c'.nodes[2] == Blank()
  {
    hide Leads, Accounted;
    var c1 := Adopts(a, c, 0, 2);
    var c2 := Stands(a, c1, 0);
    var args := VoteArgs(3, 0, 2, 1);
    assert VoteRound(c2.nodes[0], 0) == args;
    var c3 := Votes(a, c2, 1, args);
    c' := Counts(a, c3, 0, 1, args, VoteReply(3, true));
    assert Repeat(0, 3) == [0, 0, 0] && Repeat(3, 3) == [3, 3, 3];
  }

  const PROBE := AppendArgs(3, 0, 2, 1, [], 2, [], 0, 0)

  const REFUSAL := AppendReply(3, false, 0)

  function Refuser(): Node {
    Blank().(term := 3, leaderId := Some(0))
  }

  lemma ProbeMade(x: Bytes, y: Bytes)
    ensures HeartbeatFor(Again(x, y, 0, 3), 0, 2) == PROBE
    ensures HandleAppend(Blank(), PROBE).reply == REFUSAL && HandleAppend(Blank(), PROBE).node == Refuser()
  {
    assert Full(x, y)[3..] == [];
  }

  /** The refusal makes the leader go back to the start, whenever it comes, as long as no more than the probe is known to match. */
  lemma GoesBack(x: Bytes, y: Bytes, match2: nat, next2: nat)
    requires match2 <= 2
    ensures HandleAppendReply(Again(x, y, match2, next2), 0, 2, PROBE, REFUSAL) == Again(x, y, match2, 1)
  {
    assert [3, 3, next2][2 := 1] == [3, 3, 1];
  }

  function Follower2(x: Bytes, y: Bytes): Node {
    Refuser().(logs := Full(x, y), commitIndex := 2)
  }

  lemma Matched(x: Bytes, y: Bytes)
    ensures HandleAppendReply(Again(x, y, 0, 1), 0, 2, Offer(x, y, 3, 2), AppendReply(3, true, 0)) == Again(x, y, 2, 3)
  {
    assert [0, 0, 0][2 := 2] == [0, 0, 2] && [3, 3, 1][2 := 3] == [3, 3, 3];
  }

  /** Refused, gone back, accepted; and then the late refusal. */
  lemma LateRefusal(a: Cluster, c: Cluster, x: Bytes, y: Bytes) returns (c': Cluster)
    requires Leads(a, c) && Accounted(c) && |c.nodes| == 3 && c.nodes[0] == Again(x, y, 0, 3) && c.nodes[2] == Blank()
    ensures Leads(a, c') && Accounted(c') && |c'.nodes| == 3 && c'.nodes[0] == Again(x, y, 2, 1) && c'.nodes[2] == Follower2(x, y)
  {
    hide Leads, Accounted, HandleAppend, HandleAppendReply, HeartbeatFor, Again;
    Leading(x, y, 0, 3);
    Leading(x, y, 0, 1);
    ProbeMade(x, y);
    var c1 := Beats(a, c, 0, 2);
    var c2 := Hears(a, c1, 2, PROBE);
    GoesBack(x, y, 0, 3);
    var c3 := Learns(a, c2, 0, 2, PROBE, REFUSAL);
    OfferMade(Again(x, y, 0, 1), x, y, 2);
    var c4 := Beats(a, c3, 0, 2);
    TakesOffer(Refuser(), x, y, 3, 2);
    var c5 := Hears(a, c4, 2, Offer(x, y, 3, 2));
    Matched(x, y);
    var c6 := Learns(a, c5, 0, 2, Offer(x, y, 3, 2), AppendReply(3, true, 0));
    GoesBack(x, y, 2, 3);
    c' := Learns(a, c6, 0, 2, PROBE, REFUSAL);
  }

  lemma Leading(x: Bytes, y: Bytes, match2: nat, next2: nat)
    ensures var n := Again(x, y, match2, next2);
            && n.role == Leader && n.logs == Full(x, y) && n.snapshotIndex == 0 && n.term == 3 && n.commitIndex == 2
            && |n.nextIndex| == 3 && n.nextIndex[2] == next2
  {
  }

  // ----- The follower compacts and restarts -----------------------------------------------------

  lemma CutAndRestart(a: Cluster, c: Cluster, x: Bytes, y: Bytes) returns (c': Cluster)
    requires Leads(a, c) && Accounted(c) && |c.nodes| == 3 && c.nodes[0] == Again(x, y, 2, 1) && c.nodes[2] == Follower2(x, y)
    ensures Leads(a, c') && Accounted(c') && |c'.nodes| == 3 && c'.nodes[0] == Again(x, y, 2, 1)
    ensures var f := c'.nodes[2];
            |f.logs| >= 1 && f.term == 3 && f.snapshotIndex == f.commitIndex == 1
  {
    hide Leads, Accounted;
    var c1 := Applies(a, c, 2);
    var c2, state := Compacts(a, c1, 2, 1);
    c' := Crashes(a, c2, 2);
  }

  /**
   The leader has committed two commands and knows that the follower holds both; the follower has committed
   one, and no number of rounds, whatever further commands the leader takes in, will ever tell it of more.
   */
  lemma SomeoneGetsStuck(x: Bytes, y: Bytes) returns (run: seq<Cluster>)
    ensures IsRun(run, 3) && |run| >= 1 && |run[|run| - 1].nodes| == 3
    ensures var l, f := run[|run| - 1].nodes[0], run[|run| - 1].nodes[2];
            && l.role == Leader && |l.logs| >= 1 && |l.matchIndex| == 3 && l.matchIndex[2] == l.Last() == 2 && l.commitIndex == 2
            && f.term == l.term && f.commitIndex == 1
            && forall more, k: nat, q ::
                 Repeats(Pair(l.(logs := l.logs + more), f), 0, 2, k, q) ==> q.follower.logs == f.logs && q.follower.commitIndex == 1
  {
    hide Leads, Accounted, IsRun;
    var start := FreshCluster(3);
    FreshStart();
    var c1 := FirstElection(start);
    var c2 := FirstReign(start, c1, x, y);
    var c3 := SecondElection(start, c2, x, y);
    var c4 := LateRefusal(start, c3, x, y);
    var c := CutAndRestart(start, c4, x, y);
    run := RunGoesOn([start], 3, c);
    forall more, k: nat, q | Repeats(Pair(c.nodes[0].(logs := c.nodes[0].logs + more), c.nodes[2]), 0, 2, k, q)
      ensures q.follower.logs == c.nodes[2].logs && q.follower.commitIndex == 1
    {
      StuckStays(Pair(c.nodes[0].(logs := c.nodes[0].logs + more), c.nodes[2]), 0, 2, k, q);
    }
  }

  lemma FreshStart()
    ensures IsRun([FreshCluster(3)], 3) && Accounted(FreshCluster(3))
  {
    hide Related;
    FreshRelated(3);
  }
}
