/**
 How the leader's commit index reaches a follower that is known to hold the whole log: exactly when one
 heartbeat carries it over, and exactly when any number of them does.
 */
module RaftCommit {
  import opened RaftTypes
  import opened RaftNode
  import opened RaftCluster
  import opened RaftRefinement
  import opened RaftSafety
  import opened RaftTheorems
  import opened RaftSteps
  import opened RaftProbe
  import H = RaftHistory

  // ----- A leader and a follower that holds its log ------------------------------------------

  /** The follower's uncompacted log lf has all of the leader's ll, and the leader knows it. */
  ghost predicate Holds(p: Pair, peer: NodeId, ll: Log, lf: Log) {
    var l, f := p.leader, p.follower;
    && Probing(p, peer) && View(l.logs, l.snapshotIndex, ll) && View(f.logs, f.snapshotIndex, lf)
    && Agree(lf, ll, |ll|) && l.matchIndex[peer] == l.Last()
    && l.commitIndex <= l.Last() && f.snapshotIndex <= l.Last()
  }

  lemma {:induction false} LaterTermPrefix(h: H.History, n: nat, l: Log, len: nat, t: nat, t': nat)
    requires H.CommittedPrefix(h, n, l, len, t) && t <= t'
    ensures H.CommittedPrefix(h, n, l, len, t')
  {
    if len > 1 {
      var term: nat, k: nat :| H.Witness(h, n, l, len, t, term, k);
      assert H.Witness(h, n, l, len, t', term, k);
    }
  }

  /** Whatever a server of no later term has committed is in the leader's log. */
  lemma CommittedIsLed(c: Cluster, s: H.State, i: NodeId, j: NodeId)
    requires Related(c, s) && i < |c.nodes| && j < |c.nodes| && c.nodes[i].role == Leader && c.nodes[j].term <= c.nodes[i].term
    ensures i < |s.servers| == |c.nodes| && j < |s.servers|
    ensures Agree(s.servers[j].log, s.servers[i].log, c.nodes[j].commitIndex + 1)
    ensures |c.nodes[i].logs| >= 1 && |s.servers[i].log| == c.nodes[i].Last() + 1 && c.nodes[j].commitIndex <= c.nodes[i].Last()
  {
    hide H.Inv, H.CommittedPrefix, NodeRel, NetOk, CallsOk, StreamsOk, DeliveredOk;
    ExplainsNode(c, s, i);
    ExplainsNode(c, s, j);
    NodeInOrder(c, s, i);
    var n := c.nodes[j];
    CommittedUpTo(s, j, n, n.commitIndex);
    LeaderFacts(s, i, c.nodes[i]);
    LaterTermPrefix(s.h, |s.servers|, s.servers[j].log, n.commitIndex + 1, n.term, c.nodes[i].term);
    H.CommittedInLeader(s, s.servers[j].log, n.commitIndex + 1, c.nodes[i].term);
  }

  /** In every reachable state leader and follower are ready for a probe, and the follower's snapshot lies in the leader's log. */
  lemma ReachablePair(c: Cluster, s: H.State, i: NodeId, j: NodeId)
    requires Related(c, s) && i < |c.nodes| && j < |c.nodes| && c.nodes[i].role == Leader && c.nodes[j].term <= c.nodes[i].term
    ensures var p := Pair(c.nodes[i], c.nodes[j]); Probing(p, j) && Rooted(p)
    ensures c.nodes[j].snapshotIndex <= c.nodes[j].commitIndex <= c.nodes[i].Last()
    ensures c.nodes[i].snapshotIndex <= c.nodes[i].commitIndex <= c.nodes[i].Last()
  {
    hide Related;
    NodeInOrder(c, s, i);
    NodeInOrder(c, s, j);
    CommittedIsLed(c, s, i, j);
    WholeLog(c, s, i);
    WholeLog(c, s, j);
    var x := c.nodes[j].snapshotIndex;
    if c.nodes[i].snapshotIndex <= x {
      ViewTerm(c.nodes[i], s.servers[i].log, x);
      ViewTerm(c.nodes[j], s.servers[j].log, x);
    }
  }

  /** A match index that has reached the end of the leader's log tells the truth. */
  lemma MatchedHolds(c: Cluster, s: H.State, i: NodeId, j: NodeId)
    requires Related(c, s) && i < |c.nodes| && j < |c.nodes| && c.nodes[i].role == Leader && c.nodes[j].term <= c.nodes[i].term
    requires |c.nodes[i].logs| >= 1 && j < |c.nodes[i].matchIndex| && c.nodes[i].matchIndex[j] == c.nodes[i].Last()
    ensures i < |s.servers| && j < |s.servers| && Holds(Pair(c.nodes[i], c.nodes[j]), j, s.servers[i].log, s.servers[j].log)
  {
    hide H.Inv, NodeRel, Related;
    ReachablePair(c, s, i, j);
    WholeLog(c, s, i);
    WholeLog(c, s, j);
    CommittedIsLed(c, s, i, j);
    MatchedAgrees(c, s, i, j);
  }

  lemma MatchedAgrees(c: Cluster, s: H.State, i: NodeId, j: NodeId)
    requires Related(c, s) && i < |c.nodes| && j < |c.nodes| && c.nodes[i].role == Leader && c.nodes[j].term <= c.nodes[i].term
    requires |c.nodes[i].logs| >= 1 && j < |c.nodes[i].matchIndex| && c.nodes[i].matchIndex[j] == c.nodes[i].Last()
    ensures i < |s.servers| && j < |s.servers| && Agree(s.servers[j].log, s.servers[i].log, |s.servers[i].log|)
  {
    hide H.Inv, NetOk, CallsOk, StreamsOk, DeliveredOk, H.GoodLog;
    ExplainsNode(c, s, i);
    ExplainsNode(c, s, j);
    var l, t := c.nodes[i], c.nodes[i].term;
    LeaderFacts(s, i, l);
    CommittedIsLed(c, s, i, j);
    if l.Last() > 0 {
      var a := H.Ack(j, t, l.Last());
      assert a in s.h.acks;
      H.AckFact(s, a);
      assert s.servers[j].term == t;
    }
  }

  // ----- One message -------------------------------------------------------------------------

  /** The probe lies before what the follower has compacted, and the leader has entries from there on. */
  predicate Stuck(p: Pair, peer: NodeId)
    requires Probing(p, peer)
  {
    p.leader.snapshotIndex <= Prev(p, peer) < p.follower.snapshotIndex
  }

  function Heard(p: Pair, me: NodeId, peer: NodeId): Outcome<AppendReply>
    requires Probing(p, peer)
  {
    HandleAppend(p.follower, HeartbeatFor(p.leader, me, peer))
  }

  /** The probe is in both logs: the commit index comes over. */
  lemma ProbeHit(p: Pair, me: NodeId, peer: NodeId, ll: Log, lf: Log)
    requires Holds(p, peer, ll, lf) && p.leader.snapshotIndex <= Prev(p, peer) && p.follower.snapshotIndex <= Prev(p, peer)
    ensures var o, l, f := Heard(p, me, peer), p.leader, p.follower;
            && o.reply == AppendReply(l.term, true, 0)
            && o.node == Recognise(f, HeartbeatFor(l, me, peer)).(commitIndex := Max(f.commitIndex, l.commitIndex))
  {
    hide AppendTrail, BeforeRun, InstallSnapshot, MeetTrail, FirstMissing;
    var l, f, args := p.leader, p.follower, HeartbeatFor(p.leader, me, peer);
    var m := Recognise(f, args);
    AllPresent(m, lf, args, ll);
    ViewTerm(l, ll, args.prevLogIndex);
    ViewTerm(f, lf, args.prevLogIndex);
  }

  /** Nothing of the message is missing. */
  lemma AllPresent(m: Node, lf: Log, args: AppendArgs, ll: Log)
    requires View(m.logs, m.snapshotIndex, lf) && Agree(lf, ll, |ll|) && m.snapshotIndex <= args.prevLogIndex <= m.Last()
    requires args.prevLogIndex + |args.entries| < |ll|
    requires forall k :: 0 <= k < |args.entries| ==> args.entries[k] == ll[args.prevLogIndex + 1 + k]
    ensures FirstMissing(m, args.prevLogIndex, args.entries, 0) == |args.entries|
  {
    forall k | 0 <= k < |args.entries|
      ensures RaftNode.Present(m, args.prevLogIndex, args.entries, k)
    {
      var x := args.prevLogIndex + 1 + k;
      assert m.At(x) == lf[x] == ll[x];
    }
  }

  /** The leader's log does not reach back to the probe: its snapshot is sent, and goes no further than itself. */
  lemma SnapshotHeard(p: Pair, me: NodeId, peer: NodeId, ll: Log, lf: Log)
    requires Holds(p, peer, ll, lf) && Prev(p, peer) < p.leader.snapshotIndex
    ensures var o, l, f := Heard(p, me, peer), p.leader, p.follower;
            && o.reply.success && o.reply.term == l.term && o.node.term == l.term
            && o.node.commitIndex == (if l.snapshotIndex <= f.snapshotIndex then f.commitIndex else Max(f.commitIndex, l.snapshotIndex))
            && o.node.snapshotIndex == Max(l.snapshotIndex, f.snapshotIndex) && View(o.node.logs, o.node.snapshotIndex, lf)
  {
    var l, f := p.leader, p.follower;
    ViewTerm(l, ll, l.snapshotIndex);
    if f.snapshotIndex < l.snapshotIndex {
      ViewTerm(f, lf, l.snapshotIndex);
    }
  }

  /** The follower has compacted beyond the probe and refuses it. */
  lemma StuckRefuses(p: Pair, me: NodeId, peer: NodeId)
    requires Probing(p, peer) && Stuck(p, peer)
    ensures var o, l, f := Heard(p, me, peer), p.leader, p.follower;
            && o.reply == AppendReply(l.term, false, f.snapshotIndex)
            && o.node == Recognise(f, HeartbeatFor(l, me, peer))
  {
  }

  /** One heartbeat brings the follower's commit index up to the leader's exactly in these cases. */
  predicate OneIsEnough(p: Pair, peer: NodeId)
    requires Probing(p, peer)
  {
    var l, f, prev := p.leader, p.follower, Prev(p, peer);
    || l.commitIndex <= f.commitIndex
    || (l.snapshotIndex <= prev && f.snapshotIndex <= prev)
    || (prev < l.snapshotIndex && f.snapshotIndex < l.snapshotIndex && l.commitIndex <= l.snapshotIndex)
  }

  lemma HeardExactly(p: Pair, me: NodeId, peer: NodeId, ll: Log, lf: Log)
    requires Holds(p, peer, ll, lf)
    ensures Heard(p, me, peer).node.commitIndex >= p.leader.commitIndex <==> OneIsEnough(p, peer)
    ensures Heard(p, me, peer).node.commitIndex >= p.follower.commitIndex
  {
    hide HandleAppend, HeartbeatFor, View, Holds;
    HoldsProbing(p, peer, ll, lf);
    if Stuck(p, peer) {
      StuckRefuses(p, me, peer);
    } else if Prev(p, peer) < p.leader.snapshotIndex {
      SnapshotHeard(p, me, peer, ll, lf);
    } else {
      ProbeHit(p, me, peer, ll, lf);
    }
  }

  lemma HoldsProbing(p: Pair, peer: NodeId, ll: Log, lf: Log)
    requires Holds(p, peer, ll, lf)
    ensures Probing(p, peer) && KnownBeyond(p, peer)
  {
  }

  /**
   The leader's heartbeat and its handling at a follower that is known to hold the whole log bring the
   follower's commit index up to the leader's if and only if one heartbeat is enough.
   */
  lemma CommitTravelsExactly(c: Cluster, s: H.State, i: NodeId, j: NodeId)
    requires Related(c, s) && i < |c.nodes| && j < |c.nodes| && i != j && c.nodes[i].role == Leader && c.nodes[j].term <= c.nodes[i].term
    requires |c.nodes[i].logs| >= 1 && j < |c.nodes[i].matchIndex| && c.nodes[i].matchIndex[j] == c.nodes[i].Last()
    ensures Probing(Pair(c.nodes[i], c.nodes[j]), j)
    ensures var p, beat := Pair(c.nodes[i], c.nodes[j]), Do(i, OnHeartbeat);
            && Possible(c, beat)
            && var c1, hear := After(c, beat), Do(j, OnAppendRequest(HeartbeatFor(c.nodes[i], i, j)));
               && Possible(c1, hear)
               && (After(c1, hear).nodes[j].commitIndex >= c.nodes[i].commitIndex <==> OneIsEnough(p, j))
  {
    hide Related, HandleAppend, Holds;
    MatchedHolds(c, s, i, j);
    var p := Pair(c.nodes[i], c.nodes[j]);
    ReachablePair(c, s, i, j);
    HeardExactly(p, i, j, s.servers[i].log, s.servers[j].log);
    HeartbeatArrives(c, s, i, j);
  }

  /** The heartbeat is possible, and so is its handling. */
  lemma HeartbeatArrives(c: Cluster, s: H.State, i: NodeId, j: NodeId)
    requires Related(c, s) && i < |c.nodes| && j < |c.nodes| && i != j && c.nodes[i].role == Leader && c.nodes[j].term <= c.nodes[i].term
    ensures Probing(Pair(c.nodes[i], c.nodes[j]), j)
    ensures var p, beat := Pair(c.nodes[i], c.nodes[j]), Do(i, OnHeartbeat);
            && Possible(c, beat)
            && var c1, hear := After(c, beat), Do(j, OnAppendRequest(HeartbeatFor(c.nodes[i], i, j)));
               Possible(c1, hear) && After(c1, hear).nodes == c.nodes[j := Heard(p, i, j).node]
  {
    hide Related, HandleAppend, HeartbeatFor;
    ReachablePair(c, s, i, j);
    ShapedState(c, s);
    NodeInOrder(c, s, i);
    BeatSent(c, i, j);
  }

  lemma BeatSent(c: Cluster, i: NodeId, j: NodeId)
    requires Shaped(c) && i < |c.nodes| && j < |c.nodes| && i != j && c.nodes[i].role == Leader
    requires var n := c.nodes[i];
             (n.snapshotIndex > 0 ==> n.snapshot != []) && forall p :: 0 <= p < |c.nodes| ==> n.nextIndex[p] >= 1
    ensures Possible(c, Do(i, OnHeartbeat))
    ensures var c' := After(c, Do(i, OnHeartbeat));
            c'.nodes == c.nodes && AppendRequest(j, HeartbeatFor(c.nodes[i], i, j)) in c'.net && Shaped(c')
  {
    hide HeartbeatFor;
    assert j in Ids(|c.nodes[i].nextIndex|);
    assert AppendRequest(j, HeartbeatFor(c.nodes[i], i, j)) in Heartbeats(c.nodes[i], i);
  }

  // ----- Accepting and refusing ----------------------------------------------------------------

  /** A refusal names the follower's snapshot, its end, or the last index before the run of terms the probe fell into. */
  predicate NamesPlace(f: Node, prev: nat, r: nat)
    requires |f.logs| >= 1
  {
    if prev < f.snapshotIndex then r == f.snapshotIndex
    else if prev > f.Last() then r == f.Last()
    else
      && r < prev && (forall x :: r < x <= prev && f.snapshotIndex < x ==> f.At(x).term == f.At(prev).term)
      && (r == 0 || (f.snapshotIndex < r && f.At(r).term != f.At(prev).term))
  }

  lemma BeforeIsNamed(f: Node, prev: nat)
    requires |f.logs| >= 1 && f.snapshotIndex <= prev <= f.Last()
    ensures prev != f.snapshotIndex ==> NamesPlace(f, prev, BeforeRun(f, f.At(prev).term, prev))
  {
  }

  /** On compacted logs, with the uncompacted ones they stand for. */
  lemma HearsExactly(p: Pair, me: NodeId, peer: NodeId, ll: Log, lf: Log)
    requires Probing(p, peer) && View(p.leader.logs, p.leader.snapshotIndex, ll) && View(p.follower.logs, p.follower.snapshotIndex, lf)
    ensures var reply, prev, l, f := Heard(p, me, peer).reply, Prev(p, peer), p.leader, p.follower;
            && reply.term == l.term
            && (reply.success <==> prev < l.snapshotIndex ||
                                   (f.snapshotIndex <= prev < |lf| && prev < |ll| && lf[prev].term == ll[prev].term))
            && (!reply.success && prev != f.snapshotIndex ==> NamesPlace(f, prev, reply.lastMatchIndex))
  {
    hide AppendTrail, FirstMissing, BeforeRun;
    var l, f, prev := p.leader, p.follower, Prev(p, peer);
    var m := Recognise(f, HeartbeatFor(l, me, peer));
    if l.snapshotIndex <= prev {
      ViewTerm(l, ll, prev);
      if f.snapshotIndex <= prev <= f.Last() {
        ViewTerm(f, lf, prev);
        RunDependsOnLog(f, m, f.At(prev).term, prev);
        BeforeIsNamed(f, prev);
      }
    }
  }

  /**
   In every reachable state a follower of no later term accepts the leader's message if and only if it is a
   snapshot, or builds on a place the follower has not compacted away and up to which the two logs are
   identical; otherwise it names where to go on.
   */
  lemma AcceptsExactly(c: Cluster, s: H.State, i: NodeId, j: NodeId)
    requires Related(c, s) && i < |c.nodes| && j < |c.nodes| && c.nodes[i].role == Leader && c.nodes[j].term <= c.nodes[i].term
    ensures i < |s.servers| && j < |s.servers| && Probing(Pair(c.nodes[i], c.nodes[j]), j)
    ensures var p, l, f := Pair(c.nodes[i], c.nodes[j]), c.nodes[i], c.nodes[j];
            var reply, prev := Heard(p, i, j).reply, Prev(p, j);
            && (reply.success <==>
                  prev < l.snapshotIndex || (f.snapshotIndex <= prev && Agree(s.servers[j].log, s.servers[i].log, prev + 1)))
            && (!reply.success ==> NamesPlace(f, prev, reply.lastMatchIndex))
  {
    hide Related, HandleAppend, HeartbeatFor, H.Progress, NamesPlace;
    ReachablePair(c, s, i, j);
    WholeLog(c, s, i);
    WholeLog(c, s, j);
    var p, l, f := Pair(c.nodes[i], c.nodes[j]), c.nodes[i], c.nodes[j];
    var prev := Prev(p, j);
    HearsExactly(p, i, j, s.servers[i].log, s.servers[j].log);
    if l.snapshotIndex <= prev && f.snapshotIndex <= prev < |s.servers[j].log| {
      ViewTerm(l, s.servers[i].log, prev);
      ViewTerm(f, s.servers[j].log, prev);
      if f.At(prev).term == l.At(prev).term {
        SameState(c, s);
        WholeLogsMatch(c, s, j, c, s, i, prev);
      }
    }
  }

  // ----- Any number of rounds ----------------------------------------------------------------

  /** k rounds of probe, answer and reaction lead from p to q. */
  predicate Repeats(p: Pair, me: NodeId, peer: NodeId, k: nat, q: Pair)
    decreases k
  {
    if k == 0 then p == q else Probing(p, peer) && Repeats(Round(p, me, peer), me, peer, k - 1, q)
  }

  /** What the leader knows the follower to hold reaches beyond what the follower has compacted. */
  predicate KnownBeyond(p: Pair, peer: NodeId)
    requires Probing(p, peer)
  {
    p.follower.snapshotIndex <= p.leader.matchIndex[peer]
  }

  /** A stuck round leaves everything as it was, but for whom the follower recognises: the refusal is taken for a late one. */
  lemma StuckRound(p: Pair, me: NodeId, peer: NodeId)
    requires Probing(p, peer) && Stuck(p, peer) && KnownBeyond(p, peer)
    ensures var q, f := Round(p, me, peer), p.follower;
            && Probing(q, peer) && Stuck(q, peer) && KnownBeyond(q, peer) && q.leader == p.leader
            && q.follower.logs == f.logs && q.follower.snapshotIndex == f.snapshotIndex && q.follower.commitIndex == f.commitIndex
  {
    hide HandleAppend;
    StuckRefuses(p, me, peer);
  }

  /** However many rounds there are, and whatever has been added to the leader's log, a stuck follower learns nothing. */
  lemma {:induction false} StuckStays(p: Pair, me: NodeId, peer: NodeId, k: nat, q: Pair)
    requires Probing(p, peer) && Stuck(p, peer) && KnownBeyond(p, peer) && Repeats(p, me, peer, k, q)
    ensures q.leader == p.leader && q.follower.logs == p.follower.logs && q.follower.commitIndex == p.follower.commitIndex
    decreases k
  {
    hide Round;
    if k > 0 {
      StuckRound(p, me, peer);
      StuckStays(Round(p, me, peer), me, peer, k - 1, q);
    }
  }

  /** After the snapshot was sent, the next probe is at the end of the leader's log. */
  lemma SnapshotThenEnd(p: Pair, me: NodeId, peer: NodeId, ll: Log, lf: Log)
    requires Holds(p, peer, ll, lf) && Prev(p, peer) < p.leader.snapshotIndex
    ensures var q := Round(p, me, peer);
            && Holds(q, peer, ll, lf) && q.leader.snapshotIndex <= Prev(q, peer) && q.follower.snapshotIndex <= Prev(q, peer)
            && q.leader.commitIndex >= p.leader.commitIndex
  {
    hide HandleAppend, View;
    SnapshotHeard(p, me, peer, ll, lf);
  }

  /** Some number of rounds brings the follower's commit index up to c. */
  ghost predicate Reachable(p: Pair, me: NodeId, peer: NodeId, c: nat) {
    exists k: nat, q :: Repeats(p, me, peer, k, q) && q.follower.commitIndex >= c
  }

  lemma RoundFollower(p: Pair, me: NodeId, peer: NodeId)
    requires Probing(p, peer)
    ensures Repeats(p, me, peer, 1, Round(p, me, peer)) && Round(p, me, peer).follower == Heard(p, me, peer).node
  {
    assert Repeats(Round(p, me, peer), me, peer, 0, Round(p, me, peer));
  }

  lemma TwoRounds(p: Pair, me: NodeId, peer: NodeId)
    requires Probing(p, peer) && Probing(Round(p, me, peer), peer)
    ensures Repeats(p, me, peer, 2, Round(Round(p, me, peer), me, peer))
  {
    hide Round;
    RoundFollower(Round(p, me, peer), me, peer);
  }

  /**
   Repeating the rounds ever brings the follower's commit index up to the leader's if and only if it is there
   already or the follower is not stuck; and then two rounds are enough.
   */
  lemma CatchesUpExactly(p: Pair, me: NodeId, peer: NodeId, ll: Log, lf: Log)
    requires Holds(p, peer, ll, lf)
    ensures Reachable(p, me, peer, p.leader.commitIndex) <==> p.leader.commitIndex <= p.follower.commitIndex || !Stuck(p, peer)
  {
    hide Holds, Round, Heard;
    HoldsProbing(p, peer, ll, lf);
    var c := p.leader.commitIndex;
    if c <= p.follower.commitIndex {
      assert Repeats(p, me, peer, 0, p);
    } else if Stuck(p, peer) {
      forall k: nat, q | Repeats(p, me, peer, k, q)
        ensures q.follower.commitIndex < c
      {
        StuckStays(p, me, peer, k, q);
      }
    } else if Prev(p, peer) < p.leader.snapshotIndex {
      SnapshotThenEnd(p, me, peer, ll, lf);
      var q := Round(p, me, peer);
      HoldsProbing(q, peer, ll, lf);
      HeardExactly(q, me, peer, ll, lf);
      RoundFollower(q, me, peer);
      TwoRounds(p, me, peer);
    } else {
      HeardExactly(p, me, peer, ll, lf);
      RoundFollower(p, me, peer);
    }
  }
}
