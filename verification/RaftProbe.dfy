/**
 How a new leader finds out where a follower's log agrees with its own: one probe at a time, every
 rejection moves the next probe back by a whole run of equal terms, and a snapshot takes over where
 the leader's log begins.
 */
module RaftProbe {
  import opened RaftTypes
  import opened RaftNode

  /** A leader and one follower, with nothing else going on. */
  datatype Pair = Pair(leader: Node, follower: Node)

  predicate Probing(p: Pair, peer: NodeId) {
    var l, f := p.leader, p.follower;
    && l.Valid(|l.matchIndex|) && |f.logs| >= 1 && peer < |l.matchIndex|
    && l.role == Leader && f.term <= l.term
    && l.nextIndex[peer] >= 1
    && (l.snapshotIndex > 0 ==> l.snapshot != [])
  }

  /** One probe, its handling, and the leader's reaction to the answer. */
  function Round(p: Pair, me: NodeId, peer: NodeId): Pair
    requires Probing(p, peer)
  {
    var args := HeartbeatFor(p.leader, me, peer);
    var o := HandleAppend(p.follower, args);
    Pair(HandleAppendReply(p.leader, me, peer, args, o.reply), o.node)
  }

  /** The index the next probe is about. */
  function Prev(p: Pair, peer: NodeId): nat
    requires Probing(p, peer)
  {
    Min(p.leader.nextIndex[peer] - 1, p.leader.Last())
  }

  // ----- Runs of equal terms ---------------------------------------------------------------

  /** How many runs of equal terms the log has above the snapshot and up to index x. */
  function TermRuns(n: Node, x: nat): nat
    requires |n.logs| >= 1 && x <= n.Last()
    decreases x
  {
    if x <= n.snapshotIndex then 0
    else if x == n.snapshotIndex + 1 then 1
    else TermRuns(n, x - 1) + (if n.At(x).term != n.At(x - 1).term then 1 else 0)
  }

  /** Inside a run the count does not change. */
  lemma {:induction false} SameRun(n: Node, a: nat, b: nat)
    requires |n.logs| >= 1 && n.snapshotIndex < a <= b <= n.Last()
    requires forall i :: a <= i <= b ==> n.At(i).term == n.At(b).term
    ensures TermRuns(n, a) == TermRuns(n, b)
    decreases b
  {
    if a < b {
      SameRun(n, a, b - 1);
    }
  }

  /** Going back before the run an index is in leaves one run less, and none if the run reaches the snapshot. */
  lemma BackOneRun(n: Node, x: nat)
    requires |n.logs| >= 1 && n.snapshotIndex < x <= n.Last()
    ensures var r := BeforeRun(n, n.At(x).term, x);
            && r < x && (r > 0 ==> n.snapshotIndex < r && TermRuns(n, r) + 1 == TermRuns(n, x))
            && (r == 0 ==> TermRuns(n, x) == 1)
  {
    var r := BeforeRun(n, n.At(x).term, x);
    var first := if r == 0 then n.snapshotIndex + 1 else r + 1;
    SameRun(n, first, x);
  }

  // ----- Where the search stands -----------------------------------------------------------

  /** The follower's snapshot point lies in the leader's history. */
  predicate Rooted(p: Pair)
    requires |p.leader.logs| >= 1 && |p.follower.logs| >= 1
  {
    var l, f := p.leader, p.follower;
    f.snapshotIndex <= l.Last() && (l.snapshotIndex <= f.snapshotIndex ==> l.At(f.snapshotIndex).term == f.logs[0].term)
  }

  /** Nothing is known to match yet, or only the leader's snapshot is. */
  predicate Searching(p: Pair, peer: NodeId)
    requires Probing(p, peer)
  {
    var l, f := p.leader, p.follower;
    || l.matchIndex[peer] == 0
    || (l.matchIndex[peer] == l.snapshotIndex <= f.snapshotIndex &&
        (Prev(p, peer) == l.snapshotIndex || Prev(p, peer) == f.snapshotIndex))
  }

  /** An upper bound on the rounds still needed. */
  function RoundsLeft(p: Pair, peer: NodeId): nat
    requires Probing(p, peer)
  {
    var l, f, prev := p.leader, p.follower, Prev(p, peer);
    if prev < l.snapshotIndex then 3
    else if prev < f.snapshotIndex then 2
    else if prev == f.snapshotIndex then 1
    else if prev > f.Last() then TermRuns(f, f.Last()) + 4
    else TermRuns(f, prev) + 3
  }

  predicate Done(p: Pair, peer: NodeId)
    requires Probing(p, peer)
  {
    p.leader.matchIndex[peer] == p.leader.Last()
  }

  /** The state from which a round is played. */
  predicate Fit(p: Pair, peer: NodeId) {
    Probing(p, peer) && Rooted(p) && Searching(p, peer)
  }

  /** The leader's log is the same. */
  predicate SameLog(p: Pair, q: Pair) {
    q.leader.logs == p.leader.logs && q.leader.snapshotIndex == p.leader.snapshotIndex
  }

  // ----- One round -------------------------------------------------------------------------

  /** The leader after a rejection that names index r. */
  lemma Rejected(p: Pair, me: NodeId, peer: NodeId, r: nat)
    requires Fit(p, peer) && Prev(p, peer) >= p.leader.snapshotIndex && Prev(p, peer) >= p.leader.matchIndex[peer]
    requires var args := HeartbeatFor(p.leader, me, peer);
             HandleAppend(p.follower, args).reply == AppendReply(p.leader.term, false, r) &&
             HandleAppend(p.follower, args).node == Recognise(p.follower, args)
    ensures var q := Round(p, me, peer);
            && q.leader == p.leader.(nextIndex := p.leader.nextIndex[peer := r + 1])
            && q.follower.logs == p.follower.logs && q.follower.snapshotIndex == p.follower.snapshotIndex
            && Probing(q, peer) && Rooted(q) && Prev(q, peer) == Min(r, p.leader.Last())
  {
  }

  /** The leader after a success. */
  lemma Succeeded(p: Pair, me: NodeId, peer: NodeId, args: AppendArgs, reply: AppendReply)
    requires Fit(p, peer) && reply.success && reply.term == p.leader.term == args.term
    ensures var l, l' := p.leader, HandleAppendReply(p.leader, me, peer, args, reply);
            var m := Max(l.matchIndex[peer], NewMatch(args));
            && l'.Valid(|l'.matchIndex|) && |l'.matchIndex| == |l.matchIndex| && l'.matchIndex[peer] == m && l'.nextIndex[peer] == m + 1
            && l' == l.(matchIndex := l'.matchIndex, nextIndex := l'.nextIndex, commitIndex := l'.commitIndex)
  {
  }

  lemma RunsDependOnLog(f: Node, g: Node, x: nat)
    requires |f.logs| >= 1 && g.logs == f.logs && g.snapshotIndex == f.snapshotIndex && x <= f.Last()
    ensures TermRuns(g, x) == TermRuns(f, x)
    decreases x
  {
    if x > f.snapshotIndex + 1 {
      RunsDependOnLog(f, g, x - 1);
    }
  }

  /** The leader's log does not reach back to the probe: it sends its snapshot. */
  lemma SnapshotRound(p: Pair, me: NodeId, peer: NodeId)
    requires Fit(p, peer) && Prev(p, peer) < p.leader.snapshotIndex
    ensures var q := Round(p, me, peer);
            Fit(q, peer) && RoundsLeft(q, peer) < RoundsLeft(p, peer) && SameLog(p, q)
  {
    var l, f, q := p.leader, p.follower, Round(p, me, peer);
    var args := HeartbeatFor(l, me, peer);
    var o := HandleAppend(f, args);
    assert args.snapshot == l.snapshot && args.snapshotIndex == l.snapshotIndex;
    assert o.reply.success && o.reply.term == l.term;
    Succeeded(p, me, peer, args, o.reply);
    assert q.leader.matchIndex[peer] == l.snapshotIndex;
    assert q.follower.snapshotIndex == Max(f.snapshotIndex, l.snapshotIndex);
    assert Prev(q, peer) == l.snapshotIndex;
  }

  lemma MatchAccepted(p: Pair, me: NodeId, peer: NodeId)
    requires Fit(p, peer) && p.leader.snapshotIndex <= Prev(p, peer)
    requires var prev := Prev(p, peer);
             p.follower.snapshotIndex <= prev <= p.follower.Last() && p.follower.At(prev).term == p.leader.At(prev).term
    ensures var o := HandleAppend(p.follower, HeartbeatFor(p.leader, me, peer));
            o.reply == AppendReply(p.leader.term, true, 0) && |o.node.logs| >= 1 && o.node.term == p.leader.term
  {
    hide AcceptEntries, BeforeRun, InstallSnapshot, Searching, Rooted, MeetTrail;
    var args := HeartbeatFor(p.leader, me, peer);
    AcceptReplies(Recognise(p.follower, args), args);
  }

  lemma AcceptReplies(m: Node, args: AppendArgs)
    requires |m.logs| >= 1 && m.snapshotIndex <= args.prevLogIndex <= m.Last()
    ensures var o := AcceptEntries(m, args);
            o.reply == AppendReply(m.term, true, 0) && |o.node.logs| >= 1 && o.node.term == m.term
  {
    hide FirstMissing, AppendTrail;
  }

  /** The probe and the follower's log agree: everything follows. */
  lemma MatchRound(p: Pair, me: NodeId, peer: NodeId)
    requires Fit(p, peer) && p.leader.snapshotIndex <= Prev(p, peer)
    requires var prev := Prev(p, peer);
             p.follower.snapshotIndex <= prev <= p.follower.Last() && p.follower.At(prev).term == p.leader.At(prev).term
    ensures var q := Round(p, me, peer); Probing(q, peer) && Done(q, peer) && SameLog(p, q)
  {
    hide HandleAppendReply, TermRuns, RoundsLeft;
    var l, f := p.leader, p.follower;
    var args := HeartbeatFor(l, me, peer);
    var o := HandleAppend(f, args);
    assert args.prevLogIndex + |args.entries| == l.Last();
    assert o.reply == AppendReply(l.term, true, 0) && |o.node.logs| >= 1 && o.node.term == l.term by {
      MatchAccepted(p, me, peer);
    }
    Succeeded(p, me, peer, args, o.reply);
  }

  /** The follower names its own snapshot, which the leader knows. */
  lemma BehindSnapshotRound(p: Pair, me: NodeId, peer: NodeId)
    requires Fit(p, peer) && p.leader.snapshotIndex <= Prev(p, peer) < p.follower.snapshotIndex
    requires !Done(p, peer)
    ensures var q := Round(p, me, peer);
            Fit(q, peer) && RoundsLeft(q, peer) < RoundsLeft(p, peer) && SameLog(p, q)
  {
    Rejected(p, me, peer, p.follower.snapshotIndex);
  }

  /** The follower's log is too short. */
  lemma TooShortRound(p: Pair, me: NodeId, peer: NodeId)
    requires Fit(p, peer) && p.leader.snapshotIndex <= Prev(p, peer) && Prev(p, peer) > p.follower.Last()
    ensures var q := Round(p, me, peer);
            Fit(q, peer) && RoundsLeft(q, peer) < RoundsLeft(p, peer) && SameLog(p, q)
  {
    Rejected(p, me, peer, p.follower.Last());
    RunsDependOnLog(p.follower, Round(p, me, peer).follower, p.follower.Last());
  }

  /** The terms differ: the probe goes back before the follower's run. */
  lemma ConflictRound(p: Pair, me: NodeId, peer: NodeId)
    requires Fit(p, peer) && p.leader.snapshotIndex <= Prev(p, peer)
    requires var prev := Prev(p, peer);
             p.follower.snapshotIndex < prev <= p.follower.Last() && p.follower.At(prev).term != p.leader.At(prev).term
    ensures var q := Round(p, me, peer);
            Fit(q, peer) && RoundsLeft(q, peer) < RoundsLeft(p, peer) && SameLog(p, q)
  {
    hide Round, HandleAppend, BeforeRun, TermRuns;
    var f, prev := p.follower, Prev(p, peer);
    var r := ConflictReply(p, me, peer);
    BackOneRun(f, prev);
    if r > 0 {
      RunsDependOnLog(f, Round(p, me, peer).follower, r);
    }
  }

  /** The follower names the last index before the run of its own conflicting term. */
  lemma ConflictReply(p: Pair, me: NodeId, peer: NodeId) returns (r: nat)
    requires Fit(p, peer) && p.leader.snapshotIndex <= Prev(p, peer)
    requires var prev := Prev(p, peer);
             p.follower.snapshotIndex < prev <= p.follower.Last() && p.follower.At(prev).term != p.leader.At(prev).term
    ensures r == BeforeRun(p.follower, p.follower.At(Prev(p, peer)).term, Prev(p, peer))
    ensures var q := Round(p, me, peer);
            && q.leader == p.leader.(nextIndex := p.leader.nextIndex[peer := r + 1])
            && q.follower.logs == p.follower.logs && q.follower.snapshotIndex == p.follower.snapshotIndex
            && Probing(q, peer) && Rooted(q) && Prev(q, peer) == Min(r, p.leader.Last())
  {
    hide Round, BeforeRun;
    var prev := Prev(p, peer);
    var g := Recognise(p.follower, HeartbeatFor(p.leader, me, peer));
    r := BeforeRun(g, g.At(prev).term, prev);
    RunDependsOnLog(p.follower, g, g.At(prev).term, prev);
    Rejected(p, me, peer, r);
  }

  lemma {:induction false} RunDependsOnLog(f: Node, g: Node, t: nat, x: nat)
    requires |f.logs| >= 1 && g.logs == f.logs && g.snapshotIndex == f.snapshotIndex && f.snapshotIndex <= x <= f.Last()
    ensures BeforeRun(g, t, x) == BeforeRun(f, t, x)
    decreases x
  {
    if x > f.snapshotIndex {
      RunDependsOnLog(f, g, t, x - 1);
    }
  }

  /** Every round settles the matter or brings it closer. */
  lemma RoundProgresses(p: Pair, me: NodeId, peer: NodeId)
    requires Fit(p, peer) && !Done(p, peer)
    ensures var q := Round(p, me, peer);
            && Probing(q, peer) && SameLog(p, q)
            && (Done(q, peer) || (Fit(q, peer) && RoundsLeft(q, peer) < RoundsLeft(p, peer)))
  {
    hide Round, Searching;
    var l, f, prev := p.leader, p.follower, Prev(p, peer);
    if prev < l.snapshotIndex {
      SnapshotRound(p, me, peer);
    } else if prev < f.snapshotIndex {
      BehindSnapshotRound(p, me, peer);
    } else if prev > f.Last() {
      TooShortRound(p, me, peer);
    } else if f.At(prev).term == l.At(prev).term {
      MatchRound(p, me, peer);
    } else {
      ConflictRound(p, me, peer);
    }
  }

  // ----- All rounds ------------------------------------------------------------------------

  /** k rounds, none of them after the follower is known to hold everything, lead from p to q. */
  predicate Reaches(p: Pair, me: NodeId, peer: NodeId, k: nat, q: Pair)
    decreases k
  {
    if k == 0 then p == q
    else Probing(p, peer) && !Done(p, peer) && Reaches(Round(p, me, peer), me, peer, k - 1, q)
  }

  lemma {:induction false} SearchEnds(p: Pair, me: NodeId, peer: NodeId) returns (k: nat, q: Pair)
    requires Fit(p, peer)
    ensures k <= RoundsLeft(p, peer) && Reaches(p, me, peer, k, q)
    ensures Probing(q, peer) && Done(q, peer) && SameLog(p, q)
    decreases RoundsLeft(p, peer)
  {
    hide Round, Searching, Rooted;
    if Done(p, peer) {
      return 0, p;
    }
    RoundProgresses(p, me, peer);
    var p' := Round(p, me, peer);
    if Done(p', peer) {
      assert Reaches(p', me, peer, 0, p');
      return 1, p';
    }
    k, q := SearchEnds(p', me, peer);
    k := k + 1;
  }

  /**
   From fresh leadership the whole log is known to be on the follower after at most as many rounds as
   the follower's log has runs of equal terms, and four more.
   */
  lemma ProbeConverges(p: Pair, me: NodeId, peer: NodeId) returns (k: nat, q: Pair)
    requires Probing(p, peer) && Rooted(p) && p.leader.matchIndex[peer] == 0
    ensures Reaches(p, me, peer, k, q) && k <= TermRuns(p.follower, p.follower.Last()) + 4
    ensures Probing(q, peer) && q.leader.matchIndex[peer] == p.leader.Last()
  {
    k, q := SearchEnds(p, me, peer);
    var f, prev := p.follower, Prev(p, peer);
    if f.snapshotIndex < prev <= f.Last() {
      RunsGrow(f, prev, f.Last());
    }
  }

  lemma {:induction false} RunsGrow(n: Node, a: nat, b: nat)
    requires |n.logs| >= 1 && n.snapshotIndex < a <= b <= n.Last()
    ensures TermRuns(n, a) <= TermRuns(n, b)
    decreases b
  {
    if a < b {
      RunsGrow(n, a, b - 1);
    }
  }
}
