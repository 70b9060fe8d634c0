/**
 One Raft server as a value: what each critical section does to it, the reply it gives, and the
 durable states it writes on the way.  Logs are compacted: `logs[0]` is the sentinel standing at
 absolute index `snapshotIndex`.
 */
module RaftNode {
  import opened RaftTypes

  /** What the write-ahead log can bring back after a crash. */
  datatype Durable = Durable(term: nat, vote: Option<NodeId>, logs: Log, snapshotIndex: nat, snapshot: ServiceState)

  datatype Node = Node(
    term: nat,
    voteFor: Option<NodeId>,
    logs: Log,
    role: Role,
    leaderId: Option<NodeId>,
    voteCount: nat,
    commitIndex: nat,
    appliedIndex: nat,
    snapshotIndex: nat,
    snapshot: ServiceState,
    matchIndex: seq<nat>,
    nextIndex: seq<nat>)
  {
    predicate Valid(peers: nat) {
      |logs| >= 1 && |matchIndex| == peers && |nextIndex| == peers && snapshotIndex <= commitIndex
    }

    function Last(): nat
      requires |logs| >= 1
    {
      |logs| - 1 + snapshotIndex
    }

    function LastTerm(): nat
      requires |logs| >= 1
    {
      logs[|logs| - 1].term
    }

    function At(index: nat): Entry
      requires snapshotIndex <= index < snapshotIndex + |logs|
    {
      logs[index - snapshotIndex]
    }

    function Saved(): Durable {
      Durable(term, voteFor, logs, snapshotIndex, snapshot)
    }
  }

  datatype VoteArgs = VoteArgs(term: nat, candidate: NodeId, lastLogIndex: nat, lastLogTerm: nat)
  datatype VoteReply = VoteReply(term: nat, granted: bool)

  /** `snapshot` is empty unless the message installs a snapshot. */
  datatype AppendArgs = AppendArgs(
    term: nat, leader: NodeId, prevLogIndex: nat, prevLogTerm: nat, entries: seq<Entry>, leaderCommit: nat,
    snapshot: ServiceState, snapshotIndex: nat, snapshotTerm: nat)

  datatype AppendReply = AppendReply(term: nat, success: bool, lastMatchIndex: nat)

  datatype TimeoutArgs = TimeoutArgs(term: nat, leader: NodeId, lastLogIndex: nat, lastLogTerm: nat)

  datatype ApplyMsg =
    | Command(index: nat, command: Bytes)
    | Snapshot(index: nat, term: nat, state: ServiceState)

  /** The effect of a critical section: the new state, the reply, and every durable state written on the way. */
  datatype Outcome<R> = Outcome(node: Node, reply: R, trail: seq<Durable>)

  // ----- Recovery --------------------------------------------------------------------------

  const BLANK := Durable(0, None, [SENTINEL], 0, [])

  function Recover(d: Durable, peers: nat): Node {
    Node(d.term, d.vote, d.logs, Follower, None, 0, d.snapshotIndex, d.snapshotIndex, d.snapshotIndex, d.snapshot,
         seq(peers, _ => 0), seq(peers, _ => 0))
  }

  // ----- Elections -------------------------------------------------------------------------

  function StepDown(n: Node, t: nat): Node {
    n.(term := t, role := Follower, leaderId := None, voteFor := None, voteCount := 0)
  }

  /** Adopt a later term if the message carries one. */
  function Meet(n: Node, t: nat): Node {
    if t > n.term then StepDown(n, t) else n
  }

  function MeetTrail(n: Node, t: nat): seq<Durable> {
    if t > n.term then [StepDown(n, t).Saved()] else []
  }

  function BeginElection(n: Node, me: NodeId): Node {
    n.(term := n.term + 1, role := Candidate, leaderId := None, voteFor := Some(me), voteCount := 1)
  }

  predicate LogOk(n: Node, args: VoteArgs)
    requires |n.logs| >= 1
  {
    args.lastLogTerm > n.LastTerm() || (args.lastLogTerm == n.LastTerm() && args.lastLogIndex >= n.Last())
  }

  function HandleVote(n: Node, args: VoteArgs): Outcome<VoteReply>
    requires |n.logs| >= 1
  {
    if args.term < n.term then
      Outcome(n, VoteReply(n.term, false), [])
    else
      var m := Meet(n, args.term);
      if (m.voteFor == None || m.voteFor == Some(args.candidate)) && LogOk(m, args) then
        var r := m.(voteFor := Some(args.candidate));
        Outcome(r, VoteReply(r.term, true), MeetTrail(n, args.term) + [r.Saved()])
      else
        Outcome(m, VoteReply(m.term, false), MeetTrail(n, args.term))
  }

  function Repeat(x: nat, k: nat): seq<nat> {
    seq(k, _ => x)
  }

  function BecomeLeader(n: Node, me: NodeId, peers: nat): Node
    requires |n.logs| >= 1
  {
    n.(role := Leader, leaderId := Some(me), matchIndex := Repeat(0, peers), nextIndex := Repeat(n.Last() + 1, peers))
  }

  function HandleVoteReply(n: Node, me: NodeId, peers: nat, sent: VoteArgs, reply: VoteReply): Node
    requires |n.logs| >= 1
  {
    if reply.term > n.term then
      StepDown(n, reply.term)
    else if !reply.granted || n.role != Candidate || n.term != sent.term then
      n
    else
      var m := n.(voteCount := n.voteCount + 1);
      if m.voteCount > peers / 2 then BecomeLeader(m, me, peers) else m
  }

  predicate TimeoutAccepted(n: Node, args: TimeoutArgs)
    requires |n.logs| >= 1
  {
    && n.leaderId == Some(args.leader)
    && args.lastLogIndex == n.Last()
    && n.LastTerm() == args.lastLogTerm
  }

  function HandleTimeoutNow(n: Node, me: NodeId, args: TimeoutArgs): Outcome<bool>
    requires |n.logs| >= 1
  {
    if args.term < n.term then
      Outcome(n, false, [])
    else
      var m := Meet(n, args.term);
      if TimeoutAccepted(m, args) then
        var r := BeginElection(m, me);
        Outcome(r, true, MeetTrail(n, args.term) + [r.Saved()])
      else
        Outcome(m, false, MeetTrail(n, args.term))
  }

  // ----- Replication: the follower ---------------------------------------------------------

  /** Entry i of the message is already in the log. */
  predicate Present(n: Node, prev: nat, entries: seq<Entry>, i: nat)
    requires n.snapshotIndex <= prev && i < |entries| && |n.logs| >= 1
  {
    prev + 1 + i <= n.Last() && n.At(prev + 1 + i).term == entries[i].term
  }

  /** The first entry of the message that is not already in the log, or their number. */
  function FirstMissing(n: Node, prev: nat, entries: seq<Entry>, from: nat): (r: nat)
    requires |n.logs| >= 1 && n.snapshotIndex <= prev && prev + from <= n.Last() && from <= |entries|
    requires forall i :: 0 <= i < from ==> Present(n, prev, entries, i)
    ensures from <= r <= |entries| && prev + r <= n.Last()
    ensures forall i :: 0 <= i < r ==> Present(n, prev, entries, i)
    ensures r < |entries| ==> !Present(n, prev, entries, r)
    decreases |entries| - from
  {
    if from < |entries| && Present(n, prev, entries, from) then FirstMissing(n, prev, entries, from + 1) else from
  }

  /** The last index at or below `from`, above the snapshot, whose term is not t; 0 if there is none. */
  function BeforeRun(n: Node, t: nat, from: nat): (r: nat)
    requires |n.logs| >= 1 && n.snapshotIndex <= from <= n.Last()
    ensures r == 0 || (n.snapshotIndex < r <= from && n.At(r).term != t)
    ensures forall i :: r < i <= from && n.snapshotIndex < i ==> n.At(i).term == t
    decreases from
  {
    if from == n.snapshotIndex then 0
    else if n.At(from).term != t then from
    else BeforeRun(n, t, from - 1)
  }

  function Min(a: nat, b: nat): nat {
    if a <= b then a else b
  }

  function Max(a: nat, b: nat): nat {
    if a <= b then b else a
  }

  function InstallSnapshot(m: Node, args: AppendArgs): Node
    requires |m.logs| >= 1 && args.snapshotIndex > m.snapshotIndex
  {
    var keep := args.snapshotIndex <= m.Last() && m.At(args.snapshotIndex).term == args.snapshotTerm;
    var suffix := if keep then m.logs[args.snapshotIndex - m.snapshotIndex + 1..] else [];
    m.(snapshot := args.snapshot,
       logs := [Entry([], args.snapshotTerm)] + suffix,
       snapshotIndex := args.snapshotIndex,
       commitIndex := Max(m.commitIndex, args.snapshotIndex))
  }

  /** The durable states written while appending es one record at a time. */
  function AppendTrail(d: Durable, es: seq<Entry>): seq<Durable> {
    seq(|es|, x requires 0 <= x < |es| => d.(logs := d.logs + es[..x + 1]))
  }

  function AcceptEntries(m: Node, args: AppendArgs): Outcome<AppendReply>
    requires |m.logs| >= 1 && m.snapshotIndex <= args.prevLogIndex <= m.Last()
  {
    var i := FirstMissing(m, args.prevLogIndex, args.entries, 0);
    if i < |args.entries| then
      var kept := m.logs[..args.prevLogIndex + 1 + i - m.snapshotIndex];
      var cut := m.Saved().(logs := kept);
      Outcome(Commit(m.(logs := kept + args.entries[i..]), args.leaderCommit), AppendReply(m.term, true, 0),
              [cut] + AppendTrail(cut, args.entries[i..]))
    else
      Outcome(Commit(m, args.leaderCommit), AppendReply(m.term, true, 0), [])
  }

  function Commit(n: Node, leaderCommit: nat): Node
    requires |n.logs| >= 1
  {
    if leaderCommit > n.commitIndex then n.(commitIndex := Min(leaderCommit, n.Last())) else n
  }

  /** The part of the handler that runs once the term has been met and the sender recognised as leader. */
  function Follow(m: Node, args: AppendArgs): Outcome<AppendReply>
    requires |m.logs| >= 1
  {
    if args.snapshot != [] then
      if args.snapshotIndex <= m.snapshotIndex then
        Outcome(m, AppendReply(m.term, true, m.snapshotIndex), [])
      else
        var r := InstallSnapshot(m, args);
        Outcome(r, AppendReply(r.term, true, r.snapshotIndex), [r.Saved()])
    else if args.prevLogIndex < m.snapshotIndex then
      Outcome(m, AppendReply(m.term, false, m.snapshotIndex), [])
    else if args.prevLogIndex > m.Last() then
      Outcome(m, AppendReply(m.term, false, m.Last()), [])
    else if m.At(args.prevLogIndex).term != args.prevLogTerm then
      Outcome(m, AppendReply(m.term, false, BeforeRun(m, m.At(args.prevLogIndex).term, args.prevLogIndex)), [])
    else
      AcceptEntries(m, args)
  }

  function Recognise(n: Node, args: AppendArgs): Node {
    Meet(n, args.term).(role := Follower, leaderId := Some(args.leader))
  }

  function HandleAppend(n: Node, args: AppendArgs): Outcome<AppendReply>
    requires |n.logs| >= 1
  {
    if args.term < n.term then
      Outcome(n, AppendReply(n.term, false, 0), [])
    else
      var o := Follow(Recognise(n, args), args);
      o.(trail := MeetTrail(n, args.term) + o.trail)
  }

  // ----- Replication: the leader -----------------------------------------------------------

  function HeartbeatFor(n: Node, me: NodeId, peer: NodeId): AppendArgs
    requires |n.logs| >= 1 && peer < |n.nextIndex| && n.nextIndex[peer] >= 1
    requires n.snapshotIndex > 0 ==> n.snapshot != []
  {
    var prev := Min(n.nextIndex[peer] - 1, n.Last());
    if prev < n.snapshotIndex then
      AppendArgs(n.term, me, 0, 0, [], n.commitIndex, n.snapshot, n.snapshotIndex, n.logs[0].term)
    else
      AppendArgs(n.term, me, prev, n.At(prev).term, n.logs[prev - n.snapshotIndex + 1..], n.commitIndex,
                 [], n.snapshotIndex, n.logs[0].term)
  }

  /** How many of the first k servers, other than `me`, are known to hold index N. */
  function CountHolders(matchIndex: seq<nat>, me: NodeId, N: nat, k: nat): (c: nat)
    requires k <= |matchIndex|
  {
    if k == 0 then 0
    else CountHolders(matchIndex, me, N, k - 1) + (if k - 1 != me && matchIndex[k - 1] >= N then 1 else 0)
  }

  /** Index N is of the leader's own term and held by a majority, the leader included. */
  predicate Committable(n: Node, me: NodeId, N: nat)
    requires n.snapshotIndex <= N < n.snapshotIndex + |n.logs|
  {
    n.At(N).term == n.term && 1 + CountHolders(n.matchIndex, me, N, |n.matchIndex|) > |n.matchIndex| / 2
  }

  /** The greatest committable index above the commit index and at most `upTo`, or the commit index. */
  function LeaderCommit(n: Node, me: NodeId, upTo: nat): (c: nat)
    requires |n.logs| >= 1 && n.snapshotIndex <= n.commitIndex && upTo <= n.Last()
    ensures n.commitIndex <= c
    ensures c == n.commitIndex || (c <= upTo && Committable(n, me, c))
    ensures forall N :: c < N <= upTo ==> !Committable(n, me, N)
    decreases upTo
  {
    if upTo <= n.commitIndex then n.commitIndex
    else if Committable(n, me, upTo) then upTo
    else LeaderCommit(n, me, upTo - 1)
  }

  function NewMatch(args: AppendArgs): nat {
    if args.snapshot != [] then args.snapshotIndex else args.prevLogIndex + |args.entries|
  }

  function HandleAppendReply(n: Node, me: NodeId, server: NodeId, sent: AppendArgs, reply: AppendReply): Node
    requires n.Valid(|n.matchIndex|) && server < |n.matchIndex|
  {
    if reply.term > n.term then
      StepDown(n, reply.term)
    else if n.term != sent.term || n.role != Leader then
      n
    else if reply.success then
      var match' := Max(n.matchIndex[server], NewMatch(sent));
      var m := n.(matchIndex := n.matchIndex[server := match'], nextIndex := n.nextIndex[server := match' + 1]);
      m.(commitIndex := LeaderCommit(m, me, m.Last()))
    else if sent.prevLogIndex < n.matchIndex[server] then
      n
    else
      n.(nextIndex := n.nextIndex[server := reply.lastMatchIndex + 1])
  }

  // ----- Service interface -----------------------------------------------------------------

  function StartCommand(n: Node, command: Bytes): Node {
    n.(logs := n.logs + [Entry(command, n.term)])
  }

  function TakeSnapshot(n: Node, index: nat, state: ServiceState): Node
    requires |n.logs| >= 1 && index <= n.Last()
  {
    if index <= n.snapshotIndex then n
    else
      n.(logs := [Entry([], n.At(index).term)] + n.logs[index - n.snapshotIndex + 1..],
         snapshotIndex := index,
         snapshot := state)
  }

  /** The snapshot, if it reaches beyond what was applied. */
  function ApplyHead(n: Node): seq<ApplyMsg>
    requires |n.logs| >= 1
  {
    if n.appliedIndex < n.snapshotIndex && n.snapshot != [] then [Snapshot(n.snapshotIndex, n.logs[0].term, n.snapshot)] else []
  }

  /** The commands with indices in [from, end). */
  function Commands(n: Node, from: nat, end: nat): seq<ApplyMsg>
    requires n.snapshotIndex <= from <= end <= n.snapshotIndex + |n.logs|
    decreases end - from
  {
    if from == end then [] else [Command(from, n.At(from).command)] + Commands(n, from + 1, end)
  }

  /** Everything between the applied and the commit index, led by the snapshot if that reaches further. */
  function ApplyBatch(n: Node): seq<ApplyMsg>
    requires |n.logs| >= 1 && n.snapshotIndex <= n.commitIndex <= n.Last() && n.appliedIndex < n.commitIndex
  {
    ApplyHead(n) + Commands(n, Max(n.appliedIndex, n.snapshotIndex) + 1, n.commitIndex + 1)
  }

  lemma CommandsStep(n: Node, batch: seq<ApplyMsg>, from: nat, end: nat)
    requires n.snapshotIndex <= from < end <= n.snapshotIndex + |n.logs|
    ensures batch + Commands(n, from, end) == (batch + [Command(from, n.At(from).command)]) + Commands(n, from + 1, end)
  {
    var rest := Commands(n, from + 1, end);
    assert batch + ([Command(from, n.At(from).command)] + rest) == (batch + [Command(from, n.At(from).command)]) + rest;
  }

  lemma {:induction false} CommandsShape(n: Node, from: nat, end: nat)
    requires n.snapshotIndex <= from <= end <= n.snapshotIndex + |n.logs|
    ensures |Commands(n, from, end)| == end - from
    ensures forall k :: 0 <= k < end - from ==> Commands(n, from, end)[k] == Command(from + k, n.At(from + k).command)
    decreases end - from
  {
    if from < end {
      CommandsShape(n, from + 1, end);
    }
  }
}
