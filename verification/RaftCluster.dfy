/**
 A cluster of Raft servers over a network that loses, delays, reorders and repeats requests, with
 crashes at and inside every critical section.  Every concrete step is explained by steps of
 RaftHistory over the uncompacted logs, and safety is read off the explanation.
 */
module RaftCluster {
  import opened RaftTypes
  import opened RaftNode

  // ----- The concrete system ---------------------------------------------------------------

  /** A response carries the request it answers: the caller still holds it when the call returns. */
  datatype Msg =
    | VoteRequest(dst: NodeId, voteArgs: VoteArgs)
    | VoteResponse(src: NodeId, voteArgs: VoteArgs, voteReply: VoteReply)
    | AppendRequest(dst: NodeId, appendArgs: AppendArgs)
    | AppendResponse(src: NodeId, appendArgs: AppendArgs, appendReply: AppendReply)

  /** A vote call that has not returned yet; it returns at most once. */
  datatype Call = Call(caller: NodeId, term: nat, callee: NodeId)

  /** Command `command` was handed to the service of `node` as entry `index`. */
  datatype Delivery = Delivery(node: NodeId, index: nat, command: Bytes)

  /** What the service of a server has received since it last started, from state `start` at index `base`. */
  datatype Stream = Stream(base: nat, start: ServiceState, msgs: seq<ApplyMsg>)

  /** The service takes in commands one by one and lets a snapshot replace its state. */
  function Absorb(state: ServiceState, msgs: seq<ApplyMsg>): ServiceState {
    if msgs == [] then state
    else
      match msgs[|msgs| - 1]
      case Command(_, command) => Absorb(state, msgs[..|msgs| - 1]) + [command]
      case Snapshot(_, _, whole) => whole
  }

  function Service(st: Stream): ServiceState {
    Absorb(st.start, st.msgs)
  }

  datatype Cluster = Cluster(
    nodes: seq<Node>,
    net: set<Msg>,
    calls: set<Call>,
    streams: seq<Stream>,
    delivered: set<Delivery>)

  /** One critical section of one server. */
  datatype Work =
    | OnTimeout
    | OnTimeoutNow(timeoutArgs: TimeoutArgs)
    | OnVoteRequest(voteArgs: VoteArgs)
    | OnVoteResponse(src: NodeId, voteArgs: VoteArgs, voteReply: VoteReply)
    | OnAppendRequest(appendArgs: AppendArgs)
    | OnAppendResponse(src: NodeId, appendArgs: AppendArgs, appendReply: AppendReply)
    | OnHigherTerm(term: nat)
    | OnStart(command: Bytes)
    | OnSnapshot(index: nat, state: ServiceState)
    | OnHeartbeat
    | OnApply

  datatype Event =
    | Do(node: NodeId, work: Work)
    | Crash(node: NodeId)
    | CrashDuring(node: NodeId, work: Work, writes: nat)

  function FreshCluster(peers: nat): Cluster {
    Cluster(seq(peers, _ => Recover(BLANK, peers)), {}, {}, seq(peers, _ => Stream(0, [], [])), {})
  }

  predicate Shaped(c: Cluster) {
    && |c.streams| == |c.nodes|
    && forall i :: 0 <= i < |c.nodes| ==> c.nodes[i].Valid(|c.nodes|)
  }

  /** The work is possible: its message is on the network, its guard holds, and the service keeps its side. */
  predicate Enabled(c: Cluster, i: NodeId, w: Work)
    requires Shaped(c) && i < |c.nodes|
  {
    var n := c.nodes[i];
    match w
    case OnTimeout => n.role != Leader
    case OnTimeoutNow(args) => true
    case OnVoteRequest(args) => VoteRequest(i, args) in c.net
    case OnVoteResponse(src, args, reply) =>
      args.candidate == i && VoteResponse(src, args, reply) in c.net && Call(i, args.term, src) in c.calls
    case OnAppendRequest(args) => AppendRequest(i, args) in c.net
    case OnAppendResponse(src, args, reply) =>
      args.leader == i && src < |c.nodes| && AppendResponse(src, args, reply) in c.net
    case OnHigherTerm(t) => true
    case OnStart(command) => n.role == Leader
    case OnSnapshot(index, state) =>
      index <= n.appliedIndex && index <= n.Last() && index <= |Service(c.streams[i])| && state == Service(c.streams[i])[..index]
    case OnHeartbeat =>
      n.role == Leader && (n.snapshotIndex > 0 ==> n.snapshot != []) && forall p :: 0 <= p < |n.nextIndex| ==> n.nextIndex[p] >= 1
    case OnApply => n.appliedIndex < n.commitIndex <= n.Last()
  }

  function VoteRound(n: Node, me: NodeId): VoteArgs
    requires |n.logs| >= 1
  {
    VoteArgs(n.term, me, n.Last(), n.LastTerm())
  }

  /** The new state of the server and the durable states written while getting there. */
  function Local(c: Cluster, i: NodeId, w: Work): (Node, seq<Durable>)
    requires Shaped(c) && i < |c.nodes| && Enabled(c, i, w)
  {
    var n := c.nodes[i];
    var peers := |c.nodes|;
    match w
    case OnTimeout => var r := BeginElection(n, i); (r, [r.Saved()])
    case OnTimeoutNow(args) => var o := HandleTimeoutNow(n, i, args); (o.node, o.trail)
    case OnVoteRequest(args) => var o := HandleVote(n, args); (o.node, o.trail)
    case OnVoteResponse(src, args, reply) => (HandleVoteReply(n, i, peers, args, reply), MeetTrail(n, reply.term))
    case OnAppendRequest(args) => var o := HandleAppend(n, args); (o.node, o.trail)
    case OnAppendResponse(src, args, reply) => (HandleAppendReply(n, i, src, args, reply), MeetTrail(n, reply.term))
    case OnHigherTerm(t) => (Meet(n, t), MeetTrail(n, t))
    case OnStart(command) => var r := StartCommand(n, command); (r, [r.Saved()])
    case OnSnapshot(index, state) =>
      var r := TakeSnapshot(n, index, state); (r, if index <= n.snapshotIndex then [] else [r.Saved()])
    case OnHeartbeat => (n, [])
    case OnApply => (n.(appliedIndex := n.commitIndex), [])
  }

  function VoteRequests(args: VoteArgs, me: NodeId, peers: nat): set<Msg> {
    set p | p in Ids(peers) && p != me :: VoteRequest(p, args)
  }

  function VoteCalls(args: VoteArgs, me: NodeId, peers: nat): set<Call> {
    set p | p in Ids(peers) && p != me :: Call(me, args.term, p)
  }

  function Heartbeats(n: Node, me: NodeId): set<Msg>
    requires n.Valid(|n.nextIndex|) && (n.snapshotIndex > 0 ==> n.snapshot != [])
    requires forall p :: 0 <= p < |n.nextIndex| ==> n.nextIndex[p] >= 1
  {
    set p | p in Ids(|n.nextIndex|) && p != me :: AppendRequest(p, HeartbeatFor(n, me, p))
  }

  /** The messages the work puts on the network. */
  function Sends(c: Cluster, i: NodeId, w: Work): set<Msg>
    requires Shaped(c) && i < |c.nodes| && Enabled(c, i, w)
  {
    var n := c.nodes[i];
    match w
    case OnTimeout => VoteRequests(VoteRound(BeginElection(n, i), i), i, |c.nodes|)
    case OnTimeoutNow(args) =>
      var o := HandleTimeoutNow(n, i, args);
      if o.reply then VoteRequests(VoteRound(o.node, i), i, |c.nodes|) else {}
    case OnVoteRequest(args) => {VoteResponse(i, args, HandleVote(n, args).reply)}
    case OnAppendRequest(args) => {AppendResponse(i, args, HandleAppend(n, args).reply)}
    case OnHeartbeat => Heartbeats(n, i)
    case _ => {}
  }

  /** The vote calls outstanding after the work. */
  function CallsAfter(c: Cluster, i: NodeId, w: Work): set<Call>
    requires Shaped(c) && i < |c.nodes| && Enabled(c, i, w)
  {
    var n := c.nodes[i];
    match w
    case OnTimeout => c.calls + VoteCalls(VoteRound(BeginElection(n, i), i), i, |c.nodes|)
    case OnTimeoutNow(args) =>
      var o := HandleTimeoutNow(n, i, args);
      if o.reply then c.calls + VoteCalls(VoteRound(o.node, i), i, |c.nodes|) else c.calls
    case OnVoteResponse(src, args, reply) => c.calls - {Call(i, args.term, src)}
    case _ => c.calls
  }

  function Handed(i: NodeId, msgs: seq<ApplyMsg>): set<Delivery> {
    set m | m in msgs && m.Command? :: Delivery(i, m.index, m.command)
  }

  function Execute(c: Cluster, i: NodeId, w: Work): Cluster
    requires Shaped(c) && i < |c.nodes| && Enabled(c, i, w)
  {
    var batch := if w.OnApply? then ApplyBatch(c.nodes[i]) else [];
    Cluster(
      c.nodes[i := Local(c, i, w).0],
      c.net + Sends(c, i, w),
      CallsAfter(c, i, w),
      c.streams[i := c.streams[i].(msgs := c.streams[i].msgs + batch)],
      c.delivered + Handed(i, batch))
  }

  /** Lose everything but the durable state d. */
  function Restart(c: Cluster, i: NodeId, d: Durable): Cluster
    requires i < |c.nodes| && |c.streams| == |c.nodes|
  {
    c.(nodes := c.nodes[i := Recover(d, |c.nodes|)],
       calls := (set k | k in c.calls && k.caller != i),
       streams := c.streams[i := Stream(d.snapshotIndex, d.snapshot, [])])
  }

  predicate Possible(c: Cluster, e: Event) {
    && Shaped(c)
    && e.node < |c.nodes|
    && (e.Do? ==> Enabled(c, e.node, e.work))
    && (e.CrashDuring? ==> Enabled(c, e.node, e.work) && e.writes < |Local(c, e.node, e.work).1|)
  }

  function After(c: Cluster, e: Event): Cluster
    requires Possible(c, e)
  {
    match e
    case Do(i, w) => Execute(c, i, w)
    case Crash(i) => Restart(c, i, c.nodes[i].Saved())
    case CrashDuring(i, w, k) => Restart(c, i, Local(c, i, w).1[k])
  }

  /** A run of `peers` servers: from fresh servers, each state by a possible event from the one before. */
  ghost predicate IsRun(run: seq<Cluster>, peers: nat) {
    && |run| >= 1
    && run[0] == FreshCluster(peers)
    && forall k :: 0 <= k < |run| - 1 ==> Steps(run[k], run[k + 1])
  }

  ghost predicate Steps(c: Cluster, c': Cluster) {
    exists e :: Possible(c, e) && c' == After(c, e)
  }
}
