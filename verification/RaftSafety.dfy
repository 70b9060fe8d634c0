/**
 Safety of the cluster over whole runs.  `Related` ties a concrete state to a history of
 uncompacted logs; every event keeps it, and the theorems follow.
 */
module RaftSafety {
  import opened RaftTypes
  import opened RaftNode
  import opened RaftCluster
  import opened RaftRefinement
  import H = RaftHistory

  // ----- The relation ----------------------------------------------------------------------

  ghost predicate MsgOk(m: Msg, h: H.History, peers: nat) {
    match m
    case VoteRequest(dst, args) => VoteArgsOk(args, h) && args.candidate != dst
    case VoteResponse(src, args, reply) => reply.granted ==> H.HasBallot(h, src, args.term, args.candidate)
    case AppendRequest(dst, args) => AppendArgsOk(args, h, peers)
    case AppendResponse(src, args, reply) => reply.success ==> H.Ack(src, args.term, NewMatch(args)) in h.acks
  }

  /** An outstanding vote call has not been counted. */
  ghost predicate CallOk(k: Call, ss: seq<H.Server>) {
    && k.caller < |ss| && k.callee != k.caller
    && k.term <= ss[k.caller].term
    && (k.term == ss[k.caller].term && ss[k.caller].role == Candidate ==> k.callee !in ss[k.caller].voters)
  }

  ghost predicate CallsOk(calls: set<Call>, ss: seq<H.Server>) {
    forall k :: k in calls ==> CallOk(k, ss)
  }

  /** The index reached by a stream before its k-th message. */
  function Reached(base: nat, msgs: seq<ApplyMsg>, k: nat): nat
    requires k <= |msgs|
  {
    if k == 0 then base else msgs[k - 1].index
  }

  /** Message k is the next command, or a snapshot strictly beyond everything delivered before it. */
  predicate NextInOrder(base: nat, msgs: seq<ApplyMsg>, k: nat)
    requires k < |msgs|
  {
    match msgs[k]
    case Command(index, _) => index == Reached(base, msgs, k) + 1
    case Snapshot(index, _, _) => index > Reached(base, msgs, k)
  }

  ghost predicate InOrder(base: nat, msgs: seq<ApplyMsg>) {
    forall k :: 0 <= k < |msgs| ==> NextInOrder(base, msgs, k)
  }

  /** The stream is in order, has reached the applied index, and has left the service with exactly those entries. */
  ghost predicate StreamOk(st: Stream, applied: nat, l: Log) {
    && InOrder(st.base, st.msgs)
    && Reached(st.base, st.msgs, |st.msgs|) == applied < |l|
    && Service(st) == Replay(l, applied)
  }

  ghost predicate CommittedEntry(h: H.History, peers: nat, l: Log, t: nat, x: nat, command: Bytes) {
    && H.CommittedPrefix(h, peers, l, x + 1, t)
    && l[0] == SENTINEL
    && l[x].command == command
  }

  ghost predicate CommandCommitted(h: H.History, peers: nat, x: nat, command: Bytes) {
    exists l, t: nat :: CommittedEntry(h, peers, l, t, x, command)
  }

  ghost predicate NodesRelated(c: Cluster, s: H.State) {
    && |c.nodes| == |s.servers|
    && forall i :: 0 <= i < |c.nodes| ==> NodeRel(c.nodes[i], s.servers[i], s.h, |c.nodes|)
  }

  ghost predicate NetOk(net: set<Msg>, h: H.History, peers: nat) {
    forall m :: m in net ==> MsgOk(m, h, peers)
  }

  ghost predicate StreamsOk(c: Cluster, ss: seq<H.Server>) {
    && |c.streams| == |c.nodes| == |ss|
    && forall i :: 0 <= i < |c.nodes| ==> StreamOk(c.streams[i], c.nodes[i].appliedIndex, ss[i].log)
  }

  ghost predicate DeliveredOk(ds: set<Delivery>, h: H.History, peers: nat) {
    forall d :: d in ds ==> CommandCommitted(h, peers, d.index, d.command)
  }

  ghost predicate Related(c: Cluster, s: H.State) {
    && H.Inv(s) && DownClosed(s.h.acks)
    && NodesRelated(c, s)
    && NetOk(c.net, s.h, |c.nodes|)
    && CallsOk(c.calls, s.servers)
    && StreamsOk(c, s.servers)
    && DeliveredOk(c.delivered, s.h, |c.nodes|)
  }

  // ----- What the growth of the history preserves ------------------------------------------

  lemma AppendArgsStable(args: AppendArgs, h: H.History, h': H.History, peers: nat)
    requires AppendArgsOk(args, h, peers) && H.Later(h, h')
    ensures AppendArgsOk(args, h', peers)
  {
    var l, l' := h.elections[args.term].log, h'.elections[args.term].log;
    assert H.Grown(h.elections[args.term], h'.elections[args.term]);
    if args.snapshot == [] {
      GrownPrefix(h, h', peers, l, l', args.leaderCommit + 1, args.term);
    } else {
      GrownPrefix(h, h', peers, l, l', args.snapshotIndex + 1, args.term);
    }
  }

  lemma GrownPrefix(h: H.History, h': H.History, peers: nat, l: Log, l': Log, len: nat, t: nat)
    requires H.CommittedPrefix(h, peers, l, len, t) && H.Later(h, h') && Agree(l, l', |l|)
    ensures H.CommittedPrefix(h', peers, l', len, t)
  {
    H.CommittedPrefixStable(h, h', peers, l, len, t);
    H.SamePrefix(h', peers, l, l', len, t);
  }

  lemma MsgStable(m: Msg, h: H.History, h': H.History, peers: nat)
    requires MsgOk(m, h, peers) && H.Later(h, h')
    ensures MsgOk(m, h', peers)
  {
    match m
    case VoteRequest(dst, args) => VoteArgsStable(args, h, h');
    case VoteResponse(src, args, reply) =>
    case AppendRequest(dst, args) => AppendArgsStable(args, h, h', peers);
    case AppendResponse(src, args, reply) =>
  }

  lemma CommandStable(h: H.History, h': H.History, peers: nat, x: nat, command: Bytes)
    requires CommandCommitted(h, peers, x, command) && H.Later(h, h')
    ensures CommandCommitted(h', peers, x, command)
  {
    var l, t: nat :| CommittedEntry(h, peers, l, t, x, command);
    H.CommittedPrefixStable(h, h', peers, l, x + 1, t);
    assert CommittedEntry(h', peers, l, t, x, command);
  }

  lemma NodeStable(n: Node, s: H.Server, h: H.History, h': H.History, peers: nat)
    requires NodeRel(n, s, h, peers) && H.Later(h, h')
    ensures NodeRel(n, s, h', peers)
  {
  }

  lemma NetStable(net: set<Msg>, h: H.History, h': H.History, peers: nat)
    requires NetOk(net, h, peers) && H.Later(h, h')
    ensures NetOk(net, h', peers)
  {
    forall m | m in net ensures MsgOk(m, h', peers) {
      MsgStable(m, h, h', peers);
    }
  }

  lemma DeliveredStable(ds: set<Delivery>, h: H.History, h': H.History, peers: nat)
    requires DeliveredOk(ds, h, peers) && H.Later(h, h')
    ensures DeliveredOk(ds, h', peers)
  {
    forall d | d in ds ensures CommandCommitted(h', peers, d.index, d.command) {
      CommandStable(h, h', peers, d.index, d.command);
    }
  }

  lemma CallsStable(calls: set<Call>, s: H.State, s': H.State, i: NodeId)
    requires CallsOk(calls, s.servers) && Moved(s, s', i)
    ensures CallsOk(calls, s'.servers)
  {
    forall k | k in calls ensures CallOk(k, s'.servers) {
      assert CallOk(k, s.servers);
      assert H.CommitKept(s.servers[k.caller], s'.servers[k.caller]);
    }
  }

  // ----- Putting a step together -----------------------------------------------------------

  lemma NodesMoved(c: Cluster, s: H.State, c': Cluster, s': H.State, i: NodeId)
    requires NodesRelated(c, s) && Advanced(s, s', i) && |c'.nodes| == |c.nodes|
    requires Explains(s', i, c'.nodes[i]) && c'.nodes == c.nodes[i := c'.nodes[i]]
    ensures NodesRelated(c', s')
  {
    hide H.Inv;
    forall j | 0 <= j < |c'.nodes| ensures NodeRel(c'.nodes[j], s'.servers[j], s'.h, |c'.nodes|) {
      if j != i {
        NodeStable(c.nodes[j], s.servers[j], s.h, s'.h, |c.nodes|);
      }
    }
  }

  lemma Assemble(c: Cluster, s: H.State, c': Cluster, s': H.State, i: NodeId, sent: set<Msg>, handed: set<Delivery>)
    requires Related(c, s) && Advanced(s, s', i)
    requires |c'.nodes| == |c.nodes| && Explains(s', i, c'.nodes[i]) && c'.nodes == c.nodes[i := c'.nodes[i]]
    requires c'.net == c.net + sent && NetOk(sent, s'.h, |c.nodes|)
    requires c'.delivered == c.delivered + handed && DeliveredOk(handed, s'.h, |c.nodes|)
    requires CallsOk(c'.calls, s'.servers) && StreamsOk(c', s'.servers)
    ensures Related(c', s')
  {
    hide H.Inv, NodeRel, MsgOk, CommandCommitted;
    NodesMoved(c, s, c', s', i);
    NetStable(c.net, s.h, s'.h, |c.nodes|);
    DeliveredStable(c.delivered, s.h, s'.h, |c.nodes|);
  }

  lemma ExplainsNode(c: Cluster, s: H.State, i: NodeId)
    requires Related(c, s) && i < |c.nodes|
    ensures Explains(s, i, c.nodes[i])
  {
    hide H.Inv;
  }

  /** A service that has applied no more than its server ever committed is left alone by a change of the log. */
  lemma StreamStable(st: Stream, applied: nat, s: H.Server, s': H.Server)
    requires StreamOk(st, applied, s.log) && applied <= s.commit && H.CommitKept(s, s')
    ensures StreamOk(st, applied, s'.log)
  {
    ReplayAgree(s.log, s'.log, applied);
  }

  lemma StreamsUntouched(c: Cluster, s: H.State, c': Cluster, s': H.State, i: NodeId)
    requires NodesRelated(c, s) && StreamsOk(c, s.servers) && Advanced(s, s', i)
    requires |c.nodes| == |c'.nodes| && c'.nodes == c.nodes[i := c'.nodes[i]]
    requires c'.nodes[i].appliedIndex == c.nodes[i].appliedIndex
    requires c'.streams == c.streams[i := c.streams[i].(msgs := c.streams[i].msgs + [])]
    ensures StreamsOk(c', s'.servers)
  {
    hide StreamOk, H.CommitKept, DurableRel;
    assert c.streams[i].msgs + [] == c.streams[i].msgs;
    assert c'.streams == c.streams;
    forall j | 0 <= j < |c'.nodes| ensures StreamOk(c'.streams[j], c'.nodes[j].appliedIndex, s'.servers[j].log) {
      assert NodeRel(c.nodes[j], s.servers[j], s.h, |c.nodes|);
      StreamStable(c.streams[j], c.nodes[j].appliedIndex, s.servers[j], s'.servers[j]);
    }
  }

  /** Every work but applying: the server's own explanation, its messages and its calls are enough. */
  lemma Finish(c: Cluster, s: H.State, s': H.State, i: NodeId, w: Work)
    requires Related(c, s) && Shaped(c) && i < |c.nodes| && Enabled(c, i, w) && !w.OnApply?
    requires Advanced(s, s', i) && Explains(s', i, Local(c, i, w).0)
    requires Local(c, i, w).0.appliedIndex == c.nodes[i].appliedIndex
    requires NetOk(Sends(c, i, w), s'.h, |c.nodes|) && CallsOk(CallsAfter(c, i, w), s'.servers)
    ensures Related(Execute(c, i, w), s')
  {
    hide H.Inv, NodeRel, MsgOk, CommandCommitted, Local, Sends, CallsAfter, Enabled, StreamOk, CallOk;
    var c' := Execute(c, i, w);
    StreamsUntouched(c, s, c', s', i);
    Assemble(c, s, c', s', i, Sends(c, i, w), {});
  }

  // ----- One lemma per kind of work --------------------------------------------------------

  lemma MsgFact(c: Cluster, s: H.State, m: Msg)
    requires Related(c, s) && m in c.net
    ensures MsgOk(m, s.h, |c.nodes|)
  {
    hide H.Inv;
  }

  /** The requests and calls of a fresh candidacy. */
  lemma RoundOk(c: Cluster, s: H.State, s': H.State, i: NodeId, args: VoteArgs)
    requires CallsOk(c.calls, s.servers) && |c.nodes| == |s.servers| && Moved(s, s', i)
    requires VoteArgsOk(args, s'.h) && args.candidate == i
    requires s.servers[i].term < args.term == s'.servers[i].term && s'.servers[i].voters == {i}
    ensures NetOk(VoteRequests(args, i, |c.nodes|), s'.h, |c.nodes|)
    ensures CallsOk(c.calls + VoteCalls(args, i, |c.nodes|), s'.servers)
  {
    hide VoteArgsOk;
    CallsStable(c.calls, s, s', i);
  }

  lemma DoTimeout(c: Cluster, s: H.State, i: NodeId) returns (s': H.State)
    requires Related(c, s) && Shaped(c) && i < |c.nodes| && Enabled(c, i, OnTimeout)
    ensures Related(Execute(c, i, OnTimeout), s') && H.Progress(s, s')
  {
    hide H.Inv, NodesRelated, NetOk, CallOk, StreamsOk, DeliveredOk, View, VoteArgsOk, AppendArgsOk, H.Progress;
    ExplainsNode(c, s, i);
    StandDeclares(s, i, c.nodes[i]);
    s' := H.Stand(s, i);
    RoundOk(c, s, s', i, VoteRound(BeginElection(c.nodes[i], i), i));
    Finish(c, s, s', i, OnTimeout);
  }

  lemma DoTimeoutNow(c: Cluster, s: H.State, i: NodeId, args: TimeoutArgs) returns (s': H.State)
    requires Related(c, s) && Shaped(c) && i < |c.nodes|
    ensures Related(Execute(c, i, OnTimeoutNow(args)), s') && H.Progress(s, s')
  {
    hide H.Inv, NodesRelated, NetOk, CallOk, StreamsOk, DeliveredOk, View, VoteArgsOk, AppendArgsOk, H.Progress;
    ExplainsNode(c, s, i);
    s' := TimeoutNowRefines(s, i, c.nodes[i], args);
    var o := HandleTimeoutNow(c.nodes[i], i, args);
    if o.reply {
      RoundOk(c, s, s', i, VoteRound(o.node, i));
    } else {
      CallsStable(c.calls, s, s', i);
      NothingSent(s'.h, |c.nodes|);
    }
    Finish(c, s, s', i, OnTimeoutNow(args));
  }

  lemma NothingSent(h: H.History, peers: nat)
    ensures NetOk({}, h, peers)
  {
  }

  lemma OneSent(m: Msg, h: H.History, peers: nat)
    requires MsgOk(m, h, peers)
    ensures NetOk({m}, h, peers)
  {
  }

  lemma DoVoteRequest(c: Cluster, s: H.State, i: NodeId, args: VoteArgs) returns (s': H.State)
    requires Related(c, s) && Shaped(c) && i < |c.nodes| && Enabled(c, i, OnVoteRequest(args))
    ensures Related(Execute(c, i, OnVoteRequest(args)), s') && H.Progress(s, s')
  {
    hide H.Inv, NodesRelated, NetOk, CallOk, StreamsOk, DeliveredOk, View, VoteArgsOk, AppendArgsOk, H.Progress;
    ExplainsNode(c, s, i);
    MsgFact(c, s, VoteRequest(i, args));
    s' := VoteRefines(s, i, c.nodes[i], args);
    CallsStable(c.calls, s, s', i);
    OneSent(VoteResponse(i, args, HandleVote(c.nodes[i], args).reply), s'.h, |c.nodes|);
    Finish(c, s, s', i, OnVoteRequest(args));
  }

  lemma CallFact(c: Cluster, s: H.State, k: Call)
    requires Related(c, s) && k in c.calls
    ensures CallOk(k, s.servers)
  {
    hide H.Inv;
  }

  /** The call that returned is gone, so counting its vote contradicts no outstanding call. */
  lemma CallReturned(calls: set<Call>, s: H.State, s': H.State, i: NodeId, t: nat, v: NodeId)
    requires CallsOk(calls, s.servers) && Advanced(s, s', i)
    requires s'.servers[i].role == Candidate ==>
               s'.servers[i].term == s.servers[i].term && s'.servers[i].voters <= s.servers[i].voters + {v}
    requires s'.servers[i].role == Candidate && s'.servers[i].term != t ==> NoVoteCounted(s.servers[i], s'.servers[i])
    requires s'.servers[i].role == Candidate ==> s.servers[i].role == Candidate
    ensures CallsOk(calls - {Call(i, t, v)}, s'.servers)
  {
    forall k | k in calls - {Call(i, t, v)} ensures CallOk(k, s'.servers) {
      assert CallOk(k, s.servers);
      assert H.CommitKept(s.servers[k.caller], s'.servers[k.caller]);
    }
  }

  lemma DoVoteResponse(c: Cluster, s: H.State, i: NodeId, v: NodeId, args: VoteArgs, reply: VoteReply) returns (s': H.State)
    requires Related(c, s) && Shaped(c) && i < |c.nodes| && Enabled(c, i, OnVoteResponse(v, args, reply))
    ensures Related(Execute(c, i, OnVoteResponse(v, args, reply)), s') && H.Progress(s, s')
  {
    hide H.Inv, NodesRelated, NetOk, CallOk, StreamsOk, DeliveredOk, View, VoteArgsOk, AppendArgsOk, H.Progress;
    ExplainsNode(c, s, i);
    MsgFact(c, s, VoteResponse(v, args, reply));
    UncountedCall(c, s, i, args.term, v);
    s' := VoteReplyRefines(s, i, c.nodes[i], v, args, reply);
    CallReturned(c.calls, s, s', i, args.term, v);
    NothingSent(s'.h, |c.nodes|);
    Finish(c, s, s', i, OnVoteResponse(v, args, reply));
  }

  lemma UncountedCall(c: Cluster, s: H.State, i: NodeId, t: nat, v: NodeId)
    requires Related(c, s) && i < |c.nodes| && Call(i, t, v) in c.calls
    ensures i < |s.servers| && (s.servers[i].role == Candidate && s.servers[i].term == t ==> v !in s.servers[i].voters)
  {
    hide H.Inv;
    CallFact(c, s, Call(i, t, v));
  }

  lemma DoAppendRequest(c: Cluster, s: H.State, i: NodeId, args: AppendArgs) returns (s': H.State)
    requires Related(c, s) && Shaped(c) && i < |c.nodes| && Enabled(c, i, OnAppendRequest(args))
    ensures Related(Execute(c, i, OnAppendRequest(args)), s') && H.Progress(s, s')
  {
    hide H.Inv, NodesRelated, NetOk, CallOk, StreamsOk, DeliveredOk, View, VoteArgsOk, AppendArgsOk, H.Progress;
    ExplainsNode(c, s, i);
    MsgFact(c, s, AppendRequest(i, args));
    s' := AppendRefines(s, i, c.nodes[i], args);
    CallsStable(c.calls, s, s', i);
    OneSent(AppendResponse(i, args, HandleAppend(c.nodes[i], args).reply), s'.h, |c.nodes|);
    Finish(c, s, s', i, OnAppendRequest(args));
  }

  lemma DoAppendResponse(c: Cluster, s: H.State, i: NodeId, v: NodeId, args: AppendArgs, reply: AppendReply) returns (s': H.State)
    requires Related(c, s) && Shaped(c) && i < |c.nodes| && Enabled(c, i, OnAppendResponse(v, args, reply))
    ensures Related(Execute(c, i, OnAppendResponse(v, args, reply)), s') && H.Progress(s, s')
  {
    hide H.Inv, NodesRelated, NetOk, CallOk, StreamsOk, DeliveredOk, View, VoteArgsOk, AppendArgsOk, H.Progress;
    ExplainsNode(c, s, i);
    MsgFact(c, s, AppendResponse(v, args, reply));
    s' := AppendReplyRefines(s, i, c.nodes[i], v, args, reply);
    CallsStable(c.calls, s, s', i);
    NothingSent(s'.h, |c.nodes|);
    Finish(c, s, s', i, OnAppendResponse(v, args, reply));
  }

  lemma DoHigherTerm(c: Cluster, s: H.State, i: NodeId, t: nat) returns (s': H.State)
    requires Related(c, s) && Shaped(c) && i < |c.nodes|
    ensures Related(Execute(c, i, OnHigherTerm(t)), s') && H.Progress(s, s')
  {
    hide H.Inv, NodesRelated, NetOk, CallOk, StreamsOk, DeliveredOk, View, VoteArgsOk, AppendArgsOk, H.Progress;
    ExplainsNode(c, s, i);
    MeetRefines(s, i, c.nodes[i], t);
    s' := MeetH(s, i, t);
    CallsStable(c.calls, s, s', i);
    NothingSent(s'.h, |c.nodes|);
    Finish(c, s, s', i, OnHigherTerm(t));
  }

  lemma DoStart(c: Cluster, s: H.State, i: NodeId, command: Bytes) returns (s': H.State)
    requires Related(c, s) && Shaped(c) && i < |c.nodes| && Enabled(c, i, OnStart(command))
    ensures Related(Execute(c, i, OnStart(command)), s') && H.Progress(s, s')
  {
    hide H.Inv, NodesRelated, NetOk, CallOk, StreamsOk, DeliveredOk, View, VoteArgsOk, AppendArgsOk, H.Progress;
    ExplainsNode(c, s, i);
    s' := StartRefines(s, i, c.nodes[i], command);
    CallsStable(c.calls, s, s', i);
    NothingSent(s'.h, |c.nodes|);
    Finish(c, s, s', i, OnStart(command));
  }

  /** What the service held at an earlier index is what the log replays to there. */
  lemma ServicePrefix(c: Cluster, s: H.State, i: NodeId, index: nat)
    requires Related(c, s) && i < |c.nodes| == |c.streams| && index <= c.nodes[i].appliedIndex
    ensures i < |s.servers| && index < |s.servers[i].log| && index <= |Service(c.streams[i])|
    ensures Service(c.streams[i])[..index] == Replay(s.servers[i].log, index)
  {
    hide H.Inv, NodeRel, NetOk, CallsOk, DeliveredOk;
    assert StreamOk(c.streams[i], c.nodes[i].appliedIndex, s.servers[i].log);
  }

  lemma DoSnapshot(c: Cluster, s: H.State, i: NodeId, index: nat, state: ServiceState) returns (s': H.State)
    requires Related(c, s) && Shaped(c) && i < |c.nodes| && Enabled(c, i, OnSnapshot(index, state))
    ensures Related(Execute(c, i, OnSnapshot(index, state)), s') && H.Progress(s, s')
  {
    hide H.Inv, NodesRelated, NetOk, CallOk, StreamsOk, DeliveredOk, View, VoteArgsOk, AppendArgsOk, H.Progress;
    ExplainsNode(c, s, i);
    ServicePrefix(c, s, i, index);
    SnapshotRefines(s, i, c.nodes[i], index, state);
    s' := s;
    MovedRefl(s, i);
    CallsStable(c.calls, s, s', i);
    NothingSent(s'.h, |c.nodes|);
    Finish(c, s, s', i, OnSnapshot(index, state));
  }

  lemma DoHeartbeat(c: Cluster, s: H.State, i: NodeId) returns (s': H.State)
    requires Related(c, s) && Shaped(c) && i < |c.nodes| && Enabled(c, i, OnHeartbeat)
    ensures Related(Execute(c, i, OnHeartbeat), s') && H.Progress(s, s')
  {
    hide H.Inv, NodesRelated, NetOk, CallOk, StreamsOk, DeliveredOk, View, VoteArgsOk, AppendArgsOk, H.Progress;
    ExplainsNode(c, s, i);
    s' := s;
    MovedRefl(s, i);
    CallsStable(c.calls, s, s', i);
    HeartbeatsOk(s, i, c.nodes[i]);
    Finish(c, s, s', i, OnHeartbeat);
  }

  lemma HeartbeatsOk(s: H.State, i: NodeId, n: Node)
    requires Explains(s, i, n) && n.role == Leader
    requires n.Valid(|n.nextIndex|) && (n.snapshotIndex > 0 ==> n.snapshot != [])
    requires forall p :: 0 <= p < |n.nextIndex| ==> n.nextIndex[p] >= 1
    ensures NetOk(Heartbeats(n, i), s.h, |s.servers|)
  {
    hide H.Inv, View, AppendArgsOk, Replay;
    forall m | m in Heartbeats(n, i) ensures MsgOk(m, s.h, |s.servers|) {
      HeartbeatFaithful(s, i, n, m.dst);
    }
  }

  // ----- Applying --------------------------------------------------------------------------

  lemma InOrderAppend(base: nat, a: seq<ApplyMsg>, b: seq<ApplyMsg>)
    requires InOrder(base, a) && InOrder(Reached(base, a, |a|), b)
    ensures InOrder(base, a + b)
    ensures Reached(base, a + b, |a + b|) == Reached(Reached(base, a, |a|), b, |b|)
  {
    forall k | 0 <= k < |a + b| ensures NextInOrder(base, a + b, k) {
      if k < |a| {
        assert NextInOrder(base, a, k);
      } else {
        assert NextInOrder(Reached(base, a, |a|), b, k - |a|);
      }
    }
  }

  lemma CommandsInOrder(n: Node, from: nat, end: nat)
    requires n.snapshotIndex < from <= end <= n.snapshotIndex + |n.logs|
    ensures InOrder(from - 1, Commands(n, from, end))
    ensures Reached(from - 1, Commands(n, from, end), |Commands(n, from, end)|) == end - 1
  {
    CommandsShape(n, from, end);
  }

  /** A batch continues the stream without a gap and ends at the commit index. */
  lemma BatchInOrder(n: Node)
    requires |n.logs| >= 1 && n.snapshotIndex <= n.commitIndex <= n.Last() && n.appliedIndex < n.commitIndex
    requires n.snapshotIndex > 0 ==> n.snapshot != []
    ensures InOrder(n.appliedIndex, ApplyBatch(n))
    ensures Reached(n.appliedIndex, ApplyBatch(n), |ApplyBatch(n)|) == n.commitIndex
  {
    var start := Max(n.appliedIndex, n.snapshotIndex) + 1;
    CommandsInOrder(n, start, n.commitIndex + 1);
    InOrderAppend(n.appliedIndex, ApplyHead(n), Commands(n, start, n.commitIndex + 1));
  }

  /** Every command of a batch is a committed entry. */
  lemma BatchCommitted(s: H.State, i: NodeId, n: Node, m: ApplyMsg)
    requires Explains(s, i, n) && n.appliedIndex < n.commitIndex <= n.Last()
    requires m in ApplyBatch(n) && m.Command?
    ensures CommandCommitted(s.h, |s.servers|, m.index, m.command)
  {
    hide H.Inv, H.CommittedPrefix;
    var start := Max(n.appliedIndex, n.snapshotIndex) + 1;
    CommandsShape(n, start, n.commitIndex + 1);
    assert m in Commands(n, start, n.commitIndex + 1);
    CommittedUpTo(s, i, n, m.index);
    assert CommittedEntry(s.h, |s.servers|, s.servers[i].log, n.term, m.index, m.command);
  }

  lemma {:induction false} AbsorbAppend(state: ServiceState, a: seq<ApplyMsg>, b: seq<ApplyMsg>)
    ensures Absorb(state, a + b) == Absorb(Absorb(state, a), b)
    decreases |b|
  {
    if b == [] {
      assert a + b == a;
    } else {
      var z := |b| - 1;
      assert (a + b)[..|a + b| - 1] == a + b[..z];
      AbsorbAppend(state, a, b[..z]);
    }
  }

  lemma {:induction false} CommandsAbsorbed(n: Node, l: Log, from: nat, end: nat)
    requires View(n.logs, n.snapshotIndex, l) && n.snapshotIndex < from <= end <= |l|
    ensures Absorb(Replay(l, from - 1), Commands(n, from, end)) == Replay(l, end - 1)
    decreases end
  {
    if from < end {
      CommandsAbsorbed(n, l, from, end - 1);
      CommandsShape(n, from, end);
      CommandsShape(n, from, end - 1);
      var all := Commands(n, from, end);
      assert all[..|all| - 1] == Commands(n, from, end - 1);
      assert Replay(l, end - 1) == Replay(l, end - 2) + [l[end - 1].command];
    }
  }

  /** A batch brings the service from the applied to the commit index. */
  lemma BatchAbsorbed(n: Node, l: Log)
    requires View(n.logs, n.snapshotIndex, l) && n.snapshotIndex <= n.commitIndex <= n.Last() && n.appliedIndex < n.commitIndex
    requires n.snapshot == Replay(l, n.snapshotIndex)
    ensures Absorb(Replay(l, n.appliedIndex), ApplyBatch(n)) == Replay(l, n.commitIndex)
  {
    var start := Max(n.appliedIndex, n.snapshotIndex) + 1;
    AbsorbAppend(Replay(l, n.appliedIndex), ApplyHead(n), Commands(n, start, n.commitIndex + 1));
    CommandsAbsorbed(n, l, start, n.commitIndex + 1);
  }

  lemma StreamApplied(st: Stream, n: Node, l: Log)
    requires StreamOk(st, n.appliedIndex, l) && View(n.logs, n.snapshotIndex, l) && n.snapshot == Replay(l, n.snapshotIndex)
    requires n.snapshotIndex <= n.commitIndex <= n.Last() && n.appliedIndex < n.commitIndex
    ensures StreamOk(st.(msgs := st.msgs + ApplyBatch(n)), n.commitIndex, l)
  {
    hide InOrder, Replay, ApplyBatch;
    BatchInOrder(n) by { SnapshotPresent(n, l); }
    BatchAbsorbed(n, l);
    InOrderAppend(st.base, st.msgs, ApplyBatch(n));
    AbsorbAppend(st.start, st.msgs, ApplyBatch(n));
  }

  lemma SnapshotPresent(n: Node, l: Log)
    requires n.snapshotIndex < |l| && n.snapshot == Replay(l, n.snapshotIndex)
    ensures n.snapshotIndex > 0 ==> n.snapshot != []
  {
  }

  lemma StreamsApplied(c: Cluster, s: H.State, i: NodeId)
    requires Related(c, s) && Shaped(c) && i < |c.nodes| && Enabled(c, i, OnApply)
    ensures StreamsOk(Execute(c, i, OnApply), s.servers)
  {
    hide H.Inv, NetOk, CallsOk, DeliveredOk, StreamOk, View, Replay;
    var n, c' := c.nodes[i], Execute(c, i, OnApply);
    assert NodeRel(n, s.servers[i], s.h, |c.nodes|);
    StreamApplied(c.streams[i], n, s.servers[i].log);
  }

  lemma HandedCommitted(c: Cluster, s: H.State, i: NodeId)
    requires Related(c, s) && Shaped(c) && i < |c.nodes| && Enabled(c, i, OnApply)
    ensures DeliveredOk(Handed(i, ApplyBatch(c.nodes[i])), s.h, |c.nodes|)
  {
    hide H.Inv, NodeRel, NetOk, CallOk, StreamsOk, CommandCommitted, ApplyBatch;
    ExplainsNode(c, s, i);
    var batch := ApplyBatch(c.nodes[i]);
    forall d | d in Handed(i, batch) ensures CommandCommitted(s.h, |c.nodes|, d.index, d.command) {
      var m :| m in batch && m.Command? && d == Delivery(i, m.index, m.command);
      BatchCommitted(s, i, c.nodes[i], m);
    }
  }

  lemma DoApply(c: Cluster, s: H.State, i: NodeId) returns (s': H.State)
    requires Related(c, s) && Shaped(c) && i < |c.nodes| && Enabled(c, i, OnApply)
    ensures Related(Execute(c, i, OnApply), s') && H.Progress(s, s')
  {
    hide H.Inv, NodesRelated, NetOk, CallOk, StreamsOk, DeliveredOk, View, H.Progress, ApplyBatch;
    ExplainsNode(c, s, i);
    ApplyRefines(s, i, c.nodes[i]);
    s' := s;
    MovedRefl(s, i);
    StreamsApplied(c, s, i);
    HandedCommitted(c, s, i);
    NothingSent(s.h, |c.nodes|);
    Assemble(c, s, Execute(c, i, OnApply), s', i, {}, Handed(i, ApplyBatch(c.nodes[i])));
  }

  // ----- Crashes ---------------------------------------------------------------------------

  lemma RestartStreams(c: Cluster, s: H.State, s': H.State, i: NodeId, d: Durable)
    requires NodesRelated(c, s) && StreamsOk(c, s.servers) && Advanced(s, s', i) && DurableRel(d, s'.servers[i])
    ensures StreamsOk(Restart(c, i, d), s'.servers)
  {
    hide H.CommitKept;
    var c' := Restart(c, i, d);
    forall j | 0 <= j < |c'.nodes| ensures StreamOk(c'.streams[j], c'.nodes[j].appliedIndex, s'.servers[j].log) {
      if j != i {
        assert NodeRel(c.nodes[j], s.servers[j], s.h, |c.nodes|);
        StreamStable(c.streams[j], c.nodes[j].appliedIndex, s.servers[j], s'.servers[j]);
      }
    }
  }

  /** Restarting from a durable state that the history explains. */
  lemma DoRestart(c: Cluster, s: H.State, s1: H.State, i: NodeId, d: Durable) returns (s': H.State)
    requires Related(c, s) && Shaped(c) && i < |c.nodes| && Moved(s, s1, i) && Recoverable(s1, i, d)
    ensures Related(Restart(c, i, d), s') && H.Progress(s, s')
  {
    hide H.Inv, NodeRel, NetOk, CallOk, StreamsOk, DeliveredOk, View, H.Progress;
    RecoverRefines(s1, i, d);
    s' := H.StandDown(s1, i);
    MovedTrans(s, s1, s', i);
    RestartStreams(c, s, s', i, d);
    CallsStable(c.calls, s, s', i);
    NothingSent(s'.h, |c.nodes|);
    NothingHanded(s'.h, |c.nodes|);
    Assemble(c, s, Restart(c, i, d), s', i, {}, {});
  }

  lemma NothingHanded(h: H.History, peers: nat)
    ensures DeliveredOk({}, h, peers)
  {
  }

  /** Every durable state written inside a critical section is one the history explains. */
  lemma TrailRecoverable(c: Cluster, s: H.State, i: NodeId, w: Work, k: nat) returns (s1: H.State)
    requires Related(c, s) && Shaped(c) && i < |c.nodes| && Enabled(c, i, w) && k < |Local(c, i, w).1|
    ensures Moved(s, s1, i) && Recoverable(s1, i, Local(c, i, w).1[k])
  {
    hide H.Inv, NodesRelated, NetOk, CallOk, StreamsOk, DeliveredOk, View, VoteArgsOk, AppendArgsOk, H.Progress;
    ExplainsNode(c, s, i);
    var n := c.nodes[i];
    match w
    case OnTimeout =>
      StandDeclares(s, i, n);
      s1 := H.Stand(s, i);
      SavedRecoverable(s1, i, BeginElection(n, i));
    case OnTimeoutNow(args) =>
      s1 := TimeoutNowRecoverable(s, i, n, args, k);
    case OnVoteRequest(args) =>
      MsgFact(c, s, VoteRequest(i, args));
      s1 := VoteRecoverable(s, i, n, args, k);
    case OnVoteResponse(v, args, reply) =>
      MeetRecoverable(s, i, n, reply.term, k);
      s1 := MeetH(s, i, reply.term);
    case OnAppendRequest(args) =>
      MsgFact(c, s, AppendRequest(i, args));
      s1 := AppendRecoverable(s, i, n, args, k);
    case OnAppendResponse(v, args, reply) =>
      MeetRecoverable(s, i, n, reply.term, k);
      s1 := MeetH(s, i, reply.term);
    case OnHigherTerm(t) =>
      MeetRecoverable(s, i, n, t, k);
      s1 := MeetH(s, i, t);
    case OnStart(command) =>
      s1 := StartRefines(s, i, n, command);
      SavedRecoverable(s1, i, StartCommand(n, command));
    case OnSnapshot(index, state) =>
      ServicePrefix(c, s, i, index);
      SnapshotRefines(s, i, n, index, state);
      s1 := s;
      MovedRefl(s, i);
      SavedRecoverable(s, i, TakeSnapshot(n, index, state));
  }

  // ----- Every event keeps the relation ----------------------------------------------------

  lemma DoWork(c: Cluster, s: H.State, i: NodeId, w: Work) returns (s': H.State)
    requires Related(c, s) && Shaped(c) && i < |c.nodes| && Enabled(c, i, w)
    ensures Related(Execute(c, i, w), s') && H.Progress(s, s')
  {
    hide Related, H.Progress, Enabled, Execute;
    match w
    case OnTimeout => s' := DoTimeout(c, s, i);
    case OnTimeoutNow(args) => s' := DoTimeoutNow(c, s, i, args);
    case OnVoteRequest(args) => s' := DoVoteRequest(c, s, i, args);
    case OnVoteResponse(v, args, reply) => s' := DoVoteResponse(c, s, i, v, args, reply);
    case OnAppendRequest(args) => s' := DoAppendRequest(c, s, i, args);
    case OnAppendResponse(v, args, reply) => s' := DoAppendResponse(c, s, i, v, args, reply);
    case OnHigherTerm(t) => s' := DoHigherTerm(c, s, i, t);
    case OnStart(command) => s' := DoStart(c, s, i, command);
    case OnSnapshot(index, state) => s' := DoSnapshot(c, s, i, index, state);
    case OnHeartbeat => s' := DoHeartbeat(c, s, i);
    case OnApply => s' := DoApply(c, s, i);
  }

  lemma SavedNow(c: Cluster, s: H.State, i: NodeId)
    requires Related(c, s) && i < |c.nodes|
    ensures Moved(s, s, i) && Recoverable(s, i, c.nodes[i].Saved())
  {
    hide H.Inv, H.Progress;
    ExplainsNode(c, s, i);
    MovedRefl(s, i);
  }

  lemma StepRelated(c: Cluster, s: H.State, e: Event) returns (s': H.State)
    requires Related(c, s) && Possible(c, e)
    ensures Related(After(c, e), s') && H.Progress(s, s')
  {
    hide Related, H.Progress, Enabled, Execute, Local, Restart, Moved, Recoverable;
    match e
    case Do(i, w) =>
      s' := DoWork(c, s, i, w);
    case Crash(i) =>
      SavedNow(c, s, i);
      s' := DoRestart(c, s, s, i, c.nodes[i].Saved());
    case CrashDuring(i, w, k) =>
      var s1 := TrailRecoverable(c, s, i, w, k);
      s' := DoRestart(c, s, s1, i, Local(c, i, w).1[k]);
  }

  lemma FreshRelated(peers: nat)
    ensures Related(FreshCluster(peers), H.Start(peers))
  {
    H.StartInv(peers);
  }

  // ----- Whole runs ------------------------------------------------------------------------

  /** A history that explains every state of the run. */
  ghost predicate Explained(run: seq<Cluster>, hs: seq<H.State>) {
    && |hs| == |run|
    && (forall k :: 0 <= k < |run| ==> Related(run[k], hs[k]))
    && (forall a, b :: 0 <= a <= b < |run| ==> H.Progress(hs[a], hs[b]))
  }

  lemma {:induction false} ExplainRun(run: seq<Cluster>, peers: nat) returns (hs: seq<H.State>)
    requires IsRun(run, peers)
    ensures Explained(run, hs)
    ensures forall k :: 0 <= k < |run| ==> |run[k].nodes| == peers
    decreases |run|
  {
    hide Related, H.Progress, Possible, After;
    if |run| == 1 {
      FreshRelated(peers);
      hs := [H.Start(peers)];
      RelatedRefl(run[0], hs[0]);
    } else {
      var z := |run| - 1;
      var before := run[..z];
      assert IsRun(before, peers) by {
        forall k | 0 <= k < |before| - 1 ensures Steps(before[k], before[k + 1]) {
          assert Steps(run[k], run[k + 1]);
        }
      }
      hs := ExplainRun(before, peers);
      assert Steps(run[z - 1], run[z - 1 + 1]);
      var last := NextExplained(run[z - 1], hs[z - 1], run[z]);
      ExtendExplained(run, hs, last);
      hs := hs + [last];
    }
  }

  lemma RelatedRefl(c: Cluster, s: H.State)
    requires Related(c, s)
    ensures H.Progress(s, s)
  {
    H.ProgressRefl(s);
  }

  lemma NextExplained(c: Cluster, s: H.State, c': Cluster) returns (s': H.State)
    requires Related(c, s) && Steps(c, c')
    ensures Related(c', s') && H.Progress(s, s') && |c'.nodes| == |c.nodes|
  {
    hide Related, H.Progress, Enabled, Execute, Restart;
    var e :| Possible(c, e) && c' == After(c, e);
    s' := StepRelated(c, s, e);
    SameSize(c, s, c', s');
  }

  lemma SameSize(c: Cluster, s: H.State, c': Cluster, s': H.State)
    requires Related(c, s) && Related(c', s') && H.Progress(s, s')
    ensures |c.nodes| == |c'.nodes| == |s.servers|
  {
    hide H.Inv;
  }

  lemma ExtendExplained(run: seq<Cluster>, hs: seq<H.State>, last: H.State)
    requires |run| >= 2 && Explained(run[..|run| - 1], hs)
    requires Related(run[|run| - 1], last) && H.Progress(hs[|hs| - 1], last)
    ensures Explained(run, hs + [last])
  {
    hide Related, H.Progress;
    var all, z := hs + [last], |run| - 1;
    forall k | 0 <= k < |run| ensures Related(run[k], all[k]) {
      if k < z {
        assert Related(run[..z][k], hs[k]);
      }
    }
    RelatedRefl(run[z], last);
    forall a, b | 0 <= a <= b < |run| ensures H.Progress(all[a], all[b]) {
      if a < z && b == z {
        H.ProgressTrans(hs[a], hs[z - 1], last);
      }
    }
  }
}
