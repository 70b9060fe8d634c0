/** What every run of the cluster guarantees, stated on the servers themselves. */
module RaftTheorems {
  import opened RaftTypes
  import opened RaftNode
  import opened RaftCluster
  import opened RaftRefinement
  import opened RaftSafety
  import H = RaftHistory

  /** The server holds the entry with absolute index x itself, not only in its snapshot. */
  predicate Retains(n: Node, x: nat) {
    |n.logs| >= 1 && n.snapshotIndex < x <= n.Last()
  }

  ghost predicate InRun(run: seq<Cluster>, peers: nat, k: nat, i: NodeId) {
    IsRun(run, peers) && k < |run| && i < peers && i < |run[k].nodes|
  }

  /** The uncompacted log a server's log stands for. */
  lemma WholeLog(c: Cluster, s: H.State, i: NodeId)
    requires Related(c, s) && i < |c.nodes|
    ensures i < |s.servers| == |c.nodes| && View(c.nodes[i].logs, c.nodes[i].snapshotIndex, s.servers[i].log)
  {
    hide H.Inv;
    ExplainsNode(c, s, i);
  }

  lemma SameState(c: Cluster, s: H.State)
    requires Related(c, s)
    ensures H.Progress(s, s)
  {
    hide NodesRelated, NetOk, CallsOk, StreamsOk, DeliveredOk;
    H.ProgressRefl(s);
  }

  /** The explained server of a related state, with its log committed up to x. */
  lemma CommittedAt(c: Cluster, s: H.State, i: NodeId, x: nat)
    requires Related(c, s) && i < |c.nodes| && x <= c.nodes[i].commitIndex
    ensures i < |s.servers| == |c.nodes| && x < |s.servers[i].log|
    ensures H.CommittedPrefix(s.h, |s.servers|, s.servers[i].log, x + 1, c.nodes[i].term) && s.servers[i].log[0] == SENTINEL
    ensures |c.nodes[i].logs| >= 1 && x <= c.nodes[i].Last()
    ensures c.nodes[i].snapshotIndex < x ==> c.nodes[i].At(x) == s.servers[i].log[x]
  {
    hide H.Inv, H.CommittedPrefix;
    ExplainsNode(c, s, i);
    CommittedUpTo(s, i, c.nodes[i], x);
  }

  /** Committed prefixes of two states of one run agree, even between different times. */
  lemma PrefixesAgree(c: Cluster, s: H.State, i: NodeId, c': Cluster, s': H.State, j: NodeId, x: nat)
    requires Related(c, s) && Related(c', s') && H.Progress(s, s')
    requires i < |c.nodes| && j < |c'.nodes| && x <= c.nodes[i].commitIndex && x <= c'.nodes[j].commitIndex
    ensures i < |s.servers| && j < |s'.servers| && Agree(s.servers[i].log, s'.servers[j].log, x + 1)
  {
    hide H.Inv, H.CommittedPrefix, NodesRelated, NetOk, CallsOk, StreamsOk, DeliveredOk;
    CommittedAt(c, s, i, x);
    CommittedAt(c', s', j, x);
    H.CommittedPrefixStable(s.h, s'.h, |s.servers|, s.servers[i].log, x + 1, c.nodes[i].term);
    H.CommittedAgree(s', s.servers[i].log, x + 1, c.nodes[i].term, s'.servers[j].log, x + 1, c'.nodes[j].term);
  }

  /**
   State machine safety: an entry a server has committed, at any time of the run, is the entry every
   server has committed at that index at any time.
   */
  lemma StateMachineSafety(run: seq<Cluster>, peers: nat, a: nat, i: NodeId, b: nat, j: NodeId, x: nat)
    requires InRun(run, peers, a, i) && InRun(run, peers, b, j)
    requires run[a].nodes[i].snapshotIndex < x <= run[a].nodes[i].commitIndex
    requires run[b].nodes[j].snapshotIndex < x <= run[b].nodes[j].commitIndex
    ensures Retains(run[a].nodes[i], x) && Retains(run[b].nodes[j], x)
    ensures run[a].nodes[i].At(x) == run[b].nodes[j].At(x)
  {
    hide Related, H.Progress, Steps, H.CommittedPrefix;
    var hs := ExplainRun(run, peers);
    CommittedAt(run[a], hs[a], i, x);
    CommittedAt(run[b], hs[b], j, x);
    if a <= b {
      PrefixesAgree(run[a], hs[a], i, run[b], hs[b], j, x);
    } else {
      PrefixesAgree(run[b], hs[b], j, run[a], hs[a], i, x);
    }
  }

  /** No two services are ever handed different commands for one index. */
  lemma AppliedSafety(run: seq<Cluster>, peers: nat, a: nat, b: nat, d: Delivery, e: Delivery)
    requires IsRun(run, peers) && a <= b < |run| && d in run[a].delivered && e in run[b].delivered && d.index == e.index
    ensures d.command == e.command
  {
    hide Related, H.Progress, Steps;
    var hs := ExplainRun(run, peers);
    DeliveriesAgree(run[a], hs[a], run[b], hs[b], d, e);
  }

  lemma DeliveriesAgree(c: Cluster, s: H.State, c': Cluster, s': H.State, d: Delivery, e: Delivery)
    requires Related(c, s) && Related(c', s') && H.Progress(s, s')
    requires d in c.delivered && e in c'.delivered && d.index == e.index
    ensures d.command == e.command
  {
    hide H.Inv, NodeRel, NetOk, CallsOk, StreamsOk, H.CommittedPrefix;
    var peers := |c.nodes|;
    CommandStable(s.h, s'.h, peers, d.index, d.command);
    var l, t: nat :| CommittedEntry(s'.h, peers, l, t, d.index, d.command);
    var m, u: nat :| CommittedEntry(s'.h, peers, m, u, d.index, e.command);
    CommittedEntriesAgree(s', l, t, d.command, m, u, e.command, d.index);
  }

  lemma CommittedEntriesAgree(s: H.State, l: Log, t: nat, p: Bytes, m: Log, u: nat, q: Bytes, x: nat)
    requires H.Inv(s) && CommittedEntry(s.h, |s.servers|, l, t, x, p) && CommittedEntry(s.h, |s.servers|, m, u, x, q)
    ensures p == q
  {
    hide H.Inv;
    H.CommittedAgree(s, l, x + 1, t, m, x + 1, u);
  }

  /** Election safety: a term has at most one leader over the whole run, restarts included. */
  lemma ElectionSafety(run: seq<Cluster>, peers: nat, a: nat, i: NodeId, b: nat, j: NodeId)
    requires InRun(run, peers, a, i) && InRun(run, peers, b, j)
    requires run[a].nodes[i].role == Leader && run[b].nodes[j].role == Leader
    requires run[a].nodes[i].term == run[b].nodes[j].term
    ensures i == j
  {
    hide Related, H.Progress, Steps;
    var hs := ExplainRun(run, peers);
    LeaderRecorded(run[a], hs[a], i);
    LeaderRecorded(run[b], hs[b], j);
    if a <= b {
      SameElection(hs[a], hs[b], run[a].nodes[i].term);
    } else {
      SameElection(hs[b], hs[a], run[a].nodes[i].term);
    }
  }

  lemma LeaderRecorded(c: Cluster, s: H.State, i: NodeId)
    requires Related(c, s) && i < |c.nodes| && c.nodes[i].role == Leader
    ensures c.nodes[i].term in s.h.elections && s.h.elections[c.nodes[i].term].leader == i
  {
    hide H.Inv;
    ExplainsNode(c, s, i);
    LeaderFacts(s, i, c.nodes[i]);
  }

  lemma SameElection(s: H.State, s': H.State, t: nat)
    requires H.Progress(s, s') && t in s.h.elections
    ensures t in s'.h.elections && s'.h.elections[t].leader == s.h.elections[t].leader
  {
    assert H.Grown(s.h.elections[t], s'.h.elections[t]);
  }

  /** A server never gives up what it has committed: not by conflicts, snapshots, crashes or restarts. */
  lemma CommittedIsDurable(run: seq<Cluster>, peers: nat, a: nat, b: nat, i: NodeId, x: nat)
    requires InRun(run, peers, a, i) && InRun(run, peers, b, i) && a <= b
    requires run[a].nodes[i].snapshotIndex < x <= run[a].nodes[i].commitIndex && run[b].nodes[i].snapshotIndex < x
    ensures Retains(run[a].nodes[i], x) && Retains(run[b].nodes[i], x)
    ensures run[b].nodes[i].At(x) == run[a].nodes[i].At(x)
  {
    hide Related, H.Progress, Steps, H.CommittedPrefix;
    var hs := ExplainRun(run, peers);
    CommittedAt(run[a], hs[a], i, x);
    StillHeld(run[a], hs[a], run[b], hs[b], i, x);
  }

  lemma StillHeld(c: Cluster, s: H.State, c': Cluster, s': H.State, i: NodeId, x: nat)
    requires Related(c, s) && Related(c', s') && H.Progress(s, s') && i < |c.nodes| && i < |c'.nodes|
    requires x <= c.nodes[i].commitIndex && c'.nodes[i].snapshotIndex < x
    ensures i < |s.servers| && x < |s.servers[i].log|
    ensures Retains(c'.nodes[i], x) && c'.nodes[i].At(x) == s.servers[i].log[x]
  {
    hide H.Inv, NetOk, CallsOk, StreamsOk, DeliveredOk;
    assert NodeRel(c.nodes[i], s.servers[i], s.h, |c.nodes|);
    assert NodeRel(c'.nodes[i], s'.servers[i], s'.h, |c'.nodes|);
    assert H.CommitKept(s.servers[i], s'.servers[i]);
  }

  /** Log matching across compaction: equal terms at an index mean equal logs up to it, wherever both are retained. */
  lemma LogsMatch(run: seq<Cluster>, peers: nat, a: nat, i: NodeId, b: nat, j: NodeId, x: nat, y: nat)
    requires InRun(run, peers, a, i) && InRun(run, peers, b, j)
    requires run[a].nodes[i].snapshotIndex <= x < run[a].nodes[i].snapshotIndex + |run[a].nodes[i].logs|
    requires run[b].nodes[j].snapshotIndex <= x < run[b].nodes[j].snapshotIndex + |run[b].nodes[j].logs|
    requires run[a].nodes[i].At(x).term == run[b].nodes[j].At(x).term
    requires run[a].nodes[i].snapshotIndex < y <= x && run[b].nodes[j].snapshotIndex < y
    ensures run[a].nodes[i].At(y) == run[b].nodes[j].At(y)
  {
    hide Related, H.Progress, Steps;
    var hs := ExplainRun(run, peers);
    if a <= b {
      WholeLogsMatch(run[a], hs[a], i, run[b], hs[b], j, x);
    } else {
      WholeLogsMatch(run[b], hs[b], j, run[a], hs[a], i, x);
    }
    ViewedAt(run[a], hs[a], i, y);
    ViewedAt(run[b], hs[b], j, y);
  }

  lemma ViewedAt(c: Cluster, s: H.State, i: NodeId, y: nat)
    requires Related(c, s) && i < |c.nodes| && Retains(c.nodes[i], y)
    ensures i < |s.servers| && y < |s.servers[i].log| && c.nodes[i].At(y) == s.servers[i].log[y]
  {
    hide H.Inv;
    assert NodeRel(c.nodes[i], s.servers[i], s.h, |c.nodes|);
  }

  /** The uncompacted logs themselves are identical up to an index at which the terms, sentinels included, are equal. */
  lemma WholeLogsMatch(c: Cluster, s: H.State, i: NodeId, c': Cluster, s': H.State, j: NodeId, x: nat)
    requires Related(c, s) && Related(c', s') && H.Progress(s, s') && i < |c.nodes| && j < |c'.nodes|
    requires c.nodes[i].snapshotIndex <= x < c.nodes[i].snapshotIndex + |c.nodes[i].logs|
    requires c'.nodes[j].snapshotIndex <= x < c'.nodes[j].snapshotIndex + |c'.nodes[j].logs|
    requires c.nodes[i].At(x).term == c'.nodes[j].At(x).term
    ensures i < |s.servers| && j < |s'.servers| && Agree(s.servers[i].log, s'.servers[j].log, x + 1)
  {
    hide NetOk, CallsOk, StreamsOk, DeliveredOk, H.GoodLog, Agree, H.CommitKept, H.BallotOk, H.ElectionOk, H.AckOk, H.ServerOk;
    assert NodeRel(c.nodes[i], s.servers[i], s.h, |c.nodes|);
    assert NodeRel(c'.nodes[j], s'.servers[j], s'.h, |c'.nodes|);
    H.LogFact(i, s.servers[i], s.h, |s.servers|);
    H.LogFact(j, s'.servers[j], s'.h, |s'.servers|);
    H.GoodLogStable(s.servers[i].log, s.h.elections, s'.h.elections);
    ViewTerm(c.nodes[i], s.servers[i].log, x);
    ViewTerm(c'.nodes[j], s'.servers[j].log, x);
    H.LogMatching(s.servers[i].log, s'.servers[j].log, s'.h.elections, x);
  }

  /** The indices of every server stay in order, so every slice the code takes is in bounds. */
  lemma IndicesInOrder(run: seq<Cluster>, peers: nat, k: nat, i: NodeId)
    requires InRun(run, peers, k, i)
    ensures var n := run[k].nodes[i];
            && n.Valid(peers)
            && n.snapshotIndex <= n.commitIndex <= n.Last() && n.appliedIndex <= n.commitIndex
            && (n.snapshotIndex > 0 ==> n.snapshot != [])
            && (n.role == Leader ==> forall p :: 0 <= p < peers ==> n.nextIndex[p] >= 1)
  {
    hide Related, H.Progress, Steps;
    var hs := ExplainRun(run, peers);
    NodeInOrder(run[k], hs[k], i);
  }

  lemma NodeInOrder(c: Cluster, s: H.State, i: NodeId)
    requires Related(c, s) && i < |c.nodes|
    ensures var n := c.nodes[i];
            && n.Valid(|c.nodes|)
            && n.snapshotIndex <= n.commitIndex <= n.Last() && n.appliedIndex <= n.commitIndex
            && (n.snapshotIndex > 0 ==> n.snapshot != [])
            && (n.role == Leader ==> forall p :: 0 <= p < |c.nodes| ==> n.nextIndex[p] >= 1)
  {
    hide H.Inv;
    ExplainsNode(c, s, i);
    Bounds(s, i, c.nodes[i]);
  }

  /** Every service receives its commands one by one, or a snapshot strictly beyond them, and never a step back. */
  lemma StreamsInOrder(run: seq<Cluster>, peers: nat, k: nat, i: NodeId)
    requires InRun(run, peers, k, i)
    ensures i < |run[k].streams|
    ensures var st := run[k].streams[i];
            InOrder(st.base, st.msgs) && Reached(st.base, st.msgs, |st.msgs|) == run[k].nodes[i].appliedIndex
  {
    hide Related, H.Progress, Steps, InOrder;
    var hs := ExplainRun(run, peers);
    StreamReached(run[k], hs[k], i);
  }

  lemma StreamReached(c: Cluster, s: H.State, i: NodeId)
    requires Related(c, s) && i < |c.nodes|
    ensures i < |c.streams| && i < |s.servers| && c.nodes[i].appliedIndex < |s.servers[i].log|
    ensures InOrder(c.streams[i].base, c.streams[i].msgs)
    ensures Reached(c.streams[i].base, c.streams[i].msgs, |c.streams[i].msgs|) == c.nodes[i].appliedIndex
    ensures Service(c.streams[i]) == Replay(s.servers[i].log, c.nodes[i].appliedIndex)
  {
    hide H.Inv, NodeRel, NetOk, CallsOk, DeliveredOk, InOrder;
    assert StreamOk(c.streams[i], c.nodes[i].appliedIndex, s.servers[i].log);
  }

  /**
   The replicated state machine: over snapshots, restarts and time, a service has applied exactly as many
   commands as its server's applied index says, and any two services have applied the same ones.
   */
  lemma ServicesAgree(run: seq<Cluster>, peers: nat, a: nat, i: NodeId, b: nat, j: NodeId)
    requires InRun(run, peers, a, i) && InRun(run, peers, b, j)
    requires run[a].nodes[i].appliedIndex <= run[b].nodes[j].appliedIndex
    ensures i < |run[a].streams| && j < |run[b].streams|
    ensures |Service(run[a].streams[i])| == run[a].nodes[i].appliedIndex
    ensures Service(run[a].streams[i]) <= Service(run[b].streams[j])
  {
    hide Related, H.Progress, Steps, InOrder, Service;
    var hs := ExplainRun(run, peers);
    StreamReached(run[a], hs[a], i);
    StreamReached(run[b], hs[b], j);
    IndicesInOrder(run, peers, a, i);
    IndicesInOrder(run, peers, b, j);
    var x := run[a].nodes[i].appliedIndex;
    if a <= b {
      PrefixesAgree(run[a], hs[a], i, run[b], hs[b], j, x);
    } else {
      PrefixesAgree(run[b], hs[b], j, run[a], hs[a], i, x);
    }
  }

  /** A message claims no more committed than the entries it verifies, so the follower's looser minimum is safe. */
  lemma LeaderCommitCovered(run: seq<Cluster>, peers: nat, k: nat, dst: NodeId, args: AppendArgs)
    requires IsRun(run, peers) && k < |run| && AppendRequest(dst, args) in run[k].net && args.snapshot == []
    ensures args.leaderCommit <= args.prevLogIndex + |args.entries|
  {
    hide Related, H.Progress, Steps;
    var hs := ExplainRun(run, peers);
    MsgFact(run[k], hs[k], AppendRequest(dst, args));
  }
}
