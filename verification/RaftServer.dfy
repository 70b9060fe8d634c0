/**
 The Raft server object.  Each method is one critical section, written with the loops and in-place
 updates of the protocol code, and proved to do exactly what the value-level account in RaftNode
 says; `writes` collects the durable states in the order in which they reach the write-ahead log.
 */
module RaftServer {
  import opened RaftTypes
  import opened RaftNode
  import W = WalModel

  class Raft {
    const me: NodeId
    const peers: nat

    var term: nat
    var voteFor: Option<NodeId>
    var logs: Log
    var role: Role
    var leaderId: Option<NodeId>
    var voteCount: nat
    var commitIndex: nat
    var appliedIndex: nat
    var snapshotIndex: nat
    var snapshot: ServiceState
    var matchIndex: seq<nat>
    var nextIndex: seq<nat>

    /** The state the write-ahead log would recover. */
    var wal: Durable

    /** What the log recovered at the start, the operations issued since, and the durable states they wrote. */
    ghost const base: Durable
    ghost var ops: seq<W.WalOp>
    ghost var writes: seq<Durable>

    ghost function State(): Node
      reads this
    {
      Node(term, voteFor, logs, role, leaderId, voteCount, commitIndex, appliedIndex, snapshotIndex, snapshot,
           matchIndex, nextIndex)
    }

    /** Memory and write-ahead log agree, and the log was brought there by the operations issued. */
    ghost predicate Mirrored()
      reads this
    {
      wal == State().Saved() && W.Logged(base, ops, writes, wal)
    }

    ghost predicate Valid()
      reads this
    {
      State().Valid(peers) && Mirrored()
    }

    /** Start from what the write-ahead log has loaded; if it has found nothing, only the snapshot counts. */
    constructor (me: NodeId, peers: nat, st: Durable, found: bool)
      requires found ==> |st.logs| >= 1
      ensures this.me == me && this.peers == peers
      ensures base == (if found then st else BLANK.(snapshot := st.snapshot))
      ensures Valid() && State() == Recover(base, peers) && ops == [] && writes == []
    {
      var saved := if found then st else BLANK.(snapshot := st.snapshot);
      this.me, this.peers := me, peers;
      term, voteFor, logs := saved.term, saved.vote, saved.logs;
      role, leaderId, voteCount := Follower, None, 0;
      snapshotIndex, snapshot := saved.snapshotIndex, saved.snapshot;
      appliedIndex, commitIndex := saved.snapshotIndex, saved.snapshotIndex;
      matchIndex, nextIndex := seq(peers, _ => 0), seq(peers, _ => 0);
      wal := saved;
      base, ops, writes := saved, [], [];
    }

    // ----- Writes to the write-ahead log ---------------------------------------------------

    /** One operation more, with the states it goes through. */
    ghost method Note(op: W.WalOp, was: Durable)
      requires W.Applicable(was, op) && W.Logged(base, ops, writes, was) && wal == W.Applied(was, op)
      modifies this`ops, this`writes
      ensures ops == old(ops) + [op] && writes == old(writes) + W.Trail(was, op) && W.Logged(base, ops, writes, wal)
    {
      W.LoggedMore(base, ops, writes, was, op);
      ops, writes := ops + [op], writes + W.Trail(was, op);
    }

    method SaveMeta(t: nat, vote: Option<NodeId>)
      requires W.Logged(base, ops, writes, wal)
      modifies this`wal, this`ops, this`writes
      ensures W.Logged(base, ops, writes, wal) && ops == old(ops) + [W.SaveMeta(t, vote)]
      ensures wal == old(wal).(term := t, vote := vote) && writes == old(writes) + [wal]
    {
      hide W.Logged;
      wal := wal.(term := t, vote := vote);
      Note(W.SaveMeta(t, vote), old(wal));
    }

    method SaveSnapshot(index: nat, sentinelTerm: nat, state: ServiceState, suffix: seq<Entry>)
      requires W.Logged(base, ops, writes, wal)
      modifies this`wal, this`ops, this`writes
      ensures W.Logged(base, ops, writes, wal) && ops == old(ops) + [W.SaveSnapshot(index, sentinelTerm, state, suffix)]
      ensures wal == old(wal).(logs := [Entry([], sentinelTerm)] + suffix, snapshotIndex := index, snapshot := state)
      ensures writes == old(writes) + [wal]
    {
      hide W.Logged;
      wal := wal.(logs := [Entry([], sentinelTerm)] + suffix, snapshotIndex := index, snapshot := state);
      Note(W.SaveSnapshot(index, sentinelTerm, state, suffix), old(wal));
    }

    method TruncateSuffix(from: nat)
      requires W.Logged(base, ops, writes, wal) && W.Applicable(wal, W.TruncateSuffix(from))
      modifies this`wal, this`ops, this`writes
      ensures W.Logged(base, ops, writes, wal) && ops == old(ops) + [W.TruncateSuffix(from)]
      ensures wal == old(wal).(logs := old(wal).logs[..from - old(wal).snapshotIndex]) && writes == old(writes) + [wal]
    {
      hide W.Logged;
      wal := wal.(logs := wal.logs[..from - wal.snapshotIndex]);
      Note(W.TruncateSuffix(from), old(wal));
    }

    /** One record per entry: a crash can leave any prefix of them. */
    method AppendLog(entries: seq<Entry>)
      requires W.Logged(base, ops, writes, wal)
      modifies this`wal, this`ops, this`writes
      ensures W.Logged(base, ops, writes, wal) && ops == old(ops) + [W.AppendLog(entries)]
      ensures wal == old(wal).(logs := old(wal).logs + entries)
      ensures writes == old(writes) + AppendTrail(old(wal), entries)
    {
      hide W.Logged;
      wal := wal.(logs := wal.logs + entries);
      Note(W.AppendLog(entries), old(wal));
    }

    // ----- Elections -----------------------------------------------------------------------

    method StepDownTo(newTerm: nat)
      requires Valid()
      modifies this
      ensures old(ops) <= ops
      ensures Valid() && State() == StepDown(old(State()), newTerm) && writes == old(writes) + [State().Saved()]
    {
      hide W.Logged;
      term, role, leaderId, voteFor, voteCount := newTerm, Follower, None, None, 0;
      SaveMeta(term, voteFor);
    }

    method BeginElectionLocked() returns (round: VoteArgs)
      requires Valid()
      modifies this
      ensures old(ops) <= ops
      ensures Valid() && State() == BeginElection(old(State()), me) && writes == old(writes) + [State().Saved()]
      ensures round == VoteArgs(term, me, State().Last(), State().LastTerm())
    {
      hide W.Logged;
      term, role, leaderId, voteFor, voteCount := term + 1, Candidate, None, Some(me), 1;
      SaveMeta(term, voteFor);
      round := VoteArgs(term, me, |logs| - 1 + snapshotIndex, logs[|logs| - 1].term);
    }

    method RequestVote(args: VoteArgs) returns (reply: VoteReply)
      requires Valid()
      modifies this
      ensures old(ops) <= ops
      ensures Valid()
      ensures var o := HandleVote(old(State()), args);
              State() == o.node && reply == o.reply && writes == old(writes) + o.trail
    {
      hide W.Logged;
      if args.term < term {
        return VoteReply(term, false);
      }
      if args.term > term {
        StepDownTo(args.term);
      }
      var lastIdx := |logs| - 1 + snapshotIndex;
      var lastTerm := logs[|logs| - 1].term;
      var logOk := args.lastLogTerm > lastTerm || (args.lastLogTerm == lastTerm && args.lastLogIndex >= lastIdx);
      var granted := false;
      if (voteFor == None || voteFor == Some(args.candidate)) && logOk {
        voteFor := Some(args.candidate);
        SaveMeta(term, voteFor);
        granted := true;
      }
      reply := VoteReply(term, granted);
    }

    method ReceiveVote(sent: VoteArgs, reply: VoteReply)
      requires Valid()
      modifies this
      ensures old(ops) <= ops
      ensures Valid() && State() == HandleVoteReply(old(State()), me, peers, sent, reply)
      ensures writes == old(writes) + MeetTrail(old(State()), reply.term)
    {
      hide W.Logged;
      if reply.term > term {
        StepDownTo(reply.term);
        return;
      }
      if !reply.granted || role != Candidate || term != sent.term {
        return;
      }
      voteCount := voteCount + 1;
      if voteCount > peers / 2 {
        role := Leader;
        leaderId := Some(me);
        ResetProgress(|logs| - 1 + snapshotIndex);
      }
    }

    /** A new leader knows nothing of the others and probes from its own end. */
    method ResetProgress(lastIdx: nat)
      requires |matchIndex| == peers && |nextIndex| == peers
      modifies this`matchIndex, this`nextIndex
      ensures matchIndex == Repeat(0, peers) && nextIndex == Repeat(lastIdx + 1, peers)
    {
      for id := 0 to peers
        invariant |matchIndex| == peers && |nextIndex| == peers
        invariant matchIndex[..id] == Repeat(0, id) && nextIndex[..id] == Repeat(lastIdx + 1, id)
      {
        matchIndex := matchIndex[id := 0];
        nextIndex := nextIndex[id := lastIdx + 1];
      }
    }

    method TimeoutNow(args: TimeoutArgs) returns (accepted: bool, round: Option<VoteArgs>)
      requires Valid()
      modifies this
      ensures old(ops) <= ops
      ensures Valid()
      ensures var o := HandleTimeoutNow(old(State()), me, args);
              State() == o.node && accepted == o.reply && writes == old(writes) + o.trail
      ensures round == if accepted then Some(VoteArgs(term, me, State().Last(), State().LastTerm())) else None
    {
      hide W.Logged;
      if args.term < term {
        return false, None;
      }
      if args.term > term {
        StepDownTo(args.term);
      }
      if Some(args.leader) != leaderId {
        return false, None;
      }
      if args.lastLogIndex < snapshotIndex || args.lastLogIndex != |logs| - 1 + snapshotIndex ||
         logs[args.lastLogIndex - snapshotIndex].term != args.lastLogTerm {
        return false, None;
      }
      var r := BeginElectionLocked();
      return true, Some(r);
    }

    // ----- Replication ---------------------------------------------------------------------

    method AppendEntriesHandler(args: AppendArgs) returns (reply: AppendReply)
      requires Valid()
      modifies this
      ensures old(ops) <= ops
      ensures Valid()
      ensures var o := HandleAppend(old(State()), args);
              State() == o.node && reply == o.reply && writes == old(writes) + o.trail
    {
      hide Follow, W.Logged;
      if args.term < term {
        return AppendReply(term, false, 0);
      }
      if args.term > term {
        StepDownTo(args.term);
      }
      role := Follower;
      leaderId := Some(args.leader);
      reply := FollowLeader(args);
    }

    method FollowLeader(args: AppendArgs) returns (reply: AppendReply)
      requires Valid()
      modifies this
      ensures old(ops) <= ops
      ensures Valid()
      ensures var o := Follow(old(State()), args);
              State() == o.node && reply == o.reply && writes == old(writes) + o.trail
    {
      hide W.Logged;
      if args.snapshot != [] {
        reply := Install(args);
        return;
      }
      if args.prevLogIndex < snapshotIndex {
        return AppendReply(term, false, snapshotIndex);
      }
      var last := |logs| - 1 + snapshotIndex;
      if args.prevLogIndex > last {
        return AppendReply(term, false, last);
      }
      if logs[args.prevLogIndex - snapshotIndex].term != args.prevLogTerm {
        var lastMatch := SkipConflict(args.prevLogIndex);
        return AppendReply(term, false, lastMatch);
      }
      reply := Accept(args);
    }

    method Install(args: AppendArgs) returns (reply: AppendReply)
      requires Valid() && args.snapshot != []
      modifies this
      ensures old(ops) <= ops
      ensures Valid()
      ensures var o := Follow(old(State()), args);
              State() == o.node && reply == o.reply && writes == old(writes) + o.trail
    {
      hide AcceptEntries, BeforeRun, W.Logged, InstallSnapshot;
      if args.snapshotIndex <= snapshotIndex {
        return AppendReply(term, true, snapshotIndex);
      }
      Replace(args);
      reply := AppendReply(term, true, snapshotIndex);
    }

    /** Put a newer snapshot in place of the log up to it; the suffix stays if the log holds the snapshot's last entry. */
    method Replace(args: AppendArgs)
      requires Valid() && args.snapshotIndex > snapshotIndex
      modifies this
      ensures old(ops) <= ops
      ensures Valid() && State() == InstallSnapshot(old(State()), args) && writes == old(writes) + [State().Saved()]
    {
      hide W.Logged;
      var kept := Kept(args);
      snapshot, logs, snapshotIndex, commitIndex := args.snapshot, kept, args.snapshotIndex, Max(commitIndex, args.snapshotIndex);
      SaveSnapshot(snapshotIndex, logs[0].term, snapshot, logs[1..]);
    }

    /** The new sentinel, followed by what the log holds beyond the snapshot if it holds the snapshot's last entry. */
    method Kept(args: AppendArgs) returns (kept: Log)
      requires |logs| >= 1 && args.snapshotIndex > snapshotIndex
      ensures kept == InstallSnapshot(State(), args).logs && |kept| >= 1 && kept[0] == Entry([], args.snapshotTerm)
      ensures [kept[0]] + kept[1..] == kept
    {
      kept := [Entry([], args.snapshotTerm)];
      if args.snapshotIndex - snapshotIndex < |logs| && logs[args.snapshotIndex - snapshotIndex].term == args.snapshotTerm {
        kept := kept + logs[args.snapshotIndex - snapshotIndex + 1..];
      }
    }

    /** Skip the whole run of the conflicting term; 0 if it reaches down to the snapshot. */
    method SkipConflict(prev: nat) returns (lastMatch: nat)
      requires Valid() && snapshotIndex <= prev <= State().Last()
      ensures lastMatch == BeforeRun(State(), State().At(prev).term, prev)
    {
      hide W.Logged;
      var conflictTerm := logs[prev - snapshotIndex].term;
      var i := prev;
      while i > snapshotIndex
        invariant snapshotIndex <= i <= prev
        invariant BeforeRun(State(), conflictTerm, prev) == BeforeRun(State(), conflictTerm, i)
      {
        if logs[i - snapshotIndex].term != conflictTerm {
          return i;
        }
        i := i - 1;
      }
      lastMatch := 0;
    }

    /** The first entry of the message that the log does not already hold. */
    method FindMissing(args: AppendArgs) returns (i: nat)
      requires Valid() && snapshotIndex <= args.prevLogIndex <= State().Last()
      ensures i == FirstMissing(State(), args.prevLogIndex, args.entries, 0)
    {
      hide W.Logged;
      i := 0;
      while i < |args.entries|
        invariant i <= |args.entries| && args.prevLogIndex + i <= State().Last()
        invariant forall k :: 0 <= k < i ==> Present(State(), args.prevLogIndex, args.entries, k)
        invariant FirstMissing(State(), args.prevLogIndex, args.entries, 0) ==
                  FirstMissing(State(), args.prevLogIndex, args.entries, i)
      {
        var logIdx := args.prevLogIndex + 1 + i;
        if logIdx > |logs| - 1 + snapshotIndex {
          break;
        }
        if logs[logIdx - snapshotIndex].term != args.entries[i].term {
          break;
        }
        i := i + 1;
      }
    }

    /** Cut the log at the first conflict and append what the message adds, on disk in two steps. */
    method Overwrite(logIdx: nat, entries: seq<Entry>)
      requires Valid() && snapshotIndex < logIdx <= State().Last() + 1
      modifies this`logs, this`wal, this`ops, this`writes
      ensures old(ops) <= ops
      ensures Valid()
      ensures logs == old(logs)[..logIdx - snapshotIndex] + entries
      ensures var cut := old(State()).Saved().(logs := old(logs)[..logIdx - snapshotIndex]);
              writes == old(writes) + [cut] + AppendTrail(cut, entries)
    {
      hide W.Logged;
      logs := logs[..logIdx - snapshotIndex] + entries;
      TruncateSuffix(logIdx);
      AppendLog(entries);
    }

    method Accept(args: AppendArgs) returns (reply: AppendReply)
      requires Valid() && snapshotIndex <= args.prevLogIndex <= State().Last()
      modifies this
      ensures old(ops) <= ops
      ensures Valid()
      ensures var o := AcceptEntries(old(State()), args);
              State() == o.node && reply == o.reply && writes == old(writes) + o.trail
    {
      hide W.Logged, FirstMissing, AppendTrail;
      reply := AppendReply(term, true, 0);
      if |args.entries| > 0 {
        var i := FindMissing(args);
        if i < |args.entries| {
          Overwrite(args.prevLogIndex + 1 + i, args.entries[i..]);
        }
      }
      RaiseCommit(args.leaderCommit);
    }

    /** Follow the leader's commit index as far as the log reaches. */
    method RaiseCommit(leaderCommit: nat)
      requires Valid()
      modifies this`commitIndex
      ensures Valid() && State() == Commit(old(State()), leaderCommit)
    {
      hide W.Logged;
      if leaderCommit > commitIndex {
        commitIndex := Min(leaderCommit, |logs| - 1 + snapshotIndex);
      }
    }

    /** The message the replication loop sends to a peer. */
    method Heartbeat(peer: NodeId) returns (args: AppendArgs)
      requires Valid() && peer < peers && nextIndex[peer] >= 1 && (snapshotIndex > 0 ==> snapshot != [])
      ensures args == HeartbeatFor(State(), me, peer)
    {
      hide W.Logged;
      var last := |logs| - 1 + snapshotIndex;
      var prevLogIndex := nextIndex[peer] - 1;
      if prevLogIndex > last {
        prevLogIndex := last;
      }
      var prevLogTerm := 0;
      var snap := [];
      if prevLogIndex < snapshotIndex {
        prevLogIndex := 0;
        snap := snapshot;
      } else {
        prevLogTerm := logs[prevLogIndex - snapshotIndex].term;
      }
      var entries := [];
      if prevLogIndex < last && snap == [] {
        entries := logs[prevLogIndex - snapshotIndex + 1..];
      }
      args := AppendArgs(term, me, prevLogIndex, prevLogTerm, entries, commitIndex, snap, snapshotIndex, logs[0].term);
    }

    method ReceiveAppend(server: NodeId, sent: AppendArgs, reply: AppendReply)
      requires Valid() && server < peers
      modifies this
      ensures old(ops) <= ops
      ensures Valid() && State() == HandleAppendReply(old(State()), me, server, sent, reply)
      ensures writes == old(writes) + MeetTrail(old(State()), reply.term)
    {
      hide W.Logged;
      if reply.term > term {
        StepDownTo(reply.term);
        return;
      }
      if term != sent.term || role != Leader {
        return;
      }
      if reply.success {
        var newMatch := if sent.snapshot != [] then sent.snapshotIndex else sent.prevLogIndex + |sent.entries|;
        if newMatch > matchIndex[server] {
          matchIndex := matchIndex[server := newMatch];
        }
        nextIndex := nextIndex[server := matchIndex[server] + 1];
        assert matchIndex == old(matchIndex)[server := Max(old(matchIndex)[server], NewMatch(sent))];
        AdvanceCommit();
      } else {
        if sent.prevLogIndex < matchIndex[server] {
          return;
        }
        nextIndex := nextIndex[server := reply.lastMatchIndex + 1];
      }
    }

    /** Ends at the greatest index of the current term held by a majority, or leaves the commit index alone. */
    method AdvanceCommit()
      requires Valid()
      modifies this`commitIndex
      ensures Valid() && commitIndex == LeaderCommit(old(State()), me, State().Last())
    {
      hide W.Logged;
      ghost var before := State();
      var last := |logs| - 1 + snapshotIndex;
      var N := commitIndex + 1;
      while N <= last
        invariant before.commitIndex < N
        invariant commitIndex == LeaderCommit(before, me, Min(N - 1, last))
        invariant State() == before.(commitIndex := commitIndex) && wal == old(wal)
      {
        if logs[N - snapshotIndex].term == term {
          var cnt := 1;
          for id := 0 to peers
            invariant cnt == 1 + CountHolders(matchIndex, me, N, id)
          {
            if id != me && matchIndex[id] >= N {
              cnt := cnt + 1;
            }
          }
          if cnt > peers / 2 {
            commitIndex := N;
          }
        }
        N := N + 1;
      }
    }

    // ----- Service interface ---------------------------------------------------------------

    method Start(command: Bytes) returns (index: int, atTerm: nat, isLeader: bool)
      requires Valid()
      modifies this
      ensures old(ops) <= ops
      ensures Valid() && atTerm == term
      ensures isLeader == (old(role) == Leader)
      ensures isLeader ==> State() == StartCommand(old(State()), command) && index == State().Last()
      ensures isLeader ==> writes == old(writes) + [State().Saved()]
      ensures !isLeader ==> State() == old(State()) && index == -1 && writes == old(writes)
    {
      hide W.Logged;
      if role != Leader {
        return -1, term, false;
      }
      index := |logs| + snapshotIndex;
      var entry := Entry(command, term);
      logs := logs + [entry];
      AppendLog([entry]);
      assert [entry][..1] == [entry];
      return index, term, true;
    }

    /** Discard the log up to index.  Beyond the commit index, where no service asks for it, the mirror still holds. */
    method Compact(index: nat, state: ServiceState)
      requires Valid() && index <= State().Last()
      modifies this
      ensures old(ops) <= ops
      ensures Mirrored() && (index <= commitIndex ==> Valid())
      ensures State() == TakeSnapshot(old(State()), index, state)
      ensures writes == old(writes) + if index <= old(snapshotIndex) then [] else [State().Saved()]
    {
      hide W.Logged;
      if index <= snapshotIndex {
        return;
      }
      logs := [Entry([], logs[index - snapshotIndex].term)] + logs[index - snapshotIndex + 1..];
      snapshotIndex := index;
      snapshot := state;
      SaveSnapshot(snapshotIndex, logs[0].term, snapshot, logs[1..]);
    }

    /** One round of the apply loop: hand over everything committed and not yet applied. */
    method Apply() returns (batch: seq<ApplyMsg>)
      requires Valid() && appliedIndex < commitIndex <= State().Last()
      modifies this`appliedIndex
      ensures Valid() && State() == old(State()).(appliedIndex := commitIndex)
      ensures batch == ApplyBatch(old(State()))
    {
      hide W.Logged;
      ghost var before := State();
      var startIdx := appliedIndex + 1;
      batch := [];
      if startIdx <= snapshotIndex {
        if snapshot != [] {
          batch := [Snapshot(snapshotIndex, logs[0].term, snapshot)];
        }
        startIdx := snapshotIndex + 1;
      }
      var entries := logs[startIdx - snapshotIndex..commitIndex - snapshotIndex + 1];
      appliedIndex := commitIndex;
      for i := 0 to |entries|
        invariant State() == before.(appliedIndex := before.commitIndex)
        invariant batch + Commands(before, startIdx + i, before.commitIndex + 1) == ApplyBatch(before)
      {
        CommandsStep(before, batch, startIdx + i, before.commitIndex + 1);
        assert entries[i] == before.At(startIdx + i);
        batch := batch + [Command(startIdx + i, entries[i].command)];
      }
      assert batch + [] == batch;
    }
  }
}
