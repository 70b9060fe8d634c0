/**
 One server at a time: what a critical section does to a compacted log is what some steps of
 RaftHistory do to the uncompacted one.
 */
module RaftRefinement {
  import opened RaftTypes
  import opened RaftNode
  import H = RaftHistory

  /** The compacted log shows the part of l above `snap`, and the term of the position it stands on. */
  ghost predicate View(logs: Log, snap: nat, l: Log) {
    && |logs| >= 1
    && |l| == snap + |logs|
    && l[snap].term == logs[0].term
    && forall x :: snap < x < |l| ==> l[x] == logs[x - snap]
  }

  ghost predicate DurableRel(d: Durable, s: H.Server) {
    && d.term == s.term
    && d.vote == s.vote
    && View(d.logs, d.snapshotIndex, s.log)
    && d.snapshotIndex <= s.commit
    && d.snapshot == Replay(s.log, d.snapshotIndex)
  }

  ghost predicate LeaderRel(n: Node, h: H.History) {
    && (forall v :: 0 <= v < |n.matchIndex| ==> n.matchIndex[v] == 0 || H.Ack(v, n.term, n.matchIndex[v]) in h.acks)
    && (forall v :: 0 <= v < |n.nextIndex| ==> n.nextIndex[v] >= 1)
  }

  ghost predicate NodeRel(n: Node, s: H.Server, h: H.History, peers: nat) {
    && n.Valid(peers)
    && DurableRel(n.Saved(), s)
    && n.role == s.role
    && n.appliedIndex <= n.commitIndex <= s.commit
    && (n.role == Candidate ==> n.voteCount == |s.voters|)
    && (n.role == Leader ==> LeaderRel(n, h))
  }

  /** Whoever acknowledged an index acknowledged all before it. */
  ghost predicate DownClosed(acks: set<H.Ack>) {
    forall a, x: nat {:trigger a in acks, H.Ack(a.node, a.term, x)} ::
      a in acks && x <= a.index ==> H.Ack(a.node, a.term, x) in acks
  }

  /** Server i of the history is explained, and n is its compacted form. */
  ghost predicate Explains(s: H.State, i: NodeId, n: Node) {
    && H.Inv(s) && DownClosed(s.h.acks)
    && i < |s.servers|
    && NodeRel(n, s.servers[i], s.h, |s.servers|)
  }

  /** Only server i moved, and nothing was forgotten. */
  ghost predicate Advanced(s: H.State, s': H.State, i: NodeId) {
    && H.Progress(s, s')
    && i < |s.servers| == |s'.servers|
    && s'.servers == s.servers[i := s'.servers[i]]
  }

  /** A candidacy that goes on has counted no further vote. */
  ghost predicate NoVoteCounted(s: H.Server, s': H.Server) {
    s'.role == Candidate && s'.term == s.term ==> s.role == Candidate && s'.voters <= s.voters
  }

  ghost predicate Moved(s: H.State, s': H.State, i: NodeId) {
    Advanced(s, s', i) && NoVoteCounted(s.servers[i], s'.servers[i])
  }

  lemma AdvancedTrans(a: H.State, b: H.State, c: H.State, i: NodeId)
    requires Advanced(a, b, i) && Advanced(b, c, i)
    ensures Advanced(a, c, i)
    ensures NoVoteCounted(a.servers[i], b.servers[i]) && NoVoteCounted(b.servers[i], c.servers[i]) ==>
              NoVoteCounted(a.servers[i], c.servers[i])
  {
    H.ProgressTrans(a, b, c);
    assert H.CommitKept(a.servers[i], b.servers[i]) && H.CommitKept(b.servers[i], c.servers[i]);
  }

  lemma MovedTrans(a: H.State, b: H.State, c: H.State, i: NodeId)
    requires Moved(a, b, i) && Moved(b, c, i)
    ensures Moved(a, c, i)
  {
    AdvancedTrans(a, b, c, i);
  }

  lemma MovedRefl(s: H.State, i: NodeId)
    requires H.Inv(s) && i < |s.servers|
    ensures Moved(s, s, i)
  {
    H.ProgressRefl(s);
  }

  /** In every explained state the indices are in order and every slice the code takes is in bounds. */
  lemma Bounds(s: H.State, i: NodeId, n: Node)
    requires Explains(s, i, n)
    ensures n.snapshotIndex <= n.commitIndex <= n.Last() && n.appliedIndex <= n.commitIndex
    ensures |s.servers[i].log| == n.Last() + 1
  {
    H.CommitFact(i, s.servers[i], s.h, |s.servers|);
  }

  // ----- Terms and elections ---------------------------------------------------------------

  function MeetH(s: H.State, i: NodeId, t: nat): H.State
    requires i < |s.servers|
  {
    if t > s.servers[i].term then H.Adopt(s, i, t) else s
  }

  lemma MeetRefines(s: H.State, i: NodeId, n: Node, t: nat)
    requires Explains(s, i, n)
    ensures Explains(MeetH(s, i, t), i, Meet(n, t)) && Moved(s, MeetH(s, i, t), i)
    ensures MeetH(s, i, t).h == s.h
    ensures forall d :: d in MeetTrail(n, t) ==> DurableRel(d, MeetH(s, i, t).servers[i])
  {
    hide H.Inv;
    if t > s.servers[i].term {
      H.AdoptKeepsInv(s, i, t);
    } else {
      MovedRefl(s, i);
    }
  }

  lemma StandRefines(s: H.State, i: NodeId, n: Node)
    requires Explains(s, i, n)
    ensures Explains(H.Stand(s, i), i, BeginElection(n, i)) && Moved(s, H.Stand(s, i), i)
    ensures H.Ballot(i, n.term + 1, i, s.servers[i].log, s.servers[i].log) in H.Stand(s, i).h.ballots
  {
    hide H.Inv;
    H.StandKeepsInv(s, i);
  }

  /** A recovered server is a follower whose candidacy or leadership is gone. */
  lemma RecoverRefines(s: H.State, i: NodeId, d: Durable)
    requires H.Inv(s) && DownClosed(s.h.acks) && i < |s.servers| && DurableRel(d, s.servers[i])
    ensures Explains(H.StandDown(s, i), i, Recover(d, |s.servers|)) && Moved(s, H.StandDown(s, i), i)
    ensures H.StandDown(s, i).h == s.h
  {
    hide H.Inv;
    H.StandDownKeepsInv(s, i);
  }

  ghost predicate SelfBallot(h: H.History, args: VoteArgs, l: Log) {
    && |l| >= 1 && |l| - 1 == args.lastLogIndex && l[|l| - 1].term == args.lastLogTerm
    && H.Ballot(args.candidate, args.term, args.candidate, l, l) in h.ballots
  }

  /** The vote request comes from a candidacy that was really declared, with this log. */
  ghost predicate VoteArgsOk(args: VoteArgs, h: H.History) {
    exists l :: SelfBallot(h, args, l)
  }

  lemma LastTermView(n: Node, l: Log)
    requires View(n.logs, n.snapshotIndex, l)
    ensures n.Last() == |l| - 1 && n.LastTerm() == l[|l| - 1].term
  {
  }

  // Granting a vote.

  /** Everything the vote rules ask of the ballot, from the declared candidacy and the log comparison. */
  lemma GrantMayCast(s: H.State, i: NodeId, n: Node, args: VoteArgs, l: Log)
    requires Explains(s, i, n) && SelfBallot(s.h, args, l)
    requires args.candidate != i && n.term == args.term && n.voteFor == None && LogOk(n, args)
    ensures H.MayCast(s, i, args.candidate, l)
  {
    hide H.Inv, H.ServerOk, H.BallotOk, H.GoodLog, View;
    var b := H.Ballot(args.candidate, args.term, args.candidate, l, l);
    H.BallotFact(s, b);
    H.ServerFact(s, i);
    BallotParts(b, s.servers, s.h.elections);
    LastTermView(n, s.servers[i].log);
    VotelessFollower(i, s.servers[i], s.h, |s.servers|);
  }

  lemma BallotParts(b: H.Ballot, ss: seq<H.Server>, E: H.Elections)
    requires H.BallotOk(b, ss, E)
    ensures b.candidate < |ss| && b.term >= 1 && b.term <= ss[b.candidate].term
    ensures H.GoodLog(b.candidateLog, E) && TermsAtMost(b.candidateLog, b.term - 1)
    ensures b.term == ss[b.candidate].term && ss[b.candidate].role == Candidate ==> ss[b.candidate].log == b.candidateLog
  {
  }

  lemma VotelessFollower(i: NodeId, s: H.Server, h: H.History, n: nat)
    requires H.ServerOk(i, s, h, n) && s.vote == None
    ensures s.role == Follower && |s.log| >= 1
  {
  }

  lemma GrantRefines(s: H.State, i: NodeId, n: Node, args: VoteArgs) returns (s': H.State)
    requires Explains(s, i, n) && VoteArgsOk(args, s.h) && args.candidate != i
    requires n.term == args.term && (n.voteFor == None || n.voteFor == Some(args.candidate)) && LogOk(n, args)
    ensures Explains(s', i, n.(voteFor := Some(args.candidate))) && Moved(s, s', i)
    ensures H.HasBallot(s'.h, i, args.term, args.candidate)
  {
    if n.voteFor == None {
      var l :| SelfBallot(s.h, args, l);
      GrantMayCast(s, i, n, args, l);
      s' := H.CastVote(s, i, args.candidate, l);
      H.CastKeepsInv(s, i, args.candidate, l);
    } else {
      s' := s;
      MovedRefl(s, i);
      VotedBallot(i, s.servers[i], s.h, |s.servers|);
    }
  }

  lemma VotedBallot(i: NodeId, s: H.Server, h: H.History, n: nat)
    requires H.ServerOk(i, s, h, n) && s.vote.Some?
    ensures H.HasBallot(h, i, s.term, s.vote.value)
  {
  }

  lemma VoteArgsStable(args: VoteArgs, h: H.History, h': H.History)
    requires VoteArgsOk(args, h) && H.Later(h, h')
    ensures VoteArgsOk(args, h')
  {
    var l :| SelfBallot(h, args, l);
    assert SelfBallot(h', args, l);
  }

  /** Answering a vote request: the reply is truthful, and every durable state on the way is explained. */
  lemma VoteRefines(s: H.State, i: NodeId, n: Node, args: VoteArgs) returns (s': H.State)
    requires Explains(s, i, n) && VoteArgsOk(args, s.h) && args.candidate != i
    ensures Explains(s', i, HandleVote(n, args).node) && Moved(s, s', i)
    ensures HandleVote(n, args).reply.granted ==> H.HasBallot(s'.h, i, args.term, args.candidate)
  {
    if args.term < n.term {
      s' := s;
      MovedRefl(s, i);
    } else {
      MeetRefines(s, i, n, args.term);
      var m, s1 := Meet(n, args.term), MeetH(s, i, args.term);
      s' := s1;
      if (m.voteFor == None || m.voteFor == Some(args.candidate)) && LogOk(m, args) {
        s' := GrantRefines(s1, i, m, args);
        MovedTrans(s, s1, s', i);
      }
    }
  }

  // Counting votes.

  lemma CountRefines(s: H.State, i: NodeId, n: Node, v: NodeId) returns (s': H.State)
    requires Explains(s, i, n) && n.role == Candidate && v !in s.servers[i].voters && H.HasBallot(s.h, v, n.term, i)
    ensures s' == H.CountVote(s, i, v)
    ensures Explains(s', i, n.(voteCount := n.voteCount + 1)) && Advanced(s, s', i)
  {
    hide H.Inv;
    s' := H.CountVote(s, i, v);
    H.CountVoteKeepsInv(s, i, v);
  }

  lemma WinRefines(s: H.State, i: NodeId, n: Node)
    requires Explains(s, i, n) && n.role == Candidate && n.voteCount > |s.servers| / 2
    ensures Explains(H.Win(s, i), i, BecomeLeader(n, i, |s.servers|)) && Advanced(s, H.Win(s, i), i)
  {
    hide H.Inv, Replay, View;
    CountedMajority(s, i, n);
    H.WinKeepsInv(s, i);
  }

  lemma CountedMajority(s: H.State, i: NodeId, n: Node)
    requires Explains(s, i, n) && n.role == Candidate && n.voteCount > |s.servers| / 2
    ensures Majority(s.servers[i].voters, |s.servers|)
  {
    CandidateVoters(i, s.servers[i], s.h, |s.servers|);
  }

  lemma CandidateVoters(i: NodeId, s: H.Server, h: H.History, n: nat)
    requires H.ServerOk(i, s, h, n) && s.role == Candidate
    ensures s.voters <= Ids(n)
  {
  }

  /** A counted vote is that of a server not counted before; a majority of them makes the leader. */
  lemma CountThenWin(s: H.State, i: NodeId, n: Node, v: NodeId, n': Node) returns (s': H.State)
    requires Explains(s, i, n) && n.role == Candidate && v !in s.servers[i].voters && H.HasBallot(s.h, v, n.term, i)
    requires n' == HandleVoteReply(n, i, |s.servers|, VoteArgs(n.term, i, 0, 0), VoteReply(n.term, true))
    ensures Explains(s', i, n') && Advanced(s, s', i)
    ensures s'.servers[i].term == s.servers[i].term && s'.servers[i].voters == s.servers[i].voters + {v}
  {
    hide H.Inv;
    var s1 := CountRefines(s, i, n, v);
    var m := n.(voteCount := n.voteCount + 1);
    if m.voteCount > |s.servers| / 2 {
      WinRefines(s1, i, m);
      s' := H.Win(s1, i);
      AdvancedTrans(s, s1, s', i);
    } else {
      s' := s1;
    }
  }

  lemma VoteReplyRefines(s: H.State, i: NodeId, n: Node, v: NodeId, sent: VoteArgs, reply: VoteReply) returns (s': H.State)
    requires Explains(s, i, n) && sent.candidate == i
    requires reply.granted ==> H.HasBallot(s.h, v, sent.term, i)
    requires n.role == Candidate && n.term == sent.term ==> v !in s.servers[i].voters
    ensures Explains(s', i, HandleVoteReply(n, i, |s.servers|, sent, reply)) && Advanced(s, s', i)
    ensures s'.servers[i].role == Candidate ==>
              s.servers[i].role == Candidate && s'.servers[i].term == s.servers[i].term &&
              s'.servers[i].voters <= s.servers[i].voters + {v}
    ensures s.servers[i].term == sent.term || NoVoteCounted(s.servers[i], s'.servers[i])
  {
    hide H.Inv;
    if reply.term > n.term {
      MeetRefines(s, i, n, reply.term);
      s' := MeetH(s, i, reply.term);
    } else if !reply.granted || n.role != Candidate || n.term != sent.term {
      s' := s;
      MovedRefl(s, i);
    } else {
      s' := CountThenWin(s, i, n, v, HandleVoteReply(n, i, |s.servers|, sent, reply));
    }
  }

  // ----- Replication: the follower ---------------------------------------------------------

  ghost predicate EntriesOk(args: AppendArgs, h: H.History, peers: nat, leader: Log) {
    && args.prevLogIndex + |args.entries| < |leader|
    && args.prevLogTerm == leader[args.prevLogIndex].term
    && (forall k :: 0 <= k < |args.entries| ==> args.entries[k] == leader[args.prevLogIndex + 1 + k])
    && args.leaderCommit <= args.prevLogIndex + |args.entries|
    && H.CommittedPrefix(h, peers, leader, args.leaderCommit + 1, args.term)
  }

  ghost predicate SnapshotOk(args: AppendArgs, h: H.History, peers: nat, leader: Log) {
    && 1 <= args.snapshotIndex < |leader|
    && args.snapshotTerm == leader[args.snapshotIndex].term
    && args.snapshot == Replay(leader, args.snapshotIndex)
    && H.CommittedPrefix(h, peers, leader, args.snapshotIndex + 1, args.term)
  }

  /** The message is a faithful cut-out of its leader's log, and claims no more committed than it carries. */
  ghost predicate AppendArgsOk(args: AppendArgs, h: H.History, peers: nat) {
    && args.term in h.elections
    && h.elections[args.term].leader == args.leader
    && var leader := h.elections[args.term].log;
       if args.snapshot == [] then EntriesOk(args, h, peers, leader) else SnapshotOk(args, h, peers, leader)
  }

  /** Server i is a follower in a term that has a leader. */
  ghost predicate Following(s: H.State, i: NodeId, m: Node) {
    && Explains(s, i, m)
    && m.role == Follower
    && m.term in s.h.elections
  }

  function RecogniseH(s: H.State, i: NodeId, t: nat): H.State
    requires i < |s.servers|
  {
    H.StandDown(MeetH(s, i, t), i)
  }

  lemma RecogniseRefines(s: H.State, i: NodeId, n: Node, args: AppendArgs)
    requires Explains(s, i, n) && n.term <= args.term && args.term in s.h.elections
    ensures Recognise(n, args).term == args.term && RecogniseH(s, i, args.term).h == s.h
    ensures Following(RecogniseH(s, i, args.term), i, Recognise(n, args))
    ensures Moved(s, RecogniseH(s, i, args.term), i)
  {
    hide H.Inv;
    var s1, m := MeetH(s, i, args.term), Meet(n, args.term);
    assert m.term == args.term && s1.h == s.h;
    MeetRefines(s, i, n, args.term);
    FollowRefines(s1, i, m, args.leader);
    MovedTrans(s, s1, RecogniseH(s, i, args.term), i);
  }

  lemma FollowRefines(s: H.State, i: NodeId, n: Node, leader: NodeId)
    requires Explains(s, i, n)
    ensures Explains(H.StandDown(s, i), i, n.(role := Follower, leaderId := Some(leader)))
    ensures Moved(s, H.StandDown(s, i), i)
  {
    hide H.Inv;
    H.StandDownKeepsInv(s, i);
  }

  lemma AckRefines(s: H.State, i: NodeId, m: Node, q: nat)
    requires Following(s, i, m) && Agree(s.servers[i].log, s.h.elections[m.term].log, q + 1)
    ensures Following(H.Acknowledge(s, i, q), i, m) && Moved(s, H.Acknowledge(s, i, q), i)
    ensures H.Ack(i, m.term, q) in H.Acknowledge(s, i, q).h.acks
  {
    hide H.Inv;
    H.AcknowledgeKeepsInv(s, i, q);
    AckDownClosed(s.h.acks, i, m.term, q);
  }

  lemma AckDownClosed(acks: set<H.Ack>, i: NodeId, t: nat, q: nat)
    requires DownClosed(acks)
    ensures DownClosed(acks + set x | 0 <= x <= q :: H.Ack(i, t, x))
  {
  }

  /** Committing what the history knows to be committed. */
  function RaiseH(s: H.State, i: NodeId, c: nat): H.State
    requires i < |s.servers|
  {
    if c > s.servers[i].commit then H.SetCommit(s, i, c) else s
  }

  lemma RaiseRefines(s: H.State, i: NodeId, m: Node, c: nat)
    requires Explains(s, i, m) && m.commitIndex <= c
    requires H.CommittedPrefix(s.h, |s.servers|, s.servers[i].log, c + 1, m.term)
    ensures Explains(RaiseH(s, i, c), i, m.(commitIndex := c)) && Moved(s, RaiseH(s, i, c), i)
    ensures RaiseH(s, i, c).h == s.h
  {
    hide H.Inv;
    NodeRaises(m, s.servers[i], s.h, |s.servers|, c);
    if c > s.servers[i].commit {
      H.SetCommitKeepsInv(s, i, c);
    } else {
      MovedRefl(s, i);
    }
  }

  lemma NodeRaises(m: Node, s: H.Server, h: H.History, peers: nat, c: nat)
    requires NodeRel(m, s, h, peers) && m.commitIndex <= c
    ensures NodeRel(m.(commitIndex := c), if c > s.commit then s.(commit := c) else s, h, peers)
  {
  }

  lemma FollowerLogs(s: H.State, i: NodeId, m: Node)
    requires Following(s, i, m)
    ensures H.GoodLog(s.servers[i].log, s.h.elections) && H.GoodLog(s.h.elections[m.term].log, s.h.elections)
  {
    H.LogFact(i, s.servers[i], s.h, |s.servers|);
    LeaderLogFact(m.term, s.h.elections[m.term], s.servers, s.h);
  }

  lemma LeaderLogFact(t: nat, e: H.Election, ss: seq<H.Server>, h: H.History)
    requires H.ElectionOk(t, e, ss, h)
    ensures H.GoodLog(e.log, h.elections) && TermsAtMost(e.log, t)
  {
  }

  /** Overwriting the log from its first departure on, by any number of the leader's entries. */
  lemma OverwriteRefines(s: H.State, i: NodeId, m: Node, j: nat, q: nat, es: seq<Entry>)
    requires Following(s, i, m) && m.snapshotIndex < j <= q + 1 <= |s.h.elections[m.term].log|
    requires H.Departs(s.servers[i].log, s.h.elections[m.term].log, j)
    requires es == s.h.elections[m.term].log[j..q + 1]
    ensures j - m.snapshotIndex <= |m.logs|
    ensures Following(H.TakeOver(s, i, q), i, m.(logs := m.logs[..j - m.snapshotIndex] + es))
    ensures Moved(s, H.TakeOver(s, i, q), i)
  {
    hide H.Inv;
    H.TakeOverKeepsInv(s, i, j, q);
    NodeOverwrites(m, s.servers[i], s.h, |s.servers|, s.h.elections[m.term].log, j, q);
  }

  lemma NodeOverwrites(m: Node, s: H.Server, h: H.History, peers: nat, leader: Log, j: nat, q: nat)
    requires NodeRel(m, s, h, peers) && m.role == Follower
    requires H.Departs(s.log, leader, j) && m.snapshotIndex < j <= q + 1 <= |leader|
    ensures j - m.snapshotIndex <= |m.logs|
    ensures NodeRel(m.(logs := m.logs[..j - m.snapshotIndex] + leader[j..q + 1]), s.(log := leader[..q + 1]), h, peers)
  {
    OverwriteView(m.logs, m.snapshotIndex, s.log, leader, j, q);
    ReplayAgree(s.log, leader[..q + 1], m.snapshotIndex);
  }

  lemma OverwriteView(logs: Log, snap: nat, l: Log, leader: Log, j: nat, q: nat)
    requires View(logs, snap, l) && H.Departs(l, leader, j) && snap < j <= q + 1 <= |leader|
    ensures j - snap <= |logs| && View(logs[..j - snap] + leader[j..q + 1], snap, leader[..q + 1])
  {
  }

  lemma ViewTerm(n: Node, l: Log, x: nat)
    requires View(n.logs, n.snapshotIndex, l) && n.snapshotIndex <= x <= n.Last()
    ensures x < |l| && l[x].term == n.At(x).term
  {
  }

  /** What the conflict search skips is shared with the leader; where it stops, the logs depart. */
  lemma SearchAgrees(m: Node, l: Log, leader: Log, E: H.Elections, args: AppendArgs, k: nat)
    requires View(m.logs, m.snapshotIndex, l) && H.GoodLog(l, E) && H.GoodLog(leader, E)
    requires m.snapshotIndex <= args.prevLogIndex <= m.Last() && m.At(args.prevLogIndex).term == args.prevLogTerm
    requires args.prevLogIndex + |args.entries| < |leader| && args.prevLogTerm == leader[args.prevLogIndex].term
    requires forall x :: 0 <= x < |args.entries| ==> args.entries[x] == leader[args.prevLogIndex + 1 + x]
    requires k == FirstMissing(m, args.prevLogIndex, args.entries, 0)
    ensures Agree(l, leader, args.prevLogIndex + k + 1)
    ensures k < |args.entries| ==> H.Departs(l, leader, args.prevLogIndex + 1 + k)
  {
    var p := args.prevLogIndex;
    if k > 0 {
      assert Present(m, p, args.entries, k - 1);
    }
    ViewTerm(m, l, p + k);
    assert l[p + k].term == leader[p + k].term;
    H.LogMatching(l, leader, E, p + k);
    if k < |args.entries| && p + 1 + k < |l| {
      ViewTerm(m, l, p + 1 + k);
      assert !Present(m, p, args.entries, k);
    }
  }

  lemma Search(s: H.State, i: NodeId, m: Node, args: AppendArgs, k: nat)
    requires Following(s, i, m) && m.term == args.term && EntriesOk(args, s.h, |s.servers|, s.h.elections[m.term].log)
    requires m.snapshotIndex <= args.prevLogIndex <= m.Last() && m.At(args.prevLogIndex).term == args.prevLogTerm
    requires k == FirstMissing(m, args.prevLogIndex, args.entries, 0)
    ensures Agree(s.servers[i].log, s.h.elections[m.term].log, args.prevLogIndex + k + 1)
    ensures k < |args.entries| ==> H.Departs(s.servers[i].log, s.h.elections[m.term].log, args.prevLogIndex + 1 + k)
  {
    hide H.Inv, H.GoodLog, H.Departs, Agree, View;
    FollowerLogs(s, i, m);
    SearchAgrees(m, s.servers[i].log, s.h.elections[m.term].log, s.h.elections, args, k);
  }

  /** The suffix of the message is the leader's log. */
  lemma EntriesAre(entries: seq<Entry>, leader: Log, p: nat, k: nat, z: nat)
    requires p + |entries| < |leader| && k <= z <= |entries|
    requires forall x :: 0 <= x < |entries| ==> entries[x] == leader[p + 1 + x]
    ensures leader[p + 1 + k..p + 1 + z] == entries[k..z]
  {
  }

  /** The state of the log after the cut and `z - k` of the new entries: one of the leader's prefixes. */
  lemma PartialOverwrite(s: H.State, i: NodeId, m: Node, args: AppendArgs, k: nat, z: nat) returns (s': H.State)
    requires Following(s, i, m) && m.term == args.term && EntriesOk(args, s.h, |s.servers|, s.h.elections[m.term].log)
    requires m.snapshotIndex <= args.prevLogIndex <= m.Last() && m.At(args.prevLogIndex).term == args.prevLogTerm
    requires k == FirstMissing(m, args.prevLogIndex, args.entries, 0) && k < |args.entries| && k <= z <= |args.entries|
    ensures Following(s', i, m.(logs := m.logs[..args.prevLogIndex + 1 + k - m.snapshotIndex] + args.entries[k..z]))
    ensures Moved(s, s', i) && s'.h == s.h
    ensures s'.servers[i].log == s.h.elections[m.term].log[..args.prevLogIndex + z + 1]
  {
    hide H.Inv, H.GoodLog, H.Departs, H.Progress, Agree, View;
    var leader, p := s.h.elections[m.term].log, args.prevLogIndex;
    Search(s, i, m, args, k);
    EntriesAre(args.entries, leader, p, k, z);
    OverwriteRefines(s, i, m, p + 1 + k, p + z, args.entries[k..z]);
    s' := H.TakeOver(s, i, p + z);
  }

  /** After accepting, the log agrees with the leader's up to the last entry of the message. */
  lemma LogsAccepted(s: H.State, i: NodeId, m: Node, args: AppendArgs) returns (s': H.State, m': Node)
    requires Following(s, i, m) && m.term == args.term && EntriesOk(args, s.h, |s.servers|, s.h.elections[m.term].log)
    requires m.snapshotIndex <= args.prevLogIndex <= m.Last() && m.At(args.prevLogIndex).term == args.prevLogTerm
    ensures Following(s', i, m') && Moved(s, s', i) && s'.h == s.h
    ensures m'.term == m.term && AcceptEntries(m, args).node == Commit(m', args.leaderCommit)
    ensures Agree(s'.servers[i].log, s.h.elections[m.term].log, args.prevLogIndex + |args.entries| + 1)
  {
    hide H.Inv, H.Departs, H.Progress, View, Agree;
    var k := FirstMissing(m, args.prevLogIndex, args.entries, 0);
    if k < |args.entries| {
      s' := PartialOverwrite(s, i, m, args, k, |args.entries|);
      assert args.entries[k..|args.entries|] == args.entries[k..];
      PrefixAgrees(s.h.elections[m.term].log, args.prevLogIndex + |args.entries| + 1);
      m' := m.(logs := m.logs[..args.prevLogIndex + 1 + k - m.snapshotIndex] + args.entries[k..]);
    } else {
      s', m' := s, m;
      MovedRefl(s, i);
      Search(s, i, m, args, k);
    }
  }

  lemma CommitAccepted(s: H.State, i: NodeId, m: Node, args: AppendArgs) returns (s': H.State)
    requires Following(s, i, m) && m.term == args.term && EntriesOk(args, s.h, |s.servers|, s.h.elections[m.term].log)
    requires Agree(s.servers[i].log, s.h.elections[m.term].log, args.prevLogIndex + |args.entries| + 1)
    ensures Following(s', i, Commit(m, args.leaderCommit)) && Moved(s, s', i) && s'.h == s.h
    ensures s'.servers[i].log == s.servers[i].log
  {
    hide H.Inv;
    Bounds(s, i, m);
    if args.leaderCommit > m.commitIndex {
      SharedPrefix(s.h, |s.servers|, s.h.elections[m.term].log, s.servers[i].log, args.leaderCommit + 1,
                   args.prevLogIndex + |args.entries| + 1, m.term);
      RaiseRefines(s, i, m, args.leaderCommit);
      s' := RaiseH(s, i, args.leaderCommit);
    } else {
      s' := s;
      MovedRefl(s, i);
    }
  }

  lemma SharedPrefix(h: H.History, n: nat, leader: Log, l: Log, len: nat, shared: nat, t: nat)
    requires H.CommittedPrefix(h, n, leader, len, t) && Agree(l, leader, shared) && len <= shared
    ensures H.CommittedPrefix(h, n, l, len, t)
  {
    H.SamePrefix(h, n, leader, l, len, t);
  }

  lemma AcceptRefines(s: H.State, i: NodeId, m: Node, args: AppendArgs) returns (s': H.State)
    requires Following(s, i, m) && m.term == args.term && EntriesOk(args, s.h, |s.servers|, s.h.elections[m.term].log)
    requires m.snapshotIndex <= args.prevLogIndex <= m.Last() && m.At(args.prevLogIndex).term == args.prevLogTerm
    ensures Explains(s', i, AcceptEntries(m, args).node) && Moved(s, s', i)
    ensures H.Ack(i, args.term, args.prevLogIndex + |args.entries|) in s'.h.acks
  {
    hide H.Inv;
    var q := args.prevLogIndex + |args.entries|;
    var s1, m1 := LogsAccepted(s, i, m, args);
    var s2 := CommitAccepted(s1, i, m1, args);
    MovedTrans(s, s1, s2, i);
    AckRefines(s2, i, Commit(m1, args.leaderCommit), q);
    s' := H.Acknowledge(s2, i, q);
    MovedTrans(s, s2, s', i);
  }

  lemma PrefixAgrees(l: Log, n: nat)
    requires n <= |l|
    ensures Agree(l[..n], l, n)
  {
  }

  // Installing a snapshot.

  lemma {:induction false} FindDeparture(l: Log, leader: Log, E: H.Elections, q: nat, x: nat) returns (j: nat)
    requires H.GoodLog(l, E) && H.GoodLog(leader, E) && q < |leader|
    requires x <= q && x < |l| && l[x].term == leader[x].term
    requires q < |l| ==> l[q].term != leader[q].term
    ensures H.Departs(l, leader, j) && 1 <= j <= q
    decreases q - x
  {
    H.LogMatching(l, leader, E, x);
    j := x + 1;
    if x + 1 < |l| && l[x + 1].term == leader[x + 1].term {
      j := FindDeparture(l, leader, E, q, x + 1);
    }
  }

  lemma NodeInstalls(m: Node, s: H.Server, h: H.History, peers: nat, args: AppendArgs, leader: Log)
    requires NodeRel(m, s, h, peers) && m.role == Follower && m.snapshotIndex < args.snapshotIndex < |leader|
    requires args.snapshot == Replay(leader, args.snapshotIndex) && args.snapshotTerm == leader[args.snapshotIndex].term
    requires args.snapshotIndex < |s.log| && s.log[args.snapshotIndex].term == args.snapshotTerm ==> Agree(s.log, leader, args.snapshotIndex + 1)
    ensures var keep := args.snapshotIndex < |s.log| && s.log[args.snapshotIndex].term == args.snapshotTerm;
            var c := Max(s.commit, args.snapshotIndex);
            NodeRel(InstallSnapshot(m, args), s.(log := if keep then s.log else leader[..args.snapshotIndex + 1], commit := c), h, peers)
  {
    if args.snapshotIndex < |s.log| && s.log[args.snapshotIndex].term == args.snapshotTerm {
      ReplayAgree(s.log, leader, args.snapshotIndex);
    } else {
      PrefixAgrees(leader, args.snapshotIndex + 1);
      ReplayAgree(leader[..args.snapshotIndex + 1], leader, args.snapshotIndex);
    }
  }

  /** Only a log that departs from the leader's at or below the snapshot is thrown away. */
  lemma InstallLog(s: H.State, i: NodeId, m: Node, args: AppendArgs) returns (s': H.State)
    requires Following(s, i, m) && m.term == args.term && SnapshotOk(args, s.h, |s.servers|, s.h.elections[m.term].log)
    ensures H.Inv(s') && Moved(s, s', i) && s'.h == s.h
    ensures Agree(s'.servers[i].log, s.h.elections[m.term].log, args.snapshotIndex + 1)
    ensures var sv := s.servers[i];
            args.snapshotIndex < |sv.log| && sv.log[args.snapshotIndex].term == args.snapshotTerm ==> s'.servers[i] == sv
    ensures var sv, leader := s.servers[i], s.h.elections[m.term].log;
            var keep := args.snapshotIndex < |sv.log| && sv.log[args.snapshotIndex].term == args.snapshotTerm;
            s'.servers[i] == sv.(log := if keep then sv.log else leader[..args.snapshotIndex + 1])
  {
    hide H.Inv, H.Departs, H.Progress, Agree, View, H.GoodLog, H.CommittedPrefix, Replay;
    var l, leader, q := s.servers[i].log, s.h.elections[m.term].log, args.snapshotIndex;
    FollowerLogs(s, i, m);
    if q < |l| && l[q].term == leader[q].term {
      H.LogMatching(l, leader, s.h.elections, q);
      MovedRefl(s, i);
      s' := s;
    } else {
      var j := FindDeparture(l, leader, s.h.elections, q, 0);
      H.TakeOverKeepsInv(s, i, j, q);
      PrefixAgrees(leader, q + 1);
      s' := H.TakeOver(s, i, q);
    }
  }

  lemma InstallRefines(s: H.State, i: NodeId, m: Node, args: AppendArgs) returns (s': H.State)
    requires Following(s, i, m) && m.term == args.term && SnapshotOk(args, s.h, |s.servers|, s.h.elections[m.term].log)
    requires args.snapshot != [] && m.snapshotIndex < args.snapshotIndex
    ensures Following(s', i, InstallSnapshot(m, args)) && Moved(s, s', i)
    ensures H.Ack(i, args.term, args.snapshotIndex) in s'.h.acks
  {
    hide H.Inv, H.Progress, Agree, View;
    var leader, q := s.h.elections[m.term].log, args.snapshotIndex;
    var s1 := InstallLog(s, i, m, args);
    NodeInstalls(m, s.servers[i], s.h, |s.servers|, args, leader);
    var s2 := CommitInstalled(s1, i, leader, q);
    MovedTrans(s, s1, s2, i);
    AckRefines(s2, i, InstallSnapshot(m, args), q);
    s' := H.Acknowledge(s2, i, q);
    MovedTrans(s, s2, s', i);
  }

  lemma CommitInstalled(s: H.State, i: NodeId, leader: Log, q: nat) returns (s': H.State)
    requires H.Inv(s) && i < |s.servers| && Agree(s.servers[i].log, leader, q + 1)
    requires H.CommittedPrefix(s.h, |s.servers|, leader, q + 1, s.servers[i].term)
    ensures H.Inv(s') && Moved(s, s', i) && s'.h == s.h
    ensures s'.servers[i] == s.servers[i].(commit := Max(s.servers[i].commit, q))
  {
    hide H.Inv;
    if q > s.servers[i].commit {
      H.SamePrefix(s.h, |s.servers|, leader, s.servers[i].log, q + 1, s.servers[i].term);
      H.SetCommitKeepsInv(s, i, q);
      s' := H.SetCommit(s, i, q);
    } else {
      MovedRefl(s, i);
      s' := s;
    }
  }

  /** A snapshot no newer than ours covers only entries we share with its sender. */
  lemma StaleRefines(s: H.State, i: NodeId, m: Node, args: AppendArgs) returns (s': H.State)
    requires Following(s, i, m) && m.term == args.term && args.snapshotIndex <= m.snapshotIndex
    ensures Following(s', i, m) && Moved(s, s', i)
    ensures H.Ack(i, args.term, args.snapshotIndex) in s'.h.acks
  {
    H.CommittedInOwnLeader(s, i);
    hide H.Inv;
    AckRefines(s, i, m, args.snapshotIndex);
    s' := H.Acknowledge(s, i, args.snapshotIndex);
  }

  // The whole handler.

  lemma FollowLeaderRefines(s: H.State, i: NodeId, m: Node, args: AppendArgs) returns (s': H.State)
    requires Following(s, i, m) && m.term == args.term && AppendArgsOk(args, s.h, |s.servers|)
    ensures Explains(s', i, Follow(m, args).node) && Moved(s, s', i)
    ensures Follow(m, args).reply.success ==> H.Ack(i, args.term, NewMatch(args)) in s'.h.acks
  {
    hide H.Inv, H.Progress, View, Agree;
    if args.snapshot != [] {
      if args.snapshotIndex <= m.snapshotIndex {
        s' := StaleRefines(s, i, m, args);
      } else {
        s' := InstallRefines(s, i, m, args);
      }
    } else if m.snapshotIndex <= args.prevLogIndex <= m.Last() && m.At(args.prevLogIndex).term == args.prevLogTerm {
      s' := AcceptRefines(s, i, m, args);
    } else {
      s' := s;
      MovedRefl(s, i);
    }
  }

  /** A successful reply means the follower holds everything the message spoke of. */
  lemma AppendRefines(s: H.State, i: NodeId, n: Node, args: AppendArgs) returns (s': H.State)
    requires Explains(s, i, n) && AppendArgsOk(args, s.h, |s.servers|)
    ensures Explains(s', i, HandleAppend(n, args).node) && Moved(s, s', i)
    ensures HandleAppend(n, args).reply.success ==> H.Ack(i, args.term, NewMatch(args)) in s'.h.acks
  {
    hide H.Inv, H.Progress, View, Agree;
    if args.term < n.term {
      s' := s;
      MovedRefl(s, i);
    } else {
      RecogniseRefines(s, i, n, args);
      var s1 := RecogniseH(s, i, args.term);
      s' := FollowLeaderRefines(s1, i, Recognise(n, args), args);
      MovedTrans(s, s1, s', i);
    }
  }

  // ----- Replication: the leader -----------------------------------------------------------

  /** The servers, other than `me` and below k, known to hold index N. */
  lemma {:induction false} Holders(matchIndex: seq<nat>, me: NodeId, N: nat, k: nat) returns (q: set<NodeId>)
    requires k <= |matchIndex|
    ensures me !in q && |q| == CountHolders(matchIndex, me, N, k)
    ensures forall v :: v in q ==> v < k && matchIndex[v] >= N
  {
    q := {};
    if k > 0 {
      q := Holders(matchIndex, me, N, k - 1);
      if k - 1 != me && matchIndex[k - 1] >= N {
        q := q + {k - 1};
      }
    }
  }

  /** A committable index is acknowledged by a majority, once the leader acknowledges its own log. */
  lemma CommittableQuorum(n: Node, me: NodeId, N: nat, h: H.History, peers: nat) returns (q: set<NodeId>)
    requires n.Valid(peers) && me < peers && LeaderRel(n, h) && DownClosed(h.acks)
    requires 1 <= N && n.snapshotIndex <= N <= n.Last() && Committable(n, me, N)
    requires H.Ack(me, n.term, N) in h.acks
    ensures H.QuorumHolds(h, peers, q, n.term, N)
  {
    var others := Holders(n.matchIndex, me, N, peers);
    q := others + {me};
    forall v | v in q ensures H.Ack(v, n.term, N) in h.acks {
      if v != me {
        var a := H.Ack(v, n.term, n.matchIndex[v]);
        assert a in h.acks && H.Ack(a.node, a.term, N) in h.acks;
      }
    }
  }

  lemma LeaderFacts(s: H.State, i: NodeId, n: Node)
    requires Explains(s, i, n) && n.role == Leader
    ensures n.term in s.h.elections && s.h.elections[n.term].leader == i
    ensures s.h.elections[n.term].log == s.servers[i].log && |s.servers[i].log| == n.Last() + 1
  {
    H.LeaderFacts(i, s.servers[i], s.h, |s.servers|);
  }

  lemma LeaderAcks(s: H.State, i: NodeId, n: Node, N: nat)
    requires Explains(s, i, n) && n.role == Leader && N <= n.Last()
    ensures Explains(H.Acknowledge(s, i, N), i, n) && Moved(s, H.Acknowledge(s, i, N), i)
    ensures H.Ack(i, n.term, N) in H.Acknowledge(s, i, N).h.acks
  {
    hide H.Inv;
    LeaderFacts(s, i, n);
    H.AcknowledgeKeepsInv(s, i, N);
    AckDownClosed(s.h.acks, i, n.term, N);
  }

  lemma LeaderCommits(s: H.State, i: NodeId, n: Node, N: nat) returns (s': H.State)
    requires Explains(s, i, n) && n.role == Leader && n.commitIndex < N <= n.Last() && Committable(n, i, N)
    ensures Explains(s', i, n.(commitIndex := N)) && Moved(s, s', i)
  {
    hide H.Inv, H.Progress;
    LeaderAcks(s, i, n, N);
    var s1 := H.Acknowledge(s, i, N);
    LeaderFacts(s1, i, n);
    var q := CommittableQuorum(n, i, N, s1.h, |s1.servers|);
    assert s1.servers[i].log[N] == n.At(N);
    assert H.Committed(s1.h, |s1.servers|, n.term, N);
    assert H.Witness(s1.h, |s1.servers|, s1.servers[i].log, N + 1, n.term, n.term, N);
    RaiseRefines(s1, i, n, N);
    s' := RaiseH(s1, i, N);
    MovedTrans(s, s1, s', i);
  }

  function Matched(n: Node, server: NodeId, sent: AppendArgs): Node
    requires server < |n.matchIndex| && server < |n.nextIndex|
  {
    var match' := Max(n.matchIndex[server], NewMatch(sent));
    n.(matchIndex := n.matchIndex[server := match'], nextIndex := n.nextIndex[server := match' + 1])
  }

  lemma MatchedRefines(s: H.State, i: NodeId, n: Node, server: NodeId, sent: AppendArgs)
    requires Explains(s, i, n) && n.role == Leader && server < |s.servers| && n.term == sent.term
    requires H.Ack(server, sent.term, NewMatch(sent)) in s.h.acks
    ensures Explains(s, i, Matched(n, server, sent))
  {
    hide H.Inv;
  }

  /** The leader's commit rule only commits what a majority holds. */
  lemma AppendReplyRefines(s: H.State, i: NodeId, n: Node, server: NodeId, sent: AppendArgs, reply: AppendReply)
    returns (s': H.State)
    requires Explains(s, i, n) && server < |s.servers|
    requires reply.success ==> H.Ack(server, sent.term, NewMatch(sent)) in s.h.acks
    ensures Explains(s', i, HandleAppendReply(n, i, server, sent, reply)) && Moved(s, s', i)
  {
    hide H.Inv, H.Progress, View;
    if reply.term > n.term {
      MeetRefines(s, i, n, reply.term);
      s' := MeetH(s, i, reply.term);
    } else if n.term == sent.term && n.role == Leader && reply.success {
      MatchedRefines(s, i, n, server, sent);
      var m := Matched(n, server, sent);
      var c := LeaderCommit(m, i, m.Last());
      if c == m.commitIndex {
        s' := s;
        MovedRefl(s, i);
      } else {
        s' := LeaderCommits(s, i, m, c);
      }
    } else {
      s' := s;
      MovedRefl(s, i);
    }
  }

  /** Every message of the replication loop is a faithful cut-out of the leader's log. */
  lemma HeartbeatFaithful(s: H.State, i: NodeId, n: Node, p: NodeId)
    requires Explains(s, i, n) && n.role == Leader && p < |s.servers|
    ensures n.nextIndex[p] >= 1 && (n.snapshotIndex > 0 ==> n.snapshot != [])
    ensures AppendArgsOk(HeartbeatFor(n, i, p), s.h, |s.servers|)
  {
    hide H.Inv, H.CommittedPrefix, View, EntriesOk, SnapshotOk;
    LeaderFacts(s, i, n);
    CommittedUpTo(s, i, n, n.commitIndex);
    CommittedUpTo(s, i, n, n.snapshotIndex);
    HeartbeatCuts(n, i, p, s.h, |s.servers|, s.servers[i].log);
  }

  /** Everything up to the commit index is committed in the history. */
  lemma CommittedUpTo(s: H.State, i: NodeId, n: Node, x: nat)
    requires Explains(s, i, n) && x <= n.commitIndex
    ensures x < |s.servers[i].log| && H.CommittedPrefix(s.h, |s.servers|, s.servers[i].log, x + 1, n.term)
    ensures |s.servers[i].log| >= 1 && s.servers[i].log[0] == SENTINEL
  {
    hide H.Inv, H.ServerOk, H.CommittedPrefix, View;
    H.ServerFact(s, i);
    H.CommitFact(i, s.servers[i], s.h, |s.servers|);
    H.ShorterPrefix(s.h, |s.servers|, s.servers[i].log, s.servers[i].commit + 1, n.term, x + 1);
  }

  lemma HeartbeatCuts(n: Node, me: NodeId, p: NodeId, h: H.History, peers: nat, l: Log)
    requires n.Valid(peers) && p < peers && n.nextIndex[p] >= 1
    requires View(n.logs, n.snapshotIndex, l) && n.commitIndex < |l| && n.snapshot == Replay(l, n.snapshotIndex)
    requires H.CommittedPrefix(h, peers, l, n.commitIndex + 1, n.term) && H.CommittedPrefix(h, peers, l, n.snapshotIndex + 1, n.term)
    ensures var args := HeartbeatFor(n, me, p);
            if args.snapshot == [] then EntriesOk(args, h, peers, l) else SnapshotOk(args, h, peers, l)
  {
    hide H.CommittedPrefix;
    var prev := Min(n.nextIndex[p] - 1, n.Last());
    if prev >= n.snapshotIndex {
      EntriesCut(n, prev, h, peers, l, HeartbeatFor(n, me, p));
    }
  }

  lemma EntriesCut(n: Node, prev: nat, h: H.History, peers: nat, l: Log, args: AppendArgs)
    requires n.Valid(peers) && View(n.logs, n.snapshotIndex, l) && n.snapshotIndex <= prev <= n.Last()
    requires args.term == n.term && args.prevLogIndex == prev && args.prevLogTerm == n.At(prev).term
    requires args.entries == n.logs[prev - n.snapshotIndex + 1..] && args.leaderCommit == n.commitIndex < |l|
    requires H.CommittedPrefix(h, peers, l, n.commitIndex + 1, n.term)
    ensures EntriesOk(args, h, peers, l)
  {
    hide H.CommittedPrefix;
  }

  // ----- Service interface -----------------------------------------------------------------

  lemma StartRefines(s: H.State, i: NodeId, n: Node, command: Bytes) returns (s': H.State)
    requires Explains(s, i, n) && n.role == Leader
    ensures Explains(s', i, StartCommand(n, command)) && Moved(s, s', i)
  {
    hide H.Inv;
    LeaderFacts(s, i, n);
    H.AppendKeepsInv(s, i, command);
    NodeStarts(n, s.servers[i], s.h, |s.servers|, command);
    s' := H.Append(s, i, command);
  }

  lemma NodeStarts(n: Node, s: H.Server, h: H.History, peers: nat, command: Bytes)
    requires NodeRel(n, s, h, peers)
    ensures NodeRel(StartCommand(n, command), s.(log := s.log + [Entry(command, s.term)]), h, peers)
  {
    ReplayAgree(s.log, s.log + [Entry(command, s.term)], n.snapshotIndex);
  }

  lemma SnapshotRefines(s: H.State, i: NodeId, n: Node, index: nat, state: ServiceState)
    requires Explains(s, i, n) && index <= n.appliedIndex && index <= n.Last()
    requires index < |s.servers[i].log| && state == Replay(s.servers[i].log, index)
    ensures Explains(s, i, TakeSnapshot(n, index, state))
  {
    hide H.Inv;
    NodeCompacts(n, s.servers[i], s.h, |s.servers|, index, state);
  }

  lemma NodeCompacts(n: Node, s: H.Server, h: H.History, peers: nat, index: nat, state: ServiceState)
    requires NodeRel(n, s, h, peers) && index <= n.appliedIndex && index <= n.Last()
    requires index < |s.log| && state == Replay(s.log, index)
    ensures NodeRel(TakeSnapshot(n, index, state), s, h, peers)
  {
  }

  lemma ApplyRefines(s: H.State, i: NodeId, n: Node)
    requires Explains(s, i, n)
    ensures Explains(s, i, n.(appliedIndex := n.commitIndex))
  {
    hide H.Inv;
  }

  // ----- Elections started here ------------------------------------------------------------

  lemma StandDeclares(s: H.State, i: NodeId, n: Node)
    requires Explains(s, i, n)
    ensures Explains(H.Stand(s, i), i, BeginElection(n, i)) && Moved(s, H.Stand(s, i), i)
    ensures VoteArgsOk(VoteArgs(n.term + 1, i, n.Last(), n.LastTerm()), H.Stand(s, i).h)
    ensures H.Stand(s, i).servers[i].voters == {i} && H.Stand(s, i).servers[i].term == n.term + 1
  {
    hide H.Inv;
    StandRefines(s, i, n);
    LastTermView(n, s.servers[i].log);
    assert SelfBallot(H.Stand(s, i).h, VoteArgs(n.term + 1, i, n.Last(), n.LastTerm()), s.servers[i].log);
  }

  lemma TimeoutNowRefines(s: H.State, i: NodeId, n: Node, args: TimeoutArgs) returns (s': H.State)
    requires Explains(s, i, n)
    ensures var o := HandleTimeoutNow(n, i, args);
            && Explains(s', i, o.node) && Moved(s, s', i)
            && (o.reply ==>
                  && VoteArgsOk(VoteArgs(o.node.term, i, o.node.Last(), o.node.LastTerm()), s'.h)
                  && s'.servers[i].voters == {i} && s.servers[i].term < s'.servers[i].term == o.node.term)
  {
    hide H.Inv, H.Progress, View;
    if args.term < n.term {
      s' := s;
      MovedRefl(s, i);
    } else {
      MeetRefines(s, i, n, args.term);
      var m, s1 := Meet(n, args.term), MeetH(s, i, args.term);
      s' := s1;
      if TimeoutAccepted(m, args) {
        StandDeclares(s1, i, m);
        s' := H.Stand(s1, i);
        MovedTrans(s, s1, s', i);
      }
    }
  }

  // ----- Crashes inside a critical section -------------------------------------------------

  /** The history explains a server that would recover d. */
  ghost predicate Recoverable(s: H.State, i: NodeId, d: Durable) {
    H.Inv(s) && DownClosed(s.h.acks) && i < |s.servers| && DurableRel(d, s.servers[i])
  }

  lemma SavedRecoverable(s: H.State, i: NodeId, n: Node)
    requires Explains(s, i, n)
    ensures Recoverable(s, i, n.Saved())
  {
    hide H.Inv;
  }

  lemma MeetRecoverable(s: H.State, i: NodeId, n: Node, t: nat, k: nat)
    requires Explains(s, i, n) && k < |MeetTrail(n, t)|
    ensures Recoverable(MeetH(s, i, t), i, MeetTrail(n, t)[k]) && Moved(s, MeetH(s, i, t), i)
  {
    hide H.Inv;
    MeetRefines(s, i, n, t);
  }

  lemma VoteRecoverable(s: H.State, i: NodeId, n: Node, args: VoteArgs, k: nat) returns (s': H.State)
    requires Explains(s, i, n) && VoteArgsOk(args, s.h) && args.candidate != i && k < |HandleVote(n, args).trail|
    ensures Recoverable(s', i, HandleVote(n, args).trail[k]) && Moved(s, s', i)
  {
    hide H.Inv, H.Progress, View, VoteArgsOk;
    if k < |MeetTrail(n, args.term)| {
      MeetRecoverable(s, i, n, args.term, k);
      s' := MeetH(s, i, args.term);
    } else {
      s' := VoteRefines(s, i, n, args);
      SavedRecoverable(s', i, HandleVote(n, args).node);
    }
  }

  lemma TimeoutNowRecoverable(s: H.State, i: NodeId, n: Node, args: TimeoutArgs, k: nat) returns (s': H.State)
    requires Explains(s, i, n) && k < |HandleTimeoutNow(n, i, args).trail|
    ensures Recoverable(s', i, HandleTimeoutNow(n, i, args).trail[k]) && Moved(s, s', i)
  {
    hide H.Inv, H.Progress, View;
    if k < |MeetTrail(n, args.term)| {
      MeetRecoverable(s, i, n, args.term, k);
      s' := MeetH(s, i, args.term);
    } else {
      s' := TimeoutNowRefines(s, i, n, args);
      SavedRecoverable(s', i, HandleTimeoutNow(n, i, args).node);
    }
  }

  /** Between the cut and the last new entry the durable log is always one of the leader's prefixes. */
  lemma AcceptRecoverable(s: H.State, i: NodeId, m: Node, args: AppendArgs, k: nat) returns (s': H.State)
    requires Following(s, i, m) && m.term == args.term && EntriesOk(args, s.h, |s.servers|, s.h.elections[m.term].log)
    requires m.snapshotIndex <= args.prevLogIndex <= m.Last() && m.At(args.prevLogIndex).term == args.prevLogTerm
    requires k < |AcceptEntries(m, args).trail|
    ensures Recoverable(s', i, AcceptEntries(m, args).trail[k]) && Moved(s, s', i)
  {
    hide H.Inv, H.Progress, View, EntriesOk;
    var f := FirstMissing(m, args.prevLogIndex, args.entries, 0);
    s' := PartialOverwrite(s, i, m, args, f, f + k);
    var kept := m.logs[..args.prevLogIndex + 1 + f - m.snapshotIndex];
    var m' := m.(logs := kept + args.entries[f..f + k]);
    TrailAt(m, kept, args.entries, f, k);
    SavedRecoverable(s', i, m');
  }

  lemma TrailAt(m: Node, kept: Log, entries: seq<Entry>, f: nat, k: nat)
    requires f < |entries| && k <= |entries| - f
    ensures var cut := m.Saved().(logs := kept);
            ([cut] + AppendTrail(cut, entries[f..]))[k] == m.(logs := kept + entries[f..f + k]).Saved()
  {
    if k == 0 {
      assert kept + entries[f..f] == kept;
    } else {
      assert entries[f..][..k] == entries[f..f + k];
    }
  }

  lemma AppendRecoverable(s: H.State, i: NodeId, n: Node, args: AppendArgs, k: nat) returns (s': H.State)
    requires Explains(s, i, n) && AppendArgsOk(args, s.h, |s.servers|) && k < |HandleAppend(n, args).trail|
    ensures Recoverable(s', i, HandleAppend(n, args).trail[k]) && Moved(s, s', i)
  {
    hide H.Inv, H.Progress, View;
    if k < |MeetTrail(n, args.term)| {
      MeetRecoverable(s, i, n, args.term, k);
      s' := MeetH(s, i, args.term);
    } else {
      RecogniseRefines(s, i, n, args);
      var m, s1 := Recognise(n, args), RecogniseH(s, i, args.term);
      s' := FollowRecoverable(s1, i, m, args, k - |MeetTrail(n, args.term)|);
      MovedTrans(s, s1, s', i);
    }
  }

  lemma FollowRecoverable(s: H.State, i: NodeId, m: Node, args: AppendArgs, k: nat) returns (s': H.State)
    requires Following(s, i, m) && m.term == args.term && AppendArgsOk(args, s.h, |s.servers|) && k < |Follow(m, args).trail|
    ensures Recoverable(s', i, Follow(m, args).trail[k]) && Moved(s, s', i)
  {
    hide H.Inv, H.Progress, View;
    if args.snapshot != [] {
      s' := InstallRefines(s, i, m, args);
      SavedRecoverable(s', i, InstallSnapshot(m, args));
    } else {
      s' := AcceptRecoverable(s, i, m, args, k);
    }
  }
}
