/**
 Raft over uncompacted logs, together with the history that explains it: which elections were
 won, which ballots were cast, which acknowledgements were given.  Every operation of the real
 protocol is a composition of the steps below; every step keeps `Inv`, and `Inv` yields log
 matching, election safety, leader completeness and agreement of committed prefixes.
 */
module RaftHistory {
  import opened RaftTypes

  /** The win of one term: who, elected by whom, with which log, and the leader's log since. */
  datatype Election = Election(leader: NodeId, voters: set<NodeId>, initial: Log, log: Log)

  /** One vote, with both logs as they were when it was cast. */
  datatype Ballot = Ballot(voter: NodeId, term: nat, candidate: NodeId, voterLog: Log, candidateLog: Log)

  /** `node` has held the leader of `term`'s log up to and including `index`. */
  datatype Ack = Ack(node: NodeId, term: nat, index: nat)

  type Elections = map<nat, Election>

  datatype History = History(elections: Elections, ballots: set<Ballot>, acks: set<Ack>)

  datatype Server = Server(term: nat, vote: Option<NodeId>, role: Role, log: Log, commit: nat, voters: set<NodeId>)

  datatype State = State(servers: seq<Server>, h: History)

  // ----- Logs ------------------------------------------------------------------------------

  /** Position x of l lies on the log of the leader whose term it carries, and so does all before it. */
  ghost predicate RootedAt(l: Log, E: Elections, x: nat) {
    x < |l| && l[x].term in E && Agree(l, E[l[x].term].log, x + 1)
  }

  ghost predicate GoodLog(l: Log, E: Elections) {
    && |l| >= 1
    && l[0] == SENTINEL
    && Sorted(l)
    && forall x: nat :: 1 <= x < |l| ==> RootedAt(l, E, x)
  }

  // ----- Acknowledgements and commitment ---------------------------------------------------

  /** The leader of t was elected without the entries acknowledged by (term, index). */
  ghost predicate Deviant(t: nat, term: nat, index: nat, E: Elections) {
    t in E && term in E && !Agree(E[t].initial, E[term].log, index + 1)
  }

  /** Log l still holds what was acknowledged, or a leader in (term, bound] was elected without it. */
  ghost predicate Kept(l: Log, bound: int, term: nat, index: nat, E: Elections) {
    term in E &&
    (Agree(l, E[term].log, index + 1) || exists t: nat :: term < t <= bound && Deviant(t, term, index, E))
  }

  ghost predicate QuorumHolds(h: History, n: nat, q: set<NodeId>, term: nat, k: nat) {
    Majority(q, n) && forall v :: v in q ==> Ack(v, term, k) in h.acks
  }

  /** Entry k of the leader of `term`, created in that term, has been held by a majority. */
  ghost predicate Committed(h: History, n: nat, term: nat, k: nat) {
    && term in h.elections
    && 1 <= k < |h.elections[term].log|
    && h.elections[term].log[k].term == term
    && exists q :: QuorumHolds(h, n, q, term, k)
  }

  ghost predicate Witness(h: History, n: nat, l: Log, len: nat, t: nat, term: nat, k: nat) {
    term <= t && Committed(h, n, term, k) && len <= k + 1 && Agree(l, h.elections[term].log, len)
  }

  /** The first `len` positions of l were committed by a leader of term at most t. */
  ghost predicate CommittedPrefix(h: History, n: nat, l: Log, len: nat, t: nat) {
    len <= |l| && (len <= 1 || exists term: nat, k: nat :: Witness(h, n, l, len, t, term, k))
  }

  // ----- Ballots ---------------------------------------------------------------------------

  ghost predicate HasBallot(h: History, v: NodeId, t: nat, c: NodeId) {
    exists b :: b in h.ballots && b.voter == v && b.term == t && b.candidate == c
  }

  ghost predicate ElectedBy(h: History, v: NodeId, t: nat, e: Election) {
    exists b :: b in h.ballots && b.voter == v && b.term == t && b.candidate == e.leader && b.candidateLog == e.initial
  }

  /** The ballot can still decide, or did decide, its term's election. */
  ghost predicate Live(b: Ballot, E: Elections) {
    b.term in E ==> b.voter in E[b.term].voters
  }

  ghost predicate Unique(ballots: set<Ballot>) {
    forall a, b :: a in ballots && b in ballots && a.voter == b.voter && a.term == b.term ==> a == b
  }

  // ----- The invariant ---------------------------------------------------------------------

  ghost predicate ServerOk(i: NodeId, s: Server, h: History, n: nat) {
    && GoodLog(s.log, h.elections)
    && TermsAtMost(s.log, s.term)
    && CommittedPrefix(h, n, s.log, s.commit + 1, s.term)
    && (s.vote.Some? ==> HasBallot(h, i, s.term, s.vote.value))
    && RoleOk(i, s, h, n)
  }

  ghost predicate RoleOk(i: NodeId, s: Server, h: History, n: nat) {
    && (s.role != Follower ==> s.vote == Some(i))
    && (s.role == Candidate ==>
          && s.term >= 1
          && (s.term in h.elections ==> h.elections[s.term].leader != i)
          && s.voters <= Ids(n)
          && forall v :: v in s.voters ==> HasBallot(h, v, s.term, i))
    && (s.role == Leader ==>
          && s.term in h.elections
          && h.elections[s.term].leader == i
          && h.elections[s.term].log == s.log)
  }

  ghost predicate BallotOk(b: Ballot, ss: seq<Server>, E: Elections) {
    && b.voter < |ss| && b.candidate < |ss| && b.term >= 1
    && GoodLog(b.voterLog, E) && GoodLog(b.candidateLog, E)
    && TermsAtMost(b.candidateLog, b.term - 1)
    && UpToDate(b.candidateLog, b.voterLog)
    && BallotFits(b, ss)
  }

  ghost predicate BallotFits(b: Ballot, ss: seq<Server>)
    requires b.voter < |ss| && b.candidate < |ss|
  {
    && b.term <= ss[b.voter].term
    && (b.term == ss[b.voter].term ==> ss[b.voter].vote == Some(b.candidate))
    && b.term <= ss[b.candidate].term
    && (b.term == ss[b.candidate].term && ss[b.candidate].role == Candidate ==> ss[b.candidate].log == b.candidateLog)
  }

  ghost predicate ElectionOk(t: nat, e: Election, ss: seq<Server>, h: History) {
    && t >= 1
    && e.leader < |ss|
    && t <= ss[e.leader].term
    && GoodLog(e.log, h.elections)
    && TermsAtMost(e.log, t)
    && 1 <= |e.initial|
    && TermsAtMost(e.initial, t - 1)
    && Agree(e.initial, e.log, |e.initial|)
    && Majority(e.voters, |ss|)
    && forall v :: v in e.voters ==> ElectedBy(h, v, t, e)
  }

  ghost predicate AckOk(a: Ack, ss: seq<Server>, h: History) {
    && a.node < |ss|
    && a.term in h.elections
    && a.index < |h.elections[a.term].log|
    && a.term <= ss[a.node].term
    && Kept(ss[a.node].log, ss[a.node].term, a.term, a.index, h.elections)
    && forall b :: b in h.ballots && AckBound(a, b, h.elections) ==> Kept(b.voterLog, b.term - 1, a.term, a.index, h.elections)
  }

  ghost predicate AckBound(a: Ack, b: Ballot, E: Elections) {
    b.voter == a.node && b.term > a.term && Live(b, E)
  }

  ghost predicate ServersOk(s: State) {
    forall i :: 0 <= i < |s.servers| ==> ServerOk(i, s.servers[i], s.h, |s.servers|)
  }

  ghost predicate BallotsOk(s: State) {
    forall b :: b in s.h.ballots ==> BallotOk(b, s.servers, s.h.elections)
  }

  ghost predicate ElectionsOk(s: State) {
    forall t :: t in s.h.elections ==> ElectionOk(t, s.h.elections[t], s.servers, s.h)
  }

  ghost predicate AcksOk(s: State) {
    forall a :: a in s.h.acks ==> AckOk(a, s.servers, s.h)
  }

  ghost predicate Inv(s: State) {
    ServersOk(s) && BallotsOk(s) && Unique(s.h.ballots) && ElectionsOk(s) && AcksOk(s)
  }

  // ----- Consequences ----------------------------------------------------------------------

  /** Log matching: logs that carry the same term at an index are equal up to it. */
  lemma LogMatching(a: Log, b: Log, E: Elections, x: nat)
    requires GoodLog(a, E) && GoodLog(b, E)
    requires x < |a| && x < |b| && a[x].term == b[x].term
    ensures Agree(a, b, x + 1)
  {
    if x >= 1 {
      assert RootedAt(a, E, x) && RootedAt(b, E, x);
    }
  }

  /** The winner of a later term was elected by someone who had acknowledged the committed entry. */
  lemma SharedVoter(s: State, term: nat, k: nat, t: nat) returns (b: Ballot)
    requires Inv(s) && Committed(s.h, |s.servers|, term, k)
    requires t in s.h.elections && term < t
    ensures GoodLog(b.voterLog, s.h.elections) && GoodLog(b.candidateLog, s.h.elections)
    ensures UpToDate(b.candidateLog, b.voterLog)
    ensures b.candidateLog == s.h.elections[t].initial && TermsAtMost(b.candidateLog, t - 1)
    ensures Kept(b.voterLog, t - 1, term, k, s.h.elections)
  {
    var E := s.h.elections;
    var n := |s.servers|;
    var e := E[t];
    assert ElectionOk(t, e, s.servers, s.h);
    var q :| QuorumHolds(s.h, n, q, term, k);
    var v := QuorumsMeet(q, e.voters, n);
    assert AckOk(Ack(v, term, k), s.servers, s.h);
    assert ElectedBy(s.h, v, t, e);
    b :| b in s.h.ballots && b.voter == v && b.term == t && b.candidate == e.leader && b.candidateLog == e.initial;
    assert AckBound(Ack(v, term, k), b, E);
    assert BallotOk(b, s.servers, E);
  }

  /** Every leader of a term strictly between `term` and t was elected with the entries up to k. */
  ghost predicate HeldBefore(E: Elections, term: nat, k: nat, t: nat) {
    term in E && forall u :: u in E && term < u < t ==> Agree(E[u].initial, E[term].log, k + 1)
  }

  ghost predicate LeaderLogOk(e: Election) {
    Sorted(e.log) && Agree(e.initial, e.log, |e.initial|)
  }

  /** A log that wins a vote against one which kept position k holds it too, if all leaders in between did. */
  lemma WinnerHolds(c: Log, v: Log, E: Elections, term: nat, k: nat, t: nat)
    requires GoodLog(c, E) && GoodLog(v, E) && UpToDate(c, v)
    requires HeldBefore(E, term, k, t) && Kept(v, t - 1, term, k, E) && TermsAtMost(c, t - 1)
    requires 1 <= k < |E[term].log| && E[term].log[k].term == term
    requires forall u :: u in E ==> LeaderLogOk(E[u])
    ensures Agree(c, E[term].log, k + 1)
  {
    assert Agree(v, E[term].log, k + 1);
    var u := c[|c| - 1].term;
    if u > term {
      assert RootedAt(c, E, |c| - 1);
      assert LeaderLogOk(E[u]);
      LaterEntryIsBehind(c, E[u], E[term].log, k);
    } else {
      SameLastTerm(c, v, E[term].log, E, k);
    }
  }

  /** Leader completeness: whatever was committed in a term is in the log of every later leader. */
  lemma {:induction false} LeaderCompleteness(s: State, term: nat, k: nat, t: nat)
    requires Inv(s) && Committed(s.h, |s.servers|, term, k)
    requires t in s.h.elections && term < t
    ensures Agree(s.h.elections[t].initial, s.h.elections[term].log, k + 1)
    decreases t
  {
    var E := s.h.elections;
    forall u | u in E && term < u < t
      ensures Agree(E[u].initial, E[term].log, k + 1)
    {
      LeaderCompleteness(s, term, k, u);
    }
    forall u | u in E ensures LeaderLogOk(E[u]) {
      assert ElectionOk(u, E[u], s.servers, s.h);
    }
    var b := SharedVoter(s, term, k, t);
    WinnerHolds(b.candidateLog, b.voterLog, E, term, k, t);
  }

  /** A log that ends in a later term, on the log of a leader elected with position k, reaches past k. */
  lemma LaterEntryIsBehind(c: Log, e: Election, past: Log, k: nat)
    requires 1 <= |c| && Agree(c, e.log, |c|) && Sorted(e.log)
    requires Agree(e.initial, past, k + 1) && Agree(e.initial, e.log, |e.initial|)
    requires c[|c| - 1].term > past[k].term
    ensures Agree(c, past, k + 1)
  {
    assert e.log[k] == e.initial[k] == past[k] && e.log[|c| - 1] == c[|c| - 1];
  }

  /** A candidate log no later than the acknowledged term but up to date with a log holding k, holds k. */
  lemma SameLastTerm(c: Log, v: Log, past: Log, E: Elections, k: nat)
    requires GoodLog(c, E) && GoodLog(v, E) && UpToDate(c, v) && Agree(v, past, k + 1) && k >= 1
    requires c[|c| - 1].term <= past[k].term
    ensures Agree(c, past, k + 1)
  {
    assert v[k].term <= v[|v| - 1].term;
    assert c[|c| - 1].term == v[|v| - 1].term;
    if |c| == 1 {
      assert false;
    }
    assert RootedAt(c, E, |c| - 1) && RootedAt(v, E, |v| - 1);
  }

  lemma LeadersAgree(s: State, p: nat, j: nat, q: nat)
    requires Inv(s) && Committed(s.h, |s.servers|, p, j) && q in s.h.elections && p <= q
    ensures Agree(s.h.elections[p].log, s.h.elections[q].log, j + 1)
  {
    if p < q {
      LeaderCompleteness(s, p, j, q);
      assert ElectionOk(q, s.h.elections[q], s.servers, s.h);
    }
  }

  /** A prefix committed no later than t is on the log of the leader of t. */
  lemma CommittedInLeader(s: State, l: Log, len: nat, t: nat)
    requires Inv(s) && t in s.h.elections && CommittedPrefix(s.h, |s.servers|, l, len, t)
    requires 1 <= |l| && l[0] == SENTINEL
    ensures Agree(l, s.h.elections[t].log, len)
  {
    if len > 1 {
      var term: nat, k: nat :| Witness(s.h, |s.servers|, l, len, t, term, k);
      LeadersAgree(s, term, k, t);
      AgreeTrans(l, s.h.elections[term].log, s.h.elections[t].log, len, k + 1);
    } else {
      assert ElectionOk(t, s.h.elections[t], s.servers, s.h);
    }
  }

  /** State machine safety: any two committed prefixes agree as far as both reach. */
  lemma CommittedAgree(s: State, a: Log, m: nat, t: nat, b: Log, n: nat, u: nat)
    requires Inv(s) && CommittedPrefix(s.h, |s.servers|, a, m, t) && CommittedPrefix(s.h, |s.servers|, b, n, u)
    requires 1 <= |a| && a[0] == SENTINEL && 1 <= |b| && b[0] == SENTINEL
    ensures Agree(a, b, if m <= n then m else n)
  {
    if m > 1 && n > 1 {
      var p: nat, j: nat :| Witness(s.h, |s.servers|, a, m, t, p, j);
      var q: nat, k: nat :| Witness(s.h, |s.servers|, b, n, u, q, k);
      CommitsMeet(s, p, j, q, k);
      OnBoth(a, m, s.h.elections[p].log, j, b, n, s.h.elections[q].log, k);
    }
  }

  lemma CommitsMeet(s: State, p: nat, j: nat, q: nat, k: nat)
    requires Inv(s) && Committed(s.h, |s.servers|, p, j) && Committed(s.h, |s.servers|, q, k)
    ensures Agree(s.h.elections[p].log, s.h.elections[q].log, (if j <= k then j else k) + 1)
  {
    if p <= q {
      LeadersAgree(s, p, j, q);
    } else {
      LeadersAgree(s, q, k, p);
    }
  }

  lemma OnBoth(a: Log, m: nat, p: Log, j: nat, b: Log, n: nat, q: Log, k: nat)
    requires Agree(a, p, m) && Agree(b, q, n) && m <= j + 1 && n <= k + 1
    requires Agree(p, q, (if j <= k then j else k) + 1)
    ensures Agree(a, b, if m <= n then m else n)
  {
  }

  // ----- History only grows ----------------------------------------------------------------

  ghost predicate Extends(E: Elections, E': Elections) {
    forall t :: t in E ==> t in E' && Grown(E[t], E'[t])
  }

  ghost predicate Grown(e: Election, e': Election) {
    e'.leader == e.leader && e'.voters == e.voters && e'.initial == e.initial && Agree(e.log, e'.log, |e.log|)
  }

  ghost predicate Later(h: History, h': History) {
    Extends(h.elections, h'.elections) && h.ballots <= h'.ballots && h.acks <= h'.acks
  }

  /** Nothing recorded is forgotten and no server gives up what it ever committed. */
  ghost predicate Progress(s: State, s': State) {
    && |s.servers| == |s'.servers|
    && Later(s.h, s'.h)
    && forall i :: 0 <= i < |s.servers| ==> CommitKept(s.servers[i], s'.servers[i])
  }

  ghost predicate CommitKept(s: Server, s': Server) {
    s.term <= s'.term && s.commit <= s'.commit && Agree(s.log, s'.log, s.commit + 1)
  }

  lemma GoodLogStable(l: Log, E: Elections, E': Elections)
    requires GoodLog(l, E) && Extends(E, E')
    ensures GoodLog(l, E')
  {
    forall x: nat | 1 <= x < |l| ensures RootedAt(l, E', x) {
      assert RootedAt(l, E, x);
      assert Grown(E[l[x].term], E'[l[x].term]);
    }
  }

  lemma KeptStable(l: Log, bound: int, term: nat, index: nat, E: Elections, E': Elections)
    requires Kept(l, bound, term, index, E) && Extends(E, E') && index < |E[term].log|
    ensures Kept(l, bound, term, index, E')
  {
    assert Grown(E[term], E'[term]);
    if !Agree(l, E[term].log, index + 1) {
      var t: nat :| term < t <= bound && Deviant(t, term, index, E);
      assert Grown(E[t], E'[t]);
      assert Deviant(t, term, index, E');
    }
  }

  lemma CommittedStable(h: History, h': History, n: nat, term: nat, k: nat)
    requires Committed(h, n, term, k) && Later(h, h')
    ensures Committed(h', n, term, k)
  {
    assert Grown(h.elections[term], h'.elections[term]);
    var q :| QuorumHolds(h, n, q, term, k);
    assert QuorumHolds(h', n, q, term, k);
  }

  lemma CommittedPrefixStable(h: History, h': History, n: nat, l: Log, len: nat, t: nat)
    requires CommittedPrefix(h, n, l, len, t) && Later(h, h')
    ensures CommittedPrefix(h', n, l, len, t)
  {
    if len > 1 {
      var term: nat, k: nat :| Witness(h, n, l, len, t, term, k);
      CommittedStable(h, h', n, term, k);
      assert Grown(h.elections[term], h'.elections[term]);
      assert Witness(h', n, l, len, t, term, k);
    }
  }

  lemma ProgressOf(s: State, s': State, i: NodeId)
    requires ServersOk(s) && i < |s.servers| == |s'.servers| && Later(s.h, s'.h)
    requires s'.servers == s.servers[i := s'.servers[i]] && CommitKept(s.servers[i], s'.servers[i])
    ensures Progress(s, s')
  {
    forall j | 0 <= j < |s.servers| ensures CommitKept(s.servers[j], s'.servers[j]) {
      CommitFact(j, s.servers[j], s.h, |s.servers|);
    }
  }

  lemma ProgressRefl(s: State)
    requires ServersOk(s)
    ensures Progress(s, s)
  {
    forall j | 0 <= j < |s.servers| ensures CommitKept(s.servers[j], s.servers[j]) {
      CommitFact(j, s.servers[j], s.h, |s.servers|);
    }
  }

  lemma ProgressTrans(a: State, b: State, c: State)
    requires Progress(a, b) && Progress(b, c)
    ensures Progress(a, c)
  {
    forall j | 0 <= j < |a.servers| ensures CommitKept(a.servers[j], c.servers[j]) {
      assert CommitKept(a.servers[j], b.servers[j]) && CommitKept(b.servers[j], c.servers[j]);
    }
    forall t | t in a.h.elections
      ensures t in c.h.elections && Grown(a.h.elections[t], c.h.elections[t])
    {
      assert Grown(a.h.elections[t], b.h.elections[t]) && Grown(b.h.elections[t], c.h.elections[t]);
    }
  }

  // ----- Steps that change one server and no history ---------------------------------------

  /** What a change of server i from s to r must respect for the rest of the invariant to survive. */
  ghost predicate LocalOk(s: Server, r: Server) {
    && s.term <= r.term
    && (s.term == r.term ==> r.vote == s.vote)
    && (s.term == r.term && r.role == Candidate ==> s.role == Candidate && r.log == s.log)
  }

  ghost predicate AcksKept(i: NodeId, r: Server, h: History) {
    forall a :: a in h.acks && a.node == i ==> Kept(r.log, r.term, a.term, a.index, h.elections)
  }

  lemma LocalBallots(s: State, i: NodeId, r: Server)
    requires i < |s.servers| && BallotsOk(s) && LocalOk(s.servers[i], r)
    requires forall b :: b in s.h.ballots && b.voter == i && b.term == r.term ==> r.vote == Some(b.candidate)
    requires forall b :: b in s.h.ballots && b.candidate == i && b.term == r.term && r.role == Candidate ==> r.log == b.candidateLog
    ensures BallotsOk(s.(servers := s.servers[i := r]))
  {
    var ss := s.servers[i := r];
    forall b | b in s.h.ballots ensures BallotOk(b, ss, s.h.elections) {
      assert BallotOk(b, s.servers, s.h.elections);
      assert BallotFits(b, ss);
    }
  }

  lemma LocalKeepsInv(s: State, i: NodeId, r: Server)
    requires Inv(s) && i < |s.servers|
    requires LocalOk(s.servers[i], r) && ServerOk(i, r, s.h, |s.servers|) && AcksKept(i, r, s.h)
    ensures Inv(s.(servers := s.servers[i := r]))
  {
    var s' := s.(servers := s.servers[i := r]);
    forall b | b in s.h.ballots
      ensures b.voter == i && b.term == r.term ==> r.vote == Some(b.candidate)
      ensures b.candidate == i && b.term == r.term && r.role == Candidate ==> r.log == b.candidateLog
    {
      assert BallotOk(b, s.servers, s.h.elections);
    }
    LocalBallots(s, i, r);
    forall t | t in s.h.elections ensures ElectionOk(t, s.h.elections[t], s'.servers, s.h) {
      assert ElectionOk(t, s.h.elections[t], s.servers, s.h);
    }
    forall a | a in s.h.acks ensures AckOk(a, s'.servers, s.h) {
      assert AckOk(a, s.servers, s.h);
    }
    forall j | 0 <= j < |s'.servers| ensures ServerOk(j, s'.servers[j], s.h, |s'.servers|) {
      assert j != i ==> ServerOk(j, s.servers[j], s.h, |s.servers|);
    }
  }

  function Update(s: State, i: NodeId, r: Server): State
    requires i < |s.servers|
  {
    s.(servers := s.servers[i := r])
  }

  /** Move to a later term as a follower that has not voted. */
  function Adopt(s: State, i: NodeId, t: nat): State
    requires i < |s.servers|
  {
    Update(s, i, s.servers[i].(term := t, vote := None, role := Follower, voters := {}))
  }

  lemma AdoptKeepsInv(s: State, i: NodeId, t: nat)
    requires Inv(s) && i < |s.servers| && s.servers[i].term < t
    ensures Inv(Adopt(s, i, t)) && Progress(s, Adopt(s, i, t))
  {
    ServerAdopts(i, s.servers[i], s.h, |s.servers|, t);
    KeptBound(s, i, t);
    LocalKeepsInv(s, i, s.servers[i].(term := t, vote := None, role := Follower, voters := {}));
    CommitFact(i, s.servers[i], s.h, |s.servers|);
    ProgressOf(s, Adopt(s, i, t), i);
  }

  lemma ServerAdopts(i: NodeId, s: Server, h: History, n: nat, t: nat)
    requires ServerOk(i, s, h, n) && s.term <= t
    ensures ServerOk(i, s.(term := t, vote := None, role := Follower, voters := {}), h, n)
  {
    WitnessBound(h, n, s.log, s.commit + 1, s.term, t);
  }

  lemma WitnessBound(h: History, n: nat, l: Log, len: nat, t: nat, u: nat)
    requires CommittedPrefix(h, n, l, len, t) && t <= u
    ensures CommittedPrefix(h, n, l, len, u)
  {
    if len > 1 {
      var term: nat, k: nat :| Witness(h, n, l, len, t, term, k);
      assert Witness(h, n, l, len, u, term, k);
    }
  }

  lemma KeptBound(s: State, i: NodeId, t: nat)
    requires AcksOk(s) && i < |s.servers| && s.servers[i].term <= t
    ensures forall a :: a in s.h.acks && a.node == i ==> Kept(s.servers[i].log, t, a.term, a.index, s.h.elections)
  {
    forall a | a in s.h.acks && a.node == i
      ensures Kept(s.servers[i].log, t, a.term, a.index, s.h.elections)
    {
      assert AckOk(a, s.servers, s.h);
    }
  }

  /** Give up candidacy or leadership within the same term; nothing durable changes. */
  function StandDown(s: State, i: NodeId): State
    requires i < |s.servers|
  {
    Update(s, i, s.servers[i].(role := Follower, voters := {}))
  }

  lemma StandDownKeepsInv(s: State, i: NodeId)
    requires Inv(s) && i < |s.servers|
    ensures Inv(StandDown(s, i)) && Progress(s, StandDown(s, i))
  {
    ServerStandsDown(i, s.servers[i], s.h, |s.servers|);
    KeptBound(s, i, s.servers[i].term);
    LocalKeepsInv(s, i, s.servers[i].(role := Follower, voters := {}));
    CommitFact(i, s.servers[i], s.h, |s.servers|);
    ProgressOf(s, StandDown(s, i), i);
  }

  lemma ServerStandsDown(i: NodeId, s: Server, h: History, n: nat)
    requires ServerOk(i, s, h, n)
    ensures ServerOk(i, s.(role := Follower, voters := {}), h, n)
  {
  }

  /** Count the vote of v in the running candidacy of i. */
  function CountVote(s: State, i: NodeId, v: NodeId): State
    requires i < |s.servers|
  {
    Update(s, i, s.servers[i].(voters := s.servers[i].voters + {v}))
  }

  lemma CountVoteKeepsInv(s: State, i: NodeId, v: NodeId)
    requires Inv(s) && i < |s.servers| && s.servers[i].role == Candidate
    requires HasBallot(s.h, v, s.servers[i].term, i)
    ensures Inv(CountVote(s, i, v)) && Progress(s, CountVote(s, i, v))
  {
    VoterInRange(s, v, s.servers[i].term, i);
    ServerCounts(i, s.servers[i], s.h, |s.servers|, v);
    KeptBound(s, i, s.servers[i].term);
    LocalKeepsInv(s, i, s.servers[i].(voters := s.servers[i].voters + {v}));
    CommitFact(i, s.servers[i], s.h, |s.servers|);
    ProgressOf(s, CountVote(s, i, v), i);
  }

  lemma VoterInRange(s: State, v: NodeId, t: nat, c: NodeId)
    requires BallotsOk(s) && HasBallot(s.h, v, t, c)
    ensures v < |s.servers|
  {
    var b :| b in s.h.ballots && b.voter == v && b.term == t && b.candidate == c;
    assert BallotOk(b, s.servers, s.h.elections);
  }

  lemma ServerCounts(i: NodeId, s: Server, h: History, n: nat, v: NodeId)
    requires ServerOk(i, s, h, n) && s.role == Candidate && v < n && HasBallot(h, v, s.term, i)
    ensures ServerOk(i, s.(voters := s.voters + {v}), h, n)
  {
  }

  /** Raise the commit index on evidence.  It records the most a server ever committed, across restarts. */
  function SetCommit(s: State, i: NodeId, c: nat): State
    requires i < |s.servers|
  {
    Update(s, i, s.servers[i].(commit := c))
  }

  lemma SetCommitKeepsInv(s: State, i: NodeId, c: nat)
    requires Inv(s) && i < |s.servers| && s.servers[i].commit <= c
    requires CommittedPrefix(s.h, |s.servers|, s.servers[i].log, c + 1, s.servers[i].term)
    ensures Inv(SetCommit(s, i, c)) && Progress(s, SetCommit(s, i, c))
  {
    ServerCommits(i, s.servers[i], s.h, |s.servers|, c);
    KeptBound(s, i, s.servers[i].term);
    LocalKeepsInv(s, i, s.servers[i].(commit := c));
    CommitFact(i, s.servers[i], s.h, |s.servers|);
    ProgressOf(s, SetCommit(s, i, c), i);
  }

  lemma ServerCommits(i: NodeId, s: Server, h: History, n: nat, c: nat)
    requires ServerOk(i, s, h, n) && CommittedPrefix(h, n, s.log, c + 1, s.term)
    ensures ServerOk(i, s.(commit := c), h, n)
  {
  }

  lemma ShorterPrefix(h: History, n: nat, l: Log, len: nat, t: nat, short: nat)
    requires CommittedPrefix(h, n, l, len, t) && short <= len
    ensures CommittedPrefix(h, n, l, short, t)
  {
    if short > 1 {
      var term: nat, k: nat :| Witness(h, n, l, len, t, term, k);
      assert Witness(h, n, l, short, t, term, k);
    }
  }

  // ----- Taking over the leader's log ------------------------------------------------------

  /** j is the first position at which l departs from the leader's log, or the end of l. */
  ghost predicate Departs(l: Log, leader: Log, j: nat) {
    && j <= |l| && Agree(l, leader, j)
    && (j < |l| ==> j < |leader| && l[j].term != leader[j].term)
  }

  /** Replace the log, from its first departure on, by the leader's log up to position q. */
  function TakeOver(s: State, i: NodeId, q: nat): State
    requires i < |s.servers| && s.servers[i].term in s.h.elections
    requires q < |s.h.elections[s.servers[i].term].log|
  {
    Update(s, i, s.servers[i].(log := s.h.elections[s.servers[i].term].log[..q + 1]))
  }

  lemma GoodPrefix(l: Log, E: Elections, q: nat)
    requires GoodLog(l, E) && q < |l|
    ensures GoodLog(l[..q + 1], E)
  {
    var p := l[..q + 1];
    forall x: nat | 1 <= x < |p| ensures RootedAt(p, E, x) {
      assert RootedAt(l, E, x);
    }
  }

  lemma TakeOverAck(l: Log, leader: Election, E: Elections, t: nat, j: nat, q: nat, term: nat, index: nat)
    requires t in E && E[t] == leader && Agree(leader.initial, leader.log, |leader.initial|)
    requires Departs(l, leader.log, j) && j <= q + 1 <= |leader.log|
    requires term <= t && term in E && index < |E[term].log| && Kept(l, t, term, index, E)
    ensures Kept(leader.log[..q + 1], t, term, index, E)
  {
    if Agree(l, E[term].log, index + 1) && !Deviant(t, term, index, E) {
      assert Agree(leader.log, E[term].log, index + 1);
      NoDeparture(l, leader.log, index + 1, j);
    }
  }

  /** Only what was never committed is given up. */
  lemma CommitSurvives(s: State, i: NodeId, j: nat)
    requires Inv(s) && i < |s.servers| && s.servers[i].term in s.h.elections
    requires Departs(s.servers[i].log, s.h.elections[s.servers[i].term].log, j)
    ensures s.servers[i].commit < j
  {
    var n := s.servers[i];
    CommittedInOwnLeader(s, i);
    NoDeparture(n.log, s.h.elections[n.term].log, n.commit + 1, j);
  }

  lemma CommittedInOwnLeader(s: State, i: NodeId)
    requires Inv(s) && i < |s.servers| && s.servers[i].term in s.h.elections
    ensures Agree(s.servers[i].log, s.h.elections[s.servers[i].term].log, s.servers[i].commit + 1)
  {
    hide Inv, ServerOk, CommittedPrefix, Agree;
    var n := s.servers[i];
    ServerFact(s, i);
    CommitFact(i, n, s.h, |s.servers|);
    CommittedInLeader(s, n.log, n.commit + 1, n.term);
  }

  lemma ServerFact(s: State, i: NodeId)
    requires Inv(s) && i < |s.servers|
    ensures ServerOk(i, s.servers[i], s.h, |s.servers|)
  {
  }

  lemma BallotFact(s: State, b: Ballot)
    requires Inv(s) && b in s.h.ballots
    ensures BallotOk(b, s.servers, s.h.elections)
  {
  }

  lemma CommitFact(i: NodeId, s: Server, h: History, n: nat)
    requires ServerOk(i, s, h, n)
    ensures CommittedPrefix(h, n, s.log, s.commit + 1, s.term)
    ensures 1 <= |s.log| && s.log[0] == SENTINEL
  {
  }

  lemma NoDeparture(l: Log, leader: Log, len: nat, j: nat)
    requires Agree(l, leader, len) && Departs(l, leader, j)
    ensures len <= j
  {
  }

  lemma TakeOverKeepsInv(s: State, i: NodeId, j: nat, q: nat)
    requires Inv(s) && i < |s.servers| && s.servers[i].role == Follower
    requires s.servers[i].term in s.h.elections
    requires var leader := s.h.elections[s.servers[i].term].log;
             Departs(s.servers[i].log, leader, j) && j <= q + 1 <= |leader|
    ensures Inv(TakeOver(s, i, q)) && Progress(s, TakeOver(s, i, q))
  {
    hide Inv, ServerOk, ServersOk, CommittedPrefix, GoodLog, TermsAtMost, Kept, Progress;
    var n := s.servers[i];
    var r := n.(log := s.h.elections[n.term].log[..q + 1]);
    CommitSurvives(s, i, j);
    ServerFact(s, i);
    LeaderFact(s, n.term);
    ServerTakesOver(i, n, s.h, |s.servers|, s.h.elections[n.term], j, q);
    TakeOverAcks(s, i, j, q);
    LocalKeepsInv(s, i, r);
    InvServers(s);
    TakeOverProgress(s, i, j, q);
  }

  lemma InvServers(s: State)
    requires Inv(s)
    ensures ServersOk(s) && ElectionsOk(s)
  {
  }

  lemma LeaderFact(s: State, t: nat)
    requires Inv(s) && t in s.h.elections
    ensures var e := s.h.elections[t];
            GoodLog(e.log, s.h.elections) && TermsAtMost(e.log, t) && Agree(e.initial, e.log, |e.initial|)
  {
    assert ElectionOk(t, s.h.elections[t], s.servers, s.h);
  }

  lemma TakeOverProgress(s: State, i: NodeId, j: nat, q: nat)
    requires ServersOk(s) && i < |s.servers| && s.servers[i].term in s.h.elections
    requires var leader := s.h.elections[s.servers[i].term].log;
             Departs(s.servers[i].log, leader, j) && s.servers[i].commit < j <= q + 1 <= |leader|
    ensures Progress(s, TakeOver(s, i, q))
  {
    hide ServersOk, Progress;
    ProgressOf(s, TakeOver(s, i, q), i);
  }

  lemma TakeOverAcks(s: State, i: NodeId, j: nat, q: nat)
    requires Inv(s) && i < |s.servers| && s.servers[i].term in s.h.elections
    requires var leader := s.h.elections[s.servers[i].term].log;
             Departs(s.servers[i].log, leader, j) && j <= q + 1 <= |leader|
    ensures var n := s.servers[i];
            AcksKept(i, n.(log := s.h.elections[n.term].log[..q + 1]), s.h)
  {
    hide Inv, Kept;
    var n, E := s.servers[i], s.h.elections;
    LeaderFact(s, n.term);
    forall a | a in s.h.acks && a.node == i
      ensures Kept(E[n.term].log[..q + 1], n.term, a.term, a.index, E)
    {
      AckFact(s, a);
      TakeOverAck(n.log, E[n.term], E, n.term, j, q, a.term, a.index);
    }
  }

  lemma AckFact(s: State, a: Ack)
    requires Inv(s) && a in s.h.acks
    ensures AckOk(a, s.servers, s.h)
  {
  }

  lemma ServerTakesOver(i: NodeId, s: Server, h: History, n: nat, e: Election, j: nat, q: nat)
    requires ServerOk(i, s, h, n) && s.role == Follower
    requires GoodLog(e.log, h.elections) && TermsAtMost(e.log, s.term)
    requires Departs(s.log, e.log, j) && s.commit < j <= q + 1 <= |e.log|
    ensures ServerOk(i, s.(log := e.log[..q + 1]), h, n)
  {
    GoodPrefix(e.log, h.elections, q);
    SamePrefix(h, n, s.log, e.log[..q + 1], s.commit + 1, s.term);
  }

  lemma SamePrefix(h: History, n: nat, l: Log, r: Log, len: nat, t: nat)
    requires CommittedPrefix(h, n, l, len, t) && Agree(l, r, len)
    ensures CommittedPrefix(h, n, r, len, t)
  {
    if len > 1 {
      var term: nat, k: nat :| Witness(h, n, l, len, t, term, k);
      assert Witness(h, n, r, len, t, term, k);
    }
  }

  // ----- Steps that add to the history -----------------------------------------------------

  lemma ServerStable(i: NodeId, s: Server, h: History, h': History, n: nat)
    requires ServerOk(i, s, h, n) && Later(h, h') && RoleOk(i, s, h', n)
    ensures ServerOk(i, s, h', n)
  {
    GoodLogStable(s.log, h.elections, h'.elections);
    CommittedPrefixStable(h, h', n, s.log, s.commit + 1, s.term);
  }

  lemma BallotStable(b: Ballot, ss: seq<Server>, E: Elections, ss': seq<Server>, E': Elections)
    requires BallotOk(b, ss, E) && Extends(E, E') && |ss| == |ss'| && BallotFits(b, ss')
    ensures BallotOk(b, ss', E')
  {
    GoodLogStable(b.voterLog, E, E');
    GoodLogStable(b.candidateLog, E, E');
  }

  lemma ElectionStable(t: nat, e: Election, ss: seq<Server>, h: History, ss': seq<Server>, h': History)
    requires ElectionOk(t, e, ss, h) && Later(h, h') && |ss| == |ss'|
    requires ss[e.leader].term <= ss'[e.leader].term
    ensures ElectionOk(t, e, ss', h')
  {
    GoodLogStable(e.log, h.elections, h'.elections);
    forall v | v in e.voters ensures ElectedBy(h', v, t, e) {
      assert ElectedBy(h, v, t, e);
    }
  }

  lemma AckStable(a: Ack, ss: seq<Server>, h: History, ss': seq<Server>, h': History)
    requires AckOk(a, ss, h) && Later(h, h') && |ss| == |ss'| && h'.ballots == h.ballots
    requires ss'[a.node].term == ss[a.node].term
    requires Agree(ss[a.node].log, ss'[a.node].log, |ss[a.node].log|)
    ensures AckOk(a, ss', h')
  {
    var E, E' := h.elections, h'.elections;
    KeptStable(ss[a.node].log, ss[a.node].term, a.term, a.index, E, E');
    assert Grown(E[a.term], E'[a.term]);
    forall b | b in h'.ballots && AckBound(a, b, E')
      ensures Kept(b.voterLog, b.term - 1, a.term, a.index, E')
    {
      if b.term in E {
        assert Grown(E[b.term], E'[b.term]);
      }
      assert AckBound(a, b, E);
      KeptStable(b.voterLog, b.term - 1, a.term, a.index, E, E');
    }
  }

  // Winning an election.

  lemma NotYetElected(s: State, i: NodeId)
    requires Inv(s) && i < |s.servers| && s.servers[i].role == Candidate
    requires Majority(s.servers[i].voters, |s.servers|)
    ensures s.servers[i].term !in s.h.elections
  {
    var n := s.servers[i];
    if n.term in s.h.elections {
      var e := s.h.elections[n.term];
      CandidateFacts(i, n, s.h, |s.servers|);
      assert ElectionOk(n.term, e, s.servers, s.h);
      var v := QuorumsMeet(n.voters, e.voters, |s.servers|);
      OneChoice(s.h, v, n.term, i, e);
      assert false;
    }
  }

  lemma OneChoice(h: History, v: NodeId, t: nat, c: NodeId, e: Election)
    requires Unique(h.ballots) && HasBallot(h, v, t, c) && ElectedBy(h, v, t, e)
    ensures e.leader == c
  {
  }

  lemma CandidateFacts(i: NodeId, s: Server, h: History, n: nat)
    requires ServerOk(i, s, h, n) && s.role == Candidate
    ensures s.term >= 1 && (s.term in h.elections ==> h.elections[s.term].leader != i)
    ensures forall v :: v in s.voters ==> HasBallot(h, v, s.term, i)
    ensures GoodLog(s.log, h.elections)
  {
  }

  /** Become leader on the strength of the counted votes. */
  function Win(s: State, i: NodeId): State
    requires i < |s.servers|
  {
    var n := s.servers[i];
    State(s.servers[i := n.(role := Leader)],
          s.h.(elections := s.h.elections[n.term := Election(i, n.voters, n.log, n.log)]))
  }

  lemma WinnerBallots(s: State, i: NodeId)
    requires Inv(s) && i < |s.servers| && s.servers[i].role == Candidate
    requires Majority(s.servers[i].voters, |s.servers|)
    ensures var n := s.servers[i];
            TermsAtMost(n.log, n.term - 1) &&
            forall v :: v in n.voters ==> ElectedBy(s.h, v, n.term, Election(i, n.voters, n.log, n.log))
  {
    var n := s.servers[i];
    var e := Election(i, n.voters, n.log, n.log);
    CandidateFacts(i, n, s.h, |s.servers|);
    forall v | v in n.voters ensures ElectedBy(s.h, v, n.term, e) && TermsAtMost(n.log, n.term - 1) {
      assert HasBallot(s.h, v, n.term, i);
      var b :| b in s.h.ballots && b.voter == v && b.term == n.term && b.candidate == i;
      BallotFacts(b, s.servers, s.h.elections);
    }
    var w :| w in n.voters;
  }

  lemma BallotFacts(b: Ballot, ss: seq<Server>, E: Elections)
    requires BallotOk(b, ss, E)
    ensures BallotFits(b, ss) && TermsAtMost(b.candidateLog, b.term - 1)
  {
  }

  lemma WinKeepsInv(s: State, i: NodeId)
    requires Inv(s) && i < |s.servers| && s.servers[i].role == Candidate
    requires Majority(s.servers[i].voters, |s.servers|)
    ensures Inv(Win(s, i)) && Progress(s, Win(s, i))
  {
    hide BallotOk, ElectionOk;
    var n, s' := s.servers[i], Win(s, i);
    NotYetElected(s, i);
    WinnerBallots(s, i);
    WinBallots(s, i);
    WinElections(s, i);
    forall j | 0 <= j < |s'.servers| ensures ServerOk(j, s'.servers[j], s'.h, |s'.servers|) {
      WinServer(j, s.servers[j], s.h, s'.h, |s.servers|, i, n.term);
    }
    forall a | a in s'.h.acks ensures AckOk(a, s'.servers, s'.h) {
      AckStable(a, s.servers, s.h, s'.servers, s'.h);
    }
    CommitFact(i, s.servers[i], s.h, |s.servers|);
    ProgressOf(s, s', i);
  }

  lemma WinBallots(s: State, i: NodeId)
    requires BallotsOk(s) && i < |s.servers| && s.servers[i].term !in s.h.elections
    ensures Later(s.h, Win(s, i).h) && BallotsOk(Win(s, i))
  {
    var s' := Win(s, i);
    forall b | b in s'.h.ballots ensures BallotOk(b, s'.servers, s'.h.elections) {
      BallotFacts(b, s.servers, s.h.elections);
      BallotStable(b, s.servers, s.h.elections, s'.servers, s'.h.elections);
    }
  }

  lemma WinServer(j: NodeId, s: Server, h: History, h': History, n: nat, i: NodeId, t: nat)
    requires ServerOk(j, s, h, n) && Later(h, h') && t !in h.elections && t in h'.elections
    requires h'.elections == h.elections[t := h'.elections[t]] && h'.ballots == h.ballots
    requires h'.elections[t].leader == i && (j == i ==> s.role == Candidate && s.term == t && h'.elections[t].log == s.log)
    ensures ServerOk(j, if j == i then s.(role := Leader) else s, h', n)
  {
    GoodLogStable(s.log, h.elections, h'.elections);
    CommittedPrefixStable(h, h', n, s.log, s.commit + 1, s.term);
  }

  lemma WinElections(s: State, i: NodeId)
    requires Inv(s) && i < |s.servers| && s.servers[i].role == Candidate
    requires Majority(s.servers[i].voters, |s.servers|) && s.servers[i].term !in s.h.elections
    requires Later(s.h, Win(s, i).h) && TermsAtMost(s.servers[i].log, s.servers[i].term - 1)
    requires var n := s.servers[i];
             forall v :: v in n.voters ==> ElectedBy(s.h, v, n.term, Election(i, n.voters, n.log, n.log))
    ensures ElectionsOk(Win(s, i))
  {
    var n, s' := s.servers[i], Win(s, i);
    CandidateFacts(i, n, s.h, |s.servers|);
    GoodLogStable(n.log, s.h.elections, s'.h.elections);
    forall t | t in s'.h.elections ensures ElectionOk(t, s'.h.elections[t], s'.servers, s'.h) {
      if t == n.term {
        forall v | v in n.voters ensures ElectedBy(s'.h, v, t, s'.h.elections[t]) {
          assert ElectedBy(s.h, v, t, s'.h.elections[t]);
        }
      } else {
        ElectionStable(t, s.h.elections[t], s.servers, s.h, s'.servers, s'.h);
      }
    }
  }

  // Appending to the leader's log.

  /** The leader adds an entry of its own term. */
  function Append(s: State, i: NodeId, command: Bytes): State
    requires i < |s.servers| && s.servers[i].term in s.h.elections
  {
    var n := s.servers[i];
    var log := n.log + [Entry(command, n.term)];
    State(s.servers[i := n.(log := log)],
          s.h.(elections := s.h.elections[n.term := s.h.elections[n.term].(log := log)]))
  }

  lemma LeaderFacts(i: NodeId, s: Server, h: History, n: nat)
    requires ServerOk(i, s, h, n) && s.role == Leader
    ensures s.term in h.elections && h.elections[s.term].leader == i && h.elections[s.term].log == s.log
    ensures GoodLog(s.log, h.elections) && TermsAtMost(s.log, s.term)
  {
  }

  lemma AppendGood(l: Log, E: Elections, E': Elections, e: Entry)
    requires GoodLog(l, E) && Extends(E, E') && TermsAtMost(l, e.term)
    requires e.term in E' && E'[e.term].log == l + [e]
    ensures GoodLog(l + [e], E') && TermsAtMost(l + [e], e.term)
  {
    GoodLogStable(l, E, E');
    forall x: nat | 1 <= x < |l + [e]| ensures RootedAt(l + [e], E', x) {
      if x < |l| {
        assert RootedAt(l, E', x);
      }
    }
  }

  lemma AppendLater(s: State, i: NodeId, command: Bytes)
    requires i < |s.servers| && s.servers[i].term in s.h.elections
    requires s.h.elections[s.servers[i].term].log == s.servers[i].log
    ensures Later(s.h, Append(s, i, command).h)
  {
  }

  lemma AppendServer(j: NodeId, s: Server, h: History, h': History, n: nat, i: NodeId, t: nat)
    requires ServerOk(j, s, h, n) && Later(h, h') && t in h.elections && h.elections[t].leader == i
    requires h'.elections.Keys == h.elections.Keys && h'.ballots == h.ballots
    requires forall u :: u in h.elections && u != t ==> h'.elections[u] == h.elections[u]
    requires j != i
    ensures ServerOk(j, s, h', n)
  {
    assert s.term in h.elections ==> Grown(h.elections[s.term], h'.elections[s.term]);
    ServerStable(j, s, h, h', n);
  }

  lemma AppendOwn(i: NodeId, s: Server, h: History, h': History, n: nat, e: Entry)
    requires ServerOk(i, s, h, n) && s.role == Leader && Later(h, h') && h'.ballots == h.ballots && e.term == s.term
    requires s.term in h'.elections && h'.elections[s.term].leader == i && h'.elections[s.term].log == s.log + [e]
    ensures ServerOk(i, s.(log := s.log + [e]), h', n)
  {
    AppendGood(s.log, h.elections, h'.elections, e);
    CommittedPrefixStable(h, h', n, s.log, s.commit + 1, s.term);
    SamePrefix(h', n, s.log, s.log + [e], s.commit + 1, s.term);
  }

  lemma AppendElections(s: State, i: NodeId, command: Bytes)
    requires Inv(s) && i < |s.servers| && s.servers[i].role == Leader && s.servers[i].term in s.h.elections
    requires Later(s.h, Append(s, i, command).h)
    ensures ElectionsOk(Append(s, i, command))
  {
    var n, s' := s.servers[i], Append(s, i, command);
    LeaderFacts(i, n, s.h, |s.servers|);
    forall t | t in s'.h.elections ensures ElectionOk(t, s'.h.elections[t], s'.servers, s'.h) {
      ElectionStable(t, s.h.elections[t], s.servers, s.h, s'.servers, s'.h);
      if t == n.term {
        AppendGood(n.log, s.h.elections, s'.h.elections, Entry(command, n.term));
        ElectionAppends(t, s.h.elections[t], s'.servers, s'.h, Entry(command, n.term));
      }
    }
  }

  lemma ElectionAppends(t: nat, e: Election, ss: seq<Server>, h: History, x: Entry)
    requires ElectionOk(t, e, ss, h) && GoodLog(e.log + [x], h.elections) && TermsAtMost(e.log + [x], t)
    ensures ElectionOk(t, e.(log := e.log + [x]), ss, h)
  {
    forall v | v in e.voters ensures ElectedBy(h, v, t, e.(log := e.log + [x])) {
      assert ElectedBy(h, v, t, e);
    }
  }

  lemma AppendServers(s: State, i: NodeId, command: Bytes)
    requires ServersOk(s) && i < |s.servers| && s.servers[i].role == Leader && s.servers[i].term in s.h.elections
    requires Later(s.h, Append(s, i, command).h)
    ensures ServersOk(Append(s, i, command))
  {
    var n, s' := s.servers[i], Append(s, i, command);
    LeaderFacts(i, n, s.h, |s.servers|);
    forall j | 0 <= j < |s'.servers| ensures ServerOk(j, s'.servers[j], s'.h, |s'.servers|) {
      if j == i {
        AppendOwn(i, n, s.h, s'.h, |s.servers|, Entry(command, n.term));
      } else {
        AppendServer(j, s.servers[j], s.h, s'.h, |s.servers|, i, n.term);
      }
    }
  }

  lemma AppendBallots(s: State, i: NodeId, command: Bytes)
    requires BallotsOk(s) && i < |s.servers| && s.servers[i].role == Leader && s.servers[i].term in s.h.elections
    requires Later(s.h, Append(s, i, command).h)
    ensures BallotsOk(Append(s, i, command))
  {
    var s' := Append(s, i, command);
    forall b | b in s'.h.ballots ensures BallotOk(b, s'.servers, s'.h.elections) {
      BallotFacts(b, s.servers, s.h.elections);
      BallotStable(b, s.servers, s.h.elections, s'.servers, s'.h.elections);
    }
  }

  lemma AppendAcks(s: State, i: NodeId, command: Bytes)
    requires AcksOk(s) && i < |s.servers| && s.servers[i].term in s.h.elections
    requires Later(s.h, Append(s, i, command).h)
    ensures AcksOk(Append(s, i, command))
  {
    var s' := Append(s, i, command);
    forall a | a in s'.h.acks ensures AckOk(a, s'.servers, s'.h) {
      AckStable(a, s.servers, s.h, s'.servers, s'.h);
    }
  }

  lemma AppendProgress(s: State, i: NodeId, command: Bytes)
    requires ServersOk(s) && i < |s.servers| && s.servers[i].term in s.h.elections
    requires Later(s.h, Append(s, i, command).h)
    ensures Progress(s, Append(s, i, command))
  {
    CommitFact(i, s.servers[i], s.h, |s.servers|);
    ProgressOf(s, Append(s, i, command), i);
  }

  lemma AppendKeepsInv(s: State, i: NodeId, command: Bytes)
    requires Inv(s) && i < |s.servers| && s.servers[i].role == Leader && s.servers[i].term in s.h.elections
    ensures Inv(Append(s, i, command)) && Progress(s, Append(s, i, command))
  {
    LeaderFacts(i, s.servers[i], s.h, |s.servers|);
    AppendLater(s, i, command);
    AppendElections(s, i, command);
    AppendServers(s, i, command);
    AppendBallots(s, i, command);
    AppendAcks(s, i, command);
    AppendProgress(s, i, command);
  }

  // Acknowledging the leader's log.

  /** Record that server i holds its leader's log up to position q. */
  function Acknowledge(s: State, i: NodeId, q: nat): State
    requires i < |s.servers|
  {
    var t := s.servers[i].term;
    s.(h := s.h.(acks := s.h.acks + set x | 0 <= x <= q :: Ack(i, t, x)))
  }

  lemma AcknowledgeKeepsInv(s: State, i: NodeId, q: nat)
    requires Inv(s) && i < |s.servers| && s.servers[i].term in s.h.elections
    requires Agree(s.servers[i].log, s.h.elections[s.servers[i].term].log, q + 1)
    ensures Inv(Acknowledge(s, i, q)) && Progress(s, Acknowledge(s, i, q))
    ensures Ack(i, s.servers[i].term, q) in Acknowledge(s, i, q).h.acks
  {
    var n, s' := s.servers[i], Acknowledge(s, i, q);
    forall j | 0 <= j < |s'.servers| ensures ServerOk(j, s'.servers[j], s'.h, |s'.servers|) {
      ServerStable(j, s.servers[j], s.h, s'.h, |s.servers|);
    }
    forall t | t in s'.h.elections ensures ElectionOk(t, s'.h.elections[t], s'.servers, s'.h) {
      ElectionStable(t, s.h.elections[t], s.servers, s.h, s'.servers, s'.h);
    }
    forall a | a in s'.h.acks ensures AckOk(a, s'.servers, s'.h) {
      if a in s.h.acks {
        AckStable(a, s.servers, s.h, s'.servers, s'.h);
      } else {
        NewAck(a, s, s'.h);
      }
    }
    CommitFact(i, s.servers[i], s.h, |s.servers|);
    ProgressOf(s, s', i);
  }

  lemma NewAck(a: Ack, s: State, h: History)
    requires BallotsOk(s) && a.node < |s.servers| && a.term == s.servers[a.node].term && a.term in s.h.elections
    requires h.ballots == s.h.ballots && h.elections == s.h.elections
    requires Agree(s.servers[a.node].log, s.h.elections[a.term].log, a.index + 1)
    ensures AckOk(a, s.servers, h)
  {
    forall b | b in h.ballots ensures !AckBound(a, b, h.elections) {
      assert BallotOk(b, s.servers, s.h.elections);
    }
  }

  // Voting.

  /** Cast the vote of server i for c; a vote for itself starts its candidacy. */
  function CastVote(s: State, i: NodeId, c: NodeId, candidateLog: Log): State
    requires i < |s.servers|
  {
    var n := s.servers[i];
    State(s.servers[i := if c == i then n.(vote := Some(c), role := Candidate, voters := {i}) else n.(vote := Some(c))],
          s.h.(ballots := s.h.ballots + {Ballot(i, n.term, c, n.log, candidateLog)}))
  }

  /** The ballot server i is about to cast for c is one the rules allow. */
  ghost predicate MayCast(s: State, i: NodeId, c: NodeId, candidateLog: Log)
    requires i < |s.servers|
  {
    var n := s.servers[i];
    && n.vote == None && n.role == Follower && n.term >= 1
    && c < |s.servers| && n.term <= s.servers[c].term
    && GoodLog(candidateLog, s.h.elections) && TermsAtMost(candidateLog, n.term - 1)
    && 1 <= |n.log| && UpToDate(candidateLog, n.log)
    && (c == i ==>
          && candidateLog == n.log
          && (n.term in s.h.elections ==> s.h.elections[n.term].leader != i)
          && forall b :: b in s.h.ballots && b.candidate == i ==> b.term < n.term)
    && (c != i && s.servers[c].term == n.term && s.servers[c].role == Candidate ==> s.servers[c].log == candidateLog)
  }

  lemma NoVoteYet(s: State, i: NodeId)
    requires BallotsOk(s) && i < |s.servers| && s.servers[i].vote == None
    ensures forall b :: b in s.h.ballots && b.voter == i ==> b.term != s.servers[i].term
  {
    forall b | b in s.h.ballots && b.voter == i ensures b.term != s.servers[i].term {
      BallotFacts(b, s.servers, s.h.elections);
    }
  }

  lemma CastServers(s: State, i: NodeId, c: NodeId, candidateLog: Log)
    requires ServersOk(s) && i < |s.servers| && MayCast(s, i, c, candidateLog)
    ensures ServersOk(CastVote(s, i, c, candidateLog))
  {
    var s' := CastVote(s, i, c, candidateLog);
    var b := Ballot(i, s.servers[i].term, c, s.servers[i].log, candidateLog);
    assert b in s'.h.ballots;
    forall j | 0 <= j < |s'.servers| ensures ServerOk(j, s'.servers[j], s'.h, |s'.servers|) {
      if j == i {
        CastOwn(i, s.servers[i], s.h, s'.h, |s.servers|, c);
      } else {
        CastOther(j, s.servers[j], s.h, s'.h, |s.servers|);
      }
    }
  }

  lemma CastOther(j: NodeId, s: Server, h: History, h': History, n: nat)
    requires ServerOk(j, s, h, n) && Later(h, h') && h'.elections == h.elections
    ensures ServerOk(j, s, h', n)
  {
    if s.role == Candidate {
      CandidateFacts(j, s, h, n);
      forall v | v in s.voters ensures HasBallot(h', v, s.term, j) {
        assert HasBallot(h, v, s.term, j);
      }
    }
    ServerStable(j, s, h, h', n);
  }

  lemma CastOwn(i: NodeId, s: Server, h: History, h': History, n: nat, c: NodeId)
    requires ServerOk(i, s, h, n) && s.role == Follower && s.term >= 1 && i < n
    requires Later(h, h') && h'.elections == h.elections && HasBallot(h', i, s.term, c)
    requires c == i && s.term in h.elections ==> h.elections[s.term].leader != i
    ensures ServerOk(i, if c == i then s.(vote := Some(c), role := Candidate, voters := {i}) else s.(vote := Some(c)), h', n)
  {
    GoodLogStable(s.log, h.elections, h'.elections);
    CommittedPrefixStable(h, h', n, s.log, s.commit + 1, s.term);
  }

  lemma CastBallots(s: State, i: NodeId, c: NodeId, candidateLog: Log)
    requires BallotsOk(s) && Unique(s.h.ballots) && i < |s.servers| && MayCast(s, i, c, candidateLog)
    requires GoodLog(s.servers[i].log, s.h.elections)
    ensures BallotsOk(CastVote(s, i, c, candidateLog)) && Unique(CastVote(s, i, c, candidateLog).h.ballots)
  {
    var s' := CastVote(s, i, c, candidateLog);
    NoVoteYet(s, i);
    forall b | b in s'.h.ballots ensures BallotOk(b, s'.servers, s'.h.elections) {
      if b in s.h.ballots {
        BallotFacts(b, s.servers, s.h.elections);
        BallotStable(b, s.servers, s.h.elections, s'.servers, s'.h.elections);
      }
    }
  }

  lemma CastAcks(s: State, i: NodeId, c: NodeId, candidateLog: Log)
    requires Inv(s) && i < |s.servers| && MayCast(s, i, c, candidateLog)
    ensures AcksOk(CastVote(s, i, c, candidateLog))
  {
    hide AckOk, BallotOk, ElectionOk;
    var s' := CastVote(s, i, c, candidateLog);
    NoVoteYet(s, i);
    forall a | a in s'.h.acks ensures AckOk(a, s'.servers, s'.h) {
      CastAck(a, s, s', i);
    }
  }

  lemma CastAck(a: Ack, s: State, s': State, i: NodeId)
    requires Inv(s) && i < |s.servers| && a in s.h.acks && |s'.servers| == |s.servers|
    requires forall j :: 0 <= j < |s.servers| ==> s'.servers[j].log == s.servers[j].log && s'.servers[j].term == s.servers[j].term
    requires forall b :: b in s.h.ballots && b.voter == i ==> b.term != s.servers[i].term
    requires s'.h.elections == s.h.elections
    requires forall b :: b in s'.h.ballots && b !in s.h.ballots ==> b.voter == i && b.term == s.servers[i].term && b.voterLog == s.servers[i].log
    ensures AckOk(a, s'.servers, s'.h)
  {
    hide Inv, ServersOk, ElectionsOk;
    var E := s.h.elections;
    AckFact(s, a);
    InvServers(s);
    forall b | b in s'.h.ballots && AckBound(a, b, E)
      ensures Kept(b.voterLog, b.term - 1, a.term, a.index, E)
    {
      if b !in s.h.ballots && b.term in E {
        NotAVoter(s, i, b.term);
        assert false;
      }
    }
  }

  lemma NotAVoter(s: State, i: NodeId, t: nat)
    requires ElectionsOk(s) && t in s.h.elections
    requires forall b :: b in s.h.ballots && b.voter == i ==> b.term != t
    ensures i !in s.h.elections[t].voters
  {
    assert ElectionOk(t, s.h.elections[t], s.servers, s.h);
    forall v | v in s.h.elections[t].voters ensures v != i {
      assert ElectedBy(s.h, v, t, s.h.elections[t]);
    }
  }

  lemma CastKeepsInv(s: State, i: NodeId, c: NodeId, candidateLog: Log)
    requires Inv(s) && i < |s.servers| && MayCast(s, i, c, candidateLog)
    ensures Inv(CastVote(s, i, c, candidateLog)) && Progress(s, CastVote(s, i, c, candidateLog))
    ensures Ballot(i, s.servers[i].term, c, s.servers[i].log, candidateLog) in CastVote(s, i, c, candidateLog).h.ballots
  {
    hide BallotOk, AckOk;
    var s' := CastVote(s, i, c, candidateLog);
    LogFact(i, s.servers[i], s.h, |s.servers|);
    CastServers(s, i, c, candidateLog);
    CastBallots(s, i, c, candidateLog);
    CastAcks(s, i, c, candidateLog);
    forall t | t in s'.h.elections ensures ElectionOk(t, s'.h.elections[t], s'.servers, s'.h) {
      ElectionStable(t, s.h.elections[t], s.servers, s.h, s'.servers, s'.h);
    }
    CommitFact(i, s.servers[i], s.h, |s.servers|);
    ProgressOf(s, s', i);
  }

  lemma LogFact(i: NodeId, s: Server, h: History, n: nat)
    requires ServerOk(i, s, h, n)
    ensures GoodLog(s.log, h.elections) && TermsAtMost(s.log, s.term)
  {
  }

  /** Start a candidacy in the next term. */
  function Stand(s: State, i: NodeId): State
    requires i < |s.servers|
  {
    CastVote(Adopt(s, i, s.servers[i].term + 1), i, i, s.servers[i].log)
  }

  lemma StandMayCast(s: State, i: NodeId)
    requires Inv(s) && i < |s.servers|
    ensures MayCast(Adopt(s, i, s.servers[i].term + 1), i, i, s.servers[i].log)
  {
    var n := s.servers[i];
    LogFact(i, n, s.h, |s.servers|);
    forall b | b in s.h.ballots && b.candidate == i ensures b.term < n.term + 1 {
      BallotFacts(b, s.servers, s.h.elections);
    }
    if n.term + 1 in s.h.elections {
      LeaderTermFact(n.term + 1, s.h.elections[n.term + 1], s.servers, s.h);
    }
  }

  lemma StandKeepsInv(s: State, i: NodeId)
    requires Inv(s) && i < |s.servers|
    ensures Inv(Stand(s, i)) && Progress(s, Stand(s, i))
    ensures Ballot(i, s.servers[i].term + 1, i, s.servers[i].log, s.servers[i].log) in Stand(s, i).h.ballots
  {
    var n := s.servers[i];
    var s1 := Adopt(s, i, n.term + 1);
    AdoptKeepsInv(s, i, n.term + 1);
    StandMayCast(s, i);
    CastKeepsInv(s1, i, i, n.log);
    ProgressTrans(s, s1, Stand(s, i));
  }

  lemma LeaderTermFact(t: nat, e: Election, ss: seq<Server>, h: History)
    requires ElectionOk(t, e, ss, h)
    ensures e.leader < |ss| && t <= ss[e.leader].term
  {
  }

  // ----- The start of every run ------------------------------------------------------------

  function Fresh(): Server {
    Server(0, None, Follower, [SENTINEL], 0, {})
  }

  function Start(n: nat): State {
    State(seq(n, _ => Fresh()), History(map[], {}, {}))
  }

  lemma StartInv(n: nat)
    ensures Inv(Start(n))
  {
  }
}
