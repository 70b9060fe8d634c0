/** Values shared by every part of the Raft model: log entries, logs, quorums. */
module RaftTypes {
  import ByteStrings

  datatype Option<+T> = None | Some(value: T)

  /** Servers are numbered by their position in the node list. */
  type NodeId = nat

  /** A command is an opaque byte string; the sentinel carries none. */
  type Bytes = ByteStrings.Bytes

  datatype Entry = Entry(command: Bytes, term: nat)

  /** An uncompacted log: position 0 is the sentinel, position i the entry with absolute index i. */
  type Log = seq<Entry>

  /**
   The state of a service that has applied some commands.  The service is free: it remembers exactly
   the commands, so the state of any deterministic service is a function of this one.  A snapshot is
   such a state; none is the empty one.
   */
  type ServiceState = seq<Bytes>

  /** The service state after applying the entries of l up to index x. */
  function Replay(l: Log, x: nat): ServiceState
    requires x < |l|
  {
    seq(x, k requires 0 <= k < x => l[k + 1].command)
  }

  lemma ReplayAgree(a: Log, b: Log, x: nat)
    requires Agree(a, b, x + 1)
    ensures Replay(a, x) == Replay(b, x)
  {
  }

  datatype Role = Follower | Candidate | Leader

  const SENTINEL := Entry([], 0)

  /** The first n positions of both logs exist and are equal. */
  predicate Agree(a: Log, b: Log, n: nat) {
    n <= |a| && n <= |b| && forall i :: 0 <= i < n ==> a[i] == b[i]
  }

  lemma AgreeTrans(a: Log, b: Log, c: Log, m: nat, n: nat)
    requires Agree(a, b, m) && Agree(b, c, n)
    ensures m <= n ==> Agree(a, c, m)
    ensures n <= m ==> Agree(a, c, n)
  {
  }

  predicate Sorted(l: Log) {
    forall i, j :: 0 <= i < j < |l| ==> l[i].term <= l[j].term
  }

  predicate TermsAtMost(l: Log, t: int) {
    forall i :: 0 <= i < |l| ==> l[i].term <= t
  }

  /** The vote restriction: log c is at least as up to date as log v. */
  predicate UpToDate(c: Log, v: Log)
    requires |c| >= 1 && |v| >= 1
  {
    var ct, vt := c[|c| - 1].term, v[|v| - 1].term;
    ct > vt || (ct == vt && |c| >= |v|)
  }

  /** The server numbers below n. */
  function Ids(n: nat): (s: set<NodeId>)
    ensures forall i: nat :: i in s <==> i < n
    ensures |s| == n
  {
    if n == 0 then {} else Ids(n - 1) + {n - 1}
  }

  /** More than half of n servers. */
  predicate Majority(q: set<NodeId>, n: nat) {
    q <= Ids(n) && |q| > n / 2
  }

  /** Any two majorities share a server. */
  lemma QuorumsMeet(p: set<NodeId>, q: set<NodeId>, n: nat) returns (v: NodeId)
    requires Majority(p, n) && Majority(q, n)
    ensures v in p && v in q && v < n
  {
    if p * q == {} {
      assert |p + q| == |p| + |q|;
      assert p + q <= Ids(n);
      SubsetSize(p + q, Ids(n));
      assert false;
    }
    v :| v in p * q;
  }

  lemma {:induction false} SubsetSize<T>(a: set<T>, b: set<T>)
    requires a <= b
    ensures |a| <= |b|
    decreases |a|
  {
    if a != {} {
      var x :| x in a;
      SubsetSize(a - {x}, b - {x});
    }
  }
}
