/** What a write-ahead log is for: the reference behaviour both implementations must have. */
module WalModel {
  import opened RaftTypes
  import opened RaftNode

  datatype WalOp =
    | SaveMeta(term: nat, vote: Option<NodeId>)
    | AppendLog(entries: seq<Entry>)
    | TruncateSuffix(from: nat)
    | SaveSnapshot(index: nat, sentinelTerm: nat, snapshot: ServiceState, suffix: seq<Entry>)

  /** A truncation starts inside the log or at its end: at the sentinel it leaves nothing. */
  predicate Applicable(d: Durable, op: WalOp) {
    op.TruncateSuffix? ==> d.snapshotIndex <= op.from <= d.snapshotIndex + |d.logs|
  }

  function Applied(d: Durable, op: WalOp): Durable
    requires Applicable(d, op)
  {
    match op
    case SaveMeta(term, vote) => d.(term := term, vote := vote)
    case AppendLog(entries) => d.(logs := d.logs + entries)
    case TruncateSuffix(from) => d.(logs := d.logs[..from - d.snapshotIndex])
    case SaveSnapshot(index, sentinelTerm, snapshot, suffix) =>
      d.(logs := [Entry([], sentinelTerm)] + suffix, snapshotIndex := index, snapshot := snapshot)
  }

  /** How much of an operation a crash has let through. */
  datatype Effect = Absent | Whole | Part(entries: nat)

  /** Only an append can be cut in the middle, and then between entries. */
  predicate Conceivable(op: WalOp, e: Effect) {
    e.Part? ==> op.AppendLog? && e.entries <= |op.entries|
  }

  function Effected(d: Durable, op: WalOp, e: Effect): Durable
    requires Applicable(d, op) && Conceivable(op, e)
  {
    match e
    case Absent => d
    case Whole => Applied(d, op)
    case Part(k) => d.(logs := d.logs + op.entries[..k])
  }

  /**
   The durable states the Raft model lets a crash fall back to while an operation is under way are
   exactly those a write-ahead log can leave: the old one, or one of the states written on the way.
   */
  lemma TrailIsEffects(d: Durable, es: seq<Entry>, r: Durable)
    ensures (r == d || r in AppendTrail(d, es)) <==>
            exists e :: Conceivable(AppendLog(es), e) && r == Effected(d, AppendLog(es), e)
  {
    var op, trail := AppendLog(es), AppendTrail(d, es);
    if r == d {
      assert r == Effected(d, op, Absent);
    } else if r in trail {
      var k :| 0 <= k < |trail| && trail[k] == r;
      assert r == Effected(d, op, Part(k + 1));
    }
    forall e | Conceivable(op, e) && r == Effected(d, op, e)
      ensures r == d || r in trail
    {
      var k := match e case Absent => 0 case Whole => |es| case Part(k) => k;
      assert es[..|es|] == es;
      assert r == d.(logs := d.logs + es[..k]);
      if k == 0 {
        assert d.logs + es[..k] == d.logs;
      } else {
        assert trail[k - 1] == r;
      }
    }
  }

  // ----- Sequences of operations -----------------------------------------------------------

  /** The durable states an operation goes through, the last one its whole effect. */
  function Trail(d: Durable, op: WalOp): seq<Durable>
    requires Applicable(d, op)
  {
    if op.AppendLog? then AppendTrail(d, op.entries) else [Applied(d, op)]
  }

  predicate AllApplicable(d: Durable, ops: seq<WalOp>)
    decreases |ops|, 0
  {
    ops == [] ||
    (AllApplicable(d, ops[..|ops| - 1]) && Applicable(StateAfter(d, ops[..|ops| - 1]), ops[|ops| - 1]))
  }

  function StateAfter(d: Durable, ops: seq<WalOp>): Durable
    requires AllApplicable(d, ops)
    decreases |ops|, 1
  {
    if ops == [] then d else Applied(StateAfter(d, ops[..|ops| - 1]), ops[|ops| - 1])
  }

  /** Every durable state on the way through the operations. */
  function TrailOf(d: Durable, ops: seq<WalOp>): seq<Durable>
    requires AllApplicable(d, ops)
    decreases |ops|
  {
    if ops == [] then []
    else TrailOf(d, ops[..|ops| - 1]) + Trail(StateAfter(d, ops[..|ops| - 1]), ops[|ops| - 1])
  }

  /** Issuing ops from base has written exactly these states, and left d. */
  predicate Logged(base: Durable, ops: seq<WalOp>, writes: seq<Durable>, d: Durable) {
    AllApplicable(base, ops) && writes == TrailOf(base, ops) && d == StateAfter(base, ops)
  }

  lemma LoggedMore(base: Durable, ops: seq<WalOp>, writes: seq<Durable>, d: Durable, op: WalOp)
    requires Logged(base, ops, writes, d) && Applicable(d, op)
    ensures Logged(base, ops + [op], writes + Trail(d, op), Applied(d, op))
  {
    assert (ops + [op])[..|ops|] == ops;
  }

  /** Operations after others start from where those have got to. */
  lemma {:induction false} OpsSplit(base: Durable, ops: seq<WalOp>, more: seq<WalOp>)
    requires AllApplicable(base, ops + more)
    ensures AllApplicable(base, ops) && AllApplicable(StateAfter(base, ops), more)
    ensures StateAfter(base, ops + more) == StateAfter(StateAfter(base, ops), more)
    ensures TrailOf(base, ops + more) == TrailOf(base, ops) + TrailOf(StateAfter(base, ops), more)
    decreases |more|
  {
    hide Applied, Trail, Applicable;
    if more == [] {
      assert ops + more == ops;
    } else {
      var z, all := |more| - 1, ops + more;
      assert all[..|all| - 1] == ops + more[..z] && all[|all| - 1] == more[z];
      OpsSplit(base, ops, more[..z]);
    }
  }

  /** What a stretch of operations writes is the trail of those operations from the state they found. */
  lemma SectionTrail(base: Durable, ops: seq<WalOp>, writes: seq<Durable>, d: Durable,
                     more: seq<WalOp>, trail: seq<Durable>, d': Durable)
    requires Logged(base, ops, writes, d) && Logged(base, ops + more, writes + trail, d')
    ensures AllApplicable(d, more) && trail == TrailOf(d, more) && d' == StateAfter(d, more)
  {
    OpsSplit(base, ops, more);
    assert trail == (writes + trail)[|writes|..];
    assert TrailOf(d, more) == (writes + TrailOf(d, more))[|writes|..];
  }

  /** A state on the way through the i-th operation is on the way through all of them. */
  lemma {:induction false} OnTheWay(d: Durable, ops: seq<WalOp>, i: nat, r: Durable)
    requires AllApplicable(d, ops) && i < |ops|
    ensures AllApplicable(d, ops[..i]) && Applicable(StateAfter(d, ops[..i]), ops[i])
    ensures r == StateAfter(d, ops[..i]) || r in Trail(StateAfter(d, ops[..i]), ops[i]) ==> r == d || r in TrailOf(d, ops)
    decreases |ops|
  {
    var z := |ops| - 1;
    if i < z {
      OnTheWay(d, ops[..z], i, r);
      assert ops[..z][..i] == ops[..i];
    } else {
      EndIsOnTheWay(d, ops[..z]);
    }
  }

  /** The state after all operations has been written, if anything has changed. */
  lemma {:induction false} EndIsOnTheWay(d: Durable, ops: seq<WalOp>)
    requires AllApplicable(d, ops)
    ensures StateAfter(d, ops) == d || StateAfter(d, ops) in TrailOf(d, ops)
    decreases |ops|
  {
    if ops != [] {
      var z := |ops| - 1;
      var before, op := StateAfter(d, ops[..z]), ops[z];
      if op == AppendLog([]) {
        assert before.logs + [] == before.logs;
        EndIsOnTheWay(d, ops[..z]);
      } else {
        var trail := Trail(before, op);
        assert op.AppendLog? ==> op.entries[..|op.entries|] == op.entries;
        assert trail[|trail| - 1] == Applied(before, op);
      }
    }
  }
}
