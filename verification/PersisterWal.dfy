/** The other write-ahead log: a full model in memory, written out whole on every operation. */
module PersisterWal {
  import opened RaftTypes
  import opened RaftNode
  import opened WalModel

  /** The Raft part of the state, as one blob holds it. */
  datatype Image = Image(term: nat, logs: Log, vote: Option<NodeId>, snapshotIndex: nat)

  datatype ImageCodec = ImageCodec(put: Image -> Bytes, get: Bytes -> Image)

  ghost predicate Lawful(c: ImageCodec) {
    forall i :: c.get(c.put(i)) == i && c.put(i) != []
  }

  /** Keeps a state blob and a snapshot, replaced together. */
  class Persister {
    var raftState: Bytes
    var snapshot: ServiceState

    constructor (raftState: Bytes, snapshot: ServiceState)
      ensures this.raftState == raftState && this.snapshot == snapshot
    {
      this.raftState, this.snapshot := raftState, snapshot;
    }

    method Save(raftState: Bytes, snapshot: ServiceState)
      modifies this
      ensures this.raftState == raftState && this.snapshot == snapshot
    {
      this.raftState, this.snapshot := raftState, snapshot;
    }
  }

  /** What a restart of the node reads back; a blank blob is a new node, whose log is the lone sentinel. */
  function Stored(c: ImageCodec, raftState: Bytes, snapshot: ServiceState): Durable {
    if raftState == [] then Durable(0, None, [SENTINEL], 0, snapshot)
    else var i := c.get(raftState); Durable(i.term, i.vote, i.logs, i.snapshotIndex, snapshot)
  }

  class WAL {
    const p: Persister
    const codec: ImageCodec

    var term: nat
    var vote: Option<NodeId>
    var logs: Log
    var snapshotIndex: nat
    var snapshot: ServiceState

    /** The model is seeded from what is stored, so that the first write cannot wipe the log. */
    constructor (p: Persister, codec: ImageCodec)
      requires Lawful(codec)
      ensures this.p == p && this.codec == codec && Valid()
      ensures Model() == Stored(codec, p.raftState, p.snapshot)
    {
      this.p, this.codec := p, codec;
      if p.raftState != [] {
        var i := codec.get(p.raftState);
        term, logs, vote, snapshotIndex := i.term, i.logs, i.vote, i.snapshotIndex;
      } else {
        term, logs, vote, snapshotIndex := 0, [SENTINEL], None, 0;
      }
      snapshot := p.snapshot;
    }

    ghost function Model(): Durable
      reads this
    {
      Durable(term, vote, logs, snapshotIndex, snapshot)
    }

    /** The stored blob and the model agree. */
    ghost predicate Valid()
      reads this, p
    {
      Lawful(codec) && Model() == Stored(codec, p.raftState, p.snapshot)
    }

    method Flush()
      requires Lawful(codec)
      modifies p
      ensures Valid() && p.raftState != []
    {
      p.Save(codec.put(Image(term, logs, vote, snapshotIndex)), snapshot);
    }

    method SaveMeta(term: nat, vote: Option<NodeId>)
      requires Valid()
      modifies this, p
      ensures Valid() && p.raftState != [] && Model() == old(Model()).(term := term, vote := vote)
    {
      this.term, this.vote := term, vote;
      Flush();
    }

    method AppendLog(entries: seq<Entry>)
      requires Valid()
      modifies this, p
      ensures Valid() && p.raftState != [] && Model() == old(Model()).(logs := old(logs) + entries)
    {
      logs := logs + entries;
      Flush();
    }

    method TruncateSuffix(from: nat)
      requires Valid() && snapshotIndex <= from <= snapshotIndex + |logs|
      modifies this, p
      ensures Valid() && p.raftState != [] && Model() == old(Model()).(logs := old(logs)[..from - old(snapshotIndex)])
    {
      logs := logs[..from - snapshotIndex];
      Flush();
    }

    method SaveSnapshot(index: nat, sentinelTerm: nat, snapshot: ServiceState, suffix: seq<Entry>)
      requires Valid()
      modifies this, p
      ensures Valid() && p.raftState != []
      ensures Model() == old(Model()).(logs := [Entry([], sentinelTerm)] + suffix, snapshotIndex := index, snapshot := snapshot)
    {
      logs := [Entry([], sentinelTerm)] + suffix;
      snapshotIndex := index;
      this.snapshot := snapshot;
      Flush();
    }

    /** Any operation has the effect the reference model gives it, in memory and on storage alike. */
    method Perform(op: WalOp)
      requires Valid() && Applicable(Model(), op)
      modifies this, p
      ensures Valid() && Model() == Applied(old(Model()), op) == Stored(codec, p.raftState, p.snapshot)
    {
      match op
      case SaveMeta(term, vote) => SaveMeta(term, vote);
      case AppendLog(entries) => AppendLog(entries);
      case TruncateSuffix(from) => TruncateSuffix(from);
      case SaveSnapshot(index, sentinelTerm, snapshot, suffix) => SaveSnapshot(index, sentinelTerm, snapshot, suffix);
    }

    /** A new node has no blob, and then nothing but the snapshot is reported. */
    method Load() returns (st: Durable, found: bool)
      requires Valid()
      ensures found == (p.raftState != [])
      ensures found ==> st == Model()
      ensures !found ==> st == Durable(0, None, [], 0, snapshot) && Model() == st.(logs := [SENTINEL])
    {
      st := Durable(0, None, [], 0, p.snapshot);
      found := p.raftState != [];
      if found {
        var i := codec.get(p.raftState);
        st := Durable(i.term, i.vote, i.logs, i.snapshotIndex, p.snapshot);
      }
    }
  }

  /**
   The operations of a critical section through the other implementation: stopped after any number of
   them, the storage holds a state on their trail, or the one they found.
   */
  method RunSection(wal: WAL, ops: seq<WalOp>, stopAfter: nat) returns (st: Durable)
    requires wal.Valid() && AllApplicable(wal.Model(), ops) && stopAfter <= |ops|
    modifies wal, wal.p
    ensures wal.Valid() && st == wal.Model() == Stored(wal.codec, wal.p.raftState, wal.p.snapshot)
    ensures var d := old(wal.Model());
            && (st == d || st in TrailOf(d, ops))
            && (stopAfter == |ops| ==> st == StateAfter(d, ops))
  {
    hide Trail, TrailOf, Lawful;
    ghost var d := wal.Model();
    for i := 0 to stopAfter
      invariant wal.Valid() && AllApplicable(d, ops[..i]) && wal.Model() == StateAfter(d, ops[..i])
    {
      OnTheWay(d, ops, i, wal.Model());
      wal.Perform(ops[i]);
      assert ops[..i + 1][..i] == ops[..i];
    }
    if stopAfter < |ops| {
      OnTheWay(d, ops, stopAfter, wal.Model());
    } else {
      assert ops[..|ops|] == ops;
      EndIsOnTheWay(d, ops);
    }
    st := Durable(wal.term, wal.vote, wal.logs, wal.snapshotIndex, wal.snapshot);
  }
}
