/**
 The durable mirror as one statement: the operations a critical section of the server issues, carried
 out by either write-ahead log and stopped anywhere, leave a state the section's trail allows for, and
 carried out to the end leave exactly what the server has in memory.
 */
module RaftDurability {
  import opened MemFileSystem
  import opened RaftNode
  import W = WalModel
  import F = FileWal
  import R = WalRuns
  import P = PersisterWal
  import S = RaftServer

  /** Between two moments the server has issued `more` and so written `trail`, starting from d. */
  ghost predicate Section(rf: S.Raft, d: Durable, more: seq<W.WalOp>, trail: seq<Durable>)
    reads rf
  {
    exists ops, writes :: Between(rf, d, ops, writes, more, trail)
  }

  ghost predicate Between(rf: S.Raft, d: Durable, ops: seq<W.WalOp>, writes: seq<Durable>, more: seq<W.WalOp>, trail: seq<Durable>)
    reads rf
  {
    W.Logged(rf.base, ops, writes, d) && rf.ops == ops + more && rf.writes == writes + trail
  }

  /** The trail of a section is that of its operations, and they end where memory is. */
  lemma SectionIsItsOps(rf: S.Raft, d: Durable, more: seq<W.WalOp>, trail: seq<Durable>)
    requires rf.Mirrored() && Section(rf, d, more, trail)
    ensures W.AllApplicable(d, more) && trail == W.TrailOf(d, more) && rf.State().Saved() == W.StateAfter(d, more)
  {
    var ops, writes :| Between(rf, d, ops, writes, more, trail);
    W.SectionTrail(rf.base, ops, writes, d, more, trail, rf.wal);
  }

  /** An append handler is such a section, with the trail its value-level account names. */
  method HandleAppendSection(rf: S.Raft, args: AppendArgs) returns (reply: AppendReply, ghost more: seq<W.WalOp>)
    requires rf.Valid()
    modifies rf
    ensures rf.Valid() && Section(rf, old(rf.wal), more, HandleAppend(old(rf.State()), args).trail)
    ensures rf.State() == HandleAppend(old(rf.State()), args).node
  {
    hide W.Logged, HandleAppend;
    ghost var ops, writes := rf.ops, rf.writes;
    reply := rf.AppendEntriesHandler(args);
    more := rf.ops[|ops|..];
    assert rf.ops == ops + more;
    assert Between(rf, old(rf.wal), ops, writes, more, HandleAppend(old(rf.State()), args).trail);
  }

  /** Through the files, with faults armed at every operation. */
  method OnFiles(rf: S.Raft, ghost trail: seq<Durable>, fs: MemFs, dir: string, codec: F.Codec,
                 more: seq<W.WalOp>, faults: seq<R.Faults>) returns (st: Durable, completed: nat)
    requires F.Lawful(codec) && F.GoodDisk(codec, fs.files, dir) && |faults| == |more|
    requires rf.Mirrored() && Section(rf, F.DiskState(codec, fs.files, dir), more, trail)
    requires forall op :: op in more ==> F.Storable(codec, op)
    modifies fs
    ensures F.GoodDisk(codec, fs.files, dir) && st == F.DiskState(codec, fs.files, dir)
    ensures st == F.DiskState(codec, old(fs.files), dir) || st in trail
    ensures completed == |more| ==> st == rf.State().Saved()
    ensures (forall f :: f in faults ==> f == R.Faults([], NoFault)) ==> completed == |more|
  {
    hide F.GoodDisk, F.DiskState, F.Lawful, F.Storable, W.TrailOf, W.StateAfter, W.AllApplicable, S.Raft.Mirrored, Section;
    SectionIsItsOps(rf, F.DiskState(codec, fs.files, dir), more, trail);
    st, completed := R.RunSection(fs, dir, codec, more, faults);
  }

  /** Through the full model, stopped after any number of operations. */
  method OnPersister(rf: S.Raft, ghost trail: seq<Durable>, wal: P.WAL, more: seq<W.WalOp>, stopAfter: nat) returns (st: Durable)
    requires wal.Valid() && stopAfter <= |more|
    requires rf.Mirrored() && Section(rf, wal.Model(), more, trail)
    modifies wal, wal.p
    ensures wal.Valid() && st == wal.Model()
    ensures st == old(wal.Model()) || st in trail
    ensures stopAfter == |more| ==> st == rf.State().Saved()
  {
    hide P.Lawful, W.TrailOf, W.StateAfter, W.AllApplicable, S.Raft.Mirrored, Section;
    SectionIsItsOps(rf, wal.Model(), more, trail);
    st := P.RunSection(wal, more, stopAfter);
  }
}
