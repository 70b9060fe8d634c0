/** Whole lives of a write-ahead log: operations, crashes at any point, reboots and reopenings. */
module WalRuns {
  import opened MemFileSystem
  import opened RaftTypes
  import opened RaftNode
  import opened WalModel
  import opened FileWal

  /** One stretch of a life: the faults armed, an operation, and whether the process then restarts anyway. */
  datatype Chapter = Chapter(writes: seq<int>, rename: RenameFault, op: WalOp, restart: bool)

  /** What became of the operation: not issued because the log does not admit it, completed, or cut off by a crash. */
  datatype Fate = Refused | Completed | Interrupted(effect: Effect)

  /** The fate is one the reference model allows in state d; only an armed fault can interrupt. */
  predicate Allowed(d: Durable, c: Chapter, f: Fate) {
    match f
    case Refused => !Applicable(d, c.op)
    case Completed => Applicable(d, c.op)
    case Interrupted(e) => Applicable(d, c.op) && Conceivable(c.op, e) && (c.writes != [] || c.rename != NoFault)
  }

  function Next(d: Durable, c: Chapter, f: Fate): Durable
    requires Allowed(d, c, f)
  {
    match f
    case Refused => d
    case Completed => Applied(d, c.op)
    case Interrupted(e) => Effected(d, c.op, e)
  }

  /** Starting from d, the reference model can go through these operations with these fates and end in r. */
  predicate Explains(d: Durable, chapters: seq<Chapter>, fates: seq<Fate>, r: Durable)
    decreases |chapters|
  {
    if chapters == [] then fates == [] && r == d
    else
      && fates != []
      && Allowed(d, chapters[0], fates[0])
      && Explains(Next(d, chapters[0], fates[0]), chapters[1..], fates[1..], r)
  }

  lemma {:induction false} ExplainsOneMore(d: Durable, chapters: seq<Chapter>, fates: seq<Fate>, r: Durable, c: Chapter, f: Fate)
    requires Explains(d, chapters, fates, r) && Allowed(r, c, f)
    ensures Explains(d, chapters + [c], fates + [f], Next(r, c, f))
    decreases |chapters|
  {
    var cs, fs := chapters + [c], fates + [f];
    if chapters == [] {
      assert cs[0] == c && cs[1..] == [] && fs[0] == f && fs[1..] == [];
    } else {
      ExplainsOneMore(Next(d, chapters[0], fates[0]), chapters[1..], fates[1..], r, c, f);
      assert cs[1..] == chapters[1..] + [c] && fs[1..] == fates[1..] + [f];
    }
  }

  /** Without a crash or a refusal the end is the plain fold of the operations. */
  function Fold(d: Durable, chapters: seq<Chapter>): Option<Durable>
    decreases |chapters|
  {
    if chapters == [] then Some(d)
    else if !Applicable(d, chapters[0].op) then None
    else Fold(Applied(d, chapters[0].op), chapters[1..])
  }

  lemma {:induction false} UndisturbedIsFold(d: Durable, chapters: seq<Chapter>, fates: seq<Fate>, r: Durable)
    requires Explains(d, chapters, fates, r)
    requires forall f :: f in fates ==> f.Completed?
    ensures Fold(d, chapters) == Some(r)
    decreases |chapters|
  {
    if chapters != [] {
      assert fates[0] in fates;
      UndisturbedIsFold(Applied(d, chapters[0].op), chapters[1..], fates[1..], r);
    }
  }

  /** A life can begin on an empty disk, which loads as a new node. */
  lemma EmptyDiskIsBlank(codec: Codec, dir: string)
    ensures GoodDisk(codec, map[], dir) && DiskState(codec, map[], dir) == BLANK
  {
    assert DiskRecords(codec, map[], dir) == [];
  }

  /** Restart the process on the same disk. */
  method Reopen(fs: MemFs, dir: string, codec: Codec) returns (wal: FileWAL, st: Durable)
    requires Lawful(codec) && GoodDisk(codec, fs.files, dir)
    modifies fs
    ensures fresh(wal) && fresh(wal.rl) && fresh(wal.rl.f) && wal.Valid() && wal.fs == fs && wal.dir == dir && wal.codec == codec
    ensures st == DiskState(codec, fs.files, dir) == DiskState(codec, old(fs.files), dir)
  {
    fs.Reboot();
    wal := new FileWAL.Open(fs, dir, codec);
    var found;
    st, found := wal.Load();
  }

  /** One chapter, ending with an open log whatever happened. */
  method Live(fs: MemFs, dir: string, codec: Codec, wal: FileWAL, st: Durable, c: Chapter)
    returns (wal': FileWAL, st': Durable, ghost fate: Fate)
    requires wal.Valid() && wal.fs == fs && wal.dir == dir && wal.codec == codec && Storable(codec, c.op)
    requires st == DiskState(codec, fs.files, dir)
    modifies fs, wal, wal.rl.f
    ensures wal' == wal || fresh(wal')
    ensures (wal'.rl == old(wal.rl) && wal' == wal) || (fresh(wal'.rl) && fresh(wal'.rl.f))
    ensures wal'.Valid() && wal'.fs == fs && wal'.dir == dir && wal'.codec == codec
    ensures st' == DiskState(codec, fs.files, dir)
    ensures Allowed(st, c, fate) && st' == Next(st, c, fate)
  {
    hide Clean, Lawful, GoodDisk, DiskState, Storable;
    wal' := wal;
    st' := st;
    fate := Refused;
    if !Applicable(st, c.op) {
      return;
    }
    fs.Arm(c.writes, c.rename);
    ghost var effect;
    var ok;
    ok, effect := wal.Perform(c.op);
    fate := if ok then Completed else Interrupted(effect);
    if !ok || c.restart {
      wal', st' := Reopen(fs, dir, codec);
    } else {
      st' := Applied(st, c.op);
    }
  }

  /**
   Live through any chapters from any readable disk: what the final restart loads is what the
   reference model holds after every operation, interrupted ones to a conceivable part.
   */
  method LiveThrough(fs: MemFs, dir: string, codec: Codec, chapters: seq<Chapter>) returns (st: Durable, ghost fates: seq<Fate>)
    requires Lawful(codec) && GoodDisk(codec, fs.files, dir)
    requires forall c :: c in chapters ==> Storable(codec, c.op)
    modifies fs
    ensures GoodDisk(codec, fs.files, dir)
    ensures Explains(DiskState(codec, old(fs.files), dir), chapters, fates, st)
    ensures st == DiskState(codec, fs.files, dir)
  {
    hide Clean, Lawful, GoodDisk, DiskState, Storable;
    ghost var start := DiskState(codec, fs.files, dir);
    var wal: FileWAL;
    wal, st := Reopen(fs, dir, codec);
    fates := [];
    for i := 0 to |chapters|
      invariant fresh(wal) && fresh(wal.rl) && fresh(wal.rl.f)
      invariant wal.Valid() && wal.fs == fs && wal.dir == dir && wal.codec == codec
      invariant st == DiskState(codec, fs.files, dir)
      invariant Explains(start, chapters[..i], fates, st)
    {
      ghost var before, fate := st, Refused;
      wal, st, fate := Live(fs, dir, codec, wal, st, chapters[i]);
      ExplainsOneMore(start, chapters[..i], fates, before, chapters[i], fate);
      assert chapters[..i] + [chapters[i]] == chapters[..i + 1];
      fates := fates + [fate];
    }
    assert chapters[..|chapters|] == chapters;
    wal, st := Reopen(fs, dir, codec);
  }

  // ----- One critical section --------------------------------------------------------------

  datatype Faults = Faults(writes: seq<int>, rename: RenameFault)

  /** The operation was interrupted in a state on its way. */
  lemma InterruptedOnTheWay(d: Durable, op: WalOp, e: Effect)
    requires Applicable(d, op) && Conceivable(op, e)
    ensures Effected(d, op, e) == d || Effected(d, op, e) in Trail(d, op)
  {
    if op.AppendLog? {
      TrailIsEffects(d, op.entries, Effected(d, op, e));
    } else if e.Whole? {
      assert Trail(d, op)[0] == Applied(d, op);
    }
  }

  /**
   The operations of a critical section go to the files one by one until all are done or a crash stops
   one.  What the restart loads is a state on their trail, or the one they found; it is the last one if
   nothing was interrupted.
   */
  method RunSection(fs: MemFs, dir: string, codec: Codec, ops: seq<WalOp>, faults: seq<Faults>)
    returns (st: Durable, completed: nat)
    requires Lawful(codec) && GoodDisk(codec, fs.files, dir) && |faults| == |ops|
    requires AllApplicable(DiskState(codec, fs.files, dir), ops)
    requires forall op :: op in ops ==> Storable(codec, op)
    modifies fs
    ensures GoodDisk(codec, fs.files, dir) && st == DiskState(codec, fs.files, dir) && completed <= |ops|
    ensures var d := DiskState(codec, old(fs.files), dir);
            && (st == d || st in TrailOf(d, ops))
            && (completed == |ops| ==> st == StateAfter(d, ops))
    ensures (forall f :: f in faults ==> f == Faults([], NoFault)) ==> completed == |ops|
  {
    hide Clean, Lawful, GoodDisk, DiskState, Storable, Trail, TrailOf;
    ghost var d := DiskState(codec, fs.files, dir);
    var wal: FileWAL;
    wal, st := Reopen(fs, dir, codec);
    completed := 0;
    while completed < |ops|
      invariant completed <= |ops| && fresh(wal) && fresh(wal.rl) && fresh(wal.rl.f)
      invariant wal.Valid() && wal.fs == fs && wal.dir == dir && wal.codec == codec
      invariant AllApplicable(d, ops[..completed]) && DiskState(codec, fs.files, dir) == StateAfter(d, ops[..completed])
    {
      ghost var i, before := completed, StateAfter(d, ops[..completed]);
      OnTheWay(d, ops, i, before);
      fs.Arm(faults[completed].writes, faults[completed].rename);
      ghost var effect;
      var ok;
      ok, effect := wal.Perform(ops[completed]);
      if !ok {
        InterruptedOnTheWay(before, ops[i], effect);
        OnTheWay(d, ops, i, Effected(before, ops[i], effect));
        wal, st := Reopen(fs, dir, codec);
        assert faults[completed] in faults;
        return;
      }
      assert ops[..i + 1][..i] == ops[..i];
      completed := completed + 1;
    }
    assert ops[..|ops|] == ops;
    EndIsOnTheWay(d, ops);
    wal, st := Reopen(fs, dir, codec);
  }
}
