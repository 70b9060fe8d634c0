/**
 Applying the committed log to a store that survives crashes.  The store commits every accepted write
 together with its index; after a restart part of the log is delivered again, and whatever the index
 already covers is skipped.
 */
module ApplyDedup {
  import opened VersionedMap

  datatype Command = GetCommand(key: Key) | PutCommand(key: Key, value: Value, version: nat)

  datatype Reply = Skipped | Read(reply: GetReply) | Wrote(err: Err)

  /** The durable store: the pairs, and the index of the last write committed with them. */
  datatype Durable = Durable(store: Store, applied: nat)

  const FRESH := Durable(map[], 0)

  predicate Accepts(m: Store, c: Command) {
    c.PutCommand? && PutErr(m, c.key, c.version) == OK
  }

  function Effect(m: Store, c: Command): Store {
    if c.PutCommand? then PutStore(m, c.key, c.value, c.version) else m
  }

  function Answer(m: Store, c: Command): Reply {
    if c.PutCommand? then Wrote(PutErr(m, c.key, c.version)) else Read(Get(m, c.key))
  }

  /** One delivery: skipped, or judged against the store; only an accepted write moves the index. */
  function Delivered(d: Durable, index: nat, c: Command): (Durable, Reply) {
    if index <= d.applied then (d, Skipped)
    else if Accepts(d.store, c) then (Durable(Effect(d.store, c), index), Answer(d.store, c))
    else (d, Answer(d.store, c))
  }

  // ----- The log applied once --------------------------------------------------------------

  /** The commands with indices 1 to n applied in order, each exactly once. */
  function Fold(log: seq<Command>, n: nat): Store
    requires n <= |log|
  {
    if n == 0 then map[] else Effect(Fold(log, n - 1), log[n - 1])
  }

  /** The index of the last accepted write among the first n commands, or 0. */
  function LastWrite(log: seq<Command>, n: nat): (k: nat)
    requires n <= |log|
    ensures k <= n
  {
    if n == 0 then 0
    else if Accepts(Fold(log, n - 1), log[n - 1]) then n
    else LastWrite(log, n - 1)
  }

  function Ideal(log: seq<Command>, n: nat): Durable
    requires n <= |log|
  {
    Durable(Fold(log, n), LastWrite(log, n))
  }

  /** After the last accepted write the store does not change. */
  lemma {:induction false} QuietTail(log: seq<Command>, n: nat, k: nat)
    requires k <= n <= |log| && LastWrite(log, n) <= k
    ensures Fold(log, k) == Fold(log, n)
    decreases n
  {
    if k < n {
      QuietTail(log, n - 1, k);
    }
  }

  lemma {:induction false} TailIsRefused(log: seq<Command>, n: nat, i: nat)
    requires i <= n <= |log| && LastWrite(log, n) < i
    ensures !Accepts(Fold(log, i - 1), log[i - 1])
    decreases n
  {
    if i < n {
      TailIsRefused(log, n - 1, i);
    }
  }

  /** Delivering again something that was delivered before changes nothing, and an answer given is the old answer. */
  lemma RedeliveryIsIdle(log: seq<Command>, n: nat, i: nat)
    requires 1 <= i <= n <= |log|
    ensures var r := Delivered(Ideal(log, n), i, log[i - 1]);
            r.0 == Ideal(log, n) && (r.1 == Skipped || r.1 == Answer(Fold(log, i - 1), log[i - 1]))
    ensures Delivered(Ideal(log, n), i, log[i - 1]).1 == Skipped <==> i <= LastWrite(log, n)
  {
    if i > LastWrite(log, n) {
      QuietTail(log, n, i - 1);
      TailIsRefused(log, n, i);
    }
  }

  /** The first delivery in order gives the next ideal state and the answer due at that place in the log. */
  lemma DeliveryAdvances(log: seq<Command>, n: nat)
    requires n < |log|
    ensures Delivered(Ideal(log, n), n + 1, log[n]) == (Ideal(log, n + 1), Answer(Fold(log, n), log[n]))
  {
  }

  // ----- Lives of a server -----------------------------------------------------------------

  /** `high` is the highest index ever delivered to this store, `cursor` the last one since the restart. */
  datatype Server = Server(disk: Durable, high: nat, cursor: nat)

  datatype Step =
    | Deliver
      /** Restart: raft begins again after its snapshot, which the service had taken part in. */
    | Crash(snapshotIndex: nat)
      /** A snapshot labelled `index` replaces the whole store; taken during a replay it can hold more, up to `high`. */
    | Restore(index: nat, high: nat)

  predicate Possible(log: seq<Command>, s: Server, step: Step) {
    match step
    case Deliver => s.cursor < |log|
    case Crash(k) => k <= s.high
    case Restore(k, high) => k <= high <= |log|
  }

  function After(log: seq<Command>, s: Server, step: Step): Server
    requires Possible(log, s, step)
  {
    match step
    case Deliver =>
      var i := s.cursor + 1;
      Server(Delivered(s.disk, i, log[i - 1]).0, if i > s.high then i else s.high, i)
    case Crash(k) => s.(cursor := k)
    case Restore(k, high) => Server(Ideal(log, high), high, k)
  }

  predicate Sound(log: seq<Command>, s: Server) {
    s.cursor <= s.high <= |log| && s.disk == Ideal(log, s.high)
  }

  lemma StepKeeps(log: seq<Command>, s: Server, step: Step)
    requires Sound(log, s) && Possible(log, s, step)
    ensures Sound(log, After(log, s, step))
  {
    if step.Deliver? {
      if s.cursor < s.high {
        RedeliveryIsIdle(log, s.high, s.cursor + 1);
      } else {
        DeliveryAdvances(log, s.high);
      }
    }
  }

  predicate IsLife(log: seq<Command>, ss: seq<Server>, steps: seq<Step>) {
    && |ss| == |steps| + 1
    && ss[0] == Server(FRESH, 0, 0)
    && forall i :: 0 <= i < |steps| ==> Possible(log, ss[i], steps[i]) && ss[i + 1] == After(log, ss[i], steps[i])
  }

  /**
   Whatever the crashes and however far back each replay starts, the store is the log applied once up
   to the highest index delivered, and its index is that of the last accepted write.
   */
  lemma {:induction false} StoreIsFold(log: seq<Command>, ss: seq<Server>, steps: seq<Step>, i: nat)
    requires IsLife(log, ss, steps) && i < |ss|
    ensures Sound(log, ss[i])
    decreases i
  {
    if i > 0 {
      StoreIsFold(log, ss, steps, i - 1);
      StepKeeps(log, ss[i - 1], steps[i - 1]);
      assert ss[i - 1 + 1] == After(log, ss[i - 1], steps[i - 1]);
    }
  }

  /** Once a life has caught up, it holds exactly the whole log applied once. */
  lemma CaughtUp(log: seq<Command>, ss: seq<Server>, steps: seq<Step>)
    requires IsLife(log, ss, steps) && ss[|steps|].cursor == |log|
    ensures ss[|steps|].disk.store == Fold(log, |log|)
  {
    StoreIsFold(log, ss, steps, |steps|);
  }

  // ----- The objects -----------------------------------------------------------------------

  /** Either back end: one commits index and pair together, the other lives in memory and reports -1. */
  class KVStore {
    const durable: bool
    var kv: Store
    var applied: nat

    constructor (durable: bool)
      ensures this.durable == durable && kv == map[] && applied == 0
    {
      this.durable, kv, applied := durable, map[], 0;
    }

    ghost function Disk(): Durable
      reads this
    {
      Durable(kv, applied)
    }

    method Get(key: Key) returns (value: Value, version: nat, ok: bool)
      ensures ok == (key in kv) && (ok ==> kv[key] == Item(value, version)) && (!ok ==> value == "" && version == 0)
    {
      if key in kv {
        return kv[key].value, kv[key].version, true;
      }
      return "", 0, false;
    }

    method Put(index: nat, key: Key, value: Value, version: nat)
      modifies this
      ensures kv == old(kv)[key := Item(value, version)]
      ensures applied == if durable then index else old(applied)
    {
      kv := kv[key := Item(value, version)];
      if durable {
        applied := index;
      }
    }

    method AppliedIndex() returns (i: int)
      ensures i == if durable then applied else -1
    {
      i := if durable then applied else -1;
    }
  }

  class KVServer {
    const store: KVStore

    constructor (store: KVStore)
      ensures this.store == store
    {
      this.store := store;
    }

    method DoGet(key: Key) returns (reply: GetReply)
      ensures reply == Get(store.kv, key)
    {
      var value, version, ok := store.Get(key);
      if ok {
        return GetReply(value, version, OK);
      }
      return GetReply("", 0, ErrNoKey);
    }

    method DoPut(index: nat, key: Key, value: Value, version: nat) returns (err: Err)
      modifies store
      ensures store.kv == PutStore(old(store.kv), key, value, version) && err == PutErr(old(store.kv), key, version)
      ensures store.applied == if store.durable && err == OK then index else old(store.applied)
    {
      var _, current, ok := store.Get(key);
      if ok {
        if version == current {
          store.Put(index, key, value, current + 1);
          return OK;
        }
        return ErrVersion;
      }
      if version == 0 {
        store.Put(index, key, value, 1);
        return OK;
      }
      return ErrNoKey;
    }

    method DoOp(index: nat, c: Command) returns (reply: Reply)
      modifies store
      ensures store.durable ==> (store.Disk(), reply) == Delivered(old(store.Disk()), index, c)
      ensures !store.durable ==> store.kv == Effect(old(store.kv), c) && reply == Answer(old(store.kv), c)
    {
      var applied := store.AppliedIndex();
      if index <= applied {
        return Skipped;
      }
      match c
      case GetCommand(key) =>
        var r := DoGet(key);
        reply := Read(r);
      case PutCommand(key, value, version) =>
        var err := DoPut(index, key, value, version);
        reply := Wrote(err);
    }

    /** Deliver the commands after snapshotIndex again, and on to the end of the log. */
    method Replay(log: seq<Command>, ghost high: nat, snapshotIndex: nat)
      requires store.durable && snapshotIndex <= high <= |log| && store.Disk() == Ideal(log, high)
      modifies store
      ensures store.Disk() == Ideal(log, |log|)
    {
      ghost var s := Server(store.Disk(), high, snapshotIndex);
      for i := snapshotIndex to |log|
        invariant s.cursor == i && Sound(log, s) && store.Disk() == s.disk
      {
        StepKeeps(log, s, Deliver);
        var reply := DoOp(i + 1, log[i]);
        s := After(log, s, Deliver);
      }
    }
  }
}
