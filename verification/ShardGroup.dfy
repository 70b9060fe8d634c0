/**
 One shard group as a value: the pairs it stores, and for every shard whether it serves it and the
 number of the configuration that last touched it.  The operations are those its replicated log
 executes.
 */
module ShardGroup {
  import opened RaftTypes
  import opened VersionedMap

  const NSHARDS: nat := 12
  const FIRST_NUM: nat := 1

  type Gid = nat

  /** The boot group, which owns every shard to begin with. */
  const GID1: Gid := 1

  /** The hash that spreads keys over shards; nothing is known of it. */
  type Hash = Key -> nat

  function ShardOf(h: Hash, k: Key): (s: nat)
    ensures s < NSHARDS
  {
    h(k) % NSHARDS
  }

  datatype ShardState = NotOwned | Ready | Frozen

  datatype Group = Group(store: Store, states: seq<ShardState>, nums: seq<nat>) {
    predicate Valid() {
      |states| == NSHARDS && |nums| == NSHARDS
    }
  }

  function FreshGroup(gid: Gid): (g: Group)
    ensures g.Valid()
  {
    Group(map[], seq(NSHARDS, _ => if gid == GID1 then Ready else NotOwned), seq(NSHARDS, _ => FIRST_NUM))
  }

  /** The pairs of one shard. */
  function Part(h: Hash, m: Store, s: nat): Store {
    map k | k in m && ShardOf(h, k) == s :: m[k]
  }

  /** What travels with a freeze reply: nothing at all if the request was out of date. */
  type Dump = Option<Store>

  // ----- Client operations -----------------------------------------------------------------

  function DoGet(h: Hash, g: Group, k: Key): GetReply
    requires g.Valid()
  {
    if g.states[ShardOf(h, k)] != Ready then GetReply("", 0, ErrWrongGroup) else Get(g.store, k)
  }

  function DoPut(h: Hash, g: Group, k: Key, v: Value, version: nat): (r: (Group, Err))
    requires g.Valid()
    ensures r.0.Valid()
  {
    if g.states[ShardOf(h, k)] != Ready then (g, ErrWrongGroup)
    else (g.(store := PutStore(g.store, k, v, version)), PutErr(g.store, k, version))
  }

  // ----- Migration operations --------------------------------------------------------------

  function DoFreeze(h: Hash, g: Group, s: nat, num: nat): (r: (Group, Dump))
    requires g.Valid() && s < NSHARDS
    ensures r.0.Valid()
  {
    if num < g.nums[s] then (g, None)
    else (g.(states := g.states[s := Frozen], nums := g.nums[s := num]), Some(Part(h, g.store, s)))
  }

  function Loaded(m: Store, dump: Dump): Store {
    if dump == None then m else m + dump.value
  }

  function DoInstall(g: Group, s: nat, dump: Dump, num: nat): (r: Group)
    requires g.Valid() && s < NSHARDS
    ensures r.Valid()
  {
    if num <= g.nums[s] then g
    else Group(Loaded(g.store, dump), g.states[s := Ready], g.nums[s := num])
  }

  /** The store without the pairs of shard s. */
  function Without(h: Hash, m: Store, s: nat): Store {
    map k | k in m && ShardOf(h, k) != s :: m[k]
  }

  function DoDelete(h: Hash, g: Group, s: nat, num: nat): (r: Group)
    requires g.Valid() && s < NSHARDS
    ensures r.Valid()
  {
    if num < g.nums[s] then g
    else Group(Without(h, g.store, s), g.states[s := NotOwned], g.nums[s := num])
  }

  // ----- What an operation on one shard leaves alone ----------------------------------------

  /** Everything a group knows of one shard. */
  datatype Cell = Cell(state: ShardState, num: nat, data: Store)

  function CellAt(h: Hash, g: Group, s: nat): Cell
    requires g.Valid() && s < NSHARDS
  {
    Cell(g.states[s], g.nums[s], Part(h, g.store, s))
  }

  lemma FreezeCells(h: Hash, g: Group, s: nat, num: nat, t: nat)
    requires g.Valid() && s < NSHARDS && t < NSHARDS
    ensures var c := CellAt(h, g, t);
            CellAt(h, DoFreeze(h, g, s, num).0, t) == if t == s && num >= c.num then Cell(Frozen, num, c.data) else c
  {
  }

  /** Installing a dump of shard s adds its pairs to what is there. */
  lemma InstallLoads(h: Hash, g: Group, s: nat, dump: Dump, num: nat, t: nat)
    requires g.Valid() && s < NSHARDS && t < NSHARDS
    requires dump.Some? ==> Part(h, dump.value, s) == dump.value
    ensures var c := CellAt(h, g, t);
            CellAt(h, DoInstall(g, s, dump, num), t) ==
            if t == s && num > c.num then Cell(Ready, num, Loaded(c.data, dump)) else c
  {
    var r := DoInstall(g, s, dump, num);
    if num > g.nums[s] && dump.Some? {
      assert forall k :: k in dump.value ==> k in Part(h, dump.value, s);
      if t == s {
        assert Part(h, r.store, s) == Part(h, g.store, s) + dump.value;
      } else {
        assert Part(h, r.store, t) == Part(h, g.store, t);
      }
    }
  }

  lemma InstallCells(h: Hash, g: Group, s: nat, dump: Dump, num: nat, t: nat)
    requires g.Valid() && s < NSHARDS && t < NSHARDS
    requires dump.Some? ==> Part(h, dump.value, s) == dump.value
    requires num > g.nums[s] ==> Part(h, g.store, s) == map[]
    ensures var c := CellAt(h, g, t);
            CellAt(h, DoInstall(g, s, dump, num), t) ==
            if t == s && num > c.num then Cell(Ready, num, if dump.Some? then dump.value else map[]) else c
  {
    InstallLoads(h, g, s, dump, num, t);
    assert dump.Some? ==> map[] + dump.value == dump.value;
  }

  lemma DeleteCells(h: Hash, g: Group, s: nat, num: nat, t: nat)
    requires g.Valid() && s < NSHARDS && t < NSHARDS
    ensures var c := CellAt(h, g, t);
            CellAt(h, DoDelete(h, g, s, num), t) == if t == s && num >= c.num then Cell(NotOwned, num, map[]) else c
  {
    var r := DoDelete(h, g, s, num);
    if num >= g.nums[s] {
      if t == s {
        assert Part(h, r.store, s) == map[];
      } else {
        assert Part(h, r.store, t) == Part(h, g.store, t);
      }
    }
  }

  /** A write touches the data of its own shard only, and there as it would touch the whole map. */
  lemma PutCells(h: Hash, g: Group, k: Key, v: Value, version: nat, t: nat)
    requires g.Valid() && t < NSHARDS
    ensures var c := CellAt(h, g, t);
            CellAt(h, DoPut(h, g, k, v, version).0, t) ==
            if t == ShardOf(h, k) && c.state == Ready then c.(data := PutStore(c.data, k, v, version)) else c
  {
    var r := DoPut(h, g, k, v, version).0;
    PartOfPut(h, g.store, k, v, version, t);
  }

  lemma PartOfPut(h: Hash, m: Store, k: Key, v: Value, version: nat, t: nat)
    ensures Part(h, PutStore(m, k, v, version), t) ==
            if t == ShardOf(h, k) then PutStore(Part(h, m, t), k, v, version) else Part(h, m, t)
    ensures t == ShardOf(h, k) ==> PutErr(Part(h, m, t), k, version) == PutErr(m, k, version)
    ensures t == ShardOf(h, k) ==> Get(Part(h, m, t), k) == Get(m, k)
  {
  }
}
