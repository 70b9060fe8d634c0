/**
 No shard is split and none is lost: what the migration steps keep true of every shard, provided
 every migration is one that may be begun.
 */
module ShardMigration {
  import opened RaftTypes
  import opened VersionedMap
  import opened ShardGroup
  import opened ShardControl
  import opened ShardConfigs

  /** The part of the world the facts about shards depend on. */
  datatype Core = Core(hash: Hash, groups: map<Gid, Group>, accepted: map<nat, Config>, published: nat, spec: Store)

  function CoreOf(w: World): Core {
    Core(w.hash, w.groups, w.accepted, Published(w), w.spec)
  }

  predicate CoreValid(k: Core) {
    && (forall g :: g in k.groups ==> k.groups[g].Valid())
    && (forall m :: m in k.accepted ==> WellFormed(k.accepted[m]))
    && k.published in k.accepted && 0 !in k.accepted
    && (forall m: nat :: 1 <= m <= k.published ==> m in k.accepted)
  }

  /** What group g knows of shard s. */
  function CellOf(k: Core, g: Gid, s: nat): Cell
    requires CoreValid(k) && s < NSHARDS
  {
    CellAt(k.hash, if g in k.groups then k.groups[g] else FreshGroup(g), s)
  }

  /** The pairs the clients should see in shard s. */
  function Truth(k: Core, s: nat): Store {
    Part(k.hash, k.spec, s)
  }

  function Owner(k: Core, m: nat, s: nat): Gid
    requires CoreValid(k) && m in k.accepted && s < NSHARDS
  {
    k.accepted[m].shards[s]
  }

  /** Where the shard is to go next; it stays if no further configuration is known. */
  function Heir(k: Core, s: nat): Gid
    requires CoreValid(k) && s < NSHARDS
  {
    if k.published + 1 in k.accepted then Owner(k, k.published + 1, s) else Owner(k, k.published, s)
  }

  // ----- One shard -------------------------------------------------------------------------

  /** Only h may serve s, and only h and x may hold any pair of it. */
  ghost predicate Lone(k: Core, s: nat, h: Gid, x: Gid)
    requires CoreValid(k) && s < NSHARDS
  {
    forall g: Gid :: g != h ==> CellOf(k, g, s).state != Ready && (g != x ==> CellOf(k, g, s).data == map[])
  }

  /** Apart from a and b, no group has been touched by a configuration after `top`. */
  ghost predicate Low(k: Core, s: nat, a: Gid, b: Gid, top: nat)
    requires CoreValid(k) && s < NSHARDS
  {
    forall g: Gid :: g != a && g != b ==> CellOf(k, g, s).num <= top
  }

  /** The highest number that can have touched a shard at home: the next one too, if it leaves the shard there. */
  function Ceiling(k: Core, s: nat): nat
    requires CoreValid(k) && s < NSHARDS
  {
    if k.published + 1 in k.accepted && Heir(k, s) == Owner(k, k.published, s) then k.published + 1 else k.published
  }

  /** The owner serves, and the shard is nowhere else. */
  ghost predicate AtHome(k: Core, s: nat)
    requires CoreValid(k) && s < NSHARDS
  {
    var top, o := Ceiling(k, s), Owner(k, k.published, s);
    var c := CellOf(k, o, s);
    c.state == Ready && c.num <= top && c.data == Truth(k, s) && Lone(k, s, o, o) && Low(k, s, o, o, top)
  }

  /** The owner is frozen and holds the only copy. */
  ghost predicate InTransit(k: Core, s: nat)
    requires CoreValid(k) && s < NSHARDS
  {
    var n, o := k.published, Owner(k, k.published, s);
    var c := CellOf(k, o, s);
    c.state == Frozen && c.num == n + 1 && c.data == Truth(k, s) && Lone(k, s, o, o) && Low(k, s, o, o, n)
  }

  /** The heir serves; the old owner may still hold a stale copy. */
  ghost predicate Arrived(k: Core, s: nat)
    requires CoreValid(k) && s < NSHARDS
  {
    var n, o, d := k.published, Owner(k, k.published, s), Heir(k, s);
    var c := CellOf(k, d, s);
    && o != d && c.state == Ready && c.num == n + 1 && c.data == Truth(k, s)
    && CellOf(k, o, s).num == n + 1 && Lone(k, s, d, o) && Low(k, s, d, o, n + 1)
  }

  ghost predicate ShardOk(k: Core, s: nat)
    requires CoreValid(k) && s < NSHARDS
  {
    AtHome(k, s) || (Owner(k, k.published, s) != Heir(k, s) && InTransit(k, s)) || Arrived(k, s)
  }

  // ----- What requests, answers and controllers know ---------------------------------------

  /** Configuration m and the one before it are known, and m is at most the one after the published. */
  predicate Known(k: Core, m: nat) {
    m >= 1 && m - 1 in k.accepted && m in k.accepted && m <= k.published + 1
  }

  /** Shard s changes hands with configuration m. */
  predicate Moving(k: Core, m: nat, s: nat)
    requires CoreValid(k) && s < NSHARDS
  {
    Known(k, m) && Owner(k, m - 1, s) != Owner(k, m, s)
  }

  predicate Reached(k: Core, g: Gid, s: nat, m: nat)
    requires CoreValid(k) && s < NSHARDS
  {
    CellOf(k, g, s).num >= m
  }

  /** The dump is the shard, or it comes too late to matter. */
  predicate DumpOk(k: Core, s: nat, m: nat, dump: Dump)
    requires CoreValid(k) && s < NSHARDS && Moving(k, m, s)
  {
    Reached(k, Owner(k, m, s), s, m) || (Reached(k, Owner(k, m - 1, s), s, m) && dump == Some(Truth(k, s)))
  }

  /** Configuration m is done with shard s. */
  predicate Cleared(k: Core, s: nat, m: nat)
    requires CoreValid(k) && s < NSHARDS && Moving(k, m, s)
  {
    && Reached(k, Owner(k, m, s), s, m) && Reached(k, Owner(k, m - 1, s), s, m)
    && (m <= k.published || CellOf(k, Owner(k, m - 1, s), s).data == map[])
  }

  /** Configuration m has nothing more to do for shard s. */
  predicate Settled(k: Core, s: nat, m: nat)
    requires CoreValid(k) && s < NSHARDS
  {
    Known(k, m) && (Moving(k, m, s) ==> Cleared(k, s, m))
  }

  /** A request of the move of a shard with configuration m. */
  predicate Proper(k: Core, r: Request)
    requires CoreValid(k)
  {
    && r.shard < NSHARDS && Moving(k, r.num, r.shard)
    && match r
       case Freeze(g, s, m) => g == Owner(k, m - 1, s)
       case Install(g, s, m, dump) => g == Owner(k, m, s) && DumpOk(k, s, m, dump)
       case Delete(g, s, m) => g == Owner(k, m - 1, s) && Reached(k, Owner(k, m, s), s, m)
  }

  /** The dump brings nothing, or comes too late to matter. */
  predicate Harmless(k: Core, s: nat, m: nat, dump: Dump)
    requires CoreValid(k) && s < NSHARDS && Known(k, m)
  {
    dump == None || dump == Some(map[]) || Reached(k, Owner(k, m, s), s, m)
  }

  /** A request for a shard that configuration m leaves where it is, or has moved already. */
  predicate Spare(k: Core, r: Request)
    requires CoreValid(k)
  {
    && r.shard < NSHARDS && Settled(k, r.shard, r.num)
    && match r
       case Freeze(g, s, m) => g != Owner(k, m, s)
       case Install(g, s, m, dump) => g == Owner(k, m, s) && Harmless(k, s, m, dump)
       case Delete(g, s, m) => g != Owner(k, m, s)
  }

  predicate RequestOk(k: Core, r: Request)
    requires CoreValid(k)
  {
    Proper(k, r) || Spare(k, r)
  }

  predicate AnswerOk(k: Core, a: Answer)
    requires CoreValid(k)
  {
    && RequestOk(k, a.request)
    && (Proper(k, a.request) ==>
          match a.request
          case Freeze(g, s, m) => DumpOk(k, s, m, a.dump)
          case Install(g, s, m, dump) => Reached(k, g, s, m)
          case Delete(g, s, m) => Cleared(k, s, m))
    && (Spare(k, a.request) && a.request.Freeze? ==> Harmless(k, a.request.shard, a.request.num, a.dump))
  }

  /** The migration to m is done with the shards below s. */
  ghost predicate DoneBelow(k: Core, m: nat, s: nat)
    requires CoreValid(k)
  {
    forall t: nat :: t < s && t < NSHARDS && Moving(k, m, t) ==> Cleared(k, t, m)
  }

  /**
   A migration from cur to n does what configuration n asks for in shard t: the shard is not to move, or
   has moved, or is where cur says.
   */
  predicate Aligned(k: Core, cur: Config, n: Config, t: nat)
    requires CoreValid(k) && WellFormed(cur) && t < NSHARDS
  {
    Moving(k, n.num, t) ==> cur.shards[t] == Owner(k, n.num - 1, t) || Cleared(k, t, n.num)
  }

  /** A migration from cur to n may be started. */
  ghost predicate StartOk(k: Core, cur: Config, n: Config)
    requires CoreValid(k)
  {
    WellFormed(cur) && Official(k.accepted, n) && Known(k, n.num) && forall t: nat :: t < NSHARDS ==> Aligned(k, cur, n, t)
  }

  /** The call a migrating controller is waiting for is one of the three for the shard it is at. */
  predicate CallFits(x: Controller)
    requires x.Migrating? && x.call.Some?
  {
    var r := x.call.value;
    && WellFormed(x.cur) && WellFormed(x.new_) && x.shard < NSHARDS && r.shard == x.shard && r.num == x.new_.num
    && x.cur.shards[x.shard] != x.new_.shards[x.shard]
    && r.gid == if r.Install? then x.new_.shards[x.shard] else x.cur.shards[x.shard]
  }

  ghost predicate ProgressOk(k: Core, sent: set<Request>, x: Controller)
    requires CoreValid(k)
  {
    x.Migrating? ==>
      && StartOk(k, x.cur, x.new_) && DoneBelow(k, x.new_.num, x.shard)
      && (x.call.Some? ==> x.call.value in sent && CallFits(x))
  }

  ghost predicate PublicationOk(k: Core, p: Write)
    requires CoreValid(k)
  {
    p.slot == Cfg ==> p.config.num <= k.published + 1 && DoneBelow(k, p.config.num, NSHARDS)
  }

  /** A serving group serves by virtue of the configuration it names. */
  ghost predicate ReadyOk(k: Core)
    requires CoreValid(k)
  {
    forall g: Gid, s: nat :: s < NSHARDS && CellOf(k, g, s).state == Ready ==>
      CellOf(k, g, s).num in k.accepted && Owner(k, CellOf(k, g, s).num, s) == g
  }

  ghost predicate PastOk(k: Core)
    requires CoreValid(k)
  {
    forall m: nat :: m <= k.published ==> DoneBelow(k, m, NSHARDS)
  }

  ghost predicate CoreInv(k: Core) {
    && CoreValid(k)
    && (forall s: nat :: s < NSHARDS ==> ShardOk(k, s))
    && ReadyOk(k) && PastOk(k)
  }

  ghost predicate DataInv(w: World) {
    var k := CoreOf(w);
    && ConfigInv(w) && CoreInv(k)
    && (forall r :: r in w.sent ==> RequestOk(k, r))
    && (forall a :: a in w.answers ==> AnswerOk(k, a))
    && (forall c :: c in w.controllers ==> ProgressOk(k, w.sent, w.controllers[c]))
    && (forall p :: p in w.writes ==> PublicationOk(k, p))
  }

  // ----- Facts that last -------------------------------------------------------------------

  /** Nothing known about requests is lost from k to k'. */
  ghost predicate Lasting(k: Core, k': Core)
    requires CoreValid(k) && CoreValid(k')
  {
    && k.published <= k'.published
    && (forall m :: m in k.accepted ==> m in k'.accepted && k'.accepted[m] == k.accepted[m])
    && (forall g: Gid, s: nat :: s < NSHARDS ==> CellOf(k, g, s).num <= CellOf(k', g, s).num)
    && (forall s: nat, m: nat :: s < NSHARDS && Moving(k, m, s) && Cleared(k, s, m) ==> Moving(k', m, s) && Cleared(k', s, m))
    && (forall s: nat, m: nat, dump :: s < NSHARDS && Moving(k, m, s) && DumpOk(k, s, m, dump) ==>
          Moving(k', m, s) && DumpOk(k', s, m, dump))
  }

  lemma KnownLasts(k: Core, k': Core, m: nat)
    requires CoreValid(k) && CoreValid(k') && Lasting(k, k') && Known(k, m)
    ensures Known(k', m)
    ensures forall s: nat :: s < NSHARDS ==> Owner(k', m, s) == Owner(k, m, s) && Owner(k', m - 1, s) == Owner(k, m - 1, s)
    ensures forall s: nat :: s < NSHARDS ==> (Moving(k', m, s) <==> Moving(k, m, s))
  {
    hide Cleared, DumpOk;
  }

  lemma ReachedLasts(k: Core, k': Core, g: Gid, s: nat, m: nat)
    requires CoreValid(k) && CoreValid(k') && Lasting(k, k') && s < NSHARDS && Reached(k, g, s, m)
    ensures Reached(k', g, s, m)
  {
    hide Cleared, DumpOk;
  }

  lemma ClearedLasts(k: Core, k': Core, s: nat, m: nat)
    requires CoreValid(k) && CoreValid(k') && Lasting(k, k') && s < NSHARDS && Moving(k, m, s) && Cleared(k, s, m)
    ensures Moving(k', m, s) && Cleared(k', s, m)
  {
    hide Cleared, DumpOk;
  }

  lemma DumpLasts(k: Core, k': Core, s: nat, m: nat, dump: Dump)
    requires CoreValid(k) && CoreValid(k') && Lasting(k, k') && s < NSHARDS && Moving(k, m, s) && DumpOk(k, s, m, dump)
    ensures Moving(k', m, s) && DumpOk(k', s, m, dump)
  {
    hide Cleared, DumpOk;
  }

  lemma SettledLasts(k: Core, k': Core, s: nat, m: nat)
    requires CoreValid(k) && CoreValid(k') && Lasting(k, k') && s < NSHARDS && Settled(k, s, m)
    ensures Settled(k', s, m)
  {
    hide Lasting, Cleared;
    KnownLasts(k, k', m);
    if Moving(k, m, s) {
      ClearedLasts(k, k', s, m);
    }
  }

  lemma HarmlessLasts(k: Core, k': Core, s: nat, m: nat, dump: Dump)
    requires CoreValid(k) && CoreValid(k') && Lasting(k, k') && s < NSHARDS && Known(k, m) && Harmless(k, s, m, dump)
    ensures Known(k', m) && Harmless(k', s, m, dump)
  {
    hide Lasting, Reached;
    KnownLasts(k, k', m);
    if Reached(k, Owner(k, m, s), s, m) {
      ReachedLasts(k, k', Owner(k, m, s), s, m);
    }
  }

  lemma ProperLasts(k: Core, k': Core, r: Request)
    requires CoreValid(k) && CoreValid(k') && Lasting(k, k') && Proper(k, r)
    ensures Proper(k', r)
  {
    hide Lasting, Reached, DumpOk;
    KnownLasts(k, k', r.num);
    match r
    case Freeze(g, s, m) =>
    case Install(g, s, m, dump) => DumpLasts(k, k', s, m, dump);
    case Delete(g, s, m) => ReachedLasts(k, k', Owner(k, m, s), s, m);
  }

  lemma SpareLasts(k: Core, k': Core, r: Request)
    requires CoreValid(k) && CoreValid(k') && Lasting(k, k') && Spare(k, r)
    ensures Spare(k', r)
  {
    hide Lasting, Harmless, Settled, Cleared;
    SettledKnown(k, r.shard, r.num);
    KnownLasts(k, k', r.num);
    SettledLasts(k, k', r.shard, r.num);
    if r.Install? {
      HarmlessLasts(k, k', r.shard, r.num, r.dump);
    }
  }

  lemma SettledKnown(k: Core, s: nat, m: nat)
    requires CoreValid(k) && s < NSHARDS && Settled(k, s, m)
    ensures Known(k, m)
  {
  }

  lemma RequestLasts(k: Core, k': Core, r: Request)
    requires CoreValid(k) && CoreValid(k') && Lasting(k, k') && RequestOk(k, r)
    ensures RequestOk(k', r)
  {
    hide Lasting, Proper, Spare;
    if Proper(k, r) {
      ProperLasts(k, k', r);
    } else {
      SpareLasts(k, k', r);
    }
  }

  /** A proper request has been proper ever since it was sent. */
  lemma WasProper(k: Core, k': Core, r: Request)
    requires CoreValid(k) && CoreValid(k') && Lasting(k, k') && RequestOk(k, r) && Proper(k', r)
    ensures Proper(k, r)
  {
    hide Lasting;
    KnownBefore(k, r);
    KnownLasts(k, k', r.num);
  }

  lemma KnownBefore(k: Core, r: Request)
    requires CoreValid(k) && RequestOk(k, r)
    ensures r.shard < NSHARDS && Known(k, r.num)
  {
  }

  lemma AnswerLasts(k: Core, k': Core, a: Answer)
    requires CoreValid(k) && CoreValid(k') && Lasting(k, k') && AnswerOk(k, a)
    ensures AnswerOk(k', a)
  {
    hide Lasting, Proper, Spare, RequestOk, Harmless, DumpOk, Cleared, Reached;
    RequestLasts(k, k', a.request);
    KnownBefore(k', a.request);
    if Proper(k', a.request) {
      ProperAnswerLasts(k, k', a);
    }
    if Spare(k', a.request) && a.request.Freeze? {
      SpareAnswerLasts(k, k', a);
    }
  }

  lemma ProperAnswerLasts(k: Core, k': Core, a: Answer)
    requires CoreValid(k) && CoreValid(k') && Lasting(k, k') && AnswerOk(k, a) && Proper(k', a.request)
    ensures match a.request
            case Freeze(g, s, m) => DumpOk(k', s, m, a.dump)
            case Install(g, s, m, dump) => Reached(k', g, s, m)
            case Delete(g, s, m) => Cleared(k', s, m)
  {
    hide Lasting, Spare, Harmless, DumpOk, Cleared, Reached;
    WasProper(k, k', a.request);
    match a.request
    case Freeze(g, s, m) => DumpLasts(k, k', s, m, a.dump);
    case Install(g, s, m, dump) => ReachedLasts(k, k', g, s, m);
    case Delete(g, s, m) => ClearedLasts(k, k', s, m);
  }

  lemma SpareAnswerLasts(k: Core, k': Core, a: Answer)
    requires CoreValid(k) && CoreValid(k') && Lasting(k, k') && AnswerOk(k, a) && Spare(k', a.request) && a.request.Freeze?
    ensures Known(k', a.request.num) && Harmless(k', a.request.shard, a.request.num, a.dump)
  {
    hide Lasting;
    KnownBefore(k, a.request);
    KnownLasts(k, k', a.request.num);
    if !Moving(k, a.request.num, a.request.shard) {
      HarmlessLasts(k, k', a.request.shard, a.request.num, a.dump);
    }
  }

  lemma DoneLasts(k: Core, k': Core, m: nat, s: nat)
    requires CoreValid(k) && CoreValid(k') && Lasting(k, k') && DoneBelow(k, m, s)
    requires m <= k.published + 1 && m in k.accepted && (m >= 2 ==> m - 1 in k.accepted)
    ensures DoneBelow(k', m, s)
  {
    hide Cleared, DumpOk;
    forall t: nat | t < s && t < NSHARDS && Moving(k', m, t)
      ensures Cleared(k', t, m)
    {
      assert Moving(k, m, t);
    }
  }

  lemma StartLasts(k: Core, k': Core, cur: Config, n: Config)
    requires CoreValid(k) && CoreValid(k') && Lasting(k, k') && StartOk(k, cur, n)
    ensures StartOk(k', cur, n)
  {
    hide Cleared, Lasting;
    KnownLasts(k, k', n.num);
    OfficialLasts(k, k', n);
    forall t: nat | t < NSHARDS
      ensures Aligned(k', cur, n, t)
    {
      assert Aligned(k, cur, n, t);
      if Moving(k, n.num, t) && Cleared(k, t, n.num) {
        ClearedLasts(k, k', t, n.num);
      }
    }
  }

  lemma OfficialLasts(k: Core, k': Core, c: Config)
    requires CoreValid(k) && CoreValid(k') && Lasting(k, k') && Official(k.accepted, c)
    ensures Official(k'.accepted, c)
  {
    hide Cleared, DumpOk;
  }

  // ----- Executing a request ---------------------------------------------------------------

  /** From k to k' only what g knows of s has changed, to c. */
  ghost predicate OneCell(k: Core, k': Core, g: Gid, s: nat, c: Cell) {
    && CoreValid(k) && CoreValid(k') && s < NSHARDS
    && k' == k.(groups := k'.groups)
    && forall h: Gid, t: nat :: t < NSHARDS ==> CellOf(k', h, t) == if h == g && t == s then c else CellOf(k, h, t)
  }

  function GroupIn(k: Core, g: Gid): (x: Group)
    requires CoreValid(k)
    ensures x.Valid()
  {
    if g in k.groups then k.groups[g] else FreshGroup(g)
  }

  function WithGroup(k: Core, g: Gid, x: Group): Core {
    k.(groups := k.groups[g := x])
  }

  lemma FreezeChanges(k: Core, g: Gid, s: nat, m: nat)
    requires CoreValid(k) && s < NSHARDS
    ensures var c := CellOf(k, g, s);
            OneCell(k, WithGroup(k, g, DoFreeze(k.hash, GroupIn(k, g), s, m).0), g, s,
                    if m < c.num then c else Cell(Frozen, m, c.data))
  {
    forall t: nat | t < NSHARDS {
      FreezeCells(k.hash, GroupIn(k, g), s, m, t);
    }
  }

  lemma DeleteChanges(k: Core, g: Gid, s: nat, m: nat)
    requires CoreValid(k) && s < NSHARDS
    ensures var c := CellOf(k, g, s);
            OneCell(k, WithGroup(k, g, DoDelete(k.hash, GroupIn(k, g), s, m)), g, s,
                    if m < c.num then c else Cell(NotOwned, m, map[]))
  {
    forall t: nat | t < NSHARDS {
      DeleteCells(k.hash, GroupIn(k, g), s, m, t);
    }
  }

  lemma InstallChanges(k: Core, g: Gid, s: nat, m: nat, dump: Dump)
    requires CoreValid(k) && s < NSHARDS
    requires m > CellOf(k, g, s).num ==> CellOf(k, g, s).data == map[] && dump == Some(Truth(k, s))
    ensures var c := CellOf(k, g, s);
            OneCell(k, WithGroup(k, g, DoInstall(GroupIn(k, g), s, dump, m)), g, s,
                    if m <= c.num then c else Cell(Ready, m, Truth(k, s)))
  {
    assert Part(k.hash, Truth(k, s), s) == Truth(k, s);
    if m > CellOf(k, g, s).num {
      forall t: nat | t < NSHARDS {
        InstallCells(k.hash, GroupIn(k, g), s, dump, m, t);
      }
    }
  }

  lemma SameShard(k: Core, k': Core, t: nat)
    requires CoreValid(k) && CoreValid(k') && t < NSHARDS && ShardOk(k, t)
    requires k'.accepted == k.accepted && k'.published == k.published && Truth(k', t) == Truth(k, t)
    requires forall g: Gid :: CellOf(k', g, t) == CellOf(k, g, t)
    ensures ShardOk(k', t)
  {
    assert Owner(k', k'.published, t) == Owner(k, k.published, t) && Heir(k', t) == Heir(k, t);
    if AtHome(k, t) {
      assert AtHome(k', t);
    } else if InTransit(k, t) {
      assert InTransit(k', t);
    } else {
      assert Arrived(k', t);
    }
  }

  lemma OtherShard(k: Core, k': Core, g: Gid, s: nat, c: Cell, t: nat)
    requires OneCell(k, k', g, s, c) && t < NSHARDS && t != s && ShardOk(k, t)
    ensures ShardOk(k', t)
  {
    hide ShardOk;
    SameShard(k, k', t);
  }

  lemma SameBases(k: Core, k': Core, g: Gid, s: nat, c: Cell)
    requires OneCell(k, k', g, s, c)
    ensures Owner(k', k'.published, s) == Owner(k, k.published, s) && Heir(k', s) == Heir(k, s) && Ceiling(k', s) == Ceiling(k, s)
    ensures Truth(k', s) == Truth(k, s)
  {
  }

  /** A cell that neither serves nor holds anything does not matter to a shard at home. */
  lemma HomeStands(k: Core, k': Core, g: Gid, s: nat, c: Cell)
    requires OneCell(k, k', g, s, c) && AtHome(k, s) && g != Owner(k, k.published, s)
    requires c.state != Ready && c.data == map[] && c.num <= Ceiling(k, s)
    ensures AtHome(k', s)
  {
    hide Ceiling, Heir, Owner;
    SameBases(k, k', g, s, c);
  }

  lemma TransitStands(k: Core, k': Core, g: Gid, s: nat, c: Cell)
    requires OneCell(k, k', g, s, c) && InTransit(k, s) && c.state != Ready
    requires if g == Owner(k, k.published, s) then c == CellOf(k, g, s) else c.data == map[] && c.num <= k.published
    ensures InTransit(k', s)
  {
    hide Ceiling, Heir, Owner;
    SameBases(k, k', g, s, c);
  }

  lemma ArrivalStands(k: Core, k': Core, g: Gid, s: nat, c: Cell)
    requires OneCell(k, k', g, s, c) && Arrived(k, s) && g != Heir(k, s) && c.state != Ready
    requires if g == Owner(k, k.published, s) then c.num == k.published + 1 else c.data == map[] && c.num <= k.published + 1
    ensures Arrived(k', s)
  {
    hide Ceiling, Heir, Owner;
    SameBases(k, k', g, s, c);
  }

  /** A cell that does not serve and is not the copy that counts may be refrozen or wiped. */
  lemma Bystander(k: Core, k': Core, g: Gid, s: nat, was: Cell, c: Cell)
    requires OneCell(k, k', g, s, c) && ShardOk(k, s) && was == CellOf(k, g, s)
    requires was.state != Ready && c.state != Ready && c.num == was.num && (c.data == was.data || c.data == map[])
    requires InTransit(k, s) && g == Owner(k, k.published, s) ==> c == was
    ensures ShardOk(k', s)
    ensures InTransit(k, s) ==> InTransit(k', s)
    ensures Arrived(k, s) ==> Arrived(k', s)
  {
    SameBases(k, k', g, s, c);
    if AtHome(k, s) {
      BystanderFacts(k, g, s);
      HomeStands(k, k', g, s, c);
    }
    if InTransit(k, s) {
      BystanderFacts(k, g, s);
      TransitStands(k, k', g, s, c);
    }
    if Arrived(k, s) {
      BystanderFacts(k, g, s);
      ArrivalStands(k, k', g, s, c);
    }
  }

  lemma BystanderFacts(k: Core, g: Gid, s: nat)
    requires CoreValid(k) && s < NSHARDS && CellOf(k, g, s).state != Ready
    ensures AtHome(k, s) ==> g != Owner(k, k.published, s) && CellOf(k, g, s).data == map[] && CellOf(k, g, s).num <= Ceiling(k, s)
    ensures InTransit(k, s) ==> g == Owner(k, k.published, s) || (CellOf(k, g, s).data == map[] && CellOf(k, g, s).num <= k.published)
    ensures Arrived(k, s) ==> g != Heir(k, s)
    ensures Arrived(k, s) && g == Owner(k, k.published, s) ==> CellOf(k, g, s).num == k.published + 1
    ensures Arrived(k, s) && g != Owner(k, k.published, s) ==> CellOf(k, g, s).data == map[] && CellOf(k, g, s).num <= k.published + 1
  {
  }

  /** The source of a configuration's move never serves the shard under that number. */
  lemma SourceIsIdle(k: Core, s: nat, m: nat)
    requires CoreInv(k) && s < NSHARDS && Moving(k, m, s) && CellOf(k, Owner(k, m - 1, s), s).num == m
    ensures CellOf(k, Owner(k, m - 1, s), s).state != Ready
  {
    hide ShardOk, PastOk;
  }

  /** Once configuration m is in the past, both ends of its moves have seen it. */
  lemma PastIsReached(k: Core, s: nat, m: nat)
    requires CoreInv(k) && s < NSHARDS && Moving(k, m, s) && m <= k.published
    ensures Cleared(k, s, m)
  {
    hide ShardOk, ReadyOk;
    assert DoneBelow(k, m, NSHARDS);
  }

  /** The phase of a shard can be read off the numbers at its two ends. */
  lemma PhaseByNumber(k: Core, s: nat)
    requires CoreInv(k) && s < NSHARDS
    ensures var n, o, d := k.published, Owner(k, k.published, s), Heir(k, s);
            && ShardOk(k, s)
            && (o == d || CellOf(k, o, s).num <= n ==> AtHome(k, s))
            && (o != d && CellOf(k, o, s).num > n && CellOf(k, d, s).num <= n ==> InTransit(k, s))
            && (o != d && CellOf(k, d, s).num > n ==> Arrived(k, s))
  {
    hide ReadyOk, PastOk;
    assert ShardOk(k, s);
  }

  /** No move of shard s away from g is done and still to be published. */
  ghost predicate HoldsNothingBack(k: Core, g: Gid, s: nat)
    requires CoreValid(k) && s < NSHARDS
  {
    forall m: nat :: Moving(k, m, s) && g == Owner(k, m - 1, s) && m > k.published ==> !Cleared(k, s, m)
  }

  /** Facts last when numbers do not fall and no cleared source takes data. */
  lemma CellLasts(k: Core, k': Core, g: Gid, s: nat, c: Cell)
    requires OneCell(k, k', g, s, c)
    requires CellOf(k, g, s).num <= c.num
    requires CellOf(k, g, s).data == map[] ==> c.data == map[] || HoldsNothingBack(k, g, s)
    ensures Lasting(k, k')
  {
    hide Cleared, DumpOk, CellOf;
    forall t: nat, m: nat | t < NSHARDS && Moving(k, m, t) && Cleared(k, t, m)
      ensures Moving(k', m, t) && Cleared(k', t, m)
    {
      CellKeepsCleared(k, k', g, s, c, t, m);
    }
    forall t: nat, m: nat, dump | t < NSHARDS && Moving(k, m, t) && DumpOk(k, t, m, dump)
      ensures Moving(k', m, t) && DumpOk(k', t, m, dump)
    {
      CellKeepsDump(k, k', g, s, c, t, m, dump);
    }
  }

  lemma CellKeepsCleared(k: Core, k': Core, g: Gid, s: nat, c: Cell, t: nat, m: nat)
    requires OneCell(k, k', g, s, c) && CellOf(k, g, s).num <= c.num
    requires CellOf(k, g, s).data == map[] ==> c.data == map[] || HoldsNothingBack(k, g, s)
    requires t < NSHARDS && Moving(k, m, t) && Cleared(k, t, m)
    ensures Moving(k', m, t) && Cleared(k', t, m)
  {
    hide CellOf;
  }

  lemma CellKeepsDump(k: Core, k': Core, g: Gid, s: nat, c: Cell, t: nat, m: nat, dump: Dump)
    requires OneCell(k, k', g, s, c) && CellOf(k, g, s).num <= c.num && t < NSHARDS && Moving(k, m, t) && DumpOk(k, t, m, dump)
    ensures Moving(k', m, t) && DumpOk(k', t, m, dump)
  {
    hide CellOf, Cleared;
  }

  lemma CellKeeps(k: Core, k': Core, g: Gid, s: nat, c: Cell)
    requires CoreInv(k) && OneCell(k, k', g, s, c) && ShardOk(k', s) && Lasting(k, k')
    requires c.state == Ready ==> c == CellOf(k, g, s) || (c.num in k.accepted && Owner(k, c.num, s) == g)
    ensures CoreInv(k')
  {
    hide ShardOk, Cleared, DumpOk;
    forall t: nat | t < NSHARDS
      ensures ShardOk(k', t)
    {
      if t != s {
        OtherShard(k, k', g, s, c, t);
      }
    }
    forall m: nat | m <= k'.published
      ensures DoneBelow(k', m, NSHARDS)
    {
      assert DoneBelow(k, m, NSHARDS);
      forall t: nat | t < NSHARDS && Moving(k', m, t)
        ensures Cleared(k', t, m)
      {
        assert Moving(k, m, t);
      }
    }
  }

  lemma NothingChanges(k: Core, k': Core, g: Gid, s: nat)
    requires CoreInv(k) && s < NSHARDS && OneCell(k, k', g, s, CellOf(k, g, s))
    ensures CoreInv(k') && Lasting(k, k')
  {
    hide ShardOk, Cleared, DumpOk, Lasting;
    CellLasts(k, k', g, s, CellOf(k, g, s));
    SameShard(k, k', s);
    CellKeeps(k, k', g, s, CellOf(k, g, s));
  }

  /** Freezing the owner for the next configuration puts the shard in transit. */
  lemma OwnerFreezes(k: Core, k': Core, s: nat)
    requires CoreValid(k) && s < NSHARDS && AtHome(k, s) && Owner(k, k.published, s) != Heir(k, s)
    requires var o := Owner(k, k.published, s); OneCell(k, k', o, s, Cell(Frozen, k.published + 1, CellOf(k, o, s).data))
    ensures InTransit(k', s) && ShardOk(k', s)
  {
    assert Owner(k', k'.published, s) == Owner(k, k.published, s) && Heir(k', s) == Heir(k, s);
  }

  lemma FreezeShardOk(k: Core, k': Core, s: nat, m: nat)
    requires CoreInv(k) && s < NSHARDS && Moving(k, m, s)
    requires var g := Owner(k, m - 1, s); var c := CellOf(k, g, s);
             m >= c.num && OneCell(k, k', g, s, Cell(Frozen, m, c.data))
    ensures ShardOk(k', s)
    ensures Reached(k, Owner(k, m, s), s, m) || CellOf(k, Owner(k, m - 1, s), s).data == Truth(k, s)
  {
    hide ReadyOk, PastOk, Low, Lone, Cleared, DumpOk;
    var g := Owner(k, m - 1, s);
    var was := CellOf(k, g, s);
    PhaseByNumber(k, s);
    if m <= k.published {
      PastIsReached(k, s, m);
      ClearedMeans(k, s, m);
      SourceIsIdle(k, s, m);
      assert InTransit(k, s) ==> g != Owner(k, k.published, s);
      Bystander(k, k', g, s, was, Cell(Frozen, m, was.data));
    } else if was.num <= k.published {
      OwnerFreezes(k, k', s);
    } else {
      SourceIsIdle(k, s, m);
      Bystander(k, k', g, s, was, Cell(Frozen, m, was.data));
    }
  }

  lemma ClearedMeans(k: Core, s: nat, m: nat)
    requires CoreValid(k) && s < NSHARDS && Moving(k, m, s) && Cleared(k, s, m)
    ensures Reached(k, Owner(k, m, s), s, m) && Reached(k, Owner(k, m - 1, s), s, m)
    ensures m <= k.published || CellOf(k, Owner(k, m - 1, s), s).data == map[]
  {
  }

  lemma FreezeKeeps(k: Core, k': Core, s: nat, m: nat)
    requires CoreInv(k) && s < NSHARDS && Moving(k, m, s)
    requires var g := Owner(k, m - 1, s); var c := CellOf(k, g, s);
             OneCell(k, k', g, s, if m < c.num then c else Cell(Frozen, m, c.data))
    ensures CoreInv(k') && Lasting(k, k')
    ensures var c := CellOf(k, Owner(k, m - 1, s), s);
            Moving(k', m, s) && DumpOk(k', s, m, if m < c.num then None else Some(c.data))
  {
    hide ShardOk, ReadyOk, PastOk, Cleared, Lasting;
    var g := Owner(k, m - 1, s);
    var was := CellOf(k, g, s);
    if m < was.num {
      NothingChanges(k, k', g, s);
      LateMeansReached(k, s, m);
    } else {
      CellLastsSame(k, k', g, s, Cell(Frozen, m, was.data));
      FreezeShardOk(k, k', s, m);
      CellKeeps(k, k', g, s, Cell(Frozen, m, was.data));
    }
  }

  /** If the source has moved past m, so has the destination reached it. */
  lemma LateMeansReached(k: Core, s: nat, m: nat)
    requires CoreInv(k) && s < NSHARDS && Moving(k, m, s) && CellOf(k, Owner(k, m - 1, s), s).num > m
    ensures Reached(k, Owner(k, m, s), s, m)
  {
    hide ReadyOk, PastOk, Cleared;
    PhaseByNumber(k, s);
    if m <= k.published {
      PastIsReached(k, s, m);
      ClearedMeans(k, s, m);
    }
  }

  lemma CellLastsSame(k: Core, k': Core, g: Gid, s: nat, c: Cell)
    requires OneCell(k, k', g, s, c) && CellOf(k, g, s).num <= c.num
    requires c.data == CellOf(k, g, s).data || c.data == map[]
    ensures Lasting(k, k')
  {
    hide Lasting, Cleared, DumpOk;
    CellLasts(k, k', g, s, c);
  }

  // ----- Delete and install ----------------------------------------------------------------

  lemma DeleteShardOk(k: Core, k': Core, s: nat, m: nat)
    requires CoreInv(k) && s < NSHARDS && Moving(k, m, s) && Reached(k, Owner(k, m, s), s, m)
    requires var g := Owner(k, m - 1, s); m >= CellOf(k, g, s).num && OneCell(k, k', g, s, Cell(NotOwned, m, map[]))
    ensures ShardOk(k', s) && CellOf(k, Owner(k, m - 1, s), s).num == m
  {
    hide ReadyOk, PastOk, Low, Lone, Cleared, DumpOk;
    var g := Owner(k, m - 1, s);
    var was := CellOf(k, g, s);
    PhaseByNumber(k, s);
    if m <= k.published {
      PastIsReached(k, s, m);
      ClearedMeans(k, s, m);
      assert InTransit(k, s) ==> g != Owner(k, k.published, s);
    } else {
      assert Arrived(k, s);
    }
    SourceIsIdle(k, s, m);
    assert !InTransit(k, s) || g != Owner(k, k.published, s) by {
      if Arrived(k, s) {
        OnePhase(k, s);
      }
    }
    Bystander(k, k', g, s, was, Cell(NotOwned, m, map[]));
  }

  lemma OnePhase(k: Core, s: nat)
    requires CoreValid(k) && s < NSHARDS && Arrived(k, s)
    ensures !InTransit(k, s) && !AtHome(k, s)
  {
  }

  lemma DeleteKeeps(k: Core, k': Core, s: nat, m: nat)
    requires CoreInv(k) && s < NSHARDS && Moving(k, m, s) && Reached(k, Owner(k, m, s), s, m)
    requires var g := Owner(k, m - 1, s); var c := CellOf(k, g, s);
             OneCell(k, k', g, s, if m < c.num then c else Cell(NotOwned, m, map[]))
    ensures CoreInv(k') && Lasting(k, k') && Moving(k', m, s) && Cleared(k', s, m)
  {
    hide ShardOk, ReadyOk, PastOk, Lasting;
    var g := Owner(k, m - 1, s);
    var was := CellOf(k, g, s);
    if m < was.num {
      NothingChanges(k, k', g, s);
      LateMeansPast(k, s, m);
    } else {
      CellLastsSame(k, k', g, s, Cell(NotOwned, m, map[]));
      DeleteShardOk(k, k', s, m);
      CellKeeps(k, k', g, s, Cell(NotOwned, m, map[]));
    }
  }

  lemma LateMeansPast(k: Core, s: nat, m: nat)
    requires CoreInv(k) && s < NSHARDS && Moving(k, m, s) && CellOf(k, Owner(k, m - 1, s), s).num > m
    ensures m <= k.published
  {
    hide ReadyOk, PastOk, Cleared;
    PhaseByNumber(k, s);
  }

  lemma ShardArrives(k: Core, k': Core, s: nat)
    requires CoreValid(k) && s < NSHARDS && InTransit(k, s) && Owner(k, k.published, s) != Heir(k, s)
    requires OneCell(k, k', Heir(k, s), s, Cell(Ready, k.published + 1, Truth(k, s)))
    ensures Arrived(k', s) && ShardOk(k', s)
  {
    assert Owner(k', k'.published, s) == Owner(k, k.published, s) && Heir(k', s) == Heir(k, s);
  }

  /** An install that is not out of date meets an empty place and carries the shard. */
  lemma InstallIsTimely(k: Core, s: nat, m: nat, dump: Dump)
    requires CoreInv(k) && s < NSHARDS && Moving(k, m, s) && DumpOk(k, s, m, dump) && !Reached(k, Owner(k, m, s), s, m)
    ensures m == k.published + 1 && dump == Some(Truth(k, s)) && InTransit(k, s)
    ensures Owner(k, m, s) == Heir(k, s) != Owner(k, k.published, s) && CellOf(k, Owner(k, m, s), s).data == map[]
  {
    hide ReadyOk, PastOk, Cleared;
    PhaseByNumber(k, s);
    if m <= k.published {
      PastIsReached(k, s, m);
      ClearedMeans(k, s, m);
    }
  }

  lemma InstallKeeps(k: Core, k': Core, s: nat, m: nat, dump: Dump)
    requires CoreInv(k) && s < NSHARDS && Moving(k, m, s) && DumpOk(k, s, m, dump)
    requires var g := Owner(k, m, s); var c := CellOf(k, g, s);
             OneCell(k, k', g, s, if m <= c.num then c else Cell(Ready, m, Truth(k, s)))
    ensures CoreInv(k') && Lasting(k, k') && Moving(k', m, s) && Reached(k', Owner(k', m, s), s, m)
  {
    hide CoreInv, ShardOk, ReadyOk, PastOk, Lasting, DumpOk, Cleared, InTransit;
    CoreInvMeansValid(k);
    var g := Owner(k, m, s);
    var was := CellOf(k, g, s);
    if m <= was.num {
      NothingChanges(k, k', g, s);
    } else {
      InstallIsTimely(k, s, m, dump);
      var c := Cell(Ready, m, Truth(k, s));
      NoFurtherMove(k, s, g);
      CellLasts(k, k', g, s, c);
      ShardArrives(k, k', s);
      CellKeeps(k, k', g, s, c);
    }
  }

  /** A group that is not the owner has nothing to give away yet. */
  lemma NoFurtherMove(k: Core, s: nat, g: Gid)
    requires CoreValid(k) && s < NSHARDS && g != Owner(k, k.published, s)
    ensures HoldsNothingBack(k, g, s)
  {
    hide Cleared;
  }

  // ----- Requests that change nothing ------------------------------------------------------

  /** A group untouched since it became owner still is the owner. */
  lemma {:induction false} StaysOwner(k: Core, g: Gid, s: nat, a: nat, b: nat)
    requires CoreInv(k) && s < NSHARDS && 1 <= a <= b <= k.published && Owner(k, a, s) == g && CellOf(k, g, s).num <= a
    ensures Owner(k, b, s) == g
    decreases b
  {
    hide CoreInv;
    CoreInvMeansValid(k);
    if a < b {
      StaysOwner(k, g, s, a, b - 1);
      if Moving(k, b, s) {
        PastIsReached(k, s, b);
        ClearedMeans(k, s, b);
      }
    }
  }

  lemma CoreInvMeansValid(k: Core)
    requires CoreInv(k)
    ensures CoreValid(k)
  {
  }

  /** The owner at home has owned the shard ever since it was last touched. */
  lemma HomeSince(k: Core, s: nat, m: nat)
    requires CoreInv(k) && s < NSHARDS && AtHome(k, s) && m <= k.published && CellOf(k, Owner(k, k.published, s), s).num <= m
    ensures m in k.accepted && Owner(k, m, s) == Owner(k, k.published, s)
  {
    hide PastOk, ShardOk;
    var o := Owner(k, k.published, s);
    var since := CellOf(k, o, s).num;
    assert since in k.accepted && Owner(k, since, s) == o;
    StaysOwner(k, o, s, since, m);
  }

  /** A group that is not the owner under m, and has seen nothing later, neither serves nor holds the shard if m is idle. */
  lemma SpareCell(k: Core, s: nat, m: nat, g: Gid)
    requires CoreInv(k) && s < NSHARDS && Settled(k, s, m) && g != Owner(k, m, s) && CellOf(k, g, s).num <= m
    ensures CellOf(k, g, s).state != Ready && CellOf(k, g, s).data == map[]
    ensures InTransit(k, s) && Owner(k, k.published, s) != Heir(k, s) ==> g != Owner(k, k.published, s) && m <= k.published
    ensures AtHome(k, s) ==> g != Owner(k, k.published, s) && m <= Ceiling(k, s)
    ensures Arrived(k, s) ==> g != Heir(k, s)
  {
    hide ReadyOk, PastOk;
    PhaseByNumber(k, s);
    if AtHome(k, s) && g == Owner(k, k.published, s) && m <= k.published {
      HomeSince(k, s, m);
    }
  }

  lemma SpareShardOk(k: Core, k': Core, g: Gid, s: nat, m: nat, state: ShardState)
    requires CoreInv(k) && s < NSHARDS && Settled(k, s, m) && g != Owner(k, m, s) && CellOf(k, g, s).num <= m && state != Ready
    requires OneCell(k, k', g, s, Cell(state, m, map[]))
    ensures ShardOk(k', s)
  {
    hide CoreInv, AtHome, InTransit, Arrived, Ceiling, Cleared;
    var c := Cell(state, m, map[]);
    CoreInvMeansValid(k);
    SpareCell(k, s, m, g);
    SameBases(k, k', g, s, c);
    PhaseByNumber(k, s);
    if AtHome(k, s) {
      HomeStands(k, k', g, s, c);
    } else if InTransit(k, s) && Owner(k, k.published, s) != Heir(k, s) {
      TransitStands(k, k', g, s, c);
    } else {
      BystanderFacts(k, g, s);
      ArrivalStands(k, k', g, s, c);
    }
  }

  /** A spare freeze or delete at any time. */
  lemma SpareKeeps(k: Core, k': Core, g: Gid, s: nat, m: nat, state: ShardState)
    requires CoreInv(k) && s < NSHARDS && Settled(k, s, m) && g != Owner(k, m, s) && CellOf(k, g, s).num <= m && state != Ready
    requires OneCell(k, k', g, s, Cell(state, m, map[]))
    ensures CoreInv(k') && Lasting(k, k')
  {
    hide CoreInv, ShardOk, Lasting, Settled;
    SpareCell(k, s, m, g);
    CellLastsSame(k, k', g, s, Cell(state, m, map[]));
    SpareShardOk(k, k', g, s, m, state);
    CellKeeps(k, k', g, s, Cell(state, m, map[]));
  }

  /** An idle install that passes the fence finds the shard at home there. */
  lemma SpareInstallFinds(k: Core, s: nat, m: nat)
    requires CoreInv(k) && s < NSHARDS && Settled(k, s, m) && CellOf(k, Owner(k, m, s), s).num < m
    ensures AtHome(k, s) && Owner(k, m, s) == Owner(k, k.published, s) && m <= Ceiling(k, s)
  {
    hide ReadyOk, PastOk;
    PhaseByNumber(k, s);
    var d := Owner(k, m, s);
    assert !Moving(k, m, s);
    if m <= k.published {
      SpareOwnerStays(k, s, m);
    }
  }

  lemma SpareOwnerStays(k: Core, s: nat, m: nat)
    requires CoreInv(k) && s < NSHARDS && Known(k, m) && m <= k.published && CellOf(k, Owner(k, m, s), s).num < m
    ensures Owner(k, k.published, s) == Owner(k, m, s)
  {
    hide CoreInv;
    CoreInvMeansValid(k);
    StaysOwner(k, Owner(k, m, s), s, m, k.published);
  }

  lemma SpareInstallShardOk(k: Core, k': Core, s: nat, m: nat)
    requires CoreValid(k) && s < NSHARDS && AtHome(k, s) && m <= Ceiling(k, s)
    requires OneCell(k, k', Owner(k, k.published, s), s, Cell(Ready, m, Truth(k, s)))
    ensures ShardOk(k', s)
  {
    assert Owner(k', k'.published, s) == Owner(k, k.published, s) && Heir(k', s) == Heir(k, s) && Ceiling(k', s) == Ceiling(k, s);
    assert AtHome(k', s);
  }

  lemma SpareInstallKeeps(k: Core, k': Core, s: nat, m: nat)
    requires CoreInv(k) && s < NSHARDS && Settled(k, s, m)
    requires var g := Owner(k, m, s); var c := CellOf(k, g, s);
             OneCell(k, k', g, s, if m <= c.num then c else Cell(Ready, m, c.data))
    ensures CoreInv(k') && Lasting(k, k')
  {
    hide CoreInv, ShardOk, Lasting, Cleared;
    CoreInvMeansValid(k);
    var g := Owner(k, m, s);
    var was := CellOf(k, g, s);
    if m <= was.num {
      NothingChanges(k, k', g, s);
    } else {
      SpareInstallFinds(k, s, m);
      CellLastsSame(k, k', g, s, Cell(Ready, m, was.data));
      SpareInstallShardOk(k, k', s, m);
      CellKeeps(k, k', g, s, Cell(Ready, m, was.data));
    }
  }

  lemma SpareInstallChanges(k: Core, g: Gid, s: nat, m: nat, dump: Dump)
    requires CoreValid(k) && s < NSHARDS
    requires m > CellOf(k, g, s).num ==> dump == None || dump == Some(map[])
    ensures var c := CellOf(k, g, s);
            OneCell(k, WithGroup(k, g, DoInstall(GroupIn(k, g), s, dump, m)), g, s,
                    if m <= c.num then c else Cell(Ready, m, c.data))
  {
    var x := GroupIn(k, g);
    assert m > CellOf(k, g, s).num ==> Loaded(x.store, dump) == x.store;
  }

  // ----- Publishing, accepting, writing ----------------------------------------------------

  lemma PublishShardOk(k: Core, k': Core, s: nat)
    requires CoreInv(k) && s < NSHARDS && k.published + 1 in k.accepted && k' == k.(published := k.published + 1)
    requires CoreValid(k') && (Moving(k, k.published + 1, s) ==> Cleared(k, s, k.published + 1))
    ensures AtHome(k', s)
  {
    hide ReadyOk, PastOk;
    PhaseByNumber(k, s);
    assert forall g: Gid :: CellOf(k', g, s) == CellOf(k, g, s);
    assert Owner(k', k'.published, s) == Heir(k, s);
  }

  /** The next configuration may be published once every move to it has been cleared. */
  lemma PublishKeeps(k: Core, k': Core)
    requires CoreInv(k) && k.published + 1 in k.accepted && k' == k.(published := k.published + 1)
    requires DoneBelow(k, k.published + 1, NSHARDS)
    ensures CoreInv(k') && Lasting(k, k')
  {
    assert forall g: Gid, s: nat :: s < NSHARDS ==> CellOf(k', g, s) == CellOf(k, g, s);
    PublishLasts(k, k');
    forall s: nat | s < NSHARDS
      ensures ShardOk(k', s)
    {
      PublishShardOk(k, k', s);
    }
    PublishPast(k, k');
  }

  lemma PublishLasts(k: Core, k': Core)
    requires CoreValid(k) && k.published + 1 in k.accepted && k' == k.(published := k.published + 1)
    ensures CoreValid(k') && Lasting(k, k')
  {
    assert forall g: Gid, s: nat :: s < NSHARDS ==> CellOf(k', g, s) == CellOf(k, g, s);
  }

  lemma PublishPast(k: Core, k': Core)
    requires CoreInv(k) && CoreValid(k') && k' == k.(published := k.published + 1) && Lasting(k, k')
    requires DoneBelow(k, k.published + 1, NSHARDS)
    ensures PastOk(k')
  {
    hide ShardOk, ReadyOk, Cleared, DumpOk;
    forall m: nat | m <= k'.published
      ensures DoneBelow(k', m, NSHARDS)
    {
      assert DoneBelow(k, m, NSHARDS);
      forall t: nat | t < NSHARDS && Moving(k', m, t)
        ensures Cleared(k', t, m)
      {
        assert Moving(k, m, t);
      }
    }
  }

  /** A further configuration becomes known. */
  lemma AcceptKeeps(k: Core, k': Core, c: Config)
    requires CoreInv(k) && WellFormed(c) && k' == k.(accepted := k.accepted[c.num := c]) && c.num >= 1
    requires forall m :: m in k.accepted ==> m < c.num
    ensures CoreInv(k') && Lasting(k, k')
  {
    hide Cleared, DumpOk;
    assert forall g: Gid, s: nat :: s < NSHARDS ==> CellOf(k', g, s) == CellOf(k, g, s);
    AcceptLasts(k, k', c);
    forall s: nat | s < NSHARDS
      ensures ShardOk(k', s)
    {
      AcceptShardOk(k, k', c, s);
    }
    forall m: nat | m <= k'.published
      ensures DoneBelow(k', m, NSHARDS)
    {
      assert DoneBelow(k, m, NSHARDS);
      forall t: nat | t < NSHARDS && Moving(k', m, t)
        ensures Cleared(k', t, m)
      {
        assert Moving(k, m, t);
      }
    }
  }

  lemma AcceptLasts(k: Core, k': Core, c: Config)
    requires CoreValid(k) && WellFormed(c) && k' == k.(accepted := k.accepted[c.num := c]) && c.num >= 1
    requires c.num !in k.accepted
    ensures CoreValid(k') && Lasting(k, k')
  {
    assert forall g: Gid, s: nat :: s < NSHARDS ==> CellOf(k', g, s) == CellOf(k, g, s);
  }

  lemma AcceptShardOk(k: Core, k': Core, c: Config, s: nat)
    requires CoreInv(k) && WellFormed(c) && k' == k.(accepted := k.accepted[c.num := c]) && s < NSHARDS
    requires CoreValid(k') && forall m :: m in k.accepted ==> m < c.num
    ensures ShardOk(k', s)
  {
    hide ReadyOk, PastOk, Lone, Low;
    PhaseByNumber(k, s);
    assert forall g: Gid :: CellOf(k', g, s) == CellOf(k, g, s);
    if AtHome(k, s) {
      AcceptHomeOk(k, k', c, s);
    } else {
      AcceptMovingOk(k, k', c, s);
    }
  }

  lemma AcceptHomeOk(k: Core, k': Core, c: Config, s: nat)
    requires CoreValid(k) && CoreValid(k') && s < NSHARDS && AtHome(k, s)
    requires k' == k.(accepted := k.accepted[c.num := c]) && c.num !in k.accepted
    requires forall g: Gid :: CellOf(k', g, s) == CellOf(k, g, s)
    ensures AtHome(k', s)
  {
    hide CellOf;
    assert Owner(k', k'.published, s) == Owner(k, k.published, s) && Ceiling(k, s) <= Ceiling(k', s) && Truth(k', s) == Truth(k, s);
  }

  lemma AcceptMovingOk(k: Core, k': Core, c: Config, s: nat)
    requires CoreValid(k) && CoreValid(k') && s < NSHARDS && ShardOk(k, s) && !AtHome(k, s)
    requires k' == k.(accepted := k.accepted[c.num := c]) && c.num !in k.accepted
    requires forall g: Gid :: CellOf(k', g, s) == CellOf(k, g, s)
    ensures ShardOk(k', s)
  {
    assert k.published + 1 in k.accepted;
    assert Owner(k', k'.published, s) == Owner(k, k.published, s) && Heir(k', s) == Heir(k, s);
    if InTransit(k, s) {
      assert InTransit(k', s);
    } else {
      assert Arrived(k', s);
    }
  }

  // ----- Clients ---------------------------------------------------------------------------

  /** A serving group holds exactly what the clients should see of the shard. */
  lemma ServerHoldsTruth(k: Core, g: Gid, s: nat)
    requires CoreInv(k) && s < NSHARDS && CellOf(k, g, s).state == Ready
    ensures CellOf(k, g, s).data == Truth(k, s) && !InTransit(k, s)
    ensures g == Owner(k, k.published, s) || g == Heir(k, s)
    ensures AtHome(k, s) ==> g == Owner(k, k.published, s)
    ensures Arrived(k, s) ==> g == Heir(k, s)
  {
    hide ReadyOk, PastOk;
    PhaseByNumber(k, s);
  }

  ghost predicate Written(k: Core, k': Core, g: Gid, key: Key, v: Value, version: nat) {
    && CoreValid(k) && CoreValid(k')
    && k' == k.(groups := k'.groups, spec := PutStore(k.spec, key, v, version))
    && var s := ShardOf(k.hash, key);
       forall h: Gid, t: nat :: t < NSHARDS ==>
         CellOf(k', h, t) == if h == g && t == s then CellOf(k, g, s).(data := Truth(k', s)) else CellOf(k, h, t)
  }

  lemma PutChanges(k: Core, g: Gid, key: Key, v: Value, version: nat)
    requires CoreInv(k) && CellOf(k, g, ShardOf(k.hash, key)).state == Ready
    ensures Written(k, WithGroup(k, g, DoPut(k.hash, GroupIn(k, g), key, v, version).0).(spec := PutStore(k.spec, key, v, version)),
                    g, key, v, version)
  {
    hide ReadyOk, PastOk, ShardOk, PutStore;
    var s := ShardOf(k.hash, key);
    var k' := WithGroup(k, g, DoPut(k.hash, GroupIn(k, g), key, v, version).0).(spec := PutStore(k.spec, key, v, version));
    ServerHoldsTruth(k, g, s);
    forall h: Gid, t: nat | t < NSHARDS
      ensures CellOf(k', h, t) == if h == g && t == s then CellOf(k, g, s).(data := Truth(k', s)) else CellOf(k, h, t)
    {
      if h == g {
        PartOfPut(k.hash, k.spec, key, v, version, s);
        PutCells(k.hash, GroupIn(k, g), key, v, version, t);
      }
    }
  }

  lemma WrittenShardOk(k: Core, k': Core, g: Gid, key: Key, v: Value, version: nat, t: nat)
    requires CoreInv(k) && Written(k, k', g, key, v, version) && t < NSHARDS
    requires CellOf(k, g, ShardOf(k.hash, key)).state == Ready
    ensures ShardOk(k', t)
  {
    hide ReadyOk, PastOk, ShardOk;
    PartOfPut(k.hash, k.spec, key, v, version, t);
    if t != ShardOf(k.hash, key) {
      SameShard(k, k', t);
    } else {
      ServerHoldsTruth(k, g, t);
      ServedShardOk(k, k', g, t);
    }
  }

  lemma ServedShardOk(k: Core, k': Core, g: Gid, t: nat)
    requires CoreValid(k) && CoreValid(k') && t < NSHARDS && ShardOk(k, t) && !InTransit(k, t)
    requires k'.accepted == k.accepted && k'.published == k.published
    requires AtHome(k, t) ==> g == Owner(k, k.published, t)
    requires Arrived(k, t) ==> g == Heir(k, t)
    requires forall h: Gid :: CellOf(k', h, t) == if h == g then CellOf(k, g, t).(data := Truth(k', t)) else CellOf(k, h, t)
    ensures ShardOk(k', t)
  {
    assert Owner(k', k'.published, t) == Owner(k, k.published, t) && Heir(k', t) == Heir(k, t);
    if AtHome(k, t) {
      assert AtHome(k', t);
    } else {
      assert Arrived(k', t);
    }
  }

  lemma WrittenCleared(k: Core, k': Core, g: Gid, key: Key, v: Value, version: nat, t: nat, m: nat)
    requires CoreInv(k) && Written(k, k', g, key, v, version) && CellOf(k, g, ShardOf(k.hash, key)).state == Ready
    requires t < NSHARDS && Moving(k, m, t) && Cleared(k, t, m)
    ensures Moving(k', m, t) && Cleared(k', t, m)
  {
    hide CoreInv;
    if t == ShardOf(k.hash, key) && g == Owner(k, m - 1, t) && m > k.published {
      ClearedIsIdle(k, t, m);
    }
  }

  lemma WrittenDump(k: Core, k': Core, g: Gid, key: Key, v: Value, version: nat, t: nat, m: nat, dump: Dump)
    requires CoreInv(k) && Written(k, k', g, key, v, version) && CellOf(k, g, ShardOf(k.hash, key)).state == Ready
    requires t < NSHARDS && Moving(k, m, t) && DumpOk(k, t, m, dump)
    ensures Moving(k', m, t) && DumpOk(k', t, m, dump)
  {
    hide CoreInv;
    PartOfPut(k.hash, k.spec, key, v, version, t);
    if t == ShardOf(k.hash, key) && !Reached(k, Owner(k, m, t), t, m) {
      InstallIsTimely(k, t, m, dump);
      ServerHoldsTruth(k, g, t);
    }
  }

  lemma WrittenLasts(k: Core, k': Core, g: Gid, key: Key, v: Value, version: nat)
    requires CoreInv(k) && Written(k, k', g, key, v, version)
    requires CellOf(k, g, ShardOf(k.hash, key)).state == Ready
    ensures Lasting(k, k')
  {
    hide CoreInv, Cleared, DumpOk;
    forall t: nat, m: nat | t < NSHARDS && Moving(k, m, t) && Cleared(k, t, m)
      ensures Moving(k', m, t) && Cleared(k', t, m)
    {
      WrittenCleared(k, k', g, key, v, version, t, m);
    }
    forall t: nat, m: nat, dump | t < NSHARDS && Moving(k, m, t) && DumpOk(k, t, m, dump)
      ensures Moving(k', m, t) && DumpOk(k', t, m, dump)
    {
      WrittenDump(k, k', g, key, v, version, t, m, dump);
    }
  }

  lemma ClearedIsIdle(k: Core, s: nat, m: nat)
    requires CoreInv(k) && s < NSHARDS && Moving(k, m, s) && Cleared(k, s, m) && m > k.published
    ensures CellOf(k, Owner(k, m - 1, s), s).state != Ready
  {
    hide ReadyOk, PastOk;
    PhaseByNumber(k, s);
  }

  lemma WriteKeepsCore(k: Core, k': Core, g: Gid, key: Key, v: Value, version: nat)
    requires CoreInv(k) && Written(k, k', g, key, v, version)
    requires CellOf(k, g, ShardOf(k.hash, key)).state == Ready
    ensures CoreInv(k') && Lasting(k, k')
  {
    hide ShardOk, Cleared, DumpOk;
    WrittenLasts(k, k', g, key, v, version);
    forall t: nat | t < NSHARDS
      ensures ShardOk(k', t)
    {
      WrittenShardOk(k, k', g, key, v, version, t);
    }
    forall m: nat | m <= k'.published
      ensures DoneBelow(k', m, NSHARDS)
    {
      assert DoneBelow(k, m, NSHARDS);
      forall t: nat | t < NSHARDS && Moving(k', m, t)
        ensures Cleared(k', t, m)
      {
        assert Moving(k, m, t);
      }
    }
  }
}
