/** Migration safety over whole runs: one server per shard, nothing lost, one versioned map to the clients. */
module ShardSafety {
  import opened RaftTypes
  import opened VersionedMap
  import opened ShardGroup
  import opened ShardControl
  import opened ShardConfigs
  import opened ShardMigration

  // ----- Facts about the parts of a world --------------------------------------------------

  lemma CoreFacts(w: World)
    requires DataInv(w)
    ensures ConfigInv(w) && CoreInv(CoreOf(w)) && CoreValid(CoreOf(w)) && GroupsValid(w)
  {
  }

  lemma PublicationFacts(w: World, p: Write)
    requires ConfigInv(w) && p in w.writes && p.slot == Cfg
    ensures Official(w.accepted, p.config) && (p.config.num >= 2 ==> p.config.num - 1 in w.accepted)
  {
    assert WriteOk(w, p);
  }

  /** What the controllers and writes know lasts. */
  lemma ProgressLasts(w: World, w': World)
    requires DataInv(w) && CoreValid(CoreOf(w')) && Lasting(CoreOf(w), CoreOf(w'))
    ensures forall c :: c in w.controllers ==> ProgressOk(CoreOf(w'), w.sent, w.controllers[c])
    ensures forall p :: p in w.writes ==> PublicationOk(CoreOf(w'), p)
  {
    hide ConfigInv, CoreInv, DoneBelow, Lasting, StartOk;
    var k, k' := CoreOf(w), CoreOf(w');
    CoreInvMeansValid(k);
    LastingMeans(k, k');
    forall c | c in w.controllers
      ensures ProgressOk(k', w.sent, w.controllers[c])
    {
      var x := w.controllers[c];
      assert ProgressOk(k, w.sent, x);
      if x.Migrating? {
        StartMeans(k, x.cur, x.new_);
        StartLasts(k, k', x.cur, x.new_);
        DoneLasts(k, k', x.new_.num, x.shard);
      }
    }
    forall p | p in w.writes
      ensures PublicationOk(k', p)
    {
      assert PublicationOk(k, p);
      if p.slot == Cfg {
        PublicationFacts(w, p);
        DoneLasts(k, k', p.config.num, NSHARDS);
      }
    }
  }

  lemma StartMeans(k: Core, cur: Config, n: Config)
    requires CoreValid(k) && StartOk(k, cur, n)
    ensures WellFormed(cur) && Official(k.accepted, n) && Known(k, n.num) && WellFormed(n)
  {
  }

  lemma LastingMeans(k: Core, k': Core)
    requires CoreValid(k) && CoreValid(k') && Lasting(k, k')
    ensures k.published <= k'.published
  {
  }

  /** A step of the groups or of the store: the facts last, and a new answer is a good one. */
  lemma CoreMoves(w: World, w': World)
    requires DataInv(w) && ConfigInv(w') && CoreInv(CoreOf(w')) && Lasting(CoreOf(w), CoreOf(w'))
    requires w'.sent == w.sent && w'.controllers == w.controllers && w'.writes == w.writes
    requires forall a :: a in w'.answers ==> a in w.answers || AnswerOk(CoreOf(w'), a)
    ensures DataInv(w')
  {
    hide ConfigInv, CoreInv, Lasting, RequestOk, AnswerOk, ProgressOk, PublicationOk;
    CoreInvMeansValid(CoreOf(w'));
    CoreInvMeansValid(CoreOf(w));
    ProgressLasts(w, w');
    forall r | r in w'.sent
      ensures RequestOk(CoreOf(w'), r)
    {
      RequestLasts(CoreOf(w), CoreOf(w'), r);
    }
    forall a | a in w'.answers
      ensures AnswerOk(CoreOf(w'), a)
    {
      if a in w.answers {
        AnswerLasts(CoreOf(w), CoreOf(w'), a);
      }
    }
  }

  /** A step of one controller: only that controller, and what it has just sent or written, is new. */
  lemma ControlMoves(w: World, w': World, c: nat, x: Controller)
    requires DataInv(w) && ConfigInv(w') && CoreOf(w') == CoreOf(w)
    requires w'.controllers == w.controllers[c := x] && w'.answers == w.answers && w.sent <= w'.sent
    requires forall r :: r in w'.sent ==> r in w.sent || RequestOk(CoreOf(w), r)
    requires forall p :: p in w'.writes ==> p in w.writes || PublicationOk(CoreOf(w), p)
    requires ProgressOk(CoreOf(w), w'.sent, x)
    ensures DataInv(w')
  {
    hide ConfigInv, CoreInv, RequestOk, AnswerOk, PublicationOk, DoneBelow;
    CoreInvMeansValid(CoreOf(w));
    forall d | d in w'.controllers
      ensures ProgressOk(CoreOf(w), w'.sent, w'.controllers[d])
    {
      if d != c {
        assert ProgressOk(CoreOf(w), w.sent, w.controllers[d]);
      }
    }
  }

  // ----- The steps -------------------------------------------------------------------------

  lemma StartData(hash: Hash, groups: Addresses)
    ensures DataInv(Start(hash, groups))
  {
    hide ConfigInv;
    var w := Start(hash, groups);
    var k := CoreOf(w);
    StartConfigs(hash, groups);
    assert CoreValid(k);
    forall s: nat | s < NSHARDS
      ensures AtHome(k, s)
    {
      StartHome(hash, groups, s);
    }
    assert ReadyOk(k) && PastOk(k);
  }

  lemma StartHome(hash: Hash, groups: Addresses, s: nat)
    requires s < NSHARDS && CoreValid(CoreOf(Start(hash, groups)))
    ensures AtHome(CoreOf(Start(hash, groups)), s)
  {
    var k := CoreOf(Start(hash, groups));
    assert forall g: Gid :: CellOf(k, g, s) == Cell(if g == GID1 then Ready else NotOwned, FIRST_NUM, map[]) by {
      assert forall g: Gid :: Part(hash, FreshGroup(g).store, s) == map[];
    }
    assert Truth(k, s) == map[];
  }

  lemma RequestExecuted(w: World, r: Request)
    requires DataInv(w) && r in w.sent
    ensures RequestOk(CoreOf(w), r) && r.shard < NSHARDS
    ensures CoreInv(CoreOf(ExecuteRequest(w, r))) && Lasting(CoreOf(w), CoreOf(ExecuteRequest(w, r)))
    ensures forall a :: a in ExecuteRequest(w, r).answers ==> a in w.answers || AnswerOk(CoreOf(ExecuteRequest(w, r)), a)
  {
    hide ConfigInv, CoreInv, Lasting, AnswerOk, ProgressOk, PublicationOk;
    CoreFacts(w);
    var k, w' := CoreOf(w), ExecuteRequest(w, r);
    assert RequestOk(k, r);
    match r
    case Freeze(g, s, m) => FreezeExecuted(k, g, s, m);
    case Install(g, s, m, dump) => InstallExecuted(k, g, s, m, dump);
    case Delete(g, s, m) => DeleteExecuted(k, g, s, m);
  }

  lemma FreezeExecuted(k: Core, g: Gid, s: nat, m: nat)
    requires CoreInv(k) && RequestOk(k, Freeze(g, s, m))
    ensures CoreValid(k) && s < NSHARDS
    ensures var o := DoFreeze(k.hash, GroupIn(k, g), s, m);
            var k' := WithGroup(k, g, o.0);
            CoreInv(k') && CoreValid(k') && Lasting(k, k') && AnswerOk(k', Answer(Freeze(g, s, m), o.1))
  {
    hide CoreInv, Lasting, Cleared, OneCell, DumpOk, Harmless;
    CoreInvMeansValid(k);
    var r := Freeze(g, s, m);
    FreezeChanges(k, g, s, m);
    var k' := WithGroup(k, g, DoFreeze(k.hash, GroupIn(k, g), s, m).0);
    if Proper(k, r) {
      FreezeKeeps(k, k', s, m);
      CoreInvMeansValid(k');
      ProperLasts(k, k', r);
      ProperFreezeAnswer(k', r, DoFreeze(k.hash, GroupIn(k, g), s, m).1);
    } else {
      SpareFreezeExecuted(k, k', g, s, m);
      CoreInvMeansValid(k');
      SpareLasts(k, k', r);
      NotProperAfter(k, k', r);
    }
  }

  /** What is right for a proper freeze is right if it has become spare. */
  lemma ProperFreezeAnswer(k: Core, r: Request, dump: Dump)
    requires CoreValid(k) && r.Freeze? && Proper(k, r) && DumpOk(k, r.shard, r.num, dump)
    ensures AnswerOk(k, Answer(r, dump))
  {
  }

  lemma NotProperAfter(k: Core, k': Core, r: Request)
    requires CoreValid(k) && CoreValid(k') && Lasting(k, k') && RequestOk(k, r) && !Proper(k, r)
    ensures !Proper(k', r)
  {
    hide Lasting, Proper, Spare;
    if Proper(k', r) {
      WasProper(k, k', r);
    }
  }

  lemma SpareFreezeExecuted(k: Core, k': Core, g: Gid, s: nat, m: nat)
    requires CoreInv(k) && Spare(k, Freeze(g, s, m))
    requires CoreValid(k) && s < NSHARDS && k' == WithGroup(k, g, DoFreeze(k.hash, GroupIn(k, g), s, m).0)
    ensures CoreInv(k') && Lasting(k, k') && CoreValid(k') && Known(k', m)
    ensures Harmless(k', s, m, DoFreeze(k.hash, GroupIn(k, g), s, m).1)
  {
    hide CoreInv, Lasting, Cleared, OneCell;
    var was := CellOf(k, g, s);
    FreezeChanges(k, g, s, m);
    if m < was.num {
      NothingChanges(k, k', g, s);
    } else {
      SpareCell(k, s, m, g);
      SpareKeeps(k, k', g, s, m, Frozen);
    }
    CoreInvMeansValid(k');
    KnownLasts(k, k', m);
  }

  lemma InstallExecuted(k: Core, g: Gid, s: nat, m: nat, dump: Dump)
    requires CoreInv(k) && RequestOk(k, Install(g, s, m, dump))
    ensures CoreValid(k) && s < NSHARDS
    ensures var k' := WithGroup(k, g, DoInstall(GroupIn(k, g), s, dump, m));
            CoreInv(k') && CoreValid(k') && Lasting(k, k') && AnswerOk(k', Answer(Install(g, s, m, dump), None))
  {
    hide CoreInv, Lasting, Cleared, OneCell, DumpOk, Harmless;
    CoreInvMeansValid(k);
    var k', r := WithGroup(k, g, DoInstall(GroupIn(k, g), s, dump, m)), Install(g, s, m, dump);
    if Proper(k, r) {
      if !Reached(k, Owner(k, m, s), s, m) {
        InstallIsTimely(k, s, m, dump);
      }
      InstallChanges(k, g, s, m, dump);
      InstallKeeps(k, k', s, m, dump);
      CoreInvMeansValid(k');
      ProperLasts(k, k', r);
    } else {
      SpareInstallExecuted(k, k', g, s, m, dump);
      CoreInvMeansValid(k');
      SpareLasts(k, k', r);
      NotProperAfter(k, k', r);
    }
  }

  lemma SpareInstallExecuted(k: Core, k': Core, g: Gid, s: nat, m: nat, dump: Dump)
    requires CoreInv(k) && Spare(k, Install(g, s, m, dump))
    requires CoreValid(k) && s < NSHARDS && k' == WithGroup(k, g, DoInstall(GroupIn(k, g), s, dump, m))
    ensures CoreInv(k') && Lasting(k, k')
  {
    hide CoreInv, Lasting, Cleared, OneCell;
    SpareInstallChanges(k, g, s, m, dump);
    SpareInstallKeeps(k, k', s, m);
  }

  lemma DeleteExecuted(k: Core, g: Gid, s: nat, m: nat)
    requires CoreInv(k) && RequestOk(k, Delete(g, s, m))
    ensures CoreValid(k) && s < NSHARDS
    ensures var k' := WithGroup(k, g, DoDelete(k.hash, GroupIn(k, g), s, m));
            CoreInv(k') && CoreValid(k') && Lasting(k, k') && AnswerOk(k', Answer(Delete(g, s, m), None))
  {
    hide CoreInv, Lasting, Cleared, OneCell, DumpOk, Harmless;
    CoreInvMeansValid(k);
    DeleteChanges(k, g, s, m);
    var k', r := WithGroup(k, g, DoDelete(k.hash, GroupIn(k, g), s, m)), Delete(g, s, m);
    if Proper(k, r) {
      DeleteKeeps(k, k', s, m);
      CoreInvMeansValid(k');
      ProperLasts(k, k', r);
    } else {
      SpareDeleteExecuted(k, k', g, s, m);
      CoreInvMeansValid(k');
      SpareLasts(k, k', r);
      NotProperAfter(k, k', r);
    }
  }

  lemma SpareDeleteExecuted(k: Core, k': Core, g: Gid, s: nat, m: nat)
    requires CoreInv(k) && Spare(k, Delete(g, s, m))
    requires CoreValid(k) && s < NSHARDS && k' == WithGroup(k, g, DoDelete(k.hash, GroupIn(k, g), s, m))
    ensures CoreInv(k') && Lasting(k, k')
  {
    hide CoreInv, Lasting, Cleared, OneCell;
    DeleteChanges(k, g, s, m);
    if m < CellOf(k, g, s).num {
      NothingChanges(k, k', g, s);
    } else {
      SpareKeeps(k, k', g, s, m, NotOwned);
    }
  }

  lemma ExecutionKeeps(w: World, r: Request)
    requires DataInv(w) && r in w.sent && r.shard < NSHARDS && GroupsValid(w) && ConfigInv(ExecuteRequest(w, r))
    ensures DataInv(ExecuteRequest(w, r))
  {
    hide ConfigInv, CoreInv, Lasting, AnswerOk, RequestOk, DataInv;
    RequestExecuted(w, r);
    CoreMoves(w, ExecuteRequest(w, r));
  }

  lemma StoreKeeps(w: World, p: Write)
    requires DataInv(w) && p in w.writes && ConfigInv(ExecuteWrite(w, p))
    ensures DataInv(ExecuteWrite(w, p))
  {
    var w' := ExecuteWrite(w, p);
    var k, k' := CoreOf(w), CoreOf(w');
    if Accepts(Content(w, p.slot), p.version) {
      assert WriteOk(w, p) && PublicationOk(k, p);
      if p.slot == Cfg {
        CfgStored(w, p);
      } else {
        NextStored(w, p);
      }
      CoreMoves(w, w');
    }
  }

  lemma CfgStored(w: World, p: Write)
    requires DataInv(w) && p in w.writes && p.slot == Cfg && Accepts(w.cfg, p.version)
    ensures CoreInv(CoreOf(ExecuteWrite(w, p))) && Lasting(CoreOf(w), CoreOf(ExecuteWrite(w, p)))
  {
    hide CoreInv, Lasting, RequestOk, AnswerOk, ProgressOk;
    var k, k' := CoreOf(w), CoreOf(ExecuteWrite(w, p));
    CoreInvMeansValid(k);
    assert WriteOk(w, p) && PublicationOk(k, p);
    if w.cfg.Some? {
      PublishKeeps(k, k');
    } else {
      assert k' == k;
      LastsToItself(k);
    }
  }

  lemma LastsToItself(k: Core)
    requires CoreValid(k)
    ensures Lasting(k, k)
  {
  }

  lemma NextStored(w: World, p: Write)
    requires DataInv(w) && p in w.writes && p.slot == Next && Accepts(w.next, p.version)
    ensures CoreInv(CoreOf(ExecuteWrite(w, p))) && Lasting(CoreOf(w), CoreOf(ExecuteWrite(w, p)))
  {
    hide CoreInv, Lasting, RequestOk, AnswerOk, ProgressOk, PublicationOk;
    var k, k' := CoreOf(w), CoreOf(ExecuteWrite(w, p));
    assert WriteOk(w, p);
    CoreInvMeansValid(k);
    if w.next.Some? {
      AcceptKeeps(k, k', p.config);
    } else {
      assert k'.accepted == k.accepted;
      LastsToItself(k);
    }
  }

  /** A client's write at any group. */
  lemma PutKeeps(w: World, g: Gid, key: Key, v: Value, version: nat)
    requires DataInv(w) && GroupsValid(w) && ConfigInv(ClientPut(w, g, key, v, version))
    ensures DataInv(ClientPut(w, g, key, v, version))
  {
    hide ConfigInv, CoreInv, Lasting, AnswerOk, RequestOk;
    var w', k := ClientPut(w, g, key, v, version), CoreOf(w);
    var s := ShardOf(w.hash, key);
    CoreInvMeansValid(k);
    if CellOf(k, g, s).state == Ready {
      PutChanges(k, g, key, v, version);
      assert PutErr(GroupAt(w, g).store, key, version) != ErrWrongGroup;
      WriteKeepsCore(k, CoreOf(w'), g, key, v, version);
    } else {
      RefusedChanges(k, g, key, v, version);
      NothingChanges(k, CoreOf(w'), g, s);
    }
    CoreMoves(w, w');
  }

  lemma RefusedChanges(k: Core, g: Gid, key: Key, v: Value, version: nat)
    requires CoreValid(k) && CellOf(k, g, ShardOf(k.hash, key)).state != Ready
    ensures var s := ShardOf(k.hash, key);
            OneCell(k, WithGroup(k, g, DoPut(k.hash, GroupIn(k, g), key, v, version).0), g, s, CellOf(k, g, s))
  {
  }

  // ----- Controllers -----------------------------------------------------------------------

  lemma NothingDoneYet(k: Core, m: nat)
    requires CoreValid(k)
    ensures DoneBelow(k, m, 0)
  {
  }

  /** The freeze a migration begins a shard with is proper, or spare. */
  lemma FirstMoveOk(k: Core, cur: Config, n: Config, s: nat)
    requires CoreValid(k) && StartOk(k, cur, n) && s < NSHARDS && cur.shards[s] != n.shards[s]
    ensures RequestOk(k, Freeze(cur.shards[s], s, n.num))
  {
    hide Cleared;
    assert Aligned(k, cur, n, s);
  }

  /** A shard a migration leaves out needs no move, or has made it. */
  lemma StayingShard(k: Core, cur: Config, n: Config, s: nat)
    requires CoreValid(k) && StartOk(k, cur, n) && s < NSHARDS && cur.shards[s] == n.shards[s] && DoneBelow(k, n.num, s)
    ensures DoneBelow(k, n.num, s + 1)
  {
    hide Cleared;
    assert Aligned(k, cur, n, s);
  }

  lemma LoopKeepsData(w: World, c: nat)
    requires DataInv(w) && Possible(w, Loops(c)) && ConfigInv(LoopHead(w, c))
    ensures DataInv(LoopHead(w, c))
  {
    hide CoreInv, RequestOk, AnswerOk, DoneBelow, ConfigInv, StartOk;
    var w', x, k := LoopHead(w, c), w.controllers[c], CoreOf(w);
    CoreInvMeansValid(k);
    assert ProgressOk(k, w.sent, x);
    StartMeans(k, x.cur, x.new_);
    if x.shard >= NSHARDS {
      EnoughShards(k, x.new_.num, x.shard);
      assert PublicationOk(k, Publication(x.new_));
    } else if x.cur.shards[x.shard] == x.new_.shards[x.shard] {
      StayingShard(k, x.cur, x.new_, x.shard);
    } else {
      FirstMoveOk(k, x.cur, x.new_, x.shard);
    }
    ControlMoves(w, w', c, w'.controllers[c]);
  }

  lemma EnoughShards(k: Core, m: nat, s: nat)
    requires CoreValid(k) && DoneBelow(k, m, s) && s >= NSHARDS
    ensures DoneBelow(k, m, NSHARDS)
  {
  }

  /** An answer entitles the controller to the next call, or to the next shard. */
  lemma NextCallOk(k: Core, x: Controller, a: Answer)
    requires CoreValid(k) && AnswerOk(k, a) && x.Migrating? && x.call == Some(a.request) && CallFits(x) && StartOk(k, x.cur, x.new_)
    ensures var s, m := x.shard, x.new_.num;
            && s < NSHARDS
            && (a.request.Freeze? ==> RequestOk(k, Install(x.new_.shards[s], s, m, a.dump)))
            && (a.request.Install? ==> RequestOk(k, Delete(x.cur.shards[s], s, m)))
            && (a.request.Delete? ==> Moving(k, m, s) ==> Cleared(k, s, m))
  {
    StartMeans(k, x.cur, x.new_);
    assert Aligned(k, x.cur, x.new_, x.shard);
    if Settled(k, x.shard, x.new_.num) {
      SpareCallOk(k, x, a);
    } else {
      ProperCallOk(k, x, a);
    }
  }

  lemma SpareCallOk(k: Core, x: Controller, a: Answer)
    requires CoreValid(k) && AnswerOk(k, a) && x.Migrating? && x.call == Some(a.request) && CallFits(x)
    requires Official(k.accepted, x.new_) && Settled(k, x.shard, x.new_.num)
    ensures var s, m := x.shard, x.new_.num;
            && (a.request.Freeze? ==> Spare(k, Install(x.new_.shards[s], s, m, a.dump)))
            && (a.request.Install? ==> Spare(k, Delete(x.cur.shards[s], s, m)))
  {
    hide Cleared, DumpOk;
  }

  lemma ProperCallOk(k: Core, x: Controller, a: Answer)
    requires CoreValid(k) && AnswerOk(k, a) && x.Migrating? && x.call == Some(a.request) && CallFits(x)
    requires Official(k.accepted, x.new_) && Moving(k, x.new_.num, x.shard) && x.cur.shards[x.shard] == Owner(k, x.new_.num - 1, x.shard)
    requires Proper(k, a.request)
    ensures var s, m := x.shard, x.new_.num;
            && (a.request.Freeze? ==> Proper(k, Install(x.new_.shards[s], s, m, a.dump)))
            && (a.request.Install? ==> Proper(k, Delete(x.cur.shards[s], s, m)))
            && (a.request.Delete? ==> Cleared(k, s, m))
  {
    hide Cleared, DumpOk;
  }

  lemma ShardDone(k: Core, m: nat, s: nat)
    requires CoreValid(k) && s < NSHARDS && DoneBelow(k, m, s) && (Moving(k, m, s) ==> Cleared(k, s, m))
    ensures DoneBelow(k, m, s + 1)
  {
  }

  lemma HearKeepsData(w: World, c: nat, a: Answer)
    requires DataInv(w) && Possible(w, Hears(c, a)) && ConfigInv(Answered(w, c, a))
    ensures DataInv(Answered(w, c, a))
  {
    hide CoreInv, RequestOk, AnswerOk, DoneBelow, PublicationOk, ConfigInv, StartOk;
    var w', x, k := Answered(w, c, a), w.controllers[c], CoreOf(w);
    CoreInvMeansValid(k);
    assert ProgressOk(k, w.sent, x);
    NextCallOk(k, x, a);
    if a.request.Delete? {
      ShardDone(k, x.new_.num, x.shard);
    }
    ControlMoves(w, w', c, w'.controllers[c]);
  }

  /** A controller stops, starts proposing, or begins a migration it may begin. */
  lemma FreshStart(w: World, w': World, c: nat, x: Controller)
    requires DataInv(w) && ConfigInv(w') && CoreOf(w') == CoreOf(w)
    requires w'.controllers == w.controllers[c := x] && w'.answers == w.answers && w'.sent == w.sent
    requires forall p :: p in w'.writes ==> p in w.writes || p.slot == Next
    requires x.Migrating? ==> x.shard == 0 && x.call.None? && CoreValid(CoreOf(w)) && StartOk(CoreOf(w), x.cur, x.new_)
    ensures DataInv(w')
  {
    hide CoreInv, RequestOk, AnswerOk, DoneBelow, ConfigInv, StartOk;
    CoreInvMeansValid(CoreOf(w));
    if x.Migrating? {
      NothingDoneYet(CoreOf(w), x.new_.num);
    }
    ControlMoves(w, w', c, x);
  }

  /** The migration, if any, that a step begins. */
  function Beginning(w: World, step: Step): Option<(Config, Config)>
    requires Possible(w, step)
  {
    match step
    case Wins(c) => Some((ControllerAt(w, c).cur, ControllerAt(w, c).new_))
    case Rereads(c) =>
      if w.next.Some? && w.next.value.config == ControllerAt(w, c).new_
      then Some((ControllerAt(w, c).cur, ControllerAt(w, c).new_)) else None
    case RecoversNext(c) =>
      if w.next.Some? && w.next.value.config.num > ControllerAt(w, c).cur.num
      then Some((ControllerAt(w, c).cur, w.next.value.config)) else None
    case _ => None
  }

  /** The step begins no migration, or one that may be begun. */
  ghost predicate SoundStep(w: World, step: Step)
    requires Possible(w, step)
  {
    Beginning(w, step).Some? ==>
      CoreValid(CoreOf(w)) && StartOk(CoreOf(w), Beginning(w, step).value.0, Beginning(w, step).value.1)
  }

  lemma StartingKeepsData(w: World, step: Step)
    requires DataInv(w) && Possible(w, step) && SoundStep(w, step) && ConfigInv(After(w, step))
    requires step.Proposes? || step.Wins? || step.Rereads? || step.RecoversCfg? || step.RecoversNext? || step.Stops?
    ensures DataInv(After(w, step))
  {
    hide DataInv, ConfigInv, StartOk;
    var w' := After(w, step);
    if step.c in w'.controllers && w'.controllers == w.controllers[step.c := w'.controllers[step.c]] {
      var x := w'.controllers[step.c];
      if step.RecoversCfg? && w.cfg.None? {
        assert w' == w;
      } else if step.Proposes? && step.new_.num <= w.cfg.value.config.num {
        assert w' == w;
      } else {
        FreshStart(w, w', step.c, x);
      }
    } else {
      assert w' == w;
    }
  }

  /** Every sound step keeps the shards in order. */
  lemma StepKeepsData(w: World, step: Step)
    requires DataInv(w) && Possible(w, step) && SoundStep(w, step)
    ensures DataInv(After(w, step))
  {
    hide DataInv, ConfigInv, Grows, Propose, ProposalWon, ProposalReread, RecoverCfg, RecoverNext,
      LoopHead, Answered, ExecuteWrite, ExecuteRequest, ClientPut, StartOk;
    CoreFacts(w);
    StepKeepsConfigs(w, step);
    match step
    case StoreWrites(p) => StoreKeeps(w, p);
    case Loops(c) => LoopKeepsData(w, c);
    case Hears(c, a) => HearKeepsData(w, c, a);
    case Executes(r) => ExecutionKeeps(w, r);
    case Puts(g, k, v, version) => PutKeeps(w, g, k, v, version);
    case _ => StartingKeepsData(w, step);
  }

  // ----- Runs ------------------------------------------------------------------------------

  /** A run that begins only migrations that may be begun. */
  ghost predicate SoundRun(hash: Hash, ws: seq<World>, steps: seq<Step>) {
    IsRun(hash, ws, steps) && SoundSteps(ws, steps)
  }

  ghost predicate SoundSteps(ws: seq<World>, steps: seq<Step>)
    requires Follows(ws, steps)
  {
    forall i :: 0 <= i < |steps| ==> SoundStep(ws[i], steps[i])
  }

  /** From a state in order, sound steps lead to states in order. */
  lemma {:induction false} FollowingKeepsData(ws: seq<World>, steps: seq<Step>, i: nat)
    requires Follows(ws, steps) && SoundSteps(ws, steps) && DataInv(ws[0]) && i < |ws|
    ensures DataInv(ws[i])
    decreases i
  {
    hide DataInv, Possible, After, SoundStep;
    if i > 0 {
      FollowingKeepsData(ws, steps, i - 1);
      assert SoundStep(ws[i - 1], steps[i - 1]);
      StepKeepsData(ws[i - 1], steps[i - 1]);
      assert ws[i - 1 + 1] == After(ws[i - 1], steps[i - 1]);
    }
  }

  lemma RunKeepsData(hash: Hash, ws: seq<World>, steps: seq<Step>, i: nat)
    requires SoundRun(hash, ws, steps) && i < |ws|
    ensures DataInv(ws[i])
  {
    hide DataInv, Follows, SoundSteps;
    StartData(hash, ws[0].accepted[FIRST_NUM].groups);
    FollowsShape(ws, steps);
    FollowingKeepsData(ws, steps, i);
  }

  lemma FollowsShape(ws: seq<World>, steps: seq<Step>)
    requires Follows(ws, steps)
    ensures |ws| == |steps| + 1
  {
  }

  /** A migration to the configuration after the one that was read may always be begun. */
  lemma NeighbourMayBegin(w: World, cur: Config, n: Config)
    requires ConfigInv(w) && CoreValid(CoreOf(w)) && Official(w.accepted, cur) && Official(w.accepted, n)
    requires cur.num <= Published(w) && n.num == cur.num + 1
    ensures StartOk(CoreOf(w), cur, n)
  {
    var k := CoreOf(w);
    assert Known(k, n.num) && k.accepted[n.num - 1] == cur;
    forall t: nat | t < NSHARDS
      ensures Aligned(k, cur, n, t)
    {
    }
  }

  /** Beginning is the step's own doing, and what it begins is recorded in the controller. */
  lemma BeginsMigrating(w: World, step: Step)
    requires ConfigInv(w) && Possible(w, step) && Beginning(w, step).Some?
    ensures var b := Beginning(w, step).value;
            && step.c in After(w, step).controllers
            && After(w, step).controllers[step.c] == Migrating(b.0, b.1, 0, None)
            && Official(w.accepted, b.0) && b.0.num <= Published(w)
  {
    KnownController(w, step.c);
  }

  /** A run in which every migration under way goes to the very next configuration is sound. */
  lemma AdjacentRunIsSound(hash: Hash, ws: seq<World>, steps: seq<Step>)
    requires IsRun(hash, ws, steps) && forall i :: 0 <= i < |ws| ==> Adjacent(ws[i])
    ensures SoundRun(hash, ws, steps)
  {
    hide SoundStep, Possible, After, Adjacent;
    AdjacentPrefixIsSound(hash, ws, steps, |steps|);
  }

  lemma {:induction false} AdjacentPrefixIsSound(hash: Hash, ws: seq<World>, steps: seq<Step>, n: nat)
    requires IsRun(hash, ws, steps) && n <= |steps| && forall i :: 0 <= i < |ws| ==> Adjacent(ws[i])
    ensures forall i :: 0 <= i < n ==> SoundStep(ws[i], steps[i])
    decreases n
  {
    hide DataInv, ConfigInv, Possible, After, SoundStep, Adjacent;
    if n > 0 {
      AdjacentPrefixIsSound(hash, ws, steps, n - 1);
      PrefixKeepsData(hash, ws, steps, n - 1);
      var i := n - 1;
      assert Possible(ws[i], steps[i]) && ws[i + 1] == After(ws[i], steps[i]);
      AdjacentStepIsSound(ws[i], steps[i]);
    }
  }

  lemma AdjacentStepIsSound(w: World, step: Step)
    requires DataInv(w) && Possible(w, step) && Adjacent(After(w, step))
    ensures SoundStep(w, step)
  {
    hide DataInv, ConfigInv, After, StartOk;
    CoreFacts(w);
    if Beginning(w, step).Some? {
      BeginsMigrating(w, step);
      StepKeepsConfigs(w, step);
      AdjacentMeans(After(w, step), step.c);
      NewIsOfficial(w, step);
      NeighbourMayBegin(w, Beginning(w, step).value.0, Beginning(w, step).value.1);
    }
  }

  lemma AdjacentMeans(w: World, c: nat)
    requires Adjacent(w) && c in w.controllers && w.controllers[c].Migrating?
    ensures w.controllers[c].new_.num == w.controllers[c].cur.num + 1
  {
  }

  lemma NewIsOfficial(w: World, step: Step)
    requires ConfigInv(w) && Possible(w, step) && Beginning(w, step).Some?
    ensures Official(w.accepted, Beginning(w, step).value.1)
  {
    KnownController(w, step.c);
  }

  /** The first i steps, being sound, have led to a state in order. */
  lemma PrefixKeepsData(hash: Hash, ws: seq<World>, steps: seq<Step>, i: nat)
    requires IsRun(hash, ws, steps) && i <= |steps| && forall j :: 0 <= j < i ==> SoundStep(ws[j], steps[j])
    ensures DataInv(ws[i])
  {
    hide DataInv, SoundStep, Possible, After;
    assert Follows(ws[..i + 1], steps[..i]);
    assert SoundSteps(ws[..i + 1], steps[..i]);
    RunKeepsData(hash, ws[..i + 1], steps[..i], i);
  }

  // ----- What safety means -----------------------------------------------------------------

  /** Group g serves shard s in the state. */
  predicate Serves(w: World, g: Gid, s: nat)
    requires s < NSHARDS
  {
    GroupAt(w, g).Valid() && GroupAt(w, g).states[s] == Ready
  }

  /** The pairs of shard s that group g stores. */
  function PairsAt(w: World, g: Gid, s: nat): Store {
    Part(w.hash, GroupAt(w, g).store, s)
  }

  /** The pairs of shard s that the clients have written. */
  function Wanted(w: World, s: nat): Store {
    Part(w.hash, w.spec, s)
  }

  /** Group g has the shard, to serve it or to hand it over. */
  predicate Keeps(w: World, g: Gid, s: nat)
    requires s < NSHARDS
  {
    && GroupAt(w, g).Valid() && (GroupAt(w, g).states[s] == Ready || GroupAt(w, g).states[s] == Frozen)
    && PairsAt(w, g, s) == Wanted(w, s)
  }

  /** No further configuration is announced. */
  predicate AtRest(w: World) {
    w.cfg.Some? && w.next == w.cfg && WellFormed(w.cfg.value.config)
  }

  /** One server at most, which has the clients' pairs; the shard is somewhere, and at rest where it should be. */
  ghost predicate ShardSafe(w: World, s: nat)
    requires s < NSHARDS
  {
    && (forall g: Gid, h: Gid :: Serves(w, g, s) && Serves(w, h, s) ==> g == h)
    && (forall g: Gid :: Serves(w, g, s) ==> PairsAt(w, g, s) == Wanted(w, s))
    && (exists g: Gid :: Keeps(w, g, s))
    && (AtRest(w) ==> Serves(w, w.cfg.value.config.shards[s], s))
  }

  ghost predicate Safe(w: World) {
    forall s: nat :: s < NSHARDS ==> ShardSafe(w, s)
  }

  lemma CellMeans(w: World, g: Gid, s: nat)
    requires CoreValid(CoreOf(w)) && s < NSHARDS
    ensures var c := CellOf(CoreOf(w), g, s);
            GroupAt(w, g).Valid() && c.state == GroupAt(w, g).states[s] && c.num == GroupAt(w, g).nums[s] && c.data == PairsAt(w, g, s)
  {
  }

  /** States in order are safe. */
  lemma InOrderIsSafe(w: World, s: nat)
    requires DataInv(w) && s < NSHARDS
    ensures ShardSafe(w, s)
  {
    hide DataInv, CoreInv, Low, Lone, CellOf, PairsAt, Wanted;
    CoreFacts(w);
    var k := CoreOf(w);
    PhaseByNumber(k, s);
    forall g: Gid
      ensures Serves(w, g, s) ==> PairsAt(w, g, s) == Wanted(w, s) && (AtHome(k, s) ==> g == Owner(k, k.published, s))
      ensures Serves(w, g, s) ==> !InTransit(k, s) && (Arrived(k, s) ==> g == Heir(k, s))
    {
      CellMeans(w, g, s);
      TruthMeans(w, s);
      if Serves(w, g, s) {
        ServerHoldsTruth(k, g, s);
      }
    }
    var keeper := SomeoneKeeps(w, s);
    if AtRest(w) {
      AtRestOwnerServes(w, s);
    }
  }

  lemma TruthMeans(w: World, s: nat)
    ensures Truth(CoreOf(w), s) == Wanted(w, s)
  {
  }

  /** The owner keeps the shard until the heir serves it. */
  lemma SomeoneKeeps(w: World, s: nat) returns (g: Gid)
    requires DataInv(w) && s < NSHARDS
    ensures Keeps(w, g, s)
    ensures !Serves(w, g, s) ==> forall h: Gid :: h != g ==> !Serves(w, h, s) && PairsAt(w, h, s) == map[]
  {
    hide DataInv, CoreInv, Low, CellOf, PairsAt, Wanted;
    CoreFacts(w);
    var k := CoreOf(w);
    PhaseByNumber(k, s);
    g := if Arrived(k, s) then Heir(k, s) else Owner(k, k.published, s);
    CellMeans(w, g, s);
    TruthMeans(w, s);
    forall h: Gid | h != g && !Serves(w, g, s)
      ensures !Serves(w, h, s) && PairsAt(w, h, s) == map[]
    {
      CellMeans(w, h, s);
    }
  }

  lemma AtRestOwnerServes(w: World, s: nat)
    requires DataInv(w) && s < NSHARDS && AtRest(w)
    ensures Serves(w, w.cfg.value.config.shards[s], s)
  {
    hide DataInv, CoreInv, Low, Lone, CellOf, PairsAt, Wanted;
    CoreFacts(w);
    var k := CoreOf(w);
    PhaseByNumber(k, s);
    assert k.published + 1 !in k.accepted;
    CellMeans(w, Owner(k, k.published, s), s);
  }

  // ----- The theorems ----------------------------------------------------------------------

  /** At most one group serves a shard, at every moment of every run. */
  lemma OneServerPerShard(hash: Hash, ws: seq<World>, steps: seq<Step>, i: nat, s: nat, g: Gid, h: Gid)
    requires SoundRun(hash, ws, steps) && i < |ws| && s < NSHARDS
    requires Serves(ws[i], g, s) && Serves(ws[i], h, s)
    ensures g == h
  {
    hide SoundRun, DataInv, Serves;
    RunKeepsData(hash, ws, steps, i);
    InOrderIsSafe(ws[i], s);
  }

  /** Whoever serves the shard of the key, and nobody else, answers a read, with what the one versioned map holds. */
  lemma ReadsAreTrue(hash: Hash, ws: seq<World>, steps: seq<Step>, i: nat, g: Gid, key: Key)
    requires SoundRun(hash, ws, steps) && i < |ws|
    ensures GroupAt(ws[i], g).Valid()
    ensures var reply := DoGet(hash, GroupAt(ws[i], g), key);
            && (reply.err == ErrWrongGroup <==> !Serves(ws[i], g, ShardOf(hash, key)))
            && (reply.err != ErrWrongGroup ==> reply == Get(ws[i].spec, key))
  {
    hide SoundRun, DataInv;
    RunKeepsData(hash, ws, steps, i);
    SameHash(hash, ws, steps, i);
    CoreFacts(ws[i]);
    var s := ShardOf(hash, key);
    InOrderIsSafe(ws[i], s);
    if Serves(ws[i], g, s) {
      PartOfPut(hash, ws[i].spec, key, "", 0, s);
      PartOfPut(hash, GroupAt(ws[i], g).store, key, "", 0, s);
    }
  }

  /** Whoever serves the shard, and nobody else, answers a write, as the one versioned map would; verdict and effect agree. */
  lemma WritesAreTrue(hash: Hash, ws: seq<World>, steps: seq<Step>, i: nat, g: Gid, key: Key, v: Value, version: nat)
    requires SoundRun(hash, ws, steps) && i < |ws|
    ensures GroupsValid(ws[i]) && GroupAt(ws[i], g).Valid()
    ensures var err := DoPut(hash, GroupAt(ws[i], g), key, v, version).1;
            && (err == ErrWrongGroup <==> !Serves(ws[i], g, ShardOf(hash, key)))
            && (err != ErrWrongGroup ==> err == PutErr(ws[i].spec, key, version))
            && ClientPut(ws[i], g, key, v, version).spec ==
               if err == OK then ws[i].spec[key := Item(v, version + 1)] else ws[i].spec
  {
    hide SoundRun, DataInv;
    RunKeepsData(hash, ws, steps, i);
    SameHash(hash, ws, steps, i);
    CoreFacts(ws[i]);
    var s := ShardOf(hash, key);
    InOrderIsSafe(ws[i], s);
    if Serves(ws[i], g, s) {
      PartOfPut(hash, ws[i].spec, key, v, version, s);
      PartOfPut(hash, GroupAt(ws[i], g).store, key, v, version, s);
    }
  }

  lemma {:induction false} SameHash(hash: Hash, ws: seq<World>, steps: seq<Step>, i: nat)
    requires SoundRun(hash, ws, steps) && i < |ws|
    ensures ws[i].hash == hash
    decreases i
  {
    hide Possible, After, SoundSteps;
    if i > 0 {
      SameHash(hash, ws, steps, i - 1);
      StepKeepsHash(ws[i - 1], steps[i - 1]);
      assert ws[i - 1 + 1] == After(ws[i - 1], steps[i - 1]);
    }
  }

  lemma StepKeepsHash(w: World, step: Step)
    requires Possible(w, step)
    ensures After(w, step).hash == w.hash
  {
    hide ExecuteRequest, DoPut, PutStore, GroupsValid, WellFormed;
    if step.Executes? {
      RequestKeepsHash(w, step.request);
    }
  }

  lemma RequestKeepsHash(w: World, r: Request)
    requires GroupsValid(w) && r.shard < NSHARDS
    ensures ExecuteRequest(w, r).hash == w.hash
  {
    hide DoFreeze, DoInstall, DoDelete, GroupsValid;
  }

  /**
   No shard is lost: some group serves it or is about to hand it over, with exactly the clients' pairs;
   while nobody serves it, nobody else holds any of it.
   */
  lemma NoShardIsLost(hash: Hash, ws: seq<World>, steps: seq<Step>, i: nat, s: nat) returns (g: Gid)
    requires SoundRun(hash, ws, steps) && i < |ws| && s < NSHARDS
    ensures Keeps(ws[i], g, s)
    ensures !Serves(ws[i], g, s) ==> forall h: Gid :: h != g ==> !Serves(ws[i], h, s) && PairsAt(ws[i], h, s) == map[]
  {
    hide SoundRun, DataInv, PairsAt, Keeps;
    RunKeepsData(hash, ws, steps, i);
    g := SomeoneKeeps(ws[i], s);
  }

  /** When no further configuration is announced, every shard is served by the group the current one names. */
  lemma AtRestOwnersServe(hash: Hash, ws: seq<World>, steps: seq<Step>, i: nat, s: nat)
    requires SoundRun(hash, ws, steps) && i < |ws| && s < NSHARDS
    requires ws[i].cfg.Some? && ws[i].next == ws[i].cfg
    ensures WellFormed(ws[i].cfg.value.config)
    ensures var g := ws[i].cfg.value.config.shards[s];
            Serves(ws[i], g, s) && PairsAt(ws[i], g, s) == Wanted(ws[i], s)
  {
    hide SoundRun, DataInv, CoreInv, PairsAt, Wanted, Serves;
    RunKeepsData(hash, ws, steps, i);
    CoreFacts(ws[i]);
    InOrderIsSafe(ws[i], s);
  }
}
