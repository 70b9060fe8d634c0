/**
 A run in which a shard is lost.  Controller 1 reads configuration 1 and pauses; controller 0 takes the
 system to configuration 2 and announces configuration 3; controller 1 reads the announcement and goes
 from 1 to 3, ahead of controller 0, which goes from 2 to 3.
 */
module ShardLostRun {
  import opened RaftTypes
  import opened VersionedMap
  import opened ShardGroup
  import opened ShardControl
  import opened ShardConfigs
  import opened ShardMigration
  import opened ShardSafety
  import opened ShardSteps

  /** The next configuration, with shard s at g. */
  function Moved(c: Config, s: nat, g: Gid): (r: Config)
    requires WellFormed(c) && s < NSHARDS
    ensures WellFormed(r) && r.num == c.num + 1
  {
    Config(c.num + 1, c.shards[s := g], c.groups)
  }

  /** The shard is at g with the given pairs, and nowhere else. */
  ghost predicate OnlyAt(w: World, s: nat, g: Gid, data: Store)
    requires GroupsValid(w) && s < NSHARDS
  {
    CellIn(w, g, s).data == data && forall h: Gid :: h != g ==> CellIn(w, h, s).data == map[]
  }

  /** No group has been touched by a configuration after `top`. */
  ghost predicate NumsUpTo(w: World, s: nat, top: nat)
    requires GroupsValid(w) && s < NSHARDS
  {
    forall g: Gid :: CellIn(w, g, s).num <= top
  }

  /** InitConfig's two writes have been executed. */
  lemma Initialised(hash: Hash, groups: Addresses) returns (w: World)
    ensures Leads(Start(hash, groups), w)
    ensures var first := Some(Stored(First(groups), 1)); w == Start(hash, groups).(cfg := first, next := first, wins := w.wins)
  {
    hide Leads;
    var w0, first := Start(hash, groups), First(groups);
    OneStep(w0, StoreWrites(Publication(first)));
    var w1 := After(w0, StoreWrites(Publication(first)));
    Then(w0, w1, StoreWrites(Intent(first)));
    w := After(w1, StoreWrites(Intent(first)));
    assert w.accepted == w0.accepted;
  }

  /** The first configuration is in force, and controller 1 has read it; a client has written one pair. */
  lemma Booted(hash: Hash, groups: Addresses, key: Key, v: Value) returns (w: World)
    ensures Leads(Start(hash, groups), w) && GroupsValid(w)
    ensures w.hash == hash && w.spec == map[key := Item(v, 1)] && w.controllers == map[1 := Recovering(First(groups))]
    ensures w.cfg == Some(Stored(First(groups), 1)) && w.next == w.cfg
    ensures OnlyAt(w, ShardOf(hash, key), GID1, map[key := Item(v, 1)]) && NumsUpTo(w, ShardOf(hash, key), 1)
  {
    hide Leads, OnlyAt, NumsUpTo;
    var w0 := Start(hash, groups);
    var w1 := Initialised(hash, groups);
    Then(w0, w1, RecoversCfg(1));
    var w2 := After(w1, RecoversCfg(1));
    Then(w0, w2, Puts(GID1, key, v, 0));
    w := After(w2, Puts(GID1, key, v, 0));
    FirstPair(w2, key, v);
  }

  lemma FirstPair(w: World, key: Key, v: Value)
    requires w.groups == map[] && w.spec == map[]
    ensures var w', s, data := ClientPut(w, GID1, key, v, 0), ShardOf(w.hash, key), map[key := Item(v, 1)];
            w'.spec == data && GroupsValid(w') && OnlyAt(w', s, GID1, data) && NumsUpTo(w', s, 1)
  {
    var s := ShardOf(w.hash, key);
    PutCells(w.hash, FreshGroup(GID1), key, v, 0, s);
    assert forall g: Gid :: Part(w.hash, FreshGroup(g).store, s) == map[];
  }

  /** A controller announces the next configuration and begins to migrate to it. */
  lemma Began(w: World, c: nat, n: Config) returns (w': World)
    requires DataInv(w) && ControllerAt(w, c).Idle? && w.cfg.Some? && w.next == w.cfg
    requires WellFormed(n) && n.num == w.cfg.value.config.num + 1
    ensures Leads(w, w') && DataInv(w') && Going(w', c, Migrating(w.cfg.value.config, n, 0, None))
    ensures w' == w.(controllers := w.controllers[c := Migrating(w.cfg.value.config, n, 0, None)], writes := w'.writes,
                     wins := w'.wins, next := Some(Stored(n, n.num)), accepted := w.accepted[n.num := n])
  {
    hide Leads, DataInv, CoreInv, StartOk, ConfigInv, CoreValid;
    CoreFacts(w);
    CurrentVersion(w);
    var w1 := Announce(w, c, n);
    LeadsInOrder(w, w1);
    CoreFacts(w1);
    CurrentIsOfficial(w1);
    NeighbourMayBegin(w1, w.cfg.value.config, n);
    Then(w, w1, Wins(c));
    w' := After(w1, Wins(c));
    LeadsInOrder(w, w');
  }

  /** A controller that is left alone takes shard s to g and publishes. */
  lemma TakenTo(w: World, c: nat, s: nat, o: Gid, g: Gid, data: Store) returns (w': World)
    requires DataInv(w) && GroupsValid(w) && ControllerAt(w, c).Idle? && w.cfg.Some? && w.next == w.cfg && WellFormed(w.cfg.value.config)
    requires s < NSHARDS && w.cfg.value.config.shards[s] == o && g != o
    requires OnlyAt(w, s, o, data) && NumsUpTo(w, s, w.cfg.value.config.num)
    ensures Leads(w, w') && DataInv(w') && GroupsValid(w') && w'.hash == w.hash && w'.spec == w.spec
    ensures var n := Moved(w.cfg.value.config, s, g);
            w'.cfg == Some(Stored(n, n.num)) && w'.next == w'.cfg && NumsUpTo(w', s, n.num)
    ensures w'.controllers == w.controllers[c := Idle] && OnlyAt(w', s, g, data)
  {
    hide Leads, DataInv, CellIn;
    var n := Moved(w.cfg.value.config, s, g);
    var w1 := Began(w, c, n);
    var x := Migrating(w.cfg.value.config, n, 0, None);
    var w2 := MoveOnTheWay(w1, c, x, s);
    CurrentVersion(w);
    w' := Publish(w2, c, x.(shard := NSHARDS));
    Join(w, w1, w2);
    Join(w, w2, w');
    LeadsInOrder(w, w');
    forall h: Gid
      ensures CellIn(w1, h, s) == CellIn(w, h, s) && CellIn(w', h, s) == CellIn(w2, h, s)
    {
      SameCell(w, w1, h, s);
      SameCell(w2, w', h, s);
    }
    assert map[] + data == data;
  }

  lemma CurrentVersion(w: World)
    requires DataInv(w) && w.cfg.Some?
    ensures w.cfg.value.version == w.cfg.value.config.num
  {
  }

  /** Controller 1 goes from `old` to n, and then controller 0 from cur to n; the shard was at b with cur. */
  lemma BothMove(w: World, old_: Config, cur: Config, n: Config, s: nat, data: Store) returns (w': World)
    requires s < NSHARDS && Going(w, 0, Migrating(cur, n, 0, None)) && Going(w, 1, Migrating(old_, n, 0, None))
    requires old_.shards[s] != cur.shards[s] && old_.shards[s] != n.shards[s] && cur.shards[s] != n.shards[s]
    requires OnlyAt(w, s, cur.shards[s], data) && NumsUpTo(w, s, n.num - 1)
    ensures Leads(w, w') && w'.hash == w.hash && w'.spec == w.spec && GroupsValid(w')
    ensures forall g: Gid :: CellIn(w', g, s).data == map[]
  {
    hide Leads, CellIn;
    var a, b, d := old_.shards[s], cur.shards[s], n.shards[s];
    var x, y := Migrating(cur, n, 0, None), Migrating(old_, n, 0, None);
    var w1 := Advance(w, 1, y, s);
    var w2 := MoveAlone(w1, 1, y.(shard := s));
    assert Undisturbed(w, w1, s);
    assert CellIn(w2, d, s).num == n.num && CellIn(w2, b, s) == CellIn(w, b, s);
    assert forall g: Gid :: g != b ==> CellIn(w2, g, s).data == map[];
    var w3 := Advance(w2, 0, x, s);
    w' := MoveAlone(w3, 0, x.(shard := s));
    assert Undisturbed(w2, w3, s);
    Join(w, w1, w2);
    Join(w, w2, w3);
    Join(w, w3, w');
  }

  /** Up to the moment the paused controller reads the announcement. */
  lemma Announced(hash: Hash, groups: Addresses, key: Key, v: Value, g2: Gid, g3: Gid) returns (w: World)
    requires g2 != GID1 && g3 != GID1 && g2 != g3
    ensures Leads(Start(hash, groups), w) && w.hash == hash && w.spec == map[key := Item(v, 1)]
    ensures var s, first := ShardOf(hash, key), First(groups);
            var second := Moved(first, s, g2);
            var third := Moved(second, s, g3);
            && w.cfg == Some(Stored(second, 2)) && w.next == Some(Stored(third, 3))
            && w.controllers == map[0 := Migrating(second, third, 0, None), 1 := Recovering(first)]
            && GroupsValid(w) && OnlyAt(w, s, g2, map[key := Item(v, 1)]) && NumsUpTo(w, s, 2)
  {
    hide Leads, DataInv, CellIn;
    var s, first := ShardOf(hash, key), First(groups);
    var start, second := Start(hash, groups), Moved(first, s, g2);
    StartData(hash, groups);
    var w1 := Booted(hash, groups, key, v);
    LeadsInOrder(start, w1);
    var w2 := TakenTo(w1, 0, s, GID1, g2, map[key := Item(v, 1)]);
    w := Began(w2, 0, Moved(second, s, g3));
    Join(start, w1, w2);
    Join(start, w2, w);
    forall h: Gid
      ensures CellIn(w, h, s) == CellIn(w2, h, s)
    {
      SameCell(w2, w, h, s);
    }
  }

  /**
   Although every caller proposes the very next configuration, a recovery may skip one, and then a shard is
   lost: a client has written a pair, and in the end no group has it.
   */
  lemma SkippingLosesTheShard(hash: Hash, groups: Addresses, key: Key, v: Value, g2: Gid, g3: Gid)
    returns (ws: seq<World>, steps: seq<Step>)
    requires g2 != GID1 && g3 != GID1 && g2 != g3
    ensures IsRun(hash, ws, steps) && AllPolite(ws, steps) && exists w :: w in ws && !Adjacent(w)
    ensures var w, s := ws[|steps|], ShardOf(hash, key);
            && Wanted(w, s) == map[key := Item(v, 1)]
            && forall g: Gid :: PairsAt(w, g, s) == map[] && !Keeps(w, g, s)
  {
    hide Leads, CellIn, DataInv;
    var s, start := ShardOf(hash, key), Start(hash, groups);
    var w := Announced(hash, groups, key, v, g2, g3);
    var cur, n, data := w.cfg.value.config, w.next.value.config, map[key := Item(v, 1)];
    var step := RecoversNext(1);
    var w1 := After(w, step);
    forall h: Gid
      ensures CellIn(w1, h, s) == CellIn(w, h, s)
    {
      SameCell(w, w1, h, s);
    }
    var w2 := BothMove(w1, First(groups), cur, n, s, data);
    ws, steps := Spliced(start, w, step, w2);
    assert w1.controllers[1] == Migrating(First(groups), n, 0, None);
    assert !Adjacent(w1);
    forall g: Gid
      ensures PairsAt(w2, g, s) == map[]
    {
      CellServes(w2, g, s);
    }
    assert key in Wanted(w2, s);
  }

  /** Two stretches with one step between them that may begin anything. */
  lemma Spliced(a: World, b: World, step: Step, d: World) returns (ws: seq<World>, steps: seq<Step>)
    requires Leads(a, b) && Possible(b, step) && Polite(b, step) && Leads(After(b, step), d)
    ensures Follows(ws, steps) && AllPolite(ws, steps) && ws[0] == a && ws[|steps|] == d && After(b, step) in ws
  {
    hide Possible, After, SoundSteps, Polite;
    var us, before :| Path(us, before, a, b);
    var vs, later :| Path(vs, later, After(b, step), d);
    Joined(us, before, [b, After(b, step)], [step]);
    var mid, part := us + [b, After(b, step)][1..], before + [step];
    Joined(mid, part, vs, later);
    ws, steps := mid + vs[1..], part + later;
    assert ws[|before| + 1] == After(b, step);
  }
}
