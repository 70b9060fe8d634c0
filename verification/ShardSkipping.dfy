/**
 When a recovering controller may skip a configuration.  Its two reads are separate, so what it has
 read as current may be out of date when it reads the intent; exactly when that matters is stated
 here, with a run in which a shard is lost although every caller has behaved.
 */
module ShardSkipping {
  import opened RaftTypes
  import opened VersionedMap
  import opened ShardGroup
  import opened ShardControl
  import opened ShardConfigs
  import opened ShardMigration
  import opened ShardSafety
  import opened ShardSteps

  // ----- Polite callers ----------------------------------------------------------------------

  /** At most one configuration is announced beyond the one in force. */
  ghost predicate OneAhead(w: World) {
    && (w.next.Some? ==> w.next.value.config.num <= Published(w) + 1)
    && (forall p :: p in w.writes && p.slot == Next ==> p.config.num <= Published(w) + 1)
    && (forall c :: c in w.controllers && w.controllers[c].Proposing? ==> w.controllers[c].new_.num == w.controllers[c].cur.num + 1)
  }

  /** The two slots stay; one controller changes; whoever proposes proposes the next configuration. */
  lemma ControllerStaysClose(w: World, w': World, c: nat)
    requires OneAhead(w) && w'.cfg == w.cfg && w'.next == w.next && c in w'.controllers
    requires w'.controllers == w.controllers[c := w'.controllers[c]]
    requires w'.controllers[c].Proposing? ==> w'.controllers[c].new_.num == w'.controllers[c].cur.num + 1
    requires forall p :: p in w'.writes && p.slot == Next ==> p in w.writes || p.config.num <= Published(w) + 1
    ensures OneAhead(w')
  {
  }

  lemma StoreStaysClose(w: World, p: Write)
    requires ConfigInv(w) && OneAhead(w) && p in w.writes
    ensures OneAhead(ExecuteWrite(w, p))
  {
    hide ConfigInv;
    StepKeepsConfigs(w, StoreWrites(p));
  }

  lemma ProposerStaysClose(w: World, c: nat, n: Config)
    requires OneAhead(w) && Possible(w, Proposes(c, n)) && Polite(w, Proposes(c, n))
    ensures OneAhead(Propose(w, c, n))
  {
    hide OneAhead, GroupsValid;
    ControllerStaysClose(w, Propose(w, c, n), c);
  }

  lemma LoopStaysClose(w: World, c: nat)
    requires OneAhead(w) && Possible(w, Loops(c))
    ensures OneAhead(LoopHead(w, c))
  {
    hide OneAhead, GroupsValid;
    ControllerStaysClose(w, LoopHead(w, c), c);
  }

  lemma ListenerStaysClose(w: World, c: nat, a: Answer)
    requires OneAhead(w) && Possible(w, Hears(c, a))
    ensures OneAhead(Answered(w, c, a))
  {
    hide OneAhead, GroupsValid;
    ControllerStaysClose(w, Answered(w, c, a), c);
  }

  lemma OthersStayClose(w: World, step: Step)
    requires OneAhead(w) && Possible(w, step) && (step.Wins? || step.Rereads? || step.RecoversCfg? || step.RecoversNext? || step.Stops?)
    ensures OneAhead(After(w, step))
  {
    hide OneAhead, GroupsValid;
    var w' := After(w, step);
    if step.RecoversCfg? && w.cfg.None? {
      assert w' == w;
    } else {
      ControllerStaysClose(w, w', step.c);
    }
  }

  lemma GroupsStayClose(w: World, step: Step)
    requires OneAhead(w) && Possible(w, step) && (step.Executes? || step.Puts?)
    ensures OneAhead(After(w, step))
  {
    hide DoFreeze, DoInstall, DoDelete, DoPut, PutStore, GroupsValid, OneAhead;
    var w' := After(w, step);
    assert w'.cfg == w.cfg && w'.next == w.next && w'.writes == w.writes && w'.controllers == w.controllers;
    SameControl(w, w');
  }

  lemma SameControl(w: World, w': World)
    requires OneAhead(w) && w'.cfg == w.cfg && w'.next == w.next && w'.writes == w.writes && w'.controllers == w.controllers
    ensures OneAhead(w')
  {
  }

  lemma PoliteStepKeeps(w: World, step: Step)
    requires ConfigInv(w) && OneAhead(w) && Possible(w, step) && Polite(w, step)
    ensures OneAhead(After(w, step))
  {
    hide ConfigInv, OneAhead, ExecuteWrite, ExecuteRequest, ClientPut, GroupsValid, WellFormed, Propose, ProposalWon,
      ProposalReread, RecoverCfg, RecoverNext, LoopHead, Answered;
    match step
    case StoreWrites(p) => StoreStaysClose(w, p);
    case Proposes(c, n) => ProposerStaysClose(w, c, n);
    case Loops(c) => LoopStaysClose(w, c);
    case Hears(c, a) => ListenerStaysClose(w, c, a);
    case Executes(r) => GroupsStayClose(w, step);
    case Puts(g, k, v, version) => GroupsStayClose(w, step);
    case _ => OthersStayClose(w, step);
  }

  lemma {:induction false} PoliteRunStaysClose(hash: Hash, ws: seq<World>, steps: seq<Step>, i: nat)
    requires IsRun(hash, ws, steps) && AllPolite(ws, steps) && i < |ws|
    ensures ConfigInv(ws[i]) && OneAhead(ws[i])
    decreases i
  {
    hide ConfigInv, OneAhead, Possible, After, Polite;
    if i == 0 {
      StartConfigs(hash, ws[0].accepted[FIRST_NUM].groups);
      StartsClose(hash, ws[0].accepted[FIRST_NUM].groups);
    } else {
      PoliteRunStaysClose(hash, ws, steps, i - 1);
      var j := i - 1;
      assert Possible(ws[j], steps[j]) && ws[j + 1] == After(ws[j], steps[j]) && Polite(ws[j], steps[j]);
      PoliteStepKeeps(ws[j], steps[j]);
      StepKeepsConfigs(ws[j], steps[j]);
    }
  }

  lemma StartsClose(hash: Hash, groups: Addresses)
    ensures OneAhead(Start(hash, groups))
  {
  }

  /** With polite callers, only a recovery can begin a migration that may not be begun. */
  lemma OnlyRecoveriesSkip(w: World, step: Step)
    requires DataInv(w) && OneAhead(w) && Possible(w, step) && !step.RecoversNext?
    ensures SoundStep(w, step)
  {
    hide DataInv, ConfigInv, StartOk;
    CoreFacts(w);
    if Beginning(w, step).Some? {
      BeginsMigrating(w, step);
      NewIsOfficial(w, step);
      NeighbourMayBegin(w, Beginning(w, step).value.0, Beginning(w, step).value.1);
    }
  }

  /** A recovery is harmless if nothing has been published between its two reads. */
  lemma FreshRecoveryIsSound(w: World, c: nat)
    requires DataInv(w) && OneAhead(w) && ControllerAt(w, c).Recovering? && ControllerAt(w, c).cur.num == Published(w)
    ensures SoundStep(w, RecoversNext(c))
  {
    hide DataInv, ConfigInv, StartOk;
    CoreFacts(w);
    var step := RecoversNext(c);
    if Beginning(w, step).Some? {
      BeginsMigrating(w, step);
      NewIsOfficial(w, step);
      NeighbourMayBegin(w, Beginning(w, step).value.0, Beginning(w, step).value.1);
    }
  }

  /** Polite callers, and recoveries that see nothing published between their two reads, make a run sound. */
  lemma {:induction false} FreshRunIsSound(hash: Hash, ws: seq<World>, steps: seq<Step>, n: nat)
    requires IsRun(hash, ws, steps) && AllPolite(ws, steps) && n <= |steps|
    requires forall i :: 0 <= i < |steps| && steps[i].RecoversNext? ==> ControllerAt(ws[i], steps[i].c).cur.num == Published(ws[i])
    ensures forall i :: 0 <= i < n ==> SoundStep(ws[i], steps[i])
    ensures n == |steps| ==> SoundRun(hash, ws, steps)
    decreases n
  {
    hide DataInv, ConfigInv, OneAhead, After, SoundStep, Polite;
    if n > 0 {
      FreshRunIsSound(hash, ws, steps, n - 1);
      PrefixKeepsData(hash, ws, steps, n - 1);
      PoliteRunStaysClose(hash, ws, steps, n - 1);
      var w, step := ws[n - 1], steps[n - 1];
      assert Possible(w, step);
      if step.RecoversNext? {
        FreshRecoveryIsSound(w, step.c);
      } else {
        OnlyRecoveriesSkip(w, step);
      }
    }
  }

  // ----- A migration that has gone astray ----------------------------------------------------

  lemma {:induction false} LeadsKeepsConfigs(w: World, w': World)
    requires ConfigInv(w) && Leads(w, w')
    ensures ConfigInv(w')
  {
    hide ConfigInv, Follows, SoundSteps, AllPolite;
    var ws, steps :| Path(ws, steps, w, w');
    FollowsShape(ws, steps);
    FollowingKeepsConfigs(ws, steps, |steps|);
  }

  lemma {:induction false} FollowingKeepsConfigs(ws: seq<World>, steps: seq<Step>, i: nat)
    requires Follows(ws, steps) && ConfigInv(ws[0]) && i < |ws|
    ensures ConfigInv(ws[i])
    decreases i
  {
    hide ConfigInv, Possible, After;
    if i > 0 {
      FollowingKeepsConfigs(ws, steps, i - 1);
      var j := i - 1;
      assert Possible(ws[j], steps[j]) && ws[j + 1] == After(ws[j], steps[j]);
      StepKeepsConfigs(ws[j], steps[j]);
    }
  }

  lemma ConfigsMakeValid(w: World)
    requires ConfigInv(w) && GroupsValid(w)
    ensures CoreValid(CoreOf(w))
  {
  }

  /**
   Controller c has begun to migrate to the configuration after the one in force, which moves shard s;
   but it believes the shard to be where it is not.
   */
  ghost predicate Astray(w: World, c: nat, x: Controller, s: nat) {
    && ConfigInv(w) && CoreInv(CoreOf(w)) && Going(w, c, x) && x.call.None? && x.shard == 0 && s < NSHARDS
    && w.cfg.Some? && w.next.Some? && w.next.value.config == x.new_ && x.new_.num == Published(w) + 1
    && WellFormed(w.cfg.value.config)
    && x.cur.shards[s] != w.cfg.value.config.shards[s] && x.new_.shards[s] != w.cfg.value.config.shards[s]
  }

  /** Where shard s is, and where it is to go. */
  function Home(w: World, s: nat): Gid
    requires w.cfg.Some? && WellFormed(w.cfg.value.config) && s < NSHARDS
  {
    w.cfg.value.config.shards[s]
  }

  lemma AstrayFacts(w: World, c: nat, x: Controller, s: nat)
    requires Astray(w, c, x, s)
    ensures CoreValid(CoreOf(w))
    ensures var k := CoreOf(w);
            && Owner(k, k.published, s) == Home(w, s) && Heir(k, s) == x.new_.shards[s] && k.published + 1 in k.accepted
            && Accepts(w.cfg, x.new_.num - 1) && w.next == Some(Stored(x.new_, x.new_.num))
            && (AtHome(k, s) || InTransit(k, s) || Arrived(k, s))
    ensures forall g: Gid :: CellIn(w, g, s) == CellOf(CoreOf(w), g, s)
  {
    hide Low, Lone, CellAt, ReadyOk, PastOk;
    assert ShardOk(CoreOf(w), s);
  }

  /** A shard that has not arrived is served twice, or served empty. */
  lemma MovedFromNowhere(w: World, c: nat, x: Controller, s: nat) returns (w': World)
    requires Astray(w, c, x, s) && x.cur.shards[s] != x.new_.shards[s]
    requires CoreValid(CoreOf(w)) && (AtHome(CoreOf(w), s) || (InTransit(CoreOf(w), s) && Wanted(w, s) != map[]))
    ensures Leads(w, w') && !ShardSafe(w', s)
  {
    hide Leads, CoreInv, ConfigInv, CellIn, CellOf;
    AstrayFacts(w, c, x, s);
    var k, o, d, a, m := CoreOf(w), Home(w, s), x.new_.shards[s], x.cur.shards[s], x.new_.num;
    var w1 := Advance(w, c, x, s);
    assert Undisturbed(w, w1, s);
    var y := x.(shard := s);
    w' := MoveAlone(w1, c, y);
    Join(w, w1, w');
    assert CellIn(w1, o, s) == CellIn(w, o, s) && CellIn(w1, d, s) == CellIn(w, d, s) && CellIn(w1, a, s) == CellIn(w, a, s);
    assert CellIn(w', o, s) == CellIn(w, o, s);
    assert CellIn(w, d, s).data == map[] && CellIn(w, a, s).data == map[] && CellIn(w, d, s).num < m;
    assert CellIn(w', d, s).state == Ready && CellIn(w', d, s).data == map[];
    CellServes(w', o, s);
    CellServes(w', d, s);
    assert Wanted(w', s) == Wanted(w, s);
  }

  /**
   The migration is completed and published without anything having been done at the home of shard s or
   at its destination.
   */
  lemma PublishedAround(w: World, c: nat, x: Controller, s: nat) returns (w': World)
    requires Astray(w, c, x, s)
    requires x.cur.shards[s] == x.new_.shards[s] || CellIn(w, x.new_.shards[s], s).num >= x.new_.num
    ensures Leads(w, w') && GroupsValid(w')
    ensures w' == w.(controllers := w.controllers[c := Idle], groups := w'.groups, sent := w'.sent, answers := w'.answers,
                     writes := w'.writes, wins := w'.wins, cfg := Some(Stored(x.new_, x.new_.num)))
    ensures forall g :: g == Home(w, s) || g == x.new_.shards[s] ==> CellIn(w', g, s) == CellIn(w, g, s)
  {
    hide Leads, CoreInv, ConfigInv, CellIn, CellOf, AtHome, InTransit, Arrived, Heir;
    AstrayFacts(w, c, x, s);
    var w1 := Advance(w, c, x, s);
    assert Undisturbed(w, w1, s);
    var w2 := StepAround(w1, c, x.(shard := s), Home(w, s));
    var w3 := Advance(w2, c, x.(shard := s + 1), NSHARDS);
    assert Undisturbed(w2, w3, s);
    w' := Publish(w3, c, x.(shard := NSHARDS));
    Join(w, w1, w2);
    Join(w, w2, w3);
    Join(w, w3, w');
    forall g | g == Home(w, s) || g == x.new_.shards[s]
      ensures CellIn(w', g, s) == CellIn(w, g, s)
    {
      SameCell(w3, w', g, s);
      assert CellIn(w1, g, s) == CellIn(w, g, s) && CellIn(w3, g, s) == CellIn(w2, g, s);
    }
  }

  /** The shard at hand is passed over, or moved in vain between two groups that do not have it. */
  lemma StepAround(w: World, c: nat, x: Controller, o: Gid) returns (w': World)
    requires Going(w, c, x) && x.call.None? && x.shard < NSHARDS && o != Source(x) && o != Target(x)
    requires Source(x) == Target(x) || CellIn(w, Target(x), x.shard).num >= x.new_.num
    ensures Leads(w, w') && OnlyGroups(w, w', c) && Going(w', c, x.(shard := x.shard + 1))
    ensures forall g :: g == o || g == Target(x) ==> CellIn(w', g, x.shard) == CellIn(w, g, x.shard)
  {
    hide Leads, CellIn;
    if Source(x) == Target(x) {
      OneStep(w, Loops(c));
      w' := After(w, Loops(c));
      SameCell(w, w', o, x.shard);
      SameCell(w, w', Target(x), x.shard);
    } else {
      w' := MoveAlone(w, c, x);
    }
  }

  /** A shard that has not arrived is stranded: published, at rest, and not served where it should be. */
  lemma Stranded(w: World, c: nat, x: Controller, s: nat) returns (w': World)
    requires Astray(w, c, x, s) && x.cur.shards[s] == x.new_.shards[s]
    requires CoreValid(CoreOf(w)) && (AtHome(CoreOf(w), s) || InTransit(CoreOf(w), s))
    ensures Leads(w, w') && !ShardSafe(w', s)
  {
    hide Leads, CoreInv, ConfigInv, CellIn, CellOf, Low;
    AstrayFacts(w, c, x, s);
    w' := PublishedAround(w, c, x, s);
    assert CellIn(w', x.new_.shards[s], s).state != Ready;
    CellServes(w', x.new_.shards[s], s);
  }

  // ----- A stale copy that is left behind -----------------------------------------------------

  /** Configuration n again, under the next number. */
  function Again(n: Config): Config {
    n.(num := n.num + 1)
  }

  lemma {:induction false} NumberBeyond(used: set<nat>) returns (e: nat)
    ensures forall c :: c in used ==> c < e
    decreases used
  {
    e := 0;
    if used != {} {
      var c: nat :| c in used;
      var rest := NumberBeyond(used - {c});
      e := if c < rest then rest else c + 1;
      assert forall b :: b in used ==> b == c || b in used - {c};
    }
  }

  /** Announcing the same placement again moves nothing, so any migration to it may be begun. */
  lemma NothingMoves(w: World, cur: Config, n: Config)
    requires CoreValid(CoreOf(w)) && WellFormed(cur) && Official(w.accepted, n) && Official(w.accepted, Again(n)) && Published(w) == n.num
    ensures StartOk(CoreOf(w), cur, Again(n))
  {
    var k, n' := CoreOf(w), Again(n);
    assert Known(k, n'.num);
    forall t: nat | t < NSHARDS
      ensures Aligned(k, cur, n', t)
    {
    }
  }

  /**
   A copy of shard s that has been left behind at o overwrites what the clients have written since: a
   controller that still has cur for the current configuration freezes o and installs the copy.
   */
  lemma Overwritten(w: World, e: nat, cur: Config, n: Config, s: nat, key: Key) returns (w': World)
    requires ConfigInv(w) && GroupsValid(w) && ControllerAt(w, e) == Recovering(cur) && WellFormed(cur) && WellFormed(n) && s < NSHARDS
    requires Published(w) == n.num && Official(w.accepted, n) && Official(w.accepted, Again(n))
    requires w.next.Some? && w.next.value.config == Again(n) && cur.num <= n.num && cur.shards[s] != n.shards[s]
    requires CellIn(w, n.shards[s], s).num <= n.num && CellIn(w, cur.shards[s], s).num <= n.num + 1
    requires var copy, wanted := CellIn(w, cur.shards[s], s).data, Wanted(w, s);
             key in copy && key in wanted && copy[key] != wanted[key]
    ensures Leads(w, w') && !ShardSafe(w', s)
  {
    hide Leads, ConfigInv, CellIn, StartOk, CoreValid, Official;
    var o, d, n' := cur.shards[s], n.shards[s], Again(n);
    ConfigsMakeValid(w);
    NothingMoves(w, cur, n);
    OneStep(w, RecoversNext(e));
    var w1 := After(w, RecoversNext(e));
    SameCell(w, w1, o, s);
    SameCell(w, w1, d, s);
    w' := InstalledOver(w1, e, Migrating(cur, n', 0, None), s, key);
    Join(w, w1, w');
  }

  /** The pair of the source replaces the one of the destination. */
  lemma InstalledOver(w: World, e: nat, x: Controller, s: nat, key: Key) returns (w': World)
    requires Going(w, e, x) && x.call.None? && x.shard == 0 && s < NSHARDS && x.cur.shards[s] != x.new_.shards[s]
    requires CellIn(w, x.new_.shards[s], s).num < x.new_.num && CellIn(w, x.cur.shards[s], s).num <= x.new_.num
    requires var copy, wanted := CellIn(w, x.cur.shards[s], s).data, Wanted(w, s);
             key in copy && key in wanted && copy[key] != wanted[key]
    ensures Leads(w, w') && !ShardSafe(w', s)
  {
    hide Leads, CellIn;
    var o, d := x.cur.shards[s], x.new_.shards[s];
    var w1 := Advance(w, e, x, s);
    assert Undisturbed(w, w1, s);
    w' := MoveAlone(w1, e, x.(shard := s));
    Join(w, w1, w');
    assert CellIn(w1, o, s) == CellIn(w, o, s) && CellIn(w1, d, s) == CellIn(w, d, s);
    CellServes(w', d, s);
    assert PairsAt(w', d, s)[key] == CellIn(w, o, s).data[key];
    assert Wanted(w', s) == Wanted(w, s);
  }

  /** A client can always change the value of a key, at the group that serves it with the right pairs. */
  lemma ClientWrites(w: World, d: Gid, s: nat, key: Key, v: Value) returns (w': World)
    requires GroupsValid(w) && s < NSHARDS && ShardOf(w.hash, key) == s
    requires CellIn(w, d, s).state == Ready && CellIn(w, d, s).data == Wanted(w, s)
    ensures Leads(w, w') && GroupsValid(w') && w' == w.(groups := w'.groups, spec := w'.spec)
    ensures key in Wanted(w', s) && Wanted(w', s)[key].value == v
    ensures CellIn(w', d, s).num == CellIn(w, d, s).num
    ensures forall g: Gid :: g != d ==> CellIn(w', g, s) == CellIn(w, g, s)
  {
    hide Leads;
    var version := VersionOf(GroupAt(w, d).store, key);
    var step := Puts(d, key, v, version);
    OneStep(w, step);
    w' := After(w, step);
    PutCells(w.hash, GroupAt(w, d), key, v, version, s);
    PartOfPut(w.hash, w.spec, key, v, version, s);
    PartOfPut(w.hash, GroupAt(w, d).store, key, v, version, s);
  }

  /** The old owner's copy is left behind, the configuration published and announced again; meanwhile e has read the old one. */
  lemma LeftBehind(w: World, c: nat, x: Controller, s: nat) returns (w': World, e: nat)
    requires Astray(w, c, x, s) && CellIn(w, x.new_.shards[s], s).num >= x.new_.num
    ensures Leads(w, w') && ConfigInv(w') && GroupsValid(w') && ControllerAt(w', e) == Recovering(w.cfg.value.config)
    ensures Published(w') == x.new_.num && Official(w'.accepted, x.new_) && Official(w'.accepted, Again(x.new_))
    ensures w'.next.Some? && w'.next.value.config == Again(x.new_) && w'.hash == w.hash && w'.spec == w.spec
    ensures forall g :: g == Home(w, s) || g == x.new_.shards[s] ==> CellIn(w', g, s) == CellIn(w, g, s)
  {
    hide Leads, CoreInv, ConfigInv, CellIn, CellOf, AtHome, InTransit, Arrived, Heir;
    AstrayFacts(w, c, x, s);
    e := NumberBeyond(w.controllers.Keys);
    assert e !in w.controllers && c in w.controllers;
    OneStep(w, RecoversCfg(e));
    var w0 := After(w, RecoversCfg(e));
    StepKeepsConfigs(w, RecoversCfg(e));
    assert Astray(w0, c, x, s);
    forall g: Gid
      ensures CellIn(w0, g, s) == CellIn(w, g, s)
    {
      SameCell(w, w0, g, s);
    }
    var w1 := PublishedAround(w0, c, x, s);
    w' := Announce(w1, c, Again(x.new_));
    Join(w, w0, w1);
    Join(w, w1, w');
    LeadsKeepsConfigs(w, w');
    IntendedIsOfficial(w);
    forall g: Gid
      ensures CellIn(w', g, s) == CellIn(w1, g, s)
    {
      SameCell(w1, w', g, s);
    }
  }

  /** A shard that has arrived, but whose old owner still has pairs of it, comes to be served with stale pairs. */
  lemma StaleCopyReturns(w: World, c: nat, x: Controller, s: nat) returns (w': World)
    requires Astray(w, c, x, s) && CoreValid(CoreOf(w)) && Arrived(CoreOf(w), s) && CellIn(w, Home(w, s), s).data != map[]
    ensures Leads(w, w') && !ShardSafe(w', s)
  {
    hide Leads, CoreInv, ConfigInv, CellIn, CellOf, CoreValid, Low, Lone;
    AstrayFacts(w, c, x, s);
    var o, d, n := Home(w, s), x.new_.shards[s], x.new_;
    var copy := CellIn(w, o, s).data;
    var key :| key in copy;
    KeyOfShard(w, o, s, key);
    var w1, e := LeftBehind(w, c, x, s);
    var w2 := ClientWrites(w1, d, s, key, copy[key].value + "*");
    Join(w, w1, w2);
    LeadsKeepsConfigs(w, w2);
    w' := Overwritten(w2, e, w.cfg.value.config, n, s, key);
    Join(w, w2, w');
  }

  lemma KeyOfShard(w: World, g: Gid, s: nat, key: Key)
    requires GroupsValid(w) && s < NSHARDS && key in CellIn(w, g, s).data
    ensures ShardOf(w.hash, key) == s
  {
  }

  // ----- The exact condition -----------------------------------------------------------------

  /** A recovery that may not begin its migration has a shard to go astray with. */
  lemma SomeShardAstray(w: World, c: nat, s: nat)
    requires DataInv(w) && OneAhead(w) && ControllerAt(w, c).Recovering? && s < NSHARDS
    requires w.next.Some? && w.next.value.config.num > ControllerAt(w, c).cur.num
    requires CoreValid(CoreOf(w)) && WellFormed(ControllerAt(w, c).cur) && !Aligned(CoreOf(w), ControllerAt(w, c).cur, w.next.value.config, s)
    ensures Astray(After(w, RecoversNext(c)), c, Migrating(ControllerAt(w, c).cur, w.next.value.config, 0, None), s)
    ensures !Cleared(CoreOf(w), s, w.next.value.config.num)
  {
    hide CoreInv, Cleared, ConfigInv;
    CoreFacts(w);
    var n, k := w.next.value.config, CoreOf(w);
    KnownController(w, c);
    StepKeepsConfigs(w, RecoversNext(c));
    IntendedIsOfficial(w);
    CurrentIsOfficial(w);
    if n.num <= k.published {
      PastIsCleared(k, n.num, s);
      assert false;
    }
  }

  lemma PastIsCleared(k: Core, m: nat, s: nat)
    requires CoreInv(k) && CoreValid(k) && m <= k.published && s < NSHARDS && Moving(k, m, s)
    ensures Cleared(k, s, m)
  {
    hide ShardOk, ReadyOk, Cleared;
    assert DoneBelow(k, m, NSHARDS);
  }

  /** Whatever way it has gone astray, there is a continuation that makes shard s unsafe. */
  lemma AstrayBreaks(w: World, c: nat, x: Controller, s: nat) returns (w': World)
    requires Astray(w, c, x, s) && CoreValid(CoreOf(w))
    requires Moving(CoreOf(w), x.new_.num, s) && !Cleared(CoreOf(w), s, x.new_.num)
    requires InTransit(CoreOf(w), s) ==> Wanted(w, s) != map[]
    ensures Leads(w, w') && !ShardSafe(w', s)
  {
    hide Leads, CoreInv, ConfigInv, CellIn, CellOf, Low, Lone, ShardSafe;
    AstrayFacts(w, c, x, s);
    var k := CoreOf(w);
    if Arrived(k, s) {
      w' := StaleCopyReturns(w, c, x, s);
    } else if x.cur.shards[s] == x.new_.shards[s] {
      w' := Stranded(w, c, x, s);
    } else {
      w' := MovedFromNowhere(w, c, x, s);
    }
  }

  /**
   The exact condition.  A recovering controller that finds a configuration to migrate to leaves every
   continuation safe if and only if its migration may be begun: every shard that the configuration moves is
   where the controller believes it to be, or has been moved already.  (A shard that is in transit and has
   no pairs has nothing to lose.)
   */
  lemma RecoveryIsSafeExactly(w: World, c: nat)
    requires DataInv(w) && OneAhead(w) && ControllerAt(w, c).Recovering?
    requires w.next.Some? && w.next.value.config.num > ControllerAt(w, c).cur.num
    requires forall s: nat :: s < NSHARDS && InTransit(CoreOf(w), s) ==> Wanted(w, s) != map[]
    ensures StartOk(CoreOf(w), ControllerAt(w, c).cur, w.next.value.config) <==>
            forall w' :: Leads(After(w, RecoversNext(c)), w') ==> Safe(w')
  {
    hide DataInv, ConfigInv, Leads, CoreInv, Safe, StartOk, OneAhead;
    CoreFacts(w);
    var cur, n, w1, k := ControllerAt(w, c).cur, w.next.value.config, After(w, RecoversNext(c)), CoreOf(w);
    if StartOk(k, cur, n) {
      StepKeepsData(w, RecoversNext(c));
      forall w' | Leads(w1, w')
        ensures Safe(w')
      {
        LeadsInOrder(w1, w');
        AllShardsSafe(w');
      }
    } else {
      var s := ShardAtFault(w, c);
      SomeShardAstray(w, c, s);
      var w' := AstrayBreaks(w1, c, Migrating(cur, n, 0, None), s);
      NotSafe(w', s);
    }
  }

  lemma AllShardsSafe(w: World)
    requires DataInv(w)
    ensures Safe(w)
  {
    hide DataInv, ShardSafe;
    forall s: nat | s < NSHARDS
      ensures ShardSafe(w, s)
    {
      InOrderIsSafe(w, s);
    }
  }

  lemma NotSafe(w: World, s: nat)
    requires s < NSHARDS && !ShardSafe(w, s)
    ensures !Safe(w)
  {
    hide ShardSafe;
  }

  lemma ShardAtFault(w: World, c: nat) returns (s: nat)
    requires DataInv(w) && OneAhead(w) && ControllerAt(w, c).Recovering? && CoreValid(CoreOf(w))
    requires w.next.Some? && w.next.value.config.num > ControllerAt(w, c).cur.num
    requires !StartOk(CoreOf(w), ControllerAt(w, c).cur, w.next.value.config)
    ensures s < NSHARDS && WellFormed(ControllerAt(w, c).cur) && !Aligned(CoreOf(w), ControllerAt(w, c).cur, w.next.value.config, s)
  {
    hide CoreInv, Aligned;
    CoreFacts(w);
    KnownController(w, c);
    IntendedIsOfficial(w);
    s :| s < NSHARDS && !Aligned(CoreOf(w), ControllerAt(w, c).cur, w.next.value.config, s);
  }

  // ----- A migration can always be completed --------------------------------------------------

  /** The configuration in force is the one intended, or the one before it. */
  lemma IntendedIsClose(w: World)
    requires ConfigInv(w) && OneAhead(w) && w.cfg.Some? && w.next.Some?
    ensures w.next == w.cfg || w.next.value.config.num == w.cfg.value.config.num + 1
    ensures w.cfg.value.version == w.cfg.value.config.num && w.next.value.version == w.next.value.config.num
  {
  }

  /** A new controller recovers: it reads both configurations, with nothing happening in between. */
  lemma RecoversAlone(w: World) returns (w': World, e: nat)
    requires DataInv(w) && OneAhead(w) && w.cfg.Some? && w.next.Some? && w.next.value.config.num == w.cfg.value.config.num + 1
    ensures var x := Migrating(w.cfg.value.config, w.next.value.config, 0, None);
            Leads(w, w') && Going(w', e, x) && w' == w.(controllers := w.controllers[e := x])
  {
    hide Leads, DataInv, ConfigInv, OneAhead, StartOk, CoreInv;
    e := NumberBeyond(w.controllers.Keys);
    assert e !in w.controllers;
    CoreFacts(w);
    CurrentIsOfficial(w);
    IntendedIsOfficial(w);
    OneStep(w, RecoversCfg(e));
    var w1 := After(w, RecoversCfg(e));
    LeadsInOrder(w, w1);
    PoliteStepKeeps(w, RecoversCfg(e));
    FreshRecoveryIsSound(w1, e);
    Then(w, w1, RecoversNext(e));
    w' := After(w1, RecoversNext(e));
    OfficialIsFormed(w, w.next.value.config);
  }

  lemma OfficialIsFormed(w: World, n: Config)
    requires ConfigInv(w) && Official(w.accepted, n)
    ensures WellFormed(n) && n.num >= 1
  {
  }

  /**
   In every state in order there is a way on, without any client or caller, to a state of rest in which the
   intended configuration is in force and every shard is served, with the clients' pairs, by the group it names.
   */
  lemma MigrationCanFinish(w: World) returns (w': World)
    requires DataInv(w) && OneAhead(w) && w.cfg.Some? && w.next.Some?
    ensures Leads(w, w') && AtRest(w') && w'.cfg == w.next && w'.spec == w.spec
    ensures forall s: nat :: s < NSHARDS ==> var g := w'.cfg.value.config.shards[s]; Serves(w', g, s) && PairsAt(w', g, s) == Wanted(w', s)
  {
    hide Leads, DataInv, ConfigInv, OneAhead, CoreInv, Serves, PairsAt, Wanted;
    CoreFacts(w);
    IntendedIsClose(w);
    CurrentIsOfficial(w);
    IntendedIsOfficial(w);
    OfficialIsFormed(w, w.next.value.config);
    w' := w;
    if w.next == w.cfg {
      ShardSteps.Stay(w);
    } else {
      var x := Migrating(w.cfg.value.config, w.next.value.config, 0, None);
      var w1, e := RecoversAlone(w);
      var w2 := Advance(w1, e, x, NSHARDS);
      w' := Publish(w2, e, x.(shard := NSHARDS));
      Join(w, w1, w2);
      Join(w, w2, w');
    }
    LeadsInOrder(w, w');
    forall s: nat | s < NSHARDS
      ensures var g := w'.cfg.value.config.shards[s]; Serves(w', g, s) && PairsAt(w', g, s) == Wanted(w', s)
    {
      InOrderIsSafe(w', s);
    }
  }

  /** So it is after every sound run with polite callers, once both keys have been written. */
  lemma EveryMigrationCanFinish(hash: Hash, ws: seq<World>, steps: seq<Step>) returns (w': World)
    requires SoundRun(hash, ws, steps) && AllPolite(ws, steps) && ws[|steps|].cfg.Some? && ws[|steps|].next.Some?
    ensures Leads(ws[|steps|], w') && AtRest(w') && w'.cfg == ws[|steps|].next && w'.spec == ws[|steps|].spec
    ensures forall s: nat :: s < NSHARDS ==> var g := w'.cfg.value.config.shards[s]; Serves(w', g, s) && PairsAt(w', g, s) == Wanted(w', s)
  {
    hide Leads, DataInv, OneAhead, AllPolite, SoundSteps, Follows;
    FollowsShape(ws, steps);
    RunKeepsData(hash, ws, steps, |steps|);
    PoliteRunStaysClose(hash, ws, steps, |steps|);
    w' := MigrationCanFinish(ws[|steps|]);
  }
}
