/** Continuations of a run, and what a controller does when nothing comes between its calls. */
module ShardSteps {
  import opened RaftTypes
  import opened ShardGroup
  import opened ShardControl
  import opened ShardMigration
  import opened ShardSafety

  // ----- Continuations ---------------------------------------------------------------------

  /** A caller proposes the configuration after the one in force. */
  predicate Polite(w: World, step: Step)
    requires Possible(w, step)
  {
    step.Proposes? ==> step.new_.num == w.cfg.value.config.num + 1
  }

  ghost predicate AllPolite(ws: seq<World>, steps: seq<Step>)
    requires Follows(ws, steps)
  {
    forall i :: 0 <= i < |steps| ==> Polite(ws[i], steps[i])
  }

  /** From w to w' by polite callers, beginning only migrations that may be begun. */
  ghost predicate Path(ws: seq<World>, steps: seq<Step>, w: World, w': World) {
    Follows(ws, steps) && ws[0] == w && ws[|steps|] == w' && SoundSteps(ws, steps) && AllPolite(ws, steps)
  }

  ghost predicate Leads(w: World, w': World) {
    exists ws, steps :: Path(ws, steps, w, w')
  }

  lemma Stay(w: World)
    ensures Leads(w, w)
  {
    assert Path([w], [], w, w);
  }

  lemma OneStep(w: World, step: Step)
    requires Possible(w, step) && SoundStep(w, step) && Polite(w, step)
    ensures Leads(w, After(w, step))
  {
    hide Possible, After, SoundStep, Polite;
    assert Path([w, After(w, step)], [step], w, After(w, step));
  }

  /** One stretch after another. */
  lemma Joined(ws: seq<World>, steps: seq<Step>, vs: seq<World>, more: seq<Step>)
    requires Follows(ws, steps) && Follows(vs, more) && ws[|steps|] == vs[0]
    requires AllPolite(ws, steps) && AllPolite(vs, more)
    ensures Follows(ws + vs[1..], steps + more) && AllPolite(ws + vs[1..], steps + more)
    ensures SoundSteps(ws, steps) && SoundSteps(vs, more) ==> SoundSteps(ws + vs[1..], steps + more)
    ensures (ws + vs[1..])[|steps + more|] == vs[|more|]
  {
    hide Possible, After, SoundStep, Polite;
    var us, all := ws + vs[1..], steps + more;
    forall i | 0 <= i < |all|
      ensures Possible(us[i], all[i]) && us[i + 1] == After(us[i], all[i]) && Polite(us[i], all[i])
      ensures SoundSteps(ws, steps) && SoundSteps(vs, more) ==> SoundStep(us[i], all[i])
    {
      if i < |steps| {
        assert us[i] == ws[i] && us[i + 1] == ws[i + 1] && all[i] == steps[i];
      } else {
        var j := i - |steps|;
        assert us[i] == vs[j] && us[i + 1] == vs[j + 1] && all[i] == more[j];
      }
    }
  }

  lemma Join(a: World, b: World, c: World)
    requires Leads(a, b) && Leads(b, c)
    ensures Leads(a, c)
  {
    hide Follows, SoundSteps, AllPolite;
    var ws, steps :| Path(ws, steps, a, b);
    var vs, more :| Path(vs, more, b, c);
    FollowsShape(ws, steps);
    FollowsShape(vs, more);
    Joined(ws, steps, vs, more);
    assert Path(ws + vs[1..], steps + more, a, c);
  }

  lemma Then(a: World, b: World, step: Step)
    requires Leads(a, b) && Possible(b, step) && SoundStep(b, step) && Polite(b, step)
    ensures Leads(a, After(b, step))
  {
    hide Leads, Possible, After, SoundStep, Polite;
    OneStep(b, step);
    Join(a, b, After(b, step));
  }

  /** States in order stay in order. */
  lemma LeadsInOrder(w: World, w': World)
    requires DataInv(w) && Leads(w, w')
    ensures DataInv(w')
  {
    hide DataInv, Follows, SoundSteps, AllPolite;
    var ws, steps :| Path(ws, steps, w, w');
    FollowsShape(ws, steps);
    FollowingKeepsData(ws, steps, |steps|);
  }

  // ----- What a controller does --------------------------------------------------------------

  function CellIn(w: World, g: Gid, s: nat): Cell
    requires GroupsValid(w) && s < NSHARDS
  {
    CellAt(w.hash, GroupAt(w, g), s)
  }

  lemma CellServes(w: World, g: Gid, s: nat)
    requires GroupsValid(w) && s < NSHARDS
    ensures (CellIn(w, g, s).state == Ready <==> Serves(w, g, s)) && CellIn(w, g, s).data == PairsAt(w, g, s)
  {
  }

  /** Controller c is in the state x of a migration it can go on with. */
  predicate Going(w: World, c: nat, x: Controller) {
    && GroupsValid(w) && ControllerAt(w, c) == x
    && x.Migrating? && WellFormed(x.cur) && WellFormed(x.new_) && x.new_.num >= 1
  }

  /** Only controller c and the groups have changed. */
  ghost predicate OnlyGroups(w: World, w': World, c: nat) {
    && c in w'.controllers
    && w' == w.(controllers := w.controllers[c := w'.controllers[c]], groups := w'.groups, sent := w'.sent, answers := w'.answers)
  }

  ghost predicate Undisturbed(w: World, w': World, t: nat)
    requires GroupsValid(w) && GroupsValid(w') && t < NSHARDS
  {
    forall g: Gid :: CellIn(w', g, t) == CellIn(w, g, t)
  }

  lemma OnlyGroupsChain(a: World, b: World, c: World, d: nat)
    requires OnlyGroups(a, b, d) && OnlyGroups(b, c, d)
    ensures OnlyGroups(a, c, d) && b.hash == a.hash && c.hash == a.hash
  {
  }

  function Reply(w: World, r: Request): Dump
    requires GroupsValid(w) && r.shard < NSHARDS
  {
    if r.Freeze? then DoFreeze(w.hash, GroupAt(w, r.gid), r.shard, r.num).1 else None
  }

  function Executed(w: World, r: Request): (x: Group)
    requires GroupsValid(w) && r.shard < NSHARDS
    ensures x.Valid()
  {
    var g := GroupAt(w, r.gid);
    match r
    case Freeze(_, s, num) => DoFreeze(w.hash, g, s, num).0
    case Install(_, s, num, dump) => DoInstall(g, s, dump, num)
    case Delete(_, s, num) => DoDelete(w.hash, g, s, num)
  }

  /** The call after r, if any. */
  function NextCall(x: Controller, r: Request, dump: Dump): Option<Request>
    requires x.Migrating? && WellFormed(x.cur) && WellFormed(x.new_) && x.shard < NSHARDS
  {
    match r
    case Freeze(_, _, _) => Some(Install(x.new_.shards[x.shard], x.shard, x.new_.num, dump))
    case Install(_, _, _, _) => Some(Delete(x.cur.shards[x.shard], x.shard, x.new_.num))
    case Delete(_, _, _) => None
  }

  /** The call is executed once, and its answer heard. */
  lemma CallAlone(w: World, c: nat, x: Controller, r: Request) returns (w': World)
    requires Going(w, c, x) && x.call == Some(r) && r in w.sent && x.shard < NSHARDS && r.shard == x.shard
    ensures Leads(w, w') && OnlyGroups(w, w', c) && w'.groups == w.groups[r.gid := Executed(w, r)]
    ensures var next := NextCall(x, r, Reply(w, r));
            && Going(w', c, x.(shard := if next.Some? then x.shard else x.shard + 1, call := next))
            && (next.Some? ==> next.value in w'.sent)
  {
    hide Leads, DoFreeze, DoInstall, DoDelete;
    var e, a := Executes(r), Answer(r, Reply(w, r));
    var w1 := After(w, e);
    OneStep(w, e);
    assert Possible(w1, Hears(c, a));
    Then(w, w1, Hears(c, a));
    w' := After(w1, Hears(c, a));
  }

  /** What executing one request does to the cells. */
  lemma ExecutedCells(w: World, w': World, r: Request, g: Gid, t: nat)
    requires GroupsValid(w) && r.shard < NSHARDS && t < NSHARDS
    requires w'.hash == w.hash && w'.groups == w.groups[r.gid := Executed(w, r)]
    requires r.Install? && r.dump.Some? ==> Part(w.hash, r.dump.value, r.shard) == r.dump.value
    ensures GroupsValid(w')
    ensures var c := CellIn(w, g, t);
            CellIn(w', g, t) ==
            if g != r.gid || t != r.shard then c
            else match r
                 case Freeze(_, _, m) => if m < c.num then c else Cell(Frozen, m, c.data)
                 case Install(_, _, m, dump) => if m <= c.num then c else Cell(Ready, m, Loaded(c.data, dump))
                 case Delete(_, _, m) => if m < c.num then c else Cell(NotOwned, m, map[])
  {
    hide DoFreeze, DoInstall, DoDelete, CellAt, Loaded;
    var x := GroupAt(w, r.gid);
    match r
    case Freeze(_, s, m) =>
      FreezeCells(w.hash, x, s, m, t);
      CellNum(w.hash, x, t);
    case Install(_, s, m, dump) =>
      InstallLoads(w.hash, x, s, dump, m, t);
    case Delete(_, s, m) =>
      DeleteCells(w.hash, x, s, m, t);
  }

  lemma CellNum(h: Hash, g: Group, t: nat)
    requires g.Valid() && t < NSHARDS
    ensures CellAt(h, g, t).num == g.nums[t]
  {
  }

  /** The source of the shard a controller is at, and its destination. */
  function Source(x: Controller): Gid
    requires x.Migrating? && WellFormed(x.cur) && x.shard < NSHARDS
  {
    x.cur.shards[x.shard]
  }

  function Target(x: Controller): Gid
    requires x.Migrating? && WellFormed(x.new_) && x.shard < NSHARDS
  {
    x.new_.shards[x.shard]
  }

  /** The cells after a shard has been moved from a to d with number m, whatever was there before. */
  function MovedCell(m: nat, a: Gid, from: Cell, d: Gid, to: Cell, g: Gid, was: Cell): Cell {
    if g == a then if m < from.num then from else Cell(NotOwned, m, map[])
    else if g == d then if m <= to.num then to else Cell(Ready, m, if m < from.num then to.data else to.data + from.data)
    else was
  }

  lemma FreezeFirst(w: World, c: nat, x: Controller) returns (w': World)
    requires Going(w, c, x) && x.call.None? && x.shard < NSHARDS && Source(x) != Target(x)
    ensures Leads(w, w') && OnlyGroups(w, w', c) && w'.groups == w.groups
    ensures var freeze := Freeze(Source(x), x.shard, x.new_.num);
            Going(w', c, x.(call := Some(freeze))) && freeze in w'.sent
  {
    hide Leads;
    OneStep(w, Loops(c));
    w' := After(w, Loops(c));
  }

  /** Freeze, install and delete, one after the other. */
  lemma MoveAlone(w: World, c: nat, x: Controller) returns (w': World)
    requires Going(w, c, x) && x.call.None? && x.shard < NSHARDS && Source(x) != Target(x)
    ensures Leads(w, w') && OnlyGroups(w, w', c) && Going(w', c, x.(shard := x.shard + 1))
    ensures forall t: nat :: t < NSHARDS && t != x.shard ==> Undisturbed(w, w', t)
    ensures forall g: Gid :: CellIn(w', g, x.shard) ==
              MovedCell(x.new_.num, Source(x), CellIn(w, Source(x), x.shard), Target(x), CellIn(w, Target(x), x.shard),
                        g, CellIn(w, g, x.shard))
  {
    hide Leads, CellIn, Executed, OnlyGroups, After, Possible;
    var s, m := x.shard, x.new_.num;
    var freeze := Freeze(Source(x), s, m);
    var w0 := FreezeFirst(w, c, x);
    var x0 := x.(call := Some(freeze));
    var w1 := CallAlone(w0, c, x0, freeze);
    var dump := Reply(w0, freeze);
    var install := Install(Target(x), s, m, dump);
    var x1 := x.(call := Some(install));
    var w2 := CallAlone(w1, c, x1, install);
    var delete := Delete(Source(x), s, m);
    var x2 := x.(call := Some(delete));
    w' := CallAlone(w2, c, x2, delete);
    Join(w, w0, w1);
    Join(w, w1, w2);
    Join(w, w2, w');
    OnlyGroupsChain(w, w0, w1, c);
    OnlyGroupsChain(w, w1, w2, c);
    OnlyGroupsChain(w, w2, w', c);
    forall g: Gid, t: nat | t < NSHARDS
      ensures CellIn(w', g, t) == if t != s then CellIn(w, g, t) else
                MovedCell(m, Source(x), CellIn(w, Source(x), s), Target(x), CellIn(w, Target(x), s), g, CellIn(w, g, s))
    {
      MoveCells(w, w0, w1, w2, w', freeze, install, delete, g, t);
    }
  }

  lemma MoveCells(w: World, w0: World, w1: World, w2: World, w': World, freeze: Request, install: Request, delete: Request, g: Gid, t: nat)
    requires GroupsValid(w) && w0.hash == w.hash && w0.groups == w.groups && t < NSHARDS
    requires w1.hash == w.hash && w2.hash == w.hash && w'.hash == w.hash
    requires freeze.Freeze? && install.Install? && delete == Delete(freeze.gid, freeze.shard, freeze.num)
    requires install.gid != freeze.gid && install.shard == freeze.shard < NSHARDS && install.num == freeze.num
    requires install.dump == Reply(w0, freeze)
    requires w1.groups == w0.groups[freeze.gid := Executed(w0, freeze)]
    requires GroupsValid(w1) && w2.groups == w1.groups[install.gid := Executed(w1, install)]
    requires GroupsValid(w2) && w'.groups == w2.groups[delete.gid := Executed(w2, delete)]
    ensures GroupsValid(w')
    ensures CellIn(w', g, t) == if t != freeze.shard then CellIn(w, g, t) else
              MovedCell(freeze.num, freeze.gid, CellIn(w, freeze.gid, t), install.gid, CellIn(w, install.gid, t), g, CellIn(w, g, t))
  {
    hide Executed;
    SameCell(w, w0, g, t);
    SameCell(w, w0, freeze.gid, freeze.shard);
    FreezeReply(w0, freeze);
    ExecutedCells(w0, w1, freeze, g, t);
    ExecutedCells(w1, w2, install, g, t);
    ExecutedCells(w2, w', delete, g, t);
  }

  lemma SameCell(w: World, w': World, g: Gid, t: nat)
    requires GroupsValid(w) && w'.hash == w.hash && w'.groups == w.groups && t < NSHARDS
    ensures GroupsValid(w') && CellIn(w', g, t) == CellIn(w, g, t)
  {
  }

  /** A freeze is answered with the pairs of the shard, or with nothing when it comes too late. */
  lemma FreezeReply(w: World, r: Request)
    requires GroupsValid(w) && r.Freeze? && r.shard < NSHARDS
    ensures var cell, dump := CellIn(w, r.gid, r.shard), Reply(w, r);
            && dump == (if r.num < cell.num then None else Some(cell.data))
            && (dump.Some? ==> Part(w.hash, dump.value, r.shard) == dump.value)
  {
  }

  /** A controller that is left alone gets to any shard ahead; the other shards do not notice. */
  lemma {:induction false} Advance(w: World, c: nat, x: Controller, goal: nat) returns (w': World)
    requires Going(w, c, x) && x.call.None? && x.shard <= goal <= NSHARDS
    ensures Leads(w, w') && (x.shard < goal ==> OnlyGroups(w, w', c)) && (x.shard == goal ==> w' == w)
    ensures Going(w', c, x.(shard := goal))
    ensures forall t: nat :: t < NSHARDS && !(x.shard <= t < goal) ==> Undisturbed(w, w', t)
    decreases goal - x.shard
  {
    hide Leads, MovedCell, CellIn;
    if x.shard == goal {
      w' := w;
      Stay(w);
    } else {
      var y, w1 := x.(shard := x.shard + 1), w;
      if Source(x) == Target(x) {
        OneStep(w, Loops(c));
        w1 := After(w, Loops(c));
        forall g: Gid, t: nat | t < NSHARDS
          ensures CellIn(w1, g, t) == CellIn(w, g, t)
        {
          SameCell(w, w1, g, t);
        }
      } else {
        w1 := MoveAlone(w, c, x);
      }
      w' := Advance(w1, c, y, goal);
      Join(w, w1, w');
      forall t: nat | t < NSHARDS && !(x.shard <= t < goal)
        ensures Undisturbed(w, w', t)
      {
        assert Undisturbed(w, w1, t) && Undisturbed(w1, w', t);
      }
    }
  }

  /** A controller that is left alone gets to the end of the loop, and on the way moves shard s. */
  lemma MoveOnTheWay(w: World, c: nat, x: Controller, s: nat) returns (w': World)
    requires Going(w, c, x) && x.call.None? && x.shard == 0 && s < NSHARDS && x.cur.shards[s] != x.new_.shards[s]
    ensures Leads(w, w') && OnlyGroups(w, w', c) && Going(w', c, x.(shard := NSHARDS))
    ensures var a, d := x.cur.shards[s], x.new_.shards[s];
            forall g: Gid :: CellIn(w', g, s) ==
              MovedCell(x.new_.num, a, CellIn(w, a, s), d, CellIn(w, d, s), g, CellIn(w, g, s))
  {
    hide Leads, CellIn, MovedCell;
    var w1 := Advance(w, c, x, s);
    var w2 := MoveAlone(w1, c, x.(shard := s));
    w' := Advance(w2, c, x.(shard := s + 1), NSHARDS);
    Join(w, w1, w2);
    Join(w, w2, w');
    assert Undisturbed(w, w1, s) && Undisturbed(w2, w', s);
  }

  /** At the end of the loop the configuration is published, if it is the next one. */
  lemma Publish(w: World, c: nat, x: Controller) returns (w': World)
    requires Going(w, c, x) && x.call.None? && x.shard == NSHARDS && Accepts(w.cfg, x.new_.num - 1)
    ensures Leads(w, w')
    ensures var p := Publication(x.new_);
            w' == w.(controllers := w.controllers[c := Idle], writes := w.writes + {p}, wins := w.wins + {p},
                     cfg := Some(Stored(x.new_, x.new_.num)))
  {
    hide Leads;
    OneStep(w, Loops(c));
    var w1 := After(w, Loops(c));
    Then(w, w1, StoreWrites(Publication(x.new_)));
    w' := After(w1, StoreWrites(Publication(x.new_)));
  }

  /** A caller announces the configuration after the one in force. */
  lemma Announce(w: World, c: nat, n: Config) returns (w': World)
    requires ControllerAt(w, c).Idle? && w.cfg.Some? && WellFormed(n) && n.num == w.cfg.value.config.num + 1
    requires Accepts(w.next, n.num - 1)
    ensures Leads(w, w')
    ensures var p := Intent(n);
            w' == w.(controllers := w.controllers[c := Proposing(w.cfg.value.config, n)], writes := w.writes + {p}, wins := w.wins + {p},
                     next := Some(Stored(n, n.num)), accepted := w.accepted[n.num := n])
  {
    hide Leads;
    OneStep(w, Proposes(c, n));
    var w1 := After(w, Proposes(c, n));
    Then(w, w1, StoreWrites(Intent(n)));
    w' := After(w1, StoreWrites(Intent(n)));
  }
}
