/**
 Shard migration as a whole: the store that keeps the current and the intended configuration, any
 number of controllers that may stop anywhere, the shard groups, and every request ever sent, each
 of which may be executed any number of times at any later moment.
 */
module ShardControl {
  import opened RaftTypes
  import opened VersionedMap
  import opened ShardGroup

  /** The addresses of the groups are carried along and compared, but nothing depends on them. */
  type Addresses = map<Gid, seq<string>>

  datatype Config = Config(num: nat, shards: seq<Gid>, groups: Addresses)

  predicate WellFormed(c: Config) {
    |c.shards| == NSHARDS
  }

  /** A configuration under one of the two keys, with the version the store gives it. */
  datatype Stored = Stored(config: Config, version: nat)

  datatype Slot = Cfg | Next

  /** A conditional write of a configuration. */
  datatype Write = Write(slot: Slot, config: Config, version: nat)

  datatype Request =
    | Freeze(gid: Gid, shard: nat, num: nat)
    | Install(gid: Gid, shard: nat, num: nat, dump: Dump)
    | Delete(gid: Gid, shard: nat, num: nat)

  /** A request together with what its execution gave back. */
  datatype Answer = Answer(request: Request, dump: Dump)

  datatype Controller =
    | Idle
    | Proposing(cur: Config, new_: Config)
    | Recovering(cur: Config)
      /** At shard `shard` of the migration loop, between calls or waiting for one. */
    | Migrating(cur: Config, new_: Config, shard: nat, call: Option<Request>)

  datatype World = World(
    hash: Hash,
    cfg: Option<Stored>,
    next: Option<Stored>,
    writes: set<Write>,
    wins: set<Write>,
    controllers: map<nat, Controller>,
    groups: map<Gid, Group>,
    sent: set<Request>,
    answers: set<Answer>,
    /** History: the configuration accepted for each number, and the map the clients should see. */
    accepted: map<nat, Config>,
    spec: Store)

  // ----- Reading the state -----------------------------------------------------------------

  function GroupAt(w: World, g: Gid): Group {
    if g in w.groups then w.groups[g] else FreshGroup(g)
  }

  function ControllerAt(w: World, c: nat): Controller {
    if c in w.controllers then w.controllers[c] else Idle
  }

  predicate GroupsValid(w: World) {
    forall g :: g in w.groups ==> w.groups[g].Valid()
  }

  // ----- The configuration store -----------------------------------------------------------

  function Content(w: World, slot: Slot): Option<Stored> {
    if slot == Cfg then w.cfg else w.next
  }

  /** The store accepts a write whose version is the one the key has; an absent key has version 0. */
  predicate Accepts(cur: Option<Stored>, version: nat) {
    if cur.Some? then cur.value.version == version else version == 0
  }

  function ExecuteWrite(w: World, p: Write): World {
    if !Accepts(Content(w, p.slot), p.version) then w
    else
      var stored := Some(Stored(p.config, p.version + 1));
      if p.slot == Cfg then w.(cfg := stored, wins := w.wins + {p})
      else w.(next := stored, wins := w.wins + {p}, accepted := w.accepted[p.config.num := p.config])
  }

  function Intent(c: Config): Write
    requires c.num >= 1
  {
    Write(Next, c, c.num - 1)
  }

  function Publication(c: Config): Write
    requires c.num >= 1
  {
    Write(Cfg, c, c.num - 1)
  }

  // ----- The controllers -------------------------------------------------------------------

  function SetController(w: World, c: nat, x: Controller): World {
    w.(controllers := w.controllers[c := x])
  }

  /** ChangeConfigTo: read the current configuration and announce the new one. */
  function Propose(w: World, c: nat, new_: Config): World
    requires w.cfg.Some?
  {
    var cur := w.cfg.value.config;
    if new_.num <= cur.num then w
    else SetController(w, c, Proposing(cur, new_)).(writes := w.writes + {Intent(new_)})
  }

  /** The announcement was accepted. */
  function ProposalWon(w: World, c: nat): World
    requires ControllerAt(w, c).Proposing?
  {
    var x := ControllerAt(w, c);
    SetController(w, c, Migrating(x.cur, x.new_, 0, None))
  }

  /** The outcome of the announcement is not known to be success: read the intent again. */
  function ProposalReread(w: World, c: nat): World
    requires ControllerAt(w, c).Proposing?
  {
    var x := ControllerAt(w, c);
    if w.next.Some? && w.next.value.config == x.new_ then SetController(w, c, Migrating(x.cur, x.new_, 0, None))
    else SetController(w, c, Idle)
  }

  /** InitController: the two reads are separate steps. */
  function RecoverCfg(w: World, c: nat): World {
    if w.cfg.None? then w else SetController(w, c, Recovering(w.cfg.value.config))
  }

  function RecoverNext(w: World, c: nat): World
    requires ControllerAt(w, c).Recovering?
  {
    var cur := ControllerAt(w, c).cur;
    if w.next.Some? && w.next.value.config.num > cur.num
    then SetController(w, c, Migrating(cur, w.next.value.config, 0, None))
    else SetController(w, c, Idle)
  }

  function Call(w: World, c: nat, x: Controller, r: Request): World
    requires x.Migrating?
  {
    SetController(w, c, x.(call := Some(r))).(sent := w.sent + {r})
  }

  /** The head of the migration loop: publish at the end, skip a shard that stays, or freeze one that moves. */
  function LoopHead(w: World, c: nat): World
    requires var x := ControllerAt(w, c);
             x.Migrating? && x.call.None? && WellFormed(x.cur) && WellFormed(x.new_) && x.new_.num >= 1
  {
    var x := ControllerAt(w, c);
    if x.shard >= NSHARDS then SetController(w, c, Idle).(writes := w.writes + {Publication(x.new_)})
    else if x.cur.shards[x.shard] == x.new_.shards[x.shard] then SetController(w, c, x.(shard := x.shard + 1))
    else Call(w, c, x, Freeze(x.cur.shards[x.shard], x.shard, x.new_.num))
  }

  /** The call in progress is answered: go on to the next one. */
  function Answered(w: World, c: nat, a: Answer): World
    requires var x := ControllerAt(w, c);
             x.Migrating? && x.call == Some(a.request) && WellFormed(x.cur) && WellFormed(x.new_) && x.shard < NSHARDS
  {
    var x := ControllerAt(w, c);
    match a.request
    case Freeze(_, _, _) => Call(w, c, x, Install(x.new_.shards[x.shard], x.shard, x.new_.num, a.dump))
    case Install(_, _, _, _) => Call(w, c, x, Delete(x.cur.shards[x.shard], x.shard, x.new_.num))
    case Delete(_, _, _) => SetController(w, c, x.(shard := x.shard + 1, call := None))
  }

  // ----- The groups ------------------------------------------------------------------------

  function SetGroup(w: World, g: Gid, x: Group): World {
    w.(groups := w.groups[g := x])
  }

  function ExecuteRequest(w: World, r: Request): World
    requires GroupsValid(w) && r.shard < NSHARDS
  {
    var g := GroupAt(w, r.gid);
    match r
    case Freeze(gid, s, num) =>
      var o := DoFreeze(w.hash, g, s, num);
      SetGroup(w, gid, o.0).(answers := w.answers + {Answer(r, o.1)})
    case Install(gid, s, num, dump) =>
      SetGroup(w, gid, DoInstall(g, s, dump, num)).(answers := w.answers + {Answer(r, None)})
    case Delete(gid, s, num) =>
      SetGroup(w, gid, DoDelete(w.hash, g, s, num)).(answers := w.answers + {Answer(r, None)})
  }

  /** A client's write reaches group g; the history map follows unless the group turns it away. */
  function ClientPut(w: World, g: Gid, k: Key, v: Value, version: nat): World
    requires GroupsValid(w)
  {
    var o := DoPut(w.hash, GroupAt(w, g), k, v, version);
    var w' := SetGroup(w, g, o.0);
    if o.1 == ErrWrongGroup then w' else w'.(spec := PutStore(w.spec, k, v, version))
  }

  // ----- Runs ------------------------------------------------------------------------------

  datatype Step =
    | StoreWrites(write: Write)
    | Proposes(c: nat, new_: Config)
    | Wins(c: nat)
    | Rereads(c: nat)
    | RecoversCfg(c: nat)
    | RecoversNext(c: nat)
    | Loops(c: nat)
    | Hears(c: nat, answer: Answer)
    | Stops(c: nat)
    | Executes(request: Request)
    | Puts(g: Gid, k: Key, v: Value, version: nat)

  predicate Possible(w: World, step: Step) {
    match step
    case StoreWrites(p) => p in w.writes
    case Proposes(c, n) => ControllerAt(w, c).Idle? && w.cfg.Some? && WellFormed(n)
    case Wins(c) => var x := ControllerAt(w, c); x.Proposing? && x.new_.num >= 1 && Intent(x.new_) in w.wins
    case Rereads(c) => ControllerAt(w, c).Proposing?
    case RecoversCfg(c) => ControllerAt(w, c).Idle?
    case RecoversNext(c) => ControllerAt(w, c).Recovering?
    case Loops(c) =>
      var x := ControllerAt(w, c);
      x.Migrating? && x.call.None? && WellFormed(x.cur) && WellFormed(x.new_) && x.new_.num >= 1
    case Hears(c, a) =>
      var x := ControllerAt(w, c);
      && x.Migrating? && x.call == Some(a.request) && a in w.answers
      && WellFormed(x.cur) && WellFormed(x.new_) && x.shard < NSHARDS
    case Stops(c) => true
    case Executes(r) => r in w.sent && r.shard < NSHARDS && GroupsValid(w)
    case Puts(g, k, v, version) => GroupsValid(w)
  }

  function After(w: World, step: Step): World
    requires Possible(w, step)
  {
    match step
    case StoreWrites(p) => ExecuteWrite(w, p)
    case Proposes(c, n) => Propose(w, c, n)
    case Wins(c) => ProposalWon(w, c)
    case Rereads(c) => ProposalReread(w, c)
    case RecoversCfg(c) => RecoverCfg(w, c)
    case RecoversNext(c) => RecoverNext(w, c)
    case Loops(c) => LoopHead(w, c)
    case Hears(c, a) => Answered(w, c, a)
    case Stops(c) => SetController(w, c, Idle)
    case Executes(r) => ExecuteRequest(w, r)
    case Puts(g, k, v, version) => ClientPut(w, g, k, v, version)
  }

  /** The first configuration: number 1, every shard with the boot group. */
  function First(groups: Addresses): Config {
    Config(FIRST_NUM, [GID1, GID1, GID1, GID1, GID1, GID1, GID1, GID1, GID1, GID1, GID1, GID1], groups)
  }

  /** InitConfig has been called: its two writes are on their way. */
  function Start(hash: Hash, groups: Addresses): World {
    var first := First(groups);
    World(hash, None, None, {Publication(first), Intent(first)}, {}, map[], map[], {}, {}, map[FIRST_NUM := first], map[])
  }

  ghost predicate IsStart(hash: Hash, w: World) {
    FIRST_NUM in w.accepted && w == Start(hash, w.accepted[FIRST_NUM].groups)
  }

  /** From one state to the last, each by a possible step from the one before. */
  ghost predicate Follows(ws: seq<World>, steps: seq<Step>) {
    && |ws| == |steps| + 1
    && forall i :: 0 <= i < |steps| ==> Possible(ws[i], steps[i]) && ws[i + 1] == After(ws[i], steps[i])
  }

  ghost predicate IsRun(hash: Hash, ws: seq<World>, steps: seq<Step>) {
    Follows(ws, steps) && IsStart(hash, ws[0])
  }

  /** Every migration in progress goes from one configuration to the very next. */
  predicate Adjacent(w: World) {
    forall c :: c in w.controllers && w.controllers[c].Migrating? ==>
      w.controllers[c].new_.num == w.controllers[c].cur.num + 1
  }
}
