/** One configuration per number, whatever the controllers do. */
module ShardConfigs {
  import opened RaftTypes
  import opened ShardGroup
  import opened ShardControl

  /** c is the configuration accepted for its number. */
  predicate Official(accepted: map<nat, Config>, c: Config) {
    c.num in accepted && accepted[c.num] == c
  }

  /** The accepted numbers are 1, 2, ... without a gap up to the number of the intent. */
  ghost predicate Numbered(accepted: map<nat, Config>, next: Option<Stored>) {
    && FIRST_NUM in accepted && accepted[FIRST_NUM] == First(accepted[FIRST_NUM].groups)
    && (forall k :: k in accepted ==> accepted[k].num == k && WellFormed(accepted[k]) && 1 <= k)
    && (forall k: nat :: k in accepted <==> 1 <= k <= Top(next))
  }

  function Top(next: Option<Stored>): nat {
    if next.Some? then next.value.config.num else FIRST_NUM
  }

  /** Version and number go together, and the content is official. */
  predicate SlotOk(accepted: map<nat, Config>, slot: Option<Stored>) {
    slot.Some? ==> slot.value.version == slot.value.config.num && Official(accepted, slot.value.config)
  }

  /** The number of the configuration in force; number 1 is in force before it is written. */
  function Published(w: World): nat {
    if w.cfg.Some? then w.cfg.value.config.num else FIRST_NUM
  }

  predicate WriteOk(w: World, p: Write) {
    && WellFormed(p.config)
    && p.config.num == p.version + 1
    && (p.slot == Next && p.config.num == FIRST_NUM ==> FIRST_NUM in w.accepted && p.config == w.accepted[FIRST_NUM])
    && (p.slot == Cfg ==> Official(w.accepted, p.config))
  }

  predicate ControllerOk(w: World, x: Controller) {
    match x
    case Idle => true
    case Proposing(cur, n) =>
      Official(w.accepted, cur) && cur.num <= Published(w) && w.cfg.Some? && cur.num < n.num && WellFormed(n)
    case Recovering(cur) => Official(w.accepted, cur) && cur.num <= Published(w) && w.cfg.Some?
    case Migrating(cur, n, s, call) =>
      Official(w.accepted, cur) && cur.num <= Published(w) && w.cfg.Some? && cur.num < n.num && Official(w.accepted, n)
  }

  ghost predicate ConfigInv(w: World) {
    && Numbered(w.accepted, w.next)
    && SlotOk(w.accepted, w.cfg) && SlotOk(w.accepted, w.next)
    && (forall p :: p in w.writes ==> WriteOk(w, p))
    && (forall p :: p in w.wins ==> p.slot == Next ==> Official(w.accepted, p.config))
    && (forall c :: c in w.controllers ==> ControllerOk(w, w.controllers[c]))
  }

  /** Later knowledge only adds: accepted configurations stay, the published number grows. */
  predicate Grows(w: World, w': World) {
    && (forall k :: k in w.accepted ==> k in w'.accepted && w'.accepted[k] == w.accepted[k])
    && Published(w) <= Published(w')
    && (w.cfg.Some? ==> w'.cfg.Some?)
  }

  lemma ControllerStays(w: World, w': World, x: Controller)
    requires Grows(w, w') && ControllerOk(w, x)
    ensures ControllerOk(w', x)
  {
  }

  lemma WriteStays(w: World, w': World, p: Write)
    requires Grows(w, w') && WriteOk(w, p)
    ensures WriteOk(w', p)
  {
  }

  /** A step that leaves the two slots and the accepted configurations alone, and changes one controller. */
  lemma ControllerMoves(w: World, w': World, c: nat, x: Controller)
    requires ConfigInv(w)
    requires w'.cfg == w.cfg && w'.next == w.next && w'.accepted == w.accepted && w'.wins == w.wins
    requires w'.controllers == w.controllers[c := x] && ControllerOk(w', x)
    requires forall p :: p in w'.writes ==> p in w.writes || WriteOk(w', p)
    ensures ConfigInv(w') && Grows(w, w')
  {
    forall p | p in w'.writes
      ensures WriteOk(w', p)
    {
      if p in w.writes {
        WriteStays(w, w', p);
      }
    }
    forall d | d in w'.controllers
      ensures ControllerOk(w', w'.controllers[d])
    {
      if d != c {
        ControllerStays(w, w', w.controllers[d]);
      }
    }
  }

  /** Accepting a write of the intent appends one number. */
  lemma NextNumber(accepted: map<nat, Config>, next: Option<Stored>, p: Write)
    requires Numbered(accepted, next) && SlotOk(accepted, next)
    requires WellFormed(p.config) && p.config.num == p.version + 1 && (p.config.num == FIRST_NUM ==> p.config == accepted[FIRST_NUM])
    requires Accepts(next, p.version)
    ensures Numbered(accepted[p.config.num := p.config], Some(Stored(p.config, p.version + 1)))
    ensures forall k :: k in accepted ==> accepted[p.config.num := p.config][k] == accepted[k]
  {
    if next.Some? {
      assert p.config.num == next.value.config.num + 1;
      assert p.config.num !in accepted;
    }
  }

  /** Whatever was known of the requests and controllers holds on when more is known. */
  lemma KnowledgeStays(w: World, w': World)
    requires ConfigInv(w) && Grows(w, w') && w'.writes == w.writes && w'.controllers == w.controllers
    ensures forall q :: q in w'.writes ==> WriteOk(w', q)
    ensures forall d :: d in w'.controllers ==> ControllerOk(w', w'.controllers[d])
  {
    hide WriteOk, ControllerOk, Grows, Numbered, SlotOk;
    forall q | q in w'.writes
      ensures WriteOk(w', q)
    {
      WriteStays(w, w', q);
    }
    forall d | d in w'.controllers
      ensures ControllerOk(w', w'.controllers[d])
    {
      ControllerStays(w, w', w.controllers[d]);
    }
  }

  lemma NextKeeps(w: World, p: Write)
    requires ConfigInv(w) && p in w.writes && p.slot == Next && Accepts(w.next, p.version)
    ensures ConfigInv(ExecuteWrite(w, p)) && Grows(w, ExecuteWrite(w, p))
  {
    hide Numbered, WriteOk, ControllerOk;
    var w' := ExecuteWrite(w, p);
    IntentFacts(w, p);
    NextNumber(w.accepted, w.next, p);
    KnowledgeStays(w, w');
  }

  lemma IntentFacts(w: World, p: Write)
    requires WriteOk(w, p) && p.slot == Next
    ensures WellFormed(p.config) && p.config.num == p.version + 1
    ensures p.config.num == FIRST_NUM ==> FIRST_NUM in w.accepted && p.config == w.accepted[FIRST_NUM]
  {
  }

  lemma CfgKeeps(w: World, p: Write)
    requires ConfigInv(w) && p in w.writes && p.slot == Cfg && Accepts(w.cfg, p.version)
    ensures ConfigInv(ExecuteWrite(w, p)) && Grows(w, ExecuteWrite(w, p))
  {
    hide Numbered, ControllerOk;
    var w' := ExecuteWrite(w, p);
    assert WriteOk(w, p);
    KnowledgeStays(w, w');
  }

  lemma WriteKeeps(w: World, p: Write)
    requires ConfigInv(w) && p in w.writes
    ensures ConfigInv(ExecuteWrite(w, p)) && Grows(w, ExecuteWrite(w, p))
  {
    hide ConfigInv;
    if Accepts(Content(w, p.slot), p.version) {
      if p.slot == Next {
        NextKeeps(w, p);
      } else {
        CfgKeeps(w, p);
      }
    }
  }

  lemma KnownController(w: World, c: nat)
    requires ConfigInv(w)
    ensures ControllerOk(w, ControllerAt(w, c))
  {
  }

  lemma IntendedIsOfficial(w: World)
    requires ConfigInv(w) && w.next.Some?
    ensures Official(w.accepted, w.next.value.config)
  {
  }

  lemma CurrentIsOfficial(w: World)
    requires ConfigInv(w) && w.cfg.Some?
    ensures Official(w.accepted, w.cfg.value.config) && WellFormed(w.cfg.value.config)
  {
  }

  lemma ProposeKeeps(w: World, c: nat, n: Config)
    requires ConfigInv(w) && w.cfg.Some? && WellFormed(n)
    ensures ConfigInv(Propose(w, c, n)) && Grows(w, Propose(w, c, n))
  {
    var w' := Propose(w, c, n);
    if n.num > w.cfg.value.config.num {
      var x := Proposing(w.cfg.value.config, n);
      assert ControllerOk(w', x) && WriteOk(w', Intent(n));
      ControllerMoves(w, w', c, x);
    }
  }

  lemma WinKeeps(w: World, c: nat)
    requires ConfigInv(w) && ControllerAt(w, c).Proposing?
    requires var n := ControllerAt(w, c).new_; n.num >= 1 && Intent(n) in w.wins
    ensures ConfigInv(ProposalWon(w, c)) && Grows(w, ProposalWon(w, c))
  {
    var w' := ProposalWon(w, c);
    KnownController(w, c);
    ControllerMoves(w, w', c, w'.controllers[c]);
  }

  lemma RereadKeeps(w: World, c: nat)
    requires ConfigInv(w) && ControllerAt(w, c).Proposing?
    ensures ConfigInv(ProposalReread(w, c)) && Grows(w, ProposalReread(w, c))
  {
    var w' := ProposalReread(w, c);
    KnownController(w, c);
    ControllerMoves(w, w', c, w'.controllers[c]);
  }

  lemma RecoverKeeps(w: World, c: nat)
    requires ConfigInv(w)
    ensures ConfigInv(RecoverCfg(w, c)) && Grows(w, RecoverCfg(w, c))
    ensures ControllerAt(w, c).Recovering? ==> ConfigInv(RecoverNext(w, c)) && Grows(w, RecoverNext(w, c))
  {
    var w' := RecoverCfg(w, c);
    if w.cfg.Some? {
      ControllerMoves(w, w', c, w'.controllers[c]);
    }
    if ControllerAt(w, c).Recovering? {
      var w2 := RecoverNext(w, c);
      KnownController(w, c);
      ControllerMoves(w, w2, c, w2.controllers[c]);
    }
  }

  lemma LoopKeeps(w: World, c: nat)
    requires ConfigInv(w) && Possible(w, Loops(c))
    ensures ConfigInv(LoopHead(w, c)) && Grows(w, LoopHead(w, c))
  {
    hide Numbered, SlotOk;
    var w' := LoopHead(w, c);
    KnownController(w, c);
    ControllerMoves(w, w', c, w'.controllers[c]);
  }

  lemma HearKeeps(w: World, c: nat, a: Answer)
    requires ConfigInv(w) && Possible(w, Hears(c, a))
    ensures ConfigInv(Answered(w, c, a)) && Grows(w, Answered(w, c, a))
  {
    hide Numbered, SlotOk, WriteOk, Official, WellFormed;
    var w' := Answered(w, c, a);
    KnownController(w, c);
    ControllerMoves(w, w', c, w'.controllers[c]);
  }

  /** Every step keeps the configuration store in order; no assumption is made on who proposes what. */
  lemma StepKeepsConfigs(w: World, step: Step)
    requires ConfigInv(w) && Possible(w, step)
    ensures ConfigInv(After(w, step)) && Grows(w, After(w, step))
  {
    hide ConfigInv, Grows, Propose, ProposalWon, ProposalReread, RecoverCfg, RecoverNext, LoopHead, Answered, ExecuteWrite,
      ExecuteRequest;
    match step
    case StoreWrites(p) => WriteKeeps(w, p);
    case Proposes(c, n) => ProposeKeeps(w, c, n);
    case Wins(c) => WinKeeps(w, c);
    case Rereads(c) => RereadKeeps(w, c);
    case RecoversCfg(c) => RecoverKeeps(w, c);
    case RecoversNext(c) => RecoverKeeps(w, c);
    case Loops(c) => LoopKeeps(w, c);
    case Hears(c, a) => HearKeeps(w, c, a);
    case Stops(c) => StopKeeps(w, c);
    case Executes(r) => ExecutionKeepsConfigs(w, r);
    case Puts(g, k, v, version) => GroupsOnly(w, ClientPut(w, g, k, v, version));
  }

  lemma ExecutionKeepsConfigs(w: World, r: Request)
    requires ConfigInv(w) && GroupsValid(w) && r.shard < NSHARDS
    ensures ConfigInv(ExecuteRequest(w, r)) && Grows(w, ExecuteRequest(w, r))
  {
    hide DoFreeze, DoInstall, DoDelete;
    GroupsOnly(w, ExecuteRequest(w, r));
  }

  lemma StopKeeps(w: World, c: nat)
    requires ConfigInv(w)
    ensures ConfigInv(SetController(w, c, Idle)) && Grows(w, SetController(w, c, Idle))
  {
    ControllerMoves(w, SetController(w, c, Idle), c, Idle);
  }

  lemma GroupsOnly(w: World, w': World)
    requires ConfigInv(w)
    requires w'.cfg == w.cfg && w'.next == w.next && w'.accepted == w.accepted && w'.wins == w.wins
    requires w'.controllers == w.controllers && w'.writes == w.writes
    ensures ConfigInv(w') && Grows(w, w')
  {
    KnowledgeStays(w, w');
  }

  lemma StartConfigs(hash: Hash, groups: Addresses)
    ensures ConfigInv(Start(hash, groups))
  {
  }

  lemma {:induction false} RunKeepsConfigs(hash: Hash, ws: seq<World>, steps: seq<Step>, i: nat)
    requires IsRun(hash, ws, steps) && i < |ws|
    ensures ConfigInv(ws[i])
    decreases i
  {
    hide ConfigInv, Possible, After, Grows;
    if i == 0 {
      StartConfigs(hash, ws[0].accepted[FIRST_NUM].groups);
    } else {
      RunKeepsConfigs(hash, ws, steps, i - 1);
      StepKeepsConfigs(ws[i - 1], steps[i - 1]);
      assert ws[i - 1 + 1] == After(ws[i - 1], steps[i - 1]);
    }
  }

  lemma {:induction false} RunGrows(hash: Hash, ws: seq<World>, steps: seq<Step>, i: nat, j: nat)
    requires IsRun(hash, ws, steps) && i <= j < |ws|
    ensures Grows(ws[i], ws[j])
    decreases j
  {
    hide ConfigInv, Possible, After;
    if i < j {
      RunGrows(hash, ws, steps, i, j - 1);
      RunKeepsConfigs(hash, ws, steps, j - 1);
      StepKeepsConfigs(ws[j - 1], steps[j - 1]);
      assert ws[j - 1 + 1] == After(ws[j - 1], steps[j - 1]);
    }
  }

  // ----- The theorems ----------------------------------------------------------------------

  /** In every state of every run, the version of either key is the number of the configuration under it. */
  lemma VersionIsNumber(hash: Hash, ws: seq<World>, steps: seq<Step>, i: nat, slot: Slot)
    requires IsRun(hash, ws, steps) && i < |ws| && Content(ws[i], slot).Some?
    ensures var x := Content(ws[i], slot).value; x.version == x.config.num
  {
    hide IsRun;
    RunKeepsConfigs(hash, ws, steps, i);
  }

  /** c is under one of the two keys in the state. */
  predicate Held(w: World, c: Config) {
    (w.cfg.Some? && w.cfg.value.config == c) || (w.next.Some? && w.next.value.config == c)
  }

  /** A controller is at work moving shards towards c. */
  predicate MovingTo(w: World, id: nat, c: Config) {
    ControllerAt(w, id).Migrating? && ControllerAt(w, id).new_ == c
  }

  lemma HeldIsOfficial(w: World, c: Config)
    requires ConfigInv(w) && Held(w, c)
    ensures Official(w.accepted, c)
  {
  }

  lemma MovingIsOfficial(w: World, id: nat, c: Config)
    requires ConfigInv(w) && MovingTo(w, id, c)
    ensures Official(w.accepted, c)
  {
    KnownController(w, id);
  }

  /** Whatever two configurations with the same number are ever stored, they are the same. */
  lemma OneConfigPerNumber(hash: Hash, ws: seq<World>, steps: seq<Step>, i: nat, j: nat, c: Config, d: Config)
    requires IsRun(hash, ws, steps) && i <= j < |ws|
    requires Held(ws[i], c) && Held(ws[j], d) && c.num == d.num
    ensures c == d
  {
    hide IsRun, ConfigInv;
    RunKeepsConfigs(hash, ws, steps, i);
    RunKeepsConfigs(hash, ws, steps, j);
    RunGrows(hash, ws, steps, i, j);
    HeldIsOfficial(ws[i], c);
    HeldIsOfficial(ws[j], d);
  }

  /** No controller ever moves shards towards anything but the configuration stored for that number. */
  lemma MigratesOnlyToStored(hash: Hash, ws: seq<World>, steps: seq<Step>, i: nat, j: nat, id: nat, c: Config, d: Config)
    requires IsRun(hash, ws, steps) && i < |ws| && j < |ws|
    requires MovingTo(ws[i], id, c) && Held(ws[j], d) && c.num == d.num
    ensures c == d
  {
    hide IsRun, ConfigInv;
    RunKeepsConfigs(hash, ws, steps, i);
    RunKeepsConfigs(hash, ws, steps, j);
    MovingIsOfficial(ws[i], id, c);
    HeldIsOfficial(ws[j], d);
    if i <= j {
      RunGrows(hash, ws, steps, i, j);
    } else {
      RunGrows(hash, ws, steps, j, i);
    }
  }

  /** Two controllers at work at any two moments towards the same number agree on where they are going. */
  lemma MigrationsAgree(hash: Hash, ws: seq<World>, steps: seq<Step>, i: nat, j: nat, a: nat, b: nat, c: Config, d: Config)
    requires IsRun(hash, ws, steps) && i <= j < |ws|
    requires MovingTo(ws[i], a, c) && MovingTo(ws[j], b, d) && c.num == d.num
    ensures c == d
  {
    hide IsRun, ConfigInv;
    RunKeepsConfigs(hash, ws, steps, i);
    RunKeepsConfigs(hash, ws, steps, j);
    MovingIsOfficial(ws[i], a, c);
    MovingIsOfficial(ws[j], b, d);
    RunGrows(hash, ws, steps, i, j);
  }
}
