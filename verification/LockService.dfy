/**
 A lock kept in one key of the store: the value is the holder's id, or empty.  Clients run Acquire
 and Release over clerks whose writes are resent, delayed and answered ambiguously.
 */
module LockService {
  import opened VersionedMap
  import K = KvClerk

  const LOCK: Key := "lock"
  const FREE: Value := ""

  /** Where a client stands; `call` is its write in progress. */
  datatype Client =
    | Away
    | Trying
    | Taking(call: nat)
    | Checking(call: nat)
    | Holding
    | Releasing
    | Freeing(call: nat)

  /** Clients are numbered; `ids` gives each its own name, and `owner` remembers who began which call. */
  datatype Locks = Locks(kv: K.Kv, ids: seq<Value>, clients: seq<Client>, owner: map<nat, nat>)

  /** The names are told apart from each other and from the free mark. */
  predicate Named(ids: seq<Value>) {
    && (forall i :: 0 <= i < |ids| ==> ids[i] != FREE)
    && (forall i, j :: 0 <= i < j < |ids| ==> ids[i] != ids[j])
  }

  function Start(ids: seq<Value>): Locks {
    Locks(K.EMPTY, ids, seq(|ids|, _ => Away), map[])
  }

  function Move(l: Locks, i: nat, c: Client): Locks
    requires i < |l.clients|
  {
    l.(clients := l.clients[i := c])
  }

  datatype Step =
    | Network(step: K.Step)
    | Acquire(i: nat)
    | Look(i: nat, c: nat)
    | Taken(i: nat)
    | Recheck(i: nat)
    | Release(i: nat)
    | LookOwn(i: nat, c: nat)
    | Freed(i: nat)

  /** The network delivers, delays and drops; it starts and ends no call by itself. */
  predicate NetworkStep(step: K.Step) {
    step.Resend? || step.Execute?
  }

  predicate Possible(l: Locks, step: Step) {
    match step
    case Network(s) => NetworkStep(s) && K.Possible(l.kv, s)
    case Acquire(i) => i < |l.clients| && l.clients[i].Away?
    case Look(i, c) => i < |l.clients| && i < |l.ids| && l.clients[i].Trying? && c !in l.kv.calls
    case Taken(i) => i < |l.clients| && l.clients[i].Taking? && K.Possible(l.kv, K.Return(l.clients[i].call))
    case Recheck(i) => i < |l.clients| && i < |l.ids| && l.clients[i].Checking?
    case Release(i) => i < |l.clients| && l.clients[i].Holding?
    case LookOwn(i, c) => i < |l.clients| && i < |l.ids| && (l.clients[i].Releasing? || l.clients[i].Away?) && c !in l.kv.calls
    case Freed(i) => i < |l.clients| && l.clients[i].Freeing? && K.Possible(l.kv, K.Return(l.clients[i].call))
  }

  /** The caller hears the outcome of its write. */
  function Outcome(l: Locks, c: nat): Err
    requires K.Possible(l.kv, K.Return(c))
  {
    K.After(l.kv, K.Return(c)).calls[c].outcome.value
  }

  /** Send the write of a value under the version just read. */
  function Send(l: Locks, i: nat, c: nat, value: Value, next: Client): Locks
    requires i < |l.clients| && c !in l.kv.calls
  {
    Move(l, i, next).(kv := K.After(l.kv, K.Begin(c, LOCK, value, VersionOf(l.kv.store, LOCK))), owner := l.owner[c := i])
  }

  function After(l: Locks, step: Step): Locks
    requires Possible(l, step)
  {
    match step
    case Network(s) => l.(kv := K.After(l.kv, s))
    case Acquire(i) => Move(l, i, Trying)
    case Look(i, c) =>
      var r := Get(l.kv.store, LOCK);
      if r.err == ErrNoKey || (r.err == OK && r.value == FREE) then Send(l, i, c, l.ids[i], Taking(c)) else l
    case Taken(i) =>
      var c := l.clients[i].call;
      var next := match Outcome(l, c) case OK => Holding case ErrMaybe => Checking(c) case _ => Trying;
      Move(l, i, next).(kv := K.After(l.kv, K.Return(c)))
    case Recheck(i) =>
      var r := Get(l.kv.store, LOCK);
      Move(l, i, if r.err == OK && r.value == l.ids[i] then Holding else Trying)
    case Release(i) => Move(l, i, Releasing)
    case LookOwn(i, c) =>
      var r := Get(l.kv.store, LOCK);
      if r.err == OK && r.value == l.ids[i] then Send(l, i, c, FREE, Freeing(c)) else Move(l, i, Away)
    case Freed(i) => Move(l, i, Away).(kv := K.After(l.kv, K.Return(l.clients[i].call)))
  }

  // ----- What the steps keep ---------------------------------------------------------------

  function Content(l: Locks): Value {
    if LOCK in l.kv.store then l.kv.store[LOCK].value else FREE
  }

  /** The call has taken effect. */
  predicate Done(l: Locks, c: nat) {
    K.Effects(l.kv.accepted, c) > 0
  }

  /** The lock belongs to client i, whether or not the client knows it. */
  predicate Owns(l: Locks, i: nat)
    requires i < |l.clients|
  {
    match l.clients[i]
    case Away => false
    case Trying => false
    case Taking(c) => Done(l, c)
    case Checking(c) => Done(l, c)
    case Holding => true
    case Releasing => true
    case Freeing(c) => !Done(l, c)
  }

  /** Client i is busy with call c. */
  predicate Busy(l: Locks, i: nat, c: nat)
    requires i < |l.clients|
  {
    (l.clients[i].Taking? || l.clients[i].Freeing?) && l.clients[i].call == c
  }

  /** A write that can still take effect is the one its client is waiting for, and the client may do it. */
  predicate Harmless(l: Locks, c: nat, i: nat)
    requires i < |l.clients| && i < |l.ids| && c in l.kv.calls
  {
    var call := l.kv.calls[c];
    && Busy(l, i, c) && call.outcome.None?
    && (l.clients[i].Taking? ==> call.value == l.ids[i] && Content(l) == FREE)
    && (l.clients[i].Freeing? ==> call.value == FREE && Content(l) == l.ids[i])
  }

  predicate CallOk(l: Locks, c: nat)
    requires |l.clients| == |l.ids| && c in l.kv.calls
  {
    var call := l.kv.calls[c];
    && call.key == LOCK
    && call.version <= VersionOf(l.kv.store, LOCK)
    && (forall a :: a in call.judged ==>
          call.version < VersionOf(l.kv.store, LOCK) && (call.judged[a] == OK || call.judged[a] == ErrVersion))
    && c in l.owner && l.owner[c] < |l.clients|
    && (call.version == VersionOf(l.kv.store, LOCK) ==> Harmless(l, c, l.owner[c]))
  }

  /** The write the client waits for, or asks about, is its own and says what it should. */
  predicate OwnCall(l: Locks, i: nat)
    requires |l.clients| == |l.ids| && i < |l.clients|
  {
    var x := l.clients[i];
    x.Taking? || x.Checking? || x.Freeing? ==>
      && x.call in l.kv.calls && x.call in l.owner && l.owner[x.call] == i
      && l.kv.calls[x.call].value == (if x.Freeing? then FREE else l.ids[i])
      && (x.Checking? ==> l.kv.calls[x.call].version < VersionOf(l.kv.store, LOCK))
      && (!x.Checking? ==> l.kv.calls[x.call].outcome.None?)
      && (x.Freeing? && !Done(l, x.call) ==> l.kv.calls[x.call].version == VersionOf(l.kv.store, LOCK))
  }

  /** The lock carries a client's name exactly when it belongs to that client. */
  predicate ClientOk(l: Locks, i: nat)
    requires |l.clients| == |l.ids| && i < |l.clients|
  {
    OwnCall(l, i) && (Owns(l, i) <==> Content(l) == l.ids[i])
  }

  /** The lock is free or carries a client's name. */
  ghost predicate ContentOk(l: Locks) {
    Content(l) == FREE || exists i :: 0 <= i < |l.ids| && Content(l) == l.ids[i]
  }

  ghost predicate LockInv(l: Locks) {
    && K.KvInv(l.kv) && ContentOk(l)
    && Named(l.ids) && |l.clients| == |l.ids|
    && l.owner.Keys == l.kv.calls.Keys
    && (forall c :: c in l.kv.calls ==> CallOk(l, c))
    && (forall i :: 0 <= i < |l.clients| ==> ClientOk(l, i))
  }

  // ----- The steps -------------------------------------------------------------------------

  /** Client i moves and nothing else happens, except to calls of its own. */
  ghost predicate OneMoves(l: Locks, l': Locks, i: nat, own: set<nat>) {
    && |l.clients| == |l.ids| && |l'.clients| == |l.clients| && l'.ids == l.ids && i < |l.clients|
    && l'.kv.store == l.kv.store && l'.kv.accepted == l.kv.accepted
    && (forall j :: 0 <= j < |l.clients| && j != i ==> l'.clients[j] == l.clients[j])
    && (forall d :: d !in own ==> (d in l'.kv.calls <==> d in l.kv.calls) && (d in l'.owner <==> d in l.owner))
    && (forall d :: d !in own && d in l.kv.calls ==> l'.kv.calls[d] == l.kv.calls[d])
    && (forall d :: d !in own && d in l.owner ==> l'.owner[d] == l.owner[d])
    && (forall c :: c in own && c in l.owner ==> l.owner[c] == i)
    && (forall c :: c in own && c in l.kv.calls ==> c in l.owner)
    && (forall d :: d !in own ==> !Busy(l, i, d))
  }

  /** What is known of a call lasts while the lock's content does and its client does not move. */
  lemma CallStays(l: Locks, l': Locks, c: nat)
    requires |l.clients| == |l.ids| && l'.ids == l.ids && |l'.clients| == |l.clients| && c in l.kv.calls && CallOk(l, c)
    requires l'.kv.store == l.kv.store && c in l'.owner && l'.owner[c] == l.owner[c]
    requires c in l'.kv.calls && l'.kv.calls[c] == l.kv.calls[c].(sent := l'.kv.calls[c].sent)
    requires Busy(l, l.owner[c], c) ==> l'.clients[l.owner[c]] == l.clients[l.owner[c]]
    ensures CallOk(l', c)
  {
  }

  lemma ClientStays(l: Locks, l': Locks, j: nat)
    requires |l.clients| == |l.ids| && l'.ids == l.ids && |l'.clients| == |l.clients| && j < |l.clients| && ClientOk(l, j)
    requires l'.kv.store == l.kv.store && l'.kv.accepted == l.kv.accepted && l'.clients[j] == l.clients[j]
    requires forall c :: c in l.kv.calls && c in l.owner && l.owner[c] == j ==>
               && c in l'.kv.calls && c in l'.owner && l'.owner[c] == j
               && l'.kv.calls[c] == l.kv.calls[c].(sent := l'.kv.calls[c].sent)
    ensures ClientOk(l', j)
  {
  }

  lemma OneMovesKeeps(l: Locks, l': Locks, i: nat, own: set<nat>)
    requires LockInv(l) && OneMoves(l, l', i, own) && K.KvInv(l'.kv) && ClientOk(l', i)
    requires l'.owner.Keys == l'.kv.calls.Keys
    requires forall c :: c in own && c in l'.kv.calls ==> CallOk(l', c)
    ensures LockInv(l')
  {
    hide K.KvInv, ClientOk, Harmless;
    forall d | d in l'.kv.calls
      ensures CallOk(l', d)
    {
      if d !in own {
        CallStays(l, l', d);
      }
    }
    forall j | 0 <= j < |l'.clients|
      ensures ClientOk(l', j)
    {
      if j != i {
        ClientStays(l, l', j);
      }
    }
  }

  lemma MoveKeeps(l: Locks, i: nat, x: Client)
    requires LockInv(l) && i < |l.clients| && !l.clients[i].Taking? && !l.clients[i].Freeing?
    requires ClientOk(Move(l, i, x), i)
    ensures LockInv(Move(l, i, x))
  {
    hide K.KvInv, CallOk, ClientOk;
    OneMovesKeeps(l, Move(l, i, x), i, {});
  }

  lemma CallFacts(l: Locks, c: nat)
    requires LockInv(l) && c in l.kv.calls
    ensures CallOk(l, c) && K.CallOk(l.kv, c, l.kv.calls[c])
  {
  }

  /** The client may send this write: the new name on a free lock, or the free mark on its own. */
  predicate MaySend(l: Locks, i: nat, c: nat, value: Value, next: Client)
    requires |l.clients| == |l.ids| && i < |l.clients|
  {
    || (next == Taking(c) && value == l.ids[i] && Content(l) == FREE)
    || (next == Freeing(c) && value == FREE && Content(l) == l.ids[i])
  }

  lemma SentOk(l: Locks, i: nat, c: nat, value: Value, next: Client)
    requires |l.clients| == |l.ids| && i < |l.clients| && c !in l.kv.calls && MaySend(l, i, c, value, next)
    requires l.ids[i] != FREE && K.Effects(l.kv.accepted, c) == 0
    ensures var l' := Send(l, i, c, value, next); CallOk(l', c) && ClientOk(l', i)
  {
    var l' := Send(l, i, c, value, next);
    assert Harmless(l', c, i);
  }

  lemma SendKeeps(l: Locks, i: nat, c: nat, value: Value, next: Client)
    requires LockInv(l) && i < |l.clients| && c !in l.kv.calls && !l.clients[i].Taking? && !l.clients[i].Freeing?
    requires MaySend(l, i, c, value, next)
    ensures LockInv(Send(l, i, c, value, next))
  {
    hide K.KvInv, CallOk, ClientOk;
    K.StepKeeps(l.kv, K.Begin(c, LOCK, value, VersionOf(l.kv.store, LOCK)));
    NoEffectYet(l.kv, c);
    SentOk(l, i, c, value, next);
    OneMovesKeeps(l, Send(l, i, c, value, next), i, {c});
  }

  lemma NoEffectYet(kv: K.Kv, c: nat)
    requires K.KvInv(kv) && c !in kv.calls
    ensures K.Effects(kv.accepted, c) == 0
  {
  }

  lemma LookKeeps(l: Locks, i: nat, c: nat)
    requires LockInv(l) && Possible(l, Look(i, c))
    ensures LockInv(After(l, Look(i, c)))
  {
    hide K.KvInv, CallOk, ClientOk;
    if Content(l) == FREE {
      SendKeeps(l, i, c, l.ids[i], Taking(c));
    }
  }

  lemma LookOwnKeeps(l: Locks, i: nat, c: nat)
    requires LockInv(l) && Possible(l, LookOwn(i, c))
    ensures LockInv(After(l, LookOwn(i, c)))
  {
    hide K.KvInv, CallOk;
    assert ClientOk(l, i);
    assert l.ids[i] != FREE;
    if l.clients[i].Away? {
      MoveKeeps(l, i, Away);
    } else {
      SendKeeps(l, i, c, FREE, Freeing(c));
    }
  }

  /** An answered write can no longer take effect, and its answer says whether it has. */
  lemma AnswerFacts(l: Locks, c: nat)
    requires LockInv(l) && K.Possible(l.kv, K.Return(c))
    ensures var call, err := l.kv.calls[c], Outcome(l, c);
            && call.version < VersionOf(l.kv.store, LOCK)
            && (err == OK || err == ErrVersion || err == ErrMaybe)
            && (err == OK ==> Done(l, c)) && (err == ErrVersion ==> !Done(l, c))
  {
    CallFacts(l, c);
    var call := l.kv.calls[c];
    assert call.sent - 1 in call.judged;
  }

  lemma ReturnKeeps(l: Locks, i: nat, c: nat, x: Client)
    requires LockInv(l) && i < |l.clients| && Busy(l, i, c) && K.Possible(l.kv, K.Return(c))
    requires x == Holding || x == Trying || x == Away || x == Checking(c)
    requires (x == Holding ==> Owns(l, i)) && (x == Trying || x == Away ==> !Owns(l, i))
    requires x == Checking(c) ==> l.clients[i].Taking?
    ensures LockInv(Move(l, i, x).(kv := K.After(l.kv, K.Return(c))))
  {
    hide K.KvInv, OneMoves;
    var l' := Move(l, i, x).(kv := K.After(l.kv, K.Return(c)));
    assert ClientOk(l, i) && CallOk(l, c);
    AnswerFacts(l, c);
    K.StepKeeps(l.kv, K.Return(c));
    assert CallOk(l', c) && ClientOk(l', i);
    assert OneMoves(l, l', i, {c}) by {
      OnlyOwnCall(l, l', i, c);
    }
    OneMovesKeeps(l, l', i, {c});
  }

  lemma OnlyOwnCall(l: Locks, l': Locks, i: nat, c: nat)
    requires |l.clients| == |l.ids| && i < |l.clients| && Busy(l, i, c) && c in l.kv.calls && c in l.owner && l.owner[c] == i
    requires l'.ids == l.ids && l'.owner == l.owner && |l'.clients| == |l.clients| && l'.clients == l.clients[i := l'.clients[i]]
    requires l'.kv.store == l.kv.store && l'.kv.accepted == l.kv.accepted && c in l'.kv.calls
    requires l'.kv.calls == l.kv.calls[c := l'.kv.calls[c]]
    ensures OneMoves(l, l', i, {c})
  {
  }

  lemma TakenKeeps(l: Locks, i: nat)
    requires LockInv(l) && Possible(l, Taken(i))
    ensures LockInv(After(l, Taken(i)))
  {
    hide K.KvInv, K.After, CallOk;
    var c := l.clients[i].call;
    AnswerFacts(l, c);
    var x := match Outcome(l, c) case OK => Holding case ErrMaybe => Checking(c) case _ => Trying;
    ReturnKeeps(l, i, c, x);
  }

  lemma FreedKeeps(l: Locks, i: nat)
    requires LockInv(l) && Possible(l, Freed(i))
    ensures LockInv(After(l, Freed(i)))
  {
    hide K.KvInv, K.After, CallOk;
    var c := l.clients[i].call;
    AnswerFacts(l, c);
    assert ClientOk(l, i);
    ReturnKeeps(l, i, c, Away);
  }

  lemma RecheckKeeps(l: Locks, i: nat)
    requires LockInv(l) && Possible(l, Recheck(i))
    ensures LockInv(After(l, Recheck(i)))
  {
    hide K.KvInv, CallOk;
    assert ClientOk(l, i);
    assert l.ids[i] != FREE;
    var r := Get(l.kv.store, LOCK);
    MoveKeeps(l, i, if r.err == OK && r.value == l.ids[i] then Holding else Trying);
  }

  lemma ResendKeeps(l: Locks, c: nat)
    requires LockInv(l) && K.Possible(l.kv, K.Resend(c))
    ensures LockInv(l.(kv := K.After(l.kv, K.Resend(c))))
  {
    hide K.KvInv, ClientOk, CallOk;
    var l' := l.(kv := K.After(l.kv, K.Resend(c)));
    K.StepKeeps(l.kv, K.Resend(c));
    forall d | d in l'.kv.calls
      ensures CallOk(l', d)
    {
      CallOwned(l, d);
      CallStays(l, l', d);
    }
    forall j | 0 <= j < |l'.clients|
      ensures ClientOk(l', j)
    {
      ClientStays(l, l', j);
    }
  }

  lemma CallOwned(l: Locks, c: nat)
    requires |l.clients| == |l.ids| && c in l.kv.calls && CallOk(l, c)
    ensures c in l.owner && l.owner[c] < |l.clients|
  {
  }

  // ----- Executing a write -----------------------------------------------------------------

  /** A write is executed in vain: only the call's own record changes. */
  lemma VainKeeps(l: Locks, c: nat, a: nat)
    requires LockInv(l) && K.Possible(l.kv, K.Execute(c, a)) && l.kv.calls[c].version != VersionOf(l.kv.store, LOCK)
    ensures LockInv(l.(kv := K.After(l.kv, K.Execute(c, a))))
  {
    hide K.KvInv, ClientOk, Harmless;
    var l' := l.(kv := K.After(l.kv, K.Execute(c, a)));
    K.StepKeeps(l.kv, K.Execute(c, a));
    assert CallOk(l, c);
    assert LOCK in l.kv.store;
    forall d | d in l'.kv.calls
      ensures CallOk(l', d)
    {
      if d != c {
        CallStays(l, l', d);
      }
    }
    forall j | 0 <= j < |l'.clients|
      ensures ClientOk(l', j)
    {
      VainClient(l, l', c, j);
    }
  }

  lemma VainClient(l: Locks, l': Locks, c: nat, j: nat)
    requires |l.clients| == |l.ids| && l'.ids == l.ids && l'.clients == l.clients && l'.owner == l.owner && j < |l.clients| && ClientOk(l, j)
    requires l'.kv.store == l.kv.store && l'.kv.accepted == l.kv.accepted && c in l.kv.calls && c in l'.kv.calls
    requires l'.kv.calls == l.kv.calls[c := l.kv.calls[c].(judged := l'.kv.calls[c].judged)]
    ensures ClientOk(l', j)
  {
  }

  /** A write takes effect: the lock passes to or from the one client that was waiting for it. */
  lemma TakesEffectKeeps(l: Locks, c: nat, a: nat)
    requires LockInv(l) && K.Possible(l.kv, K.Execute(c, a)) && l.kv.calls[c].version == VersionOf(l.kv.store, LOCK)
    ensures LockInv(l.(kv := K.After(l.kv, K.Execute(c, a))))
  {
    hide K.KvInv, K.After, ClientOk, CallOk, ContentOk;
    var l' := l.(kv := K.After(l.kv, K.Execute(c, a)));
    K.StepKeeps(l.kv, K.Execute(c, a));
    EffectShape(l, c, a);
    forall d | d in l'.kv.calls
      ensures CallOk(l', d)
    {
      EffectCall(l, l', c, a, d);
    }
    EffectCounts(l, c);
    EffectContent(l, l', c);
    forall j | 0 <= j < |l'.clients|
      ensures ClientOk(l', j)
    {
      EffectClient(l, l', c, j);
    }
  }

  lemma EffectShape(l: Locks, c: nat, a: nat)
    requires LockInv(l) && K.Possible(l.kv, K.Execute(c, a)) && l.kv.calls[c].version == VersionOf(l.kv.store, LOCK)
    ensures CallOk(l, c) && l.kv.calls[c].key == LOCK && c in l.owner && l.owner[c] < |l.clients| && Harmless(l, c, l.owner[c])
    ensures var kv, call := K.After(l.kv, K.Execute(c, a)), l.kv.calls[c];
            && LOCK in kv.store && kv.store[LOCK] == Item(call.value, VersionOf(l.kv.store, LOCK) + 1)
            && kv.calls == l.kv.calls[c := call.(judged := call.judged[a := OK])]
            && kv.accepted == l.kv.accepted + [K.Accepted(c, LOCK)]
  {
    hide K.KvInv, ClientOk, ContentOk;
    assert CallOk(l, c);
  }

  /** No call names the new version, so none can take effect any more. */
  lemma EffectCall(l: Locks, l': Locks, c: nat, a: nat, d: nat)
    requires |l.clients| == |l.ids| && l'.ids == l.ids && l'.clients == l.clients && l'.owner == l.owner
    requires c in l.kv.calls && d in l.kv.calls && CallOk(l, d) && l.kv.calls[c].version == VersionOf(l.kv.store, LOCK)
    requires VersionOf(l'.kv.store, LOCK) == VersionOf(l.kv.store, LOCK) + 1 && d in l'.kv.calls
    requires l'.kv.calls[d] == if d == c then l.kv.calls[c].(judged := l.kv.calls[c].judged[a := OK]) else l.kv.calls[d]
    ensures CallOk(l', d)
  {
  }

  lemma EffectContent(l: Locks, l': Locks, c: nat)
    requires |l.clients| == |l.ids| && l'.ids == l.ids && c in l.kv.calls && CallOk(l, c)
    requires l.kv.calls[c].version == VersionOf(l.kv.store, LOCK)
    requires LOCK in l'.kv.store && l'.kv.store[LOCK].value == l.kv.calls[c].value
    ensures ContentOk(l')
  {
    assert Harmless(l, c, l.owner[c]);
  }

  lemma EffectCounts(l: Locks, c: nat)
    requires LockInv(l) && c in l.kv.calls && l.kv.calls[c].version == VersionOf(l.kv.store, LOCK) && l.kv.calls[c].key == LOCK
    ensures forall d :: K.Effects(l.kv.accepted + [K.Accepted(c, LOCK)], d) == K.Effects(l.kv.accepted, d) + (if d == c then 1 else 0)
    ensures K.Effects(l.kv.accepted, c) == 0
  {
    CallFacts(l, c);
    forall d {
      K.OneMore(l.kv.accepted, K.Accepted(c, LOCK), d, LOCK);
    }
  }

  lemma EffectClient(l: Locks, l': Locks, c: nat, j: nat)
    requires |l.clients| == |l.ids| && Named(l.ids) && l'.ids == l.ids && l'.clients == l.clients && l'.owner == l.owner
    requires j < |l.clients| && ClientOk(l, j) && c in l.kv.calls && c in l'.kv.calls && CallOk(l, c)
    requires l.kv.calls[c].version == VersionOf(l.kv.store, LOCK) && Harmless(l, c, l.owner[c])
    requires LOCK in l'.kv.store && l'.kv.store[LOCK] == Item(l.kv.calls[c].value, VersionOf(l.kv.store, LOCK) + 1)
    requires l'.kv.calls == l.kv.calls[c := l.kv.calls[c].(judged := l'.kv.calls[c].judged)]
    requires forall d :: K.Effects(l'.kv.accepted, d) == K.Effects(l.kv.accepted, d) + (if d == c then 1 else 0)
    requires K.Effects(l.kv.accepted, c) == 0
    ensures ClientOk(l', j)
  {
    var i := l.owner[c];
    assert j != i ==> l.ids[j] != l.ids[i];
  }

  lemma StepKeeps(l: Locks, step: Step)
    requires LockInv(l) && Possible(l, step)
    ensures LockInv(After(l, step))
  {
    hide K.KvInv, K.After, CallOk;
    match step
    case Network(s) =>
      match s {
        case Resend(c) => ResendKeeps(l, c);
        case Execute(c, a) =>
          if l.kv.calls[c].version == VersionOf(l.kv.store, LOCK) {
            TakesEffectKeeps(l, c, a);
          } else {
            VainKeeps(l, c, a);
          }
      }
    case Acquire(i) => assert ClientOk(l, i); MoveKeeps(l, i, Trying);
    case Look(i, c) => LookKeeps(l, i, c);
    case Taken(i) => TakenKeeps(l, i);
    case Recheck(i) => RecheckKeeps(l, i);
    case Release(i) => assert ClientOk(l, i); MoveKeeps(l, i, Releasing);
    case LookOwn(i, c) => LookOwnKeeps(l, i, c);
    case Freed(i) => FreedKeeps(l, i);
  }

  // ----- Runs and theorems -----------------------------------------------------------------

  predicate IsRun(ids: seq<Value>, ls: seq<Locks>, steps: seq<Step>) {
    && |ls| == |steps| + 1
    && ls[0] == Start(ids)
    && forall i :: 0 <= i < |steps| ==> Possible(ls[i], steps[i]) && ls[i + 1] == After(ls[i], steps[i])
  }

  lemma {:induction false} RunKeeps(ids: seq<Value>, ls: seq<Locks>, steps: seq<Step>, t: nat)
    requires Named(ids) && IsRun(ids, ls, steps) && t < |ls|
    ensures LockInv(ls[t])
    decreases t
  {
    hide LockInv, Possible, After;
    if t == 0 {
      StartInv(ids);
    } else {
      RunKeeps(ids, ls, steps, t - 1);
      StepKeeps(ls[t - 1], steps[t - 1]);
      assert ls[t - 1 + 1] == After(ls[t - 1], steps[t - 1]);
    }
  }

  lemma StartInv(ids: seq<Value>)
    requires Named(ids)
    ensures LockInv(Start(ids))
  {
  }

  /** Client i is between the return of its Acquire and the moment its Release takes effect. */
  predicate Inside(l: Locks, i: nat)
    requires i < |l.clients|
  {
    l.clients[i].Holding? || l.clients[i].Releasing? || (l.clients[i].Freeing? && !Done(l, l.clients[i].call))
  }

  /** No two clients are ever inside together. */
  lemma MutualExclusion(ids: seq<Value>, ls: seq<Locks>, steps: seq<Step>, t: nat, i: nat, j: nat)
    requires Named(ids) && IsRun(ids, ls, steps) && t < |ls| && i < |ls[t].clients| && j < |ls[t].clients|
    requires Inside(ls[t], i) && Inside(ls[t], j)
    ensures i == j
  {
    hide IsRun, CallOk, K.KvInv;
    RunKeeps(ids, ls, steps, t);
    assert ClientOk(ls[t], i) && ClientOk(ls[t], j);
  }

  /** A write answered ErrMaybe that did take effect is recognised: the second look finds the client's own name. */
  lemma MaybeIsRecognised(ids: seq<Value>, ls: seq<Locks>, steps: seq<Step>, t: nat, i: nat)
    requires Named(ids) && IsRun(ids, ls, steps) && t < |ls| && i < |ls[t].clients| && ls[t].clients[i].Checking?
    ensures Possible(ls[t], Recheck(i))
    ensures After(ls[t], Recheck(i)).clients[i] == if Done(ls[t], ls[t].clients[i].call) then Holding else Trying
  {
    hide IsRun, CallOk, K.KvInv;
    RunKeeps(ids, ls, steps, t);
    assert ClientOk(ls[t], i);
    assert ls[t].ids[i] != FREE;
  }

  /** When Release returns, the lock has been given up. */
  lemma ReleaseReleases(ids: seq<Value>, ls: seq<Locks>, steps: seq<Step>, t: nat, i: nat)
    requires Named(ids) && IsRun(ids, ls, steps) && t < |ls| && Possible(ls[t], Freed(i))
    ensures Done(ls[t], ls[t].clients[i].call) && i < |ids| && Content(ls[t]) != ids[i]
  {
    hide IsRun, K.KvInv;
    RunKeeps(ids, ls, steps, t);
    SameIds(ids, ls, steps, t);
    assert ClientOk(ls[t], i);
    AnswerFacts(ls[t], ls[t].clients[i].call);
  }

  lemma {:induction false} SameIds(ids: seq<Value>, ls: seq<Locks>, steps: seq<Step>, t: nat)
    requires Named(ids) && IsRun(ids, ls, steps) && t < |ls|
    ensures ls[t].ids == ids
    decreases t
  {
    hide LockInv, K.After;
    if t > 0 {
      SameIds(ids, ls, steps, t - 1);
      assert ls[t - 1 + 1] == After(ls[t - 1], steps[t - 1]);
    }
  }

  /** A releasing client always finds its own name, so every Release sends its write. */
  lemma ReleaseFindsOwnName(ids: seq<Value>, ls: seq<Locks>, steps: seq<Step>, t: nat, i: nat)
    requires Named(ids) && IsRun(ids, ls, steps) && t < |ls| && i < |ls[t].clients| && ls[t].clients[i].Releasing?
    ensures i < |ls[t].ids| && Content(ls[t]) == ls[t].ids[i] && LOCK in ls[t].kv.store
  {
    hide IsRun, K.KvInv, CallOk;
    RunKeeps(ids, ls, steps, t);
    assert ClientOk(ls[t], i);
    assert ls[t].ids[i] != FREE;
  }
}
