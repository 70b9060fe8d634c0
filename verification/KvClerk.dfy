/**
 Conditional writes through a network that loses and delays messages: the clerk resends a write
 until it is answered, every attempt may be executed once at any later moment or never, and only
 the answer to the current attempt is heard.
 */
module KvClerk {
  import opened RaftTypes
  import opened VersionedMap

  /** What the clerk tells its caller when attempt `attempt` is answered with err. */
  function Verdict(attempt: nat, err: Err): Err {
    if attempt > 0 && err == ErrVersion then ErrMaybe else err
  }

  /** One call of Put: how many attempts were sent, how the server judged those it executed, and the outcome. */
  datatype Call = Call(key: Key, value: Value, version: nat, sent: nat, judged: map<nat, Err>, outcome: Option<Err>)

  /** `accepted` is the history of the writes that took effect. */
  datatype Kv = Kv(store: Store, calls: map<nat, Call>, accepted: seq<Accepted>)

  datatype Accepted = Accepted(call: nat, key: Key)

  const EMPTY := Kv(map[], map[], [])

  datatype Step =
    | Begin(c: nat, key: Key, value: Value, version: nat)
    | Resend(c: nat)
    | Execute(c: nat, attempt: nat)
    | Return(c: nat)

  predicate Possible(kv: Kv, step: Step) {
    match step
    case Begin(c, key, value, version) => c !in kv.calls
    case Resend(c) => c in kv.calls && kv.calls[c].outcome.None?
    case Execute(c, a) => c in kv.calls && a < kv.calls[c].sent && a !in kv.calls[c].judged
    case Return(c) => c in kv.calls && kv.calls[c].outcome.None? && kv.calls[c].sent >= 1 &&
                      kv.calls[c].sent - 1 in kv.calls[c].judged
  }

  function After(kv: Kv, step: Step): Kv
    requires Possible(kv, step)
  {
    match step
    case Begin(c, key, value, version) =>
      kv.(calls := kv.calls[c := Call(key, value, version, 1, map[], None)])
    case Resend(c) =>
      kv.(calls := kv.calls[c := kv.calls[c].(sent := kv.calls[c].sent + 1)])
    case Execute(c, a) =>
      var call := kv.calls[c];
      var err := PutErr(kv.store, call.key, call.version);
      Kv(PutStore(kv.store, call.key, call.value, call.version),
         kv.calls[c := call.(judged := call.judged[a := err])],
         if err == OK then kv.accepted + [Accepted(c, call.key)] else kv.accepted)
    case Return(c) =>
      var call := kv.calls[c];
      kv.(calls := kv.calls[c := call.(outcome := Some(Verdict(call.sent - 1, call.judged[call.sent - 1])))])
  }

  // ----- Counting --------------------------------------------------------------------------

  /** How often call c took effect. */
  function Effects(accepted: seq<Accepted>, c: nat): nat {
    if accepted == [] then 0
    else Effects(accepted[..|accepted| - 1], c) + (if accepted[|accepted| - 1].call == c then 1 else 0)
  }

  /** How many writes key k has taken. */
  function Writes(accepted: seq<Accepted>, k: Key): nat {
    if accepted == [] then 0
    else Writes(accepted[..|accepted| - 1], k) + (if accepted[|accepted| - 1].key == k then 1 else 0)
  }

  lemma OneMore(accepted: seq<Accepted>, x: Accepted, c: nat, k: Key)
    ensures Effects(accepted + [x], c) == Effects(accepted, c) + (if x.call == c then 1 else 0)
    ensures Writes(accepted + [x], k) == Writes(accepted, k) + (if x.key == k then 1 else 0)
  {
    assert (accepted + [x])[..|accepted|] == accepted;
  }

  // ----- The invariant ---------------------------------------------------------------------

  /** Some attempt of the call was executed and took effect. */
  ghost predicate Won(call: Call) {
    exists a :: a in call.judged && call.judged[a] == OK
  }

  ghost predicate CallOk(kv: Kv, c: nat, call: Call) {
    && call.sent >= 1
    && (forall a :: a in call.judged ==> a < call.sent && call.judged[a] in {OK, ErrVersion, ErrNoKey})
    && Effects(kv.accepted, c) == (if Won(call) then 1 else 0)
    && (Won(call) ==> VersionOf(kv.store, call.key) > call.version)
    && (call.outcome.Some? ==>
          call.sent - 1 in call.judged && call.outcome.value == Verdict(call.sent - 1, call.judged[call.sent - 1]))
  }

  ghost predicate KvInv(kv: Kv) {
    && (forall c :: c in kv.calls ==> CallOk(kv, c, kv.calls[c]))
    && (forall c :: c !in kv.calls ==> Effects(kv.accepted, c) == 0)
    && (forall k: Key :: VersionOf(kv.store, k) == Writes(kv.accepted, k))
  }

  lemma CallChanges(kv: Kv, c: nat, call: Call)
    requires KvInv(kv) && CallOk(kv, c, call)
    ensures KvInv(kv.(calls := kv.calls[c := call]))
  {
    var kv' := kv.(calls := kv.calls[c := call]);
    forall d | d in kv'.calls
      ensures CallOk(kv', d, kv'.calls[d])
    {
      if d != c {
        assert CallOk(kv, d, kv.calls[d]);
      }
    }
  }

  lemma AttemptJudged(call: Call, a: nat, err: Err)
    requires a !in call.judged
    ensures Won(call.(judged := call.judged[a := err])) <==> Won(call) || err == OK
  {
    var call' := call.(judged := call.judged[a := err]);
    if err == OK {
      assert call'.judged[a] == OK;
    }
    if Won(call) {
      var b :| b in call.judged && call.judged[b] == OK;
      assert call'.judged[b] == OK;
    }
  }

  lemma ExecuteCounts(kv: Kv, c: nat, a: nat, d: nat, k: Key)
    requires Possible(kv, Execute(c, a))
    ensures var kv', call := After(kv, Execute(c, a)), kv.calls[c];
            var one := if PutErr(kv.store, call.key, call.version) == OK then 1 else 0;
            && Effects(kv'.accepted, d) == Effects(kv.accepted, d) + (if d == c then one else 0)
            && Writes(kv'.accepted, k) == Writes(kv.accepted, k) + (if k == call.key then one else 0)
            && VersionOf(kv'.store, k) == VersionOf(kv.store, k) + (if k == call.key then one else 0)
  {
    var call := kv.calls[c];
    OneMore(kv.accepted, Accepted(c, call.key), d, k);
    PutCounts(kv.store, call.key, call.value, call.version, k);
  }

  lemma ExecuteKeeps(kv: Kv, c: nat, a: nat)
    requires KvInv(kv) && Possible(kv, Execute(c, a))
    ensures KvInv(After(kv, Execute(c, a)))
  {
    hide Effects, Writes, Won;
    var kv', call := After(kv, Execute(c, a)), kv.calls[c];
    forall d | d in kv'.calls
      ensures CallOk(kv', d, kv'.calls[d])
    {
      ExecuteCounts(kv, c, a, d, kv.calls[d].key);
      AttemptJudged(call, a, PutErr(kv.store, call.key, call.version));
      assert CallOk(kv, d, kv.calls[d]);
    }
    forall d | d !in kv'.calls
      ensures Effects(kv'.accepted, d) == 0
    {
      ExecuteCounts(kv, c, a, d, call.key);
    }
    forall k: Key
      ensures VersionOf(kv'.store, k) == Writes(kv'.accepted, k)
    {
      ExecuteCounts(kv, c, a, c, k);
    }
  }

  lemma StepKeeps(kv: Kv, step: Step)
    requires KvInv(kv) && Possible(kv, step)
    ensures KvInv(After(kv, step))
  {
    match step
    case Begin(c, key, value, version) =>
      var call := Call(key, value, version, 1, map[], None);
      assert !Won(call);
      CallChanges(kv, c, call);
    case Resend(c) =>
      var call := kv.calls[c];
      assert CallOk(kv, c, call);
      var call' := call.(sent := call.sent + 1);
      assert Won(call') == Won(call);
      CallChanges(kv, c, call');
    case Execute(c, a) => ExecuteKeeps(kv, c, a);
    case Return(c) =>
      var call := kv.calls[c];
      assert CallOk(kv, c, call);
      var call' := call.(outcome := Some(Verdict(call.sent - 1, call.judged[call.sent - 1])));
      assert Won(call') == Won(call);
      CallChanges(kv, c, call');
  }

  // ----- Runs and theorems -----------------------------------------------------------------

  predicate IsRun(kvs: seq<Kv>, steps: seq<Step>)
    ensures IsRun(kvs, steps) ==> |kvs| >= 1
  {
    && |kvs| == |steps| + 1
    && kvs[0] == EMPTY
    && forall i :: 0 <= i < |steps| ==> Possible(kvs[i], steps[i]) && kvs[i + 1] == After(kvs[i], steps[i])
  }

  lemma {:induction false} RunKeeps(kvs: seq<Kv>, steps: seq<Step>, i: nat)
    requires IsRun(kvs, steps) && i < |kvs|
    ensures KvInv(kvs[i])
    decreases i
  {
    if i > 0 {
      RunKeeps(kvs, steps, i - 1);
      StepKeeps(kvs[i - 1], steps[i - 1]);
      assert kvs[i - 1 + 1] == After(kvs[i - 1], steps[i - 1]);
    }
  }

  /** What a verdict is worth, by itself: for good, because no later moment of the run can change it. */
  ghost predicate Truthful(kv: Kv, c: nat, err: Err) {
    && Effects(kv.accepted, c) <= 1
    && (err == OK ==> Effects(kv.accepted, c) == 1)
    && (err == ErrVersion ==> Effects(kv.accepted, c) == 0)
  }

  /**
   Put outcomes are true at every later moment i of every run: OK was executed exactly once, ErrVersion
   never, and whatever else, ErrMaybe included, at most once.
   */
  lemma OutcomesAreTrue(kvs: seq<Kv>, steps: seq<Step>, i: nat, c: nat)
    requires IsRun(kvs, steps) && i < |kvs| && c in kvs[i].calls
    ensures Effects(kvs[i].accepted, c) <= 1
    ensures kvs[i].calls[c].outcome.Some? ==> Truthful(kvs[i], c, kvs[i].calls[c].outcome.value)
  {
    RunKeeps(kvs, steps, i);
    var call := kvs[i].calls[c];
    assert CallOk(kvs[i], c, call);
  }

  /** A write that was answered at the first attempt with anything but OK never takes effect. */
  lemma FirstAnswerIsFinal(kvs: seq<Kv>, steps: seq<Step>, i: nat, c: nat)
    requires IsRun(kvs, steps) && i < |kvs| && c in kvs[i].calls
    requires kvs[i].calls[c].outcome.Some? && kvs[i].calls[c].sent == 1
    ensures Effects(kvs[i].accepted, c) == if kvs[i].calls[c].outcome.value == OK then 1 else 0
  {
    RunKeeps(kvs, steps, i);
    var call := kvs[i].calls[c];
    assert CallOk(kvs[i], c, call);
  }

  /**
   The clerk owns up to not knowing exactly when the write was resent and its last attempt refused for its
   version; in every other case the caller hears what the server said to the last attempt.
   */
  lemma MaybeExactly(kvs: seq<Kv>, steps: seq<Step>, i: nat, c: nat)
    requires IsRun(kvs, steps) && i < |kvs| && c in kvs[i].calls && kvs[i].calls[c].outcome.Some?
    ensures var call := kvs[i].calls[c];
            && call.sent >= 1 && call.sent - 1 in call.judged
            && (call.outcome == Some(ErrMaybe) <==> call.sent > 1 && call.judged[call.sent - 1] == ErrVersion)
            && (call.outcome != Some(ErrMaybe) ==> call.outcome == Some(call.judged[call.sent - 1]))
  {
    RunKeeps(kvs, steps, i);
    assert CallOk(kvs[i], c, kvs[i].calls[c]);
  }

  /** The version of a key is the number of writes it has taken. */
  lemma VersionCountsWrites(kvs: seq<Kv>, steps: seq<Step>, i: nat, k: Key)
    requires IsRun(kvs, steps) && i < |kvs|
    ensures VersionOf(kvs[i].store, k) == Writes(kvs[i].accepted, k)
  {
    RunKeeps(kvs, steps, i);
  }

  lemma RunExtends(kvs: seq<Kv>, steps: seq<Step>, step: Step) returns (kvs': seq<Kv>, steps': seq<Step>)
    requires IsRun(kvs, steps) && Possible(kvs[|kvs| - 1], step)
    ensures IsRun(kvs', steps') && kvs <= kvs' && steps <= steps' && kvs'[|kvs'| - 1] == After(kvs[|kvs| - 1], step)
  {
    kvs', steps' := kvs + [After(kvs[|kvs| - 1], step)], steps + [step];
  }

  /** A write with version 1 to an absent key, resent once, is refused and its caller told so. */
  lemma RefusedRun(k: Key, v: Value) returns (kvs: seq<Kv>, steps: seq<Step>)
    ensures IsRun(kvs, steps)
    ensures kvs[|kvs| - 1] == Kv(map[], map[0 := Call(k, v, 1, 2, map[1 := ErrNoKey], Some(ErrNoKey))], [])
  {
    kvs, steps := [EMPTY], [];
    kvs, steps := RunExtends(kvs, steps, Begin(0, k, v, 1));
    assert kvs[|kvs| - 1] == Kv(map[], map[0 := Call(k, v, 1, 1, map[], None)], []);
    kvs, steps := RunExtends(kvs, steps, Resend(0));
    assert kvs[|kvs| - 1] == Kv(map[], map[0 := Call(k, v, 1, 2, map[], None)], []);
    kvs, steps := RunExtends(kvs, steps, Execute(0, 1));
    assert kvs[|kvs| - 1] == Kv(map[], map[0 := Call(k, v, 1, 2, map[1 := ErrNoKey], None)], []);
    kvs, steps := RunExtends(kvs, steps, Return(0));
  }

  /**
   ErrNoKey is weaker than it looks: after the refusal someone creates the key, and the delayed first
   attempt of the refused write goes through.
   */
  lemma RefusedWriteTakesEffect(k: Key, v: Value) returns (kvs: seq<Kv>, steps: seq<Step>)
    ensures IsRun(kvs, steps)
    ensures var end := kvs[|kvs| - 1];
            0 in end.calls && end.calls[0].outcome == Some(ErrNoKey) && Effects(end.accepted, 0) == 1
  {
    hide IsRun;
    kvs, steps := RefusedRun(k, v);
    var refused := kvs[|kvs| - 1];
    kvs, steps := RunExtends(kvs, steps, Begin(1, k, "", 0));
    kvs, steps := RunExtends(kvs, steps, Execute(1, 0));
    var created := kvs[|kvs| - 1];
    assert created.accepted == [] + [Accepted(1, k)] && created.store == map[k := Item("", 1)];
    OneMore([], Accepted(1, k), 0, k);
    kvs, steps := RunExtends(kvs, steps, Execute(0, 0));
    OneMore(created.accepted, Accepted(0, k), 0, k);
  }

  // ----- Exactly when a write that has not taken effect still can ---------------------------

  /** An attempt of the call is still on its way, and the key has not got past the version it names. */
  ghost predicate Outstanding(kv: Kv, c: nat)
    requires c in kv.calls
  {
    var call := kv.calls[c];
    (exists a: nat :: a < call.sent && a !in call.judged) && VersionOf(kv.store, call.key) <= call.version
  }

  /** The call has returned, has not taken effect and cannot any more. */
  ghost predicate Over(kv: Kv, c: nat) {
    && c in kv.calls && kv.calls[c].outcome.Some?
    && Effects(kv.accepted, c) == 0 && !Outstanding(kv, c)
  }

  lemma OverStays(kv: Kv, c: nat, step: Step)
    requires KvInv(kv) && Over(kv, c) && Possible(kv, step)
    ensures Over(After(kv, step), c)
  {
    hide Effects, Writes, KvInv;
    var kv', call := After(kv, step), kv.calls[c];
    if step.Execute? {
      ExecuteCounts(kv, step.c, step.attempt, c, call.key);
    }
    assert kv'.calls[c].sent == call.sent && kv'.calls[c].outcome == call.outcome;
    assert forall a: nat :: a in call.judged ==> a in kv'.calls[c].judged;
  }

  lemma {:induction false} OverForGood(kvs: seq<Kv>, steps: seq<Step>, i: nat, j: nat, c: nat)
    requires IsRun(kvs, steps) && i <= j < |kvs| && Over(kvs[i], c)
    ensures Over(kvs[j], c)
    decreases j
  {
    if i < j {
      OverForGood(kvs, steps, i, j - 1, c);
      RunKeeps(kvs, steps, j - 1);
      OverStays(kvs[j - 1], c, steps[j - 1]);
      assert kvs[j - 1 + 1] == After(kvs[j - 1], steps[j - 1]);
    }
  }

  /** A number above every call so far. */
  lemma {:induction false} FreshCall(used: set<nat>) returns (c: nat)
    ensures forall d :: d in used ==> d < c
    decreases |used|
  {
    if used == {} {
      return 0;
    }
    var x :| x in used;
    var y := FreshCall(used - {x});
    assert forall d :: d in used ==> d == x || d in used - {x};
    c := if x < y then y else x + 1;
  }

  /** Someone else writes the key once more. */
  lemma WriteOnce(kvs: seq<Kv>, steps: seq<Step>, k: Key, c: nat) returns (kvs': seq<Kv>, steps': seq<Step>)
    requires IsRun(kvs, steps) && c in kvs[|kvs| - 1].calls
    ensures IsRun(kvs', steps') && kvs <= kvs' && steps <= steps'
    ensures var was, now := kvs[|kvs| - 1], kvs'[|kvs'| - 1];
            && VersionOf(now.store, k) == VersionOf(was.store, k) + 1
            && c in now.calls && now.calls[c] == was.calls[c] && Effects(now.accepted, c) == Effects(was.accepted, c)
  {
    hide IsRun;
    var was := kvs[|kvs| - 1];
    var d := FreshCall(was.calls.Keys);
    assert d !in was.calls;
    var v := VersionOf(was.store, k);
    kvs', steps' := RunExtends(kvs, steps, Begin(d, k, "", v));
    var begun := kvs'[|kvs'| - 1];
    kvs', steps' := RunExtends(kvs', steps', Execute(d, 0));
    PutCounts(begun.store, k, "", v, k);
    OneMore(begun.accepted, Accepted(d, k), c, k);
  }

  lemma {:induction false} WriteUpTo(kvs: seq<Kv>, steps: seq<Step>, k: Key, c: nat, version: nat)
    returns (kvs': seq<Kv>, steps': seq<Step>)
    requires IsRun(kvs, steps) && c in kvs[|kvs| - 1].calls && VersionOf(kvs[|kvs| - 1].store, k) <= version
    ensures IsRun(kvs', steps') && kvs <= kvs' && steps <= steps'
    ensures var was, now := kvs[|kvs| - 1], kvs'[|kvs'| - 1];
            && VersionOf(now.store, k) == version
            && c in now.calls && now.calls[c] == was.calls[c] && Effects(now.accepted, c) == Effects(was.accepted, c)
    decreases version - VersionOf(kvs[|kvs| - 1].store, k)
  {
    hide IsRun;
    if VersionOf(kvs[|kvs| - 1].store, k) == version {
      return kvs, steps;
    }
    kvs', steps' := WriteOnce(kvs, steps, k, c);
    kvs', steps' := WriteUpTo(kvs', steps', k, c, version);
  }

  /** An outstanding write can still take effect: let others bring the key to its version, then let it arrive. */
  lemma OutstandingCanStrike(kvs: seq<Kv>, steps: seq<Step>, c: nat) returns (kvs': seq<Kv>, steps': seq<Step>)
    requires IsRun(kvs, steps) && c in kvs[|kvs| - 1].calls && Outstanding(kvs[|kvs| - 1], c)
    ensures IsRun(kvs', steps') && kvs <= kvs' && steps <= steps'
    ensures var was, now := kvs[|kvs| - 1], kvs'[|kvs'| - 1];
            && c in now.calls && now.calls[c].outcome == was.calls[c].outcome
            && Effects(now.accepted, c) == Effects(was.accepted, c) + 1
  {
    hide IsRun;
    var was := kvs[|kvs| - 1];
    var call := was.calls[c];
    var a: nat :| a < call.sent && a !in call.judged;
    kvs', steps' := WriteUpTo(kvs, steps, call.key, c, call.version);
    var ready := kvs'[|kvs'| - 1];
    kvs', steps' := RunExtends(kvs', steps', Execute(c, a));
    OneMore(ready.accepted, Accepted(c, call.key), c, call.key);
  }

  /** The run has a continuation in which call c has taken effect. */
  ghost predicate MayStrike(kvs: seq<Kv>, steps: seq<Step>, c: nat) {
    exists kvs', steps' :: Strikes(kvs, steps, c, kvs', steps')
  }

  ghost predicate Strikes(kvs: seq<Kv>, steps: seq<Step>, c: nat, kvs': seq<Kv>, steps': seq<Step>) {
    IsRun(kvs', steps') && kvs <= kvs' && steps <= steps' && Effects(kvs'[|kvs'| - 1].accepted, c) == 1
  }

  /**
   A write that was reported and has not taken effect can still do so exactly when one of its attempts
   is outstanding and its key has not got past its version.
   */
  lemma LateEffectExactly(kvs: seq<Kv>, steps: seq<Step>, c: nat)
    requires IsRun(kvs, steps) && c in kvs[|kvs| - 1].calls
    requires kvs[|kvs| - 1].calls[c].outcome.Some? && Effects(kvs[|kvs| - 1].accepted, c) == 0
    ensures MayStrike(kvs, steps, c) <==> Outstanding(kvs[|kvs| - 1], c)
  {
    var n := |kvs| - 1;
    if Outstanding(kvs[n], c) {
      var kvs', steps' := OutstandingCanStrike(kvs, steps, c);
      assert Strikes(kvs, steps, c, kvs', steps');
    } else {
      forall kvs', steps'
        ensures !Strikes(kvs, steps, c, kvs', steps')
      {
        if IsRun(kvs', steps') && kvs <= kvs' && steps <= steps' {
          assert kvs'[n] == kvs[n];
          OverForGood(kvs', steps', n, |kvs'| - 1, c);
        }
      }
    }
  }
}
