/**
 The lock can always be had and always be given back: whatever has happened so far, there is a way on in
 which a given client comes to hold it.
 */
module LockProgress {
  import opened VersionedMap
  import opened RaftTypes
  import K = KvClerk
  import opened LockService

  // ----- Continuations ---------------------------------------------------------------------

  ghost predicate Path(ls: seq<Locks>, steps: seq<Step>, l: Locks, l': Locks) {
    && |ls| == |steps| + 1 && ls[0] == l && ls[|steps|] == l'
    && forall i :: 0 <= i < |steps| ==> Possible(ls[i], steps[i]) && ls[i + 1] == After(ls[i], steps[i])
  }

  ghost predicate Leads(l: Locks, l': Locks) {
    exists ls, steps :: Path(ls, steps, l, l')
  }

  lemma Stay(l: Locks)
    ensures Leads(l, l)
  {
    assert Path([l], [], l, l);
  }

  lemma Join(a: Locks, b: Locks, c: Locks)
    requires Leads(a, b) && Leads(b, c)
    ensures Leads(a, c)
  {
    hide Possible, After;
    var ls, steps :| Path(ls, steps, a, b);
    var ms, more :| Path(ms, more, b, c);
    var all, every := ls + ms[1..], steps + more;
    forall i | 0 <= i < |every|
      ensures Possible(all[i], every[i]) && all[i + 1] == After(all[i], every[i])
    {
      if i < |steps| {
        assert all[i] == ls[i] && all[i + 1] == ls[i + 1];
      } else {
        var j := i - |steps|;
        assert all[i] == ms[j] && all[i + 1] == ms[j + 1];
      }
    }
    assert Path(all, every, a, c);
  }

  /** One step more; what the steps keep is kept. */
  lemma Then(a: Locks, b: Locks, step: Step)
    requires Leads(a, b) && LockInv(b) && Possible(b, step)
    ensures Leads(a, After(b, step)) && LockInv(After(b, step))
  {
    hide Leads, LockInv, Possible, After;
    assert Leads(b, After(b, step)) by {
      OneStep(b, step);
    }
    Join(a, b, After(b, step));
    StepKeeps(b, step);
  }

  lemma OneStep(l: Locks, step: Step)
    requires Possible(l, step)
    ensures Leads(l, After(l, step))
  {
    hide Possible, After;
    assert Path([l, After(l, step)], [step], l, After(l, step));
  }

  // ----- Being answered --------------------------------------------------------------------

  lemma ClientFacts(l: Locks, i: nat)
    requires LockInv(l) && i < |l.clients|
    ensures |l.clients| == |l.ids| && ClientOk(l, i) && l.ids[i] != FREE && Named(l.ids)
  {
    hide K.KvInv, CallOk;
  }

  /** The write in progress is sent once more, and that attempt is executed and answered. */
  lemma GetsAnswered(l: Locks, i: nat) returns (l': Locks)
    requires LockInv(l) && i < |l.clients| && (l.clients[i].Taking? || l.clients[i].Freeing?)
    ensures Leads(l, l') && LockInv(l') && l'.clients == l.clients && l'.ids == l.ids
    ensures K.Possible(l'.kv, K.Return(l.clients[i].call))
  {
    hide LockInv, Leads;
    var c := l.clients[i].call;
    ClientFacts(l, i);
    Stay(l);
    var resend := Network(K.Resend(c));
    Then(l, l, resend);
    var l1 := After(l, resend);
    NotJudgedYet(l, c);
    var execute := Network(K.Execute(c, l.kv.calls[c].sent));
    Then(l, l1, execute);
    l' := After(l1, execute);
  }

  lemma NotJudgedYet(l: Locks, c: nat)
    requires LockInv(l) && c in l.kv.calls
    ensures l.kv.calls[c].sent !in l.kv.calls[c].judged
  {
    CallFacts(l, c);
  }

  /** Acquire's write is answered, and the client knows whether it has the lock. */
  lemma EndTaking(l: Locks, i: nat) returns (l': Locks)
    requires LockInv(l) && i < |l.clients| && (l.clients[i].Taking? || l.clients[i].Checking?)
    ensures Leads(l, l') && LockInv(l') && l'.ids == l.ids
    ensures l'.clients == l.clients[i := Holding] || l'.clients == l.clients[i := Trying]
  {
    hide LockInv, Leads, K.After, Outcome;
    ClientFacts(l, i);
    var l1 := l;
    Stay(l);
    if l.clients[i].Taking? {
      var l0 := GetsAnswered(l, i);
      Then(l, l0, Taken(i));
      l1 := After(l0, Taken(i));
    }
    l' := l1;
    if l1.clients[i].Checking? {
      Then(l, l1, Recheck(i));
      l' := After(l1, Recheck(i));
    }
  }

  lemma EndFreeing(l: Locks, i: nat) returns (l': Locks)
    requires LockInv(l) && i < |l.clients| && l.clients[i].Freeing?
    ensures Leads(l, l') && LockInv(l') && l'.ids == l.ids && l'.clients == l.clients[i := Away]
  {
    hide LockInv, Leads, K.After;
    var l1 := GetsAnswered(l, i);
    Then(l, l1, Freed(i));
    l' := After(l1, Freed(i));
  }

  // ----- Giving the lock back --------------------------------------------------------------

  /** The first attempt to write the free mark arrives in time. */
  lemma FreesAtOnce(l: Locks, i: nat, c: nat) returns (l': Locks)
    requires LockInv(l) && i < |l.clients| && l.clients[i] == Freeing(c) && c in l.kv.calls
    requires l.kv.calls[c] == K.Call(LOCK, FREE, VersionOf(l.kv.store, LOCK), 1, map[], None)
    ensures Leads(l, l') && LockInv(l') && l'.ids == l.ids && l'.clients == l.clients[i := Away] && Content(l') == FREE
  {
    hide LockInv, Leads;
    Stay(l);
    var execute := Network(K.Execute(c, 0));
    Then(l, l, execute);
    var l1 := After(l, execute);
    assert l1.kv.calls[c].judged == map[0 := OK];
    Then(l, l1, Freed(i));
    l' := After(l1, Freed(i));
  }

  /** Whoever holds the lock can give it back, and nobody else moves. */
  lemma HolderCanRelease(l: Locks, i: nat) returns (l': Locks)
    requires LockInv(l) && i < |l.clients| && (l.clients[i].Holding? || l.clients[i].Releasing?)
    ensures Leads(l, l') && LockInv(l') && l'.ids == l.ids && l'.clients == l.clients[i := Away] && Content(l') == FREE
  {
    hide LockInv, Leads, K.After, Send;
    Stay(l);
    var l1 := l;
    if l.clients[i].Holding? {
      Then(l, l, Release(i));
      l1 := After(l, Release(i));
    }
    ClientFacts(l1, i);
    var c := K.FreshCall(l1.kv.calls.Keys);
    assert c !in l1.kv.calls;
    Then(l, l1, LookOwn(i, c));
    var l2 := After(l1, LookOwn(i, c));
    SentFrom(l1, i, c, FREE, Freeing(c));
    l' := FreesAtOnce(l2, i, c);
    Join(l, l2, l');
  }

  lemma SentFrom(l: Locks, i: nat, c: nat, value: Value, next: Client)
    requires i < |l.clients| && c !in l.kv.calls
    ensures var l' := Send(l, i, c, value, next);
            && l'.clients == l.clients[i := next] && l'.ids == l.ids && l'.kv.store == l.kv.store && c in l'.kv.calls
            && l'.kv.calls[c] == K.Call(LOCK, value, VersionOf(l.kv.store, LOCK), 1, map[], None)
  {
  }

  predicate Idle(x: Client) {
    x.Away? || x.Trying?
  }

  /** Any client can finish what it is doing and let go of the lock. */
  lemma LetGo(l: Locks, i: nat) returns (l': Locks)
    requires LockInv(l) && i < |l.clients|
    ensures Leads(l, l') && LockInv(l') && l'.ids == l.ids && |l'.clients| == |l.clients|
    ensures Idle(l'.clients[i]) && forall j :: 0 <= j < |l.clients| && j != i ==> l'.clients[j] == l.clients[j]
  {
    hide LockInv, Leads;
    l' := l;
    Stay(l);
    if l.clients[i].Taking? || l.clients[i].Checking? {
      l' := EndTaking(l, i);
    } else if l.clients[i].Freeing? {
      l' := EndFreeing(l, i);
    }
    if l'.clients[i].Holding? || l'.clients[i].Releasing? {
      var l1 := l';
      l' := HolderCanRelease(l1, i);
      Join(l, l1, l');
    }
  }

  lemma {:induction false} AllLetGo(l: Locks, n: nat) returns (l': Locks)
    requires LockInv(l) && n <= |l.clients|
    ensures Leads(l, l') && LockInv(l') && l'.ids == l.ids && |l'.clients| == |l.clients|
    ensures forall j :: 0 <= j < n ==> Idle(l'.clients[j])
    decreases n
  {
    hide LockInv, Leads;
    if n == 0 {
      l' := l;
      Stay(l);
    } else {
      var l1 := AllLetGo(l, n - 1);
      l' := LetGo(l1, n - 1);
      Join(l, l1, l');
    }
  }

  // ----- Getting the lock ------------------------------------------------------------------

  /** No client owns the lock. */
  ghost predicate Unowned(l: Locks) {
    forall i :: 0 <= i < |l.clients| ==> !Owns(l, i)
  }

  lemma UnownedIsFree(l: Locks)
    requires LockInv(l) && Unowned(l)
    ensures Content(l) == FREE
  {
    hide K.KvInv, CallOk, Owns, Content;
    forall i | 0 <= i < |l.ids|
      ensures Content(l) != l.ids[i]
    {
      assert ClientOk(l, i);
    }
  }

  /** Looking at a lock that nobody owns, a client sends its name. */
  lemma LookTries(l: Locks, i: nat, c: nat)
    requires LockInv(l) && Unowned(l) && i < |l.clients| && l.clients[i].Trying? && c !in l.kv.calls
    ensures Possible(l, Look(i, c))
    ensures var l', call := After(l, Look(i, c)), K.Call(LOCK, l.ids[i], VersionOf(l.kv.store, LOCK), 1, map[], None);
            && l'.clients == l.clients[i := Taking(c)] && l'.ids == l.ids
            && l'.kv.store == l.kv.store && c in l'.kv.calls && l'.kv.calls[c] == call
  {
    hide K.KvInv, CallOk;
    UnownedIsFree(l);
  }

  /** The first attempt arrives in time, and its answer gives the client the lock. */
  lemma TakesAtOnce(l: Locks, i: nat, c: nat) returns (l': Locks)
    requires LockInv(l) && i < |l.clients| && l.clients[i] == Taking(c) && c in l.kv.calls && l.kv.calls[c].key == LOCK
    requires var call := l.kv.calls[c];
             call.version == VersionOf(l.kv.store, LOCK) && call.sent == 1 && call.judged == map[] && call.outcome.None?
    ensures Leads(l, l') && LockInv(l') && l'.ids == l.ids && l'.clients == l.clients[i := Holding]
  {
    hide LockInv, Leads;
    Stay(l);
    var execute := Network(K.Execute(c, 0));
    Then(l, l, execute);
    var l1 := After(l, execute);
    assert l1.kv.calls[c].judged == map[0 := OK];
    Then(l, l1, Taken(i));
    l' := After(l1, Taken(i));
  }

  /** A client that tries for a lock nobody owns can come to hold it without anybody else moving. */
  lemma FreeLockCanBeTaken(l: Locks, i: nat) returns (l': Locks)
    requires LockInv(l) && Unowned(l) && i < |l.clients| && l.clients[i].Trying?
    ensures Leads(l, l') && LockInv(l') && l'.ids == l.ids && l'.clients == l.clients[i := Holding]
  {
    hide LockInv, Leads, After, Possible, Unowned;
    var c := K.FreshCall(l.kv.calls.Keys);
    assert c !in l.kv.calls;
    LookTries(l, i, c);
    Stay(l);
    Then(l, l, Look(i, c));
    var l1 := After(l, Look(i, c));
    l' := TakesAtOnce(l1, i, c);
    Join(l, l1, l');
  }

  lemma IdleOwnNothing(l: Locks)
    requires forall j :: 0 <= j < |l.clients| ==> Idle(l.clients[j])
    ensures Unowned(l)
  {
  }

  // ----- Over runs -------------------------------------------------------------------------

  /** The run goes on to a state in which client i holds the lock. */
  ghost predicate ComesToHold(ids: seq<Value>, ls: seq<Locks>, steps: seq<Step>, i: nat, ls': seq<Locks>, steps': seq<Step>) {
    && IsRun(ids, ls', steps') && ls <= ls' && steps <= steps' && |ls'| >= 1
    && i < |ls'[|ls'| - 1].clients| && ls'[|ls'| - 1].clients[i].Holding?
  }

  /** A way on from the last state of a run is a way on of the run. */
  lemma RunGoesOn(ids: seq<Value>, ls: seq<Locks>, steps: seq<Step>, l': Locks) returns (ls': seq<Locks>, steps': seq<Step>)
    requires IsRun(ids, ls, steps) && Leads(ls[|steps|], l')
    ensures IsRun(ids, ls', steps') && ls <= ls' && steps <= steps' && |ls'| >= 1 && ls'[|ls'| - 1] == l'
  {
    hide Possible, After;
    var ms, more :| Path(ms, more, ls[|steps|], l');
    ls', steps' := ls + ms[1..], steps + more;
    forall i | 0 <= i < |steps'|
      ensures Possible(ls'[i], steps'[i]) && ls'[i + 1] == After(ls'[i], steps'[i])
    {
      if i < |steps| {
        assert ls'[i] == ls[i] && ls'[i + 1] == ls[i + 1];
      } else {
        var j := i - |steps|;
        assert ls'[i] == ms[j] && ls'[i + 1] == ms[j + 1];
      }
    }
  }

  /**
   In every reachable state in which a client tries for the lock and nobody owns it, the run has a
   continuation in which that client holds it.
   */
  lemma AcquireCanSucceed(ids: seq<Value>, ls: seq<Locks>, steps: seq<Step>, i: nat)
    returns (ls': seq<Locks>, steps': seq<Step>)
    requires Named(ids) && IsRun(ids, ls, steps) && i < |ids|
    requires var l := ls[|steps|]; Unowned(l) && i < |l.clients| && l.clients[i].Trying?
    ensures ComesToHold(ids, ls, steps, i, ls', steps')
  {
    hide LockInv, Leads, IsRun, Unowned;
    RunShape(ids, ls, steps);
    RunKeeps(ids, ls, steps, |steps|);
    var l' := FreeLockCanBeTaken(ls[|steps|], i);
    ls', steps' := RunGoesOn(ids, ls, steps, l');
  }

  lemma RunShape(ids: seq<Value>, ls: seq<Locks>, steps: seq<Step>)
    requires IsRun(ids, ls, steps)
    ensures |ls| == |steps| + 1 && ls[0] == Start(ids)
  {
  }

  /** To begin with, the first Acquire is such a state. */
  lemma FirstAcquire(ids: seq<Value>, i: nat)
    requires Named(ids) && i < |ids|
    ensures var l := Start(ids);
            Possible(l, Acquire(i)) && After(l, Acquire(i)).clients[i].Trying? && Unowned(After(l, Acquire(i)))
  {
  }

  /** Nobody is ever shut out: every reachable state has a continuation in which a given client holds the lock. */
  lemma EveryoneCanHold(ids: seq<Value>, ls: seq<Locks>, steps: seq<Step>, i: nat)
    returns (ls': seq<Locks>, steps': seq<Step>)
    requires Named(ids) && IsRun(ids, ls, steps) && i < |ids|
    ensures ComesToHold(ids, ls, steps, i, ls', steps')
  {
    hide LockInv, Leads, IsRun, Unowned;
    RunShape(ids, ls, steps);
    RunKeeps(ids, ls, steps, |steps|);
    SameIds(ids, ls, steps, |steps|);
    var l := ls[|steps|];
    SameNumber(l);
    var l1 := AllLetGo(l, |l.clients|);
    IdleOwnNothing(l1);
    var l2 := l1;
    Stay(l1);
    if l1.clients[i].Away? {
      Then(l1, l1, Acquire(i));
      l2 := After(l1, Acquire(i));
      IdleOwnNothing(l2);
    }
    var l3 := FreeLockCanBeTaken(l2, i);
    Join(l, l1, l2);
    Join(l, l2, l3);
    ls', steps' := RunGoesOn(ids, ls, steps, l3);
  }

  /** Whoever holds the lock can give it back: the run has a continuation in which it is away and nobody else has moved. */
  lemma ReleaseCanReturn(ids: seq<Value>, ls: seq<Locks>, steps: seq<Step>, i: nat)
    returns (ls': seq<Locks>, steps': seq<Step>)
    requires Named(ids) && IsRun(ids, ls, steps)
    requires var l := ls[|steps|]; i < |l.clients| && (l.clients[i].Holding? || l.clients[i].Releasing?)
    ensures IsRun(ids, ls', steps') && ls <= ls' && steps <= steps' && |ls'| >= 1
    ensures ls'[|ls'| - 1].clients == ls[|steps|].clients[i := Away] && Content(ls'[|ls'| - 1]) == FREE
  {
    hide LockInv, Leads, IsRun, Content;
    RunShape(ids, ls, steps);
    RunKeeps(ids, ls, steps, |steps|);
    var l' := HolderCanRelease(ls[|steps|], i);
    ls', steps' := RunGoesOn(ids, ls, steps, l');
  }

  lemma SameNumber(l: Locks)
    requires LockInv(l)
    ensures |l.clients| == |l.ids|
  {
  }

  /**
   A write of Acquire that was sent once and has taken effect makes the client the holder as soon as it is
   answered; the second look is for writes that were sent more than once.
   */
  lemma PlainAnswerDecides(ids: seq<Value>, ls: seq<Locks>, steps: seq<Step>, t: nat, i: nat)
    requires Named(ids) && IsRun(ids, ls, steps) && t < |ls| && Possible(ls[t], Taken(i))
    ensures var l := ls[t];
            var call := l.kv.calls[l.clients[i].call];
            call.sent == 1 ==> After(l, Taken(i)).clients[i] == if Done(l, l.clients[i].call) then Holding else Trying
  {
    hide IsRun;
    RunKeeps(ids, ls, steps, t);
    AnswerFacts(ls[t], ls[t].clients[i].call);
  }
}
