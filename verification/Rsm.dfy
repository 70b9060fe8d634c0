/**
 Matching replies to submitters.  A submitter registers a channel under the log index its operation
 was given; the apply loop answers on that channel if the operation found at the index is the one
 that was submitted, and otherwise closes it.
 */
module Rsm {
  import opened RaftTypes

  type Op = Bytes
  type Result = Bytes

  /** The operation that drew hash number h; that there is one such function is what makes the numbers unique. */
  type Draw = int -> Op

  /** A channel with room for one result. */
  class Channel {
    const index: nat
    const hash: int
    var buffer: seq<Result>
    var closed: bool

    constructor (index: nat, hash: int)
      ensures this.index == index && this.hash == hash && buffer == [] && !closed
    {
      this.index, this.hash, buffer, closed := index, hash, [], false;
    }

    /** Would panic on a closed channel and block on a full one. */
    method Send(r: Result)
      requires !closed && |buffer| < 1
      modifies this
      ensures buffer == [r] && !closed
    {
      buffer := buffer + [r];
    }

    /** Would panic on a closed channel. */
    method Close()
      requires !closed
      modifies this
      ensures closed && buffer == old(buffer)
    {
      closed := true;
    }
  }

  lemma Replaced<T>(m: map<nat, T>, k: nat, x: T)
    ensures (m - {k})[k := x] == m[k := x]
  {
  }

  /** What the apply loop did at an index. */
  datatype Execution = Execution(op: Op, hash: int, result: Result)

  datatype Outcome = Waiting | Refused | Answered(result: Result)

  class RSM {
    const draw: Draw
    var chMap: map<nat, Channel>
    var hashNumMap: map<nat, int>

    /** What is in every channel ever registered, and everything ever applied. */
    ghost var inbox: map<Channel, seq<Result>>
    ghost var executed: map<nat, Execution>

    constructor (draw: Draw)
      ensures this.draw == draw && Valid() && chMap == map[] && inbox == map[] && executed == map[]
    {
      this.draw := draw;
      chMap, hashNumMap := map[], map[];
      inbox, executed := map[], map[];
    }

    /** A result in a channel is that of the operation with the channel's number, applied at the channel's index. */
    ghost predicate Truthful(ch: Channel)
      requires ch in inbox
      reads this, ch
    {
      && ch.buffer == inbox[ch] && |ch.buffer| <= 1
      && (ch.buffer != [] ==> ch.index in executed && executed[ch.index].hash == ch.hash && executed[ch.index].result == ch.buffer[0])
    }

    /** A registered channel is open and empty, and the two maps speak of the same submitter. */
    ghost predicate Registered(i: nat)
      requires i in chMap
      reads this, chMap[i]
    {
      && chMap[i] in inbox && chMap[i].index == i
      && i in hashNumMap && hashNumMap[i] == chMap[i].hash
      && !chMap[i].closed && chMap[i].buffer == []
    }

    ghost predicate Valid()
      reads this, inbox.Keys, chMap.Values
    {
      && chMap.Keys == hashNumMap.Keys
      && (forall i :: i in chMap ==> Registered(i))
      && (forall ch :: ch in inbox ==> Truthful(ch))
      && (forall i :: i in executed ==> executed[i].op == draw(executed[i].hash))
    }

    /** The part of Submit after raft has given the operation an index; a channel already there is closed. */
    method Register(logId: nat, hash: int) returns (ch: Channel)
      requires Valid()
      modifies this, inbox.Keys
      ensures Valid() && fresh(ch) && ch.index == logId && ch.hash == hash && executed == old(executed)
      ensures inbox == old(inbox)[ch := []] && chMap == old(chMap)[logId := ch]
    {
      Supplant(logId);
      ch := new Channel(logId, hash);
      Enrol(ch);
      Replaced(old(chMap), logId, ch);
    }

    method Enrol(ch: Channel)
      requires Valid() && ch.index !in chMap && ch !in inbox && !ch.closed && ch.buffer == []
      modifies this
      ensures Valid() && inbox == old(inbox)[ch := []] && executed == old(executed)
      ensures chMap == old(chMap)[ch.index := ch]
    {
      hashNumMap := hashNumMap[ch.index := ch.hash];
      chMap := chMap[ch.index := ch];
      inbox := inbox[ch := []];
    }

    /** Close the channel of an earlier submitter that was given the same index, and forget it. */
    method Supplant(logId: nat)
      requires Valid()
      modifies this, (if logId in chMap then {chMap[logId]} else {})
      ensures Valid() && inbox == old(inbox) && executed == old(executed)
      ensures chMap == old(chMap) - {logId}
      ensures logId in old(chMap) ==> old(chMap)[logId].closed
    {
      if logId in chMap {
        var oldCh := chMap[logId];
        assert Registered(logId);
        Abandon(logId);
        oldCh.Close();
      }
    }

    /** Submit gives up: the term has changed or time is out.  The entries go, whoever they are now. */
    method Abandon(logId: nat)
      requires Valid()
      modifies this
      ensures Valid() && inbox == old(inbox) && executed == old(executed)
      ensures chMap == old(chMap) - {logId}
    {
      chMap := chMap - {logId};
      hashNumMap := hashNumMap - {logId};
    }

    /** One command of the apply stream, already executed by the service with the given result. */
    method Apply(index: nat, op: Op, hash: int, result: Result)
      requires Valid() && index !in executed && op == draw(hash)
      modifies this, inbox.Keys
      ensures Valid() && executed == old(executed)[index := Execution(op, hash, result)]
      ensures chMap == old(chMap) - {index}
      ensures inbox == if index in old(chMap) && old(chMap)[index].hash == hash then old(inbox)[old(chMap)[index] := [result]] else old(inbox)
      ensures index in old(chMap) ==> old(chMap)[index].closed == (old(chMap)[index].hash != hash)
    {
      var hasCh, same := index in chMap, index in hashNumMap && hashNumMap[index] == hash;
      if hasCh {
        var ch := chMap[index];
        assert Registered(index);
        Withdraw(index, op, hash, result);
        Conclude(ch, same, result);
      } else {
        Withdraw(index, op, hash, result);
      }
    }

    /** The apply loop's last word to a submitter: the result, or the end of the channel. */
    method Conclude(ch: Channel, same: bool, result: Result)
      requires Valid() && ch in inbox && !ch.closed && ch.buffer == [] && forall i :: i in chMap ==> chMap[i] != ch
      requires same ==> ch.index in executed && executed[ch.index].hash == ch.hash && executed[ch.index].result == result
      modifies this`inbox, ch
      ensures Valid() && inbox == (if same then old(inbox)[ch := [result]] else old(inbox)) && ch.closed == !same
    {
      if same {
        ch.Send(result);
        inbox := inbox[ch := [result]];
      } else {
        ch.Close();
      }
    }

    /** The entries of the index go from both maps; under the mutex it does not matter that the channel is served after. */
    method Withdraw(index: nat, ghost op: Op, ghost hash: int, ghost result: Result)
      requires Valid() && index !in executed && op == draw(hash)
      modifies this
      ensures Valid() && inbox == old(inbox) && executed == old(executed)[index := Execution(op, hash, result)]
      ensures chMap == old(chMap) - {index}
    {
      Abandon(index);
      executed := executed[index := Execution(op, hash, result)];
    }

    /** The receive in Submit: a result, a closed channel, or nothing yet. */
    method Receive(ch: Channel) returns (o: Outcome)
      requires Valid() && ch in inbox
      modifies this`inbox, ch
      ensures Valid() && inbox == old(inbox)[ch := []]
      ensures old(inbox)[ch] != [] <==> o.Answered?
      ensures o.Answered? ==> [o.result] == old(inbox)[ch]
      ensures o.Answered? ==> ch.index in executed && executed[ch.index] == Execution(draw(ch.hash), ch.hash, o.result)
      ensures o.Refused? ==> ch.closed
      ensures o.Waiting? ==> !ch.closed
    {
      assert Truthful(ch);
      if ch.buffer != [] {
        o := Answered(ch.buffer[0]);
        ch.buffer := ch.buffer[1..];
      } else if ch.closed {
        o := Refused;
      } else {
        o := Waiting;
      }
      inbox := inbox[ch := []];
    }
  }

  // ----- What is due to whom ---------------------------------------------------------------

  /** What submitters and the apply loop do, one critical section each; a submitter is known by the event that registered it. */
  datatype Event =
    | Registers(logId: nat, hash: int)
    | Abandons(logId: nat)
    | Applies(index: nat, hash: int, result: Result)
    | Receives(who: nat)

  /** The apply stream never steps back. */
  ghost predicate InOrder(events: seq<Event>) {
    forall i, j :: 0 <= i < j < |events| && events[i].Applies? && events[j].Applies? ==> events[i].index < events[j].index
  }

  /** The event takes the index from whoever is registered under it. */
  predicate Displaces(e: Event, index: nat) {
    (e.Registers? && e.logId == index) || (e.Abandons? && e.logId == index)
  }

  /** The submitter registered under an index after n events. */
  function Holder(events: seq<Event>, n: nat, index: nat): Option<nat>
    requires n <= |events|
  {
    if n == 0 then None
    else
      var e := events[n - 1];
      if e.Registers? && e.logId == index then Some(n - 1)
      else if Displaces(e, index) || (e.Applies? && e.index == index) then None
      else Holder(events, n - 1, index)
  }

  /** Event k applies the operation submitted at event r, and nobody has taken its index in between. */
  predicate Answers(events: seq<Event>, r: nat, k: nat) {
    && r < k < |events| && events[r].Registers? && events[k].Applies?
    && events[k].index == events[r].logId && events[k].hash == events[r].hash
    && forall j :: r < j < k ==> !Displaces(events[j], events[r].logId)
  }

  /** The result the apply loop has put into each submitter's channel after n events. */
  function Delivered(events: seq<Event>, n: nat): map<nat, Result>
    requires n <= |events|
  {
    if n == 0 then map[]
    else
      var e, before := events[n - 1], Delivered(events, n - 1);
      if e.Applies? && Holder(events, n - 1, e.index).Some?
      then
        var r := Holder(events, n - 1, e.index).value;
        if r < |events| && events[r].Registers? && events[r].hash == e.hash then before[r := e.result] else before
      else before
  }

  /** The results submitters have taken out after n events. */
  function Taken(events: seq<Event>, n: nat): map<nat, Result>
    requires n <= |events|
  {
    if n == 0 then map[]
    else
      var e, before := events[n - 1], Taken(events, n - 1);
      if e.Receives? && e.who in Delivered(events, n - 1) then before[e.who := Delivered(events, n - 1)[e.who]] else before
  }

  lemma {:induction false} HolderIs(events: seq<Event>, n: nat, index: nat)
    requires n <= |events|
    ensures var h := Holder(events, n, index);
            h.Some? ==> h.value < n && events[h.value].Registers? && events[h.value].logId == index
    decreases n
  {
    if n > 0 {
      HolderIs(events, n - 1, index);
    }
  }

  /** Whoever holds the index when it is applied registered last and has not been displaced since. */
  lemma {:induction false} HolderUndisturbed(events: seq<Event>, n: nat, k: nat, r: nat)
    requires InOrder(events) && r < n <= k < |events| && events[r].Registers?
    requires events[k].Applies? && events[k].index == events[r].logId
    ensures Holder(events, n, events[r].logId) == Some(r) <==> forall j :: r < j < n ==> !Displaces(events[j], events[r].logId)
    decreases n
  {
    if n > r + 1 {
      HolderUndisturbed(events, n - 1, k, r);
      HolderIs(events, n, events[r].logId);
    }
  }

  lemma AnswersIff(events: seq<Event>, k: nat, r: nat)
    requires InOrder(events) && k < |events|
    ensures Answers(events, r, k) <==>
            && events[k].Applies? && Holder(events, k, events[k].index) == Some(r)
            && r < |events| && events[r].Registers? && events[r].hash == events[k].hash
  {
    if events[k].Applies? {
      HolderIs(events, k, events[k].index);
      if r < k && events[r].Registers? && events[k].index == events[r].logId {
        HolderUndisturbed(events, k, k, r);
      }
    }
  }

  lemma {:induction false} DeliveredMeans(events: seq<Event>, n: nat, r: nat)
    requires InOrder(events) && n <= |events|
    ensures r in Delivered(events, n) <==> exists k :: 0 <= k < n && Answers(events, r, k)
    ensures forall k :: 0 <= k < n && Answers(events, r, k) ==> r in Delivered(events, n) && Delivered(events, n)[r] == events[k].result
    decreases n
  {
    if n > 0 {
      DeliveredMeans(events, n - 1, r);
      AnswersIff(events, n - 1, r);
      if Answers(events, r, n - 1) {
        assert r in Delivered(events, n);
      }
    }
  }

  /**
   A submitter whose operation is applied at its index gets the result into its channel if and only if
   no other submitter registers under that index, and nobody gives it up, before that.
   */
  lemma AnsweredExactly(events: seq<Event>, r: nat, k: nat)
    requires InOrder(events) && r < k < |events| && events[r].Registers?
    requires events[k].Applies? && events[k].index == events[r].logId && events[k].hash == events[r].hash
    ensures r in Delivered(events, k + 1) <==> forall j :: r < j < k ==> !Displaces(events[j], events[r].logId)
    ensures r in Delivered(events, |events|) <==> r in Delivered(events, k + 1)
    ensures r in Delivered(events, |events|) ==> Delivered(events, |events|)[r] == events[k].result
  {
    DeliveredMeans(events, k + 1, r);
    DeliveredMeans(events, |events|, r);
    if r in Delivered(events, |events|) {
      var m :| 0 <= m < |events| && Answers(events, r, m);
      assert m == k;
    }
    if forall j :: r < j < k ==> !Displaces(events[j], events[r].logId) {
      assert Answers(events, r, k);
    }
  }

  /** Nobody is answered before being applied, or with anything else than the result applied. */
  lemma {:induction false} TakenIsDelivered(events: seq<Event>, n: nat, r: nat)
    requires n <= |events|
    ensures r in Taken(events, n) ==> r in Delivered(events, n)
    ensures r in Taken(events, n) <==> exists m :: 0 <= m < n && events[m] == Receives(r) && r in Delivered(events, m)
    decreases n
  {
    if n > 0 {
      TakenIsDelivered(events, n - 1, r);
      if r in Taken(events, n - 1) {
        var m :| 0 <= m < n - 1 && events[m] == Receives(r) && r in Delivered(events, m);
      }
    }
  }

  // ----- Any interleaving ------------------------------------------------------------------

  /** What lies in the channel of a submitter after n events. */
  function Due(events: seq<Event>, n: nat, r: nat): seq<Result>
    requires n <= |events|
  {
    if r in Delivered(events, n) && r !in Taken(events, n) then [Delivered(events, n)[r]] else []
  }

  /** chan are the channels of the submitters so far, each with what should lie in it after n events. */
  ghost predicate Inboxes(events: seq<Event>, n: nat, chan: map<nat, Channel>, inbox: map<Channel, seq<Result>>) {
    && n <= |events|
    && (forall r: nat :: r in chan <==> r < n && events[r].Registers?)
    && (forall r :: r in chan ==> chan[r] in inbox && chan[r].index == events[r].logId && chan[r].hash == events[r].hash)
    && (forall r, q :: r in chan && q in chan && r != q ==> chan[r] != chan[q])
    && (forall r :: r in chan ==> inbox[chan[r]] == Due(events, n, r))
  }

  /** The map names the channels of those who hold an index after n events. */
  ghost predicate Places(events: seq<Event>, n: nat, chan: map<nat, Channel>, chMap: map<nat, Channel>) {
    && n <= |events|
    && (forall i: nat :: i in chMap <==> Holder(events, n, i).Some?)
    && (forall i: nat :: i in chMap ==> Holder(events, n, i).value in chan && chMap[i] == chan[Holder(events, n, i).value])
  }

  ghost predicate Matches(events: seq<Event>, n: nat, chan: map<nat, Channel>, chMap: map<nat, Channel>, inbox: map<Channel, seq<Result>>) {
    Inboxes(events, n, chan, inbox) && Places(events, n, chan, chMap)
  }

  lemma HolderNext(events: seq<Event>, n: nat, i: nat)
    requires n < |events|
    ensures var e := events[n];
            Holder(events, n + 1, i) ==
            if e.Registers? && e.logId == i then Some(n)
            else if Displaces(e, i) || (e.Applies? && e.index == i) then None
            else Holder(events, n, i)
  {
  }

  /** Only being answered, or taking the answer, changes what is due. */
  lemma DueUntouched(events: seq<Event>, n: nat, r: nat)
    requires n < |events| && !events[n].Applies? && events[n] != Receives(r)
    ensures Due(events, n + 1, r) == Due(events, n, r)
  {
  }

  /** One index changes hands, the others stay where they are. */
  lemma PlacesMove(events: seq<Event>, n: nat, m: nat, chan: map<nat, Channel>, chMap: map<nat, Channel>, index: nat, chMap': map<nat, Channel>)
    requires Places(events, n, chan, chMap) && m <= |events|
    requires forall i: nat :: i != index ==> Holder(events, m, i) == Holder(events, n, i)
    requires forall i: nat :: i != index ==> (i in chMap' <==> i in chMap) && (i in chMap ==> chMap'[i] == chMap[i])
    requires Holder(events, m, index).None? && index !in chMap'
    ensures Places(events, m, chan, chMap')
  {
    hide Holder;
  }

  lemma MatchesRegister(events: seq<Event>, n: nat, chan: map<nat, Channel>, chMap: map<nat, Channel>, inbox: map<Channel, seq<Result>>, ch: Channel)
    requires Matches(events, n, chan, chMap, inbox) && n < |events| && events[n].Registers? && ch !in inbox
    requires InOrder(events) && ch.index == events[n].logId && ch.hash == events[n].hash
    ensures Matches(events, n + 1, chan[n := ch], chMap[ch.index := ch], inbox[ch := []])
  {
    hide Places, Inboxes;
    InboxesRegister(events, n, chan, inbox, ch);
    PlacesRegister(events, n, chan, chMap, ch, inbox);
  }

  lemma InboxesRegister(events: seq<Event>, n: nat, chan: map<nat, Channel>, inbox: map<Channel, seq<Result>>, ch: Channel)
    requires Inboxes(events, n, chan, inbox) && n < |events| && events[n].Registers? && ch !in inbox
    requires InOrder(events) && ch.index == events[n].logId && ch.hash == events[n].hash
    ensures Inboxes(events, n + 1, chan[n := ch], inbox[ch := []])
  {
    hide Due, InOrder;
    var m := n + 1;
    NewcomerHasNothing(events, n);
    forall r: nat
      ensures Due(events, m, r) == Due(events, n, r)
    {
      DueUntouched(events, n, r);
    }
  }

  lemma NewcomerHasNothing(events: seq<Event>, n: nat)
    requires InOrder(events) && n < |events|
    ensures Due(events, n + 1, n) == []
  {
    NotYetDelivered(events, n);
  }

  lemma PlacesRegister(events: seq<Event>, n: nat, chan: map<nat, Channel>, chMap: map<nat, Channel>, ch: Channel, inbox: map<Channel, seq<Result>>)
    requires Inboxes(events, n, chan, inbox) && Places(events, n, chan, chMap)
    requires n < |events| && events[n].Registers? && ch.index == events[n].logId
    ensures Places(events, n + 1, chan[n := ch], chMap[ch.index := ch])
  {
    hide Holder, Due;
    var m := n + 1;
    forall i: nat
      ensures Holder(events, m, i) == if i == ch.index then Some(n) else Holder(events, n, i)
    {
      HolderNext(events, n, i);
    }
  }

  /** Nothing is delivered to a submitter that is still to register. */
  lemma {:induction false} NotYetDelivered(events: seq<Event>, n: nat)
    requires InOrder(events) && n < |events|
    ensures n !in Delivered(events, n) && n !in Delivered(events, n + 1)
  {
    DeliveredMeans(events, n, n);
    DeliveredMeans(events, n + 1, n);
  }

  lemma MatchesAbandon(events: seq<Event>, n: nat, chan: map<nat, Channel>, chMap: map<nat, Channel>, inbox: map<Channel, seq<Result>>)
    requires Matches(events, n, chan, chMap, inbox) && n < |events| && events[n].Abandons?
    ensures Matches(events, n + 1, chan, chMap - {events[n].logId}, inbox)
  {
    hide Holder, Due, Places;
    var m := n + 1;
    forall i: nat
      ensures Holder(events, m, i) == if i == events[n].logId then None else Holder(events, n, i)
    {
      HolderNext(events, n, i);
    }
    forall r: nat
      ensures Due(events, m, r) == Due(events, n, r)
    {
      DueUntouched(events, n, r);
    }
    PlacesMove(events, n, m, chan, chMap, events[n].logId, chMap - {events[n].logId});
  }

  lemma MatchesApply(events: seq<Event>, n: nat, chan: map<nat, Channel>, chMap: map<nat, Channel>, inbox: map<Channel, seq<Result>>)
    requires Matches(events, n, chan, chMap, inbox) && n < |events| && events[n].Applies? && InOrder(events)
    ensures var e := events[n];
            Matches(events, n + 1, chan, chMap - {e.index},
                    if e.index in chMap && chMap[e.index].hash == e.hash then inbox[chMap[e.index] := [e.result]] else inbox)
  {
    hide Holder, Due, InOrder;
    var e, m := events[n], n + 1;
    forall i: nat
      ensures Holder(events, m, i) == if i == e.index then None else Holder(events, n, i)
    {
      HolderNext(events, n, i);
    }
    forall q: nat | q in chan
      ensures Due(events, m, q) ==
              if Holder(events, n, e.index) == Some(q) && events[q].hash == e.hash then [e.result] else Due(events, n, q)
    {
      DueAfterApply(events, n, q);
    }
    PlacesMove(events, n, m, chan, chMap, e.index, chMap - {e.index});
  }

  lemma DueAfterApply(events: seq<Event>, n: nat, q: nat)
    requires InOrder(events) && n < |events| && events[n].Applies? && q < n && events[q].Registers?
    ensures Due(events, n + 1, q) ==
            if Holder(events, n, events[n].index) == Some(q) && events[q].hash == events[n].hash then [events[n].result] else Due(events, n, q)
  {
    if Holder(events, n, events[n].index) == Some(q) {
      OnceAnswered(events, n, q);
    }
  }

  /** A submitter about to be answered has taken nothing yet. */
  lemma OnceAnswered(events: seq<Event>, n: nat, r: nat)
    requires InOrder(events) && n < |events| && events[n].Applies? && Holder(events, n, events[n].index) == Some(r)
    ensures r !in Delivered(events, n) && r !in Taken(events, n)
  {
    HolderIs(events, n, events[n].index);
    DeliveredMeans(events, n, r);
    TakenIsDelivered(events, n, r);
    forall k | 0 <= k < n
      ensures !Answers(events, r, k)
    {
    }
  }

  lemma MatchesReceive(events: seq<Event>, n: nat, chan: map<nat, Channel>, chMap: map<nat, Channel>, inbox: map<Channel, seq<Result>>)
    requires Matches(events, n, chan, chMap, inbox) && n < |events| && events[n].Receives?
    ensures var who := events[n].who;
            Matches(events, n + 1, chan, chMap, if who in chan then inbox[chan[who] := []] else inbox)
  {
    hide Holder, Due;
    var m := n + 1;
    forall i: nat
      ensures Holder(events, m, i) == Holder(events, n, i)
    {
      HolderNext(events, n, i);
    }
    forall r: nat
      ensures Due(events, m, r) == if r == events[n].who then [] else Due(events, n, r)
    {
      DueAfterReceive(events, n, r);
    }
  }

  lemma DueAfterReceive(events: seq<Event>, n: nat, r: nat)
    requires n < |events| && events[n].Receives?
    ensures Due(events, n + 1, r) == if r == events[n].who then [] else Due(events, n, r)
  {
  }

  /**
   Submitters and the apply loop take turns in any order.  That this runs at all says that no channel
   is closed twice, sent to after being closed, or sent to when full.  Who has been answered, and with
   what, is exactly what is due: see AnsweredExactly and TakenIsDelivered.
   */
  method Interleave(draw: Draw, events: seq<Event>) returns (answers: map<nat, Result>)
    requires InOrder(events)
    ensures answers == Taken(events, |events|)
  {
    hide Matches, InOrder, Taken, Delivered, Holder, AppliedBefore;
    var rsm := new RSM(draw);
    var chan: map<nat, Channel> := map[];
    answers := map[];
    NothingMatches(events);
    for n := 0 to |events|
      invariant rsm.Valid() && fresh(rsm) && fresh(rsm.inbox.Keys)
      invariant Matches(events, n, chan, rsm.chMap, rsm.inbox)
      invariant AppliedBefore(events, n, rsm.executed)
      invariant answers == Taken(events, n)
    {
      if events[n].Receives? {
        AppliedMore(events, n, rsm.executed, Execution([], 0, []));
        answers := Look(rsm, events, n, chan, answers);
      } else {
        TakenSame(events, n);
        chan := Turn(rsm, events, n, chan);
      }
    }
  }

  /** One registration, abandonment or application. */
  method Turn(rsm: RSM, events: seq<Event>, n: nat, chan: map<nat, Channel>) returns (chan': map<nat, Channel>)
    requires rsm.Valid() && Matches(events, n, chan, rsm.chMap, rsm.inbox) && InOrder(events) && AppliedBefore(events, n, rsm.executed)
    requires n < |events| && !events[n].Receives?
    modifies rsm, rsm.inbox.Keys
    ensures rsm.Valid() && fresh(rsm.inbox.Keys - old(rsm.inbox.Keys)) && Matches(events, n + 1, chan', rsm.chMap, rsm.inbox)
    ensures AppliedBefore(events, n + 1, rsm.executed)
  {
    hide Matches, InOrder, Taken, Delivered, Holder, AppliedBefore;
    chan' := chan;
    match events[n]
    case Registers(logId, hash) =>
      ghost var chMap, inbox := rsm.chMap, rsm.inbox;
      var ch := rsm.Register(logId, hash);
      MatchesRegister(events, n, chan, chMap, inbox, ch);
      AppliedMore(events, n, rsm.executed, Execution([], 0, []));
      chan' := chan[n := ch];
    case Abandons(logId) =>
      MatchesAbandon(events, n, chan, rsm.chMap, rsm.inbox);
      AppliedMore(events, n, rsm.executed, Execution([], 0, []));
      rsm.Abandon(logId);
    case Applies(index, hash, result) =>
      MatchesApply(events, n, chan, rsm.chMap, rsm.inbox);
      NotAppliedYet(events, n, rsm.executed);
      AppliedMore(events, n, rsm.executed, Execution(rsm.draw(hash), hash, result));
      rsm.Apply(index, rsm.draw(hash), hash, result);
  }

  /** A submitter looks into its channel. */
  method Look(rsm: RSM, events: seq<Event>, n: nat, chan: map<nat, Channel>, answers: map<nat, Result>) returns (answers': map<nat, Result>)
    requires rsm.Valid() && Matches(events, n, chan, rsm.chMap, rsm.inbox) && InOrder(events)
    requires n < |events| && events[n].Receives? && answers == Taken(events, n)
    modifies rsm`inbox, rsm.inbox.Keys
    ensures rsm.Valid() && rsm.inbox.Keys == old(rsm.inbox.Keys) && Matches(events, n + 1, chan, rsm.chMap, rsm.inbox)
    ensures answers' == Taken(events, n + 1)
  {
    hide Matches, InOrder, Taken, Delivered, Holder;
    var who := events[n].who;
    MatchesReceive(events, n, chan, rsm.chMap, rsm.inbox);
    MatchesDue(events, n, chan, rsm.chMap, rsm.inbox, who);
    answers' := answers;
    if who in chan {
      var o := rsm.Receive(chan[who]);
      if o.Answered? {
        answers' := answers[who := o.result];
      }
    }
  }

  lemma TakenSame(events: seq<Event>, n: nat)
    requires n < |events| && !events[n].Receives?
    ensures Taken(events, n + 1) == Taken(events, n)
  {
  }

  lemma NothingMatches(events: seq<Event>)
    ensures Matches(events, 0, map[], map[], map[]) && Taken(events, 0) == map[] && AppliedBefore(events, 0, map[])
  {
  }

  /** A submitter that looks finds what is due to it, and only registered ones have anything due. */
  lemma MatchesDue(events: seq<Event>, n: nat, chan: map<nat, Channel>, chMap: map<nat, Channel>, inbox: map<Channel, seq<Result>>, who: nat)
    requires Matches(events, n, chan, chMap, inbox) && n < |events| && events[n] == Receives(who) && InOrder(events)
    ensures who in chan ==> chan[who] in inbox && inbox[chan[who]] == Due(events, n, who)
    ensures who !in chan ==> Due(events, n, who) == []
    ensures Taken(events, n + 1) == if Due(events, n, who) != [] then Taken(events, n)[who := Due(events, n, who)[0]] else Taken(events, n)
  {
    DeliveredMeans(events, n, who);
    TakenIsDelivered(events, n, who);
    TakenValue(events, n, who);
  }

  /** What was taken stays what was delivered. */
  lemma {:induction false} TakenValue(events: seq<Event>, n: nat, r: nat)
    requires InOrder(events) && n <= |events|
    ensures r in Taken(events, n) ==> r in Delivered(events, n) && Taken(events, n)[r] == Delivered(events, n)[r]
    decreases n
  {
    if n > 0 {
      TakenValue(events, n - 1, r);
      if r in Delivered(events, n - 1) {
        DeliveredStays(events, n - 1, r);
      }
    }
  }

  lemma DeliveredStays(events: seq<Event>, n: nat, r: nat)
    requires InOrder(events) && n < |events| && r in Delivered(events, n)
    ensures r in Delivered(events, n + 1) && Delivered(events, n + 1)[r] == Delivered(events, n)[r]
  {
    DeliveredMeans(events, n, r);
    DeliveredMeans(events, n + 1, r);
    var k :| 0 <= k < n && Answers(events, r, k);
  }

  /** Only indices the apply stream has passed have been executed. */
  ghost predicate AppliedBefore(events: seq<Event>, n: nat, executed: map<nat, Execution>) {
    n <= |events| && forall i :: i in executed ==> exists k :: 0 <= k < n && events[k].Applies? && events[k].index == i
  }

  lemma AppliedMore(events: seq<Event>, n: nat, executed: map<nat, Execution>, x: Execution)
    requires AppliedBefore(events, n, executed) && n < |events|
    ensures AppliedBefore(events, n + 1, executed)
    ensures events[n].Applies? ==> AppliedBefore(events, n + 1, executed[events[n].index := x])
  {
  }

  lemma NotAppliedYet(events: seq<Event>, n: nat, executed: map<nat, Execution>)
    requires InOrder(events) && AppliedBefore(events, n, executed) && n < |events| && events[n].Applies?
    ensures events[n].index !in executed
  {
  }

  /** A submitter that gives up drops whoever has since registered under the same index, who is then never answered. */
  lemma GivingUpDropsTheNewcomer(logId: nat, first: int, second: int, result: Result)
    ensures var events := [Registers(logId, first), Registers(logId, second), Abandons(logId), Applies(logId, second, result), Receives(1)];
            InOrder(events) && 1 !in Delivered(events, 5) && 1 !in Taken(events, 5)
  {
    var events := [Registers(logId, first), Registers(logId, second), Abandons(logId), Applies(logId, second, result), Receives(1)];
    DeliveredMeans(events, 5, 1);
    TakenIsDelivered(events, 5, 1);
    assert Displaces(events[2], logId);
  }
}
