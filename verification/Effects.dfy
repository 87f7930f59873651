/** What the call controls come to: which call is off hold afterwards, and what was reported on the way. */
module Effects {
  import opened Types
  import opened Events
  import opened Calls
  import opened CallsInvariant
  import opened Sections

  /** The same calls, each as it was but for its hold state. */
  predicate SameButHold(calls: map<string, Active>, calls': map<string, Active>) {
    && calls'.Keys == calls.Keys
    && forall id :: id in calls ==> calls'[id] == Held(calls[id], calls'[id].info.onHold)
  }

  lemma AllSteady(c: Core)
    requires Inv(c)
    ensures forall id :: id in c.calls ==> Steady(c.calls[id])
    ensures Agrees(c.calls, c.log) && AtMostOneOffHold(c.calls)
  {
  }

  lemma SameSwitch(calls: map<string, Active>, id: string, onHold: bool)
    requires id in calls && forall i :: i in calls ==> Steady(calls[i])
    ensures SameButHold(calls, calls[id := Held(calls[id], onHold)])
  {
  }

  lemma SameHeld(calls: map<string, Active>, keep: string)
    requires forall i :: i in calls ==> Steady(calls[i])
    ensures SameButHold(calls, HeldExcept(calls, keep))
  {
  }

  lemma HoldsOnly(c: Core, keep: string)
    requires Inv(c)
    ensures var c' := HoldOthers(c, keep);
            Inv(c') && OffHold(c'.calls) == OffHold(c.calls) * {keep} && SameButHold(c.calls, c'.calls)
  {
    hide Inv, HoldOthers, SameButHold, Steady, HeldExcept, OffHold;
    HoldOthersKeeps(c, keep);
    AllSteady(c);
    SameHeld(c.calls, keep);
  }

  lemma SwitchesOnly(c: Core, id: string, onHold: bool)
    requires Inv(c) && id in c.calls && (onHold || OffHold(c.calls) <= {id})
    ensures var c' := SwitchHold(c, id, onHold);
            && Inv(c') && SameButHold(c.calls, c'.calls)
            && OffHold(c'.calls) == (if onHold then OffHold(c.calls) - {id} else {id})
  {
    hide Inv, SameButHold, Steady, Emit, Held;
    SwitchHoldKeeps(c, id, onHold);
    AllSteady(c);
    SameSwitch(c.calls, id, onHold);
  }

  lemma SameTwice(a: map<string, Active>, b: map<string, Active>, c: map<string, Active>)
    requires SameButHold(a, b) && SameButHold(b, c)
    ensures SameButHold(a, c)
  {
  }

  /** After a swap, the one call is off hold and every other is on hold; nothing else about any call has
      changed. */
  lemma SwapEffect(c: Core, active: string, held: string)
    requires Inv(c) && active != held && active in c.calls && held in c.calls
    ensures var (c', ok) := SwapCalls(c, active, held);
            ok && Inv(c') && OffHold(c'.calls) == {held} && SameButHold(c.calls, c'.calls)
  {
    SwitchesOnly(c, active, true);
    var c1 := SwitchHold(c, active, true);
    HoldsOnly(c1, held);
    var c2 := HoldOthers(c1, held);
    hide Inv, HoldOthers, SwitchHold, SameButHold, OffHold;
    assert held in c2.calls by { SameKeys(c.calls, c1.calls, held); SameKeys(c1.calls, c2.calls, held); }
    SwitchesOnly(c2, held, false);
    SameTwice(c.calls, c1.calls, c2.calls);
    SameTwice(c.calls, c2.calls, SwitchHold(c2, held, false).calls);
  }

  lemma SameKeys(calls: map<string, Active>, calls': map<string, Active>, id: string)
    requires SameButHold(calls, calls') && id in calls
    ensures id in calls'
  {
    assert id in calls'.Keys;
  }

  /** What `apply_hold` queues. */
  function Switched(call: Active, onHold: bool): seq<Queued> {
    if call.info.onHold == onHold then [] else [Queued(call.source, Held(call, onHold).info)]
  }

  lemma SwitchQueues(c: Core, id: string, onHold: bool)
    requires id in c.calls && c.calls[id].source !in c.log.ended && c.calls[id].info.endReason.None?
    ensures var log' := SwitchHold(c, id, onHold).log;
            log'.queue == c.log.queue + Switched(c.calls[id], onHold) && log'.ended == c.log.ended
  {
  }

  /** A swap of the two live calls reports the one that goes on hold first, and then the one that comes off
      it; each only if its hold state changed. */
  lemma SwapReports(c: Core, active: string, held: string)
    requires Inv(c) && active != held && c.calls.Keys == {active, held}
    requires c.calls[active].source !in c.log.ended && c.calls[held].source !in c.log.ended
    ensures SwapCalls(c, active, held).0.log.queue ==
              c.log.queue + Switched(c.calls[active], true) + Switched(c.calls[held], false)
  {
    hide Inv, HoldOthers, SwitchHold, Switched, Steady, Emit;
    AllSteady(c);
    assert Steady(c.calls[active]) && Steady(c.calls[held]);
    NoReason(c.calls[active]);
    NoReason(c.calls[held]);
    SwitchesOnly(c, active, true);
    SwitchQueues(c, active, true);
    var c1 := SwitchHold(c, active, true);
    SwitchIsUpdate(c, active, true);
    AllSteady(c1);
    assert OffHold(c1.calls) <= {held} by { assert forall i :: i in OffHold(c1.calls) ==> i in c1.calls.Keys; }
    HoldOthersIsNothing(c1, held);
    SwitchQueues(c1, held, false);
  }

  lemma NoReason(call: Active)
    requires Steady(call)
    ensures call.info.endReason.None?
  {
  }

  lemma SwitchIsUpdate(c: Core, id: string, onHold: bool)
    requires id in c.calls
    ensures SwitchHold(c, id, onHold).calls == c.calls[id := Held(c.calls[id], onHold)]
  {
  }

  /** `set_hold`, as the update it makes after the others were held. */
  lemma SetHoldIs(c: Core, id: string, onHold: bool)
    requires id in c.calls
    ensures var c1 := if onHold then c else HoldOthers(c, id);
            && id in c1.calls && SetHold(c, id, onHold).1
            && SetHold(c, id, onHold).0.calls == c1.calls[id := Held(c1.calls[id], onHold)]
            && SetHold(c, id, onHold).0.log == Emit(c1.log, c1.calls[id].source, Held(c1.calls[id], onHold).info)
            && c1.calls[id].source == c.calls[id].source && c1.log.ended >= c.log.ended
            && (c.calls[id].source !in c.log.ended ==> c.calls[id].source !in c1.log.ended)
  {
  }

  /** A call that is resumed is the one off hold; a call that is held leaves the others alone; and either
      is reported as what the call is then. */
  lemma SetHoldEffect(c: Core, id: string, onHold: bool)
    requires Inv(c) && id in c.calls
    ensures var (c', ok) := SetHold(c, id, onHold);
            && ok && Inv(c') && SameButHold(c.calls, c'.calls) && id in c'.calls
            && OffHold(c'.calls) == (if onHold then OffHold(c.calls) - {id} else {id})
            && (c.calls[id].source !in c.log.ended ==>
                  Last(c'.log.queue, c.calls[id].source) == Some(c'.calls[id].info))
  {
    hide Inv, HoldOthers, SetHold, SameButHold, Steady, Emit, Held, Agrees, AtMostOneOffHold, OffHold;
    SetHoldKeeps(c, id, onHold);
    SetHoldIs(c, id, onHold);
    HoldsOnly(c, id);
    SameAsBefore(c);
    var c1 := if onHold then c else HoldOthers(c, id);
    AllSteady(c1);
    SetOne(c.calls, c1.calls, id, onHold);
    NoReason(c1.calls[id]);
    NowLast(SetHold(c, id, onHold).0, id, c1.log, onHold, c1.calls[id]);
  }

  lemma SameAsBefore(c: Core)
    requires Inv(c)
    ensures SameButHold(c.calls, c.calls)
  {
    AllSteady(c);
    hide Inv;
  }

  lemma SetOne(calls: map<string, Active>, calls1: map<string, Active>, id: string, onHold: bool)
    requires SameButHold(calls, calls1) && id in calls && AtMostOneOffHold(calls1)
    requires onHold || OffHold(calls1) <= {id}
    ensures id in calls1
    ensures var calls' := calls1[id := Held(calls1[id], onHold)];
            SameButHold(calls, calls') && OffHold(calls') == (if onHold then OffHold(calls1) - {id} else {id})
  {
    assert id in calls1.Keys;
    OffHoldAfter(calls1, id, onHold);
  }

  /** The report that a hold queues says what the call is now. */
  lemma NowLast(c': Core, id: string, log1: EventLog, onHold: bool, call: Active)
    requires id in c'.calls && c'.calls[id] == Held(call, onHold) && call.info.endReason.None?
    requires c'.log == Emit(log1, call.source, Held(call, onHold).info)
    ensures call.source !in log1.ended ==> Last(c'.log.queue, call.source) == Some(c'.calls[id].info)
  {
    if call.source !in log1.ended {
      QueueOne(log1.queue, Queued(call.source, Reported(Held(call, onHold).info)), call.source);
    }
  }

  /** A call that is muted or unmuted is reported so, and nothing else changes. */
  lemma MuteEffect(c: Core, id: string, muted: bool)
    requires Inv(c)
    ensures var (c', ok) := SetMute(c, id, muted);
            && (ok <==> id in c.calls) && (!ok ==> c' == c)
            && (ok ==>
                  && c' == c.(calls := c'.calls, log := c'.log) && c'.calls.Keys == c.calls.Keys
                  && (forall i :: i in c.calls && i != id ==> c'.calls[i] == c.calls[i])
                  && c'.calls[id].info.muted == muted
                  && c'.calls[id].info.(muted := c.calls[id].info.muted) == c.calls[id].info
                  && c'.calls[id].(info := c.calls[id].info) == c.calls[id]
                  && (c.calls[id].source !in c.log.ended ==>
                        Last(c'.log.queue, c.calls[id].source) == Some(c'.calls[id].info)))
  {
    if id in c.calls {
      AllSteady(c);
      var call := c.calls[id];
      NoReason(call);
      hide Inv;
      QueueOne(c.log.queue, Queued(call.source, Reported(call.info.(muted := muted))), call.source);
    }
  }

  /** A swap or a hold that is refused changes nothing, and is refused only for calls that are not up, or one
      call given twice. */
  lemma ControlRefused(c: Core, active: string, held: string, onHold: bool)
    ensures SwapCalls(c, active, held).1 <==> active != held && active in c.calls && held in c.calls
    ensures !SwapCalls(c, active, held).1 ==> SwapCalls(c, active, held).0 == c
    ensures SetHold(c, active, onHold).1 <==> active in c.calls
    ensures !SetHold(c, active, onHold).1 ==> SetHold(c, active, onHold).0 == c
  {
    hide HoldOthers, Emit, Held;
  }

  // ----- Creation order -----

  /** The place of a live call in the order of creation. */
  function PlaceOf(c: Core, id: string): Option<nat> {
    if id in c.calls then Some(c.calls[id].seqNo)
    else if id in c.ringing then Some(c.ringing[id].seqNo)
    else None
  }

  lemma HoldPlaces(c: Core, keep: string, id: string)
    ensures PlaceOf(HoldOthers(c, keep), id) == PlaceOf(c, id)
    ensures HoldOthers(c, keep).calls.Keys == c.calls.Keys && HoldOthers(c, keep).ringing == c.ringing
    ensures HoldOthers(c, keep).nextSeq == c.nextSeq
  {
    assert HoldOthers(c, keep).calls == HeldExcept(c.calls, keep);
    hide OffHold;
  }

  /** A ringing call that connects keeps its place, and so does every other call. */
  lemma ConnectingKeepsPlaces(c: Core, id: string, k: nat, answer: Answer, other: string)
    requires c.calls.Keys !! c.ringing.Keys
    ensures PlaceOf(ConnectDialed(c, id, k, answer).0, other) == PlaceOf(c, other)
  {
    if id in c.ringing {
      assert id in c.ringing.Keys && id !in c.calls.Keys;
      var c1 := c.(ringing := c.ringing - {id});
      HoldPlaces(c1, id, other);
      assert other in HoldOthers(c1, id).calls.Keys <==> other in c.calls.Keys;
      hide HoldOthers, Emit, InfoOf;
    }
  }

  /** A call that is made comes after all others, whose places stay. */
  lemma NewCallIsNewest(c: Core, id: string, hasToken: bool, other: string)
    requires Inv(c) && ReserveOutgoing(c, id, hasToken).1.Ok? && other != id
    ensures var c' := ReserveOutgoing(c, id, hasToken).0;
            && PlaceOf(c', other) == PlaceOf(c, other) && PlaceOf(c', id).Some?
            && (PlaceOf(c, other).Some? ==> PlaceOf(c, other).value < PlaceOf(c', id).value)
  {
    PlacesBelow(c, other);
    hide Inv, Emit, OutgoingId, UsedFlag, MarkUsed, LiveCount;
  }

  lemma PlacesBelow(c: Core, id: string)
    requires Inv(c)
    ensures PlaceOf(c, id).Some? ==> PlaceOf(c, id).value < c.nextSeq
  {
    hide LogOk, OfferedOk, OrderOk, AtMostOneOffHold, Agrees, Told, HistoryOk, OneFront, UsedOk;
  }

  /** So does an incoming call when it is answered. */
  lemma AnsweredCallIsNewest(c: Core, t: string, k: nat, route: Route, other: string)
    requires Inv(c) && k !in c.log.ended && other != IncomingId(t)
    ensures var c' := ConnectAccepted(c, t, k, route).0;
            && PlaceOf(c', other) == PlaceOf(c, other) && PlaceOf(c', IncomingId(t)).Some?
            && (PlaceOf(c, other).Some? ==> PlaceOf(c, other).value < PlaceOf(c', IncomingId(t)).value)
  {
    PlacesBelow(c, other);
    hide Inv, IncomingId;
    HoldPlaces(ReleaseAccept(c, t), IncomingId(t), other);
    assert PlaceOf(ReleaseAccept(c, t), other) == PlaceOf(c, other);
    hide HoldOthers, Emit, InfoOf;
  }
}
