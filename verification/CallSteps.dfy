/** Call control, connecting and ending keep the world's invariant. */
module CallSteps {
  import opened Types
  import opened Events
  import opened Calls
  import opened CallsInvariant
  import opened Sections
  import opened World
  import opened WorldInvariant
  import opened Frames
  import opened OutgoingSteps
  import Outgoing

  // ----- Call control -----

  /** Connected calls changed hold or mute state and only they were reported. */
  ghost predicate OnlyControl(c: Core, c': Core) {
    && c' == c.(calls := c'.calls, log := c'.log)
    && SameCalls(c.calls, c'.calls)
    && c'.log.ended == c.log.ended
    && forall k: nat {:trigger Last(c'.log.queue, k)} ::
         !InCalls(c.calls, c.ids, k) ==> Last(c'.log.queue, k) == Last(c.log.queue, k)
  }

  lemma ControlForgotten(w: World, c': Core)
    requires WorldInv(w) && OnlyControl(w.core, c')
    ensures NoneForgotten(c'.log, c'.calls, c'.ids, w.debts, w.attempts)
  {
    var c := w.core;
    SameInCalls(c.calls, c'.calls, c.ids);
    forall k: nat {:trigger Last(c'.log.queue, k)} | Last(c'.log.queue, k).Some? && k !in c'.log.ended
      ensures Kept(c'.calls, c'.ids, w.debts, w.attempts, k)
    {
      if !InCalls(c.calls, c.ids, k) { assert Last(c.log.queue, k).Some?; }
    }
  }

  lemma ControlAccepts(w: World, c': Core)
    requires AcceptsOk(w.accepts, w.core.pending, w.core.calls, w.core.ids, w.core.left, w.core.log)
    requires OnlyControl(w.core, c')
    ensures AcceptsOk(w.accepts, c'.pending, c'.calls, c'.ids, c'.left, c'.log)
  {
    var c := w.core;
    forall t | t in w.accepts && Bound(w.accepts[t])
      ensures w.accepts[t].source in c'.log.ended || Last(c'.log.queue, w.accepts[t].source).None?
    {
      assert !InCalls(c.calls, c.ids, w.accepts[t].source);
    }
  }

  lemma ControlKeeps(w: World, c': Core)
    requires WorldInv(w) && Inv(c') && OnlyControl(w.core, c')
    ensures WorldInv(w.(core := c'))
  {
    hide Outgoing.AttemptOk, Inv;
    var c := w.core;
    SameInCalls(c.calls, c'.calls, c.ids);
    PlacesControl(w.attempts, c.ringing, c.calls, c.ids, c'.calls);
    DebtsCalls(w.debts, w.attempts, c.calls, c'.calls, c.ids);
    ControlForgotten(w, c');
    ControlAccepts(w, c');
    RequestsFrame(w.hangUps, w.rejects, c.pending, w.accepts, c.calls, w.debts, c.ids, c'.calls, w.debts, c.ids);
    SizeSameKeys(c.calls, c'.calls);
  }

  lemma UpdateIsControl(c: Core, id: string, call: Active)
    requires Inv(c) && id in c.calls && call.source == c.calls[id].source
    requires call.token == c.calls[id].token && call.route == c.calls[id].route
    requires call.info.direction == c.calls[id].info.direction && Up(call.info)
    requires SameBut(c.log, Emit(c.log, call.source, call.info), call.source)
    ensures OnlyControl(c, Say(c.(calls := c.calls[id := call]), call.source, call.info))
    ensures OnlyControl(c, c.(calls := c.calls[id := call]))
  {
    Owned(c);
    hide Inv, Emit;
    assert InCalls(c.calls, c.ids, call.source);
  }

  lemma EmitOthers(log: EventLog, source: nat, info: CallInfo)
    ensures SameBut(log, Emit(log, source, info), source)
  {
    if source !in log.ended {
      forall k: nat | k != source ensures Last(Emit(log, source, info).queue, k) == Last(log.queue, k) {
        QueueOne(log.queue, Queued(source, Reported(info)), k);
      }
    }
  }

  lemma OnlyControlTransitive(c: Core, d: Core, e: Core)
    requires OnlyControl(c, d) && OnlyControl(d, e)
    ensures OnlyControl(c, e)
  {
    SameInCalls(c.calls, d.calls, c.ids);
    forall k: nat {:trigger Last(e.log.queue, k)} | !InCalls(c.calls, c.ids, k)
      ensures Last(e.log.queue, k) == Last(c.log.queue, k)
    {
      assert !InCalls(d.calls, d.ids, k);
      assert Last(d.log.queue, k) == Last(c.log.queue, k);
    }
  }

  lemma HoldOthersIsControl(c: Core, keep: string)
    requires Inv(c)
    ensures OnlyControl(c, HoldOthers(c, keep))
  {
    hide Inv;
    HoldOthersKeeps(c, keep);
  }

  lemma SwitchHoldIsControl(c: Core, id: string, onHold: bool)
    requires Inv(c) && id in c.calls
    ensures OnlyControl(c, SwitchHold(c, id, onHold))
    ensures var call := Held(c.calls[id], onHold);
            OnlyControl(c, Say(c.(calls := c.calls[id := call]), call.source, call.info))
  {
    hide Inv;
    var call := Held(c.calls[id], onHold);
    EmitOthers(c.log, call.source, call.info);
    UpdateIsControl(c, id, call);
  }

  lemma MutesKeeps(w: World, id: string, muted: bool)
    requires WorldInv(w) && id in w.core.calls
    ensures WorldInv(w.(core := SetMute(w.core, id, muted).0))
  {
    hide Outgoing.AttemptOk;
    var c := w.core;
    var call := c.calls[id].(info := c.calls[id].info.(muted := muted));
    SetMuteKeeps(c, id, muted);
    EmitOthers(c.log, call.source, call.info);
    UpdateIsControl(c, id, call);
    ControlKeeps(w, SetMute(c, id, muted).0);
  }

  lemma HoldsKeeps(w: World, id: string, onHold: bool)
    requires WorldInv(w) && id in w.core.calls
    ensures WorldInv(w.(core := SetHold(w.core, id, onHold).0))
  {
    hide Outgoing.AttemptOk, Inv;
    var c := w.core;
    SetHoldKeeps(c, id, onHold);
    if onHold {
      SwitchHoldIsControl(c, id, onHold);
    } else {
      HoldOthersKeeps(c, id);
      HoldOthersIsControl(c, id);
      SwitchHoldIsControl(HoldOthers(c, id), id, onHold);
      OnlyControlTransitive(c, HoldOthers(c, id), SetHold(c, id, onHold).0);
    }
    ControlKeeps(w, SetHold(c, id, onHold).0);
  }

  lemma SwapsKeeps(w: World, active: string, held: string)
    requires WorldInv(w) && active != held && active in w.core.calls && held in w.core.calls
    ensures WorldInv(w.(core := SwapCalls(w.core, active, held).0))
  {
    hide Outgoing.AttemptOk, Inv;
    var c := w.core;
    SwapCallsKeeps(c, active, held);
    SwitchHoldKeeps(c, active, true);
    var c1 := SwitchHold(c, active, true);
    SwitchHoldIsControl(c, active, true);
    HoldOthersKeeps(c1, held);
    HoldOthersIsControl(c1, held);
    var c2 := HoldOthers(c1, held);
    SwitchHoldIsControl(c2, held, false);
    OnlyControlTransitive(c, c1, c2);
    OnlyControlTransitive(c, c2, SwitchHold(c2, held, false));
    ControlKeeps(w, SwapCalls(c, active, held).0);
  }

  // ----- A dialed call connects -----

  /** Connecting is: hold the others, then move the call. */
  function Moved(c: Core, id: string, call: Active): Core {
    Say(c.(ringing := c.ringing - {id}, calls := c.calls[id := call]), call.source, call.info)
  }

  lemma ConnectIsMove(c: Core, id: string, source: nat, answer: Answer)
    requires Inv(c) && id in c.ringing
    ensures ConnectDialed(c, id, source, answer).0 ==
            Moved(HoldOthers(c, id), id,
                  Active(source, InfoOf(id, Connected), c.ringing[id].seqNo, answer.token, answer.route, false))
  {
    var c0 := c.(ringing := c.ringing - {id});
    if OffHold(c.calls) <= {id} {
      HoldOthersIsNothing(c, id);
      HoldOthersIsNothing(c0, id);
    } else {
      var i :| i in OffHold(c.calls) && i != id;
      HoldOthersIsUpdate(c, id, i);
      HoldOthersIsUpdate(c0, id, i);
    }
  }

  lemma ConnectsKeeps(w: World, k: nat)
    requires WorldInv(w) && CanDial(w, Connects(k))
    ensures WorldInv(DoDial(w, Connects(k)))
  {
    var c, a := w.core, w.attempts[k];
    var id := c.ids[k];
    var a' := Outgoing.Do(a, Outgoing.Connects);
    Outgoing.ActKeeps(a, Outgoing.Connects);
    RunningRings(w, k);
    if a.place.InRinging? {
      assert a.request == Outgoing.Done(Some(a.dial.answer));
      ConnectRinging(w, k, a', a.dial.answer);
    } else {
      SameLog(c.log, k);
      AttemptKeeps(w, k, a', c);
    }
  }

  lemma ConnectRinging(w: World, k: nat, a': Outgoing.Attempt, answer: Answer)
    requires WorldInv(w) && k in w.attempts && Rings(w.core.ringing, w.core.ids, k)
    requires Outgoing.AttemptOk(a') && a'.place.InCalls? && a'.dial.Returned?
    requires a'.request == Outgoing.Done(Some(answer))
    ensures WorldInv(w.(attempts := w.attempts[k := a'], core := ConnectDialed(w.core, w.core.ids[k], k, answer).0))
  {
    hide Outgoing.AttemptOk, Inv;
    var c := w.core;
    var id := c.ids[k];
    var c1 := HoldOthers(c, id);
    OutgoingRetired(w, k);
    ConnectDialedKeeps(c, id, k, answer);
    HoldOthersKeeps(c, id);
    HoldOthersIsControl(c, id);
    ControlKeeps(w, c1);
    ConnectIsMove(c, id, k, answer);
    MoveKeeps(w.(core := c1), k, a',
              Active(k, InfoOf(id, Connected), c.ringing[id].seqNo, answer.token, answer.route, false));
  }

  lemma MoveKeeps(w: World, k: nat, a': Outgoing.Attempt, call: Active)
    requires WorldInv(w) && k in w.attempts && Rings(w.core.ringing, w.core.ids, k)
    requires Outgoing.AttemptOk(a') && a'.place.InCalls? && a'.dial.Returned?
    requires call.source == k && call.info.direction.Outbound?
    requires a'.request == Outgoing.Done(Some(Answer(call.token, call.route)))
    requires Inv(Moved(w.core, w.core.ids[k], call))
    ensures WorldInv(w.(attempts := w.attempts[k := a'], core := Moved(w.core, w.core.ids[k], call)))
  {
    hide Outgoing.AttemptOk, Inv;
    var c := w.core;
    var id := c.ids[k];
    Owned(c);
    AttemptsUpdate(w.attempts, c.ids, k, a');
    PlacesConnect(w.attempts, c.ringing, c.calls, c.ids, k, a', call);
    OneDialUpdate(w.attempts, c.ids, k, a');
    MoveDebts(w, k, a', call);
    MoveIncoming(w, k, call);
    SizeWithout(c.ringing, id);
    SizeWith(c.calls, id, call);
  }

  lemma MoveInCalls(c: Core, k: nat, call: Active)
    requires k < |c.ids| && c.ids[k] !in c.calls && call.source == k
    ensures forall j: nat :: InCalls(c.calls[c.ids[k] := call], c.ids, j) <==> j == k || InCalls(c.calls, c.ids, j)
  {
    forall j: nat ensures InCalls(c.calls[c.ids[k] := call], c.ids, j) <==> j == k || InCalls(c.calls, c.ids, j) {
      if j < |c.ids| && c.ids[j] == c.ids[k] { assert !InCalls(c.calls, c.ids, j); }
    }
  }

  lemma MoveDebts(w: World, k: nat, a': Outgoing.Attempt, call: Active)
    requires WorldInv(w) && k in w.attempts && Rings(w.core.ringing, w.core.ids, k)
    requires a'.place.InCalls? && call.source == k
    ensures var c' := Moved(w.core, w.core.ids[k], call);
            && DebtsOk(w.debts, w.attempts[k := a'], c'.calls, c'.ids)
            && NoneForgotten(c'.log, c'.calls, c'.ids, w.debts, w.attempts[k := a'])
  {
    hide Outgoing.AttemptOk, Inv;
    var c, c' := w.core, Moved(w.core, w.core.ids[k], call);
    Owned(c);
    MoveInCalls(c, k, call);
    EmitOthers(c.log, k, call.info);
    DebtsUpdate(w.debts, w.attempts, c.calls, c.ids, k, a');
    DebtsCalls(w.debts, w.attempts[k := a'], c.calls, c'.calls, c.ids);
    KeptUpdate(w.debts, w.attempts, c.calls, c'.calls, c.ids, k, a');
    ForgottenFrame(c.log, c.calls, c.ids, w.debts, w.attempts, c'.log, c'.calls, c.ids, w.debts, w.attempts[k := a'],
                   k);
  }

  lemma KeptUpdate(debts: map<nat, Debt>, attempts: Attempts, calls: map<string, Active>, calls': map<string, Active>,
                   ids: seq<string>, k: nat, a': Outgoing.Attempt)
    requires forall j: nat :: j != k && InCalls(calls, ids, j) ==> InCalls(calls', ids, j)
    ensures forall j: nat :: j != k && Kept(calls, ids, debts, attempts, j) ==>
            Kept(calls', ids, debts, attempts[k := a'], j)
  {
  }

  lemma MoveIncoming(w: World, k: nat, call: Active)
    requires WorldInv(w) && k in w.attempts && Rings(w.core.ringing, w.core.ids, k) && call.source == k
    ensures var c' := Moved(w.core, w.core.ids[k], call);
            && AcceptsOk(w.accepts, c'.pending, c'.calls, c'.ids, c'.left, c'.log)
            && RequestsOk(w.hangUps, w.rejects, c'.pending, w.accepts, c'.calls, w.debts, c'.ids)
  {
    hide Outgoing.AttemptOk, Inv;
    var c, c' := w.core, Moved(w.core, w.core.ids[k], call);
    Owned(c);
    MoveInCalls(c, k, call);
    EmitOthers(c.log, k, call.info);
    AcceptsFrame(w.accepts, c.pending, c.calls, c.ids, c.left, c.log, c'.calls, c.left, c'.log, k);
    RequestsFrame(w.hangUps, w.rejects, c.pending, w.accepts, c.calls, w.debts, c.ids, c'.calls, w.debts, c.ids);
  }

  // ----- A ringing call is hung up -----

  lemma IsTakenKeeps(w: World, id: string)
    requires WorldInv(w) && id in w.core.ringing
    ensures var k := w.core.ringing[id].source;
            && CanAct(w, k, Outgoing.IsTaken)
            && WorldInv(Act(w, k, Outgoing.IsTaken).(core := w.core.(ringing := w.core.ringing - {id})))
  {
    var c, k := w.core, w.core.ringing[id].source;
    Owned(c);
    assert Rings(c.ringing, c.ids, k);
    Outgoing.ActKeeps(w.attempts[k], Outgoing.IsTaken);
    TakenLeaves(w, k, Outgoing.Do(w.attempts[k], Outgoing.IsTaken));
  }

  lemma TakenLeaves(w: World, k: nat, a': Outgoing.Attempt)
    requires WorldInv(w) && k in w.attempts && Rings(w.core.ringing, w.core.ids, k)
    requires Outgoing.AttemptOk(a') && a'.place.Gone? && a'.canceller.Took?
    requires w.attempts[k].dial.Returned? ==> a'.dial.Returned?
    ensures WorldInv(w.(attempts := w.attempts[k := a'], core := w.core.(ringing := w.core.ringing - {w.core.ids[k]})))
  {
    hide WorldInv, Outgoing.AttemptOk;
    LeavesRinging(w, k, a', w.debts);
  }

  /** The `Ended` of an id that was hung up before its call was made. */
  lemma NotYetMadeKeeps(w: World, id: string)
    requires WorldInv(w) && OutgoingId(id) && UsedFlag(w.core.used, id).None?
    ensures var debt := Debt(AsEnded(InfoOf(id, Ended), Cancelled), NoHangUp);
            WorldInv(w.(core := Mark(w.core, id, true), debts := w.debts[|w.core.ids| := debt]))
  {
    hide Outgoing.AttemptOk, Inv;
    var c := w.core;
    OutgoingIds(id);
    MarkKeeps(c, id, true);
    GrowKeeps(w, id, Mark(c, id, true));
    NewIsNowhere(w, id);
    OweNew(w.(core := Mark(c, id, true)), |c.ids|, Debt(AsEnded(InfoOf(id, Ended), Cancelled), NoHangUp));
  }

  lemma NewIsNowhere(w: World, id: string)
    requires WorldInv(w)
    ensures |w.core.ids| !in w.attempts && |w.core.ids| !in w.hangUps
    ensures !InCalls(w.core.calls, w.core.ids + [id], |w.core.ids|)
  {
    GrowInCalls(w, id);
  }

  lemma OweNew(w: World, k: nat, debt: Debt)
    requires WorldInv(w) && k < |w.core.ids| && k !in w.attempts && !InCalls(w.core.calls, w.core.ids, k)
    requires k !in w.hangUps && DirectionOf(w.core.ids[k]).Outbound? && Proper(w.core.ids, k, debt.info)
    requires debt.info.state.Ended? && debt.info.endReason.Some? && debt.plan.NoHangUp?
    ensures WorldInv(w.(debts := w.debts[k := debt]))
  {
    hide Outgoing.AttemptOk, Inv;
    var c := w.core;
    DebtsOwe(w.debts, w.attempts, w.attempts, c.calls, c.calls, c.ids, k, debt);
    SameLog(c.log, k);
    ForgottenFrame(c.log, c.calls, c.ids, w.debts, w.attempts, c.log, c.calls, c.ids, w.debts[k := debt], w.attempts,
                   k);
    OutgoingRetired(w, k);
    RequestsOwe(w, k, c.calls, w.debts[k := debt]);
  }

  // ----- A connected call is taken out -----

  /** What becomes of the attempt of a call that is taken out, if it has one. */
  function Removed(w: World, id: string): Attempts
    requires id in w.core.calls
  {
    var k := w.core.calls[id].source;
    if CanAct(w, k, Outgoing.IsRemoved) then Act(w, k, Outgoing.IsRemoved).attempts else w.attempts
  }

  lemma RemovedIs(w: World, id: string)
    requires WorldInv(w) && id in w.core.calls
    ensures var k := w.core.calls[id].source;
            if k in w.attempts
            then Outgoing.Can(w.attempts[k], Outgoing.IsRemoved)
                 && Removed(w, id) == w.attempts[k := Outgoing.Do(w.attempts[k], Outgoing.IsRemoved)]
                 && Outgoing.AttemptOk(Removed(w, id)[k]) && Removed(w, id)[k].place.Leaving?
            else Removed(w, id) == w.attempts && DirectionOf(id).Inbound?
  {
    hide Outgoing.AttemptOk, Inv, OneDial, DebtsOk, NoneForgotten, AcceptsOk, RequestsOk, SlotsOk, RejectingOk;
    var k := w.core.calls[id].source;
    Owned(w.core);
    assert InCalls(w.core.calls, w.core.ids, k);
    if k in w.attempts { Outgoing.ActKeeps(w.attempts[k], Outgoing.IsRemoved); }
  }

  lemma RemovedAttempts(w: World, id: string)
    requires WorldInv(w) && id in w.core.calls
    ensures AttemptsOk(Removed(w, id), w.core.ids)
    ensures OneDial(Removed(w, id), w.core.ids)
    ensures PlacesOk(Removed(w, id), w.core.ringing, w.core.calls - {id}, w.core.ids)
  {
    hide Outgoing.AttemptOk, Inv, Outgoing.Do, Removed;
    var c := w.core;
    Owned(c);
    RemovedIs(w, id);
    if c.calls[id].source in w.attempts {
      RemovedOutgoing(w, id);
    } else {
      PlacesRemoveIncoming(w.attempts, c.ringing, c.calls, c.ids, id);
    }
  }

  lemma RemovedOutgoing(w: World, id: string)
    requires WorldInv(w) && id in w.core.calls && w.core.calls[id].source in w.attempts
    ensures AttemptsOk(Removed(w, id), w.core.ids)
    ensures OneDial(Removed(w, id), w.core.ids)
    ensures PlacesOk(Removed(w, id), w.core.ringing, w.core.calls - {id}, w.core.ids)
  {
    hide Inv, Removed, Outgoing.AttemptOk, AttemptsOk, PlacesOk, OneDial, DebtsOk, NoneForgotten, AcceptsOk, RequestsOk;
    var c, k := w.core, w.core.calls[id].source;
    Owned(c);
    RemovedIs(w, id);
    var a' := Outgoing.Do(w.attempts[k], Outgoing.IsRemoved);
    AttemptsUpdate(w.attempts, c.ids, k, a');
    OneDialUpdate(w.attempts, c.ids, k, a');
    PlacesRemove(w.attempts, c.ringing, c.calls, c.ids, id, k, a');
  }

  lemma RemoveInCalls(c: Core, id: string)
    requires OwnIds(c.calls, c.ringing, c.ids) && id in c.calls
    ensures forall j: nat :: InCalls(c.calls - {id}, c.ids, j) <==>
              j != c.calls[id].source && InCalls(c.calls, c.ids, j)
  {
  }

  lemma RemovedDebts(w: World, id: string, debt: Debt)
    requires WorldInv(w) && id in w.core.calls
    requires Proper(w.core.ids, w.core.calls[id].source, debt.info)
    requires debt.info.state.Ended? && debt.info.endReason.Some?
    ensures var c, k := w.core, w.core.calls[id].source;
            && DebtsOk(w.debts[k := debt], Removed(w, id), c.calls - {id}, c.ids)
            && NoneForgotten(c.log, c.calls - {id}, c.ids, w.debts[k := debt], Removed(w, id))
  {
    hide Inv, Removed, Outgoing.AttemptOk, AttemptsOk, PlacesOk, OneDial, DebtsOk, NoneForgotten, AcceptsOk, RequestsOk;
    hide Outgoing.Do, Outgoing.Can, OwnIds, SlotsOk, RejectingOk;
    var c, k := w.core, w.core.calls[id].source;
    var attempts' := Removed(w, id);
    Owned(c);
    RemovedIs(w, id);
    RemoveInCalls(c, id);
    SameLog(c.log, k);
    assert InCalls(c.calls, c.ids, k);
    DebtsOwe(w.debts, w.attempts, attempts', c.calls, c.calls - {id}, c.ids, k, debt);
    KeptRemove(w.debts, w.attempts, attempts', c.calls, c.calls - {id}, c.ids, k, debt);
    ForgottenFrame(c.log, c.calls, c.ids, w.debts, w.attempts, c.log, c.calls - {id}, c.ids, w.debts[k := debt],
                   attempts', k);
  }

  lemma KeptRemove(debts: map<nat, Debt>, attempts: Attempts, attempts': Attempts, calls: map<string, Active>,
                   calls': map<string, Active>, ids: seq<string>, k: nat, debt: Debt)
    requires forall j: nat :: j != k && InCalls(calls, ids, j) ==> InCalls(calls', ids, j)
    requires forall j :: j in attempts && j != k ==> j in attempts' && attempts'[j] == attempts[j]
    ensures forall j: nat :: j != k && Kept(calls, ids, debts, attempts, j) ==>
            Kept(calls', ids, debts[k := debt], attempts', j)
  {
  }

  lemma ConnectedRetired(w: World, id: string)
    requires WorldInv(w) && id in w.core.calls
    ensures Retired(w.core.pending, w.accepts, w.core.calls[id].source) && w.core.calls[id].source !in w.hangUps
  {
    hide Inv, Outgoing.AttemptOk, AttemptsOk, PlacesOk, OneDial, DebtsOk, NoneForgotten, AcceptsOk, RequestsOk;
    var c, k := w.core, w.core.calls[id].source;
    Owned(c);
    assert InCalls(c.calls, c.ids, k);
    OfferedElsewhere(c);
    ConnectedHasNoAccept(w, id);
  }

  lemma OfferedElsewhere(c: Core)
    requires Inv(c)
    ensures forall t :: t in c.pending ==> !InCalls(c.calls, c.ids, c.pending[t].source)
  {
    hide InCalls, LogOk, CallsOk, RingingOk, OrderOk, AtMostOneOffHold, Agrees, Told, HistoryOk, OneFront, UsedOk;
  }

  lemma ConnectedHasNoAccept(w: World, id: string)
    requires WorldInv(w) && id in w.core.calls && InCalls(w.core.calls, w.core.ids, w.core.calls[id].source)
    requires w.core.ids[w.core.calls[id].source] == id
    ensures var k := w.core.calls[id].source;
            k !in w.hangUps && forall t :: t in w.accepts ==> w.accepts[t] != Sending(k) && w.accepts[t] != Cleared(k)
  {
    hide Outgoing.AttemptOk, Inv, AttemptsOk, PlacesOk, OneDial, DebtsOk, NoneForgotten;
    var k := w.core.calls[id].source;
    assert forall t :: t in w.accepts && Bound(w.accepts[t]) ==> w.core.ids[w.accepts[t].source] == IncomingId(t);
  }

  lemma RemovedIncoming(w: World, id: string, debt: Debt)
    requires WorldInv(w) && id in w.core.calls
    ensures var c, c', k := w.core, RemoveCall(w.core, id), w.core.calls[id].source;
            && AcceptsOk(w.accepts, c.pending, c'.calls, c.ids, c'.left, c.log)
            && RequestsOk(w.hangUps, w.rejects, c.pending, w.accepts, c'.calls, w.debts[k := debt], c.ids)
  {
    hide Outgoing.AttemptOk, Inv;
    var c, c', k := w.core, RemoveCall(w.core, id), w.core.calls[id].source;
    Owned(c);
    RemoveInCalls(c, id);
    ConnectedRetired(w, id);
    RequestsOwe(w, k, c'.calls, w.debts[k := debt]);
    SameLog(c.log, k);
    AcceptsFrame(w.accepts, c.pending, c.calls, c.ids, c.left, c.log, c'.calls, c'.left, c.log, k);
  }

  lemma OweKeeps(w: World, id: string, reason: EndReason, plan: HangUpPlan)
    requires WorldInv(w) && id in w.core.calls
    ensures WorldInv(Owe(w, RemoveCall(w.core, id), w.core.calls[id], reason, plan))
  {
    hide Outgoing.AttemptOk, Inv;
    var c := w.core;
    var debt := Debt(AsEnded(c.calls[id].info, reason), plan);
    Owned(c);
    RemoveCallKeeps(c, id);
    RemovedAttempts(w, id);
    RemovedDebts(w, id, debt);
    RemovedIncoming(w, id, debt);
    SizeWithout(c.calls, id);
  }

  // ----- An owed `Ended` is queued -----

  lemma PayLog(w: World, k: nat)
    requires WorldInv(w) && k in w.debts
    ensures Inv(Say(w.core, k, w.debts[k].info))
    ensures SameBut(w.core.log, Say(w.core, k, w.debts[k].info).log, k)
    ensures k in Say(w.core, k, w.debts[k].info).log.ended
  {
    var c := w.core;
    Owned(c);
    forall i | i in c.ringing ensures c.ringing[i].source != k {
      if c.ringing[i].source == k { assert Rings(c.ringing, c.ids, k); }
    }
    EndKeeps(c, k, w.debts[k].info);
  }

  predicate HangsUpToo(debt: Debt, hasToken: bool) {
    debt.plan.Always? || (debt.plan.IfToken? && hasToken)
  }

  /** The `Ended` of a call that has an attempt. */
  lemma PaysOutgoingKeeps(w: World, k: nat, hangUp: bool)
    requires WorldInv(w) && k in w.debts && k in w.attempts
    ensures CanAct(w, k, Outgoing.IsClosed(hangUp))
    ensures WorldInv(Act(w, k, Outgoing.IsClosed(hangUp)).(core := Say(w.core, k, w.debts[k].info),
                                                           debts := w.debts - {k}))
  {
    hide Inv;
    PayLog(w, k);
    Outgoing.ActKeeps(w.attempts[k], Outgoing.IsClosed(hangUp));
    PayKeeps(w, k, Say(w.core, k, w.debts[k].info),
             w.attempts[k := Outgoing.Do(w.attempts[k], Outgoing.IsClosed(hangUp))], w.hangUps);
  }

  /** The `Ended` of an incoming call, or of an id hung up before its call was made. */
  lemma PaysIncomingKeeps(w: World, k: nat, hasToken: bool)
    requires WorldInv(w) && k in w.debts && k !in w.attempts
    ensures WorldInv(w.(core := Say(w.core, k, w.debts[k].info), debts := w.debts - {k},
                        hangUps := if HangsUpToo(w.debts[k], hasToken) then w.hangUps + multiset{k} else w.hangUps))
  {
    hide Inv;
    PayLog(w, k);
    PayKeeps(w, k, Say(w.core, k, w.debts[k].info), w.attempts,
             if HangsUpToo(w.debts[k], hasToken) then w.hangUps + multiset{k} else w.hangUps);
  }

  lemma PayKeeps(w: World, k: nat, c': Core, attempts': Attempts, hangUps': multiset<nat>)
    requires WorldInv(w) && k in w.debts
    requires Inv(c') && c' == w.core.(log := c'.log) && SameBut(w.core.log, c'.log, k) && k in c'.log.ended
    requires if k in w.attempts
             then k in attempts' && attempts' == w.attempts[k := attempts'[k]] && Outgoing.AttemptOk(attempts'[k])
                  && attempts'[k] == w.attempts[k].(place := Outgoing.Gone, hangUps := attempts'[k].hangUps)
                      && hangUps' == w.hangUps
             else attempts' == w.attempts && (hangUps' == w.hangUps
                                              || (hangUps' == w.hangUps + multiset{k} && !w.debts[k].plan.NoHangUp?))
    ensures WorldInv(w.(core := c', debts := w.debts - {k}, attempts := attempts', hangUps := hangUps'))
  {
    hide Outgoing.AttemptOk, Inv, AttemptsOk, OneDial, NoneForgotten, AcceptsOk, RequestsOk, SlotsOk, RejectingOk;
    var c := w.core;
    if k in w.attempts {
      AttemptsUpdate(w.attempts, c.ids, k, attempts'[k]);
      PlacesUpdate(w.attempts, c.ringing, c.calls, c.ids, k, attempts'[k]);
      OneDialUpdate(w.attempts, c.ids, k, attempts'[k]);
    }
    DebtsPay(w.debts, w.attempts, attempts', c.calls, c.ids, k);
    ForgottenFrame(c.log, c.calls, c.ids, w.debts, w.attempts, c'.log, c.calls, c.ids, w.debts - {k}, attempts', k);
    PayIncoming(w, k, c', hangUps');
  }

  lemma PayIncoming(w: World, k: nat, c': Core, hangUps': multiset<nat>)
    requires WorldInv(w) && k in w.debts
    requires c' == w.core.(log := c'.log) && SameBut(w.core.log, c'.log, k) && k in c'.log.ended
    requires hangUps' == w.hangUps || (hangUps' == w.hangUps + multiset{k} && k !in w.attempts
                                       && !w.debts[k].plan.NoHangUp?)
    ensures AcceptsOk(w.accepts, c'.pending, c'.calls, c'.ids, c'.left, c'.log)
    ensures RequestsOk(hangUps', w.rejects, c'.pending, w.accepts, c'.calls, w.debts - {k}, c'.ids)
  {
    hide Outgoing.AttemptOk, Inv;
    var c := w.core;
    AcceptsFrame(w.accepts, c.pending, c.calls, c.ids, c.left, c.log, c.calls, c.left, c'.log, k);
  }
}
