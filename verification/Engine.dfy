/** The engine as an object: its locked fields, and one method per atomic section. Each method is
    proved to do exactly what the function of the same name in `Calls` says, so everything proved of
    runs of those functions holds of the methods. */
module Engines {
  import opened Types
  import opened Events
  import opened Calls
  import opened CallsInvariant
  import opened Sections
  import opened Queries

  // ----- Facts about the list of used ids -----

  predicate FirstAt(used: seq<(string, bool)>, id: string, i: nat) {
    && i <= |used|
    && (forall j :: 0 <= j < i ==> used[j].0 != id)
    && (i < |used| ==> used[i].0 == id)
  }

  lemma {:induction false} FlagAt(used: seq<(string, bool)>, id: string, i: nat)
    requires FirstAt(used, id, i)
    ensures UsedFlag(used, id) == if i < |used| then Some(used[i].1) else None
    ensures ClearFlag(used, id) == if i < |used| then used[i := (id, false)] else used
  {
    if used != [] && i > 0 {
      assert forall j :: 0 <= j < |used[1..]| ==> used[1..][j] == used[j + 1];
      FlagAt(used[1..], id, i - 1);
      assert used == [used[0]] + used[1..];
      if i < |used| { assert [used[0]] + used[1..][i - 1 := (id, false)] == used[i := (id, false)]; }
    } else if used != [] {
      assert [(id, false)] + used[1..] == used[0 := (id, false)];
    }
  }

  /** What every reachable call map is like. */
  ghost predicate OneIsOffHold(calls: map<string, Active>) {
    && (forall id :: id in calls ==> Steady(calls[id]))
    && AtMostOneOffHold(calls)
  }

  /** `hold_others` has walked over every entry but those still `todo`. */
  ghost predicate Walked(c: Core, keep: string, calls: map<string, Active>, log: EventLog, todo: set<string>) {
    && calls.Keys == c.calls.Keys
    && (forall id :: id in c.calls ==>
          calls[id] == if id in todo || id == keep then c.calls[id] else Held(c.calls[id], true))
    && log == if OffHold(c.calls) - {keep} <= todo then c.log else HoldOthers(c, keep).log
  }

  lemma WalkStarts(c: Core, keep: string)
    ensures Walked(c, keep, c.calls, c.log, c.calls.Keys)
  {
  }

  /** The log's part of one step of the walk. */
  lemma WalkLog(c: Core, keep: string, todo: set<string>, id: string)
    requires OneIsOffHold(c.calls) && id in todo && id in c.calls
    ensures var off := OffHold(c.calls) - {keep};
            && (id != keep && !c.calls[id].info.onHold ==>
                  && off <= todo && !(off <= todo - {id})
                  && HoldOthers(c, keep).log == Emit(c.log, c.calls[id].source, Held(c.calls[id], true).info))
            && (id == keep || c.calls[id].info.onHold ==> (off <= todo <==> off <= todo - {id}))
  {
    var off := OffHold(c.calls) - {keep};
    if id in off {
      HoldOthersIsUpdate(c, keep, id);
      assert off == {id};
    } else {
      assert id == keep || c.calls[id].info.onHold;
    }
  }

  lemma WalkOne(c: Core, keep: string, calls: map<string, Active>, log: EventLog, todo: set<string>, id: string)
    requires Walked(c, keep, calls, log, todo) && id in todo && id in c.calls && OneIsOffHold(c.calls)
    ensures id in calls
    ensures id == keep ==> Walked(c, keep, calls, log, todo - {id})
    ensures id != keep ==>
              Walked(c, keep, calls[id := Held(calls[id], true)],
                     if calls[id].info.onHold then log else Emit(log, calls[id].source, Held(calls[id], true).info),
                         todo - {id})
  {
    WalkLog(c, keep, todo, id);
    hide OneIsOffHold, HoldOthers, OffHold, Emit;
    assert calls[id] == c.calls[id];
  }

  lemma WalkDone(c: Core, keep: string, calls: map<string, Active>, log: EventLog)
    requires Walked(c, keep, calls, log, {}) && OneIsOffHold(c.calls)
    ensures HoldOthers(c, keep) == c.(calls := calls, log := log)
  {
    assert calls == HeldExcept(c.calls, keep);
    if OffHold(c.calls) <= {keep} {
      HoldOthersIsNothing(c, keep);
      assert OffHold(c.calls) - {keep} == {};
    }
  }

  /** A known route and its call's place in the creation order. */
  datatype Dated = Dated(seqNo: nat, route: Route)

  lemma RingingIsKnown(c: Core, id: string)
    requires id in c.ringing && c.ringing[id].source in c.cells
    ensures KnownRoute(c, c.ringing[id].seqNo, c.cells[c.ringing[id].source])
  {
  }

  lemma OldestFound(c: Core, best: Option<Dated>)
    requires best.Some? ==> KnownRoute(c, best.value.seqNo, best.value.route)
    requires forall id :: id in c.calls ==> best.Some? && best.value.seqNo <= c.calls[id].seqNo
    requires forall id :: id in c.ringing && c.ringing[id].source in c.cells ==>
               best.Some? && best.value.seqNo <= c.ringing[id].seqNo
    ensures OldestRoute(c, if best.None? then None else Some(best.value.route))
  {
    forall m: nat, q: Route | KnownRoute(c, m, q) ensures best.Some? && best.value.seqNo <= m {}
  }

  lemma HoldKeepsKey(c: Core, keep: string, id: string)
    requires id in c.calls
    ensures id in HoldOthers(c, keep).calls
  {
  }

  lemma SwitchKeepsKey(c: Core, active: string, id: string)
    requires active in c.calls && id in c.calls
    ensures id in Calls.SwitchHold(c, active, true).calls
  {
  }

  lemma SwapMiddle(c: Core, active: string, held: string)
    requires Inv(c) && active in c.calls && held in c.calls
    ensures OneIsOffHold(Calls.SwitchHold(c, active, true).calls)
    ensures held in HoldOthers(Calls.SwitchHold(c, active, true), held).calls
  {
    SwitchHoldKeeps(c, active, true);
    SwitchKeepsKey(c, active, held);
    hide HoldOthers, Calls.SwitchHold;
    var c1 := Calls.SwitchHold(c, active, true);
    HoldKeepsKey(c1, held, held);
    InvHolds(c1);
    hide Inv;
  }

  lemma InvHolds(c: Core)
    requires Inv(c)
    ensures OneIsOffHold(c.calls)
  {
  }

  lemma HoldKeepsEnded(c: Core, token: string, keep: string, source: nat)
    requires Inv(c)
    ensures source in HoldOthers(Calls.ReleaseAccept(c, token), keep).log.ended <==> source in c.log.ended
  {
    HoldOthersKeeps(Calls.ReleaseAccept(c, token), keep);
  }

  class Engine {
    var calls: map<string, Active>
    var ringing: map<string, Pending>
    var used: seq<(string, bool)>
    var pending: map<string, Offered>
    var accepting: set<string>
    var nextSeq: nat
    var log: EventLog
    var cells: map<nat, Route>
    var nextSource: nat  // the number the next `CallEvents` gets
    ghost var ids: seq<string>
    ghost var marks: seq<nat>
    ghost var left: map<nat, nat>

    ghost function State(): Core
      reads this
    {
      Core(calls, ringing, used, pending, accepting, nextSeq, log, cells, ids, marks, left)
    }

    ghost predicate Valid()
      reads this
    {
      Inv(State()) && nextSource == |ids|
    }

    constructor ()
      ensures Valid() && State() == INITIAL
    {
      calls, ringing, used, pending, accepting := map[], map[], [], map[], {};
      nextSeq, log, cells, nextSource := 0, EventLog({}, []), map[], 0;
      ids, marks, left := [], [], map[];
      new;
      InitialInv();
    }

    /** `CallEvents::emit` */
    method EmitEvent(source: nat, info: CallInfo) returns (queued: bool)
      modifies `log
      ensures log == Emit(old(log), source, info)
      ensures queued == (source !in old(log).ended)
    {
      if source in log.ended { return false; }
      var event := info;
      if info.state.Ended? {
        log := log.(ended := log.ended + {source});
      } else {
        event := event.(endReason := None);
      }
      log := log.(queue := log.queue + [Queued(source, event)]);
      return true;
    }

    // ----- Holding -----

    /** `apply_hold` */
    method ApplyHold(id: string, onHold: bool) returns (changed: bool)
      requires id in calls
      modifies `calls
      ensures calls == old(calls)[id := Held(old(calls)[id], onHold)]
      ensures changed == (old(calls)[id].info.onHold != onHold)
    {
      var call := calls[id];
      changed := call.info.onHold != onHold;
      calls := calls[id := call.(mediaHeld := onHold,
                                 info := call.info.(onHold := onHold, state := if onHold then OnHold else Connected))];
    }

    method HoldOne(id: string)
      requires id in calls
      modifies `calls, `log
      ensures calls == old(calls)[id := Held(old(calls)[id], true)]
      ensures log == if old(calls)[id].info.onHold then old(log)
                     else Emit(old(log), old(calls)[id].source, Held(old(calls)[id], true).info)
    {
      var changed := ApplyHold(id, true);
      if changed { var _ := EmitEvent(calls[id].source, calls[id].info); }
    }

    /** `hold_others`, walking the map in any order */
    method HoldAllOthers(keep: string)
      requires OneIsOffHold(calls)
      modifies `calls, `log
      ensures State() == HoldOthers(old(State()), keep)
    {
      ghost var c := State();
      hide Walked, OneIsOffHold, HoldOthers, Emit;
      var todo := calls.Keys;
      WalkStarts(c, keep);
      while todo != {}
        invariant todo <= c.calls.Keys && Walked(c, keep, calls, log, todo)
        decreases |todo|
      {
        var id :| id in todo;
        WalkOne(c, keep, calls, log, todo, id);
        todo := todo - {id};
        if id != keep { HoldOne(id); }
      }
      WalkDone(c, keep, calls, log);
    }

    lemma ReachableHolds()
      requires Valid()
      ensures OneIsOffHold(calls)
    {
    }

    // ----- Outgoing calls -----

    /** `OutgoingCalls::used`: where `id` is in the list of used ids, or its length. */
    method FindUsed(id: string) returns (i: nat)
      ensures FirstAt(used, id, i)
    {
      i := 0;
      while i < |used| && used[i].0 != id
        invariant i <= |used| && forall j :: 0 <= j < i ==> used[j].0 != id
      {
        i := i + 1;
      }
    }

    /** `OutgoingCalls::mark_used`, for a new `CallEvents` */
    method MarkIdUsed(id: string, precancelled: bool) returns (source: nat)
      requires nextSource == |ids|
      modifies `used, `nextSource, `ids, `marks
      ensures State() == Mark(old(State()), id, precancelled) && source == |old(ids)| && nextSource == |ids|
    {
      used := used + [(id, precancelled)];
      if |used| > USED_OUTGOING_IDS { used := used[1..]; }
      source := nextSource;
      ids, marks, nextSource := ids + [id], marks + [source], nextSource + 1;
    }

    /** `reserve_outgoing`, `acceptingRoutes` being what it read of the offers beforehand */
    method ReserveOutgoing(id: string, hasToken: bool, acceptingRoutes: seq<(string, Route)>)
        returns (r: Result<(nat, Option<Route>), MobileError>)
      requires Valid()
      modifies this
      ensures Valid() && State() == Calls.ReserveOutgoing(old(State()), id, hasToken).0
      ensures match Calls.ReserveOutgoing(old(State()), id, hasToken).1
              case Ok(source) => r.Ok? && r.value.0 == source && PinFor(old(State()), acceptingRoutes, r.value.1)
              case Err(e) => r == Err(e)
    {
      hide Inv, UsedFlag, ClearFlag, OutgoingId, PinFor, MarkUsed, Emit, InfoOf;
      ReserveKeeps(State(), id, hasToken);
      if !OutgoingId(id) { return Err(InvalidState); }
      var i := FindUsed(id);
      FlagAt(used, id, i);
      if i == |used| {
        r := ReserveUnused(id, hasToken, acceptingRoutes);
      } else if used[i].1 {
        used := used[i := (id, false)];
        r := Err(Aborted);
      } else {
        r := Err(InvalidState);
      }
    }

    /** The rest of `reserve_outgoing`, for an id that has not been used recently. */
    method ReserveUnused(id: string, hasToken: bool, acceptingRoutes: seq<(string, Route)>)
        returns (r: Result<(nat, Option<Route>), MobileError>)
      requires nextSource == |ids|
      modifies this
      ensures nextSource == |ids|
      ensures if id in old(calls) || id in old(ringing) || LiveCount(old(State())) >= MAX_LIVE_CALLS
              then r == Err(InvalidState) && State() == old(State())
              else if !hasToken then r == Err(AuthenticationError) && State() == old(State())
              else && r.Ok? && r.value.0 == |old(ids)| && PinFor(old(State()), acceptingRoutes, r.value.1)
                   && State() == Started(old(State()), id)
    {
      hide Started, PinFor;
      if id in calls || id in ringing { return Err(InvalidState); }
      var pin := FindPin(acceptingRoutes);
      if |calls| + |ringing| + |accepting| >= MAX_LIVE_CALLS { return Err(InvalidState); }
      if !hasToken { return Err(AuthenticationError); }
      var source := StartRinging(id);
      return Ok((source, pin));
    }

    method StartRinging(id: string) returns (source: nat)
      requires nextSource == |ids|
      modifies `used, `nextSource, `ids, `marks, `ringing, `nextSeq, `log
      ensures State() == Started(old(State()), id) && source == |old(ids)| && nextSource == |ids|
    {
      source := MarkIdUsed(id, false);
      var info := InfoOf(id, Ringing);
      ringing := ringing[id := Pending(source, info, nextSeq, false)];
      nextSeq := nextSeq + 1;
      var _ := EmitEvent(source, info);
    }

    /** The first half of `live_call_route`: connected calls, walked in any order. */
    method OldestConnected() returns (best: Option<Dated>)
      ensures best.Some? ==> KnownRoute(State(), best.value.seqNo, best.value.route)
      ensures forall id :: id in calls ==> best.Some? && best.value.seqNo <= calls[id].seqNo
    {
      best := None;
      var todo := calls.Keys;
      while todo != {}
        invariant todo <= calls.Keys
        invariant best.Some? ==>
                    exists id ::
                      id in calls && calls[id].seqNo == best.value.seqNo && calls[id].route == best.value.route
        invariant forall id :: id in calls && id !in todo ==> best.Some? && best.value.seqNo <= calls[id].seqNo
        decreases |todo|
      {
        var id :| id in todo;
        todo := todo - {id};
        if best.None? || calls[id].seqNo < best.value.seqNo { best := Some(Dated(calls[id].seqNo, calls[id].route)); }
      }
    }

    /** `live_call_route` */
    method LiveCallRoute() returns (r: Option<Route>)
      ensures OldestRoute(State(), r)
    {
      var best := OldestConnected();
      ghost var c := State();
      ghost var first := best;
      hide KnownRoute;
      var todo := ringing.Keys;
      while todo != {}
        invariant todo <= ringing.Keys
        invariant best.Some? ==> KnownRoute(c, best.value.seqNo, best.value.route)
        invariant first.Some? ==> best.Some? && best.value.seqNo <= first.value.seqNo
        invariant forall id :: id in ringing && id !in todo && ringing[id].source in cells ==>
                    best.Some? && best.value.seqNo <= ringing[id].seqNo
        decreases |todo|
      {
        var id :| id in todo;
        todo := todo - {id};
        if ringing[id].source in cells && (best.None? || ringing[id].seqNo < best.value.seqNo) {
          RingingIsKnown(c, id);
          best := Some(Dated(ringing[id].seqNo, cells[ringing[id].source]));
        }
      }
      OldestFound(c, best);
      return if best.None? then None else Some(best.value.route);
    }

    /** The pin of a new call: the route of the oldest live call whose route is known, or else of the
        first call that is still being accepted. */
    method FindPin(acceptingRoutes: seq<(string, Route)>) returns (pin: Option<Route>)
      ensures PinFor(State(), acceptingRoutes, pin)
    {
      pin := LiveCallRoute();
      if pin.Some? { return; }
      var i := 0;
      while i < |acceptingRoutes| && acceptingRoutes[i].0 !in accepting
        invariant 0 <= i <= |acceptingRoutes|
        invariant forall j :: 0 <= j < i ==> acceptingRoutes[j].0 !in accepting
      {
        i := i + 1;
      }
      if i < |acceptingRoutes| { pin := Some(acceptingRoutes[i].1); }
    }

    /** The request is about to be sent on `route`. */
    method SetCell(source: nat, route: Route)
      requires Valid() && source < nextSource
      modifies `cells
      ensures Valid() && State() == Calls.SetCell(old(State()), source, route)
    {
      hide Inv;
      SetCellKeeps(State(), source, route);
      cells := cells[source := route];
    }

    /** `dial` marks its call as sent; it returns whether the call still rang. */
    method MarkDialing(id: string) returns (rings: bool)
      requires Valid()
      modifies `ringing
      ensures Valid() && State() == Calls.MarkDialing(old(State()), id) && rings == (id in old(ringing))
    {
      hide Inv;
      MarkDialingKeeps(State(), id);
      if id !in ringing { return false; }
      ringing := ringing[id := ringing[id].(dialing := true)];
      return true;
    }

    /** `take_ringing` */
    method TakeRinging(id: string) returns (p: Option<Pending>)
      requires Valid()
      modifies `ringing
      ensures Valid() && (State(), p) == Calls.TakeRinging(old(State()), id)
    {
      hide Inv;
      if id !in ringing { return None; }
      RemoveRingingKeeps(State(), id);
      p := Some(ringing[id]);
      ringing := ringing - {id};
    }

    /** `dial` moves its answered call to the call map, if it still rings. */
    method ConnectDialed(id: string, source: nat, answer: Answer) returns (connected: bool)
      requires Valid()
      requires id in ringing ==> ringing[id].source == source
      requires forall t :: t in pending ==> pending[t].source != source
      modifies this
      ensures Valid() && (State(), connected) == Calls.ConnectDialed(old(State()), id, source, answer)
    {
      hide Inv, HoldOthers, OneIsOffHold, Emit, InfoOf;
      ConnectDialedKeeps(State(), id, source, answer);
      ReachableHolds();
      if id !in ringing { return false; }
      var seqNo := ringing[id].seqNo;
      ringing := ringing - {id};
      HoldAllOthers(id);
      var info := InfoOf(id, Connected);
      calls := calls[id := Active(source, info, seqNo, answer.token, answer.route, false)];
      var _ := EmitEvent(source, info);
      return true;
    }

    // ----- Ending -----

    /** The first half of `take_call`: the entry leaves the call map. */
    method RemoveCall(id: string) returns (call: Active)
      requires id in calls
      modifies `calls, `left
      ensures State() == Calls.RemoveCall(old(State()), id) && call == old(calls)[id]
    {
      call := calls[id];
      left := left[call.source := |log.queue|];
      calls := calls - {id};
    }

    /** `take_call` */
    method TakeCall(id: string) returns (call: Option<Active>)
      requires Valid()
      modifies `calls, `left
      ensures Valid() && (State(), call) == Calls.TakeCall(old(State()), id)
    {
      hide Inv;
      if id !in calls { return None; }
      RemoveCallKeeps(State(), id);
      var taken := RemoveCall(id);
      return Some(taken);
    }

    /** `emit_ended`, by whoever took call `source` out of the maps */
    method EmitEnded(source: nat, info: CallInfo, reason: EndReason) returns (first: bool)
      modifies `log
      ensures log == Emit(old(log), source, AsEnded(info, reason)) && first == (source !in old(log).ended)
    {
      first := EmitEvent(source, AsEnded(info, reason));
    }

    /** `take_for_hangup` */
    method TakeForHangup(id: string) returns (taken: Taken)
      requires Valid()
      modifies this
      ensures Valid() && (State(), taken) == Calls.TakeForHangup(old(State()), id)
    {
      hide Inv, UsedFlag, OutgoingId, MarkUsed;
      TakeForHangupKeeps(State(), id);
      if id in calls {
        var call := RemoveCall(id);
        return TakenActive(call);
      }
      if id in ringing {
        taken := TakenRinging(ringing[id]);
        ringing := ringing - {id};
        return;
      }
      var i := FindUsed(id);
      FlagAt(used, id, i);
      if OutgoingId(id) && i == |used| {
        var source := MarkIdUsed(id, true);
        return NotYetMade(source);
      }
      return Missing;
    }

    // ----- Call control -----

    /** `set_mute` */
    method SetMute(id: string, muted: bool) returns (ok: bool)
      requires Valid()
      modifies `calls, `log
      ensures Valid() && (State(), ok) == Calls.SetMute(old(State()), id, muted)
    {
      hide Inv, Emit;
      SetMuteKeeps(State(), id, muted);
      if id !in calls { return false; }
      calls := calls[id := calls[id].(info := calls[id].info.(muted := muted))];
      var _ := EmitEvent(calls[id].source, calls[id].info);
      return true;
    }

    /** `set_hold` */
    method SetHold(id: string, onHold: bool) returns (ok: bool)
      requires Valid()
      modifies `calls, `log
      ensures Valid() && (State(), ok) == Calls.SetHold(old(State()), id, onHold)
    {
      hide Inv, Emit, HoldOthers, OneIsOffHold;
      SetHoldKeeps(State(), id, onHold);
      ReachableHolds();
      if id !in calls { return false; }
      HoldKeepsKey(State(), id, id);
      if !onHold { HoldAllOthers(id); }
      var _ := ApplyHold(id, onHold);
      var _ := EmitEvent(calls[id].source, calls[id].info);
      return true;
    }

    method SwitchHold(id: string, onHold: bool)
      requires id in calls
      modifies `calls, `log
      ensures State() == Calls.SwitchHold(old(State()), id, onHold)
    {
      var changed := ApplyHold(id, onHold);
      if changed { var _ := EmitEvent(calls[id].source, calls[id].info); }
    }

    /** `swap_calls` */
    method SwapCalls(active: string, held: string) returns (ok: bool)
      requires Valid()
      modifies `calls, `log
      ensures Valid() && (State(), ok) == Calls.SwapCalls(old(State()), active, held)
    {
      hide Inv, HoldOthers, Calls.SwitchHold, OneIsOffHold;
      SwapCallsKeeps(State(), active, held);
      if active == held || active !in calls || held !in calls { return false; }
      SwapMiddle(State(), active, held);
      SwitchHold(active, true);
      HoldAllOthers(held);
      SwitchHold(held, false);
      return true;
    }

    // ----- Incoming calls -----

    /** `reserve_accept` */
    method ReserveAccept(token: string) returns (ok: bool)
      requires Valid()
      modifies `accepting
      ensures Valid() && (State(), ok) == Calls.ReserveAccept(old(State()), token)
    {
      if token in accepting || IncomingId(token) in calls { return false; }
      if |calls| + |ringing| + |accepting| >= MAX_LIVE_CALLS { return false; }
      accepting := accepting + {token};
      return true;
    }

    /** `AcceptReservation::drop` */
    method ReleaseAccept(token: string)
      requires Valid()
      modifies `accepting
      ensures Valid() && State() == Calls.ReleaseAccept(old(State()), token)
    {
      accepting := accepting - {token};
    }

    /** A new `CallEvents` for an incoming call. */
    method NewEvents(id: string) returns (source: nat)
      requires nextSource == |ids|
      modifies `nextSource, `ids
      ensures source == |old(ids)| && ids == old(ids) + [id] && nextSource == |ids|
    {
      source := nextSource;
      ids, nextSource := ids + [id], nextSource + 1;
    }

    /** `answer_offer` before it sends the accept */
    method BeginAccept(token: string) returns (source: nat)
      requires Valid()
      modifies `pending, `nextSource, `ids
      ensures Valid() && (State(), source) == Calls.BeginAccept(old(State()), token)
    {
      hide Inv;
      BeginAcceptKeeps(State(), token);
      if token in pending {
        source := pending[token].source;
        pending := pending[token := pending[token].(accepting := true)];
      } else {
        source := NewEvents(IncomingId(token));
      }
    }

    /** `answer_offer` when the gateway refused the accept */
    method RefuseAccept(token: string)
      requires Valid()
      modifies `pending
      ensures Valid() && State() == Calls.RefuseAccept(old(State()), token)
    {
      hide Inv;
      if token in pending {
        ReplaceOffer(State(), token, pending[token].(accepting := false));
        pending := pending[token := pending[token].(accepting := false)];
      }
    }

    /** `watch_incoming`; it returns the events shared by everything that can report the call */
    method WatchIncoming(token: string, route: Route, abandoned: bool) returns (source: nat)
      requires Valid()
      modifies `pending, `nextSource, `ids
      ensures Valid() && State() == Calls.WatchIncoming(old(State()), token, route, abandoned)
      ensures token in pending && pending[token].source == source
    {
      hide Inv;
      WatchIncomingKeeps(State(), token, route, abandoned);
      if token in pending {
        var existing := pending[token];
        source := existing.source;
        pending := pending[token := existing.(abandoned := existing.abandoned || abandoned,
                                              accepting := existing.accepting && !abandoned)];
      } else {
        source := NewEvents(IncomingId(token));
        pending := pending[token := Offered(source, InfoOf(IncomingId(token), Ended), route, false, abandoned, false)];
      }
    }

    /** `take_pending_incoming` */
    method TakeOffered(token: string) returns (e: Option<Offered>)
      requires Valid()
      modifies `pending
      ensures Valid() && (State(), e) == Calls.TakeOffered(old(State()), token)
    {
      hide Inv;
      if token !in pending { return None; }
      RemoveOfferedKeeps(State(), token);
      e := Some(pending[token]);
      pending := pending - {token};
    }

    /** `answer_offer` after the gateway accepted. Other calls are held inside the gate of the new call
        (`emit_after`), so not when it was already reported ended. */
    method ConnectAccepted(token: string, source: nat, route: Route) returns (connected: bool)
      requires Valid()
      requires source < |ids| && ids[source] == IncomingId(token)
      requires source in log.ended || Last(log.queue, source).None?
      requires source !in left && IncomingId(token) !in calls
      requires forall t :: t in pending ==> pending[t].source != source
      modifies this
      ensures Valid() && (State(), connected) == Calls.ConnectAccepted(old(State()), token, source, route)
    {
      hide Inv, HoldOthers, OneIsOffHold, InfoOf;
      ConnectAcceptedKeeps(State(), token, source, route);
      ReachableHolds();
      HoldKeepsEnded(State(), token, IncomingId(token), source);
      accepting := accepting - {token};
      if source in log.ended { return false; }
      var id := IncomingId(token);
      HoldAllOthers(id);
      var info := InfoOf(id, Connected);
      var _ := EmitEvent(source, info);
      calls := calls[id := Active(source, info, nextSeq, token, route, false)];
      nextSeq := nextSeq + 1;
      return true;
    }

    /** The incoming watch acts on one status answer. */
    method WatchStatus(token: string, seen: Seen) returns (action: PollAction)
      requires Valid()
      modifies `pending, `log
      ensures Valid() && (State(), action) == Calls.WatchStatus(old(State()), token, seen)
    {
      hide Inv, Emit;
      WatchStatusKeeps(State(), token, seen);
      if token !in pending { return Stop; }
      var entry := pending[token];
      if seen.SawActive? {
        pending := pending - {token};
        if entry.accepting { return Stop; }
        if entry.abandoned { return HangUp; }
        var _ := EmitEnded(entry.source, entry.info, AnsweredElsewhere);
        return Stop;
      }
      if seen.SawGone? {
        pending := pending - {token};
        if !entry.abandoned { var _ := EmitEnded(entry.source, entry.info, seen.reason); }
        return Stop;
      }
      if entry.abandoned && !entry.rejected {
        pending := pending[token := entry.(rejected := true)];
        return Reject;
      }
      return Continue;
    }

    // ----- Queries -----

    method ConnectedCalls() returns (live: seq<Live>)
      requires Apart(ConnectedOnes(calls))
      ensures Collected(ConnectedOnes(calls), {}, live)
    {
      ghost var entries := ConnectedOnes(calls);
      assert entries.Keys == calls.Keys;
      NoneCollected(entries);
      hide Collected, Apart;
      live := [];
      var todo := calls.Keys;
      while todo != {}
        invariant todo <= calls.Keys && Collected(entries, todo, live)
        decreases |todo|
      {
        var id :| id in todo;
        CollectStep(entries, todo, live, id);
        todo := todo - {id};
        live := live + [Live(calls[id].seqNo, calls[id].info)];
      }
    }

    method RingingCalls() returns (live: seq<Live>)
      requires Apart(RingingOnes(ringing))
      ensures Collected(RingingOnes(ringing), {}, live)
    {
      ghost var entries := RingingOnes(ringing);
      assert entries.Keys == ringing.Keys;
      NoneCollected(entries);
      hide Collected, Apart;
      live := [];
      var todo := ringing.Keys;
      while todo != {}
        invariant todo <= ringing.Keys && Collected(entries, todo, live)
        decreases |todo|
      {
        var id :| id in todo;
        CollectStep(entries, todo, live, id);
        todo := todo - {id};
        live := live + [Live(ringing[id].seqNo, ringing[id].info)];
      }
    }

    /** `live_calls`: the maps are walked in any order, then sorted */
    method LiveCalls() returns (live: seq<Live>)
      requires Valid()
      ensures Ascending(live) && forall x :: x in live <==> IsLive(State(), x)
    {
      EntriesApart(State());
      hide Apart, Collected, OrderOk, IsLive;
      var connected := ConnectedCalls();
      var ringing := RingingCalls();
      EntriesAreLive(State(), connected, ringing);
      live := Sort(connected + ringing);
    }

    /** `get_calls` */
    method GetCalls() returns (infos: seq<CallInfo>)
      requires Valid()
      ensures exists live :: Ascending(live) && (forall x :: x in live <==> IsLive(State(), x)) && infos == Infos(live)
    {
      hide Inv, IsLive;
      var live := LiveCalls();
      infos := [];
      for i := 0 to |live|
        invariant infos == Infos(live[..i])
      {
        assert live[..i + 1][..i] == live[..i];
        infos := infos + [live[i].info];
      }
      assert live[..|live|] == live;
    }

    /** `get_active_call` */
    method GetActiveCall() returns (info: Option<CallInfo>)
      requires Valid()
      ensures IsActive(State(), info)
    {
      hide Inv, IsLive;
      var todo := calls.Keys;
      while todo != {}
        invariant todo <= calls.Keys
        invariant forall id :: id in calls && id !in todo ==> calls[id].info.onHold
        decreases |todo|
      {
        var id :| id in todo;
        if !calls[id].info.onHold { return Some(calls[id].info); }
        todo := todo - {id};
      }
      var live := LiveCalls();
      if live == [] { return None; }
      forall x | IsLive(State(), x) ensures x.seqNo <= live[|live| - 1].seqNo { LastIsGreatest(live, x); }
      return Some(live[|live| - 1].info);
    }
  }
}
