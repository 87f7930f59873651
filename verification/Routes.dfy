/** Which gateway instance each outgoing call is placed on. */
module Routes {
  import opened Types
  import opened Events
  import opened Calls
  import opened CallsInvariant
  import opened World
  import opened WorldInvariant
  import opened Lifecycle
  import opened Frames
  import opened OutgoingSteps
  import Outgoing

  /** An attempt cell names the route of the answer, and a pinned call has tried only its pin. */
  ghost predicate RoutesOk(attempts: Attempts, cells: map<nat, Route>, pins: map<nat, Route>) {
    && (forall k :: k in pins && k in cells ==> cells[k] == pins[k])
    && (forall k :: k in attempts && attempts[k].request.Done? && attempts[k].request.answer.Some? ==>
          k in cells && cells[k] == attempts[k].request.answer.value.route)
  }

  /** Pins are never changed or dropped, and no answer appears. */
  ghost predicate RoutesKept(w: World, w': World) {
    && w'.core.cells == w.core.cells && w'.pins == w.pins
    && forall k :: k in w'.attempts && w'.attempts[k].request.Done? ==>
         k in w.attempts && w'.attempts[k].request == w.attempts[k].request
  }

  lemma KeptIsOk(w: World, w': World)
    requires RoutesOk(w.attempts, w.core.cells, w.pins) && RoutesKept(w, w')
    ensures RoutesOk(w'.attempts, w'.core.cells, w'.pins)
  {
  }

  lemma ActKeepsRequest(a: Outgoing.Attempt, act: Outgoing.Act)
    requires Outgoing.Can(a, act) && !act.RequestReturns?
    ensures Outgoing.Do(a, act).request.Done? ==> Outgoing.Do(a, act).request == a.request
  {
  }

  lemma ActKept(w: World, k: nat, act: Outgoing.Act)
    requires CanAct(w, k, act) && !act.RequestReturns?
    ensures RoutesKept(w, Act(w, k, act))
  {
    ActKeepsRequest(w.attempts[k], act);
    hide Outgoing.Do, Outgoing.Can;
  }

  predicate PinsGrow(w: World, w': World) {
    forall k :: k in w.pins ==> k in w'.pins && w'.pins[k] == w.pins[k]
  }

  lemma ReserveRoutes(w: World, step: DialStep)
    requires RoutesOk(w.attempts, w.core.cells, w.pins) && CanDial(w, step) && step.Reserve?
    requires |w.core.ids| !in w.core.cells && |w.core.ids| !in w.pins
    ensures var w' := DoDial(w, step);
            && RoutesOk(w'.attempts, w'.core.cells, w'.pins) && PinsGrow(w, w')
            && w.core.ids <= w'.core.ids && forall k :: k in w'.pins ==> k in w.pins || k < |w'.core.ids|
  {
    hide ReserveOutgoing, CanDial, RoutesOk;
    ReserveCells(w.core, step.id, step.hasToken);
    var r := ReserveOutgoing(w.core, step.id, step.hasToken).1;
    var w' := DoDial(w, step);
    if r.Ok? {
      NewRoutes(w.attempts, w.core.cells, w.pins, |w.core.ids|, step.pin);
    } else {
      assert w'.attempts == w.attempts && w'.pins == w.pins;
    }
  }

  lemma NewRoutes(attempts: Attempts, cells: map<nat, Route>, pins: map<nat, Route>, k: nat, pin: Option<Route>)
    requires RoutesOk(attempts, cells, pins) && k !in cells
    ensures RoutesOk(attempts[k := Outgoing.FRESH], cells, if pin.Some? then pins[k := pin.value] else pins)
  {
  }

  lemma TryRoutes(w: World, step: DialStep)
    requires RoutesOk(w.attempts, w.core.cells, w.pins) && CanDial(w, step) && step.Tries?
    ensures var w' := DoDial(w, step);
            && RoutesOk(w'.attempts, w'.core.cells, w'.pins)
            && w'.core.ids == w.core.ids && w'.pins == w.pins
  {
  }

  lemma ConnectKept(w: World, k: nat)
    requires CanDial(w, Connects(k))
    ensures RoutesKept(w, DoDial(w, Connects(k))) && DoDial(w, Connects(k)).core.ids == w.core.ids
  {
    ConnectCells(w.core, w.core.ids[k], k, w.attempts[k].dial.answer);
    ActKept(w, k, Outgoing.Connects);
    hide Outgoing.Do, Outgoing.Can, ConnectDialed;
  }

  lemma FailKept(w: World, k: nat, act: Outgoing.Act)
    requires CanAct(w, k, act) && !act.RequestReturns?
    ensures RoutesKept(w, FailDial(w, k, act)) && FailDial(w, k, act).core.ids == w.core.ids
  {
    ActKept(w, k, act);
    hide Outgoing.Do, Outgoing.Can;
  }

  lemma DialKept(w: World, step: DialStep)
    requires CanDial(w, step) && !step.Reserve? && !step.Tries? && (step.Acts? ==> !step.act.RequestReturns?)
    ensures RoutesKept(w, DoDial(w, step)) && DoDial(w, step).core.ids == w.core.ids
  {
    if step.Connects? { ConnectKept(w, step.k); }
    hide Outgoing.Do, Outgoing.Can, ConnectDialed, Emit, AsEnded, InfoOf, PinFor, NotRunning, ReserveOutgoing;
    hide FailDial, TakeRinging, DirectionOf;
    match step
    case MediaFails(k) => FailKept(w, k, Outgoing.MediaFails);
    case MarksDialing(k) => ActKept(w, k, Outgoing.MarksDialing);
    case Joins(k) =>
      if w.attempts[k].request.answer.Some? { ActKept(w, k, Outgoing.JoinsRequest); }
      else { FailKept(w, k, Outgoing.JoinsRequest); }
    case Connects(k) =>
    case ReportsCancelled(k) => ActKept(w, k, Outgoing.ReportsEnded);
    case Acts(k, act) => ActKept(w, k, act);
  }

  lemma DialRoutes(w: World, step: DialStep)
    requires RoutesOk(w.attempts, w.core.cells, w.pins) && CanDial(w, step)
    requires |w.core.ids| !in w.core.cells && PinsKnown(w)
    ensures Good(w, DoDial(w, step))
  {
    if step.Reserve? { ReserveRoutes(w, step); }
    else if step.Tries? { TryRoutes(w, step); }
    else if step.Acts? && step.act.RequestReturns? { AnswerRoutes(w, step.k, step.act); }
    else {
      DialKept(w, step);
      hide DoDial, CanDial;
      KeptIsOk(w, DoDial(w, step));
    }
  }

  ghost predicate PinsKnown(w: World) {
    forall k :: k in w.pins ==> k < |w.core.ids|
  }

  ghost predicate Good(w: World, w': World) {
    RoutesOk(w'.attempts, w'.core.cells, w'.pins) && PinsGrow(w, w') && PinsKnown(w') && w.core.ids <= w'.core.ids
  }

  lemma AnswerRoutes(w: World, k: nat, act: Outgoing.Act)
    requires RoutesOk(w.attempts, w.core.cells, w.pins) && CanDial(w, Acts(k, act)) && act.RequestReturns?
    ensures RoutesOk(Act(w, k, act).attempts, w.core.cells, w.pins)
  {
    assert Outgoing.Do(w.attempts[k], act).request == Outgoing.Done(act.answer);
  }

  // ----- Call control touches only the connected calls and the log -----

  predicate OnlyCalls(c: Core, c': Core) {
    c' == c.(calls := c'.calls, log := c'.log)
  }

  lemma HoldOnlyCalls(c: Core, keep: string)
    ensures OnlyCalls(c, HoldOthers(c, keep))
  {
  }

  lemma SetHoldOnlyCalls(c: Core, id: string, onHold: bool)
    ensures OnlyCalls(c, SetHold(c, id, onHold).0)
  {
    HoldOnlyCalls(c, id);
    hide HoldOthers;
  }

  lemma SwitchOnlyCalls(c: Core, id: string, onHold: bool)
    requires id in c.calls
    ensures OnlyCalls(c, SwitchHold(c, id, onHold))
  {
  }

  lemma SwapOnlyCalls(c: Core, active: string, held: string)
    ensures OnlyCalls(c, SwapCalls(c, active, held).0)
  {
    if active in c.calls && held in c.calls {
      SwitchOnlyCalls(c, active, true);
      var c1 := SwitchHold(c, active, true);
      HoldOnlyCalls(c1, held);
      assert HoldOthers(c1, held).calls == HeldExcept(c1.calls, held);
      var c2 := HoldOthers(c1, held);
      hide HoldOthers, SwitchHold;
      SwitchOnlyCalls(c2, held, false);
    }
  }

  lemma ControlOnlyCalls(w: World, step: ControlStep)
    ensures DoControl(w, step) == w.(core := DoControl(w, step).core)
    ensures OnlyCalls(w.core, DoControl(w, step).core)
  {
    var c := w.core;
    hide SwapCalls, SetHold;
    match step
    case Mutes(_, _) =>
    case Holds(id, onHold) => SetHoldOnlyCalls(c, id, onHold);
    case Swaps(active, held) => SwapOnlyCalls(c, active, held);
  }

  lemma ConnectCells(c: Core, id: string, source: nat, answer: Answer)
    ensures ConnectDialed(c, id, source, answer).0.cells == c.cells
    ensures ConnectDialed(c, id, source, answer).0.ids == c.ids
  {
    HoldOnlyCalls(c.(ringing := c.ringing - {id}), id);
    hide HoldOthers;
  }

  lemma AcceptCells(c: Core, token: string, source: nat, route: Route)
    ensures ConnectAccepted(c, token, source, route).0.cells == c.cells
    ensures ConnectAccepted(c, token, source, route).0.ids == c.ids
  {
    HoldOnlyCalls(ReleaseAccept(c, token), IncomingId(token));
    hide HoldOthers;
  }

  lemma ReserveCells(c: Core, id: string, hasToken: bool)
    ensures var (c', r) := ReserveOutgoing(c, id, hasToken);
            && c'.cells == c.cells
            && c'.ids == (if r.Ok? then c.ids + [id] else c.ids)
            && (r.Ok? ==> r.value == |c.ids|)
  {
  }

  lemma RingingTakenRoutes(w: World, id: string)
    requires id !in w.core.calls && id in w.core.ringing
    ensures RoutesKept(w, DoEnd(w, HangsUp(id)))
  {
    hide Outgoing.Do, Outgoing.Can;
    if CanAct(w, w.core.ringing[id].source, Outgoing.IsTaken) {
      ActKept(w, w.core.ringing[id].source, Outgoing.IsTaken);
    }
  }

  lemma HangupRoutes(w: World, id: string)
    ensures RoutesKept(w, DoEnd(w, HangsUp(id)))
  {
    if id in w.core.calls {
      OweKept(w, RemoveCall(w.core, id), w.core.calls[id], LocalHangup, IfToken);
      hide Owe, RemoveCall, RoutesKept, Mark, CanAct, Act;
    } else if id in w.core.ringing {
      RingingTakenRoutes(w, id);
    } else {
      hide Owe, RemoveCall, MarkUsed, CanAct, Act, UsedFlag, OutgoingId, InfoOf, AsEnded;
      assert RoutesKept(w, DoEnd(w, HangsUp(id)));
    }
  }

  lemma PayRoutes(w: World, k: nat, hasToken: bool)
    requires k in w.debts
    ensures RoutesKept(w, DoEnd(w, PaysDebt(k, hasToken)))
  {
    hide Outgoing.Do, Outgoing.Can, Emit;
    var hangUp := HangsUpToo(w.debts[k], hasToken);
    if CanAct(w, k, Outgoing.IsClosed(hangUp)) { ActKept(w, k, Outgoing.IsClosed(hangUp)); }
  }

  lemma EndRoutes(w: World, step: EndStep)
    requires CanEnd(w, step)
    ensures RoutesKept(w, DoEnd(w, step))
  {
    hide Outgoing.Do, RoutesKept, Owe;
    match step
    case HangsUp(id) => HangupRoutes(w, id);
    case Removes(id, reason, hangUp) =>
      KeptSame(w);
      if id in w.core.calls {
        OweKept(w, RemoveCall(w.core, id), w.core.calls[id], reason, if hangUp then Always else NoHangUp);
      }
    case PaysDebt(k, hasToken) => PayRoutes(w, k, hasToken);
  }

  lemma KeptSame(w: World)
    ensures RoutesKept(w, w)
  {
  }

  predicate HangsUpToo(debt: Debt, hasToken: bool) {
    debt.plan.Always? || (debt.plan.IfToken? && hasToken)
  }

  lemma OweKept(w: World, c': Core, call: Active, reason: EndReason, plan: HangUpPlan)
    requires c'.cells == w.core.cells
    ensures RoutesKept(w, Owe(w, c', call, reason, plan))
  {
    hide Outgoing.Do;
    if CanAct(w, call.source, Outgoing.IsRemoved) { ActKept(w, call.source, Outgoing.IsRemoved); }
  }

  lemma ControlRoutes(w: World, step: ControlStep)
    ensures RoutesKept(w, DoControl(w, step)) && DoControl(w, step).core.ids == w.core.ids
  {
    ControlOnlyCalls(w, step);
    hide DoControl;
  }

  lemma WatchCells(c: Core, t: string, route: Route, abandoned: bool)
    ensures WatchIncoming(c, t, route, abandoned).cells == c.cells && c.ids <= WatchIncoming(c, t, route, abandoned).ids
  {
  }

  lemma OfferCells(c: Core, t: string, seen: Seen)
    ensures TakeOffered(c, t).0.cells == c.cells && TakeOffered(c, t).0.ids == c.ids
    ensures WatchStatus(c, t, seen).0.cells == c.cells && WatchStatus(c, t, seen).0.ids == c.ids
  {
    hide Emit;
  }

  lemma OfferRoutes(w: World, step: OfferStep)
    requires CanOffer(w, step)
    ensures RoutesKept(w, DoOffer(w, step)) && w.core.ids <= DoOffer(w, step).core.ids
  {
    hide Emit, WatchIncoming, TakeOffered, WatchStatus, AsEnded, InfoOf, RoutesKept;
    match step {
      case Offers(t, route) => WatchCells(w.core, t, route, false);
      case Rejects(t) => OfferCells(w.core, t, SawOther);
      case ReportsRejected(_) =>
      case Watches(t, seen) => OfferCells(w.core, t, seen);
    }
    SameRoutes(w, DoOffer(w, step));
  }

  lemma AcceptRoutes(w: World, step: AcceptStep)
    requires CanAccept(w, step)
    ensures RoutesKept(w, DoAccept(w, step)) && w.core.ids <= DoAccept(w, step).core.ids
  {
    hide ConnectAccepted, Emit, AsEnded, InfoOf, IncomingId, WatchIncoming, TakeOffered, RoutesKept, LiveCount;
    if step.AcceptConnects? { AcceptCells(w.core, step.token, w.accepts[step.token].source, step.route); }
    else if step.AcceptUnknown? { WatchCells(w.core, step.token, step.route, true); }
    else if step.AcceptClears? { OfferCells(w.core, step.token, SawOther); }
    SameRoutes(w, DoAccept(w, step));
  }

  lemma SameRoutes(w: World, w': World)
    requires w'.core.cells == w.core.cells && w'.pins == w.pins && w'.attempts == w.attempts
    ensures RoutesKept(w, w')
  {
  }

  lemma EndIds(w: World, step: EndStep)
    requires CanEnd(w, step)
    ensures w.core.ids <= DoEnd(w, step).core.ids
  {
    hide Outgoing.Do, Outgoing.Can, Emit, MarkUsed;
    match step
    case HangsUp(id) =>
    case Removes(_, _, _) =>
    case PaysDebt(_, _) =>
  }

  lemma StepRoutes(w: World, step: Step)
    requires WorldInv(w) && Can(w, step) && RoutesOk(w.attempts, w.core.cells, w.pins) && PinsKnown(w)
    ensures Good(w, Do(w, step))
  {
    WorldCore(w);
    hide WorldInv, UsedOk, FlagsOk, OwnIds;
    match step
    case Dialling(dial) => DialRoutes(w, dial);
    case Ending(end) => EndRoutes(w, end); EndIds(w, end); KeptIsGood(w, DoEnd(w, end));
    case Control(control) => ControlRoutes(w, control); KeptIsGood(w, DoControl(w, control));
    case Offering(offer) => OfferRoutes(w, offer); KeptIsGood(w, DoOffer(w, offer));
    case Accepting(accept) => AcceptRoutes(w, accept); KeptIsGood(w, DoAccept(w, accept));
  }

  lemma KeptIsGood(w: World, w': World)
    requires RoutesOk(w.attempts, w.core.cells, w.pins) && PinsKnown(w) && RoutesKept(w, w')
             && w.core.ids <= w'.core.ids
    ensures Good(w, w')
  {
  }

  lemma {:induction false} RunRoutes(w: World, steps: seq<Step>)
    requires WorldInv(w) && RoutesOk(w.attempts, w.core.cells, w.pins) && PinsKnown(w) && RunFrom(w, steps).Some?
    ensures Good(w, RunFrom(w, steps).value)
  {
    hide WorldInv, Do, Can, RoutesOk;
    if steps != [] {
      var earlier := steps[..|steps| - 1];
      RunFromKeeps(w, earlier);
      RunRoutes(w, earlier);
      StepRoutes(RunFrom(w, earlier).value, steps[|steps| - 1]);
    }
  }

  // ----- The guarantees -----

  /** A pinned call touches its pin only, and every call is connected on the last route it tried. */
  lemma OnlyThePinIsTried(steps: seq<Step>, k: nat)
    requires Run(steps).Some?
    ensures var w := Run(steps).value;
            && (k in w.pins && k in w.core.cells ==> w.core.cells[k] == w.pins[k])
            && (InCalls(w.core.calls, w.core.ids, k) && DirectionOf(w.core.ids[k]).Outbound? ==>
                  && k in w.core.cells && w.core.calls[w.core.ids[k]].route == w.core.cells[k])
  {
    StartOk();
    RunRoutes(START, steps);
    RunKeeps(steps);
    var w := Run(steps).value;
    if InCalls(w.core.calls, w.core.ids, k) && DirectionOf(w.core.ids[k]).Outbound? { ConnectedAnswer(w, k); }
  }

  lemma ConnectedAnswer(w: World, k: nat)
    requires WorldInv(w) && InCalls(w.core.calls, w.core.ids, k) && DirectionOf(w.core.ids[k]).Outbound?
    ensures k in w.attempts
    ensures var call := w.core.calls[w.core.ids[k]];
            w.attempts[k].request == Outgoing.Done(Some(Answer(call.token, call.route)))
  {
    Owned(w.core);
    hide Inv, Outgoing.AttemptOk, OneDial, DebtsOk, NoneForgotten, AcceptsOk, RequestsOk, SlotsOk;
    assert w.core.calls[w.core.ids[k]].info.direction.Outbound?;
  }

  lemma IsOldest(c: Core, n: nat, r: Route)
    requires KnownRoute(c, n, r) && forall m: nat, q: Route :: KnownRoute(c, m, q) ==> n <= m
    ensures OldestRoute(c, Some(r))
  {
  }

  /** The oldest known route is one route, however the maps are walked. */
  lemma OldestIsUnique(c: Core, r: Option<Route>, q: Option<Route>)
    requires OrderOk(c.calls, c.ringing) && OldestRoute(c, r) && OldestRoute(c, q)
    ensures r == q
  {
    if r.Some? && q.Some? {
      var n: nat :| KnownRoute(c, n, r.value) && forall m: nat, p: Route :: KnownRoute(c, m, p) ==> n <= m;
      var m: nat :| KnownRoute(c, m, q.value) && forall n: nat, p: Route :: KnownRoute(c, n, p) ==> m <= n;
      assert KnownRoute(c, n, r.value) && KnownRoute(c, n, q.value);
    }
  }

  lemma OnlyOne<V>(m: map<string, V>, id: string, other: string)
    requires |m| <= 1 && id in m && other in m
    ensures id == other
  {
    var rest := m.Keys - {id};
    assert |m.Keys| == |rest| + 1;
    assert rest == {} && other !in rest;
  }

  /** With a connected call, or a ringing one that has been sent, the pin of a new call is its route; without, it is
      the route of a call that is being accepted, if there is one, and else there is no pin. */
  lemma PinIsTheOthers(c: Core, acceptingRoutes: seq<(string, Route)>, pin: Option<Route>, other: string)
    requires PinFor(c, acceptingRoutes, pin) && LiveCount(c) < MAX_LIVE_CALLS
    ensures other in c.calls ==> pin == Some(c.calls[other].route)
    ensures other in c.ringing && c.ringing[other].source in c.cells ==> pin == Some(c.cells[c.ringing[other].source])
    ensures c.calls == map[] && (forall id :: id in c.ringing ==> c.ringing[id].source !in c.cells) ==>
              && (pin.None? <==> forall i :: 0 <= i < |acceptingRoutes| ==> acceptingRoutes[i].0 !in c.accepting)
              && (pin.Some? ==>
                    exists i :: 0 <= i < |acceptingRoutes| && acceptingRoutes[i].1 == pin.value
                                && acceptingRoutes[i].0 in c.accepting)
  {
    if other in c.calls {
      assert KnownRoute(c, c.calls[other].seqNo, c.calls[other].route);
      assert c.ringing == map[];
      forall id | id in c.calls ensures id == other { OnlyOne(c.calls, id, other); }
    } else if other in c.ringing && c.ringing[other].source in c.cells {
      assert KnownRoute(c, c.ringing[other].seqNo, c.cells[c.ringing[other].source]);
      assert c.calls == map[];
      forall id | id in c.ringing ensures id == other { OnlyOne(c.ringing, id, other); }
    }
  }

  /** The route of a live call, once it is known. */
  function RouteOf(c: Core, id: string): Option<Route> {
    if id in c.calls then Some(c.calls[id].route)
    else if id in c.ringing && c.ringing[id].source in c.cells then Some(c.cells[c.ringing[id].source])
    else None
  }

  /** A call dialled while another one's route is known is only ever tried, and connected, on the
      gateway instance that other call was on when the new one was made, whatever happens later: the
      PBX could not join two calls on different instances. */
  lemma SecondCallSharesInstance(steps: seq<Step>, step: DialStep, more: seq<Step>, other: string)
    requires Run(steps).Some? && Run(steps + [Dialling(step)] + more).Some?
    requires RouteOf(Run(steps).value.core, other).Some?
    requires step.Reserve? && ReserveOutgoing(Run(steps).value.core, step.id, step.hasToken).1.Ok?
    ensures var c, c' := Run(steps).value.core, Run(steps + [Dialling(step)] + more).value.core;
            var k, route := |c.ids|, RouteOf(c, other).value;
            && (k in c'.cells ==> c'.cells[k] == route)
            && k < |c'.ids| && c'.ids[k] == step.id
            && (InCalls(c'.calls, c'.ids, k) ==> c'.calls[step.id].route == route)
  {
    hide WorldInv, RunFrom;
    RunSplit(START, steps + [Dialling(step)], more);
    RunOne(steps, Dialling(step));
    PinnedFrom(steps, step, more, other);
  }

  lemma PinnedFrom(steps: seq<Step>, step: DialStep, more: seq<Step>, other: string)
    requires Run(steps).Some? && RouteOf(Run(steps).value.core, other).Some?
    requires step.Reserve? && CanDial(Run(steps).value, step)
    requires ReserveOutgoing(Run(steps).value.core, step.id, step.hasToken).1.Ok?
    requires RunFrom(DoDial(Run(steps).value, step), more).Some?
    ensures var c, c' := Run(steps).value.core, RunFrom(DoDial(Run(steps).value, step), more).value.core;
            var k, route := |c.ids|, RouteOf(c, other).value;
            && (k in c'.cells ==> c'.cells[k] == route)
            && k < |c'.ids| && c'.ids[k] == step.id
            && (InCalls(c'.calls, c'.ids, k) ==> c'.calls[step.id].route == route)
  {
    hide WorldInv;
    var w := Run(steps).value;
    StartOk();
    RunRoutes(START, steps);
    RunKeeps(steps);
    PinIsTheOthers(w.core, step.acceptingRoutes, step.pin, other);
    var w1 := DoDial(w, step);
    ReservePins(w, step);
    StepRoutes(w, Dialling(step));
    StepKeeps(w, Dialling(step));
    RunRoutes(w1, more);
    RunFromKeeps(w1, more);
    var v := RunFrom(w1, more).value;
    var k := |w.core.ids|;
    hide RunFrom, DoDial, CanDial, PinFor, ReserveOutgoing;
    assert v.pins[k] == w1.pins[k];
    assert v.core.ids[k] == w1.core.ids[k];
    if InCalls(v.core.calls, v.core.ids, k) { ConnectedAnswer(v, k); }
  }

  lemma ReservePins(w: World, step: DialStep)
    requires step.Reserve? && CanDial(w, step) && ReserveOutgoing(w.core, step.id, step.hasToken).1.Ok?
             && step.pin.Some?
    ensures var k := |w.core.ids|;
            && k in DoDial(w, step).pins && DoDial(w, step).pins[k] == step.pin.value
            && DoDial(w, step).core.ids == w.core.ids + [step.id]
    ensures LiveCount(w.core) < MAX_LIVE_CALLS && DirectionOf(step.id).Outbound?
  {
    OutgoingIds(step.id);
  }
}
