/** What no step of the engine takes back: ids and their uses are only added, and a connected call keeps its
    `CallEvents` and its route until it is taken out of the map for good. */
module Growth {
  import opened Types
  import opened Events
  import opened Calls
  import opened CallsInvariant
  import opened World
  import opened WorldInvariant
  import opened Lifecycle
  import opened Frames
  import opened OutgoingSteps
  import opened Routes
  import Outgoing

  predicate KeptCalls(calls: map<string, Active>, calls': map<string, Active>) {
    forall id :: id in calls ==>
      id in calls' && calls'[id].source == calls[id].source && calls'[id].route == calls[id].route
  }

  lemma HoldKept(c: Core, keep: string)
    ensures KeptCalls(c.calls, HoldOthers(c, keep).calls)
    ensures HoldOthers(c, keep).calls.Keys == c.calls.Keys && HoldOthers(c, keep).ringing == c.ringing
  {
    assert HoldOthers(c, keep).calls == HeldExcept(c.calls, keep);
    hide HoldOthers, OffHold;
  }

  lemma DialedConnects(c: Core, id: string, k: nat, answer: Answer)
    requires id in c.ringing && id !in c.calls
    ensures var c' := ConnectDialed(c, id, k, answer).0;
            && KeptCalls(c.calls, c'.calls) && c'.left == c.left
            && c'.calls.Keys == c.calls.Keys + {id} && c'.ringing.Keys == c.ringing.Keys - {id}
            && c'.calls[id].source == k && c'.calls[id].route == answer.route
  {
    var c1 := c.(ringing := c.ringing - {id});
    HoldKept(c1, id);
    HoldOnlyCalls(c1, id);
    hide HoldOthers, Emit, InfoOf;
  }

  lemma AcceptedConnects(c: Core, token: string, source: nat, route: Route)
    requires IncomingId(token) !in c.calls
    ensures var c' := ConnectAccepted(c, token, source, route).0;
            KeptCalls(c.calls, c'.calls) && c'.left == c.left && c'.ids == c.ids && c'.marks == c.marks
  {
    var c1 := ReleaseAccept(c, token);
    HoldKept(c1, IncomingId(token));
    HoldOnlyCalls(c1, IncomingId(token));
    hide HoldOthers, Emit, InfoOf, IncomingId;
  }

  lemma SwitchKept(c: Core, id: string, onHold: bool)
    requires id in c.calls
    ensures KeptCalls(c.calls, SwitchHold(c, id, onHold).calls)
    ensures SwitchHold(c, id, onHold).calls.Keys == c.calls.Keys
  {
    hide Emit;
  }

  lemma ControlKept(c: Core, active: string, held: string, onHold: bool)
    ensures KeptCalls(c.calls, SetMute(c, active, onHold).0.calls)
    ensures KeptCalls(c.calls, SetHold(c, active, onHold).0.calls)
    ensures KeptCalls(c.calls, SwapCalls(c, active, held).0.calls)
  {
    MuteKept(c, active, onHold);
    SetHoldKept(c, active, onHold);
    SwapKept(c, active, held);
    hide SetMute, SetHold, SwapCalls, KeptCalls;
  }

  lemma MuteKept(c: Core, id: string, muted: bool)
    ensures KeptCalls(c.calls, SetMute(c, id, muted).0.calls)
  {
    hide Emit;
  }

  lemma SetHoldKept(c: Core, id: string, onHold: bool)
    ensures KeptCalls(c.calls, SetHold(c, id, onHold).0.calls)
  {
    HoldKept(c, id);
    hide Emit, HoldOthers;
  }

  lemma SwapKept(c: Core, active: string, held: string)
    ensures KeptCalls(c.calls, SwapCalls(c, active, held).0.calls)
  {
    if active in c.calls && held in c.calls {
      SwitchKept(c, active, true);
      var c1 := SwitchHold(c, active, true);
      HoldKept(c1, held);
      hide HoldOthers, SwitchHold;
      assert held in c1.calls.Keys && held in HoldOthers(c1, held).calls.Keys;
      SwitchKept(HoldOthers(c1, held), held, false);
    }
  }

  // ----- Sections -----

  predicate Grows(c: Core, c': Core) {
    && c.ids <= c'.ids && c.marks <= c'.marks
    && (forall k :: k in c.left ==> k in c'.left)
    && (forall id :: id in c.calls ==>
          || c.calls[id].source in c'.left
          || (id in c'.calls && c'.calls[id].source == c.calls[id].source && c'.calls[id].route == c.calls[id].route))
  }

  lemma KeptGrows(c: Core, c': Core)
    requires KeptCalls(c.calls, c'.calls) && c'.left == c.left && c.ids <= c'.ids && c.marks <= c'.marks
    ensures Grows(c, c')
  {
  }

  lemma SameGrows(c: Core, c': Core)
    requires c'.calls == c.calls && c'.left == c.left && c.ids <= c'.ids && c.marks <= c'.marks
    ensures Grows(c, c')
  {
  }

  lemma ReserveGrows(c: Core, id: string, hasToken: bool)
    ensures Grows(c, ReserveOutgoing(c, id, hasToken).0)
  {
    hide Grows, UsedFlag, MarkUsed, ClearFlag, OutgoingId, Emit, InfoOf, LiveCount;
    SameGrows(c, ReserveOutgoing(c, id, hasToken).0);
  }

  lemma RingingGrows(c: Core, id: string)
    ensures Grows(c, TakeRinging(c, id).0) && Grows(c, MarkDialing(c, id))
  {
    hide Grows;
    SameGrows(c, TakeRinging(c, id).0);
    SameGrows(c, MarkDialing(c, id));
  }

  lemma SayGrows(c: Core, k: nat, info: CallInfo, route: Route)
    ensures Grows(c, Say(c, k, info)) && Grows(c, SetCell(c, k, route)) && Grows(c, c)
  {
    hide Grows, Emit;
    SameGrows(c, Say(c, k, info));
    SameGrows(c, SetCell(c, k, route));
    SameGrows(c, c);
  }

  lemma DialedGrows(c: Core, id: string, k: nat, answer: Answer)
    requires c.calls.Keys !! c.ringing.Keys
    ensures Grows(c, ConnectDialed(c, id, k, answer).0)
  {
    if id in c.ringing {
      assert id in c.ringing.Keys && id !in c.calls.Keys;
      DialedConnects(c, id, k, answer);
      KeptGrows(c, ConnectDialed(c, id, k, answer).0);
    } else {
      SameGrows(c, c);
    }
    hide HoldOthers, Grows, KeptCalls, Emit, InfoOf;
  }

  lemma HangupGrows(c: Core, id: string)
    ensures Grows(c, TakeForHangup(c, id).0) && Grows(c, TakeCall(c, id).0)
  {
    hide MarkUsed, UsedFlag, OutgoingId;
  }

  lemma WatchGrows(c: Core, t: string, route: Route, abandoned: bool, seen: Seen)
    ensures Grows(c, WatchIncoming(c, t, route, abandoned))
    ensures Grows(c, TakeOffered(c, t).0) && Grows(c, WatchStatus(c, t, seen).0)
  {
    hide Grows, Emit, AsEnded, InfoOf, IncomingId;
    SameGrows(c, WatchIncoming(c, t, route, abandoned));
    SameGrows(c, TakeOffered(c, t).0);
    SameGrows(c, WatchStatus(c, t, seen).0);
  }

  lemma SlotGrows(c: Core, t: string)
    ensures Grows(c, ReserveAccept(c, t).0) && Grows(c, ReleaseAccept(c, t))
    ensures Grows(c, BeginAccept(c, t).0) && Grows(c, RefuseAccept(c, t))
  {
    hide Grows, LiveCount, IncomingId;
    SameGrows(c, ReserveAccept(c, t).0);
    SameGrows(c, ReleaseAccept(c, t));
    SameGrows(c, BeginAccept(c, t).0);
    SameGrows(c, RefuseAccept(c, t));
  }

  // ----- Steps -----

  lemma DialGrows(w: World, step: DialStep)
    requires CanDial(w, step) && w.core.calls.Keys !! w.core.ringing.Keys
    ensures Grows(w.core, DoDial(w, step).core)
  {
    hide Grows, Outgoing.Do, ConnectDialed, ReserveOutgoing, TakeRinging, MarkDialing, SetCell, Say, AsEnded, InfoOf;
    var c := w.core;
    match step
    case Reserve(id, hasToken, _, _) => ReserveGrows(c, id, hasToken);
    case Tries(k, r) => SayGrows(c, k, AsEnded(InfoOf(c.ids[k], Ringing), Cancelled), r);
    case MediaFails(k) => RingingGrows(c, c.ids[k]);
    case MarksDialing(k) => RingingGrows(c, c.ids[k]);
    case Joins(k) => RingingGrows(c, c.ids[k]); SameGrows(c, c);
    case Connects(k) => DialedGrows(c, c.ids[k], k, w.attempts[k].dial.answer);
    case ReportsCancelled(k) => SayGrows(c, k, AsEnded(InfoOf(c.ids[k], Ringing), Cancelled), Route(""));
    case Acts(_, _) => SameGrows(c, c);
  }

  lemma EndGrows(w: World, step: EndStep)
    requires CanEnd(w, step)
    ensures Grows(w.core, DoEnd(w, step).core)
  {
    hide Grows, Outgoing.Do, Outgoing.Can, TakeForHangup, TakeCall, Say;
    var c := w.core;
    SameGrows(c, c);
    match step
    case HangsUp(id) => HangupGrows(c, id);
    case Removes(id, _, _) => HangupGrows(c, id);
    case PaysDebt(k, _) => SayGrows(c, k, w.debts[k].info, Route(""));
  }

  lemma ControlGrows(w: World, step: ControlStep)
    ensures Grows(w.core, DoControl(w, step).core)
  {
    hide Grows, KeptCalls, SetMute, SetHold, SwapCalls;
    ControlOnlyCalls(w, step);
    match step {
      case Mutes(id, muted) => ControlKept(w.core, id, id, muted);
      case Holds(id, onHold) => ControlKept(w.core, id, id, onHold);
      case Swaps(active, held) => ControlKept(w.core, active, held, true);
    }
    KeptGrows(w.core, DoControl(w, step).core);
  }

  lemma OfferGrows(w: World, step: OfferStep)
    requires CanOffer(w, step)
    ensures Grows(w.core, DoOffer(w, step).core)
  {
    hide Grows, WatchIncoming, TakeOffered, WatchStatus, Say;
    var c := w.core;
    SameGrows(c, c);
    match step
    case Offers(t, route) => WatchGrows(c, t, route, false, SawOther);
    case Rejects(t) => WatchGrows(c, t, Route(""), false, SawOther);
    case ReportsRejected(k) => SayGrows(c, k, AsEnded(InfoOf(c.ids[k], Ended), Rejected), Route(""));
    case Watches(t, seen) => WatchGrows(c, t, Route(""), false, seen);
  }

  lemma AcceptGrows(w: World, step: AcceptStep)
    requires CanAccept(w, step) && (step.AcceptConnects? ==> IncomingId(step.token) !in w.core.calls)
    ensures Grows(w.core, DoAccept(w, step).core)
  {
    hide Grows, KeptCalls, Say;
    hide ReserveAccept, BeginAccept, RefuseAccept, ReleaseAccept, WatchIncoming, TakeOffered, ConnectAccepted;
    var c := w.core;
    SameGrows(c, c);
    SlotGrows(c, step.token);
    match step
    case AcceptUnknown(t, route) => WatchGrows(c, t, route, true, SawOther);
    case AcceptReportsFailed(t) =>
      SayGrows(c, w.accepts[t].source, AsEnded(InfoOf(IncomingId(t), Connected), Failed), Route(""));
    case AcceptClears(t) => WatchGrows(c, t, Route(""), false, SawOther);
    case AcceptConnects(t, route) =>
      AcceptedConnects(c, t, w.accepts[t].source, route);
      KeptGrows(c, ConnectAccepted(c, t, w.accepts[t].source, route).0);
    case _ =>
  }

  lemma ClearedIsFree(w: World, t: string)
    requires WorldInv(w) && t in w.accepts && w.accepts[t].Cleared?
    ensures IncomingId(t) !in w.core.calls
  {
    hide Inv, Outgoing.AttemptOk, AttemptsOk, PlacesOk, OneDial, DebtsOk, NoneForgotten, RequestsOk, SlotsOk;
    assert AcceptOk(t, w.accepts[t], w.core.pending, w.core.calls, w.core.ids, w.core.left, w.core.log);
  }

  lemma StepGrows(w: World, step: Step)
    requires WorldInv(w) && Can(w, step)
    ensures Grows(w.core, Do(w, step).core)
  {
    hide WorldInv, UsedOk, FlagsOk, OwnIds, Grows, CanDial, CanOffer, CanEnd;
    hide DoDial, DoEnd, DoControl, DoOffer, DoAccept;
    match step
    case Dialling(dial) => WorldCore(w); DialGrows(w, dial);
    case Ending(end) => EndGrows(w, end);
    case Control(control) => ControlGrows(w, control);
    case Offering(offer) => OfferGrows(w, offer);
    case Accepting(accept) =>
      if accept.AcceptConnects? { ClearedIsFree(w, accept.token); }
      AcceptGrows(w, accept);
  }

  lemma GrowsOn(a: Core, b: Core, c: Core)
    requires Grows(a, b) && Grows(b, c)
    ensures Grows(a, c)
  {
  }

  lemma {:induction false} RunGrows(w: World, steps: seq<Step>)
    requires WorldInv(w) && RunFrom(w, steps).Some?
    ensures Grows(w.core, RunFrom(w, steps).value.core)
  {
    hide WorldInv, Do, Can, Grows;
    if steps == [] {
      SameGrows(w.core, w.core);
    } else {
      var earlier := steps[..|steps| - 1];
      RunFromKeeps(w, earlier);
      RunGrows(w, earlier);
      var v := RunFrom(w, earlier).value;
      StepGrows(v, steps[|steps| - 1]);
      GrowsOn(w.core, v.core, RunFrom(w, steps).value.core);
    }
  }
}
