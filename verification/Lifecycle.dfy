/** What holds in every reachable state, and over every run. */
module Lifecycle {
  import opened Types
  import opened Events
  import opened Calls
  import opened CallsInvariant
  import opened Sections
  import opened World
  import opened WorldInvariant
  import opened Frames
  import opened OutgoingSteps
  import opened CallSteps
  import opened IncomingSteps
  import Outgoing

  lemma DialStepKeeps(w: World, step: DialStep)
    requires WorldInv(w) && CanDial(w, step)
    ensures WorldInv(DoDial(w, step))
  {
    hide WorldInv, Outgoing.Do, Outgoing.AttemptOk;
    match step
    case Reserve(id, hasToken, _, pin) =>
      if ReserveOutgoing(w.core, id, hasToken).1.Ok? {
        ReserveOkKeeps(w, id, hasToken);
        PinsAreHistory(w.(core := ReserveOutgoing(w.core, id, hasToken).0,
                          attempts := w.attempts[ReserveOutgoing(w.core, id, hasToken).1.value := Outgoing.FRESH]),
                       DoDial(w, step).pins);
      } else { ReserveRefusedKeeps(w, id, hasToken); }
    case Tries(k, route) => TriesKeeps(w, k, route);
    case MediaFails(k) => FailDialKeeps(w, k, Outgoing.MediaFails);
    case MarksDialing(k) => MarksDialingKeeps(w, k);
    case Joins(k) =>
      if w.attempts[k].request.answer.Some? { PrivateKeeps(w, k, Outgoing.JoinsRequest); }
      else { FailDialKeeps(w, k, Outgoing.JoinsRequest); }
    case Connects(k) => ConnectsKeeps(w, k);
    case ReportsCancelled(k) => ReportsCancelledKeeps(w, k);
    case Acts(k, act) => PrivateKeeps(w, k, act);
  }

  lemma PinsAreHistory(w: World, pins': map<nat, Route>)
    requires WorldInv(w)
    ensures WorldInv(w.(pins := pins'))
  {
    hide Inv, Outgoing.AttemptOk, AttemptsOk, PlacesOk, OneDial, DebtsOk, NoneForgotten, AcceptsOk, RequestsOk, SlotsOk;
  }

  lemma TriesKeeps(w: World, k: nat, route: Route)
    requires WorldInv(w) && k < |w.core.ids|
    ensures WorldInv(w.(core := SetCell(w.core, k, route)))
  {
    hide Inv, Outgoing.AttemptOk, AttemptsOk, PlacesOk, OneDial, DebtsOk, NoneForgotten, AcceptsOk, RequestsOk, SlotsOk;
    SetCellKeeps(w.core, k, route);
  }

  lemma EndStepKeeps(w: World, step: EndStep)
    requires WorldInv(w) && CanEnd(w, step)
    ensures WorldInv(DoEnd(w, step))
  {
    hide WorldInv, Outgoing.Do, Outgoing.AttemptOk;
    match step
    case HangsUp(id) =>
      if id in w.core.calls { OweKeeps(w, id, LocalHangup, IfToken); }
      else if id in w.core.ringing { IsTakenKeeps(w, id); }
      else if OutgoingId(id) && UsedFlag(w.core.used, id).None? { NotYetMadeKeeps(w, id); }
    case Removes(id, reason, hangUp) =>
      if id in w.core.calls { OweKeeps(w, id, reason, if hangUp then Always else NoHangUp); }
    case PaysDebt(k, hasToken) =>
      if k in w.attempts { PaysOutgoingKeeps(w, k, HangsUpToo(w.debts[k], hasToken)); }
      else { PaysIncomingKeeps(w, k, hasToken); }
  }

  lemma ControlStepKeeps(w: World, step: ControlStep)
    requires WorldInv(w)
    ensures WorldInv(DoControl(w, step))
  {
    hide WorldInv;
    match step
    case Mutes(id, muted) => if id in w.core.calls { MutesKeeps(w, id, muted); }
    case Holds(id, onHold) => if id in w.core.calls { HoldsKeeps(w, id, onHold); }
    case Swaps(active, held) =>
      if active != held && active in w.core.calls && held in w.core.calls { SwapsKeeps(w, active, held); }
  }

  lemma OfferStepKeeps(w: World, step: OfferStep)
    requires WorldInv(w) && CanOffer(w, step)
    ensures WorldInv(DoOffer(w, step))
  {
    hide WorldInv;
    match step
    case Offers(t, route) => OffersKeeps(w, t, route);
    case Rejects(t) => if t in w.core.pending { RejectsKeeps(w, t); }
    case ReportsRejected(k) => ReportsRejectedKeeps(w, k);
    case Watches(t, seen) =>
      if t in w.core.pending {
        var e := w.core.pending[t];
        if !seen.SawOther? { WatchGoneKeeps(w, t, seen); }
        else if e.abandoned && !e.rejected { WatchOtherKeeps(w, t); }
      }
  }

  lemma AcceptStepKeeps(w: World, step: AcceptStep)
    requires WorldInv(w) && CanAccept(w, step)
    ensures WorldInv(DoAccept(w, step))
  {
    hide WorldInv;
    match step
    case AcceptReserves(t) => if ReserveAccept(w.core, t).1 { AcceptReservesKeeps(w, t); }
    case AcceptFailsEarly(t) => AcceptFailsEarlyKeeps(w, t);
    case AcceptBegins(t) => AcceptBeginsKeeps(w, t);
    case AcceptRefused(t) => AcceptRefusedKeeps(w, t);
    case AcceptUnknown(t, route) => AcceptUnknownKeeps(w, t, route);
    case AcceptReportsFailed(t) => AcceptReportsFailedKeeps(w, t);
    case AcceptClears(t) => AcceptClearsKeeps(w, t);
    case AcceptConnects(t, route) =>
      if w.accepts[t].source in w.core.log.ended { AcceptMissesKeeps(w, t); } else { AcceptJoins(w, t, route); }
    case AcceptReturns(t) => AcceptReturnsKeeps(w, t);
  }

  lemma StepKeeps(w: World, step: Step)
    requires WorldInv(w) && Can(w, step)
    ensures WorldInv(Do(w, step))
  {
    hide WorldInv;
    match step
    case Dialling(dial) => DialStepKeeps(w, dial);
    case Ending(end) => EndStepKeeps(w, end);
    case Control(control) => ControlStepKeeps(w, control);
    case Offering(offer) => OfferStepKeeps(w, offer);
    case Accepting(accept) => AcceptStepKeeps(w, accept);
  }

  /** What the invariant says of the engine's own state. */
  lemma WorldCore(w: World)
    requires WorldInv(w)
    ensures UsedOk(w.core.used, w.core.marks, w.core.ids) && FlagsOk(w.core.log)
    ensures OwnIds(w.core.calls, w.core.ringing, w.core.ids) && w.core.calls.Keys !! w.core.ringing.Keys
    ensures forall k :: k in w.core.cells ==> k < |w.core.ids|
  {
    Owned(w.core);
    hide Outgoing.AttemptOk, AttemptsOk, PlacesOk, OneDial, DebtsOk, NoneForgotten, AcceptsOk, RequestsOk, SlotsOk;
    hide UsedOk, FlagsOk, OwnIds, StoriesOk;
  }

  lemma {:induction false} RunFromKeeps(w: World, steps: seq<Step>)
    requires WorldInv(w)
    ensures RunFrom(w, steps).Some? ==> WorldInv(RunFrom(w, steps).value)
  {
    hide WorldInv, Do, Can;
    if steps != [] {
      var before := RunFrom(w, steps[..|steps| - 1]);
      RunFromKeeps(w, steps[..|steps| - 1]);
      if before.Some? && Can(before.value, steps[|steps| - 1]) { StepKeeps(before.value, steps[|steps| - 1]); }
    }
  }

  lemma RunKeeps(steps: seq<Step>)
    ensures Run(steps).Some? ==> WorldInv(Run(steps).value)
  {
    hide WorldInv;
    StartOk();
    RunFromKeeps(START, steps);
  }

  /** A run is its first part, and then the rest. */
  lemma {:induction false} RunSplit(w: World, a: seq<Step>, b: seq<Step>)
    requires RunFrom(w, a + b).Some?
    ensures RunFrom(w, a).Some? && RunFrom(RunFrom(w, a).value, b) == RunFrom(w, a + b)
  {
    hide Do, Can;
    if b == [] {
      assert a + b == a;
    } else {
      assert (a + b)[..|a + b| - 1] == a + b[..|b| - 1];
      RunSplit(w, a, b[..|b| - 1]);
    }
  }

  /** One step of a run. */
  lemma RunOne(steps: seq<Step>, step: Step)
    requires Run(steps).Some?
    ensures Run(steps + [step]) == if Can(Run(steps).value, step) then Some(Do(Run(steps).value, step)) else None
  {
    hide Do, Can;
    assert (steps + [step])[..|steps|] == steps;
  }

  lemma Extend(steps: seq<Step>, step: Step)
    requires Run(steps).Some? && Can(Run(steps).value, step)
    ensures Run(steps + [step]) == Some(Do(Run(steps).value, step))
  {
    RunOne(steps, step);
  }

  lemma First(step: Step)
    requires Can(START, step)
    ensures Run([step]) == Some(Do(START, step))
  {
    hide Do, Can;
    assert Run([]) == Some(START);
    Extend([], step);
    assert [] + [step] == [step];
  }
}
