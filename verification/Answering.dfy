/** An offered call, the user's accept of it and the watch of the offer: what the watch does while the accept is
    under way, after it was refused, and when the accept connects. */
module Answering {
  import opened Types
  import opened Events
  import opened Calls
  import opened CallsInvariant
  import opened World
  import opened WorldInvariant
  import opened Lifecycle
  import opened Frames
  import opened OutgoingSteps
  import opened Projection
  import opened Routes
  import opened Growth
  import opened Abandoned
  import opened SharedIds
  import opened Takers
  import opened Instances
  import Guarantees
  import Outgoing

  // ----- An offer is marked as being accepted exactly while its accept is with the gateway -----

  /** A marked offer is being accepted. */
  predicate MarkedOk(pending: map<string, Offered>, accepts: map<string, Accept>) {
    forall t :: t in pending && pending[t].accepting ==> t in accepts && accepts[t] == Sending(pending[t].source)
  }

  lemma EndKeepsAccepts(w: World, step: EndStep)
    requires CanEnd(w, step)
    ensures DoEnd(w, step).accepts == w.accepts
  {
    hide Outgoing.Do, Outgoing.Can, Say, AsEnded, InfoOf, TakeForHangup, TakeCall;
  }

  lemma WatchMarks(c: Core, t: string, seen: Seen, accepts: map<string, Accept>)
    requires MarkedOk(c.pending, accepts)
    ensures MarkedOk(WatchStatus(c, t, seen).0.pending, accepts) && MarkedOk(TakeOffered(c, t).0.pending, accepts)
  {
    hide Emit, AsEnded;
  }

  lemma OfferMarks(w: World, step: OfferStep)
    requires CanOffer(w, step) && MarkedOk(w.core.pending, w.accepts)
    ensures MarkedOk(DoOffer(w, step).core.pending, DoOffer(w, step).accepts)
  {
    hide Emit, AsEnded, InfoOf, IncomingId;
    match step
    case Offers(_, _) =>
    case Rejects(t) => WatchMarks(w.core, t, SawOther, w.accepts);
    case ReportsRejected(_) =>
    case Watches(t, seen) => WatchMarks(w.core, t, seen, w.accepts);
  }

  lemma AcceptMarks(w: World, step: AcceptStep)
    requires CanAccept(w, step) && MarkedOk(w.core.pending, w.accepts)
    ensures MarkedOk(DoAccept(w, step).core.pending, DoAccept(w, step).accepts)
  {
    hide ConnectAccepted, Say, AsEnded, InfoOf, IncomingId, LiveCount;
    if step.AcceptConnects? { ConnectKeepsOffers(w.core, step.token, w.accepts[step.token].source, step.route); }
    else if step.AcceptReportsFailed? {
      SayKeepsOffers(w.core, w.accepts[step.token].source, AsEnded(InfoOf(IncomingId(step.token), Connected), Failed));
    }
  }

  lemma SayKeepsOffers(c: Core, k: nat, info: CallInfo)
    ensures Say(c, k, info).pending == c.pending
  {
  }

  lemma ConnectKeepsOffers(c: Core, t: string, source: nat, route: Route)
    ensures ConnectAccepted(c, t, source, route).0.pending == c.pending
  {
    HoldOnlyCalls(ReleaseAccept(c, t), IncomingId(t));
    hide HoldOthers, Emit, InfoOf, IncomingId;
  }

  lemma StepMarks(w: World, step: Step)
    requires Can(w, step) && MarkedOk(w.core.pending, w.accepts)
    ensures MarkedOk(Do(w, step).core.pending, Do(w, step).accepts)
  {
    hide MarkedOk, DoDial, DoEnd, DoControl, DoOffer, DoAccept, CanDial, CanEnd, CanOffer, CanAccept, DialTakes;
    match step
    case Dialling(dial) => DialPending(w, dial); DialDebts(w, dial);
    case Ending(end) => EndPending(w, end); EndKeepsAccepts(w, end);
    case Control(control) => ControlDoes(w, control); ControlOnlyCalls(w, control);
    case Offering(offer) => OfferMarks(w, offer);
    case Accepting(accept) => AcceptMarks(w, accept);
  }

  lemma {:induction false} RunMarks(steps: seq<Step>)
    requires Run(steps).Some?
    ensures MarkedOk(Run(steps).value.core.pending, Run(steps).value.accepts)
  {
    hide Do, Can, MarkedOk;
    if steps == [] {
      NoneMarked();
    } else {
      RunMarks(steps[..|steps| - 1]);
      StepMarks(Run(steps[..|steps| - 1]).value, steps[|steps| - 1]);
    }
  }

  lemma NoneMarked()
    ensures MarkedOk(START.core.pending, START.accepts)
  {
  }

  lemma SendingIsMarked(w: World, t: string)
    requires WorldInv(w) && t in w.accepts && t in w.core.pending && w.accepts[t] == Sending(w.core.pending[t].source)
    ensures w.core.pending[t].accepting
  {
    hide Inv, Outgoing.AttemptOk, AttemptsOk, PlacesOk, OneDial, DebtsOk, NoneForgotten, RequestsOk, SlotsOk;
    assert AcceptOk(t, w.accepts[t], w.core.pending, w.core.calls, w.core.ids, w.core.left, w.core.log);
  }

  /** In every run: an offer is marked as being accepted exactly while an accept with its `CallEvents` is with
      the gateway. */
  lemma MarkedIffSending(steps: seq<Step>, t: string)
    requires Run(steps).Some? && t in Run(steps).value.core.pending
    ensures var w := Run(steps).value;
            w.core.pending[t].accepting <==> t in w.accepts && w.accepts[t] == Sending(w.core.pending[t].source)
  {
    hide WorldInv, Run;
    RunMarks(steps);
    RunKeeps(steps);
    var w := Run(steps).value;
    if t in w.accepts && w.accepts[t] == Sending(w.core.pending[t].source) { SendingIsMarked(w, t); }
  }

  // ----- What the watch reports -----

  /** In every run: when the watch sees that an offered call that was not reported ended was answered, it reports
      `AnsweredElsewhere` exactly if the call is not abandoned and no accept of it is with the gateway. It reports
      nothing otherwise. */
  lemma AnsweredElsewhereIff(steps: seq<Step>, t: string)
    requires Run(steps).Some? && t in Run(steps).value.core.pending
    requires Run(steps).value.core.pending[t].source !in Run(steps).value.core.log.ended
    ensures var w, w' := Run(steps).value, Run(steps + [Offering(Watches(t, SawActive))]);
            var k := w.core.pending[t].source;
            && w'.Some? && t !in w'.value.core.pending
            && (if w.core.pending[t].abandoned || (t in w.accepts && w.accepts[t] == Sending(k)) then
                  w'.value.core.log == w.core.log
                else
                  && w'.value.core.log.queue[..|w.core.log.queue|] == w.core.log.queue
                  && |w'.value.core.log.queue| == |w.core.log.queue| + 1
                  && EndsFor(w'.value.core.log, k, AnsweredElsewhere))
  {
    MarkedIffSending(steps, t);
    RunOne(steps, Offering(Watches(t, SawActive)));
    hide Run, IncomingId;
    var w := Run(steps).value;
    var e := w.core.pending[t];
    if !e.abandoned && !e.accepting {
      QueueOne(w.core.log.queue, Queued(e.source, Reported(AsEnded(e.info, AnsweredElsewhere))), e.source);
    }
  }

  /** The last thing reported of the call is that it ended, for the reason. */
  predicate EndsFor(log: EventLog, k: nat, reason: EndReason) {
    && k in log.ended && Last(log.queue, k).Some?
    && Last(log.queue, k).value.state.Ended? && Last(log.queue, k).value.endReason == Some(reason)
  }

  // ----- After a refused accept -----

  predicate IsSending(accepts: map<string, Accept>, t: string) {
    t in accepts && accepts[t].Sending?
  }

  lemma StepSends(w: World, step: Step, t: string)
    requires Can(w, step) && step != Accepting(AcceptBegins(t))
    ensures IsSending(Do(w, step).accepts, t) ==> IsSending(w.accepts, t)
  {
    hide DoDial, DoEnd, DoControl, CanDial, CanEnd, DialTakes, ConnectAccepted, LiveCount, Say, WatchStatus;
    match step
    case Dialling(dial) => DialDebts(w, dial);
    case Ending(end) => EndKeepsAccepts(w, end);
    case Control(control) => ControlDoes(w, control);
    case Offering(_) =>
    case Accepting(_) =>
  }

  lemma {:induction false} NotSentAgain(w: World, more: seq<Step>, t: string)
    requires RunFrom(w, more).Some? && !IsSending(w.accepts, t) && Accepting(AcceptBegins(t)) !in more
    ensures !IsSending(RunFrom(w, more).value.accepts, t)
  {
    hide Do, Can, IsSending;
    if more != [] {
      var n := |more| - 1;
      assert more[n] in more;
      assert forall x :: x in more[..n] ==> x in more;
      NotSentAgain(w, more[..n], t);
      StepSends(RunFrom(w, more[..n]).value, more[n], t);
    }
  }

  /** A refused call is offered as before. */
  lemma RefusedIsOffered(w: World, t: string)
    requires CanAccept(w, AcceptRefused(t))
    ensures var w' := DoAccept(w, AcceptRefused(t));
            && !IsSending(w'.accepts, t) && w'.core.pending.Keys == w.core.pending.Keys && w'.core.log == w.core.log
            && forall u :: u in w.core.pending ==>
                 && w'.core.pending[u].source == w.core.pending[u].source
                 && w'.core.pending[u].abandoned == w.core.pending[u].abandoned
  {
  }

  /** The gateway refuses an accept. Whatever follows, as long as the call is not accepted again: if it is still
      offered, not abandoned and not reported ended, and its watch then sees that it was answered, the
      application is told so. */
  lemma RefusedIsWatched(steps: seq<Step>, t: string, more: seq<Step>)
    requires Run(steps).Some? && Can(Run(steps).value, Accepting(AcceptRefused(t)))
    requires Run(steps + [Accepting(AcceptRefused(t))] + more).Some? && Accepting(AcceptBegins(t)) !in more
    requires var w := Run(steps + [Accepting(AcceptRefused(t))] + more).value;
             t in w.core.pending && !w.core.pending[t].abandoned && w.core.pending[t].source !in w.core.log.ended
    ensures var all := steps + [Accepting(AcceptRefused(t))] + more;
            var seen := Run(all + [Offering(Watches(t, SawActive))]);
            seen.Some? && EndsFor(seen.value.core.log, Run(all).value.core.pending[t].source, AnsweredElsewhere)
  {
    hide RunFrom, EndsFor, IncomingId;
    var x := Accepting(AcceptRefused(t));
    RunSplit(START, steps + [x], more);
    RunOne(steps, x);
    RefusedIsOffered(Run(steps).value, t);
    NotSentAgain(Run(steps + [x]).value, more, t);
    AnsweredElsewhereIff(steps + [x] + more, t);
  }

  // ----- When an accept comes too late -----

  /** Step `n` takes the offered call away from its accept: the user rejects it; its watch sees that it is gone, or
      that it was answered while nobody accepts it here; or an earlier accept of it had an unknown outcome. */
  ghost predicate TakesOffer(steps: seq<Step>, n: nat, t: string, k: nat) {
    && n < |steps| && Run(steps[..n]).Some?
    && var w := Run(steps[..n]).value;
       match steps[n]
       case Offering(Rejects(u)) => u == t && t in w.core.pending && w.core.pending[t].source == k
       case Offering(Watches(u, seen)) =>
         && u == t && t in w.core.pending && w.core.pending[t].source == k && !w.core.pending[t].abandoned
         && (seen.SawGone? || (seen.SawActive? && !w.core.pending[t].accepting))
       case Accepting(AcceptUnknown(u, _)) => u == t && t in w.accepts && w.accepts[t] == Sending(k)
       case _ => false
  }

  /** Whoever takes a call that is neither outgoing nor was connected takes an offer of the call's own token. */
  lemma TakerKinds(w: World, step: Step, x: Taking)
    requires WorldInv(w) && Can(w, step) && Takes(w, step) == Some(x)
    ensures step.Offering? ==>
              && (step.offer.Rejects? || step.offer.Watches?) && step.offer.token in w.core.pending
              && w.core.pending[step.offer.token].source == x.call
              && x.call < |w.core.ids| && w.core.ids[x.call] == IncomingId(step.offer.token)
    ensures step.Accepting? ==>
              && step.accept.AcceptUnknown?
              && x.call < |w.core.ids| && w.core.ids[x.call] == IncomingId(step.accept.token)
    ensures !step.Offering? && !step.Accepting? ==>
              var c' := Do(w, step).core;
              x.call in c'.left || (x.call < |c'.ids| && DirectionOf(c'.ids[x.call]).Outbound?)
  {
    hide WorldInv, IncomingId, DirectionOf;
    match step
    case Offering(offer) => OfferIsOwn(w, offer.token); hide Do;
    case Accepting(accept) => SendingIsOwn(w, accept.token); hide Do;
    case Ending(end) => RingingIsOutbound(w); EndTakesOther(w, end); hide Do;
    case Dialling(dial) => RingingIsOutbound(w); StepGrows(w, step); hide Do, CanDial;
    case Control(_) => hide Do;
  }

  lemma OfferIsOwn(w: World, t: string)
    requires WorldInv(w)
    ensures t in w.core.pending ==>
              w.core.pending[t].source < |w.core.ids| && w.core.ids[w.core.pending[t].source] == IncomingId(t)
  {
    hide Outgoing.AttemptOk, AttemptsOk, PlacesOk, OneDial, DebtsOk, NoneForgotten, AcceptsOk, RequestsOk, SlotsOk;
    hide LogOk, CallsOk, RingingOk, OrderOk, AtMostOneOffHold, Agrees, Told, HistoryOk, OneFront, UsedOk, IncomingId;
  }

  lemma SendingIsOwn(w: World, t: string)
    requires WorldInv(w) && t in w.accepts && (w.accepts[t].Sending? || w.accepts[t].Cleared?)
    ensures var k := w.accepts[t].source; k < |w.core.ids| && w.core.ids[k] == IncomingId(t) && k !in w.core.left
  {
    hide Inv, Outgoing.AttemptOk, AttemptsOk, PlacesOk, OneDial, DebtsOk, NoneForgotten, RequestsOk, SlotsOk;
    assert AcceptOk(t, w.accepts[t], w.core.pending, w.core.calls, w.core.ids, w.core.left, w.core.log);
  }

  lemma RingingIsOutbound(w: World)
    requires WorldInv(w)
    ensures forall id :: id in w.core.ringing ==>
              && w.core.ringing[id].source < |w.core.ids|
              && DirectionOf(w.core.ids[w.core.ringing[id].source]).Outbound?
  {
    hide Outgoing.AttemptOk, AttemptsOk, PlacesOk, OneDial, DebtsOk, NoneForgotten, AcceptsOk, RequestsOk, SlotsOk;
    hide LogOk, CallsOk, OfferedOk, OrderOk, AtMostOneOffHold, Agrees, Told, HistoryOk, OneFront, UsedOk, DirectionOf;
  }

  lemma EndTakesOther(w: World, step: EndStep)
    requires CanEnd(w, step) && EndTakes(w.core, step).Some?
    requires forall id :: id in w.core.ringing ==>
               && w.core.ringing[id].source < |w.core.ids|
               && DirectionOf(w.core.ids[w.core.ringing[id].source]).Outbound?
    ensures var k, c' := EndTakes(w.core, step).value.call, DoEnd(w, step).core;
            k in c'.left || (k < |c'.ids| && DirectionOf(c'.ids[k]).Outbound?)
  {
    hide Outgoing.Do, Outgoing.Can, AsEnded, InfoOf, MarkUsed, UsedFlag, OutgoingId, DirectionOf;
    if step.HangsUp? && OutgoingId(step.id) { OutgoingIds(step.id); }
  }

  /** What step `n` did is still so later. */
  lemma LaterThan(steps: seq<Step>, n: nat)
    requires Run(steps).Some? && n < |steps| && Run(steps[..n]).Some?
    ensures Can(Run(steps[..n]).value, steps[n])
    ensures Grows(Run(steps[..n]).value.core, Run(steps).value.core)
    ensures Grows(Do(Run(steps[..n]).value, steps[n]).core, Run(steps).value.core)
  {
    hide RunFrom, Grows, Can, Do;
    var rest := steps[n + 1..];
    assert steps == steps[..n] + [steps[n]] + rest && steps == steps[..n] + steps[n..];
    RunSplit(START, steps[..n] + [steps[n]], rest);
    RunOne(steps[..n], steps[n]);
    LaterGrows(steps[..n] + [steps[n]], rest);
    LaterGrows(steps[..n], steps[n..]);
  }

  /** In every run: an accept that is about to connect finds its call reported ended only if the offer was taken
      away from it. */
  lemma LateOnlyIfTaken(steps: seq<Step>, t: string) returns (n: nat)
    requires Run(steps).Some? && t in Run(steps).value.accepts && Run(steps).value.accepts[t].Cleared?
    requires Run(steps).value.accepts[t].source in Run(steps).value.core.log.ended
    ensures TakesOffer(steps, n, t, Run(steps).value.accepts[t].source)
  {
    hide WorldInv, Run, TookAt, OwnIds, UsedOk, IncomingId, DirectionOf, Grows;
    var w := Run(steps).value;
    var k := w.accepts[t].source;
    RunKeeps(steps);
    WorldCore(w);
    SendingIsOwn(w, t);
    assert Last(w.core.log.queue, k).Some?;
    var i := LastIsQueued(w.core.log.queue, k);
    EndedForReason(steps, i);
    var reason := w.core.log.queue[i].info.endReason.value;
    n :| TookAt(steps, n, Taking(k, reason));
    TakenFromOffer(steps, n, t, Taking(k, reason));
  }

  lemma TakenFromOffer(steps: seq<Step>, n: nat, t: string, x: Taking)
    requires Run(steps).Some? && TookAt(steps, n, x)
    requires var c := Run(steps).value.core; x.call < |c.ids| && c.ids[x.call] == IncomingId(t) && x.call !in c.left
    ensures TakesOffer(steps, n, t, x.call)
  {
    hide WorldInv, Run, Takes, IncomingId, DirectionOf, Do, Can;
    var w := Run(steps[..n]).value;
    RunKeeps(steps[..n]);
    LaterThan(steps, n);
    TakerKinds(w, steps[n], x);
    IncomingIds(t, t);
    if steps[n].Offering? {
      IncomingIds(steps[n].offer.token, t);
      OfferTaken(w, steps[n].offer, x);
    } else if steps[n].Accepting? {
      IncomingIds(steps[n].accept.token, t);
      AcceptTaken(w, steps[n].accept, x);
    }
  }

  lemma OfferTaken(w: World, step: OfferStep, x: Taking)
    requires Can(w, Offering(step)) && Takes(w, Offering(step)) == Some(x)
    ensures match step
            case Rejects(u) => u in w.core.pending && w.core.pending[u].source == x.call
            case Watches(u, seen) =>
              && u in w.core.pending && w.core.pending[u].source == x.call && !w.core.pending[u].abandoned
              && (seen.SawGone? || (seen.SawActive? && !w.core.pending[u].accepting))
            case _ => false
  {
  }

  lemma AcceptTaken(w: World, step: AcceptStep, x: Taking)
    requires Can(w, Accepting(step)) && Takes(w, Accepting(step)) == Some(x)
    ensures step.AcceptUnknown? && step.token in w.accepts && w.accepts[step.token] == Sending(x.call)
  {
  }

  /** The call is up, under its token and on its route, and the application was just told so. */
  predicate UpAs(c: Core, t: string, k: nat, route: Route) {
    && IncomingId(t) in c.calls && c.calls[IncomingId(t)].source == k
    && c.calls[IncomingId(t)].token == t && c.calls[IncomingId(t)].route == route
    && c.calls[IncomingId(t)].info.state.Connected? && !c.calls[IncomingId(t)].mediaHeld
    && Last(c.log.queue, k).Some? && Last(c.log.queue, k).value.state.Connected? && k !in c.log.ended
  }

  lemma ConnectsUp(c: Core, t: string, k: nat, route: Route)
    requires k !in c.log.ended && FlagsOk(c.log)
    requires forall id :: id in c.calls ==> c.calls[id].source != k
    ensures UpAs(ConnectAccepted(c, t, k, route).0, t, k, route)
  {
    hide IncomingId;
    var c1, id := ReleaseAccept(c, t), IncomingId(t);
    var c2 := HoldOthers(c1, id);
    HoldsOther(c1, id, k);
    QueueOne(c2.log.queue, Queued(k, Reported(InfoOf(id, Connected))), k);
    hide HoldOthers, FlagsOk;
  }

  lemma HoldsOther(c: Core, keep: string, k: nat)
    requires forall id :: id in c.calls ==> c.calls[id].source != k
    ensures k in HoldOthers(c, keep).log.ended <==> k in c.log.ended
  {
    HoldTells(c, keep);
    hide HoldOthers;
  }

  /** In every run, an accept that the gateway granted connects its call, unless the call was reported ended, which
      happens only if the offer was taken away from it. In that case nothing is connected or reported, and
      the call is hung up at the gateway, once. */
  lemma AcceptConnectsUnlessTaken(steps: seq<Step>, t: string, route: Route)
    requires Run(steps).Some? && t in Run(steps).value.accepts && Run(steps).value.accepts[t].Cleared?
    ensures var w, w' := Run(steps).value, Run(steps + [Accepting(AcceptConnects(t, route))]);
            var k := w.accepts[t].source;
            && w'.Some? && w'.value.accepts[t] == Closing(false)
            && (if k in w.core.log.ended then
                  && w'.value.core.calls == w.core.calls && w'.value.core.log == w.core.log
                  && w.hangUps[k] == 0 && w'.value.hangUps[k] == 1
                  && exists n: nat :: TakesOffer(steps, n, t, k)
                else UpAs(w'.value.core, t, k, route) && w'.value.hangUps == w.hangUps)
  {
    hide WorldInv, Run, UpAs, TakesOffer, OwnIds, UsedOk, FlagsOk, HoldOthers, IncomingId;
    var w, step := Run(steps).value, Accepting(AcceptConnects(t, route));
    var k := w.accepts[t].source;
    RunKeeps(steps);
    RunOne(steps, step);
    WorldCore(w);
    if k in w.core.log.ended {
      var n := LateOnlyIfTaken(steps, t);
      RunKeeps(steps + [step]);
      NotHungUpTwice(w, Do(w, step), k);
    } else {
      Guarantees.ClearedIsNotConnected(w, t);
      ConnectsUp(w.core, t, k, route);
    }
  }

  lemma NotHungUpTwice(w: World, w': World, k: nat)
    requires WorldInv(w) && WorldInv(w') && w'.hangUps == w.hangUps + multiset{k}
    ensures w.hangUps[k] == 0 && w'.hangUps[k] == 1
  {
    hide Inv, Outgoing.AttemptOk, AttemptsOk, PlacesOk, OneDial, DebtsOk, NoneForgotten, AcceptsOk, SlotsOk;
  }
}
