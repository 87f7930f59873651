/** Which calls are hung up at the gateway: of those that were connected here, exactly the ones that a hangup, a
    poll or a transfer took to be hung up. */
module HangUps {
  import opened Types
  import opened Events
  import opened Calls
  import opened CallsInvariant
  import opened World
  import opened WorldInvariant
  import opened Lifecycle
  import opened Frames
  import opened OutgoingSteps
  import opened Projection
  import opened Routes
  import opened Growth
  import Outgoing

  // ----- What the steps order -----

  /** The step takes a connected call that is to be hung up: by the user's hangup, if there is still a token
      when its end is reported, or by a transfer or a poll that says so, in any case. */
  function TakesUp(c: Core, step: Step): set<(nat, bool)> {
    if !step.Ending? then {}
    else
      match step.end
      case HangsUp(id) => if id in c.calls then {(c.calls[id].source, true)} else {}
      case Removes(id, _, hangUp) => if hangUp && id in c.calls then {(c.calls[id].source, false)} else {}
      case PaysDebt(_, _) => {}
  }

  ghost function TakenUp(steps: seq<Step>): set<(nat, bool)>
    requires Run(steps).Some?
  {
    if steps == [] then {}
    else TakenUp(steps[..|steps| - 1]) + TakesUp(Run(steps[..|steps| - 1]).value.core, steps[|steps| - 1])
  }

  /** The step reports the end of a call taken to be hung up, with a token if that needs one. */
  function PaysUp(up: set<(nat, bool)>, step: Step): set<nat> {
    if !step.Ending? || !step.end.PaysDebt? then {}
    else if (step.end.k, false) in up || (step.end.hasToken && (step.end.k, true) in up) then {step.end.k}
    else {}
  }

  /** The calls that were taken to be hung up and reported ended. */
  ghost function Ordered(steps: seq<Step>): set<nat>
    requires Run(steps).Some?
  {
    if steps == [] then {}
    else Ordered(steps[..|steps| - 1]) + PaysUp(TakenUp(steps[..|steps| - 1]), steps[|steps| - 1])
  }

  /** An incoming call turns out to be up at the gateway when it must not be: the accept went through after
      the call had been reported ended, or an abandoned offer was answered here after all. */
  function Strays(w: World, step: Step): set<nat> {
    match step
    case Accepting(AcceptConnects(t, _)) =>
      if t in w.accepts && w.accepts[t].Cleared? && w.accepts[t].source in w.core.log.ended
      then {w.accepts[t].source} else {}
    case Offering(Watches(t, seen)) =>
      if seen.SawActive? && t in w.core.pending && w.core.pending[t].abandoned && !w.core.pending[t].accepting
      then {w.core.pending[t].source} else {}
    case _ => {}
  }

  ghost function Strayed(steps: seq<Step>): set<nat>
    requires Run(steps).Some?
  {
    if steps == [] then {}
    else Strayed(steps[..|steps| - 1]) + Strays(Run(steps[..|steps| - 1]).value, steps[|steps| - 1])
  }

  // ----- How the engine keeps track of it -----

  /** A call taken to be hung up has left the map, and what is owed for it says the same. */
  predicate PlansOk(up: set<(nat, bool)>, left: map<nat, nat>, debts: map<nat, Debt>) {
    && (forall x :: x in up ==> x.0 in left)
    && (forall x :: x in up && x.0 in debts ==> debts[x.0].plan == if x.1 then IfToken else Always)
    && (forall k :: k in debts && !debts[k].plan.NoHangUp? ==> (k, debts[k].plan.IfToken?) in up)
  }

  predicate OrderedLeft(ordered: set<nat>, left: map<nat, nat>) {
    forall k :: k in ordered ==> k in left
  }

  /** An outgoing call that was connected was hung up exactly if that was ordered. */
  predicate OutgoingOk(attempts: Attempts, ordered: set<nat>) {
    forall k :: k in attempts && attempts[k].dial == Outgoing.Returned(true) ==>
      (attempts[k].hangUps != [] <==> k in ordered)
  }

  ghost predicate IncomingOk(attempts: Attempts, hangUps: multiset<nat>, ordered: set<nat>, strayed: set<nat>) {
    forall k: nat :: k !in attempts ==> (k in hangUps <==> k in ordered + strayed)
  }

  // ----- Plans -----

  /** A call in a map has not been taken before, nor has one that is still to be made. */
  ghost predicate NotLeft(c: Core) {
    && (forall id :: id in c.calls ==> c.calls[id].source !in c.left)
    && (forall id :: id in c.ringing ==> c.ringing[id].source !in c.left)
    && |c.ids| !in c.left
  }

  lemma LiveIsNotLeft(w: World)
    requires WorldInv(w)
    ensures NotLeft(w.core)
  {
    NextIsUnborn(w.core);
    hide Outgoing.AttemptOk, AttemptsOk, PlacesOk, OneDial, DebtsOk, NoneForgotten, AcceptsOk, RequestsOk, SlotsOk;
    hide LogOk, OfferedOk, OrderOk, AtMostOneOffHold, Agrees, Told, HistoryOk, OneFront, UsedOk;
  }

  /** A new debt that plans no hang-up, of a call that was not taken before. */
  lemma PlanNothing(up: set<(nat, bool)>, left: map<nat, nat>, debts: map<nat, Debt>, k: nat, info: CallInfo)
    requires PlansOk(up, left, debts) && k !in left
    ensures PlansOk(up, left, debts[k := Debt(info, NoHangUp)])
  {
  }

  /** A connected call is taken. */
  lemma PlanTaken(up: set<(nat, bool)>, left: map<nat, nat>, debts: map<nat, Debt>, k: nat, n: nat, debt: Debt)
    requires PlansOk(up, left, debts) && k !in left
    ensures PlansOk(up + if debt.plan.NoHangUp? then {} else {(k, debt.plan.IfToken?)}, left[k := n], debts[k := debt])
  {
  }

  lemma PlanPaid(up: set<(nat, bool)>, left: map<nat, nat>, debts: map<nat, Debt>, k: nat)
    requires PlansOk(up, left, debts)
    ensures PlansOk(up, left, debts - {k})
  {
  }

  lemma FailPlans(w: World, j: nat, act: Outgoing.Act, up: set<(nat, bool)>)
    requires CanAct(w, j, act) && NotLeft(w.core) && PlansOk(up, w.core.left, w.debts)
    ensures PlansOk(up, FailDial(w, j, act).core.left, FailDial(w, j, act).debts)
  {
    hide PlansOk, Outgoing.Do, Outgoing.Can, AsEnded;
    var id := w.core.ids[j];
    if id in w.core.ringing {
      PlanNothing(up, w.core.left, w.debts, w.core.ringing[id].source, AsEnded(w.core.ringing[id].info, Failed));
    }
  }

  lemma DialPlans(w: World, step: DialStep, up: set<(nat, bool)>)
    requires CanDial(w, step) && NotLeft(w.core) && PlansOk(up, w.core.left, w.debts)
    ensures PlansOk(up, DoDial(w, step).core.left, DoDial(w, step).debts)
  {
    hide PlansOk, NotLeft, Outgoing.Do, FailDial, ReserveOutgoing, ConnectDialed, MarkDialing, Say, AsEnded, InfoOf;
    var c := w.core;
    match step
    case Reserve(id, hasToken, _, _) => ReserveLeft(c, id, hasToken);
    case MediaFails(j) => FailPlans(w, j, Outgoing.MediaFails, up);
    case Joins(j) => if w.attempts[j].request.answer.None? { FailPlans(w, j, Outgoing.JoinsRequest, up); }
    case MarksDialing(j) => MarkLeft(c, c.ids[j]);
    case Connects(j) => ConnectLeft(c, c.ids[j], j, w.attempts[j].dial.answer);
    case ReportsCancelled(j) => SayLeft(c, j, AsEnded(InfoOf(c.ids[j], Ringing), Cancelled));
    case _ =>
  }

  lemma ReserveLeft(c: Core, id: string, hasToken: bool)
    ensures ReserveOutgoing(c, id, hasToken).0.left == c.left
  {
    hide UsedFlag, MarkUsed, ClearFlag, OutgoingId, Emit, InfoOf, LiveCount;
  }

  lemma MarkLeft(c: Core, id: string)
    ensures MarkDialing(c, id).left == c.left
  {
  }

  lemma SayLeft(c: Core, k: nat, info: CallInfo)
    ensures Say(c, k, info).left == c.left
  {
  }

  lemma ConnectLeft(c: Core, id: string, k: nat, answer: Answer)
    ensures ConnectDialed(c, id, k, answer).0.left == c.left
  {
    HoldOnlyCalls(c.(ringing := c.ringing - {id}), id);
    hide HoldOthers, Emit, InfoOf;
  }

  lemma OwePlans(w: World, id: string, reason: EndReason, plan: HangUpPlan, up: set<(nat, bool)>)
    requires id in w.core.calls && NotLeft(w.core) && PlansOk(up, w.core.left, w.debts)
    ensures var w' := Owe(w, RemoveCall(w.core, id), w.core.calls[id], reason, plan);
            var taken := if plan.NoHangUp? then {} else {(w.core.calls[id].source, plan.IfToken?)};
            PlansOk(up + taken, w'.core.left, w'.debts)
  {
    var call := w.core.calls[id];
    PlanTaken(up, w.core.left, w.debts, call.source, |w.core.log.queue|, Debt(AsEnded(call.info, reason), plan));
    hide PlansOk, NotLeft, Outgoing.Do, Outgoing.Can;
  }

  lemma EndPlans(w: World, step: EndStep, up: set<(nat, bool)>)
    requires CanEnd(w, step) && NotLeft(w.core) && PlansOk(up, w.core.left, w.debts)
    ensures PlansOk(up + TakesUp(w.core, Ending(step)), DoEnd(w, step).core.left, DoEnd(w, step).debts)
  {
    hide PlansOk, Owe, RemoveCall, Outgoing.Do, Outgoing.Can, Say, AsEnded, InfoOf, Mark, UsedFlag, OutgoingId;
    var c := w.core;
    assert up + {} == up;
    match step
    case HangsUp(id) =>
      if id in c.calls { OwePlans(w, id, LocalHangup, IfToken, up); }
      else { NewPlans(w, id, up); }
    case Removes(id, reason, hangUp) =>
      if id in c.calls { OwePlans(w, id, reason, if hangUp then Always else NoHangUp, up); }
    case PaysDebt(k, _) => SayLeft(c, k, w.debts[k].info); PlanPaid(up, c.left, w.debts, k);
  }

  lemma NewPlans(w: World, id: string, up: set<(nat, bool)>)
    requires id !in w.core.calls && NotLeft(w.core) && PlansOk(up, w.core.left, w.debts)
    ensures PlansOk(up, DoEnd(w, HangsUp(id)).core.left, DoEnd(w, HangsUp(id)).debts)
  {
    hide PlansOk, Outgoing.Do, Outgoing.Can, AsEnded, InfoOf, MarkUsed, UsedFlag, OutgoingId;
    PlanNothing(up, w.core.left, w.debts, |w.core.ids|, AsEnded(InfoOf(id, Ended), Cancelled));
  }

  lemma OfferPlans(w: World, step: OfferStep)
    requires CanOffer(w, step)
    ensures DoOffer(w, step).core.left == w.core.left && DoOffer(w, step).debts == w.debts
  {
    hide Say, WatchIncoming, TakeOffered, WatchStatus, AsEnded, InfoOf;
    var c := w.core;
    match step
    case Offers(t, route) => WatchLeft(c, t, route, SawOther);
    case Rejects(t) => WatchLeft(c, t, Route(""), SawOther);
    case ReportsRejected(k) => SayLeft(c, k, AsEnded(InfoOf(c.ids[k], Ended), Rejected));
    case Watches(t, seen) => WatchLeft(c, t, Route(""), seen);
  }

  lemma WatchLeft(c: Core, t: string, route: Route, seen: Seen)
    ensures WatchIncoming(c, t, route, false).left == c.left && TakeOffered(c, t).0.left == c.left
    ensures WatchStatus(c, t, seen).0.left == c.left
  {
    hide Emit, AsEnded, InfoOf, IncomingId;
  }

  lemma AcceptPlans(w: World, step: AcceptStep)
    requires CanAccept(w, step)
    ensures DoAccept(w, step).core.left == w.core.left && DoAccept(w, step).debts == w.debts
  {
    hide ConnectAccepted, Emit, AsEnded, InfoOf, IncomingId, LiveCount;
    if step.AcceptConnects? { AcceptLeft(w.core, step.token, w.accepts[step.token].source, step.route); }
  }

  lemma AcceptLeft(c: Core, t: string, source: nat, route: Route)
    ensures ConnectAccepted(c, t, source, route).0.left == c.left
  {
    HoldOnlyCalls(ReleaseAccept(c, t), IncomingId(t));
    hide HoldOthers, Emit, InfoOf, IncomingId;
  }

  lemma StepPlans(w: World, step: Step, up: set<(nat, bool)>)
    requires WorldInv(w) && Can(w, step) && PlansOk(up, w.core.left, w.debts)
    ensures PlansOk(up + TakesUp(w.core, step), Do(w, step).core.left, Do(w, step).debts)
  {
    hide WorldInv, PlansOk, NotLeft, DoDial, DoEnd, DoControl, DoOffer, DoAccept, CanDial, CanEnd, CanOffer, CanAccept;
    LiveIsNotLeft(w);
    assert up + {} == up;
    match step
    case Dialling(dial) => DialPlans(w, dial, up);
    case Ending(end) => EndPlans(w, end, up);
    case Control(control) => ControlDoes(w, control); ControlOnlyCalls(w, control);
    case Offering(offer) => OfferPlans(w, offer);
    case Accepting(accept) => AcceptPlans(w, accept);
  }

  // ----- Outgoing calls -----

  lemma ActHangsUp(a: Outgoing.Attempt, act: Outgoing.Act)
    requires Outgoing.AttemptOk(a) && Outgoing.Can(a, act) && Outgoing.Do(a, act).dial == Outgoing.Returned(true)
    ensures var b := Outgoing.Do(a, act);
            if act.IsClosed? then
              a.hangUps == [] && a.dial == Outgoing.Returned(true) && (b.hangUps != [] <==> act.hangUp)
            else || (a.dial == Outgoing.Returned(true) && b.hangUps == a.hangUps)
                 || (a.place.InRinging? && b.hangUps == [])
  {
  }

  /** The call's end is reported by the step, and with it the attempt is closed. */
  predicate Closes(w: World, step: Step, k: nat) {
    step.Ending? && step.end.PaysDebt? && step.end.k == k && k in w.debts
  }

  function WithHangUp(w: World, step: Step, k: nat): bool
    requires Closes(w, step, k)
  {
    w.debts[k].plan.Always? || (w.debts[k].plan.IfToken? && step.end.hasToken)
  }

  lemma WhoCloses(w: World, step: Step, k: nat)
    requires Can(w, step) && k in w.attempts && k < |w.core.ids|
    requires k in w.debts ==> w.attempts[k].place.Leaving?
    ensures if Closes(w, step, k) then ActOf(w, step, k) == Some(Outgoing.IsClosed(WithHangUp(w, step, k)))
            else ActOf(w, step, k).None? || !ActOf(w, step, k).value.IsClosed?
  {
    hide TakeForHangup, Outgoing.Do;
  }

  /** The attempt of a call agrees with the maps. */
  lemma AttemptFits(w: World, k: nat)
    requires WorldInv(w) && k in w.attempts
    ensures k < |w.core.ids| && Outgoing.AttemptOk(w.attempts[k])
    ensures k in w.debts <==> w.attempts[k].place.Leaving?
    ensures w.attempts[k].place.InRinging? ==> Rings(w.core.ringing, w.core.ids, k)
  {
    hide Inv, Outgoing.AttemptOk, OneDial, NoneForgotten, AcceptsOk, RequestsOk, SlotsOk;
  }

  /** What is paid is what was planned. */
  lemma PaysPlan(w: World, step: Step, k: nat, up: set<(nat, bool)>)
    requires Can(w, step) && PlansOk(up, w.core.left, w.debts)
    ensures k in PaysUp(up, step) <==> Closes(w, step, k) && WithHangUp(w, step, k)
  {
    if Closes(w, step, k) {
      assert (k, true) in up ==> w.debts[(k, true).0].plan.IfToken?;
      assert (k, false) in up ==> w.debts[(k, false).0].plan.Always?;
    }
  }

  lemma OutgoingNext(w: World, step: Step, k: nat, up: set<(nat, bool)>, ordered: set<nat>)
    requires WorldInv(w) && Can(w, step) && PlansOk(up, w.core.left, w.debts) && OrderedLeft(ordered, w.core.left)
    requires k in w.attempts
    requires w.attempts[k].dial == Outgoing.Returned(true) ==> (w.attempts[k].hangUps != [] <==> k in ordered)
    ensures k in Do(w, step).attempts
    ensures var a := Do(w, step).attempts[k];
            a.dial == Outgoing.Returned(true) ==> (a.hangUps != [] <==> k in ordered + PaysUp(up, step))
  {
    hide WorldInv, PlansOk, Do, Can, ActOf, Outgoing.AttemptOk, Outgoing.Do, Outgoing.Can, NotLeft, PaysUp, WithHangUp;
    AttemptFits(w, k);
    WhoCloses(w, step, k);
    StepDoes(w, step, k);
    PaysPlan(w, step, k, up);
    LiveIsNotLeft(w);
    if w.attempts[k].place.InRinging? { RingingNotLeft(w.core, k); }
    if ActOf(w, step, k).Some? && Do(w, step).attempts[k].dial == Outgoing.Returned(true) {
      ActHangsUp(w.attempts[k], ActOf(w, step, k).value);
    }
  }

  lemma RingingNotLeft(c: Core, k: nat)
    requires NotLeft(c) && Rings(c.ringing, c.ids, k)
    ensures k !in c.left
  {
  }

  lemma StepOutgoing(w: World, step: Step, up: set<(nat, bool)>, ordered: set<nat>)
    requires WorldInv(w) && Can(w, step) && PlansOk(up, w.core.left, w.debts) && OrderedLeft(ordered, w.core.left)
    requires OutgoingOk(w.attempts, ordered)
    ensures OutgoingOk(Do(w, step).attempts, ordered + PaysUp(up, step))
  {
    hide WorldInv, PlansOk, OrderedLeft, Do, Can, ActOf, PaysUp, Outgoing.Do, Outgoing.Can;
    forall k | k in Do(w, step).attempts && Do(w, step).attempts[k].dial == Outgoing.Returned(true)
      ensures Do(w, step).attempts[k].hangUps != [] <==> k in ordered + PaysUp(up, step)
    {
      StepDoes(w, step, k);
      OutgoingNext(w, step, k, up, ordered);
    }
  }

  // ----- Incoming calls -----

  lemma IncomingNext(w: World, step: Step, k: nat, up: set<(nat, bool)>)
    requires Can(w, step) && PlansOk(up, w.core.left, w.debts) && k !in w.attempts
    requires forall j :: j in w.attempts && j in w.debts ==> CanAct(w, j, Outgoing.IsClosed(true))
    ensures k in Do(w, step).hangUps <==> k in w.hangUps || k in PaysUp(up, step) || k in Strays(w, step)
  {
    PaysPlan(w, step, k, up);
    hide PlansOk, PaysUp, DoDial, DoControl;
    match step
    case Dialling(dial) => DialKeepsHangUps(w, dial);
    case Ending(end) => EndHangsUp(w, end, k);
    case Control(control) => ControlDoes(w, control);
    case Offering(offer) => OfferHangsUp(w, offer, k);
    case Accepting(accept) => AcceptHangsUp(w, accept, k);
  }

  lemma DialKeepsHangUps(w: World, step: DialStep)
    requires CanDial(w, step)
    ensures DoDial(w, step).hangUps == w.hangUps
  {
    hide Outgoing.Do, ReserveOutgoing, ConnectDialed, MarkDialing, SetCell, TakeRinging, Say, PinFor, NotRunning;
  }

  lemma EndHangsUp(w: World, step: EndStep, k: nat)
    requires CanEnd(w, step) && k !in w.attempts
    requires forall j :: j in w.attempts && j in w.debts ==> CanAct(w, j, Outgoing.IsClosed(true))
    ensures k in DoEnd(w, step).hangUps <==>
              k in w.hangUps || (Closes(w, Ending(step), k) && WithHangUp(w, Ending(step), k))
  {
    hide Outgoing.Do, TakeForHangup, TakeCall, Say, AsEnded, InfoOf;
  }

  lemma OfferHangsUp(w: World, step: OfferStep, k: nat)
    requires CanOffer(w, step)
    ensures k in DoOffer(w, step).hangUps <==> k in w.hangUps || k in Strays(w, Offering(step))
  {
    hide Say, WatchIncoming, TakeOffered, AsEnded, InfoOf;
  }

  lemma AcceptHangsUp(w: World, step: AcceptStep, k: nat)
    requires CanAccept(w, step)
    ensures k in DoAccept(w, step).hangUps <==> k in w.hangUps || k in Strays(w, Accepting(step))
  {
    hide ReserveAccept, BeginAccept, RefuseAccept, ReleaseAccept, WatchIncoming, TakeOffered, Say, HoldOthers;
    hide InfoOf, AsEnded;
  }

  lemma StepIncoming(w: World, step: Step, up: set<(nat, bool)>, ordered: set<nat>, strayed: set<nat>)
    requires WorldInv(w) && Can(w, step) && PlansOk(up, w.core.left, w.debts)
    requires IncomingOk(w.attempts, w.hangUps, ordered, strayed)
    ensures var w' := Do(w, step);
            IncomingOk(w'.attempts, w'.hangUps, ordered + PaysUp(up, step), strayed + Strays(w, step))
  {
    hide WorldInv, PlansOk, Do, Can, ActOf, PaysUp, Strays, Outgoing.Do, Outgoing.AttemptOk;
    forall j | j in w.attempts && j in w.debts ensures CanAct(w, j, Outgoing.IsClosed(true)) { AttemptFits(w, j); }
    forall k: nat | k !in Do(w, step).attempts
      ensures k in Do(w, step).hangUps <==> k in ordered + PaysUp(up, step) + (strayed + Strays(w, step))
    {
      StepDoes(w, step, k);
      IncomingNext(w, step, k, up);
    }
  }

  // ----- Runs -----

  /** The engine's plans and hang-ups are those that the steps so far ordered. */
  ghost predicate Tracked(w: World, up: set<(nat, bool)>, ordered: set<nat>, strayed: set<nat>) {
    && PlansOk(up, w.core.left, w.debts) && OrderedLeft(ordered, w.core.left)
    && OutgoingOk(w.attempts, ordered) && IncomingOk(w.attempts, w.hangUps, ordered, strayed)
  }

  lemma StepOrdered(w: World, step: Step, up: set<(nat, bool)>, ordered: set<nat>)
    requires WorldInv(w) && Can(w, step) && PlansOk(up, w.core.left, w.debts) && OrderedLeft(ordered, w.core.left)
    ensures OrderedLeft(ordered + PaysUp(up, step), Do(w, step).core.left)
  {
    hide WorldInv, Can, Do;
    StepGrows(w, step);
    forall k | k in PaysUp(up, step) ensures k in w.core.left {
      assert (k, false).0 in w.core.left || (k, true).0 in w.core.left;
    }
  }

  lemma {:induction false} RunTracked(steps: seq<Step>)
    requires Run(steps).Some?
    ensures Tracked(Run(steps).value, TakenUp(steps), Ordered(steps), Strayed(steps))
  {
    hide WorldInv, Do, Can, PlansOk, OrderedLeft, OutgoingOk, IncomingOk, TakesUp, PaysUp, Strays;
    if steps == [] {
      NothingTracked();
    } else {
      var n := |steps| - 1;
      var earlier, step := steps[..n], steps[n];
      var up, ordered := TakenUp(earlier), Ordered(earlier);
      RunKeeps(earlier);
      RunTracked(earlier);
      var w := Run(earlier).value;
      StepPlans(w, step, up);
      StepOrdered(w, step, up, ordered);
      StepOutgoing(w, step, up, ordered);
      StepIncoming(w, step, up, ordered, Strayed(earlier));
    }
  }

  lemma NothingTracked()
    ensures Tracked(START, {}, {}, {})
  {
  }

  /** In every run: an outgoing call that was connected here is hung up at the gateway, on the route and with the
      token of its answer, exactly if it was taken to be hung up, by a hangup that found a token or by
      someone who said so, and its end was reported. */
  lemma HungUpIffOrdered(steps: seq<Step>, k: nat)
    requires Run(steps).Some? && k in Run(steps).value.attempts
    requires Run(steps).value.attempts[k].dial == Outgoing.Returned(true)
    ensures var a := Run(steps).value.attempts[k];
            && a.request.Done? && a.request.answer.Some?
            && a.hangUps == if k in Ordered(steps) then [a.request.answer.value] else []
  {
    hide WorldInv, Run, PlansOk, OrderedLeft, IncomingOk;
    RunKeeps(steps);
    RunTracked(steps);
    AttemptFits(Run(steps).value, k);
    var a := Run(steps).value.attempts[k];
    Outgoing.NeverBoth(a);
    assert a.hangUps != [] ==> a.hangUps[0] in a.hangUps && a.hangUps == [a.hangUps[0]];
  }

  /** In every run: an incoming call is hung up once exactly if it was taken to be hung up and its end was
      reported, or its accept went through too late, or it was answered here after it was abandoned. */
  lemma IncomingHungUpIff(steps: seq<Step>, k: nat)
    requires Run(steps).Some? && k !in Run(steps).value.attempts
    ensures Run(steps).value.hangUps[k] == if k in Ordered(steps) + Strayed(steps) then 1 else 0
  {
    hide WorldInv, Run, PlansOk, OrderedLeft, OutgoingOk;
    RunKeeps(steps);
    RunTracked(steps);
    AtMostOnce(Run(steps).value, k);
  }

  lemma AtMostOnce(w: World, k: nat)
    requires WorldInv(w)
    ensures w.hangUps[k] <= 1
  {
    hide Inv, Outgoing.AttemptOk, AttemptsOk, PlacesOk, OneDial, DebtsOk, NoneForgotten, AcceptsOk, SlotsOk;
  }
}
