/** What a run of the engine does to one outgoing attempt: the lock-grained engine refines the automaton of
    the attempt, so what holds of every sequence of acts holds of every run. */
module Projection {
  import opened Types
  import opened Events
  import opened Calls
  import opened CallsInvariant
  import opened World
  import opened WorldInvariant
  import opened Lifecycle
  import Outgoing

  /** What the step does to attempt `k`. */
  ghost function ActOf(w: World, step: Step, k: nat): Option<Outgoing.Act> {
    match step
    case Dialling(dial) => DialAct(dial, k)
    case Ending(end) => EndAct(w, end, k)
    case _ => None
  }

  function DialAct(step: DialStep, k: nat): Option<Outgoing.Act> {
    if step.Reserve? || step.Tries? || step.k != k then None
    else
      match step
      case MediaFails(_) => Some(Outgoing.MediaFails)
      case MarksDialing(_) => Some(Outgoing.MarksDialing)
      case Joins(_) => Some(Outgoing.JoinsRequest)
      case Connects(_) => Some(Outgoing.Connects)
      case ReportsCancelled(_) => Some(Outgoing.ReportsEnded)
      case Acts(_, act) => Some(act)
  }

  function EndAct(w: World, step: EndStep, k: nat): Option<Outgoing.Act> {
    match step
    case HangsUp(id) =>
      (match TakeForHangup(w.core, id).1
       case TakenActive(call) => If(w, call.source, Outgoing.IsRemoved, k)
       case TakenRinging(p) => If(w, p.source, Outgoing.IsTaken, k)
       case _ => None)
    case Removes(id, _, _) => if id in w.core.calls then If(w, w.core.calls[id].source, Outgoing.IsRemoved, k) else None
    case PaysDebt(j, hasToken) =>
      if j in w.debts then
        If(w, j, Outgoing.IsClosed(w.debts[j].plan.Always? || (w.debts[j].plan.IfToken? && hasToken)), k)
      else None
  }

  function If(w: World, j: nat, act: Outgoing.Act, k: nat): Option<Outgoing.Act> {
    if j == k && CanAct(w, j, act) then Some(act) else None
  }

  /** From one map of attempts to the next, attempt `k` does `act`, or nothing, or is new. */
  predicate Does(attempts: Attempts, attempts': Attempts, k: nat, act: Option<Outgoing.Act>) {
    if k in attempts then
      && k in attempts'
      && if act.Some? then Outgoing.Can(attempts[k], act.value) && attempts'[k] == Outgoing.Do(attempts[k], act.value)
         else attempts'[k] == attempts[k]
    else act.None? && (k in attempts' ==> attempts'[k] == Outgoing.FRESH)
  }

  lemma ActDoes(w: World, j: nat, act: Outgoing.Act, k: nat)
    requires CanAct(w, j, act)
    ensures Does(w.attempts, Act(w, j, act).attempts, k, if j == k then Some(act) else None)
  {
    hide Outgoing.Can, Outgoing.Do;
  }

  lemma NothingDone(w: World, k: nat)
    ensures Does(w.attempts, w.attempts, k, None)
  {
    hide Outgoing.Can, Outgoing.Do;
  }

  lemma ReserveDoes(w: World, step: DialStep, k: nat)
    requires CanDial(w, step) && step.Reserve? && |w.core.ids| !in w.attempts
    ensures Does(w.attempts, DoDial(w, step).attempts, k, None)
  {
    hide Outgoing.Can, Outgoing.Do, UsedFlag, MarkUsed, ClearFlag, OutgoingId, Emit, InfoOf, LiveCount, NotRunning,
         PinFor;
  }

  lemma DialDoes(w: World, step: DialStep, k: nat)
    requires CanDial(w, step) && |w.core.ids| !in w.attempts
    ensures Does(w.attempts, DoDial(w, step).attempts, k, DialAct(step, k))
  {
    hide Does, Outgoing.Do, TakeRinging, MarkDialing, ConnectDialed, SetCell, Say, AsEnded, InfoOf;
    NothingDone(w, k);
    match step
    case Reserve(_, _, _, _) => ReserveDoes(w, step, k); hide ReserveOutgoing, CanDial, DoDial;
    case Tries(_, _) =>
    case MediaFails(j) => ActDoes(w, j, Outgoing.MediaFails, k);
    case MarksDialing(j) => ActDoes(w, j, Outgoing.MarksDialing, k);
    case Joins(j) => ActDoes(w, j, Outgoing.JoinsRequest, k);
    case Connects(j) => ActDoes(w, j, Outgoing.Connects, k);
    case ReportsCancelled(j) => ActDoes(w, j, Outgoing.ReportsEnded, k);
    case Acts(j, act) => ActDoes(w, j, act, k);
  }

  lemma IfDoes(w: World, j: nat, act: Outgoing.Act, k: nat)
    ensures Does(w.attempts, (if CanAct(w, j, act) then Act(w, j, act) else w).attempts, k, If(w, j, act, k))
  {
    NothingDone(w, k);
    if CanAct(w, j, act) { ActDoes(w, j, act, k); }
    hide Does, Outgoing.Can, Outgoing.Do;
  }

  lemma EndDoes(w: World, step: EndStep, k: nat)
    requires CanEnd(w, step)
    ensures Does(w.attempts, DoEnd(w, step).attempts, k, EndAct(w, step, k))
  {
    hide Does, If, CanAct, Outgoing.Can, Outgoing.Do, Say, AsEnded, InfoOf, Mark, UsedFlag, OutgoingId, RemoveCall;
    NothingDone(w, k);
    var c := w.core;
    match step
    case HangsUp(id) =>
      if id in c.calls { IfDoes(w, c.calls[id].source, Outgoing.IsRemoved, k); }
      else if id in c.ringing { IfDoes(w, c.ringing[id].source, Outgoing.IsTaken, k); }
    case Removes(id, _, _) => if id in c.calls { IfDoes(w, c.calls[id].source, Outgoing.IsRemoved, k); }
    case PaysDebt(j, hasToken) =>
      IfDoes(w, j, Outgoing.IsClosed(w.debts[j].plan.Always? || (w.debts[j].plan.IfToken? && hasToken)), k);
  }

  lemma NextIsFree(w: World)
    requires WorldInv(w)
    ensures |w.core.ids| !in w.attempts
  {
    hide Inv, Outgoing.AttemptOk, PlacesOk, OneDial, DebtsOk, NoneForgotten, AcceptsOk, RequestsOk, SlotsOk;
  }

  /** Every step of the engine is one act of an attempt, at most, or makes it. */
  lemma StepDoes(w: World, step: Step, k: nat)
    requires WorldInv(w) && Can(w, step)
    ensures Does(w.attempts, Do(w, step).attempts, k, ActOf(w, step, k))
  {
    NextIsFree(w);
    NothingDone(w, k);
    hide WorldInv, Does, DoDial, DoEnd, CanDial, CanEnd, CanOffer;
    match step
    case Dialling(dial) => DialDoes(w, dial, k);
    case Ending(end) => EndDoes(w, end, k);
    case Control(control) => ControlDoes(w, control);
    case Offering(offer) => OfferDoes(w, offer);
    case Accepting(accept) => AcceptDoes(w, accept);
  }

  lemma ControlDoes(w: World, step: ControlStep)
    ensures DoControl(w, step) == w.(core := DoControl(w, step).core)
  {
    hide SetMute, SetHold, SwapCalls;
  }

  lemma OfferDoes(w: World, step: OfferStep)
    requires CanOffer(w, step)
    ensures DoOffer(w, step).attempts == w.attempts
  {
    hide WatchIncoming, TakeOffered, WatchStatus, Say, AsEnded, InfoOf;
  }

  lemma AcceptDoes(w: World, step: AcceptStep)
    requires CanAccept(w, step)
    ensures DoAccept(w, step).attempts == w.attempts
  {
    hide ReserveAccept, BeginAccept, RefuseAccept, ReleaseAccept, WatchIncoming, TakeOffered, ConnectAccepted, Say;
    hide AsEnded, InfoOf, IncomingId;
  }

  // ----- Runs -----

  /** An act of the attempt, and the number of the step that it is part of. */
  datatype Acting = Acting(step: nat, act: Outgoing.Act)

  /** The acts of attempt `k` in a run. */
  ghost function ActsOf(steps: seq<Step>, k: nat): seq<Acting> {
    if steps == [] then []
    else
      var n := |steps| - 1;
      var earlier := ActsOf(steps[..n], k);
      if Run(steps[..n]).None? || ActOf(Run(steps[..n]).value, steps[n], k).None? then earlier
      else earlier + [Acting(n, ActOf(Run(steps[..n]).value, steps[n], k).value)]
  }

  function ActsIn(p: seq<Acting>): seq<Outgoing.Act> {
    seq(|p|, i requires 0 <= i < |p| => p[i].act)
  }

  /** In every run, attempt `k` is what its acts make of a fresh one. */
  lemma {:induction false} RunIsActs(steps: seq<Step>, k: nat)
    requires Run(steps).Some?
    ensures k in Run(steps).value.attempts ==>
              Outgoing.DoAll(Outgoing.FRESH, ActsIn(ActsOf(steps, k))) == Some(Run(steps).value.attempts[k])
    ensures k !in Run(steps).value.attempts ==> ActsOf(steps, k) == []
  {
    hide WorldInv, Do, Can, Outgoing.Do, Outgoing.Can, ActOf;
    if steps != [] {
      var n := |steps| - 1;
      var earlier := steps[..n];
      RunKeeps(earlier);
      RunIsActs(earlier, k);
      var w := Run(earlier).value;
      StepDoes(w, steps[n], k);
      var p := ActsOf(earlier, k);
      if ActOf(w, steps[n], k).Some? {
        OneMore(p, Acting(n, ActOf(w, steps[n], k).value));
      }
    }
  }

  lemma OneMore(p: seq<Acting>, x: Acting)
    ensures ActsIn(p + [x]) == ActsIn(p) + [x.act]
    ensures Outgoing.DoAll(Outgoing.FRESH, ActsIn(p + [x])) ==
            match Outgoing.DoAll(Outgoing.FRESH, ActsIn(p))
            case None => None
            case Some(a) => if Outgoing.Can(a, x.act) then Some(Outgoing.Do(a, x.act)) else None
  {
    hide Outgoing.Can, Outgoing.Do;
    assert ActsIn(p + [x]) == ActsIn(p) + [x.act];
    assert (ActsIn(p) + [x.act])[..|p|] == ActsIn(p);
  }

  lemma PrivateActs(w: World, step: Step, k: nat, act: Outgoing.Act)
    requires Private(act)
    ensures ActOf(w, step, k) == Some(act) <==> step == Dialling(Acts(k, act))
  {
    hide TakeForHangup, Outgoing.Can;
  }

  /** The acts that touch nothing but the attempt are steps of their own. */
  lemma {:induction false} PrivateIsStep(steps: seq<Step>, k: nat, act: Outgoing.Act)
    requires Run(steps).Some? && Private(act)
    ensures act in ActsIn(ActsOf(steps, k)) <==> Dialling(Acts(k, act)) in steps
  {
    hide Do, Can, ActOf;
    if steps != [] {
      var n := |steps| - 1;
      var earlier, w := steps[..n], Run(steps[..n]).value;
      PrivateIsStep(earlier, k, act);
      PrivateActs(w, steps[n], k, act);
      assert steps == earlier + [steps[n]];
      var done := ActOf(w, steps[n], k);
      if done.Some? { OneMore(ActsOf(earlier, k), Acting(n, done.value)); }
    }
  }
}
