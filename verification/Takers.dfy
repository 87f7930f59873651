/** Who ended a call, and with which reason: every `Ended` the application gets carries the reason of someone
    who took the call, and everyone who takes a call sees to it that it is reported ended. */
module Takers {
  import opened Types
  import opened Events
  import opened Calls
  import opened CallsInvariant
  import opened World
  import opened WorldInvariant
  import opened Lifecycle
  import opened Frames
  import opened OutgoingSteps
  import opened SharedIds
  import opened Projection
  import Outgoing

  // ----- Taking and reporting -----

  /** Someone makes `call` end, for `reason`. */
  datatype Taking = Taking(call: nat, reason: EndReason)

  /** Whom the step takes, and why. */
  ghost function Takes(w: World, step: Step): Option<Taking>
    requires Can(w, step)
  {
    match step
    case Dialling(dial) => DialTakes(w, dial)
    case Ending(end) => EndTakes(w.core, end)
    case Control(_) => None
    case Offering(offer) => OfferTakes(w.core, offer)
    case Accepting(accept) =>
      if accept.AcceptUnknown? then Some(Taking(w.accepts[accept.token].source, Failed)) else None
  }

  /** A dial that fails takes its call, if it still rings. */
  ghost function DialTakes(w: World, step: DialStep): Option<Taking>
    requires CanDial(w, step)
  {
    if step.MediaFails? || (step.Joins? && w.attempts[step.k].request.answer.None?) then
      var id := w.core.ids[step.k];
      if id in w.core.ringing then Some(Taking(w.core.ringing[id].source, Failed)) else None
    else None
  }

  /** A hangup takes a connected call, a ringing one, or one that is still to be made; a poll or a transfer
      takes a connected call. */
  function EndTakes(c: Core, step: EndStep): Option<Taking> {
    match step
    case HangsUp(id) =>
      if id in c.calls then Some(Taking(c.calls[id].source, LocalHangup))
      else if id in c.ringing then Some(Taking(c.ringing[id].source, Cancelled))
      else if OutgoingId(id) && UsedFlag(c.used, id).None? then Some(Taking(|c.ids|, Cancelled))
      else None
    case Removes(id, reason, _) => if id in c.calls then Some(Taking(c.calls[id].source, reason)) else None
    case PaysDebt(_, _) => None
  }

  /** The user rejects an offer; or its watch sees that it is gone, or that it was answered although nobody
      accepts it here. The watch of an abandoned offer takes nothing. */
  function OfferTakes(c: Core, step: OfferStep): Option<Taking> {
    match step
    case Rejects(t) => if t in c.pending then Some(Taking(c.pending[t].source, Rejected)) else None
    case Watches(t, seen) =>
      if t !in c.pending || c.pending[t].abandoned then None
      else
        (match seen
         case SawGone(reason) => Some(Taking(c.pending[t].source, reason))
         case SawActive => if c.pending[t].accepting then None else Some(Taking(c.pending[t].source, AnsweredElsewhere))
         case SawOther => None)
    case _ => None
  }

  /** Which end the step reports: that of a call taken before, or, by a watch, that of the call it takes. */
  ghost function Announces(w: World, step: Step): Option<Taking>
    requires Can(w, step)
  {
    match step
    case Dialling(dial) => if dial.ReportsCancelled? then Some(Taking(dial.k, Cancelled)) else None
    case Ending(end) =>
      if end.PaysDebt? && w.debts[end.k].info.endReason.Some?
      then Some(Taking(end.k, w.debts[end.k].info.endReason.value)) else None
    case Control(_) => None
    case Offering(offer) =>
      if offer.ReportsRejected? then Some(Taking(offer.k, Rejected))
      else if offer.Watches? then OfferTakes(w.core, offer) else None
    case Accepting(accept) =>
      if accept.AcceptReportsFailed? then Some(Taking(w.accepts[accept.token].source, Failed)) else None
  }

  // ----- The log -----

  /** The queue only grows, its new `Ended`s are of the one call reported, for the reason given, and that
      call is the only one closed. */
  predicate Tells(log: EventLog, log': EventLog, report: Option<Taking>) {
    && log.queue <= log'.queue
    && log'.ended == log.ended + (if report.Some? then {report.value.call} else {})
    && forall i :: |log.queue| <= i < |log'.queue| && log'.queue[i].info.state.Ended? ==>
         report.Some? && log'.queue[i].source == report.value.call
         && log'.queue[i].info.endReason == Some(report.value.reason)
  }

  lemma EndTells(log: EventLog, source: nat, info: CallInfo, reason: EndReason)
    ensures Tells(log, Emit(log, source, AsEnded(info, reason)), Some(Taking(source, reason)))
  {
  }

  lemma DebtTells(log: EventLog, source: nat, info: CallInfo)
    requires info.state.Ended? && info.endReason.Some?
    ensures Tells(log, Emit(log, source, info), Some(Taking(source, info.endReason.value)))
  {
  }

  lemma UpTells(log: EventLog, source: nat, info: CallInfo)
    requires !info.state.Ended?
    ensures Tells(log, Emit(log, source, info), None)
  {
  }

  lemma TellsOn(a: EventLog, b: EventLog, c: EventLog, report: Option<Taking>)
    requires Tells(a, b, None) && Tells(b, c, report)
    ensures Tells(a, c, report)
  {
  }

  lemma HoldTells(c: Core, keep: string)
    ensures Tells(c.log, HoldOthers(c, keep).log, None)
  {
    hide Emit, Tells;
    SameTells(c.log);
    var off := OffHold(c.calls) - {keep};
    forall id | id in off
      ensures Tells(c.log, Say(c, c.calls[id].source, Held(c.calls[id], true).info).log, None)
    {
      UpTells(c.log, c.calls[id].source, Held(c.calls[id], true).info);
    }
  }

  lemma SameTells(log: EventLog)
    ensures Tells(log, log, None)
  {
  }

  lemma SwitchTells(c: Core, id: string, onHold: bool)
    requires id in c.calls
    ensures Tells(c.log, SwitchHold(c, id, onHold).log, None)
  {
    hide Emit, Tells;
    SameTells(c.log);
    UpTells(c.log, c.calls[id].source, Held(c.calls[id], onHold).info);
  }

  lemma SwapTells(c: Core, active: string, held: string)
    ensures Tells(c.log, SwapCalls(c, active, held).0.log, None)
  {
    hide Tells;
    SameTells(c.log);
    if active != held && active in c.calls && held in c.calls {
      var c1 := SwitchHold(c, active, true);
      var c2 := HoldOthers(c1, held);
      assert held in c1.calls.Keys && held in c2.calls.Keys;
      SwitchTells(c, active, true);
      HoldTells(c1, held);
      SwitchTells(c2, held, false);
      hide HoldOthers, SwitchHold;
      TellsOn(c.log, c1.log, c2.log, None);
      TellsOn(c.log, c2.log, SwitchHold(c2, held, false).log, None);
    }
  }

  lemma SetHoldTells(c: Core, id: string, onHold: bool)
    ensures Tells(c.log, SetHold(c, id, onHold).0.log, None)
  {
    hide Tells;
    SameTells(c.log);
    if id in c.calls {
      var c1 := if onHold then c else HoldOthers(c, id);
      assert id in c1.calls.Keys;
      HoldTells(c, id);
      var call := Held(c1.calls[id], onHold);
      UpTells(c1.log, call.source, call.info);
      hide HoldOthers, Emit;
      TellsOn(c.log, c1.log, SetHold(c, id, onHold).0.log, None);
    }
  }

  lemma MuteTells(c: Core, id: string, muted: bool)
    requires id in c.calls ==> !c.calls[id].info.state.Ended?
    ensures Tells(c.log, SetMute(c, id, muted).0.log, None)
  {
    hide Tells, Emit;
    SameTells(c.log);
    if id in c.calls { UpTells(c.log, c.calls[id].source, c.calls[id].info.(muted := muted)); }
  }

  lemma DialedTells(c: Core, id: string, source: nat, answer: Answer)
    ensures Tells(c.log, ConnectDialed(c, id, source, answer).0.log, None)
  {
    hide Tells;
    SameTells(c.log);
    if id in c.ringing {
      var c1 := c.(ringing := c.ringing - {id});
      HoldTells(c1, id);
      UpTells(HoldOthers(c1, id).log, source, InfoOf(id, Connected));
      hide HoldOthers, Emit;
      TellsOn(c.log, HoldOthers(c1, id).log, ConnectDialed(c, id, source, answer).0.log, None);
    }
  }

  lemma AcceptedTells(c: Core, t: string, source: nat, route: Route)
    ensures Tells(c.log, ConnectAccepted(c, t, source, route).0.log, None)
  {
    hide Tells, IncomingId;
    SameTells(c.log);
    if source !in c.log.ended {
      var c1, id := ReleaseAccept(c, t), IncomingId(t);
      HoldTells(c1, id);
      UpTells(HoldOthers(c1, id).log, source, InfoOf(id, Connected));
      hide HoldOthers, Emit;
      TellsOn(c.log, HoldOthers(c1, id).log, ConnectAccepted(c, t, source, route).0.log, None);
    }
  }

  // ----- What each step reports -----

  lemma ReserveTells(c: Core, id: string, hasToken: bool)
    ensures Tells(c.log, ReserveOutgoing(c, id, hasToken).0.log, None)
  {
    hide Tells, Emit, UsedFlag, MarkUsed, ClearFlag, OutgoingId, LiveCount;
    SameTells(c.log);
    UpTells(c.log, |c.ids|, InfoOf(id, Ringing));
  }

  lemma QuietSections(c: Core, id: string, k: nat, route: Route)
    ensures TakeRinging(c, id).0.log == c.log && MarkDialing(c, id).log == c.log && SetCell(c, k, route).log == c.log
    ensures TakeForHangup(c, id).0.log == c.log && TakeCall(c, id).0.log == c.log
  {
    hide MarkUsed, UsedFlag, OutgoingId;
  }

  lemma DialAnnounces(w: World, step: DialStep)
    requires CanDial(w, step)
    ensures Tells(w.core.log, DoDial(w, step).core.log, Announces(w, Dialling(step)))
  {
    hide Tells, Outgoing.Do, ReserveOutgoing, ConnectDialed, TakeRinging, MarkDialing, SetCell, Emit, AsEnded, InfoOf;
    var c := w.core;
    SameTells(c.log);
    match step
    case Reserve(id, hasToken, _, _) => ReserveTells(c, id, hasToken);
    case Tries(k, route) => QuietSections(c, "", k, route);
    case MediaFails(k) => QuietSections(c, c.ids[k], k, Route(""));
    case MarksDialing(k) => QuietSections(c, c.ids[k], k, Route(""));
    case Joins(k) => QuietSections(c, c.ids[k], k, Route(""));
    case Connects(k) => DialedTells(c, c.ids[k], k, w.attempts[k].dial.answer);
    case ReportsCancelled(k) => EndTells(c.log, k, InfoOf(c.ids[k], Ringing), Cancelled);
    case Acts(_, _) =>
  }

  lemma TakesQuietly(w: World, step: EndStep)
    requires CanEnd(w, step) && !step.PaysDebt?
    ensures DoEnd(w, step).core.log == w.core.log
  {
    hide Outgoing.Do, Outgoing.Can, AsEnded, InfoOf, TakeForHangup, TakeCall, CanAct, Act;
    match step
    case HangsUp(id) => QuietSections(w.core, id, 0, Route(""));
    case Removes(id, _, _) => QuietSections(w.core, id, 0, Route(""));
  }

  lemma EndAnnounces(w: World, step: EndStep)
    requires CanEnd(w, step)
    requires step.PaysDebt? ==> w.debts[step.k].info.state.Ended? && w.debts[step.k].info.endReason.Some?
    ensures Tells(w.core.log, DoEnd(w, step).core.log, Announces(w, Ending(step)))
  {
    hide Tells, Outgoing.Do, Outgoing.Can, Emit;
    SameTells(w.core.log);
    if step.PaysDebt? { DebtTells(w.core.log, step.k, w.debts[step.k].info); }
    else { TakesQuietly(w, step); hide DoEnd; }
  }

  lemma ControlAnnounces(w: World, step: ControlStep)
    requires forall id :: id in w.core.calls ==> !w.core.calls[id].info.state.Ended?
    ensures Tells(w.core.log, DoControl(w, step).core.log, None)
  {
    hide Tells, SetMute, SetHold, SwapCalls;
    match step
    case Mutes(id, muted) => MuteTells(w.core, id, muted);
    case Holds(id, onHold) => SetHoldTells(w.core, id, onHold);
    case Swaps(active, held) => SwapTells(w.core, active, held);
  }

  lemma OfferAnnounces(w: World, step: OfferStep)
    requires CanOffer(w, step)
    ensures Tells(w.core.log, DoOffer(w, step).core.log, Announces(w, Offering(step)))
  {
    hide Tells, Emit, AsEnded, IncomingId;
    var c := w.core;
    SameTells(c.log);
    match step
    case ReportsRejected(k) => EndTells(c.log, k, InfoOf(c.ids[k], Ended), Rejected);
    case Watches(t, seen) =>
      if t in c.pending {
        var e := c.pending[t];
        EndTells(c.log, e.source, e.info, if seen.SawGone? then seen.reason else AnsweredElsewhere);
      }
    case _ =>
  }

  lemma AcceptAnnounces(w: World, step: AcceptStep)
    requires CanAccept(w, step)
    ensures Tells(w.core.log, DoAccept(w, step).core.log, Announces(w, Accepting(step)))
  {
    hide Tells, Emit, AsEnded, IncomingId, ConnectAccepted, LiveCount;
    var c := w.core;
    SameTells(c.log);
    match step
    case AcceptReportsFailed(t) => EndTells(c.log, w.accepts[t].source, InfoOf(IncomingId(t), Connected), Failed);
    case AcceptConnects(t, route) => AcceptedTells(c, t, w.accepts[t].source, route);
    case _ =>
  }

  lemma EndsProperly(w: World)
    requires WorldInv(w)
    ensures forall k :: k in w.debts ==> w.debts[k].info.state.Ended? && w.debts[k].info.endReason.Some?
    ensures forall id :: id in w.core.calls ==> !w.core.calls[id].info.state.Ended?
  {
    hide Outgoing.AttemptOk, AttemptsOk, PlacesOk, OneDial, NoneForgotten, AcceptsOk, RequestsOk, SlotsOk;
    hide LogOk, RingingOk, OfferedOk, OrderOk, AtMostOneOffHold, Agrees, Told, HistoryOk, OneFront, UsedOk;
  }

  /** What a step adds to the queue ends one call at most, the one it announces, for the reason announced. */
  lemma StepAnnounces(w: World, step: Step)
    requires WorldInv(w) && Can(w, step)
    ensures Tells(w.core.log, Do(w, step).core.log, Announces(w, step))
  {
    EndsProperly(w);
    hide WorldInv, Tells, DoDial, DoEnd, DoControl, DoOffer, DoAccept;
    match step
    case Dialling(dial) => DialAnnounces(w, dial);
    case Ending(end) => EndAnnounces(w, end);
    case Control(control) => ControlAnnounces(w, control);
    case Offering(offer) => OfferAnnounces(w, offer);
    case Accepting(accept) => AcceptAnnounces(w, accept);
  }

  // ----- Ends that are owed -----

  /** Whoever took the call for that reason has still to report it. */
  predicate Owes(w: World, k: nat, reason: EndReason) {
    || (k in w.debts && w.debts[k].info.endReason == Some(reason))
    || (k in w.rejecting && reason.Rejected?)
    || (k in w.attempts && w.attempts[k].canceller.Took? && reason.Cancelled?)
    || (reason.Failed? && exists t :: t in w.accepts && w.accepts[t] == Forsaking(k))
  }

  /** An end is announced by who takes the call, at once, or owed it. */
  lemma AnnouncedIsOwed(w: World, step: Step)
    requires WorldInv(w) && Can(w, step) && Announces(w, step).Some?
    ensures var x := Announces(w, step).value; Owes(w, x.call, x.reason) || Takes(w, step) == Some(x)
  {
    hide WorldInv, Outgoing.Do, UsedFlag, OutgoingId;
  }

  /** `dial` fails: the debt is its own. */
  lemma FailOwes(w: World, j: nat, act: Outgoing.Act, k: nat, reason: EndReason)
    requires CanAct(w, j, act) && !act.IsTaken? && Owes(FailDial(w, j, act), k, reason)
    ensures Owes(w, k, reason)
            || (w.core.ids[j] in w.core.ringing && w.core.ringing[w.core.ids[j]].source == k && reason.Failed?)
  {
    NotTaken(w.attempts[j], act);
    hide Outgoing.Do, Outgoing.Can;
  }

  lemma NotTaken(a: Outgoing.Attempt, act: Outgoing.Act)
    requires Outgoing.Can(a, act) && !act.IsTaken?
    ensures Outgoing.Do(a, act).canceller.Took? ==> a.canceller.Took?
  {
  }

  lemma ActOwes(w: World, j: nat, act: Outgoing.Act, k: nat, reason: EndReason)
    requires CanAct(w, j, act) && !act.IsTaken? && Owes(Act(w, j, act), k, reason)
    ensures Owes(w, k, reason)
  {
    NotTaken(w.attempts[j], act);
    hide Outgoing.Do, Outgoing.Can;
  }

  lemma SameOwes(w: World, w': World, k: nat, reason: EndReason)
    requires w'.debts == w.debts && w'.rejecting == w.rejecting && w'.attempts == w.attempts && w'.accepts == w.accepts
    ensures Owes(w', k, reason) ==> Owes(w, k, reason)
  {
  }

  lemma DialOwes(w: World, step: DialStep, k: nat, reason: EndReason)
    requires CanDial(w, step) && Owes(DoDial(w, step), k, reason)
    ensures Owes(w, k, reason) || Takes(w, Dialling(step)) == Some(Taking(k, reason))
  {
    hide Owes, Outgoing.Do, ReserveOutgoing, ConnectDialed, MarkDialing, SetCell, Say, AsEnded, InfoOf, FailDial;
    hide PinFor, NotRunning;
    var w' := DoDial(w, step);
    match step
    case Reserve(_, _, _, _) => ReserveOwes(w, step, k, reason);
    case Tries(_, _) => SameOwes(w, w', k, reason);
    case MediaFails(j) => FailOwes(w, j, Outgoing.MediaFails, k, reason);
    case MarksDialing(j) =>
      SameOwes(Act(w, j, Outgoing.MarksDialing), w', k, reason);
      ActOwes(w, j, Outgoing.MarksDialing, k, reason);
    case Joins(j) =>
      if w.attempts[j].request.answer.Some? { ActOwes(w, j, Outgoing.JoinsRequest, k, reason); }
      else { FailOwes(w, j, Outgoing.JoinsRequest, k, reason); }
    case Connects(j) =>
      SameOwes(Act(w, j, Outgoing.Connects), w', k, reason);
      ActOwes(w, j, Outgoing.Connects, k, reason);
    case ReportsCancelled(j) =>
      SameOwes(Act(w, j, Outgoing.ReportsEnded), w', k, reason);
      ActOwes(w, j, Outgoing.ReportsEnded, k, reason);
    case Acts(j, act) => ActOwes(w, j, act, k, reason);
  }

  lemma ReserveOwes(w: World, step: DialStep, k: nat, reason: EndReason)
    requires CanDial(w, step) && step.Reserve? && Owes(DoDial(w, step), k, reason)
    ensures Owes(w, k, reason)
  {
    hide ReserveOutgoing, PinFor, NotRunning;
  }

  lemma OweOwes(w: World, c': Core, call: Active, reason: EndReason, plan: HangUpPlan, k: nat, r: EndReason)
    requires Owes(Owe(w, c', call, reason, plan), k, r)
    ensures Owes(w, k, r) || (k == call.source && r == reason)
  {
    if CanAct(w, call.source, Outgoing.IsRemoved) { NotTaken(w.attempts[call.source], Outgoing.IsRemoved); }
    hide Outgoing.Do, Outgoing.Can;
  }

  lemma TakenRingingOwes(w: World, id: string, k: nat, reason: EndReason)
    requires id !in w.core.calls && id in w.core.ringing && Owes(DoEnd(w, HangsUp(id)), k, reason)
    ensures Owes(w, k, reason) || (k == w.core.ringing[id].source && reason.Cancelled?)
  {
    hide Outgoing.Do, Outgoing.Can;
  }

  lemma EndOwes(w: World, step: EndStep, k: nat, reason: EndReason)
    requires CanEnd(w, step) && Owes(DoEnd(w, step), k, reason)
    ensures Owes(w, k, reason) || Takes(w, Ending(step)) == Some(Taking(k, reason))
  {
    match step
    case HangsUp(id) =>
      if id in w.core.calls {
        OweOwes(w, RemoveCall(w.core, id), w.core.calls[id], LocalHangup, IfToken, k, reason);
      } else if id in w.core.ringing {
        TakenRingingOwes(w, id, k, reason);
      } else {
        NewOwes(w, id, k, reason);
      }
      hide Owes, Owe, RemoveCall, Outgoing.Do, Outgoing.Can;
    case Removes(id, r, hangUp) =>
      if id in w.core.calls {
        OweOwes(w, RemoveCall(w.core, id), w.core.calls[id], r, if hangUp then Always else NoHangUp, k, reason);
      }
      hide Owes, Owe, RemoveCall;
    case PaysDebt(j, hasToken) => PaysOwes(w, j, hasToken, k, reason); hide Owes, DoEnd;
  }

  lemma NewOwes(w: World, id: string, k: nat, reason: EndReason)
    requires id !in w.core.calls && id !in w.core.ringing && Owes(DoEnd(w, HangsUp(id)), k, reason)
    ensures || Owes(w, k, reason)
            || (OutgoingId(id) && UsedFlag(w.core.used, id).None? && k == |w.core.ids| && reason.Cancelled?)
  {
    hide Mark, OutgoingId, UsedFlag;
  }

  lemma PaysOwes(w: World, j: nat, hasToken: bool, k: nat, reason: EndReason)
    requires j in w.debts && Owes(DoEnd(w, PaysDebt(j, hasToken)), k, reason)
    ensures Owes(w, k, reason)
  {
    hide Outgoing.Do, Outgoing.Can, Say;
    var hangUp := w.debts[j].plan.Always? || (w.debts[j].plan.IfToken? && hasToken);
    if CanAct(w, j, Outgoing.IsClosed(hangUp)) { NotTaken(w.attempts[j], Outgoing.IsClosed(hangUp)); }
  }

  lemma OfferOwes(w: World, step: OfferStep, k: nat, reason: EndReason)
    requires CanOffer(w, step) && Owes(DoOffer(w, step), k, reason)
    ensures Owes(w, k, reason) || Takes(w, Offering(step)) == Some(Taking(k, reason))
  {
    hide WatchIncoming, WatchStatus, Say, AsEnded, InfoOf;
  }

  lemma AcceptOwes(w: World, step: AcceptStep, k: nat, reason: EndReason)
    requires CanAccept(w, step) && Owes(DoAccept(w, step), k, reason)
    ensures Owes(w, k, reason) || Takes(w, Accepting(step)) == Some(Taking(k, reason))
  {
    hide ReserveAccept, BeginAccept, RefuseAccept, ReleaseAccept, WatchIncoming, TakeOffered, ConnectAccepted, Say;
  }

  /** An end is owed only by who has taken the call for that reason. */
  lemma StepOwes(w: World, step: Step, k: nat, reason: EndReason)
    requires Can(w, step) && Owes(Do(w, step), k, reason)
    ensures Owes(w, k, reason) || Takes(w, step) == Some(Taking(k, reason))
  {
    hide Owes, DoDial, DoEnd, DoControl, DoOffer, DoAccept;
    match step
    case Dialling(dial) => DialOwes(w, dial, k, reason);
    case Ending(end) => EndOwes(w, end, k, reason);
    case Control(control) => ControlDoes(w, control); SameOwes(w, DoControl(w, control), k, reason);
    case Offering(offer) => OfferOwes(w, offer, k, reason);
    case Accepting(accept) => AcceptOwes(w, accept, k, reason);
  }

  // ----- Whoever took a call sees to its end -----

  /** Someone has still to report that the call ended. */
  predicate Owing(w: World, k: nat) {
    || k in w.debts
    || k in w.rejecting
    || (k in w.attempts && w.attempts[k].canceller.Took?)
    || exists t :: t in w.accepts && w.accepts[t] == Forsaking(k)
  }

  predicate TakesOrOwes(w: World, k: nat, takes: Option<Taking>) {
    Owing(w, k) || (takes.Some? && takes.value.call == k)
  }

  lemma SameOwing(w: World, w': World, k: nat)
    requires w.debts.Keys <= w'.debts.Keys && w.rejecting <= w'.rejecting && w'.accepts == w.accepts
    requires k in w.attempts && w.attempts[k].canceller.Took? ==> k in w'.attempts && w'.attempts[k].canceller.Took?
    ensures Owing(w, k) ==> Owing(w', k)
  {
  }

  lemma TookStays(attempts: Attempts, attempts': Attempts, k: nat, act: Option<Outgoing.Act>)
    requires Does(attempts, attempts', k, act) && act != Some(Outgoing.ReportsEnded)
    ensures k in attempts && attempts[k].canceller.Took? ==> k in attempts' && attempts'[k].canceller.Took?
  {
  }

  lemma DialSettles(w: World, step: DialStep, k: nat)
    requires CanDial(w, step) && TakesOrOwes(w, k, DialTakes(w, step)) && |w.core.ids| !in w.attempts
    ensures Owing(DoDial(w, step), k) || Announces(w, Dialling(step)) == Some(Taking(k, Cancelled))
  {
    var w' := DoDial(w, step);
    if !(step.ReportsCancelled? && step.k == k) {
      DialDoes(w, step, k);
      NotReported(step, k);
      TookStays(w.attempts, w'.attempts, k, DialAct(step, k));
      DialDebts(w, step);
      hide DoDial, CanDial, Does, Outgoing.Do, Outgoing.Can;
      SameOwing(w, w', k);
    }
  }

  lemma NotReported(step: DialStep, k: nat)
    requires step.Acts? ==> Private(step.act)
    ensures DialAct(step, k) == Some(Outgoing.ReportsEnded) ==> step.ReportsCancelled? && step.k == k
  {
  }

  lemma DialDebts(w: World, step: DialStep)
    requires CanDial(w, step)
    ensures var w' := DoDial(w, step);
            && w.debts.Keys <= w'.debts.Keys && w'.rejecting == w.rejecting && w'.accepts == w.accepts
            && (DialTakes(w, step).Some? ==> DialTakes(w, step).value.call in w'.debts)
    ensures step.Acts? ==> Private(step.act)
  {
    hide Outgoing.Do, ReserveOutgoing, ConnectDialed, MarkDialing, SetCell, Say, AsEnded, InfoOf, PinFor, NotRunning;
    hide FailDial;
    if step.MediaFails? { FailDebts(w, step.k, Outgoing.MediaFails); }
    else if step.Joins? && w.attempts[step.k].request.answer.None? { FailDebts(w, step.k, Outgoing.JoinsRequest); }
  }

  lemma FailDebts(w: World, j: nat, act: Outgoing.Act)
    requires CanAct(w, j, act)
    ensures var w' := FailDial(w, j, act);
            && w.debts.Keys <= w'.debts.Keys && w'.rejecting == w.rejecting && w'.accepts == w.accepts
            && (w.core.ids[j] in w.core.ringing ==> w.core.ringing[w.core.ids[j]].source in w'.debts)
  {
    hide Outgoing.Do, Outgoing.Can, AsEnded;
  }

  lemma EndSettles(w: World, step: EndStep, k: nat)
    requires CanEnd(w, step) && TakesOrOwes(w, k, EndTakes(w.core, step)) && RingingIsAttempt(w)
    ensures Owing(DoEnd(w, step), k) || (step.PaysDebt? && step.k == k)
  {
    if !(step.PaysDebt? && step.k == k) {
      EndDoes(w, step, k);
      TookStays(w.attempts, DoEnd(w, step).attempts, k, EndAct(w, step, k));
      hide Does, Outgoing.Do, Outgoing.Can, AsEnded, InfoOf, Say, Mark, OutgoingId, UsedFlag;
      match step
      case HangsUp(id) => if id !in w.core.calls && id in w.core.ringing { RingingTaken(w, id, k); }
      case Removes(_, _, _) =>
      case PaysDebt(_, _) =>
    }
  }

  /** A ringing call can be taken. */
  predicate RingingIsAttempt(w: World) {
    forall id :: id in w.core.ringing ==> CanAct(w, w.core.ringing[id].source, Outgoing.IsTaken)
  }

  lemma RingingTaken(w: World, id: string, k: nat)
    requires id !in w.core.calls && id in w.core.ringing && RingingIsAttempt(w)
    requires Owing(w, k) || w.core.ringing[id].source == k
    ensures Owing(DoEnd(w, HangsUp(id)), k)
  {
    var j := w.core.ringing[id].source;
    assert CanAct(w, j, Outgoing.IsTaken);
    assert Outgoing.Do(w.attempts[j], Outgoing.IsTaken).canceller.Took?;
    hide Outgoing.Do, Outgoing.Can;
  }

  lemma OfferSettles(w: World, step: OfferStep, k: nat)
    requires CanOffer(w, step) && TakesOrOwes(w, k, OfferTakes(w.core, step))
    ensures || Owing(DoOffer(w, step), k)
            || (Announces(w, Offering(step)).Some? && Announces(w, Offering(step)).value.call == k)
  {
    hide WatchIncoming, WatchStatus, Say, AsEnded, InfoOf;
  }

  lemma AcceptSettles(w: World, step: AcceptStep, k: nat)
    requires CanAccept(w, step) && TakesOrOwes(w, k, Takes(w, Accepting(step)))
    ensures Owing(DoAccept(w, step), k) || Announces(w, Accepting(step)) == Some(Taking(k, Failed))
  {
    hide ReserveAccept, BeginAccept, RefuseAccept, ReleaseAccept, WatchIncoming, TakeOffered, ConnectAccepted, Say;
    if exists t :: t in w.accepts && w.accepts[t] == Forsaking(k) {
      var t :| t in w.accepts && w.accepts[t] == Forsaking(k);
      assert step.token != t || step.AcceptReportsFailed? || DoAccept(w, step).accepts == w.accepts;
      if step.token != t { assert t in DoAccept(w, step).accepts && DoAccept(w, step).accepts[t] == Forsaking(k); }
    }
    if step.AcceptUnknown? && w.accepts[step.token].source == k {
      assert DoAccept(w, step).accepts[step.token] == Forsaking(k);
    }
  }

  lemma RingingOutgoing(w: World)
    requires WorldInv(w)
    ensures RingingIsAttempt(w) && |w.core.ids| !in w.attempts
  {
    hide Inv, Outgoing.AttemptOk, AttemptsOk, PlacesOk, OneDial, DebtsOk, NoneForgotten, AcceptsOk, RequestsOk, SlotsOk;
    hide UsedOk, FlagsOk, OwnIds;
    WorldCore(w);
    NextIsFree(w);
    RingingPlaces(w);
  }

  lemma RingingPlaces(w: World)
    requires PlacesOk(w.attempts, w.core.ringing, w.core.calls, w.core.ids)
    requires OwnIds(w.core.calls, w.core.ringing, w.core.ids)
    ensures RingingIsAttempt(w)
  {
    forall id | id in w.core.ringing ensures CanAct(w, w.core.ringing[id].source, Outgoing.IsTaken) {
      assert Rings(w.core.ringing, w.core.ids, w.core.ringing[id].source);
    }
  }

  /** A call that is taken, or whose end is owed, is reported by the step or still owed its end. */
  lemma StepSettles(w: World, step: Step, k: nat)
    requires WorldInv(w) && Can(w, step) && TakesOrOwes(w, k, Takes(w, step))
    ensures Owing(Do(w, step), k) || k in Do(w, step).core.log.ended
  {
    StepAnnounces(w, step);
    RingingOutgoing(w);
    hide WorldInv, Owing, CanDial, RingingIsAttempt, OfferTakes, EndTakes, DialTakes;
    hide DoDial, DoEnd, DoControl, DoOffer, DoAccept;
    EndsPaid(w, step, k);
    match step
    case Dialling(dial) => DialSettles(w, dial, k);
    case Ending(end) => EndSettles(w, end, k);
    case Control(control) => ControlDoes(w, control); SameOwing(w, DoControl(w, control), k);
    case Offering(offer) => OfferSettles(w, offer, k);
    case Accepting(accept) => AcceptSettles(w, accept, k);
  }

  lemma EndsPaid(w: World, step: Step, k: nat)
    requires WorldInv(w) && Can(w, step)
    ensures step.Ending? && step.end.PaysDebt? && step.end.k == k ==>
              Announces(w, step).Some? && Announces(w, step).value.call == k
  {
    if step.Ending? && step.end.PaysDebt? { EndsProperly(w); }
    hide WorldInv, CanDial;
  }

  // ----- Runs -----

  /** Everyone who took a call in the run, and why. */
  ghost function Takings(steps: seq<Step>): set<Taking>
    requires Run(steps).Some?
  {
    if steps == [] then {}
    else
      var n := |steps| - 1;
      var taking := Takes(Run(steps[..n]).value, steps[n]);
      Takings(steps[..n]) + if taking.Some? then {taking.value} else {}
  }

  /** Step `n` of the run is the taking. */
  ghost predicate TookAt(steps: seq<Step>, n: nat, x: Taking) {
    && n < |steps| && Run(steps[..n]).Some? && Can(Run(steps[..n]).value, steps[n])
    && Takes(Run(steps[..n]).value, steps[n]) == Some(x)
  }

  lemma {:induction false} WhenTaken(steps: seq<Step>, x: Taking) returns (n: nat)
    requires Run(steps).Some? && x in Takings(steps)
    ensures TookAt(steps, n, x)
  {
    hide Can, Do, Takes;
    var m := |steps| - 1;
    if x in Takings(steps[..m]) {
      n := WhenTaken(steps[..m], x);
      assert steps[..m][..n] == steps[..n];
    } else {
      n := m;
    }
  }

  /** Every end that the application was told of, or is still to be told of, has a reason that someone who took
      the call gave. */
  ghost predicate Explained(w: World, takings: set<Taking>) {
    && (forall i :: 0 <= i < |w.core.log.queue| && w.core.log.queue[i].info.state.Ended? ==>
          && w.core.log.queue[i].info.endReason.Some?
          && Taking(w.core.log.queue[i].source, w.core.log.queue[i].info.endReason.value) in takings)
    && (forall k: nat, reason :: Owes(w, k, reason) ==> Taking(k, reason) in takings)
  }

  lemma ExplainedNext(w: World, step: Step, takings: set<Taking>)
    requires WorldInv(w) && Can(w, step) && Explained(w, takings)
    ensures Explained(Do(w, step), takings + if Takes(w, step).Some? then {Takes(w, step).value} else {})
  {
    hide WorldInv, Owes, Do, Can, Takes, Announces;
    StepAnnounces(w, step);
    if Announces(w, step).Some? { AnnouncedIsOwed(w, step); }
    forall k: nat, reason | Owes(Do(w, step), k, reason)
      ensures Owes(w, k, reason) || Takes(w, step) == Some(Taking(k, reason))
    {
      StepOwes(w, step, k, reason);
    }
    var queue, queue' := w.core.log.queue, Do(w, step).core.log.queue;
    assert forall i :: 0 <= i < |queue| ==> queue'[i] == queue[i];
  }

  lemma {:induction false} RunExplained(steps: seq<Step>)
    requires Run(steps).Some?
    ensures Explained(Run(steps).value, Takings(steps))
  {
    hide WorldInv, Do, Can, Takes, Explained;
    if steps == [] {
      StartExplained();
    } else {
      var earlier := steps[..|steps| - 1];
      RunKeeps(earlier);
      RunExplained(earlier);
      ExplainedNext(Run(earlier).value, steps[|steps| - 1], Takings(earlier));
    }
  }

  lemma StartExplained()
    ensures Explained(START, {})
  {
  }

  /** In every run, each `Ended` that the application gets carries the reason of someone who took the call: a
      hangup of the connected call, `LocalHangup`; a hangup before that, `Cancelled`; a poll or a transfer, its
      own; a dial that failed or an accept with unknown outcome, `Failed`; the user's refusal, `Rejected`; the
      watch of an offer nobody accepts here, what it saw. */
  lemma EndedForReason(steps: seq<Step>, i: nat)
    requires Run(steps).Some? && i < |Run(steps).value.core.log.queue|
    requires Run(steps).value.core.log.queue[i].info.state.Ended?
    ensures var e := Run(steps).value.core.log.queue[i];
            e.info.endReason.Some? && exists n: nat :: TookAt(steps, n, Taking(e.source, e.info.endReason.value))
  {
    hide Run, TookAt, Owes, Takings;
    RunExplained(steps);
    var e := Run(steps).value.core.log.queue[i];
    var n := WhenTaken(steps, Taking(e.source, e.info.endReason.value));
  }

  /** And in every run, a call that someone took has got its one `Ended`, or is still owed it. */
  lemma {:induction false} TakenIsReported(steps: seq<Step>, n: nat, x: Taking)
    requires Run(steps).Some? && TookAt(steps, n, x)
    ensures Owing(Run(steps).value, x.call) || x.call in Run(steps).value.core.log.ended
    decreases |steps|
  {
    hide WorldInv, Do, Can, Takes, Owing;
    var m := |steps| - 1;
    var earlier := steps[..m];
    RunKeeps(earlier);
    var w := Run(earlier).value;
    if n < m {
      assert earlier[..n] == steps[..n];
      TakenIsReported(earlier, n, x);
      if x.call in w.core.log.ended { StepAnnounces(w, steps[m]); } else { StepSettles(w, steps[m], x.call); }
    } else {
      StepSettles(w, steps[m], x.call);
    }
  }

  /** So a call that was taken for one reason only is, once nothing is owed, last reported as ended for it. */
  lemma LastReportHasReason(steps: seq<Step>, n: nat, x: Taking)
    requires Run(steps).Some? && TookAt(steps, n, x) && !Owing(Run(steps).value, x.call)
    requires forall m: nat, reason :: TookAt(steps, m, Taking(x.call, reason)) ==> reason == x.reason
    ensures var last := Last(Run(steps).value.core.log.queue, x.call);
            last.Some? && last.value.state.Ended? && last.value.endReason == Some(x.reason)
  {
    hide WorldInv, Run, TookAt, Owing, OwnIds, UsedOk;
    TakenIsReported(steps, n, x);
    RunKeeps(steps);
    WorldCore(Run(steps).value);
    var log := Run(steps).value.core.log;
    assert Last(log.queue, x.call).Some?;
    var i := LastIsQueued(log.queue, x.call);
    EndedForReason(steps, i);
  }
}
