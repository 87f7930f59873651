/** An accept whose outcome is unknown: the app is told the call ended, and the watch ends it at the
    gateway, whatever else happens meanwhile. */
module Abandoned {
  import opened Types
  import opened Events
  import opened Calls
  import opened CallsInvariant
  import opened World
  import opened WorldInvariant
  import opened Lifecycle
  import opened OutgoingSteps
  import opened IncomingSteps
  import opened Routes
  import opened Capacity
  import Outgoing

  /** Nothing but the watch of token `t`, and the accept that gave it up, can still report or end
      call `k`. */
  ghost predicate Alone(w: World, t: string, k: nat) {
    && k < |w.core.ids| && k !in w.attempts && k !in w.debts && k !in w.rejecting
    && Apart(w.core, k)
    && OnlyOffer(w.core.pending, t, k)
    && OnlyAccept(w.accepts, t, k)
  }

  ghost predicate Apart(c: Core, k: nat) {
    NotConnected(c.calls, k) && NotRinging(c.ringing, k)
  }

  ghost predicate NotConnected(calls: map<string, Active>, k: nat) {
    forall id :: id in calls ==> calls[id].source != k
  }

  ghost predicate NotRinging(ringing: map<string, Pending>, k: nat) {
    forall id :: id in ringing ==> ringing[id].source != k
  }

  ghost predicate OnlyOffer(pending: map<string, Offered>, t: string, k: nat) {
    forall u :: u in pending && pending[u].source == k ==> u == t
  }

  ghost predicate OnlyAccept(accepts: map<string, Accept>, t: string, k: nat) {
    && (forall u :: u in accepts && Bound(accepts[u]) && accepts[u].source == k ==> u == t)
    && (t in accepts ==> accepts[t].Forsaking? || accepts[t].Closing?)
  }

  /** Nothing was queued for call `k`. */
  ghost predicate Silent(log: EventLog, log': EventLog, k: nat) {
    && Reports(log'.queue, k) == Reports(log.queue, k)
    && (k in log'.ended <==> k in log.ended)
    && log.ended <= log'.ended
  }

  predicate WatchedIn(pending: map<string, Offered>, t: string, k: nat) {
    t in pending && pending[t].source == k && pending[t].abandoned && !pending[t].accepting
  }

  ghost predicate DroppedIn(pending: map<string, Offered>, k: nat) {
    forall u :: u in pending ==> pending[u].source != k
  }

  ghost predicate SameOffer(pending: map<string, Offered>, pending': map<string, Offered>, t: string, k: nat) {
    && (WatchedIn(pending, t, k) ==> WatchedIn(pending', t, k) && pending'[t] == pending[t])
    && (DroppedIn(pending, k) ==> DroppedIn(pending', k))
  }

  /** The watch's entry for the call is as it was, or still missing, and nothing was sent for it. */
  ghost predicate Unmoved(w: World, w': World, t: string, k: nat) {
    && SameOffer(w.core.pending, w'.core.pending, t, k)
    && w'.hangUps[k] == w.hangUps[k] && w'.rejects[k] == w.rejects[k]
  }

  predicate Watched(w: World, t: string, k: nat) {
    WatchedIn(w.core.pending, t, k)
  }

  ghost predicate Dropped(w: World, k: nat) {
    DroppedIn(w.core.pending, k)
  }

  // ----- Sections -----

  lemma EmitSilent(log: EventLog, source: nat, info: CallInfo, k: nat)
    requires source != k
    ensures Silent(log, Emit(log, source, info), k)
  {
    if source !in log.ended { QueueOne(log.queue, Queued(source, Reported(info)), k); }
  }

  lemma HoldApart(c: Core, keep: string, k: nat)
    requires Apart(c, k)
    ensures Silent(c.log, HoldOthers(c, keep).log, k) && Apart(HoldOthers(c, keep), k)
  {
    var off := OffHold(c.calls) - {keep};
    if off != {} {
      var id :| id in off && HoldOthers(c, keep) ==
         Say(c.(calls := HeldExcept(c.calls, keep)), c.calls[id].source, Held(c.calls[id], true).info);
      EmitSilent(c.log, c.calls[id].source, Held(c.calls[id], true).info, k);
    }
  }

  lemma SwitchApart(c: Core, id: string, onHold: bool, k: nat)
    requires Apart(c, k) && id in c.calls
    ensures Silent(c.log, SwitchHold(c, id, onHold).log, k) && Apart(SwitchHold(c, id, onHold), k)
  {
    EmitSilent(c.log, c.calls[id].source, Held(c.calls[id], onHold).info, k);
    SilentSame(c.log, k);
    hide Silent, Emit;
    assert NotConnected(c.calls[id := Held(c.calls[id], onHold)], k);
  }

  lemma SilentTwice(a: EventLog, b: EventLog, c: EventLog, k: nat)
    requires Silent(a, b, k) && Silent(b, c, k)
    ensures Silent(a, c, k)
  {
  }

  lemma SwapApart(c: Core, active: string, held: string, k: nat)
    requires Apart(c, k)
    ensures Silent(c.log, SwapCalls(c, active, held).0.log, k) && Apart(SwapCalls(c, active, held).0, k)
  {
    if active != held && active in c.calls && held in c.calls {
      SwitchApart(c, active, true, k);
      var c1 := SwitchHold(c, active, true);
      assert held in c1.calls;
      HoldKeepsKeys(c1, held);
      hide SwitchHold, Apart, Silent, HeldExcept, Emit, HoldOthers;
      HoldApart(c1, held, k);
      var c2 := HoldOthers(c1, held);
      SwitchApart(c2, held, false, k);
      SilentTwice(c.log, c1.log, c2.log, k);
      SilentTwice(c.log, c2.log, SwitchHold(c2, held, false).log, k);
    }
  }

  lemma HoldKeepsKeys(c: Core, keep: string)
    ensures keep in c.calls ==> keep in HoldOthers(c, keep).calls
  {
  }

  lemma SetHoldApart(c: Core, id: string, onHold: bool, k: nat)
    requires Apart(c, k)
    ensures Silent(c.log, SetHold(c, id, onHold).0.log, k) && Apart(SetHold(c, id, onHold).0, k)
  {
    HoldApart(c, id, k);
    var c1 := if onHold then c else HoldOthers(c, id);
    if id in c.calls {
      assert id in c1.calls;
      EmitSilent(c1.log, c1.calls[id].source, Held(c1.calls[id], onHold).info, k);
      hide HoldOthers;
    }
  }

  lemma MuteApart(c: Core, id: string, muted: bool, k: nat)
    requires Apart(c, k)
    ensures Silent(c.log, SetMute(c, id, muted).0.log, k) && Apart(SetMute(c, id, muted).0, k)
  {
    if id in c.calls {
      EmitSilent(c.log, c.calls[id].source, c.calls[id].info.(muted := muted), k);
    }
  }

  lemma ControlAlone(w: World, step: ControlStep, t: string, k: nat)
    requires Alone(w, t, k)
    ensures var w' := DoControl(w, step);
            Left(w, w', t, k)
  {
    var c := w.core;
    ControlOnlyCalls(w, step);
    hide Silent, SetMute, SetHold, SwapCalls;
    match step
    case Mutes(id, muted) => MuteApart(c, id, muted, k);
    case Holds(id, onHold) => SetHoldApart(c, id, onHold, k);
    case Swaps(active, held) => SwapApart(c, active, held, k);
  }

  /** What a step of something else leaves. */
  ghost predicate Left(w: World, w': World, t: string, k: nat) {
    && Alone(w', t, k) && Unmoved(w, w', t, k) && Silent(w.core.log, w'.core.log, k)
    && SameAccept(w.accepts, w'.accepts, t)
  }

  /** The accept that gave the call up is as far as it was. */
  predicate SameAccept(accepts: map<string, Accept>, accepts': map<string, Accept>, t: string) {
    && (t in accepts && accepts[t].Forsaking? ==> t in accepts' && accepts'[t] == accepts[t])
    && (t in accepts' && accepts'[t].Forsaking? ==> t in accepts && accepts'[t] == accepts[t])
  }

  lemma RingApart(c: Core, id: string, k: nat)
    requires Apart(c, k) && k < |c.ids|
    ensures var info := InfoOf(id, Ringing);
            && Apart(c.(ringing := c.ringing[id := Pending(|c.ids|, info, c.nextSeq, false)]), k)
            && Silent(c.log, Emit(c.log, |c.ids|, info), k)
  {
    EmitSilent(c.log, |c.ids|, InfoOf(id, Ringing), k);
  }

  lemma ReserveApart(c: Core, id: string, hasToken: bool, k: nat)
    requires Apart(c, k) && k < |c.ids|
    ensures var c' := ReserveOutgoing(c, id, hasToken).0;
            Apart(c', k) && Silent(c.log, c'.log, k) && c'.pending == c.pending && c.ids <= c'.ids
  {
    RingApart(c, id, k);
    SilentSame(c.log, k);
    ReserveShape(c, id, hasToken);
    hide Silent, Emit, InfoOf, ReserveOutgoing;
  }

  lemma SilentSame(log: EventLog, k: nat)
    ensures Silent(log, log, k)
  {
  }

  lemma ConnectApart(c: Core, id: string, source: nat, answer: Answer, k: nat)
    requires Apart(c, k) && source != k
    ensures var c' := ConnectDialed(c, id, source, answer).0;
            Apart(c', k) && Silent(c.log, c'.log, k) && c'.pending == c.pending && c'.ids == c.ids
  {
    SilentSame(c.log, k);
    if id in c.ringing {
      var c0 := c.(ringing := c.ringing - {id});
      HoldApart(c0, id, k);
      HoldOnlyCalls(c0, id);
      var c1 := HoldOthers(c0, id);
      EmitSilent(c1.log, source, InfoOf(id, Connected), k);
      hide HoldOthers, Silent;
      SilentTwice(c.log, c1.log, Emit(c1.log, source, InfoOf(id, Connected)), k);
    }
  }

  lemma ReserveAlone(w: World, step: DialStep, t: string, k: nat)
    requires Alone(w, t, k) && CanDial(w, step) && step.Reserve?
    ensures Left(w, DoDial(w, step), t, k)
  {
    ReserveApart(w.core, step.id, step.hasToken, k);
    ReserveCells(w.core, step.id, step.hasToken);
    hide ReserveOutgoing, Apart, Silent, CanDial;
  }

  lemma ActAlone(w: World, j: nat, act: Outgoing.Act, t: string, k: nat)
    requires Alone(w, t, k) && CanAct(w, j, act)
    ensures Left(w, Act(w, j, act), t, k)
  {
    hide Outgoing.Do, Outgoing.Can;
  }

  lemma FailAlone(w: World, j: nat, act: Outgoing.Act, t: string, k: nat)
    requires Alone(w, t, k) && CanAct(w, j, act)
    ensures Left(w, FailDial(w, j, act), t, k)
  {
    hide Outgoing.Do, Outgoing.Can;
  }

  lemma SaysAlone(w: World, j: nat, act: Outgoing.Act, info: CallInfo, t: string, k: nat)
    requires Alone(w, t, k) && CanAct(w, j, act)
    ensures Left(w, Act(w, j, act).(core := Say(w.core, j, info)), t, k)
  {
    EmitSilent(w.core.log, j, info, k);
    hide Outgoing.Do, Outgoing.Can, Emit;
  }

  lemma MarkAlone(w: World, j: nat, t: string, k: nat)
    requires Alone(w, t, k) && CanDial(w, MarksDialing(j))
    ensures Left(w, DoDial(w, MarksDialing(j)), t, k)
  {
    hide Outgoing.Do, Outgoing.Can;
  }

  lemma ConnectAlone(w: World, j: nat, t: string, k: nat)
    requires Alone(w, t, k) && CanDial(w, Connects(j))
    ensures Left(w, DoDial(w, Connects(j)), t, k)
  {
    ConnectApart(w.core, w.core.ids[j], j, w.attempts[j].dial.answer, k);
    hide Outgoing.Do, Outgoing.Can, ConnectDialed, Silent;
  }

  lemma TryAlone(w: World, j: nat, route: Route, t: string, k: nat)
    requires Alone(w, t, k)
    ensures Left(w, w.(core := SetCell(w.core, j, route)), t, k)
  {
  }

  lemma DialAlone(w: World, step: DialStep, t: string, k: nat)
    requires Alone(w, t, k) && CanDial(w, step)
    ensures Left(w, DoDial(w, step), t, k)
  {
    hide Outgoing.Do, Left, Alone, Say, FailDial, ConnectDialed, SetCell;
    match step
    case Reserve(_, _, _, _) => ReserveAlone(w, step, t, k);
    case Tries(j, route) => TryAlone(w, j, route, t, k);
    case MediaFails(j) => FailAlone(w, j, Outgoing.MediaFails, t, k);
    case MarksDialing(j) => MarkAlone(w, j, t, k);
    case Joins(j) =>
      if w.attempts[j].request.answer.Some? { ActAlone(w, j, Outgoing.JoinsRequest, t, k); }
      else { FailAlone(w, j, Outgoing.JoinsRequest, t, k); }
    case Connects(j) => ConnectAlone(w, j, t, k);
    case ReportsCancelled(j) => SaysAlone(w, j, Outgoing.ReportsEnded,
                                          AsEnded(InfoOf(w.core.ids[j], Ringing), Cancelled), t, k);
    case Acts(j, act) => ActAlone(w, j, act, t, k);
  }

  lemma OweAlone(w: World, id: string, reason: EndReason, plan: HangUpPlan, t: string, k: nat)
    requires Alone(w, t, k) && id in w.core.calls
    ensures Left(w, Owe(w, RemoveCall(w.core, id), w.core.calls[id], reason, plan), t, k)
  {
    hide Outgoing.Do, Outgoing.Can;
  }

  lemma TakeRingingAlone(w: World, id: string, t: string, k: nat)
    requires Alone(w, t, k) && id !in w.core.calls && id in w.core.ringing
    ensures Left(w, DoEnd(w, HangsUp(id)), t, k)
  {
    var j := w.core.ringing[id].source;
    if CanAct(w, j, Outgoing.IsTaken) { ActAlone(w, j, Outgoing.IsTaken, t, k); }
    hide Outgoing.Do, Outgoing.Can, Owe;
  }

  lemma PrecancelAlone(w: World, id: string, debt: Debt, t: string, k: nat)
    requires Alone(w, t, k)
    ensures Left(w, w.(core := Mark(w.core, id, true), debts := w.debts[|w.core.ids| := debt]), t, k)
  {
    hide MarkUsed;
  }

  lemma HangUpAlone(w: World, id: string, t: string, k: nat)
    requires Alone(w, t, k)
    ensures Left(w, DoEnd(w, HangsUp(id)), t, k)
  {
    if id in w.core.calls { OweAlone(w, id, LocalHangup, IfToken, t, k); }
    else if id in w.core.ringing { TakeRingingAlone(w, id, t, k); }
    else {
      PrecancelAlone(w, id, Debt(AsEnded(InfoOf(id, Ended), Cancelled), NoHangUp), t, k);
      SilentSame(w.core.log, k);
    }
    hide Outgoing.Do, Outgoing.Can, Owe, Mark, Left, OutgoingId, UsedFlag, RemoveCall, CanAct, Act;
    LeftSame(w, t, k);
  }

  lemma LeftSame(w: World, t: string, k: nat)
    requires Alone(w, t, k)
    ensures Left(w, w, t, k)
  {
    SilentSame(w.core.log, k);
  }

  lemma PayAlone(w: World, j: nat, hasToken: bool, t: string, k: nat)
    requires Alone(w, t, k) && j in w.debts
    ensures Left(w, DoEnd(w, PaysDebt(j, hasToken)), t, k)
  {
    EmitSilent(w.core.log, j, w.debts[j].info, k);
    hide Silent, Outgoing.Do, Outgoing.Can, Emit;
    var w' := DoEnd(w, PaysDebt(j, hasToken));
    assert w' == w.(core := w.core.(log := w'.core.log), debts := w.debts - {j}, attempts := w'.attempts,
                    hangUps := w'.hangUps);
    assert w'.attempts.Keys == w.attempts.Keys;
    assert w'.hangUps[k] == w.hangUps[k];
  }

  lemma EndAlone(w: World, step: EndStep, t: string, k: nat)
    requires Alone(w, t, k) && CanEnd(w, step)
    ensures Left(w, DoEnd(w, step), t, k)
  {
    match step
    case HangsUp(id) => HangUpAlone(w, id, t, k);
    case Removes(id, reason, hangUp) =>
      if id in w.core.calls { OweAlone(w, id, reason, if hangUp then Always else NoHangUp, t, k); hide Owe; }
    case PaysDebt(j, hasToken) => PayAlone(w, j, hasToken, t, k);
  }

  // ----- Offers -----

  lemma WatchStatusApart(c: Core, u: string, seen: Seen, k: nat)
    requires u in c.pending ==> c.pending[u].source != k
    ensures var (c', action) := WatchStatus(c, u, seen);
            && Silent(c.log, c'.log, k) && c'.calls == c.calls && c'.ringing == c.ringing && c'.ids == c.ids
            && (forall v :: v in c'.pending ==> v in c.pending && c'.pending[v].source == c.pending[v].source)
            && (forall v :: v in c.pending && v != u ==> v in c'.pending && c'.pending[v] == c.pending[v])
            && (action.HangUp? || action.Reject? ==> u in c.pending)
  {
    SilentSame(c.log, k);
    if u in c.pending && seen.SawActive? {
      EmitSilent(c.log, c.pending[u].source, AsEnded(c.pending[u].info, AnsweredElsewhere), k);
    }
    if u in c.pending && seen.SawGone? {
      EmitSilent(c.log, c.pending[u].source, AsEnded(c.pending[u].info, seen.reason), k);
    }
    hide Silent, Emit, AsEnded;
  }

  /** The offer of another call changes, or goes. */
  lemma WatchOther(pending: map<string, Offered>, pending': map<string, Offered>, u: string, t: string, k: nat)
    requires OnlyOffer(pending, t, k) && (u in pending ==> pending[u].source != k)
    requires forall v :: v in pending' ==> v in pending && pending'[v].source == pending[v].source
    requires forall v :: v in pending && v != u ==> v in pending' && pending'[v] == pending[v]
    ensures OnlyOffer(pending', t, k) && SameOffer(pending, pending', t, k)
  {
  }

  lemma WatchAlone(w: World, u: string, seen: Seen, t: string, k: nat)
    requires Alone(w, t, k) && (u in w.core.pending ==> w.core.pending[u].source != k)
    ensures Left(w, DoOffer(w, Watches(u, seen)), t, k)
  {
    hide WatchStatus, Silent, OnlyAccept, NotConnected, NotRinging, OnlyOffer, SameOffer;
    WatchStatusApart(w.core, u, seen, k);
    WatchOther(w.core.pending, WatchStatus(w.core, u, seen).0.pending, u, t, k);
  }

  lemma AddFresh(pending: map<string, Offered>, u: string, e: Offered, t: string, k: nat)
    requires OnlyOffer(pending, t, k) && u !in pending && e.source != k
    ensures OnlyOffer(pending[u := e], t, k) && SameOffer(pending, pending[u := e], t, k)
  {
  }

  /** `watch_incoming` changes nothing about the offer that is watched already. */
  lemma AddOffer(c: Core, u: string, route: Route, abandoned: bool, t: string, k: nat)
    requires OnlyOffer(c.pending, t, k) && k < |c.ids| && (u == t ==> !abandoned)
    ensures var pending' := WatchIncoming(c, u, route, abandoned).pending;
            OnlyOffer(pending', t, k) && SameOffer(c.pending, pending', t, k)
  {
    hide OnlyOffer, SameOffer, InfoOf, IncomingId;
    var pending' := WatchIncoming(c, u, route, abandoned).pending;
    if u !in c.pending {
      AddFresh(c.pending, u, pending'[u], t, k);
    } else if u == t {
      assert pending' == c.pending;
      SameOfferSame(c.pending, t, k);
    } else {
      ReplaceOffer(c.pending, u, pending'[u], t, k);
    }
  }

  lemma NewOfferAlone(w: World, u: string, route: Route, t: string, k: nat)
    requires Alone(w, t, k)
    ensures Left(w, DoOffer(w, Offers(u, route)), t, k)
  {
    hide Silent, OnlyOffer, OnlyAccept, SameOffer, NotConnected, NotRinging;
    SilentSame(w.core.log, k);
    AddOffer(w.core, u, route, false, t, k);
  }

  lemma TakeOffer(c: Core, u: string, t: string, k: nat)
    requires OnlyOffer(c.pending, t, k) && u != t
    ensures OnlyOffer(c.pending - {u}, t, k) && SameOffer(c.pending, c.pending - {u}, t, k)
    ensures u in c.pending ==> c.pending[u].source != k
  {
  }

  lemma RejectAlone(w: World, u: string, t: string, k: nat)
    requires Alone(w, t, k) && u != t
    ensures Left(w, DoOffer(w, Rejects(u)), t, k)
  {
    SilentSame(w.core.log, k);
    TakeOffer(w.core, u, t, k);
    SameOfferSame(w.core.pending, t, k);
    hide Silent, OnlyOffer, OnlyAccept, SameOffer, NotConnected, NotRinging;
  }

  lemma SameOfferSame(pending: map<string, Offered>, t: string, k: nat)
    ensures SameOffer(pending, pending, t, k)
  {
  }

  lemma RejectedAlone(w: World, j: nat, t: string, k: nat)
    requires Alone(w, t, k) && CanOffer(w, ReportsRejected(j))
    ensures Left(w, DoOffer(w, ReportsRejected(j)), t, k)
  {
    EmitSilent(w.core.log, j, AsEnded(InfoOf(w.core.ids[j], Ended), Rejected), k);
    SameOfferSame(w.core.pending, t, k);
    hide Silent, Emit, AsEnded, InfoOf, OnlyOffer, OnlyAccept, SameOffer, NotConnected, NotRinging;
  }

  lemma OfferAlone(w: World, step: OfferStep, t: string, k: nat)
    requires Alone(w, t, k) && CanOffer(w, step)
    requires step != Rejects(t)
    requires step.Watches? && step.token in w.core.pending ==> w.core.pending[step.token].source != k
    ensures Left(w, DoOffer(w, step), t, k)
  {
    hide Left, Alone, WatchStatus, WatchIncoming, TakeOffered, Say;
    match step
    case Offers(u, route) => NewOfferAlone(w, u, route, t, k);
    case Rejects(u) => RejectAlone(w, u, t, k);
    case ReportsRejected(j) => RejectedAlone(w, j, t, k);
    case Watches(u, seen) => WatchAlone(w, u, seen, t, k);
  }

  /** The watch of the abandoned call: it reports nothing, rejects the call once while it rings, and
      hangs it up if it turns out to have been answered. */
  lemma WatchAbandoned(w: World, seen: Seen, t: string, k: nat)
    requires Alone(w, t, k) && Watched(w, t, k)
    ensures var w' := DoOffer(w, Watches(t, seen));
            && Alone(w', t, k) && w'.core.log == w.core.log && w'.accepts == w.accepts
            && (if seen.SawOther? then Watched(w', t, k) else Dropped(w', k))
            && w'.hangUps[k] == w.hangUps[k] + (if seen.SawActive? then 1 else 0)
            && w'.rejects[k] == w.rejects[k] + (if seen.SawOther? && !w.core.pending[t].rejected then 1 else 0)
            && (seen.SawOther? ==> w'.core.pending[t].rejected)
  {
  }

  // ----- Accepts -----

  lemma AcceptConnectApart(c: Core, u: string, source: nat, route: Route, k: nat)
    requires Apart(c, k) && source != k
    ensures var c' := ConnectAccepted(c, u, source, route).0;
            Apart(c', k) && Silent(c.log, c'.log, k) && c'.pending == c.pending && c'.ids == c.ids
  {
    SilentSame(c.log, k);
    var c0 := ReleaseAccept(c, u);
    var id := IncomingId(u);
    HoldApart(c0, id, k);
    HoldOnlyCalls(c0, id);
    var c1 := HoldOthers(c0, id);
    EmitSilent(c1.log, source, InfoOf(id, Connected), k);
    hide HoldOthers, Silent, InfoOf, IncomingId;
    SilentTwice(c.log, c1.log, Emit(c1.log, source, InfoOf(id, Connected)), k);
  }

  lemma SetAccept(accepts: map<string, Accept>, u: string, accept: Accept, t: string, k: nat)
    requires OnlyAccept(accepts, t, k) && u != t && (Bound(accept) ==> accept.source != k)
    ensures OnlyAccept(accepts[u := accept], t, k)
  {
  }

  lemma DropAccept(accepts: map<string, Accept>, u: string, t: string, k: nat)
    requires OnlyAccept(accepts, t, k)
    ensures OnlyAccept(accepts - {u}, t, k)
  {
  }

  lemma SlotAlone(w: World, step: AcceptStep, t: string, k: nat)
    requires Alone(w, t, k) && CanAccept(w, step) && step != AcceptReserves(t)
    requires step.AcceptReserves? || step.AcceptFailsEarly? || step.AcceptReturns?
    ensures Left(w, DoAccept(w, step), t, k)
  {
    SilentSame(w.core.log, k);
    SameOfferSame(w.core.pending, t, k);
    if step.AcceptReturns? { DropAccept(w.accepts, step.token, t, k); }
    else {
      SetAccept(w.accepts, step.token, Holding, t, k);
      SetAccept(w.accepts, step.token, Closing(true), t, k);
    }
    hide Silent, OnlyOffer, OnlyAccept, SameOffer, NotConnected, NotRinging;
  }

  lemma ReplaceOffer(pending: map<string, Offered>, u: string, e: Offered, t: string, k: nat)
    requires OnlyOffer(pending, t, k) && u != t && u in pending && e.source == pending[u].source
    ensures OnlyOffer(pending[u := e], t, k) && SameOffer(pending, pending[u := e], t, k)
  {
  }

  lemma BeginAlone(w: World, u: string, t: string, k: nat)
    requires Alone(w, t, k) && CanAccept(w, AcceptBegins(u))
    ensures Left(w, DoAccept(w, AcceptBegins(u)), t, k)
  {
    var c := w.core;
    SilentSame(c.log, k);
    SameOfferSame(c.pending, t, k);
    SetAccept(w.accepts, u, Sending(BeginAccept(c, u).1), t, k);
    if u in c.pending { ReplaceOffer(c.pending, u, c.pending[u].(accepting := true), t, k); }
    hide Silent, OnlyOffer, OnlyAccept, SameOffer, NotConnected, NotRinging;
  }

  lemma RefusedAlone(w: World, u: string, t: string, k: nat)
    requires Alone(w, t, k) && CanAccept(w, AcceptRefused(u))
    ensures Left(w, DoAccept(w, AcceptRefused(u)), t, k)
  {
    var c := w.core;
    SilentSame(c.log, k);
    SameOfferSame(c.pending, t, k);
    SetAccept(w.accepts, u, Closing(true), t, k);
    if u in c.pending { ReplaceOffer(c.pending, u, c.pending[u].(accepting := false), t, k); }
    hide Silent, OnlyOffer, OnlyAccept, SameOffer, NotConnected, NotRinging;
  }

  lemma ClearAlone(w: World, u: string, t: string, k: nat)
    requires Alone(w, t, k) && CanAccept(w, AcceptClears(u))
    ensures Left(w, DoAccept(w, AcceptClears(u)), t, k)
  {
    SilentSame(w.core.log, k);
    SameOfferSame(w.core.pending, t, k);
    SetAccept(w.accepts, u, Cleared(w.accepts[u].source), t, k);
    TakeOffer(w.core, u, t, k);
    hide Silent, OnlyOffer, OnlyAccept, SameOffer, NotConnected, NotRinging;
  }

  lemma SenderIsOther(accepts: map<string, Accept>, u: string, t: string, k: nat)
    requires OnlyAccept(accepts, t, k) && u in accepts && accepts[u].Sending?
    ensures u != t && accepts[u].source != k
  {
  }

  lemma UnknownAlone(w: World, u: string, route: Route, t: string, k: nat)
    requires Alone(w, t, k) && CanAccept(w, AcceptUnknown(u, route))
    ensures Left(w, DoAccept(w, AcceptUnknown(u, route)), t, k)
  {
    hide Silent, OnlyOffer, OnlyAccept, SameOffer, NotConnected, NotRinging, InfoOf, IncomingId;
    SenderIsOther(w.accepts, u, t, k);
    SilentSame(w.core.log, k);
    AddOffer(w.core, u, route, true, t, k);
    SetAccept(w.accepts, u, Forsaking(w.accepts[u].source), t, k);
  }

  lemma JoinAlone(w: World, step: AcceptStep, t: string, k: nat)
    requires Alone(w, t, k) && CanAccept(w, step) && step.AcceptConnects?
    ensures Left(w, DoAccept(w, step), t, k)
  {
    AcceptConnectApart(w.core, step.token, w.accepts[step.token].source, step.route, k);
    hide Silent, ConnectAccepted;
  }

  lemma FailedAlone(w: World, step: AcceptStep, t: string, k: nat)
    requires Alone(w, t, k) && CanAccept(w, step) && step.AcceptReportsFailed?
    requires step.token != t
    ensures Left(w, DoAccept(w, step), t, k)
  {
    EmitSilent(w.core.log, w.accepts[step.token].source, AsEnded(InfoOf(IncomingId(step.token), Connected), Failed), k);
    hide Silent, Emit, AsEnded, InfoOf;
  }

  lemma AcceptAlone(w: World, step: AcceptStep, t: string, k: nat)
    requires Alone(w, t, k) && CanAccept(w, step) && step != AcceptReserves(t)
    requires step != AcceptReportsFailed(t)
    ensures Left(w, DoAccept(w, step), t, k)
  {
    if step.AcceptReserves? || step.AcceptFailsEarly? || step.AcceptReturns? { SlotAlone(w, step, t, k); }
    else if step.AcceptBegins? { BeginAlone(w, step.token, t, k); }
    else if step.AcceptRefused? { RefusedAlone(w, step.token, t, k); }
    else if step.AcceptClears? { ClearAlone(w, step.token, t, k); }
    else if step.AcceptUnknown? { UnknownAlone(w, step.token, step.route, t, k); }
    else if step.AcceptConnects? { JoinAlone(w, step, t, k); }
    else { FailedAlone(w, step, t, k); }
  }

  /** The failure is reported for the abandoned call itself. */
  lemma FailedIsReported(w: World, t: string, k: nat)
    requires Alone(w, t, k) && CanAccept(w, AcceptReportsFailed(t))
    ensures var w' := DoAccept(w, AcceptReportsFailed(t));
            && Alone(w', t, k) && Unmoved(w, w', t, k)
            && w.core.log.ended <= w'.core.log.ended && w.accepts[t].source in w'.core.log.ended
            && t in w'.accepts && w'.accepts[t].Closing?
            && (w.accepts[t].source != k ==> Silent(w.core.log, w'.core.log, k))
  {
    if w.accepts[t].source != k {
      EmitSilent(w.core.log, w.accepts[t].source, AsEnded(InfoOf(IncomingId(t), Connected), Failed), k);
    }
    hide Silent;
  }

  // ----- Runs -----

  /** What the watch of `t` first saw that settles the call. */
  function Verdict(steps: seq<Step>, t: string): Option<Seen> {
    if steps == [] then None
    else
      var earlier := Verdict(steps[..|steps| - 1], t);
      match steps[|steps| - 1]
      case Offering(Watches(u, seen)) => if earlier.None? && u == t && !seen.SawOther? then Some(seen) else earlier
      case _ => earlier
  }

  predicate Polled(steps: seq<Step>, t: string) {
    exists i :: 0 <= i < |steps| && steps[i].Offering? && steps[i].offer.Watches? && steps[i].offer.token == t
  }

  /** The token is not accepted again, nor rejected by the user. */
  predicate LeftAlone(steps: seq<Step>, t: string) {
    forall i :: 0 <= i < |steps| ==> steps[i] != Accepting(AcceptReserves(t)) && steps[i] != Offering(Rejects(t))
  }

  /** The failure of the accept, whose `CallEvents` is `s`, has been reported, or still will be. */
  ghost predicate Failing(w: World, t: string, s: nat) {
    if t in w.accepts && w.accepts[t].Forsaking? then w.accepts[t].source == s else s in w.core.log.ended
  }

  /** How far the abandoned call is, `verdict` being what its watch has seen. */
  ghost predicate Handled(w: World, t: string, k: nat, s: nat, verdict: Option<Seen>, polled: bool) {
    && Alone(w, t, k) && Failing(w, t, s)
    && (if verdict.None? then Watched(w, t, k) && (polled ==> w.core.pending[t].rejected) else Dropped(w, k))
    && w.hangUps[k] == (if verdict == Some(SawActive) then 1 else 0)
  }

  lemma LeftHandled(w: World, w': World, t: string, k: nat, s: nat, verdict: Option<Seen>, polled: bool)
    requires Handled(w, t, k, s, verdict, polled) && Left(w, w', t, k)
    ensures Handled(w', t, k, s, verdict, polled) && Silent(w.core.log, w'.core.log, k)
  {
  }

  lemma StepHandled(w: World, step: Step, t: string, k: nat, s: nat, verdict: Option<Seen>, polled: bool)
    requires Can(w, step) && Handled(w, t, k, s, verdict, polled)
    requires step != Accepting(AcceptReserves(t)) && step != Offering(Rejects(t))
    requires step != Accepting(AcceptReportsFailed(t))
    requires !(step.Offering? && step.offer.Watches? && step.offer.token == t)
    ensures Handled(Do(w, step), t, k, s, verdict, polled)
    ensures Silent(w.core.log, Do(w, step).core.log, k)
  {
    hide Alone, Left, Silent, DoDial, DoEnd, DoControl, DoOffer, DoAccept, CanDial, CanAccept, CanOffer, CanEnd;
    assert Left(w, Do(w, step), t, k) by {
      match step
      case Dialling(dial) => DialAlone(w, dial, t, k);
      case Ending(end) => EndAlone(w, end, t, k);
      case Control(control) => ControlAlone(w, control, t, k);
      case Offering(offer) => OfferElse(w, offer, t, k);
      case Accepting(accept) => AcceptAlone(w, accept, t, k);
    }
    LeftHandled(w, Do(w, step), t, k, s, verdict, polled);
  }

  lemma OfferElse(w: World, step: OfferStep, t: string, k: nat)
    requires Alone(w, t, k) && CanOffer(w, step) && step != Rejects(t)
    requires !(step.Watches? && step.token == t)
    ensures Left(w, DoOffer(w, step), t, k)
  {
    OfferAlone(w, step, t, k);
  }

  lemma ReportHandled(w: World, t: string, k: nat, s: nat, verdict: Option<Seen>, polled: bool)
    requires Can(w, Accepting(AcceptReportsFailed(t))) && Handled(w, t, k, s, verdict, polled)
    ensures var w' := Do(w, Accepting(AcceptReportsFailed(t)));
            Handled(w', t, k, s, verdict, polled) && (s != k ==> Silent(w.core.log, w'.core.log, k))
  {
    FailedIsReported(w, t, k);
    hide Alone, Silent, DoAccept;
  }

  lemma WatchHandled(w: World, seen: Seen, t: string, k: nat, s: nat, verdict: Option<Seen>, polled: bool)
    requires Handled(w, t, k, s, verdict, polled)
    ensures var w' := DoOffer(w, Watches(t, seen));
            && Handled(w', t, k, s, if verdict.Some? || seen.SawOther? then verdict else Some(seen), true)
            && Silent(w.core.log, w'.core.log, k)
  {
    SilentSame(w.core.log, k);
    if verdict.None? {
      WatchAbandoned(w, seen, t, k);
      hide Alone, Silent, DoOffer;
    } else {
      WatchAlone(w, t, seen, t, k);
      hide Alone, Silent, DoOffer;
    }
  }

  lemma {:induction false} AbandonedRun(w: World, more: seq<Step>, t: string, k: nat, s: nat)
    requires Handled(w, t, k, s, None, false) && RunFrom(w, more).Some? && LeftAlone(more, t)
    ensures var v := RunFrom(w, more).value;
            && Handled(v, t, k, s, Verdict(more, t), Polled(more, t))
            && (s != k ==> Silent(w.core.log, v.core.log, k))
  {
    hide Alone, Handled, Silent, Do, Can;
    if more == [] {
      SilentSame(w.core.log, k);
    } else {
      var n := |more| - 1;
      var earlier, last := more[..n], more[n];
      AbandonedRun(w, earlier, t, k, s);
      var v := RunFrom(w, earlier).value;
      var v' := RunFrom(w, more).value;
      assert forall i :: 0 <= i < n ==> earlier[i] == more[i];
      PolledGrows(more, t);
      if last == Accepting(AcceptReportsFailed(t)) {
        ReportHandled(v, t, k, s, Verdict(earlier, t), Polled(earlier, t));
      } else if last.Offering? && last.offer.Watches? && last.offer.token == t {
        WatchHandled(v, last.offer.seen, t, k, s, Verdict(earlier, t), Polled(earlier, t));
        assert v' == DoOffer(v, Watches(t, last.offer.seen)) by { DoesOffer(v, last); }
      } else {
        StepHandled(v, last, t, k, s, Verdict(earlier, t), Polled(earlier, t));
      }
      if s != k { SilentTwice(w.core.log, v.core.log, v'.core.log, k); }
    }
  }

  lemma DoesOffer(w: World, step: Step)
    requires Can(w, step) && step.Offering?
    ensures Do(w, step) == DoOffer(w, step.offer)
  {
  }

  lemma PolledGrows(steps: seq<Step>, t: string)
    requires steps != []
    ensures var last := steps[|steps| - 1];
            Polled(steps, t) <==>
              Polled(steps[..|steps| - 1], t) || (last.Offering? && last.offer.Watches? && last.offer.token == t)
  {
    var n := |steps| - 1;
    assert forall i :: 0 <= i < n ==> steps[..n][i] == steps[i];
    if Polled(steps, t) {
      var i :| 0 <= i < |steps| && steps[i].Offering? && steps[i].offer.Watches? && steps[i].offer.token == t;
      assert i < n ==> steps[..n][i] == steps[i];
    }
  }

  // ----- An offer the user rejected is never pending again -----

  predicate Unrejected(pending: map<string, Offered>, rejecting: set<nat>) {
    forall t :: t in pending ==> pending[t].source !in rejecting
  }

  /** The offers are as they were, up to flags, except that one may be gone or new. */
  predicate OffersFrom(pending: map<string, Offered>, pending': map<string, Offered>, next: nat) {
    forall t :: t in pending' ==>
      pending'[t].source == next || (t in pending && pending'[t].source == pending[t].source)
  }

  lemma FromUnrejected(pending: map<string, Offered>, pending': map<string, Offered>, next: nat,
                       rejecting: set<nat>, rejecting': set<nat>)
    requires Unrejected(pending, rejecting) && OffersFrom(pending, pending', next)
    requires next !in rejecting && rejecting' <= rejecting
    ensures Unrejected(pending', rejecting')
  {
  }

  lemma DialSectionsPending(c: Core, id: string, hasToken: bool, source: nat, answer: Answer)
    ensures ReserveOutgoing(c, id, hasToken).0.pending == c.pending
    ensures ConnectDialed(c, id, source, answer).0.pending == c.pending
  {
    ReserveShape(c, id, hasToken);
    HoldOnlyCalls(c.(ringing := c.ringing - {id}), id);
    hide ReserveOutgoing, HoldOthers, Emit;
  }

  lemma FailPending(w: World, k: nat, act: Outgoing.Act)
    requires CanAct(w, k, act)
    ensures FailDial(w, k, act).core.pending == w.core.pending && FailDial(w, k, act).rejecting == w.rejecting
  {
    hide Outgoing.Do, Outgoing.Can, AsEnded;
  }

  lemma MarkPending(c: Core, id: string)
    ensures MarkDialing(c, id).pending == c.pending
  {
  }

  lemma DialPending(w: World, step: DialStep)
    requires CanDial(w, step)
    ensures DoDial(w, step).core.pending == w.core.pending && DoDial(w, step).rejecting == w.rejecting
  {
    hide Outgoing.Do, ReserveOutgoing, ConnectDialed, FailDial, MarkDialing, Emit, PinFor, NotRunning, InfoOf, AsEnded;
    var c := w.core;
    match step
    case MediaFails(k) => FailPending(w, k, Outgoing.MediaFails);
    case Joins(k) => if w.attempts[k].request.answer.None? { FailPending(w, k, Outgoing.JoinsRequest); }
    case MarksDialing(k) => MarkPending(c, c.ids[k]);
    case Reserve(id, hasToken, _, _) => DialSectionsPending(c, id, hasToken, 0, Answer("", Route("")));
    case Connects(k) => DialSectionsPending(c, c.ids[k], true, k, w.attempts[k].dial.answer);
    case _ =>
  }

  lemma EndPending(w: World, step: EndStep)
    requires CanEnd(w, step)
    ensures DoEnd(w, step).core.pending == w.core.pending && DoEnd(w, step).rejecting == w.rejecting
  {
    hide Outgoing.Do, Outgoing.Can, Emit, AsEnded, InfoOf, TakeForHangup, TakeCall;
    match step
    case HangsUp(id) => TakePending(w.core, id);
    case Removes(id, _, _) => TakePending(w.core, id);
    case PaysDebt(_, _) =>
  }

  lemma TakePending(c: Core, id: string)
    ensures TakeForHangup(c, id).0.pending == c.pending && TakeCall(c, id).0.pending == c.pending
  {
    hide MarkUsed, OutgoingId, UsedFlag;
  }

  lemma OfferUnrejected(w: World, step: OfferStep)
    requires CanOffer(w, step) && Unrejected(w.core.pending, w.rejecting) && |w.core.ids| !in w.rejecting
    requires forall t, u ::
               t in w.core.pending && u in w.core.pending && w.core.pending[t].source == w.core.pending[u].source ==>
                 t == u
    ensures Unrejected(DoOffer(w, step).core.pending, DoOffer(w, step).rejecting)
  {
    if !step.Rejects? {
      OffersOnly(w, step);
      var w' := DoOffer(w, step);
      hide DoOffer;
      FromUnrejected(w.core.pending, w'.core.pending, |w.core.ids|, w.rejecting, w'.rejecting);
    }
  }

  lemma WatchOnly(c: Core, t: string, route: Route, abandoned: bool, seen: Seen)
    ensures OffersFrom(c.pending, WatchIncoming(c, t, route, abandoned).pending, |c.ids|)
    ensures OffersFrom(c.pending, WatchStatus(c, t, seen).0.pending, |c.ids|)
  {
    hide Emit, AsEnded, InfoOf, IncomingId;
  }

  lemma OffersOnly(w: World, step: OfferStep)
    requires CanOffer(w, step) && !step.Rejects?
    ensures var w' := DoOffer(w, step);
            w'.rejecting <= w.rejecting && OffersFrom(w.core.pending, w'.core.pending, |w.core.ids|)
  {
    hide Emit, AsEnded, InfoOf, WatchIncoming, WatchStatus;
    if step.Offers? { WatchOnly(w.core, step.token, step.route, false, SawOther); }
    if step.Watches? { WatchOnly(w.core, step.token, Route(""), false, step.seen); }
  }

  lemma AcceptOnly(w: World, step: AcceptStep)
    requires CanAccept(w, step)
    ensures var w' := DoAccept(w, step);
            w'.rejecting == w.rejecting && OffersFrom(w.core.pending, w'.core.pending, |w.core.ids|)
  {
    hide HoldOthers, Emit, AsEnded, InfoOf, WatchIncoming, IncomingId, ConnectAccepted;
    if step.AcceptUnknown? { WatchOnly(w.core, step.token, step.route, true, SawOther); }
    if step.AcceptConnects? { ConnectPending(w.core, step.token, w.accepts[step.token].source, step.route); }
  }

  lemma ConnectPending(c: Core, t: string, source: nat, route: Route)
    ensures ConnectAccepted(c, t, source, route).0.pending == c.pending
  {
    HoldOnlyCalls(ReleaseAccept(c, t), IncomingId(t));
    hide HoldOthers, Emit;
  }

  lemma AcceptUnrejected(w: World, step: AcceptStep)
    requires CanAccept(w, step) && Unrejected(w.core.pending, w.rejecting) && |w.core.ids| !in w.rejecting
    ensures Unrejected(DoAccept(w, step).core.pending, DoAccept(w, step).rejecting)
  {
    hide DoAccept, CanAccept;
    AcceptOnly(w, step);
    var w' := DoAccept(w, step);
    FromUnrejected(w.core.pending, w'.core.pending, |w.core.ids|, w.rejecting, w'.rejecting);
  }

  lemma RejectingKnown(w: World)
    requires WorldInv(w)
    ensures |w.core.ids| !in w.rejecting
    ensures forall t, u ::
              t in w.core.pending && u in w.core.pending && w.core.pending[t].source == w.core.pending[u].source ==>
                t == u
  {
    OwnOffer(w.core);
    hide Inv, Outgoing.AttemptOk, AttemptsOk, PlacesOk, OneDial, DebtsOk, NoneForgotten, AcceptsOk, RequestsOk, SlotsOk;
  }

  lemma StepUnrejected(w: World, step: Step)
    requires WorldInv(w) && Can(w, step) && Unrejected(w.core.pending, w.rejecting)
    ensures Unrejected(Do(w, step).core.pending, Do(w, step).rejecting)
  {
    RejectingKnown(w);
    hide WorldInv, DoDial, DoEnd, DoControl, DoOffer, DoAccept;
    match step
    case Dialling(dial) => DialPending(w, dial);
    case Ending(end) => EndPending(w, end);
    case Control(control) => ControlOnlyCalls(w, control);
    case Offering(offer) => OfferUnrejected(w, offer);
    case Accepting(accept) => AcceptUnrejected(w, accept);
  }

  lemma {:induction false} RunUnrejected(steps: seq<Step>)
    requires Run(steps).Some?
    ensures Unrejected(Run(steps).value.core.pending, Run(steps).value.rejecting)
  {
    hide WorldInv, Do, Can;
    if steps != [] {
      var earlier := steps[..|steps| - 1];
      RunKeeps(earlier);
      RunUnrejected(earlier);
      StepUnrejected(Run(earlier).value, steps[|steps| - 1]);
    }
  }

  // ----- The guarantee -----

  lemma PendingIsApart(w: World, t: string)
    requires WorldInv(w) && t in w.core.pending
    ensures var k := w.core.pending[t].source;
            Apart(w.core, k) && k < |w.core.ids| && w.core.ids[k] == IncomingId(t)
  {
    OwnOffer(w.core);
    Owned(w.core);
    IncomingIds(t, t);
    hide WorldInv, Inv;
  }

  lemma PendingIsFree(w: World, t: string)
    requires AttemptsOk(w.attempts, w.core.ids) && AcceptsOk(w.accepts, w.core.pending, w.core.calls, w.core.ids,
                                                             w.core.left, w.core.log)
    requires RequestsOk(w.hangUps, w.rejects, w.core.pending, w.accepts, w.core.calls, w.debts, w.core.ids)
    requires t in w.core.pending && w.core.pending[t].source < |w.core.ids|
             && w.core.ids[w.core.pending[t].source] == IncomingId(t)
    ensures var k := w.core.pending[t].source;
            && k !in w.attempts && k !in w.debts && w.hangUps[k] == 0
            && forall u :: u in w.accepts && Bound(w.accepts[u]) && w.accepts[u].source == k ==> u == t
  {
    var k := w.core.pending[t].source;
    IncomingIds(t, t);
    forall u | u in w.accepts && Bound(w.accepts[u]) && w.accepts[u].source == k ensures u == t {
      assert AcceptOk(u, w.accepts[u], w.core.pending, w.core.calls, w.core.ids, w.core.left, w.core.log);
      IncomingIds(t, u);
    }
    assert k in w.hangUps ==> Retired(w.core.pending, w.accepts, k);
  }

  lemma ForsakenIsAlone(w: World, t: string)
    requires WorldInv(w) && t in w.core.pending && w.core.pending[t].source !in w.rejecting
    requires t in w.accepts && w.accepts[t].Forsaking?
    ensures Alone(w, t, w.core.pending[t].source) && w.hangUps[w.core.pending[t].source] == 0
  {
    PendingIsApart(w, t);
    OwnOffer(w.core);
    hide Inv, Outgoing.AttemptOk, AttemptsOk, PlacesOk, OneDial, DebtsOk, NoneForgotten, AcceptsOk, RequestsOk,
         SlotsOk, Apart;
    PendingIsFree(w, t);
  }

  /** When an accept's outcome is unknown, the call has an abandoned watch entry, even if an earlier
      watch had dropped it, and nothing else can still report or end the call. */
  lemma UnknownIsHandled(w: World, t: string, route: Route)
    requires WorldInv(w) && Unrejected(w.core.pending, w.rejecting) && CanAccept(w, AcceptUnknown(t, route))
    ensures var w1 := DoAccept(w, AcceptUnknown(t, route));
            && WorldInv(w1) && t in w1.core.pending
            && Handled(w1, t, w1.core.pending[t].source, w.accepts[t].source, None, false)
  {
    hide WorldInv, Alone, Unrejected, DoAccept;
    var w1 := DoAccept(w, AcceptUnknown(t, route));
    AbandonedEntry(w, t, route);
    StepKeeps(w, Accepting(AcceptUnknown(t, route)));
    StepUnrejected(w, Accepting(AcceptUnknown(t, route)));
    DoesAccept(w, Accepting(AcceptUnknown(t, route)));
    NotRejecting(w1, t);
    ForsakenIsAlone(w1, t);
  }

  lemma AbandonedEntry(w: World, t: string, route: Route)
    requires CanAccept(w, AcceptUnknown(t, route))
    ensures var w1 := DoAccept(w, AcceptUnknown(t, route));
            && t in w1.core.pending && Watched(w1, t, w1.core.pending[t].source)
            && t in w1.accepts && w1.accepts[t] == Forsaking(w.accepts[t].source)
  {
  }

  lemma NotRejecting(w: World, t: string)
    requires Unrejected(w.core.pending, w.rejecting) && t in w.core.pending
    ensures w.core.pending[t].source !in w.rejecting
  {
  }

  lemma DoesAccept(w: World, step: Step)
    requires Can(w, step) && step.Accepting?
    ensures Do(w, step) == DoAccept(w, step.accept)
  {
  }

  /** What has become of the abandoned call, `k` being the number of its watch and `s` of its accept. */
  ghost predicate WellEnded(w1: World, v: World, t: string, k: nat, s: nat, more: seq<Step>) {
    && v.hangUps[k] == (if Verdict(more, t) == Some(SawActive) then 1 else 0)
    && v.rejects[k] <= 1
    && (Verdict(more, t).None? ==> Watched(v, t, k) && (Polled(more, t) ==> v.rejects[k] == 1))
    && (Verdict(more, t).Some? ==> Dropped(v, k))
    && (s in v.core.log.ended || (t in v.accepts && v.accepts[t] == Forsaking(s)))
    && (s != k ==> Reports(v.core.log.queue, k) == Reports(w1.core.log.queue, k))
  }

  lemma EndedFrom(steps: seq<Step>, t: string, route: Route, more: seq<Step>)
    requires Run(steps).Some? && CanAccept(Run(steps).value, AcceptUnknown(t, route))
    requires RunFrom(DoAccept(Run(steps).value, AcceptUnknown(t, route)), more).Some? && LeftAlone(more, t)
    ensures var w1 := DoAccept(Run(steps).value, AcceptUnknown(t, route));
            && t in w1.core.pending
            && WellEnded(w1, RunFrom(w1, more).value, t, w1.core.pending[t].source, Run(steps).value.accepts[t].source,
                         more)
  {
    hide WorldInv, Alone, DoAccept;
    RunKeeps(steps);
    RunUnrejected(steps);
    var w := Run(steps).value;
    UnknownIsHandled(w, t, route);
    var w1 := DoAccept(w, AcceptUnknown(t, route));
    var k, s := w1.core.pending[t].source, w.accepts[t].source;
    AbandonedRun(w1, more, t, k, s);
    RunFromKeeps(w1, more);
    RejectedIsSent(RunFrom(w1, more).value, t, k);
  }

  /** The accept of `t` times out. Whatever runs afterwards, as long as the token is not accepted again
      or rejected by the user: the accept's `CallEvents` gets its one `Ended` from the accept, and the
      watch's gets nothing from the watch; the call is hung up at the gateway once if the first thing
      its watch sees, other than a call that still rings, is that it was answered, and otherwise never;
      it is rejected once, by the first poll that sees it ring; and then the watch is over. */
  lemma AbandonedCallIsEnded(steps: seq<Step>, t: string, route: Route, more: seq<Step>)
    requires Run(steps).Some? && t in Run(steps).value.accepts && Run(steps).value.accepts[t].Sending?
    requires Run(steps + [Accepting(AcceptUnknown(t, route))] + more).Some? && LeftAlone(more, t)
    ensures Run(steps + [Accepting(AcceptUnknown(t, route))]).Some?
    ensures var w1 := Run(steps + [Accepting(AcceptUnknown(t, route))]).value;
            && t in w1.core.pending
            && WellEnded(w1, Run(steps + [Accepting(AcceptUnknown(t, route))] + more).value, t,
                         w1.core.pending[t].source, Run(steps).value.accepts[t].source, more)
  {
    hide RunFrom, WellEnded, DoAccept;
    RunSplit(START, steps + [Accepting(AcceptUnknown(t, route))], more);
    RunOne(steps, Accepting(AcceptUnknown(t, route)));
    EndedFrom(steps, t, route, more);
  }

  lemma RejectedIsSent(w: World, t: string, k: nat)
    requires WorldInv(w)
    ensures w.rejects[k] <= 1
    ensures t in w.core.pending && w.core.pending[t].source == k && w.core.pending[t].rejected ==> w.rejects[k] == 1
  {
    hide Inv, Outgoing.AttemptOk, AttemptsOk, PlacesOk, OneDial, DebtsOk, NoneForgotten, AcceptsOk, SlotsOk;
  }
}
