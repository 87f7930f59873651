/** The steps of outgoing calls keep the world's invariant. */
module OutgoingSteps {
  import opened Types
  import opened Events
  import opened Calls
  import opened CallsInvariant
  import opened Sections
  import opened World
  import opened WorldInvariant
  import opened Frames
  import Outgoing

  lemma Owned(c: Core)
    requires Inv(c)
    ensures OwnIds(c.calls, c.ringing, c.ids)
    ensures c.calls.Keys !! c.ringing.Keys
    ensures forall i :: i in c.ringing ==>
              c.ringing[i].info == InfoOf(i, Ringing) && c.ringing[i].info.direction.Outbound?
    ensures forall i :: i in c.calls ==> Proper(c.ids, c.calls[i].source, c.calls[i].info)
  {
    OwnSource(c.calls, c.ringing, c.ids, c.nextSeq, c.left, c.log);
  }

  /** The log is as it was. */
  lemma SameLog(log: EventLog, k: nat)
    ensures SameBut(log, log, k)
  {
  }

  // ----- Acts that touch only their attempt, or their attempt and the log -----

  lemma PrivateEffect(a: Outgoing.Attempt, act: Outgoing.Act)
    requires Outgoing.AttemptOk(a) && Outgoing.Can(a, act)
    requires Private(act) || act.ReportsEnded? || (act.JoinsRequest? && a.request.answer.Some?)
    ensures var a' := Outgoing.Do(a, act);
            && Outgoing.AttemptOk(a') && Stays(a, a') && a'.place == a.place
            && (a.dial.Returned? ==> a'.dial.Returned?)
            && (act.ReportsEnded? || (a.canceller.Took? ==> a'.canceller.Took?))
  {
    Outgoing.ActKeeps(a, act);
  }

  lemma AttemptKeeps(w: World, k: nat, a': Outgoing.Attempt, c': Core)
    requires WorldInv(w) && k in w.attempts && Outgoing.AttemptOk(a') && Stays(w.attempts[k], a')
    requires a'.place == w.attempts[k].place && (w.attempts[k].dial.Returned? ==> a'.dial.Returned?)
    requires Inv(c') && c' == w.core.(log := c'.log) && SameBut(w.core.log, c'.log, k)
    requires k in c'.log.ended || (c' == w.core && (w.attempts[k].canceller.Took? ==> a'.canceller.Took?))
    ensures WorldInv(w.(attempts := w.attempts[k := a'], core := c'))
  {
    var c, attempts' := w.core, w.attempts[k := a'];
    AttemptsUpdate(w.attempts, c.ids, k, a');
    PlacesUpdate(w.attempts, c.ringing, c.calls, c.ids, k, a');
    OneDialUpdate(w.attempts, c.ids, k, a');
    DebtsUpdate(w.debts, w.attempts, c.calls, c.ids, k, a');
    ForgottenOne(w, k, attempts', c');
    AcceptsFrame(w.accepts, c.pending, c.calls, c.ids, c.left, c.log, c.calls, c.left, c'.log, k);
  }

  lemma ForgottenOne(w: World, k: nat, attempts': Attempts, c': Core)
    requires NoneForgotten(w.core.log, w.core.calls, w.core.ids, w.debts, w.attempts)
    requires k in w.attempts && k in attempts' && attempts' == w.attempts[k := attempts'[k]]
    requires attempts'[k].place == w.attempts[k].place
    requires c' == w.core.(log := c'.log) && SameBut(w.core.log, c'.log, k)
    requires k in c'.log.ended || (c' == w.core && (w.attempts[k].canceller.Took? ==> attempts'[k].canceller.Took?))
    ensures NoneForgotten(c'.log, c'.calls, c'.ids, w.debts, attempts')
  {
    ForgottenFrame(w.core.log, w.core.calls, w.core.ids, w.debts, w.attempts,
                   c'.log, c'.calls, c'.ids, w.debts, attempts', k);
  }

  lemma PrivateKeeps(w: World, k: nat, act: Outgoing.Act)
    requires WorldInv(w) && CanAct(w, k, act)
    requires Private(act) || (act.JoinsRequest? && w.attempts[k].request.answer.Some?)
    ensures WorldInv(Act(w, k, act))
  {
    hide Outgoing.Do, Outgoing.AttemptOk, Inv;
    PrivateEffect(w.attempts[k], act);
    SameLog(w.core.log, k);
    AttemptKeeps(w, k, Outgoing.Do(w.attempts[k], act), w.core);
  }

  lemma ReportsCancelledKeeps(w: World, k: nat)
    requires WorldInv(w) && CanDial(w, ReportsCancelled(k))
    ensures WorldInv(DoDial(w, ReportsCancelled(k)))
  {
    var c := w.core;
    hide Outgoing.AttemptOk, Inv;
    PrivateEffect(w.attempts[k], Outgoing.ReportsEnded);
    TookIsGone(w, k);
    NotRinging(w, k);
    EndKeeps(c, k, AsEnded(InfoOf(c.ids[k], Ringing), Cancelled));
    AttemptKeeps(w, k, Outgoing.Do(w.attempts[k], Outgoing.ReportsEnded),
                 Say(c, k, AsEnded(InfoOf(c.ids[k], Ringing), Cancelled)));
  }

  lemma TookIsGone(w: World, k: nat)
    requires WorldInv(w) && k in w.attempts && w.attempts[k].canceller.Took?
    ensures w.attempts[k].place.Gone?
  {
    assert Outgoing.PlaceOk(w.attempts[k]);
  }

  lemma NotRinging(w: World, k: nat)
    requires WorldInv(w) && k in w.attempts && !w.attempts[k].place.InRinging?
    ensures forall i :: i in w.core.ringing ==> w.core.ringing[i].source != k
  {
    Owned(w.core);
    assert !Rings(w.core.ringing, w.core.ids, k);
  }

  // ----- New ids -----

  /** A new `CallEvents` and its use of an id change nothing that is running. */
  lemma GrowKeeps(w: World, id: string, c': Core)
    requires WorldInv(w) && Inv(c')
    requires c' == w.core.(ids := w.core.ids + [id], used := c'.used, marks := c'.marks)
    ensures WorldInv(w.(core := c'))
  {
    var c := w.core;
    AttemptsGrow(w.attempts, c.ids, id);
    PlacesGrow(w.attempts, c.ringing, c.calls, c.ids, id);
    OneDialGrow(w.attempts, c.ids, id);
    DebtsGrow(w.debts, w.attempts, c.calls, c.ids, id);
    SameLog(c.log, |c.ids|);
    GrowInCalls(w, id);
    ForgottenFrame(c.log, c.calls, c.ids, w.debts, w.attempts, c.log, c.calls, c'.ids, w.debts, w.attempts, |c.ids|);
    AcceptsGrow(w.accepts, c.pending, c.calls, c.ids, c.left, c.log, id);
    RequestsFrame(w.hangUps, w.rejects, c.pending, w.accepts, c.calls, w.debts, c.ids, c.calls, w.debts, c'.ids);
  }

  lemma GrowInCalls(w: World, id: string)
    requires Inv(w.core)
    ensures forall k: nat :: InCalls(w.core.calls, w.core.ids + [id], k) <==> InCalls(w.core.calls, w.core.ids, k)
    ensures Last(w.core.log.queue, |w.core.ids|).None?
  {
    Owned(w.core);
    NextIsUnborn(w.core);
  }

  lemma ReserveRefusedKeeps(w: World, id: string, hasToken: bool)
    requires WorldInv(w) && ReserveOutgoing(w.core, id, hasToken).1.Err?
    ensures WorldInv(w.(core := ReserveOutgoing(w.core, id, hasToken).0))
  {
    Sections.ReserveKeeps(w.core, id, hasToken);
    var c' := ReserveOutgoing(w.core, id, hasToken).0;
    assert c' == w.core.(used := c'.used);
  }

  lemma ReserveOkKeeps(w: World, id: string, hasToken: bool)
    requires WorldInv(w) && NotRunning(w, id) && ReserveOutgoing(w.core, id, hasToken).1.Ok?
    ensures WorldInv(w.(core := ReserveOutgoing(w.core, id, hasToken).0,
                        attempts := w.attempts[ReserveOutgoing(w.core, id, hasToken).1.value := Outgoing.FRESH]))
  {
    hide Outgoing.AttemptOk, Inv;
    var c := w.core;
    Sections.ReserveKeeps(c, id, hasToken);
    OutgoingIds(id);
    StartAttemptKeeps(w, id);
  }

  lemma StartAttemptKeeps(w: World, id: string)
    requires WorldInv(w) && NotRunning(w, id) && Inv(Started(w.core, id))
    requires DirectionOf(id).Outbound? && id !in w.core.calls && id !in w.core.ringing
    requires LiveCount(w.core) < MAX_LIVE_CALLS
    ensures WorldInv(w.(core := Started(w.core, id), attempts := w.attempts[|w.core.ids| := Outgoing.FRESH]))
  {
    hide Outgoing.AttemptOk, Inv;
    var c := w.core;
    NextIsUnborn(c);
    NewAttempt(w.attempts, c.ids, id);
    PlacesRing(w.attempts, c.ringing, c.calls, c.ids, id, Pending(|c.ids|, InfoOf(id, Ringing), c.nextSeq, false));
    OneDialAdd(w.attempts, c.ids, id);
    DebtsNewAttempt(w.debts, w.attempts, c.calls, c.ids, id);
    StartForgotten(w, id);
    StartIncoming(w, id);
    SizeWith(c.ringing, id, Pending(|c.ids|, InfoOf(id, Ringing), c.nextSeq, false));
  }

  lemma StartForgotten(w: World, id: string)
    requires WorldInv(w) && DirectionOf(id).Outbound?
    ensures var c' := Started(w.core, id);
            NoneForgotten(c'.log, c'.calls, c'.ids, w.debts, w.attempts[|w.core.ids| := Outgoing.FRESH])
  {
    hide Outgoing.AttemptOk, Inv;
    var c, c' := w.core, Started(w.core, id);
    NextIsUnborn(c);
    InvLog(c);
    RingLog(c, id);
    GrowInCalls(w, id);
    ForgottenFrame(c.log, c.calls, c.ids, w.debts, w.attempts, c'.log, c'.calls, c'.ids, w.debts,
                   w.attempts[|c.ids| := Outgoing.FRESH], |c.ids|);
  }

  lemma StartIncoming(w: World, id: string)
    requires WorldInv(w) && DirectionOf(id).Outbound?
    ensures var c' := Started(w.core, id);
            && AcceptsOk(w.accepts, c'.pending, c'.calls, c'.ids, c'.left, c'.log)
            && RequestsOk(w.hangUps, w.rejects, c'.pending, w.accepts, c'.calls, w.debts, c'.ids)
  {
    hide Outgoing.AttemptOk, Inv;
    var c, c' := w.core, Started(w.core, id);
    NextIsUnborn(c);
    InvLog(c);
    RingLog(c, id);
    GrowInCalls(w, id);
    AcceptsGrow(w.accepts, c.pending, c.calls, c.ids, c.left, c.log, id);
    AcceptsFrame(w.accepts, c.pending, c.calls, c'.ids, c.left, c.log, c.calls, c.left, c'.log, |c.ids|);
    RequestsFrame(w.hangUps, w.rejects, c.pending, w.accepts, c.calls, w.debts, c.ids, c.calls, w.debts, c'.ids);
  }

  lemma InvLog(c: Core)
    requires Inv(c)
    ensures LogOk(c.log)
  {
  }

  lemma NewAttempt(attempts: Attempts, ids: seq<string>, id: string)
    requires AttemptsOk(attempts, ids) && DirectionOf(id).Outbound?
    ensures AttemptsOk(attempts[|ids| := Outgoing.FRESH], ids + [id])
  {
    AttemptsGrow(attempts, ids, id);
  }

  lemma RingLog(c: Core, id: string)
    requires LogOk(c.log) && Unborn(c) && DirectionOf(id).Outbound?
    ensures SameBut(c.log, Started(c, id).log, |c.ids|)
  {
    EmitKeepsLog(c.log, |c.ids|, InfoOf(id, Ringing));
  }

  // ----- Sections of `dial` -----

  lemma MarksDialingKeeps(w: World, k: nat)
    requires WorldInv(w) && CanDial(w, MarksDialing(k))
    ensures WorldInv(DoDial(w, MarksDialing(k)))
  {
    var c, a := w.core, w.attempts[k];
    var a' := Outgoing.Do(a, Outgoing.MarksDialing);
    Outgoing.ActKeeps(a, Outgoing.MarksDialing);
    Owned(c);
    Sections.MarkDialingKeeps(c, c.ids[k]);
    RunningRings(w, k);
    AttemptsUpdate(w.attempts, c.ids, k, a');
    OneDialUpdate(w.attempts, c.ids, k, a');
    DebtsUpdate(w.debts, w.attempts, c.calls, c.ids, k, a');
    SameLog(c.log, k);
    ForgottenOne(w, k, w.attempts[k := a'], c);
    if a.place.InRinging? {
      PlacesMark(w.attempts, c.ringing, c.calls, c.ids, k, a');
      SizeWith(c.ringing, c.ids[k], c.ringing[c.ids[k]].(dialing := true));
    } else {
      PlacesUpdate(w.attempts, c.ringing, c.calls, c.ids, k, a');
    }
  }

  /** A running `dial` finds its own call under its id, or none. */
  lemma RunningRings(w: World, k: nat)
    requires WorldInv(w) && k in w.attempts && !w.attempts[k].dial.Returned?
    ensures w.core.ids[k] in w.core.ringing <==> w.attempts[k].place.InRinging?
    ensures w.attempts[k].place.InRinging? <==> Rings(w.core.ringing, w.core.ids, k)
  {
    Owned(w.core);
    if w.core.ids[k] in w.core.ringing {
      var j := w.core.ringing[w.core.ids[k]].source;
      assert Rings(w.core.ringing, w.core.ids, j);
      assert Outgoing.PlaceOk(w.attempts[j]);
    }
  }

  lemma FailEffect(a: Outgoing.Attempt, act: Outgoing.Act)
    requires Outgoing.AttemptOk(a) && Outgoing.Can(a, act)
    requires act.MediaFails? || (act.JoinsRequest? && a.request.answer.None?)
    ensures !a.dial.Returned?
    ensures var a' := Outgoing.Do(a, act);
            && Outgoing.AttemptOk(a') && a'.dial.Returned?
            && (if a.place.InRinging? then a'.place.Leaving? else Stays(a, a') && a'.place == a.place)
            && (a.canceller.Took? ==> a'.canceller.Took?)
  {
    Outgoing.ActKeeps(a, act);
  }

  lemma EachAttemptOk(w: World, k: nat)
    requires WorldInv(w) && k in w.attempts
    ensures Outgoing.AttemptOk(w.attempts[k]) && Inv(w.core)
  {
    hide Inv, Outgoing.AttemptOk, PlacesOk, OneDial, DebtsOk, NoneForgotten, AcceptsOk, RequestsOk, SlotsOk;
  }

  lemma FailDialKeeps(w: World, k: nat, act: Outgoing.Act)
    requires WorldInv(w) && CanAct(w, k, act)
    requires act.MediaFails? || (act.JoinsRequest? && w.attempts[k].request.answer.None?)
    ensures WorldInv(FailDial(w, k, act))
  {
    hide WorldInv, Inv, Outgoing.Do, Outgoing.AttemptOk, Stays;
    var c, a := w.core, w.attempts[k];
    var a' := Outgoing.Do(a, act);
    EachAttemptOk(w, k);
    FailEffect(a, act);
    RunningRings(w, k);
    if a.place.InRinging? {
      LeavesRinging(w, k, a', w.debts[k := Debt(AsEnded(c.ringing[c.ids[k]].info, Failed), NoHangUp)]);
    } else {
      SameLog(c.log, k);
      AttemptKeeps(w, k, a', c);
    }
  }

  /** A ringing call is taken out: its `Ended` becomes a debt, or the hangup that took it owes it. */
  lemma LeavesRinging(w: World, k: nat, a': Outgoing.Attempt, debts': map<nat, Debt>)
    requires WorldInv(w) && k in w.attempts && Rings(w.core.ringing, w.core.ids, k)
    requires Outgoing.AttemptOk(a') && !a'.place.InRinging? && !a'.place.InCalls?
    requires w.attempts[k].dial.Returned? ==> a'.dial.Returned?
    requires OwedFor(w, k, a', debts')
    ensures WorldInv(w.(attempts := w.attempts[k := a'], debts := debts',
                        core := w.core.(ringing := w.core.ringing - {w.core.ids[k]})))
  {
    hide Outgoing.AttemptOk, Inv;
    var c := w.core;
    Owned(c);
    RemoveRingingKeeps(c, c.ids[k]);
    AttemptsUpdate(w.attempts, c.ids, k, a');
    PlacesUnring(w.attempts, c.ringing, c.calls, c.ids, k, a');
    OneDialUpdate(w.attempts, c.ids, k, a');
    SizeWithout(c.ringing, c.ids[k]);
    LeavesRingingDebts(w, k, a', debts');
  }

  ghost predicate OwedFor(w: World, k: nat, a': Outgoing.Attempt, debts': map<nat, Debt>)
    requires Rings(w.core.ringing, w.core.ids, k)
  {
    if a'.place.Leaving?
    then exists reason :: debts' == w.debts[k := Debt(AsEnded(w.core.ringing[w.core.ids[k]].info, reason), NoHangUp)]
    else a'.canceller.Took? && debts' == w.debts
  }

  lemma LeavesRingingDebts(w: World, k: nat, a': Outgoing.Attempt, debts': map<nat, Debt>)
    requires WorldInv(w) && k in w.attempts && Rings(w.core.ringing, w.core.ids, k)
    requires OwedFor(w, k, a', debts')
    ensures var c, attempts' := w.core, w.attempts[k := a'];
            && DebtsOk(debts', attempts', c.calls, c.ids)
            && NoneForgotten(c.log, c.calls, c.ids, debts', attempts')
            && RequestsOk(w.hangUps, w.rejects, c.pending, w.accepts, c.calls, debts', c.ids)
  {
    hide Outgoing.AttemptOk, Inv;
    var c, attempts' := w.core, w.attempts[k := a'];
    SameLog(c.log, k);
    LeavesRingingOwed(w, k, a', debts');
    ForgottenFrame(c.log, c.calls, c.ids, w.debts, w.attempts, c.log, c.calls, c.ids, debts', attempts', k);
    OutgoingRetired(w, k);
    RequestsOwe(w, k, c.calls, debts');
  }

  lemma LeavesRingingOwed(w: World, k: nat, a': Outgoing.Attempt, debts': map<nat, Debt>)
    requires WorldInv(w) && k in w.attempts && Rings(w.core.ringing, w.core.ids, k)
    requires OwedFor(w, k, a', debts')
    ensures DebtsOk(debts', w.attempts[k := a'], w.core.calls, w.core.ids)
  {
    hide Outgoing.AttemptOk, Inv;
    var c := w.core;
    Owned(c);
    if a'.place.Leaving? {
      NotInCalls(w, k);
      DebtsOwe(w.debts, w.attempts, w.attempts[k := a'], c.calls, c.calls, c.ids, k, debts'[k]);
    } else {
      DebtsUpdate(w.debts, w.attempts, c.calls, c.ids, k, a');
    }
  }

  lemma NotInCalls(w: World, k: nat)
    requires WorldInv(w) && k in w.attempts && !w.attempts[k].place.InCalls?
    ensures !InCalls(w.core.calls, w.core.ids, k)
  {
  }

  /** No offer or accept has anything to do with an outgoing call. */
  lemma OutgoingRetired(w: World, k: nat)
    requires WorldInv(w) && k < |w.core.ids| && DirectionOf(w.core.ids[k]).Outbound?
    ensures Retired(w.core.pending, w.accepts, k)
  {
    forall t | t in w.core.pending ensures w.core.pending[t].source != k {
      IncomingIds(t, t);
    }
    forall t | t in w.accepts ensures w.accepts[t] != Sending(k) && w.accepts[t] != Cleared(k) {
      IncomingIds(t, t);
      assert Bound(w.accepts[t]) ==> w.core.ids[w.accepts[t].source] == IncomingId(t);
    }
  }

  lemma RequestsOwe(w: World, k: nat, calls': map<string, Active>, debts': map<nat, Debt>)
    requires RequestsOk(w.hangUps, w.rejects, w.core.pending, w.accepts, w.core.calls, w.debts, w.core.ids)
    requires Retired(w.core.pending, w.accepts, k) && k !in w.hangUps
    requires debts'.Keys <= w.debts.Keys + {k}
    requires forall j: nat :: InCalls(calls', w.core.ids, j) ==> InCalls(w.core.calls, w.core.ids, j)
    ensures RequestsOk(w.hangUps, w.rejects, w.core.pending, w.accepts, calls', debts', w.core.ids)
  {
    RequestsFrame(w.hangUps, w.rejects, w.core.pending, w.accepts, w.core.calls, w.debts, w.core.ids, calls', debts',
                  w.core.ids);
  }
}
