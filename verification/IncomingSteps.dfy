/** The steps of incoming calls keep the world's invariant. */
module IncomingSteps {
  import opened Types
  import opened Events
  import opened Calls
  import opened CallsInvariant
  import opened Sections
  import opened World
  import opened WorldInvariant
  import opened Frames
  import opened OutgoingSteps
  import opened CallSteps
  import Outgoing

  // ----- Offers -----

  /** The offer of a token is a single one: its source is no other offer's. */
  lemma OwnOffer(c: Core)
    requires Inv(c)
    ensures forall t, u :: t in c.pending && u in c.pending && c.pending[t].source == c.pending[u].source ==> t == u
    ensures forall t :: t in c.pending ==>
              && c.pending[t].source < |c.ids| && c.ids[c.pending[t].source] == IncomingId(t)
              && c.pending[t].source !in c.left
              && !InCalls(c.calls, c.ids, c.pending[t].source)
              && (c.pending[t].source in c.log.ended || Last(c.log.queue, c.pending[t].source).None?)
  {
    forall t, u | t in c.pending && u in c.pending && c.pending[t].source == c.pending[u].source ensures t == u {
      IncomingIds(t, u);
    }
  }

  /** The offer of `t` changes flags, in a way no running accept minds. */
  lemma FlagsKeeps(w: World, t: string, e: Offered, rejects': multiset<nat>)
    requires WorldInv(w) && t in w.core.pending
    requires e.source == w.core.pending[t].source && e.info == w.core.pending[t].info
    requires w.core.pending[t].accepting ==> e.accepting
    requires rejects' == if e.rejected == w.core.pending[t].rejected then w.rejects else w.rejects + multiset{e.source}
    requires w.core.pending[t].rejected ==> e.rejected
    ensures WorldInv(w.(core := w.core.(pending := w.core.pending[t := e]), rejects := rejects'))
  {
    hide Outgoing.AttemptOk, Inv, AttemptsOk, PlacesOk, OneDial, DebtsOk, NoneForgotten, AcceptsOk;
    var c := w.core;
    ReplaceOffer(c, t, e);
    OwnOffer(c);
    AcceptsOffer(w.accepts, c.pending, c.calls, c.ids, c.left, c.log, c.pending[t := e]);
    FlagsRequests(w, t, e, rejects');
  }

  lemma FlagsRequests(w: World, t: string, e: Offered, rejects': multiset<nat>)
    requires RequestsOk(w.hangUps, w.rejects, w.core.pending, w.accepts, w.core.calls, w.debts, w.core.ids)
    requires t in w.core.pending && e.source == w.core.pending[t].source && e.source < |w.core.ids|
    requires forall u :: u in w.core.pending && w.core.pending[u].source == e.source ==> t == u
    requires rejects' == if e.rejected == w.core.pending[t].rejected then w.rejects else w.rejects + multiset{e.source}
    requires w.core.pending[t].rejected ==> e.rejected
    ensures RequestsOk(w.hangUps, rejects', w.core.pending[t := e], w.accepts, w.core.calls, w.debts, w.core.ids)
  {
  }

  /** The offer of `t` is taken; a hang-up may follow. */
  lemma TakenKeeps(w: World, t: string, c': Core, hangUps': multiset<nat>)
    requires WorldInv(w) && t in w.core.pending
    requires Inv(c') && c' == w.core.(pending := w.core.pending - {t}, log := c'.log)
    requires SameBut(w.core.log, c'.log, w.core.pending[t].source)
    requires w.core.pending[t].source in c'.log.ended || c'.log == w.core.log
    requires hangUps' == w.hangUps || (hangUps' == w.hangUps + multiset{w.core.pending[t].source}
                                       && !w.core.pending[t].accepting)
    ensures WorldInv(w.(core := c', hangUps := hangUps'))
  {
    hide Outgoing.AttemptOk, Inv, AttemptsOk, PlacesOk, OneDial, DebtsOk, NoneForgotten, AcceptsOk, RequestsOk;
    var c, k := w.core, w.core.pending[t].source;
    OwnOffer(c);
    TakenLog(w, k, c'.log);
    AcceptsOffer(w.accepts, c.pending, c.calls, c.ids, c.left, c'.log, c.pending - {t});
    TakenRequests(w, t, hangUps');
  }

  /** The log changes at most by an `Ended` of a call that is in neither map. */
  lemma TakenLog(w: World, k: nat, log': EventLog)
    requires WorldInv(w) && SameBut(w.core.log, log', k) && (k in log'.ended || log' == w.core.log)
    ensures NoneForgotten(log', w.core.calls, w.core.ids, w.debts, w.attempts)
    ensures AcceptsOk(w.accepts, w.core.pending, w.core.calls, w.core.ids, w.core.left, log')
  {
    hide Outgoing.AttemptOk, Inv, AttemptsOk, PlacesOk, OneDial, DebtsOk, RequestsOk;
    var c := w.core;
    if k in log'.ended {
      ForgottenFrame(c.log, c.calls, c.ids, w.debts, w.attempts, log', c.calls, c.ids, w.debts, w.attempts, k);
      AcceptsFrame(w.accepts, c.pending, c.calls, c.ids, c.left, c.log, c.calls, c.left, log', k);
    }
  }

  lemma TakenRequests(w: World, t: string, hangUps': multiset<nat>)
    requires WorldInv(w) && t in w.core.pending
    requires hangUps' == w.hangUps || (hangUps' == w.hangUps + multiset{w.core.pending[t].source}
                                       && !w.core.pending[t].accepting)
    ensures RequestsOk(hangUps', w.rejects, w.core.pending - {t}, w.accepts, w.core.calls, w.debts, w.core.ids)
  {
    hide Outgoing.AttemptOk, Inv, AttemptsOk, PlacesOk, OneDial, DebtsOk, NoneForgotten, AcceptsOk, AcceptOk, SlotsOk,
         RequestsOk, RejectingOk;
    var c, k := w.core, w.core.pending[t].source;
    OwnOffer(c);
    IncomingIds(t, t);
    RequestsTake(w.hangUps, w.rejects, c.pending, w.accepts, c.calls, w.debts, c.ids, t);
    if hangUps' != w.hangUps {
      NotBeingAccepted(w, t);
      OfferedIsFree(w, t);
      RequestsHangUp(w.hangUps, w.rejects, c.pending - {t}, w.accepts, c.calls, w.debts, c.ids, k);
    }
  }

  lemma OfferedIsFree(w: World, t: string)
    requires WorldInv(w) && t in w.core.pending
    ensures w.core.pending[t].source !in w.hangUps && w.core.pending[t].source !in w.debts
  {
    hide Outgoing.AttemptOk, Inv, AttemptsOk, PlacesOk, OneDial, DebtsOk, NoneForgotten, AcceptsOk;
  }

  /** An offer that is not being accepted is no running accept's. */
  lemma NotBeingAccepted(w: World, t: string)
    requires WorldInv(w) && t in w.core.pending && !w.core.pending[t].accepting
    ensures Retired(w.core.pending - {t}, w.accepts, w.core.pending[t].source)
  {
    hide Outgoing.AttemptOk, Inv, AttemptsOk, PlacesOk, OneDial, DebtsOk, NoneForgotten, RequestsOk;
    var k := w.core.pending[t].source;
    OwnOffer(w.core);
    forall u | u in w.accepts ensures w.accepts[u] != Sending(k) && w.accepts[u] != Cleared(k) {
      if Bound(w.accepts[u]) && w.accepts[u].source == k {
        assert w.core.ids[k] == IncomingId(u);
        IncomingIds(t, u);
      }
    }
  }

  lemma WatchOtherKeeps(w: World, t: string)
    requires WorldInv(w) && t in w.core.pending && w.core.pending[t].abandoned && !w.core.pending[t].rejected
    ensures var e := w.core.pending[t];
            WorldInv(w.(core := w.core.(pending := w.core.pending[t := e.(rejected := true)]),
                        rejects := w.rejects + multiset{e.source}))
  {
    hide WorldInv;
    var e := w.core.pending[t];
    FlagsKeeps(w, t, e.(rejected := true), w.rejects + multiset{e.source});
  }

  lemma WatchGoneKeeps(w: World, t: string, seen: Seen)
    requires WorldInv(w) && t in w.core.pending && !seen.SawOther?
    ensures var e := w.core.pending[t];
            var hangsUp := seen.SawActive? && !e.accepting && e.abandoned;
            WorldInv(w.(core := WatchStatus(w.core, t, seen).0,
                        hangUps := if hangsUp then w.hangUps + multiset{e.source} else w.hangUps))
  {
    hide Outgoing.AttemptOk, Inv, AttemptsOk, PlacesOk, OneDial, DebtsOk, NoneForgotten, AcceptsOk, AcceptOk, SlotsOk,
         RequestsOk, RejectingOk;
    var e := w.core.pending[t];
    var hangsUp := seen.SawActive? && !e.accepting && e.abandoned;
    WatchStatusKeeps(w.core, t, seen);
    WatchGoneLog(w.core, t, seen);
    TakenKeeps(w, t, WatchStatus(w.core, t, seen).0, if hangsUp then w.hangUps + multiset{e.source} else w.hangUps);
  }

  lemma WatchGoneLog(c: Core, t: string, seen: Seen)
    requires t in c.pending && !seen.SawOther?
    ensures var e, c' := c.pending[t], WatchStatus(c, t, seen).0;
            && c' == c.(pending := c.pending - {t}, log := c'.log)
            && SameBut(c.log, c'.log, e.source)
            && (e.source in c'.log.ended || c'.log == c.log)
  {
    var e := c.pending[t];
    EmitOthers(c.log, e.source, AsEnded(e.info, if seen.SawGone? then seen.reason else AnsweredElsewhere));
    SameLog(c.log, e.source);
  }

  lemma NewOfferKeeps(w: World, t: string, route: Route, abandoned: bool)
    requires WorldInv(w) && t !in w.core.pending
    ensures WorldInv(w.(core := WatchIncoming(w.core, t, route, abandoned)))
  {
    hide Outgoing.AttemptOk, Inv;
    var c := w.core;
    var c1 := c.(ids := c.ids + [IncomingId(t)]);
    NewIncomingKeeps(c, t);
    GrowKeeps(w, IncomingId(t), c1);
    NewIsNowhere(w, IncomingId(t));
    NewHasNoAccept(w);
    WatchIncomingKeeps(c, t, route, abandoned);
    var e := Offered(|c.ids|, InfoOf(IncomingId(t), Ended), route, false, abandoned, false);
    AddOfferKeeps(w.(core := c1), t, e);
  }

  /** Nothing refers to a `CallEvents` that does not exist yet. */
  lemma NewHasNoAccept(w: World)
    requires WorldInv(w)
    ensures var k := |w.core.ids|;
            && (forall t :: t in w.accepts && Bound(w.accepts[t]) ==> w.accepts[t].source != k)
            && k !in w.hangUps && k !in w.debts && k !in w.rejects
  {
  }

  lemma AddOfferKeeps(w: World, t: string, e: Offered)
    requires WorldInv(w) && Inv(w.core.(pending := w.core.pending[t := e])) && t !in w.core.pending
    requires forall u :: u in w.accepts && Bound(w.accepts[u]) ==> w.accepts[u].source != e.source
    requires e.source !in w.hangUps && e.source !in w.debts && e.source !in w.rejects && !e.rejected
    ensures WorldInv(w.(core := w.core.(pending := w.core.pending[t := e])))
  {
    hide Outgoing.AttemptOk, Inv, AttemptsOk, PlacesOk, OneDial, DebtsOk, NoneForgotten, AcceptsOk, AcceptOk, SlotsOk,
         RequestsOk, RejectingOk;
    var c := w.core;
    AcceptsOffer(w.accepts, c.pending, c.calls, c.ids, c.left, c.log, c.pending[t := e]);
    RequestsOffer(w.hangUps, w.rejects, c.pending, w.accepts, c.calls, w.debts, c.ids, t, e);
  }

  lemma OffersKeeps(w: World, t: string, route: Route)
    requires WorldInv(w)
    ensures WorldInv(w.(core := WatchIncoming(w.core, t, route, false)))
  {
    hide WorldInv, InfoOf;
    if t in w.core.pending {
      assert w.core.pending[t := w.core.pending[t]] == w.core.pending;
    } else {
      NewOfferKeeps(w, t, route, false);
    }
  }

  // ----- Accepting -----

  /** Only the accept of `t` moves on, without giving up its slot. */
  lemma PhaseKeeps(w: World, t: string, accept: Accept)
    requires WorldInv(w) && t in w.accepts && HoldsSlot(w.accepts[t]) && HoldsSlot(accept)
    requires AcceptOk(t, accept, w.core.pending, w.core.calls, w.core.ids, w.core.left, w.core.log)
    requires forall k :: k in w.hangUps || k in w.debts ==> accept != Sending(k) && accept != Cleared(k)
    ensures WorldInv(w.(accepts := w.accepts[t := accept]))
  {
    hide Outgoing.AttemptOk, Inv, AttemptsOk, PlacesOk, OneDial, DebtsOk, NoneForgotten, AcceptsOk, AcceptOk,
         RequestsOk, RejectingOk;
    var c := w.core;
    SlotsSet(w.accepts, c.accepting, t, accept);
    assert c.accepting + {t} == c.accepting;
    AcceptsSet(w.accepts, c.pending, c.calls, c.ids, c.left, c.log, t, accept);
    RequestsSet(w.hangUps, w.rejects, c.pending, w.accepts, c.calls, w.debts, c.ids, t, accept);
  }

  lemma PhaseOk(w: World, t: string)
    requires WorldInv(w) && t in w.accepts
    ensures AcceptOk(t, w.accepts[t], w.core.pending, w.core.calls, w.core.ids, w.core.left, w.core.log)
  {
    hide Outgoing.AttemptOk, Inv, AttemptsOk, PlacesOk, OneDial, DebtsOk, NoneForgotten, RequestsOk, AcceptOk;
  }

  lemma AcceptReservesKeeps(w: World, t: string)
    requires WorldInv(w) && t !in w.accepts && ReserveAccept(w.core, t).1
    ensures WorldInv(w.(core := ReserveAccept(w.core, t).0, accepts := w.accepts[t := Holding]))
  {
    hide Outgoing.AttemptOk, AttemptsOk, PlacesOk, OneDial, DebtsOk, NoneForgotten, AcceptsOk, SlotsOk, RequestsOk,
         RejectingOk;
    var c := w.core;
    SlotsSet(w.accepts, c.accepting, t, Holding);
    AcceptsSet(w.accepts, c.pending, c.calls, c.ids, c.left, c.log, t, Holding);
    RequestsSet(w.hangUps, w.rejects, c.pending, w.accepts, c.calls, w.debts, c.ids, t, Holding);
    ReserveAcceptKeeps(c, t);
  }

  lemma ReserveAcceptKeeps(c: Core, t: string)
    requires Inv(c)
    ensures Inv(ReserveAccept(c, t).0) && Inv(ReleaseAccept(c, t))
  {
  }

  lemma AcceptBeginsKeeps(w: World, t: string)
    requires WorldInv(w) && t in w.accepts && w.accepts[t].Holding?
    ensures WorldInv(w.(core := BeginAccept(w.core, t).0, accepts := w.accepts[t := Sending(BeginAccept(w.core, t).1)]))
  {
    hide Outgoing.AttemptOk, Inv;
    var c := w.core;
    if t in c.pending {
      var e := c.pending[t].(accepting := true);
      FlagsKeeps(w, t, e, w.rejects);
      OwnOffer(c);
      SendKeeps(w.(core := c.(pending := c.pending[t := e])), t, e.source);
    } else {
      NewIncomingKeeps(c, t);
      GrowKeeps(w, IncomingId(t), c.(ids := c.ids + [IncomingId(t)]));
      NewHasNoAccept(w);
      NextIsUnborn(c);
      SendKeeps(w.(core := c.(ids := c.ids + [IncomingId(t)])), t, |c.ids|);
    }
  }

  lemma SendKeeps(w: World, t: string, k: nat)
    requires WorldInv(w) && t in w.accepts && w.accepts[t].Holding?
    requires k < |w.core.ids| && w.core.ids[k] == IncomingId(t) && k !in w.core.left
    requires k in w.core.log.ended || Last(w.core.log.queue, k).None?
    requires t in w.core.pending && w.core.pending[t].source == k ==> w.core.pending[t].accepting
    requires (t in w.core.pending && w.core.pending[t].source == k) || (k !in w.hangUps && k !in w.debts)
    ensures WorldInv(w.(accepts := w.accepts[t := Sending(k)]))
  {
    hide Outgoing.AttemptOk, Inv, AttemptsOk, PlacesOk, OneDial, DebtsOk, NoneForgotten, AcceptsOk, SlotsOk,
         RequestsOk, RejectingOk;
    if k in w.hangUps || k in w.debts { OfferedIsFree(w, t); }
    PhaseOk(w, t);
    PhaseKeeps(w, t, Sending(k));
  }

  lemma ClosingOk(w: World, t: string)
    ensures AcceptOk(t, Closing(true), w.core.pending, w.core.calls, w.core.ids, w.core.left, w.core.log)
  {
  }

  lemma AcceptFailsEarlyKeeps(w: World, t: string)
    requires WorldInv(w) && t in w.accepts && w.accepts[t].Holding?
    ensures WorldInv(w.(accepts := w.accepts[t := Closing(true)]))
  {
    ClosingOk(w, t);
    PhaseKeeps(w, t, Closing(true));
  }

  lemma AcceptRefusedKeeps(w: World, t: string)
    requires WorldInv(w) && t in w.accepts && w.accepts[t].Sending?
    ensures WorldInv(w.(core := RefuseAccept(w.core, t), accepts := w.accepts[t := Closing(true)]))
  {
    hide Outgoing.AttemptOk, Inv;
    var w1 := w.(accepts := w.accepts[t := Closing(true)]);
    ClosingOk(w, t);
    PhaseKeeps(w, t, Closing(true));
    if t in w.core.pending {
      UnacceptingKeeps(w1, t, w.core.pending[t].(accepting := false));
    }
  }

  /** The offer of `t` is no longer being accepted: no accept of `t` is still sending. */
  lemma UnacceptingKeeps(w: World, t: string, e: Offered)
    requires WorldInv(w) && t in w.core.pending && t in w.accepts && !w.accepts[t].Sending?
    requires e.source == w.core.pending[t].source && e.info == w.core.pending[t].info
             && e.rejected == w.core.pending[t].rejected
    ensures WorldInv(w.(core := w.core.(pending := w.core.pending[t := e])))
  {
    hide Outgoing.AttemptOk, Inv, AttemptsOk, PlacesOk, OneDial, DebtsOk, NoneForgotten, RequestsOk, SlotsOk,
         RejectingOk, AcceptsOk;
    var c := w.core;
    ReplaceOffer(c, t, e);
    OwnOffer(c);
    FlagsRequests(w, t, e, w.rejects);
    UnacceptingAccepts(w, t, e);
  }

  lemma UnacceptingAccepts(w: World, t: string, e: Offered)
    requires AcceptsOk(w.accepts, w.core.pending, w.core.calls, w.core.ids, w.core.left, w.core.log)
    requires t in w.core.pending && t in w.accepts && !w.accepts[t].Sending? && e.source == w.core.pending[t].source
    ensures AcceptsOk(w.accepts, w.core.pending[t := e], w.core.calls, w.core.ids, w.core.left, w.core.log)
  {
  }

  lemma AcceptUnknownKeeps(w: World, t: string, route: Route)
    requires WorldInv(w) && t in w.accepts && w.accepts[t].Sending?
    ensures WorldInv(w.(core := WatchIncoming(w.core, t, route, true),
                        accepts := w.accepts[t := Forsaking(w.accepts[t].source)]))
  {
    hide Outgoing.AttemptOk, Inv;
    var w1 := w.(accepts := w.accepts[t := Forsaking(w.accepts[t].source)]);
    PhaseOk(w, t);
    PhaseKeeps(w, t, Forsaking(w.accepts[t].source));
    if t in w.core.pending {
      UnacceptingKeeps(w1, t, w.core.pending[t].(abandoned := true, accepting := false));
    } else {
      NewOfferKeeps(w1, t, route, true);
    }
  }

  lemma AcceptReportsFailedKeeps(w: World, t: string)
    requires WorldInv(w) && t in w.accepts && w.accepts[t].Forsaking?
    ensures WorldInv(w.(core := Say(w.core, w.accepts[t].source, AsEnded(InfoOf(IncomingId(t), Connected), Failed)),
                        accepts := w.accepts[t := Closing(true)]))
  {
    hide Outgoing.AttemptOk, Inv;
    var c, k := w.core, w.accepts[t].source;
    PhaseOk(w, t);
    ClosingOk(w, t);
    PhaseKeeps(w, t, Closing(true));
    IncomingIds(t, t);
    IncomingReported(w.(accepts := w.accepts[t := Closing(true)]), k,
                     AsEnded(InfoOf(IncomingId(t), Connected), Failed));
  }

  /** An incoming call is reported ended. */
  lemma IncomingReported(w: World, k: nat, info: CallInfo)
    requires WorldInv(w) && Proper(w.core.ids, k, info) && info.direction.Inbound?
    requires info.state.Ended? && info.endReason.Some?
    ensures WorldInv(w.(core := Say(w.core, k, info)))
  {
    hide Outgoing.AttemptOk, Inv, AttemptsOk, PlacesOk, OneDial, DebtsOk, NoneForgotten, AcceptsOk, RequestsOk;
    var c := w.core;
    InvRinging(c);
    OfferedNotRinging(c, k);
    EndKeeps(c, k, info);
    TakenLog(w, k, Say(c, k, info).log);
  }

  lemma InvRinging(c: Core)
    requires Inv(c)
    ensures RingingOk(c.ringing, c.ids, c.nextSeq, c.left, c.log)
  {
  }

  lemma AcceptClearsKeeps(w: World, t: string)
    requires WorldInv(w) && t in w.accepts && w.accepts[t].Sending?
    ensures WorldInv(w.(core := TakeOffered(w.core, t).0, accepts := w.accepts[t := Cleared(w.accepts[t].source)]))
  {
    hide Outgoing.AttemptOk, Inv;
    var w1 := w.(core := TakeOffered(w.core, t).0);
    if t in w.core.pending {
      RemoveOfferedKeeps(w.core, t);
      SameLog(w.core.log, w.core.pending[t].source);
      TakenKeeps(w, t, w1.core, w.hangUps);
    }
    ClearKeeps(w1, t);
  }

  lemma ClearKeeps(w: World, t: string)
    requires WorldInv(w) && t in w.accepts && w.accepts[t].Sending? && t !in w.core.pending
    ensures WorldInv(w.(accepts := w.accepts[t := Cleared(w.accepts[t].source)]))
  {
    hide Outgoing.AttemptOk, Inv, AttemptsOk, PlacesOk, OneDial, DebtsOk, NoneForgotten, AcceptsOk, SlotsOk,
         RequestsOk, RejectingOk;
    var k := w.accepts[t].source;
    PhaseOk(w, t);
    OwnOffer(w.core);
    forall u | u in w.core.pending ensures w.core.pending[u].source != k { IncomingIds(t, u); }
    SendingIsFree(w, t);
    PhaseKeeps(w, t, Cleared(k));
  }

  lemma SendingIsFree(w: World, t: string)
    requires WorldInv(w) && t in w.accepts && (w.accepts[t].Sending? || w.accepts[t].Cleared?)
    ensures w.accepts[t].source !in w.hangUps && w.accepts[t].source !in w.debts
  {
    hide Outgoing.AttemptOk, Inv, AttemptsOk, PlacesOk, OneDial, DebtsOk, NoneForgotten, AcceptsOk;
  }

  // ----- The accepted call connects, or not -----

  /** The call ended while it was being accepted: it is hung up, and never connects. */
  lemma AcceptMissesKeeps(w: World, t: string)
    requires WorldInv(w) && t in w.accepts && w.accepts[t].Cleared?
    ensures WorldInv(w.(core := ReleaseAccept(w.core, t), accepts := w.accepts[t := Closing(false)],
                        hangUps := w.hangUps + multiset{w.accepts[t].source}))
  {
    hide Outgoing.AttemptOk, Inv, AttemptsOk, PlacesOk, OneDial, DebtsOk, NoneForgotten, AcceptsOk, AcceptOk, SlotsOk,
         RequestsOk, RejectingOk;
    var c := w.core;
    SlotsSet(w.accepts, c.accepting, t, Closing(false));
    ClosedOk(w, t);
    AcceptsSet(w.accepts, c.pending, c.calls, c.ids, c.left, c.log, t, Closing(false));
    ReserveAcceptKeeps(c, t);
    MissRequests(w, t);
    assert |c.accepting - {t}| <= |c.accepting|;
  }

  lemma ClosedOk(w: World, t: string)
    ensures AcceptOk(t, Closing(false), w.core.pending, w.core.calls, w.core.ids, w.core.left, w.core.log)
  {
  }

  lemma MissRequests(w: World, t: string)
    requires WorldInv(w) && t in w.accepts && w.accepts[t].Cleared?
    ensures RequestsOk(w.hangUps + multiset{w.accepts[t].source}, w.rejects, w.core.pending,
                       w.accepts[t := Closing(false)],
                       w.core.calls, w.debts, w.core.ids)
  {
    hide Outgoing.AttemptOk, Inv, AttemptsOk, PlacesOk, OneDial, DebtsOk, NoneForgotten, AcceptsOk, SlotsOk,
         RequestsOk, RejectingOk;
    var c, k := w.core, w.accepts[t].source;
    SoleAccept(w, t);
    PhaseOk(w, t);
    IncomingIds(t, t);
    SendingIsFree(w, t);
    RequestsSet(w.hangUps, w.rejects, c.pending, w.accepts, c.calls, w.debts, c.ids, t, Closing(false));
    RequestsHangUp(w.hangUps, w.rejects, c.pending, w.accepts[t := Closing(false)], c.calls, w.debts, c.ids, k);
  }

  /** Once the accept of `t` is over, nothing else will make its call connect. */
  lemma SoleAccept(w: World, t: string)
    requires WorldInv(w) && t in w.accepts && w.accepts[t].Cleared?
    ensures Retired(w.core.pending, w.accepts[t := Closing(false)], w.accepts[t].source)
  {
    hide Outgoing.AttemptOk, Inv, AttemptsOk, PlacesOk, OneDial, DebtsOk, NoneForgotten, RequestsOk;
    var k := w.accepts[t].source;
    forall u | u in w.accepts && u != t ensures w.accepts[u] != Sending(k) && w.accepts[u] != Cleared(k) {
      if Bound(w.accepts[u]) && w.accepts[u].source == k { IncomingIds(t, u); }
    }
  }

  /** Connecting is: release the slot, hold the others, then add the call. */
  function Added(c: Core, id: string, call: Active): Core {
    Say(c, call.source, call.info).(calls := c.calls[id := call], nextSeq := c.nextSeq + 1)
  }

  lemma ConnectIsAdd(c: Core, t: string, k: nat, route: Route)
    requires Inv(c) && k !in c.log.ended
    ensures ConnectAccepted(c, t, k, route).0 ==
            Added(HoldOthers(c, IncomingId(t)), IncomingId(t),
                  Active(k, InfoOf(IncomingId(t), Connected), c.nextSeq, t, route,
                         false)).(accepting := c.accepting - {t})
  {
    HoldCommutes(c, t);
    hide Inv;
    HoldOthersKeeps(c, IncomingId(t));
  }

  /** Releasing a slot and holding calls do not interfere. */
  lemma HoldCommutes(c: Core, t: string)
    requires Inv(c)
    ensures HoldOthers(ReleaseAccept(c, t), IncomingId(t)) ==
            HoldOthers(c, IncomingId(t)).(accepting := c.accepting - {t})
  {
    var c0, id := ReleaseAccept(c, t), IncomingId(t);
    if OffHold(c.calls) <= {id} {
      HoldOthersIsNothing(c, id);
      HoldOthersIsNothing(c0, id);
    } else {
      var i :| i in OffHold(c.calls) && i != id;
      HoldOthersIsUpdate(c, id, i);
      HoldOthersIsUpdate(c0, id, i);
    }
  }

  lemma AcceptJoins(w: World, t: string, route: Route)
    requires WorldInv(w) && t in w.accepts && w.accepts[t].Cleared? && w.accepts[t].source !in w.core.log.ended
    ensures WorldInv(w.(core := ConnectAccepted(w.core, t, w.accepts[t].source, route).0,
                        accepts := w.accepts[t := Closing(false)]))
  {
    hide Outgoing.AttemptOk, Inv;
    var c, k, id := w.core, w.accepts[t].source, IncomingId(t);
    var c1 := HoldOthers(c, id);
    ConnectAcceptedKeeps(c, t, k, route);
    HoldOthersKeeps(c, id);
    HoldOthersIsControl(c, id);
    ControlKeeps(w, c1);
    ConnectIsAdd(c, t, k, route);
    AddKeeps(w.(core := c1), t, Active(k, InfoOf(id, Connected), c.nextSeq, t, route, false));
  }

  lemma AddKeeps(w: World, t: string, call: Active)
    requires WorldInv(w) && t in w.accepts && w.accepts[t] == Cleared(call.source)
    requires call.source !in w.core.log.ended && call.info == InfoOf(IncomingId(t), Connected)
    requires Inv(Added(w.core, IncomingId(t), call).(accepting := w.core.accepting - {t}))
    ensures WorldInv(w.(core := Added(w.core, IncomingId(t), call).(accepting := w.core.accepting - {t}),
                        accepts := w.accepts[t := Closing(false)]))
  {
    hide Outgoing.AttemptOk, Inv, AttemptsOk, OneDial, DebtsOk, NoneForgotten, RequestsOk, PlacesOk;
    var c, id := w.core, IncomingId(t);
    IncomingIds(t, t);
    PlacesIncoming(w.attempts, c.ringing, c.calls, c.ids, id, call);
    SlotsSet(w.accepts, c.accepting, t, Closing(false));
    AddDebts(w, t, call);
    AddAccepts(w, t, call);
    AddRequests(w, t, call);
    SizeWith(c.calls, id, call);
    assert |c.accepting - {t}| == |c.accepting| - 1;
  }

  lemma AddDebts(w: World, t: string, call: Active)
    requires WorldInv(w) && t in w.accepts && w.accepts[t] == Cleared(call.source)
    ensures var c' := Added(w.core, IncomingId(t), call);
            && DebtsOk(w.debts, w.attempts, c'.calls, c'.ids)
            && NoneForgotten(c'.log, c'.calls, c'.ids, w.debts, w.attempts)
  {
    hide Outgoing.AttemptOk, Inv, AttemptsOk, PlacesOk, OneDial, DebtsOk, NoneForgotten;
    var c, k := w.core, call.source;
    var c' := Added(c, IncomingId(t), call);
    MoveInCalls(c, k, call);
    EmitOthers(c.log, k, call.info);
    DebtsCalls(w.debts, w.attempts, c.calls, c'.calls, c.ids);
    ForgottenFrame(c.log, c.calls, c.ids, w.debts, w.attempts, c'.log, c'.calls, c.ids, w.debts, w.attempts, k);
  }

  lemma AddAccepts(w: World, t: string, call: Active)
    requires WorldInv(w) && t in w.accepts && w.accepts[t] == Cleared(call.source)
    ensures var c' := Added(w.core, IncomingId(t), call);
            AcceptsOk(w.accepts[t := Closing(false)], c'.pending, c'.calls, c'.ids, c'.left, c'.log)
  {
    hide Outgoing.AttemptOk, Inv, AttemptsOk, PlacesOk, OneDial, DebtsOk, NoneForgotten, RequestsOk;
    var c, k := w.core, call.source;
    var accepts' := w.accepts[t := Closing(false)];
    EmitOthers(c.log, k, call.info);
    SoleAcceptOf(w, t);
    forall u | u in accepts' && u != t ensures IncomingId(u) != IncomingId(t) { IncomingIds(t, u); }
  }

  lemma SoleAcceptOf(w: World, t: string)
    requires WorldInv(w) && t in w.accepts && Bound(w.accepts[t])
    ensures forall u :: u in w.accepts && u != t && Bound(w.accepts[u]) ==> w.accepts[u].source != w.accepts[t].source
  {
    hide Outgoing.AttemptOk, Inv, AttemptsOk, PlacesOk, OneDial, DebtsOk, NoneForgotten, RequestsOk;
    forall u | u in w.accepts && u != t && Bound(w.accepts[u]) ensures w.accepts[u].source != w.accepts[t].source {
      IncomingIds(t, u);
    }
  }

  lemma AddRequests(w: World, t: string, call: Active)
    requires WorldInv(w) && t in w.accepts && w.accepts[t] == Cleared(call.source)
    ensures var c' := Added(w.core, IncomingId(t), call);
            RequestsOk(w.hangUps, w.rejects, c'.pending, w.accepts[t := Closing(false)], c'.calls, w.debts, c'.ids)
  {
    hide Outgoing.AttemptOk, Inv, AttemptsOk, PlacesOk, OneDial, DebtsOk, NoneForgotten, AcceptsOk, SlotsOk,
         RequestsOk, RejectingOk;
    var c, k := w.core, call.source;
    PhaseOk(w, t);
    MoveInCalls(c, k, call);
    SendingIsFree(w, t);
    RequestsSet(w.hangUps, w.rejects, c.pending, w.accepts, c.calls, w.debts, c.ids, t, Closing(false));
    RequestsFrame(w.hangUps, w.rejects, c.pending, w.accepts[t := Closing(false)], c.calls, w.debts, c.ids,
                  Added(c, IncomingId(t), call).calls, w.debts, c.ids);
  }

  lemma AcceptReturnsKeeps(w: World, t: string)
    requires WorldInv(w) && t in w.accepts && w.accepts[t].Closing?
    ensures WorldInv(w.(core := ReleaseAccept(w.core, t), accepts := w.accepts - {t}))
  {
    hide Outgoing.AttemptOk, Inv, AttemptsOk, PlacesOk, OneDial, DebtsOk, NoneForgotten, AcceptOk, SlotsOk, RequestsOk,
         RejectingOk;
    var c := w.core;
    SlotsDrop(w.accepts, c.accepting, t);
    RequestsDrop(w.hangUps, w.rejects, c.pending, w.accepts, c.calls, w.debts, c.ids, t);
    ReserveAcceptKeeps(c, t);
    assert |c.accepting - {t}| <= |c.accepting|;
  }

  // ----- Rejecting -----

  lemma RejectsKeeps(w: World, t: string)
    requires WorldInv(w) && t in w.core.pending
    ensures WorldInv(w.(core := TakeOffered(w.core, t).0, rejecting := w.rejecting + {w.core.pending[t].source}))
  {
    hide Outgoing.AttemptOk, Inv, AttemptsOk, PlacesOk, OneDial, DebtsOk, NoneForgotten, AcceptsOk, SlotsOk, RequestsOk;
    hide RejectingOk, DirectionOf;
    var c := w.core;
    RemoveOfferedKeeps(c, t);
    SameLog(c.log, c.pending[t].source);
    TakenKeeps(w, t, c.(pending := c.pending - {t}), w.hangUps);
    OwnOffer(c);
    IncomingIds(t, t);
    RejectingAdd(w.rejecting, c.ids, c.pending[t].source);
  }

  lemma RejectingAdd(rejecting: set<nat>, ids: seq<string>, k: nat)
    requires RejectingOk(rejecting, ids) && k < |ids| && DirectionOf(ids[k]).Inbound?
    ensures RejectingOk(rejecting + {k}, ids)
  {
  }

  lemma ReportsRejectedKeeps(w: World, k: nat)
    requires WorldInv(w) && k in w.rejecting && k < |w.core.ids|
    ensures WorldInv(w.(core := Say(w.core, k, AsEnded(InfoOf(w.core.ids[k], Ended), Rejected)),
                        rejecting := w.rejecting - {k}))
  {
    hide Outgoing.AttemptOk, Inv;
    IncomingReported(w, k, AsEnded(InfoOf(w.core.ids[k], Ended), Rejected));
  }
}
