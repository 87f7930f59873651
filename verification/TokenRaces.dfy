/** Two runs in which the application sees more than one story under the id of an incoming call. */
module TokenRaces {
  import opened Types
  import opened Events
  import opened Calls
  import opened SharedIds
  import opened World
  import opened Lifecycle
  import opened Guarantees
  import opened Tokens

  // ----- The caller gives up between the reservation and the accept -----

  /** The token has had `n` calls, `log` was reported, and its accept and its watch are as given. */
  predicate Stage(w: World, t: string, n: nat, log: EventLog, accept: Option<Accept>, watch: Option<Offered>) {
    && |w.core.ids| == n && (forall k :: 0 <= k < n ==> w.core.ids[k] == IncomingId(t))
    && w.core.log == log
    && w.core.nextSeq == 0 && w.core.calls == map[] && w.core.ringing == map[]
    && w.debts == map[] && w.attempts == map[]
    && w.accepts == (if accept.Some? then map[t := accept.value] else map[])
    && w.core.accepting == (if accept.Some? then {t} else {})
    && w.core.pending == (if watch.Some? then map[t := watch.value] else map[])
  }

  function Watch(t: string, source: nat, route: Route, accepting: bool, abandoned: bool): Offered {
    Offered(source, InfoOf(IncomingId(t), Ended), route, accepting, abandoned, false)
  }

  const NOTHING := EventLog({}, [])

  function EndedOf(t: string, reason: EndReason): CallInfo {
    AsEnded(InfoOf(IncomingId(t), Ended), reason)
  }

  function CallerGone(t: string): EventLog {
    EventLog({0}, [Queued(0, EndedOf(t, CallerCancelled))])
  }

  lemma Offered1(t: string, route: Route)
    ensures var step := Offering(Offers(t, route));
            Can(START, step) && Stage(Do(START, step), t, 1, NOTHING, None, Some(Watch(t, 0, route, false, false)))
  {
    hide IncomingId, InfoOf;
  }

  lemma Reserves1(w: World, t: string, log: EventLog, watch: Offered)
    requires Stage(w, t, 1, log, None, Some(watch))
    ensures var step := Accepting(AcceptReserves(t));
            Can(w, step) && Stage(Do(w, step), t, 1, log, Some(Holding), Some(watch))
  {
    hide IncomingId, InfoOf;
    assert LiveCount(w.core) == 0;
  }

  lemma CallerGives(w: World, t: string, route: Route)
    requires Stage(w, t, 1, NOTHING, Some(Holding), Some(Watch(t, 0, route, false, false)))
    ensures var step := Offering(Watches(t, SawGone(CallerCancelled)));
            Can(w, step) && Stage(Do(w, step), t, 1, CallerGone(t), Some(Holding), None)
  {
    hide IncomingId;
    assert map[t := Watch(t, 0, route, false, false)] - {t} == map[];
  }

  lemma BeginsAnew(w: World, t: string)
    requires Stage(w, t, 1, CallerGone(t), Some(Holding), None)
    ensures var step := Accepting(AcceptBegins(t));
            Can(w, step) && MakesAnother(w, step, t) && Stage(Do(w, step), t, 2, CallerGone(t), Some(Sending(1)), None)
  {
    hide IncomingId, InfoOf;
    assert w.core.ids[0] == IncomingId(t);
  }

  lemma TimesOut(w: World, t: string, route: Route)
    requires Stage(w, t, 2, CallerGone(t), Some(Sending(1)), None)
    ensures var step := Accepting(AcceptUnknown(t, route));
            Can(w, step) && Stage(Do(w, step), t, 3, CallerGone(t), Some(Forsaking(1)),
                                  Some(Watch(t, 2, route, false, true)))
  {
    hide IncomingId, InfoOf;
  }

  lemma FailsToo(w: World, t: string, route: Route)
    requires Stage(w, t, 3, CallerGone(t), Some(Forsaking(1)), Some(Watch(t, 2, route, false, true)))
    ensures var step := Accepting(AcceptReportsFailed(t));
            && Can(w, step)
            && Do(w, step).core.log.queue ==
                 [Queued(0, EndedOf(t, CallerCancelled)), Queued(1, AsEnded(InfoOf(IncomingId(t), Connected), Failed))]
  {
    hide IncomingId;
  }

  /** One offer and one accept, in the order the gateway and the accept's set-up happen to be in. */
  function CallerGoneRun(t: string, route: Route): seq<Step> {
    [Offering(Offers(t, route))] + [Accepting(AcceptReserves(t))] + [Offering(Watches(t, SawGone(CallerCancelled)))]
    + [Accepting(AcceptBegins(t))] + [Accepting(AcceptUnknown(t, route))] + [Accepting(AcceptReportsFailed(t))]
  }

  /** The caller gives up after the accept has reserved its slot and before it begins, and the accept's
      outcome is unknown: the application gets two `Ended` under one id. */
  lemma CallerGoneRace(t: string, route: Route)
    ensures Run(CallerGoneRun(t, route)).Some?
    ensures ReportsFor(Run(CallerGoneRun(t, route)).value.core.log.queue, IncomingId(t)) ==
            [EndedOf(t, CallerCancelled), AsEnded(InfoOf(IncomingId(t), Connected), Failed)]
    ensures !Grammar(ReportsFor(Run(CallerGoneRun(t, route)).value.core.log.queue, IncomingId(t)))
  {
    hide Run, Do, Can, Stage, IncomingId, MakesAnother, Grammar;
    var a, b, c := Offering(Offers(t, route)), Accepting(AcceptReserves(t)),
        Offering(Watches(t, SawGone(CallerCancelled)));
    var d, e, f := Accepting(AcceptBegins(t)), Accepting(AcceptUnknown(t, route)), Accepting(AcceptReportsFailed(t));
    Offered1(t, route);
    First(a);
    Reserves1(Run([a]).value, t, NOTHING, Watch(t, 0, route, false, false));
    Extend([a], b);
    CallerGives(Run([a] + [b]).value, t, route);
    Extend([a] + [b], c);
    BeginsAnew(Run([a] + [b] + [c]).value, t);
    Extend([a] + [b] + [c], d);
    TimesOut(Run([a] + [b] + [c] + [d]).value, t, route);
    Extend([a] + [b] + [c] + [d], e);
    FailsToo(Run([a] + [b] + [c] + [d] + [e]).value, t, route);
    Extend([a] + [b] + [c] + [d] + [e], f);
    TwoEnds(t);
  }

  lemma TwoEnds(t: string)
    ensures var r := [EndedOf(t, CallerCancelled), AsEnded(InfoOf(IncomingId(t), Connected), Failed)];
            ReportsFor([Queued(0, r[0]), Queued(1, r[1])], IncomingId(t)) == r && !Grammar(r)
  {
    hide IncomingId, ReportsFor, DirectionOf;
    var x, y := EndedOf(t, CallerCancelled), AsEnded(InfoOf(IncomingId(t), Connected), Failed);
    NothingUnder(IncomingId(t));
    UnderNext([], Queued(0, x), IncomingId(t));
    UnderNext([Queued(0, x)], Queued(1, y), IncomingId(t));
    assert [] + [Queued(0, x)] == [Queued(0, x)];
    assert [Queued(0, x)] + [Queued(1, y)] == [Queued(0, x), Queued(1, y)];
    assert [x, y][0].state.Ended?;
  }

  lemma NothingUnder(id: string)
    ensures ReportsFor([], id) == []
  {
  }

  // ----- A push that is delivered again after the call was answered -----

  function Joined(t: string): EventLog {
    EventLog({}, [Queued(0, InfoOf(IncomingId(t), Connected))])
  }

  function OfferedAgain(t: string): EventLog {
    EventLog({1}, Joined(t).queue + [Queued(1, EndedOf(t, AnsweredElsewhere))])
  }

  /** The token's first call is up; it has had `n` calls, and its watch is as given. */
  predicate Talking(w: World, t: string, route: Route, n: nat, log: EventLog, watch: Option<Offered>) {
    && |w.core.ids| == n && (forall k :: 0 <= k < n ==> w.core.ids[k] == IncomingId(t))
    && w.core.log == log
    && w.core.calls == map[IncomingId(t) := Active(0, InfoOf(IncomingId(t), Connected), 0, t, route, false)]
    && w.debts == map[] && w.attempts == map[]
    && w.core.pending == (if watch.Some? then map[t := watch.value] else map[])
  }

  lemma Begins2(w: World, t: string, route: Route, log: EventLog, abandoned: bool)
    requires Stage(w, t, 1, log, Some(Holding), Some(Watch(t, 0, route, false, abandoned)))
    ensures var step := Accepting(AcceptBegins(t));
            && Can(w, step)
            && Stage(Do(w, step), t, 1, log, Some(Sending(0)), Some(Watch(t, 0, route, true, abandoned)))
  {
    hide IncomingId, InfoOf;
  }

  lemma Clears2(w: World, t: string, log: EventLog, watch: Offered)
    requires Stage(w, t, 1, log, Some(Sending(0)), Some(watch))
    ensures var step := Accepting(AcceptClears(t));
            && Can(w, step)
            && Stage(Do(w, step), t, 1, log, Some(Cleared(0)), None)
  {
    hide IncomingId, InfoOf;
    assert map[t := watch] - {t} == map[];
  }

  lemma Connects2(w: World, t: string, route: Route)
    requires Stage(w, t, 1, NOTHING, Some(Cleared(0)), None)
    ensures var step := Accepting(AcceptConnects(t, route));
            Can(w, step) && Talking(Do(w, step), t, route, 1, Joined(t), None)
  {
    hide IncomingId;
    assert OffHold(w.core.calls) == {};
    assert HeldExcept(w.core.calls, IncomingId(t)) == map[];
  }

  lemma OffersAgain(w: World, t: string, route: Route)
    requires Talking(w, t, route, 1, Joined(t), None)
    ensures var step := Offering(Offers(t, route));
            && Can(w, step) && MakesAnother(w, step, t)
            && Talking(Do(w, step), t, route, 2, Joined(t), Some(Watch(t, 1, route, false, false)))
  {
    hide IncomingId, InfoOf;
    assert w.core.ids[0] == IncomingId(t);
  }

  lemma SeesAnswered(w: World, t: string, route: Route)
    requires Talking(w, t, route, 2, Joined(t), Some(Watch(t, 1, route, false, false)))
    ensures var step := Offering(Watches(t, SawActive));
            Can(w, step) && Talking(Do(w, step), t, route, 2, OfferedAgain(t), None)
  {
    hide IncomingId;
    assert map[t := Watch(t, 1, route, false, false)] - {t} == map[];
  }

  lemma UserHangsUp(w: World, t: string, route: Route)
    requires Talking(w, t, route, 2, OfferedAgain(t), None)
    ensures var step := Ending(HangsUp(IncomingId(t)));
            && Can(w, step)
            && var w' := Do(w, step);
               && w'.core.log == w.core.log && w'.attempts == map[]
               && w'.debts == map[0 := Debt(AsEnded(InfoOf(IncomingId(t), Connected), LocalHangup), IfToken)]
  {
    hide IncomingId, DirectionOf;
  }

  lemma PaysLast(w: World, t: string)
    requires w.core.log == OfferedAgain(t) && w.attempts == map[]
    requires w.debts == map[0 := Debt(AsEnded(InfoOf(IncomingId(t), Connected), LocalHangup), IfToken)]
    ensures var step := Ending(PaysDebt(0, true));
            && Can(w, step)
            && Do(w, step).core.log.queue ==
                 OfferedAgain(t).queue + [Queued(0, AsEnded(InfoOf(IncomingId(t), Connected), LocalHangup))]
  {
    hide IncomingId, DirectionOf;
  }

  /** The push comes a second time while the call it announced is up. */
  function PushedAgainRun(t: string, route: Route): seq<Step> {
    [Offering(Offers(t, route))] + [Accepting(AcceptReserves(t))] + [Accepting(AcceptBegins(t))]
    + [Accepting(AcceptClears(t))] + [Accepting(AcceptConnects(t, route))] + [Offering(Offers(t, route))]
    + [Offering(Watches(t, SawActive))]
  }

  /** What the application sees under the id: the call is up, answered elsewhere, and ended again. */
  function PushedAgainStory(t: string): seq<CallInfo> {
    var up := InfoOf(IncomingId(t), Connected);
    [up, EndedOf(t, AnsweredElsewhere), AsEnded(up, LocalHangup)]
  }

  /** The push of an answered call is delivered again: the application is told that the call was answered
      elsewhere while it is still up here, and when the user hangs up, it gets another `Ended`. */
  lemma PushedAgainRace(t: string, route: Route)
    ensures var run := Run(PushedAgainRun(t, route));
            && run.Some? && IncomingId(t) in run.value.core.calls
            && ReportsFor(run.value.core.log.queue, IncomingId(t)) == PushedAgainStory(t)[..2]
    ensures var run := Run(PushedAgainRun(t, route) + [Ending(HangsUp(IncomingId(t)))] + [Ending(PaysDebt(0, true))]);
            && run.Some?
            && ReportsFor(run.value.core.log.queue, IncomingId(t)) == PushedAgainStory(t)
            && !Grammar(ReportsFor(run.value.core.log.queue, IncomingId(t)))
  {
    hide Run, Do, Can, IncomingId, Grammar, ReportsFor, InfoOf;
    var id, run := IncomingId(t), PushedAgainRun(t, route);
    var c := Ending(HangsUp(id));
    PushedAgain(t, route);
    UserHangsUp(Run(run).value, t, route);
    Extend(run, c);
    PaysLast(Run(run + [c]).value, t);
    Extend(run + [c], Ending(PaysDebt(0, true)));
    EndsTwice(t);
  }

  lemma PushedAgain(t: string, route: Route)
    ensures Run(PushedAgainRun(t, route)).Some?
    ensures Talking(Run(PushedAgainRun(t, route)).value, t, route, 2, OfferedAgain(t), None)
  {
    hide Run, Do, Can, Stage, Talking, IncomingId, MakesAnother;
    var a, b, c := Offering(Offers(t, route)), Accepting(AcceptReserves(t)), Accepting(AcceptBegins(t));
    var d, e, f := Accepting(AcceptClears(t)), Accepting(AcceptConnects(t, route)), Offering(Watches(t, SawActive));
    Offered1(t, route);
    First(a);
    Reserves1(Run([a]).value, t, NOTHING, Watch(t, 0, route, false, false));
    Extend([a], b);
    Begins2(Run([a] + [b]).value, t, route, NOTHING, false);
    Extend([a] + [b], c);
    Clears2(Run([a] + [b] + [c]).value, t, NOTHING, Watch(t, 0, route, true, false));
    Extend([a] + [b] + [c], d);
    Connects2(Run([a] + [b] + [c] + [d]).value, t, route);
    Extend([a] + [b] + [c] + [d], e);
    OffersAgain(Run([a] + [b] + [c] + [d] + [e]).value, t, route);
    Extend([a] + [b] + [c] + [d] + [e], a);
    SeesAnswered(Run([a] + [b] + [c] + [d] + [e] + [a]).value, t, route);
    Extend([a] + [b] + [c] + [d] + [e] + [a], f);
  }

  lemma EndsTwice(t: string)
    ensures var r := PushedAgainStory(t);
            && ReportsFor(OfferedAgain(t).queue, IncomingId(t)) == r[..2]
            && ReportsFor(OfferedAgain(t).queue + [Queued(0, r[2])], IncomingId(t)) == r && !Grammar(r)
  {
    hide IncomingId, ReportsFor, DirectionOf;
    var id, r := IncomingId(t), PushedAgainStory(t);
    NothingUnder(id);
    UnderNext([], Queued(0, r[0]), id);
    UnderNext([Queued(0, r[0])], Queued(1, r[1]), id);
    UnderNext(OfferedAgain(t).queue, Queued(0, r[2]), id);
    assert [] + [Queued(0, r[0])] == [Queued(0, r[0])];
    assert r[1].state.Ended?;
  }

  // ----- A call that is accepted again after an accept of unknown outcome -----

  function FailedOnce(t: string): EventLog {
    EventLog({0}, [Queued(0, AsEnded(InfoOf(IncomingId(t), Connected), Failed))])
  }

  lemma GivesUp(w: World, t: string, route: Route)
    requires Stage(w, t, 1, NOTHING, Some(Sending(0)), Some(Watch(t, 0, route, true, false)))
    ensures var step := Accepting(AcceptUnknown(t, route));
            Can(w, step) && Stage(Do(w, step), t, 1, NOTHING, Some(Forsaking(0)), Some(Watch(t, 0, route, false, true)))
  {
    hide IncomingId, InfoOf;
  }

  lemma SaysFailed(w: World, t: string, watch: Offered)
    requires Stage(w, t, 1, NOTHING, Some(Forsaking(0)), Some(watch))
    ensures var step := Accepting(AcceptReportsFailed(t));
            Can(w, step) && Stage(Do(w, step), t, 1, FailedOnce(t), Some(Closing(true)), Some(watch))
  {
    hide IncomingId, DirectionOf;
  }

  lemma Returns3(w: World, t: string, watch: Offered)
    requires Stage(w, t, 1, FailedOnce(t), Some(Closing(true)), Some(watch))
    ensures var step := Accepting(AcceptReturns(t));
            Can(w, step) && Stage(Do(w, step), t, 1, FailedOnce(t), None, Some(watch))
  {
    hide IncomingId, InfoOf;
    assert map[t := Closing(true)] - {t} == map[];
  }

  function AcceptedAgainRun(t: string, route: Route): seq<Step> {
    [Offering(Offers(t, route))] + [Accepting(AcceptReserves(t))] + [Accepting(AcceptBegins(t))]
    + [Accepting(AcceptUnknown(t, route))] + [Accepting(AcceptReportsFailed(t))] + [Accepting(AcceptReturns(t))]
    + [Accepting(AcceptReserves(t))] + [Accepting(AcceptBegins(t))] + [Accepting(AcceptClears(t))]
  }

  /** Nothing but the first accept, whose outcome was unknown, took the call away from the second one: the watch saw
      nothing and nobody rejected it, and yet the second accept, which the gateway granted, comes too late. */
  lemma AcceptedAgainIsLate(t: string, route: Route)
    ensures var run := Run(AcceptedAgainRun(t, route));
            && run.Some? && t in run.value.accepts && run.value.accepts[t] == Cleared(0)
            && 0 in run.value.core.log.ended
  {
    hide Run, Do, Can, Stage, IncomingId;
    var a, b, c := Offering(Offers(t, route)), Accepting(AcceptReserves(t)), Accepting(AcceptBegins(t));
    var d, e := Accepting(AcceptUnknown(t, route)), Accepting(AcceptReportsFailed(t));
    var f, g := Accepting(AcceptReturns(t)), Accepting(AcceptClears(t));
    var abandoned := Watch(t, 0, route, false, true);
    Offered1(t, route);
    First(a);
    Reserves1(Run([a]).value, t, NOTHING, Watch(t, 0, route, false, false));
    Extend([a], b);
    Begins2(Run([a] + [b]).value, t, route, NOTHING, false);
    Extend([a] + [b], c);
    GivesUp(Run([a] + [b] + [c]).value, t, route);
    Extend([a] + [b] + [c], d);
    SaysFailed(Run([a] + [b] + [c] + [d]).value, t, abandoned);
    Extend([a] + [b] + [c] + [d], e);
    Returns3(Run([a] + [b] + [c] + [d] + [e]).value, t, abandoned);
    Extend([a] + [b] + [c] + [d] + [e], f);
    Reserves1(Run([a] + [b] + [c] + [d] + [e] + [f]).value, t, FailedOnce(t), abandoned);
    Extend([a] + [b] + [c] + [d] + [e] + [f], b);
    Begins2(Run([a] + [b] + [c] + [d] + [e] + [f] + [b]).value, t, route, FailedOnce(t), true);
    Extend([a] + [b] + [c] + [d] + [e] + [f] + [b], c);
    Clears2(Run([a] + [b] + [c] + [d] + [e] + [f] + [b] + [c]).value, t, FailedOnce(t), Watch(t, 0, route, true, true));
    Extend([a] + [b] + [c] + [d] + [e] + [f] + [b] + [c], g);
    StageIs(Run([a] + [b] + [c] + [d] + [e] + [f] + [b] + [c] + [g]).value, t, FailedOnce(t), Cleared(0));
  }

  lemma StageIs(w: World, t: string, log: EventLog, accept: Accept)
    requires Stage(w, t, 1, log, Some(accept), None)
    ensures t in w.accepts && w.accepts[t] == accept && w.core.log == log
  {
  }
}
