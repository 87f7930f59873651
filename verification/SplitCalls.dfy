/** A run in which a call pinned to another one's gateway instance ends up on a different instance. */
module SplitCalls {
  import opened Types
  import opened Events
  import opened Calls
  import opened CallsInvariant
  import opened World
  import opened Lifecycle
  import opened Routes
  import opened Growth
  import Outgoing

  const FIRST := "outgoing-a"
  const SECOND := "outgoing-b"

  const TRIED := Route("https://gw1")
  const NEXT := Route("https://gw2")

  const ON_NEXT := Answer("a", NEXT)
  const ON_TRIED := Answer("b", TRIED)

  // ----- The attempts -----

  const SENT := Outgoing.FRESH.(dialing := true, request := Outgoing.InFlight, dial := Outgoing.Waiting)

  function Returns(answer: Answer): Outgoing.Attempt {
    SENT.(request := Outgoing.Done(Some(answer)))
  }

  function Joined(answer: Answer): Outgoing.Attempt {
    Returns(answer).(dial := Outgoing.Answered(answer))
  }

  function Up(answer: Answer): Outgoing.Attempt {
    Joined(answer).(place := Outgoing.InCalls, dial := Outgoing.Returned(true))
  }

  // ----- The first call, until the second is made -----

  predicate One(w: World, a: Outgoing.Attempt, cells: map<nat, Route>) {
    && w.core.ringing == map[FIRST := Pending(0, InfoOf(FIRST, Ringing), 0, a.dialing)]
    && w.core.calls == map[] && w.core.accepting == {} && w.core.ids == [FIRST] && w.core.nextSeq == 1
    && w.core.used == [(FIRST, false)] && w.pins == map[] && w.core.cells == cells
    && w.attempts == map[0 := a] && w.core.log.ended == {}
  }

  lemma FirstRings()
    ensures var step := Dialling(Reserve(FIRST, true, [], None));
            Can(START, step) && One(Do(START, step), Outgoing.FRESH, map[])
  {
    assert OldestRoute(INITIAL, None);
  }

  lemma FirstIsSent(w: World)
    requires One(w, Outgoing.FRESH, map[])
    ensures var step := Dialling(MarksDialing(0)); Can(w, step) && One(Do(w, step), SENT, map[])
  {
  }

  lemma FirstTries(w: World)
    requires One(w, SENT, map[])
    ensures var step := Dialling(Tries(0, TRIED)); Can(w, step) && One(Do(w, step), SENT, map[0 := TRIED])
  {
  }

  // ----- Both calls -----

  /** `rings` are the numbers of the calls that still ring. */
  predicate Two(w: World, a: Outgoing.Attempt, b: Outgoing.Attempt, cell: Route) {
    && w.core.ids == [FIRST, SECOND] && w.pins == map[1 := TRIED] && w.attempts == map[0 := a, 1 := b]
    && 0 in w.core.cells && w.core.cells[0] == cell
    && w.core.ringing.Keys ==
         (if a.place.InRinging? then {FIRST} else {}) + (if b.place.InRinging? then {SECOND} else {})
    && w.core.calls.Keys == (if a.place.InCalls? then {FIRST} else {}) + (if b.place.InCalls? then {SECOND} else {})
  }

  /** The call is connected on the route. */
  predicate On(c: Core, k: nat, id: string, route: Route) {
    id in c.calls && c.calls[id].source == k && c.calls[id].route == route
  }

  lemma SecondIsPinned(w: World)
    requires One(w, SENT, map[0 := TRIED])
    ensures var step := Dialling(Reserve(SECOND, true, [], Some(TRIED)));
            Can(w, step) && Two(Do(w, step), SENT, Outgoing.FRESH, TRIED)
  {
    PinOfSecond(w);
    hide PinFor, OldestRoute, KnownRoute, Emit, InfoOf, DirectionOf;
    assert FIRST[9] != SECOND[9];
    assert UsedFlag(w.core.used[1..], SECOND).None?;
    assert LiveCount(w.core) == 1;
  }

  lemma PinOfSecond(w: World)
    requires One(w, SENT, map[0 := TRIED])
    ensures PinFor(w.core, [], Some(TRIED))
  {
    assert FIRST in w.core.ringing && w.core.ringing[FIRST].source == 0;
    IsOldest(w.core, 0, TRIED);
  }

  lemma FailsOver(w: World, b: Outgoing.Attempt)
    requires Two(w, SENT, b, TRIED)
    ensures var step := Dialling(Tries(0, NEXT));
            && Can(w, step) && Two(Do(w, step), SENT, b, NEXT)
            && 0 in Do(w, step).core.cells && Do(w, step).core.cells[0] == NEXT
  {
  }

  function StepOf(k: nat, act: Outgoing.Act): Step {
    Dialling(if act.JoinsRequest? then Joins(k) else Acts(k, act))
  }

  /** An answer, and taking it up, concern only their own attempt. */
  lemma Answers(w: World, k: nat, act: Outgoing.Act, a: Outgoing.Attempt, b: Outgoing.Attempt, cell: Route)
    requires Two(w, a, b, cell) && k < 2
    requires var mine := if k == 0 then a else b;
             && Outgoing.Can(mine, act) && Outgoing.Do(mine, act).place == mine.place
             && match act
                case JoinsRequest => mine.request.Done? && mine.request.answer.Some?
                case RequestReturns(answer) =>
                  answer.Some? && k in w.core.cells && w.core.cells[k] == answer.value.route
                case _ => false
    ensures var step := StepOf(k, act);
            && Can(w, step) && Do(w, step).core == w.core
            && Two(Do(w, step), if k == 0 then Outgoing.Do(a, act) else a,
                   if k == 1 then Outgoing.Do(b, act) else b, cell)
  {
    hide Outgoing.Can, Outgoing.Do, FailDial, ReserveOutgoing, ConnectDialed, PinFor, NotRunning, Say, AsEnded, InfoOf;
  }

  lemma Answering(answer: Answer)
    ensures Outgoing.Can(SENT, Outgoing.RequestReturns(Some(answer)))
    ensures Outgoing.Do(SENT, Outgoing.RequestReturns(Some(answer))) == Returns(answer)
    ensures Outgoing.Can(Returns(answer), Outgoing.JoinsRequest)
    ensures Outgoing.Do(Returns(answer), Outgoing.JoinsRequest) == Joined(answer)
  {
  }

  lemma Connecting(answer: Answer)
    ensures Outgoing.Can(Joined(answer), Outgoing.Connects)
    ensures Outgoing.Do(Joined(answer), Outgoing.Connects) == Up(answer)
  {
  }

  lemma FirstConnects(w: World)
    requires Two(w, Joined(ON_NEXT), Outgoing.FRESH, NEXT)
    ensures var step := Dialling(Connects(0));
            && Can(w, step) && Two(Do(w, step), Up(ON_NEXT), Outgoing.FRESH, NEXT)
            && On(Do(w, step).core, 0, FIRST, NEXT)
  {
    hide ConnectDialed, Outgoing.Do, Outgoing.Can, InfoOf;
    assert FIRST[9] != SECOND[9];
    assert w.attempts[0] == Joined(ON_NEXT);
    assert FIRST in w.core.ringing.Keys && FIRST !in w.core.calls.Keys;
    DialedConnects(w.core, FIRST, 0, ON_NEXT);
    ConnectCells(w.core, FIRST, 0, ON_NEXT);
    Connecting(ON_NEXT);
  }

  lemma SecondIsSent(w: World)
    requires Two(w, Up(ON_NEXT), Outgoing.FRESH, NEXT) && On(w.core, 0, FIRST, NEXT)
    ensures var step := Dialling(MarksDialing(1));
            Can(w, step) && Two(Do(w, step), Up(ON_NEXT), SENT, NEXT) && On(Do(w, step).core, 0, FIRST, NEXT)
  {
  }

  lemma SecondTries(w: World)
    requires Two(w, Up(ON_NEXT), SENT, NEXT) && On(w.core, 0, FIRST, NEXT)
    ensures var step := Dialling(Tries(1, TRIED));
            && Can(w, step) && Two(Do(w, step), Up(ON_NEXT), SENT, NEXT) && On(Do(w, step).core, 0, FIRST, NEXT)
            && 1 in Do(w, step).core.cells && Do(w, step).core.cells[1] == TRIED
  {
  }

  lemma SecondConnects(w: World)
    requires Two(w, Up(ON_NEXT), Joined(ON_TRIED), NEXT) && On(w.core, 0, FIRST, NEXT)
    ensures var step := Dialling(Connects(1));
            Can(w, step) && Do(w, step).core.ids == [FIRST, SECOND]
            && On(Do(w, step).core, 0, FIRST, NEXT) && On(Do(w, step).core, 1, SECOND, TRIED)
  {
    hide ConnectDialed, Outgoing.Do, Outgoing.Can, InfoOf;
    assert FIRST[9] != SECOND[9];
    assert w.attempts[1] == Joined(ON_TRIED);
    assert SECOND in w.core.ringing.Keys && SECOND !in w.core.calls.Keys;
    DialedConnects(w.core, SECOND, 1, ON_TRIED);
    ConnectCells(w.core, SECOND, 1, ON_TRIED);
    Connecting(ON_TRIED);
  }

  /** The first call is sent, the second is made, and the first fails over and is answered. */
  function FirstHalf(): seq<Step> {
    [Dialling(Reserve(FIRST, true, [], None))] + [Dialling(MarksDialing(0))] + [Dialling(Tries(0, TRIED))]
    + [Dialling(Reserve(SECOND, true, [], Some(TRIED)))] + [Dialling(Tries(0, NEXT))]
    + [Dialling(Acts(0, Outgoing.RequestReturns(Some(ON_NEXT))))] + [Dialling(Joins(0))] + [Dialling(Connects(0))]
  }

  /** Then the second is sent and answered. */
  function SplitRun(): seq<Step> {
    FirstHalf() + [Dialling(MarksDialing(1))] + [Dialling(Tries(1, TRIED))]
    + [Dialling(Acts(1, Outgoing.RequestReturns(Some(ON_TRIED))))] + [Dialling(Joins(1))] + [Dialling(Connects(1))]
  }

  lemma FirstIsUp()
    ensures Run(FirstHalf()).Some?
    ensures Two(Run(FirstHalf()).value, Up(ON_NEXT), Outgoing.FRESH, NEXT)
    ensures On(Run(FirstHalf()).value.core, 0, FIRST, NEXT)
  {
    hide Run, Do, Can, One, Two, On, Outgoing.Can, Outgoing.Do;
    var a, b, c := Dialling(Reserve(FIRST, true, [], None)), Dialling(MarksDialing(0)), Dialling(Tries(0, TRIED));
    var d, e := Dialling(Reserve(SECOND, true, [], Some(TRIED))), Dialling(Tries(0, NEXT));
    var f := Dialling(Acts(0, Outgoing.RequestReturns(Some(ON_NEXT))));
    var g, h := Dialling(Joins(0)), Dialling(Connects(0));
    Answering(ON_NEXT);
    FirstRings();
    First(a);
    FirstIsSent(Run([a]).value);
    Extend([a], b);
    FirstTries(Run([a] + [b]).value);
    Extend([a] + [b], c);
    SecondIsPinned(Run([a] + [b] + [c]).value);
    Extend([a] + [b] + [c], d);
    FailsOver(Run([a] + [b] + [c] + [d]).value, Outgoing.FRESH);
    Extend([a] + [b] + [c] + [d], e);
    Answers(Run([a] + [b] + [c] + [d] + [e]).value, 0, f.dial.act, SENT, Outgoing.FRESH, NEXT);
    Extend([a] + [b] + [c] + [d] + [e], f);
    Answers(Run([a] + [b] + [c] + [d] + [e] + [f]).value, 0, Outgoing.JoinsRequest, Returns(ON_NEXT),
            Outgoing.FRESH, NEXT);
    Extend([a] + [b] + [c] + [d] + [e] + [f], g);
    FirstConnects(Run([a] + [b] + [c] + [d] + [e] + [f] + [g]).value);
    Extend([a] + [b] + [c] + [d] + [e] + [f] + [g], h);
  }

  /** The pin is the route the first call had been sent to when the second was made. If the first one
      then fails over, the two end up connected on different gateway instances, although the second
      was pinned to the first one's. */
  lemma FailoverSplitsThem()
    ensures Run(SplitRun()).Some?
    ensures var w := Run(SplitRun()).value;
            && w.core.ids == [FIRST, SECOND]
            && InCalls(w.core.calls, w.core.ids, 0) && InCalls(w.core.calls, w.core.ids, 1)
            && w.core.calls[FIRST].route == NEXT && w.core.calls[SECOND].route == TRIED && NEXT != TRIED
  {
    hide Run, Do, Can, Two, FirstHalf, Outgoing.Can, Outgoing.Do;
    var p, a, b := FirstHalf(), Dialling(MarksDialing(1)), Dialling(Tries(1, TRIED));
    var c := Dialling(Acts(1, Outgoing.RequestReturns(Some(ON_TRIED))));
    var d, e := Dialling(Joins(1)), Dialling(Connects(1));
    Answering(ON_TRIED);
    FirstIsUp();
    SecondIsSent(Run(p).value);
    Extend(p, a);
    SecondTries(Run(p + [a]).value);
    Extend(p + [a], b);
    Answers(Run(p + [a] + [b]).value, 1, c.dial.act, Up(ON_NEXT), SENT, NEXT);
    Extend(p + [a] + [b], c);
    Answers(Run(p + [a] + [b] + [c]).value, 1, Outgoing.JoinsRequest, Up(ON_NEXT), Returns(ON_TRIED), NEXT);
    Extend(p + [a] + [b] + [c], d);
    SecondConnects(Run(p + [a] + [b] + [c] + [d]).value);
    Extend(p + [a] + [b] + [c] + [d], e);
  }
}
