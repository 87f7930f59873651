/** A run in which the gateway is asked twice to end one call. */
module LostCancels {
  import opened Types
  import opened Events
  import opened Calls
  import opened World
  import opened Lifecycle
  import opened Projection
  import opened SplitCalls
  import Outgoing

  const ANSWER := Answer("a", TRIED)

  /** Only the one attempt is left, and it has tried one route. */
  predicate Left(w: World, a: Outgoing.Attempt) {
    w.core.ids == [FIRST] && w.attempts == map[0 := a] && w.core.cells == map[0 := TRIED] && w.core.log.ended == {0}
  }

  // ----- The attempt, act by act -----

  const TAKEN := SENT.(place := Outgoing.Gone, canceller := Outgoing.Took)
  const REPORTED := TAKEN.(canceller := Outgoing.Reported)
  const SIGNALLED := TAKEN.(canceller := Outgoing.Signalled, signalled := true)
  const ASKING := SIGNALLED.(canceller := Outgoing.Asking(0))
  const LOST := SIGNALLED.(canceller := Outgoing.Settled, outcome := Some(false), lost := 1)
  const STOPPED := LOST.(dial := Outgoing.Returned(false), late := Outgoing.AwaitingAnswer)
  const ANSWERED := STOPPED.(request := Outgoing.Done(Some(ANSWER)))
  const WAITING := ANSWERED.(late := Outgoing.AwaitingOutcome(ANSWER))
  const TWICE := WAITING.(late := Outgoing.HungUp, hangUps := [ANSWER])

  lemma IsCancelled()
    ensures Outgoing.Can(REPORTED, Outgoing.SignalsCancel) && Outgoing.Do(REPORTED, Outgoing.SignalsCancel) == SIGNALLED
    ensures Outgoing.Can(SIGNALLED, Outgoing.DecidesCancel(true))
    ensures Outgoing.Do(SIGNALLED, Outgoing.DecidesCancel(true)) == ASKING
  {
  }

  lemma IsLost()
    ensures Outgoing.Can(ASKING, Outgoing.CancelAnswered(Outgoing.AcceptedButLost))
    ensures Outgoing.Do(ASKING, Outgoing.CancelAnswered(Outgoing.AcceptedButLost)) == LOST
    ensures Outgoing.Can(LOST, Outgoing.SeesCancel) && Outgoing.Do(LOST, Outgoing.SeesCancel) == STOPPED
  {
  }

  lemma IsAnswered()
    ensures Outgoing.Can(STOPPED, Outgoing.RequestReturns(Some(ANSWER)))
    ensures Outgoing.Do(STOPPED, Outgoing.RequestReturns(Some(ANSWER))) == ANSWERED
    ensures Outgoing.Can(ANSWERED, Outgoing.LateGetsAnswer) && Outgoing.Do(ANSWERED, Outgoing.LateGetsAnswer) == WAITING
    ensures Outgoing.Can(WAITING, Outgoing.LateSeesOutcome) && Outgoing.Do(WAITING, Outgoing.LateSeesOutcome) == TWICE
  {
  }

  // ----- The engine, step by step -----

  lemma UserHangsUp(w: World)
    requires One(w, SENT, map[0 := TRIED])
    ensures var step := Ending(HangsUp(FIRST));
            && Can(w, step)
            && var w' := Do(w, step);
               && w'.core.ids == [FIRST] && w'.attempts == map[0 := TAKEN] && w'.core.cells == map[0 := TRIED]
               && w'.core.log.ended == {}
  {
    hide Emit, InfoOf, AsEnded;
  }

  lemma ReportsIt(w: World)
    requires w.core.ids == [FIRST] && w.attempts == map[0 := TAKEN] && w.core.cells == map[0 := TRIED]
    requires w.core.log.ended == {}
    ensures var step := Dialling(ReportsCancelled(0)); Can(w, step) && Left(Do(w, step), REPORTED)
  {
    hide InfoOf;
  }

  lemma Privately(w: World, a: Outgoing.Attempt, act: Outgoing.Act)
    requires Left(w, a) && Outgoing.Can(a, act) && Private(act)
    requires act.RequestReturns? && act.answer.Some? ==> act.answer.value.route == TRIED
    ensures var step := Dialling(Acts(0, act)); Can(w, step) && Left(Do(w, step), Outgoing.Do(a, act))
  {
    hide Outgoing.Can, Outgoing.Do;
  }

  // ----- The run -----

  function Acting0(act: Outgoing.Act): Step {
    Dialling(Acts(0, act))
  }

  /** The call is sent and hung up while it rings, and its cancel goes out. */
  function FirstPart(): seq<Step> {
    [Dialling(Reserve(FIRST, true, [], None))] + [Dialling(MarksDialing(0))] + [Dialling(Tries(0, TRIED))]
    + [Ending(HangsUp(FIRST))] + [Dialling(ReportsCancelled(0))] + [Acting0(Outgoing.SignalsCancel)]
    + [Acting0(Outgoing.DecidesCancel(true))]
  }

  /** The gateway carries the cancel out and its answer is lost, and so the answered call is hung up. */
  function LostRun(): seq<Step> {
    FirstPart() + [Acting0(Outgoing.CancelAnswered(Outgoing.AcceptedButLost))] + [Acting0(Outgoing.SeesCancel)]
    + [Acting0(Outgoing.RequestReturns(Some(ANSWER)))] + [Acting0(Outgoing.LateGetsAnswer)]
    + [Acting0(Outgoing.LateSeesOutcome)]
  }

  lemma IsAsking()
    ensures Run(FirstPart()).Some? && Left(Run(FirstPart()).value, ASKING)
  {
    hide Run, Do, Can, One, Left, Outgoing.Can, Outgoing.Do;
    var a, b, c := Dialling(Reserve(FIRST, true, [], None)), Dialling(MarksDialing(0)), Dialling(Tries(0, TRIED));
    var d, e := Ending(HangsUp(FIRST)), Dialling(ReportsCancelled(0));
    var f, g := Acting0(Outgoing.SignalsCancel), Acting0(Outgoing.DecidesCancel(true));
    IsCancelled();
    FirstRings();
    First(a);
    FirstIsSent(Run([a]).value);
    Extend([a], b);
    FirstTries(Run([a] + [b]).value);
    Extend([a] + [b], c);
    UserHangsUp(Run([a] + [b] + [c]).value);
    Extend([a] + [b] + [c], d);
    ReportsIt(Run([a] + [b] + [c] + [d]).value);
    Extend([a] + [b] + [c] + [d], e);
    Privately(Run([a] + [b] + [c] + [d] + [e]).value, REPORTED, Outgoing.SignalsCancel);
    Extend([a] + [b] + [c] + [d] + [e], f);
    Privately(Run([a] + [b] + [c] + [d] + [e] + [f]).value, SIGNALLED, Outgoing.DecidesCancel(true));
    Extend([a] + [b] + [c] + [d] + [e] + [f], g);
  }

  lemma EndsAll()
    ensures Run(LostRun()).Some? && Left(Run(LostRun()).value, TWICE)
  {
    hide Run, Do, Can, Left, Outgoing.Can, Outgoing.Do, FirstPart;
    var p, a, b := FirstPart(), Acting0(Outgoing.CancelAnswered(Outgoing.AcceptedButLost)),
        Acting0(Outgoing.SeesCancel);
    var c, d := Acting0(Outgoing.RequestReturns(Some(ANSWER))), Acting0(Outgoing.LateGetsAnswer);
    var e := Acting0(Outgoing.LateSeesOutcome);
    IsLost();
    IsAnswered();
    IsAsking();
    Privately(Run(p).value, ASKING, a.dial.act);
    Extend(p, a);
    Privately(Run(p + [a]).value, LOST, b.dial.act);
    Extend(p + [a], b);
    Privately(Run(p + [a] + [b]).value, STOPPED, c.dial.act);
    Extend(p + [a] + [b], c);
    Privately(Run(p + [a] + [b] + [c]).value, ANSWERED, d.dial.act);
    Extend(p + [a] + [b] + [c], d);
    Privately(Run(p + [a] + [b] + [c] + [d]).value, WAITING, e.dial.act);
    Extend(p + [a] + [b] + [c] + [d], e);
  }

  /** The call is hung up while it rings, and answered anyway. The gateway carries out the cancel, its
      answer is lost, and the handset hangs the call up: the gateway was asked twice. */
  lemma LostCancelEndsTwice()
    ensures Run(LostRun()).Some? && 0 in Run(LostRun()).value.attempts
    ensures var a := Run(LostRun()).value.attempts[0];
            && Outgoing.Quiet(a) && Outgoing.HungUpRinging(a) && !a.expired && a.request == Outgoing.Done(Some(ANSWER))
            && Outgoing.Endings(a) == 1 && a.lost == 1
    ensures var acts := ActsIn(ActsOf(LostRun(), 0));
            Outgoing.DoAll(Outgoing.FRESH, acts).Some? && Outgoing.GatewayEndings(acts) == 2
  {
    hide Run, Outgoing.DoAll, ActsOf;
    EndsAll();
    RunIsActs(LostRun(), 0);
    Outgoing.CountsAnswers(ActsIn(ActsOf(LostRun(), 0)));
  }
}
