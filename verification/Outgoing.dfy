/** One attempt to make an outgoing call: `dial`, the request it sends, the hangup that may take
    the call while it rings, the cancel task and the task that hangs up a late answer. Each act is
    one atomic section of one of these; the gateway's answers are arbitrary.

    The engine's maps appear here only as `place`, where the engine keeps the call; Lifecycle.dfy
    ties it to the maps. */
module Outgoing {
  import opened Types

  /** `CANCEL_RETRY_DELAYS` has four entries, so there are at most five cancel requests. */
  const CANCEL_RETRIES: nat := 4

  datatype Place =
    | InRinging
    | InCalls
    | Leaving  // out of the maps, its `Ended` still owed by whoever took it
    | Gone

  datatype Dial =
    | Setup                      // media is being opened
    | Waiting                    // `POST /v1/calls` is in flight or has returned
    | Answered(answer: Answer)   // about to move the call to `calls`
    | Returned(ok: bool)

  datatype Request = NotSent | InFlight | Done(answer: Option<Answer>)

  /** `hangup` of the ringing call, then the cancel task. */
  datatype Canceller =
    | Idle
    | Took
    | Reported
    | Signalled
    | Asking(tries: nat)    // a cancel request is with the gateway
    | Pausing(tries: nat)   // waiting to retry
    | Settled

  datatype LateTask = NoTask | AwaitingAnswer | AwaitingOutcome(answer: Answer) | LeftAlone | HungUp

  /** `accepted` counts 202 answers received, `lost` cancels that the gateway carried out although
      the client saw an error; `hangUps` lists the hang-up procedures started; `expired` is set
      when the wait for the cancel's outcome timed out. */
  datatype Attempt = Attempt(
    place: Place,
    dial: Dial,
    dialing: bool,
    request: Request,
    signalled: bool,
    canceller: Canceller,
    outcome: Option<bool>,
    late: LateTask,
    accepted: nat,
    lost: nat,
    hangUps: seq<Answer>,
    expired: bool)

  const FRESH: Attempt :=
    Attempt(InRinging, Setup, false, NotSent, false, Idle, None, NoTask, 0, 0, [], false)

  datatype CancelReply = Accepted | NotFound | CancelFailed | AcceptedButLost

  datatype Act =
    // dial
    | MediaFails
    | SetupSeesCancel
    | MarksDialing
    | RequestReturns(answer: Option<Answer>)
    | JoinsRequest
    | SeesCancel
    | Connects
    // hangup of the ringing call
    | IsTaken
    | ReportsEnded
    | SignalsCancel
    | DecidesCancel(hasToken: bool)
    // cancel task
    | CancelAnswered(reply: CancelReply)
    | RetryDue
    | RetryCutShort
    // late hang-up task
    | LateGetsAnswer
    | LateSeesOutcome
    | LateSeesClosed
    | LateTimesOut
    // end of the connected call, or of one that failed
    | IsRemoved
    | IsClosed(hangUp: bool)

  predicate Can(a: Attempt, act: Act) {
    match act
    case MediaFails => a.dial.Setup?
    case SetupSeesCancel => a.dial.Setup? && a.signalled
    case MarksDialing => a.dial.Setup?
    case RequestReturns(_) => a.request.InFlight?
    case JoinsRequest => a.dial.Waiting? && a.request.Done?
    case SeesCancel => a.dial.Waiting? && a.signalled
    case Connects => a.dial.Answered?
    case IsTaken => a.place.InRinging?
    case ReportsEnded => a.canceller.Took?
    case SignalsCancel => a.canceller.Reported?
    case DecidesCancel(_) => a.canceller.Signalled?
    case CancelAnswered(_) => a.canceller.Asking?
    case RetryDue => a.canceller.Pausing?
    case RetryCutShort => a.canceller.Pausing? && a.request.Done?
    case LateGetsAnswer => a.late.AwaitingAnswer? && a.request.Done?
    case LateSeesOutcome => a.late.AwaitingOutcome? && a.outcome.Some?
    case LateSeesClosed => a.late.AwaitingOutcome? && a.outcome.None? && a.canceller.Settled?
    case LateTimesOut => a.late.AwaitingOutcome? && a.outcome.None?
    case IsRemoved => a.place.InCalls?
    case IsClosed(_) => a.place.Leaving?
  }

  function Settle(a: Attempt, outcome: bool): Attempt {
    a.(canceller := Settled, outcome := Some(outcome))
  }

  function HangUpLate(a: Attempt): Attempt
    requires a.late.AwaitingOutcome?
  {
    a.(late := HungUp, hangUps := a.hangUps + [a.late.answer])
  }

  function Do(a: Attempt, act: Act): Attempt
    requires Can(a, act)
  {
    match act
    case MediaFails =>
      if a.place.InRinging? then a.(place := Leaving, dial := Returned(false)) else a.(dial := Returned(false))
    case SetupSeesCancel => a.(dial := Returned(false))
    case MarksDialing =>
      if a.place.InRinging? then a.(dialing := true, request := InFlight, dial := Waiting)
      else a.(dial := Returned(false))
    case RequestReturns(answer) => a.(request := Done(answer))
    case JoinsRequest =>
      (match a.request.answer
       case Some(answer) => a.(dial := Answered(answer))
       case None =>
         if a.place.InRinging? then a.(place := Leaving, dial := Returned(false)) else a.(dial := Returned(false)))
    case SeesCancel => a.(dial := Returned(false), late := AwaitingAnswer)
    case Connects =>
      if a.place.InRinging? then a.(place := InCalls, dial := Returned(true))
      else a.(dial := Returned(false), late := AwaitingOutcome(a.dial.answer))
    case IsTaken => a.(place := Gone, canceller := Took)
    case ReportsEnded => a.(canceller := Reported)
    case SignalsCancel => a.(canceller := Signalled, signalled := true)
    case DecidesCancel(hasToken) =>
      if !a.dialing then a.(canceller := Settled)
      else if !hasToken then Settle(a, false)
      else a.(canceller := Asking(0))
    case CancelAnswered(reply) =>
      (match reply
       case Accepted => Settle(a, true).(accepted := a.accepted + 1)
       case NotFound =>
         if a.canceller.tries >= CANCEL_RETRIES || a.request.Done? then Settle(a, false)
         else a.(canceller := Pausing(a.canceller.tries + 1))
       case CancelFailed => Settle(a, false)
       case AcceptedButLost => Settle(a, false).(lost := a.lost + 1))
    case RetryDue => a.(canceller := Asking(a.canceller.tries))
    case RetryCutShort => Settle(a, false)
    case LateGetsAnswer =>
      (match a.request.answer
       case None => a.(late := LeftAlone)
       case Some(answer) => a.(late := AwaitingOutcome(answer)))
    case LateSeesOutcome => if a.outcome.value then a.(late := LeftAlone) else HangUpLate(a)
    case LateSeesClosed => HangUpLate(a)
    case LateTimesOut => HangUpLate(a).(expired := true)
    case IsRemoved => a.(place := Leaving)
    case IsClosed(hangUp) =>
      if hangUp && a.request.Done? && a.request.answer.Some?
      then a.(place := Gone, hangUps := a.hangUps + [a.request.answer.value])
      else a.(place := Gone)
  }

  // ----- What every act keeps -----

  /** The call was hung up here while it rang. */
  predicate HungUpRinging(a: Attempt) {
    !a.canceller.Idle?
  }

  predicate PlaceOk(a: Attempt) {
    && (HungUpRinging(a) ==> a.place.Gone?)
    && (a.place.InRinging? ==> !a.dial.Returned?)
    && (a.place.InCalls? ==> a.dial == Returned(true) && a.request.Done? && a.request.answer.Some?)
    && (a.place.Leaving? || (a.place.Gone? && !HungUpRinging(a)) ==> a.dial.Returned?)
    && (a.dial == Returned(true) ==> !a.place.InRinging? && !HungUpRinging(a))
    && (!a.dial.Returned? ==> a.place.InRinging? || HungUpRinging(a))
  }

  predicate DialOk(a: Attempt) {
    && (a.dialing <==> !a.request.NotSent?)
    && (a.dial.Setup? ==> !a.dialing)
    && (a.dial.Waiting? ==> a.dialing)
    && (a.dial.Answered? ==> a.request == Done(Some(a.dial.answer)))
    && (a.dial == Returned(true) ==> a.request.Done? && a.request.answer.Some?)
    && (a.dial == Returned(false) && !HungUpRinging(a) && a.request.Done? ==> a.request.answer.None?)
    && (a.dial == Returned(false) && !HungUpRinging(a) ==> !a.request.InFlight?)
  }

  predicate CancelOk(a: Attempt) {
    && (a.signalled <==> !(a.canceller.Idle? || a.canceller.Took? || a.canceller.Reported?))
    && (a.outcome.Some? ==> a.canceller.Settled? && a.dialing)
    && (a.canceller.Settled? && a.dialing ==> a.outcome.Some?)
    && (a.canceller.Asking? || a.canceller.Pausing? ==> a.dialing && a.canceller.tries <= CANCEL_RETRIES)
    && (a.canceller.Pausing? ==> a.canceller.tries >= 1)
    && a.accepted == (if a.outcome == Some(true) then 1 else 0)
    && a.lost <= 1
    && (a.lost == 1 ==> a.outcome == Some(false))
  }

  predicate LateOk(a: Attempt) {
    && (!a.late.NoTask? ==> a.dial == Returned(false) && HungUpRinging(a) && a.dialing)
    && (a.late.AwaitingOutcome? ==> a.request == Done(Some(a.late.answer)) && !a.expired)
    && (a.late.LeftAlone? ==> a.request.Done? && (a.request.answer.None? || a.outcome == Some(true)))
    && (a.late.HungUp? ==> a.request.Done? && a.request.answer.Some? && a.hangUps == [a.request.answer.value])
    && (a.late.HungUp? ==> a.expired || a.outcome == Some(false))
    && (a.expired ==> a.late.HungUp?)
    && (a.dialing && HungUpRinging(a) && a.dial == Returned(false) ==>
          !a.late.NoTask? || a.request == Done(None))
  }

  predicate HangUpsOk(a: Attempt) {
    && |a.hangUps| <= 1
    && (|a.hangUps| == 1 ==> a.request == Done(Some(a.hangUps[0])))
    && (|a.hangUps| == 1 ==> a.late.HungUp? || (a.place.Gone? && !HungUpRinging(a) && a.dial == Returned(true)))
  }

  predicate AttemptOk(a: Attempt) {
    PlaceOk(a) && DialOk(a) && CancelOk(a) && LateOk(a) && HangUpsOk(a)
  }

  lemma ActKeepsState(a: Attempt, act: Act)
    requires AttemptOk(a) && Can(a, act)
    ensures PlaceOk(Do(a, act)) && DialOk(Do(a, act))
  {
  }

  lemma ActKeepsCancel(a: Attempt, act: Act)
    requires AttemptOk(a) && Can(a, act)
    ensures CancelOk(Do(a, act))
  {
  }

  lemma ActKeepsEndings(a: Attempt, act: Act)
    requires AttemptOk(a) && Can(a, act)
    ensures LateOk(Do(a, act)) && HangUpsOk(Do(a, act))
  {
  }

  lemma ActKeeps(a: Attempt, act: Act)
    requires AttemptOk(a) && Can(a, act)
    ensures AttemptOk(Do(a, act))
  {
    ActKeepsState(a, act);
    ActKeepsCancel(a, act);
    ActKeepsEndings(a, act);
  }

  // ----- Ended exactly once at the gateway -----

  /** How often the engine asked the gateway to end the call, and it knows the request counted. */
  function Endings(a: Attempt): nat {
    a.accepted + |a.hangUps|
  }

  /** Never two accepted cancels, never two hang-up procedures, and never one of each, unless the
      wait for the cancel's outcome expired; a hang-up goes to the route that answered, with its
      token; and a call that was never sent is never ended at the gateway. */
  lemma NeverBoth(a: Attempt)
    requires AttemptOk(a)
    ensures a.accepted <= 1 && |a.hangUps| <= 1
    ensures a.expired || Endings(a) <= 1
    ensures forall h :: h in a.hangUps ==> a.request == Done(Some(h))
    ensures !a.dialing ==> Endings(a) == 0 && a.lost == 0
    ensures a.place.InRinging? || a.place.InCalls? || a.place.Leaving? ==> Endings(a) == 0
  {
  }

  /** Nothing of the attempt is still running. */
  predicate Quiet(a: Attempt) {
    && a.dial.Returned?
    && !a.request.InFlight?
    && (a.canceller.Idle? || a.canceller.Settled?)
    && !(a.late.AwaitingAnswer? || a.late.AwaitingOutcome?)
    && !a.place.Leaving?
  }

  /** The acts of this handset, as opposed to the gateway's answers and the user's hangup, that are
      due: if none can happen, and no answer is outstanding, the attempt is quiet. */
  lemma NothingIsStuck(a: Attempt)
    requires AttemptOk(a)
    requires !Can(a, MarksDialing) && !Can(a, JoinsRequest) && !Can(a, SeesCancel) && !Can(a, Connects)
    requires !Can(a, ReportsEnded) && !Can(a, SignalsCancel) && !Can(a, DecidesCancel(true))
    requires !Can(a, RetryDue) && !Can(a, LateGetsAnswer) && !Can(a, LateSeesOutcome) && !Can(a, LateSeesClosed)
    requires !Can(a, IsClosed(true))
    requires !a.request.InFlight? && !a.canceller.Asking?
    ensures Quiet(a)
  {
  }

  /** A call that was hung up while it rang and answered anyway is ended exactly once: its cancel
      was accepted and nothing more is sent, or it is hung up on the route that answered. A failed
      or refused request leaves nothing to hang up. */
  lemma ExactlyOnce(a: Attempt)
    requires AttemptOk(a) && Quiet(a) && HungUpRinging(a)
    ensures a.request.Done? && a.request.answer.Some? && !a.expired ==> Endings(a) == 1
    ensures !(a.request.Done? && a.request.answer.Some?) ==> |a.hangUps| == 0 && a.accepted <= 1
  {
  }

  function DoAll(a: Attempt, acts: seq<Act>): Option<Attempt> {
    if acts == [] then Some(a)
    else
      match DoAll(a, acts[..|acts| - 1])
      case None => None
      case Some(b) => if Can(b, acts[|acts| - 1]) then Some(Do(b, acts[|acts| - 1])) else None
  }

  lemma {:induction false} RunKeeps(acts: seq<Act>)
    ensures DoAll(FRESH, acts).Some? ==> AttemptOk(DoAll(FRESH, acts).value)
  {
    if acts != [] {
      RunKeeps(acts[..|acts| - 1]);
      var before := DoAll(FRESH, acts[..|acts| - 1]);
      if before.Some? && Can(before.value, acts[|acts| - 1]) { ActKeeps(before.value, acts[|acts| - 1]); }
    }
  }

  // ----- Ended exactly once at the gateway, whatever became of its answers -----

  /** How often the gateway was asked to end the call and did: cancels it carried out, whether or not
      their answer arrived, and hang-ups of the answered call. */
  function GatewayEndings(acts: seq<Act>): nat
    requires DoAll(FRESH, acts).Some?
  {
    multiset(acts)[CancelAnswered(Accepted)] + multiset(acts)[CancelAnswered(AcceptedButLost)]
    + |DoAll(FRESH, acts).value.hangUps|
  }

  lemma CountsOne(a: Attempt, act: Act)
    requires Can(a, act)
    ensures Do(a, act).accepted == a.accepted + if act == CancelAnswered(Accepted) then 1 else 0
    ensures Do(a, act).lost == a.lost + if act == CancelAnswered(AcceptedButLost) then 1 else 0
  {
  }

  lemma {:induction false} CountsAnswers(acts: seq<Act>)
    requires DoAll(FRESH, acts).Some?
    ensures var a := DoAll(FRESH, acts).value;
            && a.accepted == multiset(acts)[CancelAnswered(Accepted)]
            && a.lost == multiset(acts)[CancelAnswered(AcceptedButLost)]
  {
    hide Can, Do;
    if acts != [] {
      var n := |acts| - 1;
      CountsAnswers(acts[..n]);
      CountsOne(DoAll(FRESH, acts[..n]).value, acts[n]);
      assert acts == acts[..n] + [acts[n]];
    }
  }

  /** A call that was hung up while it rang and answered anyway is ended by the gateway once, exactly if
      no cancel was carried out whose answer was lost. One such cancel, and the gateway is asked a
      second time, by the hang-up. */
  lemma GatewayEndsOnceIff(acts: seq<Act>)
    requires DoAll(FRESH, acts).Some?
    requires var a := DoAll(FRESH, acts).value;
             Quiet(a) && HungUpRinging(a) && !a.expired && a.request.Done? && a.request.answer.Some?
    ensures GatewayEndings(acts) == 1 <==> CancelAnswered(AcceptedButLost) !in acts
    ensures GatewayEndings(acts) <= 2
  {
    RunKeeps(acts);
    CountsAnswers(acts);
    var a := DoAll(FRESH, acts).value;
    ExactlyOnce(a);
    assert CancelAnswered(AcceptedButLost) in acts <==> multiset(acts)[CancelAnswered(AcceptedButLost)] > 0;
    LostHangsUp(a);
    hide AttemptOk, Do, Can, DoAll;
  }

  lemma LostHangsUp(a: Attempt)
    requires AttemptOk(a) && Quiet(a) && HungUpRinging(a) && !a.expired && a.request.Done? && a.request.answer.Some?
    ensures a.lost <= 1 && (a.lost == 1 ==> a.accepted == 0 && |a.hangUps| == 1)
  {
  }

  // ----- When the cancel task gives up -----

  /** The answer, or the lack of a token, for which a cancel is given up at once. */
  predicate Hopeless(act: Act) {
    act == DecidesCancel(false) || act == CancelAnswered(CancelFailed) || act == CancelAnswered(AcceptedButLost)
  }

  /** After `n` answers that the call is not known yet; `hopeless` if another answer ended the cancel. */
  predicate RetriesOk(a: Attempt, n: nat, hopeless: bool) {
    && n <= CANCEL_RETRIES + 1
    && (a.canceller.Asking? || a.canceller.Pausing? ==> n == a.canceller.tries)
    && (a.canceller.Asking? ==> n <= CANCEL_RETRIES)
    && (a.canceller.Idle? || a.canceller.Took? || a.canceller.Reported? || a.canceller.Signalled? ==> n == 0)
    && (a.outcome == Some(false) ==> hopeless || n == CANCEL_RETRIES + 1 || a.request.Done?)
  }

  lemma RetryNext(a: Attempt, act: Act, n: nat, hopeless: bool)
    requires AttemptOk(a) && Can(a, act) && RetriesOk(a, n, hopeless)
    ensures RetriesOk(Do(a, act), if act == CancelAnswered(NotFound) then n + 1 else n, hopeless || Hopeless(act))
  {
  }

  lemma {:induction false} RunRetries(acts: seq<Act>)
    requires DoAll(FRESH, acts).Some?
    ensures RetriesOk(DoAll(FRESH, acts).value, multiset(acts)[CancelAnswered(NotFound)],
                      exists act :: act in acts && Hopeless(act))
  {
    hide Can, Do, AttemptOk, Hopeless;
    if acts != [] {
      var n := |acts| - 1;
      var p, act := acts[..n], acts[n];
      RunKeeps(p);
      RunRetries(p);
      assert acts == p + [act];
      RetryNext(DoAll(FRESH, p).value, act, multiset(p)[CancelAnswered(NotFound)], exists x :: x in p && Hopeless(x));
      assert (exists x :: x in acts && Hopeless(x)) <==> (exists x :: x in p && Hopeless(x)) || Hopeless(act);
    }
  }

  /** The cancel of a call whose request is still out is given up only without a token, after an answer other than
      that the call is not known, or after the fifth such answer; and a sixth request is never sent. */
  lemma CancelIsRetried(acts: seq<Act>)
    requires DoAll(FRESH, acts).Some?
    ensures multiset(acts)[CancelAnswered(NotFound)] <= CANCEL_RETRIES + 1
    ensures var a := DoAll(FRESH, acts).value;
            a.outcome == Some(false) && !a.request.Done? ==>
              || multiset(acts)[CancelAnswered(NotFound)] == CANCEL_RETRIES + 1
              || DecidesCancel(false) in acts || CancelAnswered(CancelFailed) in acts
              || CancelAnswered(AcceptedButLost) in acts
  {
    RunRetries(acts);
  }
}
