/** The clock of a cancelled call: the cancel task, which retries on 404 while the call request is in
    flight, and the task that waits for its outcome once the call was answered anyway. Times are in
    milliseconds; a gateway request takes at most its timeout, and local steps take no time. */
module CancelTiming {
  import opened Types
  import Outgoing

  const CANCEL_RETRY_DELAYS: seq<nat> := [100, 200, 400, 800]
  const REQUEST_TIMEOUT: nat := 30_000
  const CANCEL_OUTCOME_WAIT: nat := 35_000

  /** What the gateway answers to each cancel request, and how long it takes. */
  datatype Exchange = Exchange(reply: Outgoing.CancelReply, duration: nat)

  predicate Timely(exchanges: seq<Exchange>) {
    |exchanges| == |CANCEL_RETRY_DELAYS| + 1 && forall i :: 0 <= i < |exchanges| ==>
        exchanges[i].duration <= REQUEST_TIMEOUT
  }

  /** The request had returned by time `t`. */
  predicate DoneBy(done: Option<nat>, t: nat) {
    done.Some? && done.value <= t
  }

  function Later(a: nat, b: nat): nat {
    if a < b then b else a
  }

  /** When the cancel's outcome must be known. */
  function Deadline(start: nat, done: nat): nat {
    Later(start, done) + REQUEST_TIMEOUT
  }

  /** The attempts so far: each but the first follows a 404 after the delay due, while the call request
      was still in flight. */
  predicate Spaced(starts: seq<nat>, start: nat, done: Option<nat>, exchanges: seq<Exchange>) {
    && |starts| <= |CANCEL_RETRY_DELAYS| + 1 <= |exchanges|
    && (starts != [] ==> starts[0] == start)
    && (forall i :: 0 <= i < |starts| - 1 ==> exchanges[i].reply.NotFound?)
    && forall i {:trigger starts[i]} :: 0 < i < |starts| ==>
         && starts[i] == starts[i - 1] + exchanges[i - 1].duration + CANCEL_RETRY_DELAYS[i - 1]
         && (done.Some? ==> starts[i] <= done.value)
  }

  /** `cancel_at_gateway`, started at `start` by the hangup. `done` is when `POST /v1/calls` returns, if
      it does. It returns whether the cancel was accepted, when that was known, and when each
      request was sent. */
  method CancelAtGateway(start: nat, done: Option<nat>, exchanges: seq<Exchange>)
      returns (accepted: bool, at: nat, starts: seq<nat>)
    requires Timely(exchanges)
    ensures 1 <= |starts| <= |CANCEL_RETRY_DELAYS| + 1 && Spaced(starts, start, done, exchanges)
    ensures var last := exchanges[|starts| - 1].reply;
            && (accepted <==> last.Accepted?)
            && (last.NotFound? ==> |starts| == |CANCEL_RETRY_DELAYS| + 1 || DoneBy(done, at))
    ensures starts[|starts| - 1] <= at
    ensures done.Some? ==> at <= Deadline(start, done.value)
  {
    var i: nat, now: nat := 0, start;
    starts := [];
    while true
      invariant i <= |CANCEL_RETRY_DELAYS| && |starts| == i
      invariant Spaced(starts + [now], start, done, exchanges)
      invariant done.Some? ==> now <= Later(start, done.value)
      decreases |CANCEL_RETRY_DELAYS| - i
    {
      starts := starts + [now];
      var answered: nat := now + exchanges[i].duration;
      match exchanges[i].reply {
        case Accepted => return true, answered, starts;
        case CancelFailed => return false, answered, starts;
        case AcceptedButLost => return false, answered, starts;
        case NotFound =>
      }
      if i == |CANCEL_RETRY_DELAYS| { return false, answered, starts; }
      if DoneBy(done, answered) { return false, answered, starts; }
      // The sleep and the end of the request race; either may win a tie.
      var wake: nat := answered + CANCEL_RETRY_DELAYS[i];
      var tie: bool := *;
      if done.Some? && (done.value < wake || (done.value == wake && tie)) { return false, done.value, starts; }
      SpacedNext(starts, wake, start, done, exchanges);
      now := wake;
      i := i + 1;
    }
  }

  lemma SpacedNext(starts: seq<nat>, next: nat, start: nat, done: Option<nat>, exchanges: seq<Exchange>)
    requires 1 <= |starts| <= |CANCEL_RETRY_DELAYS| && Spaced(starts, start, done, exchanges)
    requires var i := |starts| - 1;
             && exchanges[i].reply.NotFound?
             && next == starts[i] + exchanges[i].duration + CANCEL_RETRY_DELAYS[i]
             && (done.Some? ==> next <= done.value)
    ensures Spaced(starts + [next], start, done, exchanges)
  {
  }

  datatype Verdict = NothingToEnd | LeftToGateway | HangUp(expired: bool)

  /** `hang_up_if_answered`: the request returned `answer`, and from `from` on the task waits for the
      cancel's outcome. */
  method HangUpIfAnswered(answer: Option<Answer>, from: nat, accepted: bool, at: nat) returns (v: Verdict)
    ensures v == (if answer.None? then NothingToEnd
                  else if at > from + CANCEL_OUTCOME_WAIT then HangUp(true)
                  else if accepted then LeftToGateway else HangUp(false))
  {
    if answer.None? { return NothingToEnd; }
    if at > from + CANCEL_OUTCOME_WAIT { return HangUp(true); }
    if accepted { return LeftToGateway; }
    return HangUp(false);
  }

  /** A call hung up at `start`, whose request returned at `done`, either side of the hangup: however the
      gateway answers, and however long it takes, the wait never expires, so the call is left to
      the gateway exactly when the gateway accepted the cancel, and is hung up otherwise. */
  method CancelledAndAnswered(start: nat, done: nat, from: nat, answer: Answer, exchanges: seq<Exchange>)
      returns (v: Verdict, sent: nat)
    requires Timely(exchanges) && from >= Later(start, done)
    ensures 1 <= sent <= |CANCEL_RETRY_DELAYS| + 1
    ensures v == if exchanges[sent - 1].reply.Accepted? then LeftToGateway else HangUp(false)
    ensures forall i :: 0 <= i < sent - 1 ==> exchanges[i].reply.NotFound?
  {
    var accepted, at, starts := CancelAtGateway(start, Some(done), exchanges);
    v := HangUpIfAnswered(Some(answer), from, accepted, at);
    sent := |starts|;
  }

  /** The retry delays before attempt `i`, added up. */
  function Backoff(i: nat): nat
    requires i <= |CANCEL_RETRY_DELAYS|
  {
    if i == 0 then 0 else Backoff(i - 1) + CANCEL_RETRY_DELAYS[i - 1]
  }

  /** Attempt `i` is sent no sooner than its delays allow, and even if the call request never returns,
      it has been answered a fixed time after the hangup: 151.5 s for the last one. */
  lemma {:induction false} AttemptsAreSpaced(starts: seq<nat>, start: nat, done: Option<nat>, exchanges: seq<Exchange>,
                                             i: nat)
    requires Timely(exchanges) && Spaced(starts, start, done, exchanges) && i < |starts|
    ensures start + Backoff(i) <= starts[i]
    ensures starts[i] + exchanges[i].duration <= start + Backoff(i) + (i + 1) * REQUEST_TIMEOUT
  {
    if i > 0 { AttemptsAreSpaced(starts, start, done, exchanges, i - 1); }
  }

  // ----- The clock of an attempt -----

  /** An attempt, the time, and when the late task began to wait for the cancel's outcome, when the latest
      cancel request was sent, and when the latest pause began. */
  datatype Clocked = Clocked(a: Outgoing.Attempt, now: nat, since: nat, asked: nat, paused: nat)

  const NEW: Clocked := Clocked(Outgoing.FRESH, 0, 0, 0, 0)

  /** What the attempt does, and when. */
  datatype Timed = Timed(at: nat, act: Outgoing.Act)

  function Delay(a: Outgoing.Attempt): nat
    requires a.canceller.Pausing?
  {
    if 1 <= a.canceller.tries <= |CANCEL_RETRY_DELAYS| then CANCEL_RETRY_DELAYS[a.canceller.tries - 1] else 0
  }

  /** Nothing need happen before time `t`: no local step is due, an open cancel request is within its
      timeout, and a pause has neither run out nor been cut short by the return of the request. */
  predicate CanWait(c: Clocked, t: nat) {
    && c.now <= t
    && (c.now < t ==>
          && !(c.a.canceller.Took? || c.a.canceller.Reported? || c.a.canceller.Signalled?)
          && (c.a.canceller.Asking? ==> t <= c.asked + REQUEST_TIMEOUT)
          && (c.a.canceller.Pausing? ==> !c.a.request.Done? && t <= c.paused + Delay(c.a)))
  }

  /** Timers do not fire early. */
  predicate CanDo(c: Clocked, e: Timed) {
    && CanWait(c, e.at)
    && Outgoing.Can(c.a, e.act)
    && (e.act.LateTimesOut? ==> e.at >= c.since + CANCEL_OUTCOME_WAIT)
    && (e.act.RetryDue? ==> e.at >= c.paused + Delay(c.a))
  }

  function Do(c: Clocked, e: Timed): Clocked
    requires CanDo(c, e)
  {
    var a := Outgoing.Do(c.a, e.act);
    Clocked(a, e.at,
            if a.late.AwaitingOutcome? && !c.a.late.AwaitingOutcome? then e.at else c.since,
            if a.canceller.Asking? && !c.a.canceller.Asking? then e.at else c.asked,
            if a.canceller.Pausing? && !c.a.canceller.Pausing? then e.at else c.paused)
  }

  function DoAll(events: seq<Timed>): Option<Clocked> {
    if events == [] then Some(NEW)
    else
      match DoAll(events[..|events| - 1])
      case None => None
      case Some(c) => if CanDo(c, events[|events| - 1]) then Some(Do(c, events[|events| - 1])) else None
  }

  /** While the late task waits, the cancel's outcome is at most one request away. */
  predicate InTime(c: Clocked) {
    && Outgoing.AttemptOk(c.a) && !c.a.expired && c.asked <= c.now
    && (c.a.canceller.Asking? ==> c.now <= c.asked + REQUEST_TIMEOUT)
    && (c.a.late.AwaitingOutcome? && c.a.outcome.None? ==>
          && c.since <= c.now
          && (c.a.canceller.Asking? ==> c.asked <= c.since)
          && (!c.a.canceller.Asking? ==> c.now == c.since))
  }

  lemma WaitInTime(c: Clocked, t: nat)
    requires InTime(c) && CanWait(c, t)
    ensures InTime(c.(now := t))
  {
  }

  lemma DoInTime(c: Clocked, e: Timed)
    requires InTime(c) && CanDo(c, e)
    ensures InTime(Do(c, e))
  {
    Outgoing.ActKeeps(c.a, e.act);
    WaitInTime(c, e.at);
  }

  lemma {:induction false} NeverExpires(events: seq<Timed>)
    requires DoAll(events).Some?
    ensures InTime(DoAll(events).value)
  {
    hide CanDo, Do, InTime;
    if events != [] {
      NeverExpires(events[..|events| - 1]);
      DoInTime(DoAll(events[..|events| - 1]).value, events[|events| - 1]);
    } else {
      NewInTime();
    }
  }

  lemma NewInTime()
    ensures InTime(NEW)
  {
  }

  function ActsIn(events: seq<Timed>): seq<Outgoing.Act> {
    seq(|events|, i requires 0 <= i < |events| => events[i].act)
  }

  /** The clock only tells when the attempt acts. */
  lemma {:induction false} ClockOnly(events: seq<Timed>)
    requires DoAll(events).Some?
    ensures Outgoing.DoAll(Outgoing.FRESH, ActsIn(events)) == Some(DoAll(events).value.a)
  {
    hide Outgoing.Can, Outgoing.Do, CanWait;
    if events != [] {
      var n := |events| - 1;
      ClockOnly(events[..n]);
      assert ActsIn(events)[..n] == ActsIn(events[..n]);
    }
  }
}
