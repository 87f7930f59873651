/** Following a transfer to its outcome (`await_transfer_outcome`), for any number of legs, any status
    answers and any other threads ending the same calls meanwhile. Times are in milliseconds. */
module Transfers {
  import opened Types
  import opened Outcomes
  import Polls

  /** No more rounds than this. */
  function RoundLimit(times: Times): nat
    requires times.interval > 0
  {
    (times.timeout + Settle(times)) / times.interval + 2
  }

  /** Every leg has a turn in every round, and every round takes at least the poll interval. */
  predicate Scripted(rounds: seq<Round>, count: nat, start: nat, times: Times) {
    && Full(rounds, count)
    && forall r {:trigger rounds[r]} :: 0 <= r < |rounds| ==>
         rounds[r].now >= (if r == 0 then start else rounds[r - 1].now) + times.interval
  }

  /** The legs still in the call map, and what this loop has ended: with which reason it took a leg out
      of the map, and which legs it also hung up at the gateway. */
  datatype Legs = Legs(up: set<nat>, ended: map<nat, EndReason>, hungUp: set<nat>)

  /** `end_call_locally`: only who takes the call out of the map reports it. */
  function EndLeg(legs: Legs, i: nat, reason: EndReason): Legs {
    if i in legs.up then legs.(up := legs.up - {i}, ended := legs.ended[i := reason]) else legs
  }

  /** All legs still here end as transferred. */
  function EndAll(legs: Legs): Legs {
    legs.(up := {}, ended := legs.ended + map l | l in legs.up :: Transferred)
  }

  /** Other threads take legs out of the call map. */
  function Without(legs: Legs, taken: set<nat>): Legs {
    legs.(up := legs.up - taken)
  }

  datatype Step = Go | Done(result: Result<(), MobileError>)

  // ----- What became of the legs -----

  /** Before turn `i` of round `r`: the legs that were up are up, or another thread took them, or they have
      followed, and only those ended here, as transferred. */
  ghost predicate LegsAt(rounds: seq<Round>, count: nat, up: set<nat>, r: nat, i: nat, legs: Legs,
                         transferred: seq<bool>)
    requires Full(rounds, count) && |transferred| == count
  {
    && legs.hungUp == {}
    && (forall l :: l in up ==> l < count)
    && (forall l :: l in legs.up <==> l in up && !transferred[l] && !TakenBefore(rounds, count, l, r, i))
    && (forall l :: l in legs.ended ==> l in up && transferred[l] && legs.ended[l].Transferred?)
    && (forall l :: l in up && transferred[l] && l !in legs.ended ==> TakenBefore(rounds, count, l, r, i))
  }

  /** Every leg that was up is still up, or was ended here, or was taken by another thread. */
  ghost predicate Accounted(rounds: seq<Round>, count: nat, up: set<nat>, r: nat, i: nat, legs: Legs)
    requires Full(rounds, count)
  {
    && legs.up <= up && legs.ended.Keys <= up && legs.up !! legs.ended.Keys && legs.hungUp <= legs.ended.Keys
    && (forall l :: l in up ==> l in legs.up || l in legs.ended || TakenBefore(rounds, count, l, r, i))
    && (forall l :: l in legs.up ==> !TakenBefore(rounds, count, l, r, i))
  }

  predicate AllTransferred(legs: Legs) {
    forall l :: l in legs.ended ==> legs.ended[l].Transferred?
  }

  /** What each result says about the legs, if the loop ended at turn `stop` of its last round, `r`. Only a
      leg that is still here when the settle time is over is hung up. */
  ghost predicate Fits(rounds: seq<Round>, count: nat, r: nat, stop: nat, legs: Legs, transferred: seq<bool>,
                       result: Result<(), MobileError>)
    requires Full(rounds, count) && |transferred| == count && r < |rounds|
  {
    match result
    case Ok(_) =>
      && legs.up == {} && AllTransferred(legs)
      && (stop < count ==> legs.hungUp == {})
      && (stop == count ==> forall l :: l in legs.ended ==> l < count && (l in legs.hungUp <==> !transferred[l]))
    case Err(InvalidState) =>
      && stop < count && legs.hungUp == {} && legs.ended.Keys <= {stop} && !Any(transferred)
      && ReplyIn(rounds, count, stop, r).Status?
      && (stop in legs.ended ==> legs.ended[stop] == ReplyIn(rounds, count, stop, r).reason)
    case Err(AuthenticationError) =>
      legs.hungUp == {} && AllTransferred(legs) && forall l :: l in legs.ended ==> l < count && transferred[l]
    case Err(_) => legs.hungUp == {} && legs.ended == map[] && !Any(transferred)
  }

  // ----- One leg's status answer -----

  method FollowLeg(legs: Legs, transferred: seq<bool>, i: nat, streak: nat, reply: Reply, ghost rounds: seq<Round>,
                   ghost r: nat)
      returns (legs': Legs, transferred': seq<bool>, streak': nat, step: Step)
    requires Full(rounds, |transferred|) && r < |rounds| && i < |transferred| && !transferred[i]
    requires Marked(rounds, |transferred|, r, i, transferred) && streak == Streak(rounds, |transferred|, i, r)
    requires reply == ReplyIn(rounds, |transferred|, i, r) && forall l :: l in legs.up ==> l < |transferred|
    ensures transferred' == transferred[i := Followed(rounds, |transferred|, i, r)]
    ensures match Decision(rounds, |transferred|, r, i)
            case None => step.Go? && (!transferred'[i] ==> streak' == Streak(rounds, |transferred|, i, r + 1))
            case Some(result) => step == Done(result)
    ensures legs' == if transferred'[i] then EndLeg(legs, i, Transferred)
                     else if step == Done(Err(InvalidState)) && reply.Status? then EndLeg(legs, i, reply.reason)
                     else if step == Done(Ok(())) then EndAll(legs)
                     else legs
  {
    AnyIffSucceeded(rounds, |transferred|, r, i, transferred);
    MarkedIffGone(rounds, |transferred|, r, i, transferred);
    CountSaysGone(rounds, |transferred|, r, i);
    hide Marked, Streak, Succeeded, GoneBefore, Polls.Verdict, Replies;
    legs', transferred', streak', step := legs, transferred, streak, Go;
    if reply.Unauthorized? { step := Done(Err(AuthenticationError)); return; }
    if reply.Unreachable? { return; }
    var succeeded := Any(transferred);
    streak' := Polls.NextStreak(streak, reply.status);
    if Polls.GoneNow(streak, reply.status) {
      var reason := if succeeded then Transferred else reply.reason;
      legs' := EndLeg(legs, i, reason);
      if reason.Transferred? {
        transferred' := transferred[i := true];
        return;
      }
      step := Done(Err(InvalidState));
      return;
    }
    if reply.status != "active" || succeeded { return; }
    match reply.outcome
    case NoField =>
      legs' := EndEvery(legs, |transferred|);
      step := Done(Ok(()));
    case Refused(code) => step := Done(Err(if code == Some(408) then Timeout else CallFailed));
    case Undecided =>
  }

  function Below(up: set<nat>, n: nat): set<nat> {
    set l: nat | l in up && l < n
  }

  lemma BelowNext(up: set<nat>, n: nat)
    ensures Below(up, n + 1) == Below(up, n) + if n in up then {n} else {}
    ensures Below(up, 0) == {} && n !in Below(up, n)
    ensures (forall l :: l in up ==> l < n) ==> Below(up, n) == up
  {
  }

  /** The legs numbered below `n` end as transferred. */
  function EndedTo(legs: Legs, n: nat): Legs {
    legs.(up := legs.up - Below(legs.up, n), ended := legs.ended + map l | l in Below(legs.up, n) :: Transferred)
  }

  lemma EndedNext(legs: Legs, n: nat)
    ensures n in EndedTo(legs, n).up <==> n in legs.up
    ensures EndedTo(legs, n + 1) == EndLeg(EndedTo(legs, n), n, Transferred)
    ensures EndedTo(legs, 0) == legs
    ensures (forall l :: l in legs.up ==> l < n) ==> EndedTo(legs, n) == EndAll(legs)
  {
    BelowNext(legs.up, n);
    hide Below;
  }

  /** The gateway reports no outcome: every leg ends here as transferred. */
  method EndEvery(legs: Legs, count: nat) returns (legs': Legs)
    requires forall l :: l in legs.up ==> l < count
    ensures legs' == EndAll(legs)
  {
    hide EndedTo, EndLeg, EndAll;
    legs' := legs;
    EndedNext(legs, 0);
    for j := 0 to count
      invariant legs' == EndedTo(legs, j)
    {
      legs' := EndLeg(legs', j, Transferred);
      EndedNext(legs, j);
    }
    EndedNext(legs, count);
  }

  // ----- One round over the legs -----

  lemma TakenNext(rounds: seq<Round>, count: nat, l: nat, r: nat, i: nat)
    requires Full(rounds, count) && r < |rounds| && i < count
    ensures TakenBefore(rounds, count, l, r, i + 1) <==>
              TakenBefore(rounds, count, l, r, i) || l in rounds[r].turns[i].taken
  {
    if TakenBefore(rounds, count, l, r, i) {
      var q: nat, j: nat :| q < |rounds| && j < count && Before(q, j, r, i) && l in rounds[q].turns[j].taken;
      assert Before(q, j, r, i + 1);
    }
    if l in rounds[r].turns[i].taken { assert Before(r, i, r, i + 1); }
    if TakenBefore(rounds, count, l, r, i + 1) {
      var q: nat, j: nat :| q < |rounds| && j < count && Before(q, j, r, i + 1) && l in rounds[q].turns[j].taken;
      assert Before(q, j, r, i) || (q == r && j == i);
    }
  }

  lemma TakenRound(rounds: seq<Round>, count: nat, l: nat, r: nat)
    requires Full(rounds, count)
    ensures TakenBefore(rounds, count, l, r + 1, 0) <==> TakenBefore(rounds, count, l, r, count)
  {
    if TakenBefore(rounds, count, l, r, count) {
      var q: nat, j: nat :| q < |rounds| && j < count && Before(q, j, r, count) && l in rounds[q].turns[j].taken;
      assert Before(q, j, r + 1, 0);
    }
    if TakenBefore(rounds, count, l, r + 1, 0) {
      var q: nat, j: nat :| q < |rounds| && j < count && Before(q, j, r + 1, 0) && l in rounds[q].turns[j].taken;
      assert Before(q, j, r, count);
    }
  }

  lemma LegsTaken(rounds: seq<Round>, count: nat, up: set<nat>, r: nat, i: nat, legs: Legs, transferred: seq<bool>)
    requires Full(rounds, count) && r < |rounds| && i < count && |transferred| == count
    requires LegsAt(rounds, count, up, r, i, legs, transferred)
    ensures LegsAt(rounds, count, up, r, i + 1, Without(legs, rounds[r].turns[i].taken), transferred)
  {
    hide TakenBefore;
    forall l: nat ensures TakenBefore(rounds, count, l, r, i + 1) <==>
                            TakenBefore(rounds, count, l, r, i) || l in rounds[r].turns[i].taken
    {
      TakenNext(rounds, count, l, r, i);
    }
  }

  lemma LegsFollow(rounds: seq<Round>, count: nat, up: set<nat>, r: nat, i: nat, legs: Legs, transferred: seq<bool>,
                   l: nat)
    requires Full(rounds, count) && l < count && |transferred| == count && !transferred[l]
    requires LegsAt(rounds, count, up, r, i, legs, transferred)
    ensures LegsAt(rounds, count, up, r, i, EndLeg(legs, l, Transferred), transferred[l := true])
  {
    hide TakenBefore;
  }

  lemma LegsRound(rounds: seq<Round>, count: nat, up: set<nat>, r: nat, legs: Legs, transferred: seq<bool>)
    requires Full(rounds, count) && |transferred| == count && LegsAt(rounds, count, up, r, count, legs, transferred)
    ensures LegsAt(rounds, count, up, r + 1, 0, legs, transferred)
  {
    hide TakenBefore;
    forall l: nat ensures TakenBefore(rounds, count, l, r + 1, 0) <==> TakenBefore(rounds, count, l, r, count) {
      TakenRound(rounds, count, l, r);
    }
  }

  lemma LegsAccounted(rounds: seq<Round>, count: nat, up: set<nat>, r: nat, i: nat, legs: Legs, transferred: seq<bool>)
    requires Full(rounds, count) && |transferred| == count && LegsAt(rounds, count, up, r, i, legs, transferred)
    ensures Accounted(rounds, count, up, r, i, legs) && Accounted(rounds, count, up, r, i, EndAll(legs))
    ensures forall l: nat, reason :: Accounted(rounds, count, up, r, i, EndLeg(legs, l, reason))
    ensures !Any(transferred) ==> legs.ended == map[]
  {
    hide TakenBefore;
  }

  /** The legs as a turn that decides leaves them. */
  function Decided(legs: Legs, i: nat, reply: Reply, result: Result<(), MobileError>): Legs {
    if result == Err(InvalidState) && reply.Status? then EndLeg(legs, i, reply.reason)
    else if result == Ok(()) then EndAll(legs)
    else legs
  }

  lemma MarkedLength(rounds: seq<Round>, count: nat, r: nat, i: nat, transferred: seq<bool>)
    requires Full(rounds, count) && Marked(rounds, count, r, i, transferred)
    ensures |transferred| == count
  {
  }

  lemma DecidedFits(rounds: seq<Round>, count: nat, up: set<nat>, r: nat, i: nat, legs: Legs, transferred: seq<bool>)
    requires Full(rounds, count) && r < |rounds| && i < count && Marked(rounds, count, r, i, transferred)
    requires LegsAt(rounds, count, up, r, i + 1, legs, transferred) && Decision(rounds, count, r, i).Some?
    ensures var result := Decision(rounds, count, r, i).value;
            var legs' := Decided(legs, i, ReplyIn(rounds, count, i, r), result);
            Accounted(rounds, count, up, r, i + 1, legs') && Fits(rounds, count, r, i, legs', transferred, result)
  {
    hide Marked, Succeeded, GoneBefore, Polls.Verdict, Replies, TakenBefore, Accounted, Any;
    MarkedLength(rounds, count, r, i, transferred);
    AnyIffSucceeded(rounds, count, r, i, transferred);
    LegsAccounted(rounds, count, up, r, i + 1, legs, transferred);
  }

  /** Between turns, or between rounds. */
  ghost predicate At(rounds: seq<Round>, count: nat, up: set<nat>, r: nat, i: nat, legs: Legs, transferred: seq<bool>,
                     streaks: seq<nat>)
    requires Full(rounds, count)
  {
    && Marked(rounds, count, r, i, transferred) && Counted(rounds, count, r, i, transferred, streaks)
    && PassedOver(rounds, count, r, i) && LegsAt(rounds, count, up, r, i, legs, transferred)
  }

  /** Turn `i` of round `r` has decided. */
  ghost predicate DecidedAt(rounds: seq<Round>, count: nat, up: set<nat>, r: nat, i: nat, legs: Legs,
                            transferred: seq<bool>, result: Result<(), MobileError>)
    requires Full(rounds, count)
  {
    && r < |rounds| && i < count && Marked(rounds, count, r, i, transferred) && PassedOver(rounds, count, r, i)
    && Decision(rounds, count, r, i) == Some(result)
    && Accounted(rounds, count, up, r, i + 1, legs) && Fits(rounds, count, r, i, legs, transferred, result)
  }

  lemma SkipTurn(rounds: seq<Round>, count: nat, up: set<nat>, r: nat, i: nat, legs: Legs, transferred: seq<bool>,
                 streaks: seq<nat>)
    requires Full(rounds, count) && r < |rounds| && i < count && At(rounds, count, up, r, i, legs, transferred, streaks)
    requires transferred[i]
    ensures At(rounds, count, up, r, i + 1, Without(legs, rounds[r].turns[i].taken), transferred, streaks)
  {
    LegsTaken(rounds, count, up, r, i, legs, transferred);
    MarkedIffGone(rounds, count, r, i, transferred);
    PassNext(rounds, count, r, i);
    MarkNext(rounds, count, r, i, transferred);
    CountNext(rounds, count, r, i, transferred, streaks, true, streaks[i]);
    hide Marked, Counted, PassedOver, LegsAt;
    assert transferred[i := true] == transferred && streaks[i := streaks[i]] == streaks;
  }

  /** One leg's turn. */
  method TakeTurn(legs: Legs, transferred: seq<bool>, streaks: seq<nat>, i: nat, turn: Turn, ghost rounds: seq<Round>,
                  ghost r: nat, ghost up: set<nat>)
      returns (legs': Legs, transferred': seq<bool>, streaks': seq<nat>, step: Step)
    requires Full(rounds, |transferred|) && r < |rounds| && i < |transferred| && turn == rounds[r].turns[i]
    requires At(rounds, |transferred|, up, r, i, legs, transferred, streaks) && |streaks| == |transferred|
    ensures |transferred'| == |streaks'| == |transferred|
    ensures step.Go? ==> At(rounds, |transferred|, up, r, i + 1, legs', transferred', streaks')
    ensures step.Done? ==> DecidedAt(rounds, |transferred|, up, r, i, legs', transferred', step.result)
  {
    hide Marked, Counted, PassedOver, LegsAt, Decision, Followed, DecidedAt, At, Streak;
    ghost var count := |transferred|;
    legs', transferred', streaks', step := Without(legs, turn.taken), transferred, streaks, Go;
    if transferred[i] {
      SkipTurn(rounds, count, up, r, i, legs, transferred, streaks);
    } else {
      TurnStarts(rounds, up, r, i, legs, transferred, streaks);
      ghost var here := legs';
      var streak: nat;
      legs', transferred', streak, step := FollowLeg(legs', transferred, i, streaks[i], turn.reply, rounds, r);
      streaks' := streaks[i := streak];
      TurnTaken(rounds, up, r, i, here, transferred, streaks, streak);
    }
  }

  lemma TurnStarts(rounds: seq<Round>, up: set<nat>, r: nat, i: nat, legs: Legs, transferred: seq<bool>,
                   streaks: seq<nat>)
    requires Full(rounds, |transferred|) && r < |rounds| && i < |transferred| && !transferred[i]
    requires At(rounds, |transferred|, up, r, i, legs, transferred, streaks)
    ensures var count, here := |transferred|, Without(legs, rounds[r].turns[i].taken);
            && Marked(rounds, count, r, i, transferred) && Counted(rounds, count, r, i, transferred, streaks)
            && PassedOver(rounds, count, r, i) && LegsAt(rounds, count, up, r, i + 1, here, transferred)
            && |streaks| == count && streaks[i] == Streak(rounds, count, i, r) && forall l :: l in here.up ==> l < count
  {
    LegsTaken(rounds, |transferred|, up, r, i, legs, transferred);
    hide Streak, TakenBefore;
  }

  lemma TurnTaken(rounds: seq<Round>, up: set<nat>, r: nat, i: nat, here: Legs, transferred: seq<bool>,
                  streaks: seq<nat>, streak: nat)
    requires var count := |transferred|;
             && Full(rounds, count) && r < |rounds| && i < count && !transferred[i]
             && Marked(rounds, count, r, i, transferred) && Counted(rounds, count, r, i, transferred, streaks)
             && PassedOver(rounds, count, r, i) && LegsAt(rounds, count, up, r, i + 1, here, transferred)
    requires var count, follows := |transferred|, Followed(rounds, |transferred|, i, r);
             Decision(rounds, count, r, i).None? && !follows ==> streak == Streak(rounds, count, i, r + 1)
    ensures var count, follows := |transferred|, Followed(rounds, |transferred|, i, r);
            match Decision(rounds, count, r, i)
            case None =>
              At(rounds, count, up, r, i + 1, if follows then EndLeg(here, i, Transferred) else here,
                 transferred[i := follows], streaks[i := streak])
            case Some(result) =>
              && !follows && transferred[i := follows] == transferred
              && DecidedAt(rounds, count, up, r, i, Decided(here, i, ReplyIn(rounds, count, i, r), result),
                           transferred, result)
  {
    hide Marked, Counted, PassedOver, LegsAt, Decision, Followed, Fits, Accounted, Gone, Streak, GoneBefore, EndAll;
    var count, follows := |transferred|, Followed(rounds, |transferred|, i, r);
    FollowsOrDecides(rounds, count, r, i);
    MarkedIffGone(rounds, count, r, i, transferred);
    if Decision(rounds, count, r, i).None? {
      MarkNext(rounds, count, r, i, transferred);
      CountNext(rounds, count, r, i, transferred, streaks, follows, streak);
      PassNext(rounds, count, r, i);
      if follows { LegsFollow(rounds, count, up, r, i + 1, here, transferred, i); }
      else { assert transferred[i := false] == transferred; }
    } else {
      DecidedFits(rounds, count, up, r, i, here, transferred);
      assert transferred[i := false] == transferred;
    }
  }

  /** A leg that follows decides nothing, and one that is over and does not follow decides. */
  lemma FollowsOrDecides(rounds: seq<Round>, count: nat, r: nat, i: nat)
    requires Full(rounds, count) && r < |rounds| && i < count
    ensures Followed(rounds, count, i, r) ==> Decision(rounds, count, r, i).None?
    ensures Gone(rounds, count, i, r) && !GoneBefore(rounds, count, i, r) && Decision(rounds, count, r, i).None? ==>
              Followed(rounds, count, i, r)
  {
    hide Succeeded, GoneBefore, Polls.Verdict, Replies;
  }

  /** One round over the legs. */
  method FollowRound(legs: Legs, transferred: seq<bool>, streaks: seq<nat>, turns: seq<Turn>, ghost rounds: seq<Round>,
                     ghost r: nat, ghost up: set<nat>)
      returns (legs': Legs, transferred': seq<bool>, streaks': seq<nat>, step: Step, ghost stop: nat)
    requires Full(rounds, |transferred|) && r < |rounds| && turns == rounds[r].turns && |streaks| == |transferred|
    requires At(rounds, |transferred|, up, r, 0, legs, transferred, streaks)
    ensures |transferred'| == |streaks'| == |transferred|
    ensures step.Go? ==> stop == |transferred| && At(rounds, stop, up, r, stop, legs', transferred', streaks')
    ensures step.Done? ==> DecidedAt(rounds, |transferred|, up, r, stop, legs', transferred', step.result)
  {
    hide At, DecidedAt;
    legs', transferred', streaks', step, stop := legs, transferred, streaks, Go, 0;
    for i := 0 to |turns|
      invariant |transferred'| == |streaks'| == |transferred| == |turns| && step.Go? && stop == i
      invariant At(rounds, |transferred|, up, r, i, legs', transferred', streaks')
    {
      legs', transferred', streaks', step := TakeTurn(legs', transferred', streaks', i, turns[i], rounds, r, up);
      if step.Done? { return; }
      stop := i + 1;
    }
  }

  // ----- The end of a round -----

  /** `end_transferred_leg`, for every leg that has not followed: ended here, and then hung up at the
      gateway if it was still here. */
  method EndTheRest(legs: Legs, transferred: seq<bool>) returns (legs': Legs)
    requires forall l :: l in legs.up ==> l < |transferred| && !transferred[l]
    ensures legs' == EndAll(legs).(hungUp := legs.hungUp + legs.up)
  {
    hide EndedTo, EndAll, Below;
    legs' := legs;
    var hungUp := legs.hungUp;
    EndedNext(legs, 0);
    BelowNext(legs.up, 0);
    for i: nat := 0 to |transferred|
      invariant legs' == EndedTo(legs, i).(hungUp := hungUp) && hungUp == legs.hungUp + Below(legs.up, i)
    {
      EndedNext(legs, i);
      BelowNext(legs.up, i);
      EndedKeepsHungUp(legs, i, hungUp);
      if !transferred[i] && i in legs'.up {
        hungUp := hungUp + {i};
        legs' := EndLeg(legs', i, Transferred).(hungUp := hungUp);
      }
    }
    EndedNext(legs, |transferred|);
    BelowNext(legs.up, |transferred|);
  }

  /** Hanging legs up and ending them here do not meet. */
  lemma EndedKeepsHungUp(legs: Legs, i: nat, hungUp: set<nat>)
    ensures EndLeg(EndedTo(legs, i).(hungUp := hungUp), i, Transferred) ==
            EndLeg(EndedTo(legs, i), i, Transferred).(hungUp := hungUp)
  {
    hide EndedTo;
  }

  /** After `used` rounds the clock shows `now`: before the deadline, or, since a leg was seen
      transferred, before the end of the settle time. */
  predicate Clocked(times: Times, used: nat, start: nat, now: nat, settleBy: Option<nat>) {
    match settleBy
    case None => start + used * times.interval <= now && (used == 0 || now < start + times.timeout)
    case Some(s) =>
      && used > 0 && now < s <= now + Settle(times)
      && (used - 1) * times.interval <= times.timeout + (now + Settle(times) - s)
  }

  lemma Tick(times: Times, used: nat, start: nat, now: nat, now': nat, settleBy: Option<nat>)
    requires Clocked(times, used, start, now, settleBy) && now' >= now + times.interval
    ensures settleBy.Some? ==> settleBy.value <= now + Settle(times)
    ensures settleBy.None? && now' < start + times.timeout ==> Clocked(times, used + 1, start, now', None)
    ensures settleBy.None? && Settle(times) > 0 ==> Clocked(times, used + 1, start, now', Some(now' + Settle(times)))
    ensures settleBy.Some? && now' < settleBy.value ==> Clocked(times, used + 1, start, now', settleBy)
  {
    assert (used + 1) * times.interval == used * times.interval + times.interval;
    if used > 0 { assert used * times.interval == (used - 1) * times.interval + times.interval; }
  }

  lemma StartClock(times: Times, start: nat)
    ensures Clocked(times, 0, start, start, None)
  {
  }

  lemma WithinLimit(times: Times, used: nat, start: nat, now: nat, settleBy: Option<nat>)
    requires times.interval > 0 && Clocked(times, used, start, now, settleBy)
    ensures used < RoundLimit(times)
  {
    if used > 0 {
      assert used * times.interval == (used - 1) * times.interval + times.interval;
      QuotientBounds(used - 1, times.interval, times.timeout + Settle(times));
    }
  }

  lemma QuotientBounds(n: nat, d: nat, total: nat)
    requires d > 0 && n * d <= total
    ensures n <= total / d
  {
    var q := total / d;
    assert total < (q + 1) * d;
    assert n < q + 1 by { Smaller(n, q + 1, d); }
  }

  lemma Smaller(a: nat, b: nat, d: nat)
    requires a * d < b * d
    ensures a < b
  {
    assert a >= b ==> a * d >= b * d by { assert a >= b ==> (a - b) * d >= 0; }
  }

  /** The settle deadline is set exactly if, before round `r`, a leg was seen transferred, and counts from the
      end of the first such round. */
  ghost predicate SettlesBy(rounds: seq<Round>, count: nat, times: Times, r: nat, settleBy: Option<nat>)
    requires Full(rounds, count) && r <= |rounds|
  {
    && (settleBy.Some? <==> Succeeded(rounds, count, r, 0))
    && (settleBy.Some? ==>
          && (exists f: nat ::
                f < r && Succeeded(rounds, count, f, count) && settleBy.value == rounds[f].now + Settle(times))
          && (forall f: nat :: f < r && Succeeded(rounds, count, f, count) ==>
              settleBy.value <= rounds[f].now + Settle(times)))
  }

  lemma SucceededRound(rounds: seq<Round>, count: nat, r: nat)
    requires Full(rounds, count)
    ensures Succeeded(rounds, count, r + 1, 0) <==> Succeeded(rounds, count, r, count)
    ensures forall f: nat :: f < r && Succeeded(rounds, count, f, count) ==> Succeeded(rounds, count, r, 0)
  {
    hide Polls.Verdict, Replies;
    if Succeeded(rounds, count, r, count) { SucceededLater(rounds, count, r, count, r + 1, 0); }
    if Succeeded(rounds, count, r + 1, 0) {
      var q: nat, j: nat :| Before(q, j, r + 1, 0) && OwnTransfer(rounds, count, j, q);
      assert Before(q, j, r, count);
    }
    forall f: nat | f < r && Succeeded(rounds, count, f, count) ensures Succeeded(rounds, count, r, 0) {
      SucceededLater(rounds, count, f, count, r, 0);
    }
  }

  /** When the settle time ends, once round `r` is over: it is set after the first round with a transferred
      leg and never moved. */
  ghost function DueAfter(rounds: seq<Round>, count: nat, times: Times, r: nat, settleBy: Option<nat>): Option<nat>
    requires Full(rounds, count) && r < |rounds|
  {
    if settleBy.None? && Succeeded(rounds, count, r, count) then Some(rounds[r].now + Settle(times)) else settleBy
  }

  lemma DueIsKept(rounds: seq<Round>, count: nat, times: Times, r: nat, settleBy: Option<nat>)
    requires Full(rounds, count) && r < |rounds| && SettlesBy(rounds, count, times, r, settleBy)
    requires settleBy.Some? ==> settleBy.value <= rounds[r].now + Settle(times)
    ensures SettlesBy(rounds, count, times, r + 1, DueAfter(rounds, count, times, r, settleBy))
    ensures DueAfter(rounds, count, times, r, settleBy).Some? <==> Succeeded(rounds, count, r, count)
  {
    hide Succeeded, Settle;
    SucceededRound(rounds, count, r);
    if settleBy.Some? {
      var f: nat :| f < r && Succeeded(rounds, count, f, count) && settleBy.value == rounds[f].now + Settle(times);
      assert Succeeded(rounds, count, r, count) by { SucceededLater(rounds, count, r, 0, r, count); }
    }
  }

  /** The deadline tells when the time is over. */
  lemma DueIsOverdue(rounds: seq<Round>, count: nat, start: nat, times: Times, r: nat, due: nat)
    requires Full(rounds, count) && r < |rounds| && SettlesBy(rounds, count, times, r + 1, Some(due))
    requires Succeeded(rounds, count, r, count)
    ensures Overdue(rounds, count, start, times, r) <==> rounds[r].now >= due
  {
    hide Succeeded, Settle;
    var f: nat :| f < r + 1 && Succeeded(rounds, count, f, count) && due == rounds[f].now + Settle(times);
    assert f <= r;
  }

  /** All rounds before round `r` passed: there was a token, some leg had not followed, and there was time. */
  ghost predicate Passed(rounds: seq<Round>, count: nat, start: nat, times: Times, r: nat)
    requires Full(rounds, count) && r <= |rounds|
  {
    forall q: nat :: q < r ==>
      rounds[q].token && !AllFollowedBy(rounds, count, q) && !Overdue(rounds, count, start, times, q)
  }

  /** Why the loop ends in round `r`, and with which result: there is no token; or turn `stop` decides; or,
      after all turns, all legs have followed or the time is over. */
  ghost predicate Ends(rounds: seq<Round>, count: nat, start: nat, times: Times, r: nat, stop: nat,
                       result: Result<(), MobileError>)
    requires Full(rounds, count) && r < |rounds|
  {
    if !rounds[r].token then stop == 0 && result == Err(AuthenticationError)
    else if stop < count then Decision(rounds, count, r, stop) == Some(result)
    else
      && stop == count && (AllFollowedBy(rounds, count, r) || Overdue(rounds, count, start, times, r))
      && result == if AllFollowedBy(rounds, count, r) || Succeeded(rounds, count, r, count) then Ok(())
          else Err(Timeout)
  }

  /** The end of a round: have all legs followed, and is the time over? */
  method EndOfRound(legs: Legs, transferred: seq<bool>, settleBy: Option<nat>, last: Round, start: nat, times: Times)
      returns (legs': Legs, settleBy': Option<nat>, step: Step)
    requires forall l :: l in legs.up ==> l < |transferred| && !transferred[l]
    ensures settleBy' == if settleBy.None? && Any(transferred) && !All(transferred) then Some(last.now + Settle(times))
            else settleBy
    ensures var over := if settleBy'.Some? then last.now >= settleBy'.value else last.now >= start + times.timeout;
            var settled := !All(transferred) && Any(transferred) && over;
            && legs' == (if settled then EndAll(legs).(hungUp := legs.hungUp + legs.up) else legs)
            && step == if All(transferred) || settled then Done(Ok(()))
                       else if over then Done(Err(Timeout)) else Go
    requires settleBy.Some? ==> Any(transferred)
  {
    legs', settleBy', step := legs, settleBy, Go;
    if All(transferred) { step := Done(Ok(())); return; }
    if Any(transferred) {
      if settleBy.None? { settleBy' := Some(last.now + Settle(times)); }
      if last.now >= settleBy'.value {
        legs' := EndTheRest(legs, transferred);
        step := Done(Ok(()));
      }
    } else if last.now >= start + times.timeout {
      step := Done(Err(Timeout));
    }
  }

  // ----- The loop -----

  /** The loop goes on after `used` rounds. */
  ghost predicate Running(rounds: seq<Round>, count: nat, up: set<nat>, start: nat, times: Times, used: nat, legs: Legs,
                          transferred: seq<bool>, streaks: seq<nat>, settleBy: Option<nat>)
    requires Full(rounds, count)
  {
    && used <= |rounds| && At(rounds, count, up, used, 0, legs, transferred, streaks)
    && Passed(rounds, count, start, times, used) && SettlesBy(rounds, count, times, used, settleBy)
    && Clocked(times, used, start, if used == 0 then start else rounds[used - 1].now, settleBy)
  }

  /** The loop has ended at turn `stop` of round `r`, or, if `stop` is the number of legs, after it. */
  ghost predicate Over(rounds: seq<Round>, count: nat, up: set<nat>, start: nat, times: Times, r: nat, stop: nat,
                       legs: Legs, transferred: seq<bool>, result: Result<(), MobileError>)
    requires Full(rounds, count)
  {
    && r < |rounds| && stop <= count && Marked(rounds, count, r, stop, transferred)
    && Passed(rounds, count, start, times, r) && PassedOver(rounds, count, r, stop)
    && Ends(rounds, count, start, times, r, stop, result)
    && Accounted(rounds, count, up, r, if rounds[r].token && stop < count then stop + 1 else stop, legs)
    && Fits(rounds, count, r, stop, legs, transferred, result)
  }

  lemma NoTokenIsOver(rounds: seq<Round>, count: nat, up: set<nat>, start: nat, times: Times, r: nat, legs: Legs,
                      transferred: seq<bool>, streaks: seq<nat>)
    requires Full(rounds, count) && r < |rounds| && !rounds[r].token
             && At(rounds, count, up, r, 0, legs, transferred, streaks)
    requires Passed(rounds, count, start, times, r)
    ensures Over(rounds, count, up, start, times, r, 0, legs, transferred, Err(AuthenticationError))
  {
    LegsAccounted(rounds, count, up, r, 0, legs, transferred);
    hide Marked, PassedOver, Counted, Accounted, TakenBefore, Overdue, Any;
  }

  lemma DecidedIsOver(rounds: seq<Round>, count: nat, up: set<nat>, start: nat, times: Times, r: nat, stop: nat,
                      legs: Legs, transferred: seq<bool>, result: Result<(), MobileError>)
    requires Full(rounds, count) && DecidedAt(rounds, count, up, r, stop, legs, transferred, result) && rounds[r].token
    requires Passed(rounds, count, start, times, r)
    ensures Over(rounds, count, up, start, times, r, stop, legs, transferred, result)
  {
    hide Marked, PassedOver, Accounted, Fits, Passed, Decision;
  }

  /** All legs have followed. */
  lemma AllIsOver(rounds: seq<Round>, count: nat, up: set<nat>, start: nat, times: Times, r: nat, legs: Legs,
                  transferred: seq<bool>, streaks: seq<nat>)
    requires Full(rounds, count) && r < |rounds| && rounds[r].token && All(transferred)
    requires At(rounds, count, up, r, count, legs, transferred, streaks) && Passed(rounds, count, start, times, r)
    ensures Over(rounds, count, up, start, times, r, count, legs, transferred, Ok(()))
  {
    LegsAccounted(rounds, count, up, r, count, legs, transferred);
    AllIffFollowed(rounds, count, r, transferred);
    hide Marked, PassedOver, Counted, Accounted, TakenBefore, Overdue, Any, AllFollowedBy, Passed;
  }

  lemma SettledLegs(rounds: seq<Round>, count: nat, up: set<nat>, r: nat, legs: Legs, transferred: seq<bool>)
    requires Full(rounds, count) && r < |rounds| && |transferred| == count
    requires LegsAt(rounds, count, up, r, count, legs, transferred)
    ensures var legs' := EndAll(legs).(hungUp := legs.hungUp + legs.up);
            Accounted(rounds, count, up, r, count, legs') && Fits(rounds, count, r, count, legs', transferred, Ok(()))
  {
    hide TakenBefore;
  }

  /** The settle time is over. */
  lemma SettledIsOver(rounds: seq<Round>, count: nat, up: set<nat>, start: nat, times: Times, r: nat, legs: Legs,
                      transferred: seq<bool>, streaks: seq<nat>)
    requires Full(rounds, count) && r < |rounds| && rounds[r].token && Overdue(rounds, count, start, times, r)
    requires Succeeded(rounds, count, r, count)
    requires At(rounds, count, up, r, count, legs, transferred, streaks) && Passed(rounds, count, start, times, r)
    ensures Over(rounds, count, up, start, times, r, count, EndAll(legs).(hungUp := legs.hungUp + legs.up),
                 transferred, Ok(()))
  {
    hide Marked, PassedOver, Counted, LegsAt, Accounted, Fits, Overdue, AllFollowedBy, Passed, EndAll;
    MarkedLength(rounds, count, r, count, transferred);
    SettledLegs(rounds, count, up, r, legs, transferred);
  }

  /** The transfer timeout is over. */
  lemma TimedOutIsOver(rounds: seq<Round>, count: nat, up: set<nat>, start: nat, times: Times, r: nat, legs: Legs,
                       transferred: seq<bool>, streaks: seq<nat>)
    requires Full(rounds, count) && r < |rounds| && rounds[r].token && Overdue(rounds, count, start, times, r)
    requires !All(transferred) && !Any(transferred)
    requires At(rounds, count, up, r, count, legs, transferred, streaks) && Passed(rounds, count, start, times, r)
    ensures Over(rounds, count, up, start, times, r, count, legs, transferred, Err(Timeout))
  {
    LegsAccounted(rounds, count, up, r, count, legs, transferred);
    AllIffFollowed(rounds, count, r, transferred);
    AnyIffSucceeded(rounds, count, r, count, transferred);
    hide Marked, PassedOver, Counted, Accounted, TakenBefore, Overdue, Any, AllFollowedBy, Passed;
  }

  lemma RoundGoesOn(rounds: seq<Round>, count: nat, up: set<nat>, start: nat, times: Times, r: nat, legs: Legs,
                    transferred: seq<bool>, streaks: seq<nat>)
    requires Full(rounds, count) && r < |rounds| && rounds[r].token && !All(transferred)
    requires !Overdue(rounds, count, start, times, r)
    requires At(rounds, count, up, r, count, legs, transferred, streaks) && Passed(rounds, count, start, times, r)
    ensures At(rounds, count, up, r + 1, 0, legs, transferred, streaks) && Passed(rounds, count, start, times, r + 1)
  {
    AllIffFollowed(rounds, count, r, transferred);
    NextRound(rounds, count, r, transferred, streaks);
    LegsRound(rounds, count, up, r, legs, transferred);
    hide Marked, PassedOver, Counted, LegsAt, Overdue, AllFollowedBy;
  }

  /** At the end of a round: what the loop's deadlines say, told from the answers. */
  lemma RoundIsOver(rounds: seq<Round>, count: nat, up: set<nat>, start: nat, times: Times, r: nat, legs: Legs,
                    transferred: seq<bool>, streaks: seq<nat>, settleBy: Option<nat>)
    requires Full(rounds, count) && r < |rounds| && At(rounds, count, up, r, count, legs, transferred, streaks)
    requires SettlesBy(rounds, count, times, r, settleBy)
    requires settleBy.Some? ==> settleBy.value <= rounds[r].now + Settle(times)
    ensures var due := if settleBy.None? && Any(transferred) then Some(rounds[r].now + Settle(times)) else settleBy;
            && SettlesBy(rounds, count, times, r + 1, due) && (due.Some? <==> Any(transferred))
            && (Overdue(rounds, count, start, times, r) <==>
                  if due.Some? then rounds[r].now >= due.value else rounds[r].now >= start + times.timeout)
    ensures Any(transferred) <==> Succeeded(rounds, count, r, count)
    ensures settleBy.Some? ==> Any(transferred)
    ensures forall l :: l in legs.up ==> l < count && !transferred[l]
  {
    AnyIffSucceeded(rounds, count, r, count, transferred);
    DueIsKept(rounds, count, times, r, settleBy);
    hide Marked, PassedOver, Counted, TakenBefore, Succeeded, Any, SettlesBy, Settle;
    var due := DueAfter(rounds, count, times, r, settleBy);
    if due.Some? { DueIsOverdue(rounds, count, start, times, r, due.value); }
  }

  /** One whole round. */
  method FollowOnce(legs: Legs, transferred: seq<bool>, streaks: seq<nat>, settleBy: Option<nat>, round: Round,
                    start: nat, times: Times, ghost rounds: seq<Round>, ghost used: nat, ghost up: set<nat>)
      returns (legs': Legs, transferred': seq<bool>, streaks': seq<nat>, settleBy': Option<nat>, step: Step,
               ghost stop: nat)
    requires times.interval > 0 && |transferred| == |streaks| > 0 && used < |rounds| && round == rounds[used]
    requires Scripted(rounds, |transferred|, start, times)
    requires Running(rounds, |transferred|, up, start, times, used, legs, transferred, streaks, settleBy)
    ensures |transferred'| == |streaks'| == |transferred|
    ensures step.Go? ==> Running(rounds, |transferred|, up, start, times, used + 1, legs', transferred', streaks',
                                 settleBy')
    ensures step.Done? ==> Over(rounds, |transferred|, up, start, times, used, stop, legs', transferred', step.result)
  {
    hide At, DecidedAt, Passed, SettlesBy, Clocked, Overdue, Succeeded, Any, All, Settle, Over, EndAll;
    ghost var count, now := |transferred|, if used == 0 then start else rounds[used - 1].now;
    Tick(times, used, start, now, round.now, settleBy);
    legs', transferred', streaks', settleBy', stop := legs, transferred, streaks, settleBy, 0;
    if !round.token {
      NoTokenIsOver(rounds, count, up, start, times, used, legs, transferred, streaks);
      step := Done(Err(AuthenticationError));
      return;
    }
    legs', transferred', streaks', step, stop := FollowRound(legs, transferred, streaks, round.turns, rounds, used, up);
    if step.Done? {
      DecidedIsOver(rounds, count, up, start, times, used, stop, legs', transferred', step.result);
      return;
    }
    ghost var here := legs';
    RoundIsOver(rounds, count, up, start, times, used, here, transferred', streaks', settleBy);
    legs', settleBy', step := EndOfRound(legs', transferred', settleBy, round, start, times);
    if All(transferred') { AllIsOver(rounds, count, up, start, times, used, here, transferred', streaks'); }
    else if step == Done(Ok(())) { SettledIsOver(rounds, count, up, start, times, used, here, transferred', streaks'); }
    else if step.Done? { TimedOutIsOver(rounds, count, up, start, times, used, here, transferred', streaks'); }
    else { RoundGoesOn(rounds, count, up, start, times, used, here, transferred', streaks'); }
  }

  method AllPending(count: nat) returns (transferred: seq<bool>, streaks: seq<nat>)
    ensures |transferred| == |streaks| == count && forall i :: 0 <= i < count ==> !transferred[i] && streaks[i] == 0
  {
    transferred := seq(count, _ => false);
    streaks := seq(count, _ => 0);
  }

  lemma Starts(rounds: seq<Round>, count: nat, up: set<nat>, start: nat, times: Times, transferred: seq<bool>,
               streaks: seq<nat>)
    requires Full(rounds, count) && |transferred| == |streaks| == count && forall l :: l in up ==> l < count
    requires forall l: nat :: l < count ==> !transferred[l] && streaks[l] == 0
    ensures Running(rounds, count, up, start, times, 0, Legs(up, map[], {}), transferred, streaks, None)
  {
    StartsMarked(rounds, count, transferred, streaks);
    StartClock(times, start);
    hide Marked, Counted, PassedOver, Clocked, OwnTransfer;
  }

  lemma StillWithinLimit(rounds: seq<Round>, count: nat, up: set<nat>, start: nat, times: Times, used: nat, legs: Legs,
                         transferred: seq<bool>, streaks: seq<nat>, settleBy: Option<nat>)
    requires times.interval > 0 && Full(rounds, count)
    requires Running(rounds, count, up, start, times, used, legs, transferred, streaks, settleBy)
    ensures used < RoundLimit(times)
  {
    WithinLimit(times, used, start, if used == 0 then start else rounds[used - 1].now, settleBy);
    hide At, Passed, SettlesBy, Clocked, RoundLimit;
  }

  /** `await_transfer_outcome`, from `start` on, for `count` legs of which `up` are still in the call map. It
      ends within `RoundLimit` rounds whatever the gateway answers, in the first round in which there is no
      token, a turn decides, all legs have followed or the time is over, and with the result that says so.
      The legs marked transferred are those whose own answers said that they followed. */
  method AwaitOutcome(count: nat, up: set<nat>, start: nat, times: Times, rounds: seq<Round>)
      returns (result: Result<(), MobileError>, legs: Legs, transferred: seq<bool>, used: nat, ghost stop: nat)
    requires count > 0 && times.interval > 0 && forall l :: l in up ==> l < count
    requires Scripted(rounds, count, start, times) && |rounds| >= RoundLimit(times)
    ensures 1 <= used <= RoundLimit(times) && stop <= count && |transferred| == count
    ensures EndsAt(rounds, count, start, times, used - 1, stop, result)
    ensures Answers(rounds, count, used - 1, stop, result) && NothingMissed(rounds, count, used - 1, stop)
    ensures EndsOnTime(rounds, count, start, times, used - 1, stop, result)
    ensures forall l: nat :: l < count ==> (transferred[l] <==> FollowedBefore(rounds, count, l, used - 1, stop))
    ensures Fits(rounds, count, used - 1, stop, legs, transferred, result)
    ensures Accounted(rounds, count, up, used - 1, if rounds[used - 1].token && stop < count then stop + 1
                      else stop, legs)
  {
    hide Running, Over, RoundLimit, EndsAt, Answers, NothingMissed, EndsOnTime, Fits, Accounted,
      FollowedBefore, Scripted;
    FullScript(rounds, count, start, times);
    legs := Legs(up, map[], {});
    var streaks: seq<nat>;
    transferred, streaks := AllPending(count);
    var settleBy: Option<nat> := None;
    var step := Go;
    used, stop := 0, 0;
    Starts(rounds, count, up, start, times, transferred, streaks);
    while step.Go?
      invariant |transferred| == |streaks| == count && used <= RoundLimit(times)
      invariant step.Go? ==> Running(rounds, count, up, start, times, used, legs, transferred, streaks, settleBy)
      invariant step.Done? ==> used > 0 && Over(rounds, count, up, start, times, used - 1, stop, legs, transferred,
                                                step.result)
      decreases RoundLimit(times) - used, step.Go?
    {
      StillWithinLimit(rounds, count, up, start, times, used, legs, transferred, streaks, settleBy);
      legs, transferred, streaks, settleBy, step, stop :=
        FollowOnce(legs, transferred, streaks, settleBy, rounds[used], start, times, rounds, used, up);
      used := used + 1;
    }
    result := step.result;
    IsOver(rounds, count, up, start, times, used - 1, stop, legs, transferred, result);
    OutcomeIsAnswered(rounds, count, start, times, used - 1, stop, result);
    TimeIsKept(rounds, count, start, times, used - 1, stop, result);
  }

  lemma FullScript(rounds: seq<Round>, count: nat, start: nat, times: Times)
    requires Scripted(rounds, count, start, times)
    ensures Full(rounds, count)
  {
  }

  lemma IsOver(rounds: seq<Round>, count: nat, up: set<nat>, start: nat, times: Times, r: nat, stop: nat, legs: Legs,
               transferred: seq<bool>, result: Result<(), MobileError>)
    requires Full(rounds, count) && Over(rounds, count, up, start, times, r, stop, legs, transferred, result)
    ensures r < |rounds| && stop <= count && |transferred| == count
    ensures EndsAt(rounds, count, start, times, r, stop, result)
    ensures forall l: nat :: l < count ==> (transferred[l] <==> FollowedBefore(rounds, count, l, r, stop))
    ensures Fits(rounds, count, r, stop, legs, transferred, result)
    ensures Accounted(rounds, count, up, r, if rounds[r].token && stop < count then stop + 1 else stop, legs)
  {
    MarkedIffFollowed(rounds, count, r, stop, transferred);
    hide Marked, Passed, PassedOver, Ends, Fits, Accounted, FollowedBefore;
  }

  /** Leg `stop` says in round `r` that the call is up, and how the transfer went. */
  predicate Active(rounds: seq<Round>, count: nat, r: nat, stop: nat)
    requires Full(rounds, count) && r < |rounds| && stop < count
  {
    ReplyIn(rounds, count, stop, r).Status? && ReplyIn(rounds, count, stop, r).status == "active"
  }

  /** What the application is told, from the answer that decided: 408 is a timeout, any other SIP status a failed
      transfer; without an outcome in the answer the transfer is done; a 401 is passed on; a leg that is over
      although no transfer happened makes the call invalid. After a whole round it is done or timed out. */
  ghost predicate Answers(rounds: seq<Round>, count: nat, r: nat, stop: nat, result: Result<(), MobileError>)
    requires Full(rounds, count) && r < |rounds|
  {
    if !rounds[r].token then result == Err(AuthenticationError)
    else if stop >= count then result == Ok(()) || result == Err(Timeout)
    else
      var reply, active := ReplyIn(rounds, count, stop, r), Active(rounds, count, r, stop);
      && (result == Err(Timeout) <==> active && reply.outcome == Refused(Some(408)))
      && (result == Err(CallFailed) <==> active && reply.outcome.Refused? && reply.outcome.code != Some(408))
      && (result == Ok(()) <==> active && reply.outcome.NoField?)
      && (result == Err(AuthenticationError) <==> reply.Unauthorized?)
      && (result == Err(InvalidState) <==> Gone(rounds, count, stop, r) && !Followed(rounds, count, stop, r))
  }

  /** The answer is no 401, no leg that is over without following, and, before a leg was transferred, no outcome. */
  ghost predicate SaysNothing(rounds: seq<Round>, count: nat, q: nat, j: nat)
    requires Full(rounds, count) && q < |rounds| && j < count
  {
    && !ReplyIn(rounds, count, j, q).Unauthorized?
    && (Gone(rounds, count, j, q) ==> Followed(rounds, count, j, q))
    && (Active(rounds, count, q, j) && !Succeeded(rounds, count, q, j) ==>
          ReplyIn(rounds, count, j, q).outcome.Undecided?)
  }

  /** No answer of a leg still followed, before turn `stop` of round `r`, called for an end. */
  ghost predicate NothingMissed(rounds: seq<Round>, count: nat, r: nat, stop: nat)
    requires Full(rounds, count)
  {
    forall q: nat, j: nat :: q < |rounds| && j < count && Before(q, j, r, stop) && !GoneBefore(rounds, count, j, q) ==>
      SaysNothing(rounds, count, q, j)
  }

  lemma PassedSaysNothing(rounds: seq<Round>, count: nat, q: nat, j: nat)
    requires Full(rounds, count) && q < |rounds| && j < count
    requires Decision(rounds, count, q, j).None? && !GoneBefore(rounds, count, j, q)
    ensures SaysNothing(rounds, count, q, j)
  {
    hide Polls.Verdict, Replies, Succeeded, GoneBefore;
    if Gone(rounds, count, j, q) { GoneIsOver(rounds, count, q, j); }
  }

  /** How long the loop goes on: until the transfer timeout, as long as no leg was seen transferred, and else for
      the shorter of the settle time and the timeout after the first one was. */
  ghost predicate InTime(rounds: seq<Round>, count: nat, start: nat, times: Times, r: nat)
    requires Full(rounds, count) && r < |rounds|
  {
    && (!Succeeded(rounds, count, r, count) ==> rounds[r].now < start + times.timeout)
    && forall f: nat :: f <= r && Succeeded(rounds, count, f, count) ==>
         rounds[r].now < rounds[f].now + times.settle && rounds[r].now < rounds[f].now + times.timeout
  }

  /** The rounds but the last were in time, and a loop that ends after a whole round, although some leg has not
      followed, ends because the last one was not. */
  ghost predicate EndsOnTime(rounds: seq<Round>, count: nat, start: nat, times: Times, r: nat, stop: nat,
                             result: Result<(), MobileError>)
    requires Full(rounds, count) && r < |rounds|
  {
    && (forall q: nat :: q < r ==> InTime(rounds, count, start, times, q))
    && (rounds[r].token && stop == count && !AllFollowedBy(rounds, count, r) ==>
          && !InTime(rounds, count, start, times, r)
          && (result == Ok(()) <==> Succeeded(rounds, count, r, count)))
  }

  lemma OverdueIff(rounds: seq<Round>, count: nat, start: nat, times: Times, r: nat)
    requires Full(rounds, count) && r < |rounds|
    ensures Overdue(rounds, count, start, times, r) <==> !InTime(rounds, count, start, times, r)
  {
    hide OwnTransfer;
    if !Succeeded(rounds, count, r, count) {
      forall f: nat | f <= r ensures !Succeeded(rounds, count, f, count) {
        if Succeeded(rounds, count, f, count) { SucceededLater(rounds, count, f, count, r, count); }
      }
    }
  }

  lemma TimeIsKept(rounds: seq<Round>, count: nat, start: nat, times: Times, r: nat, stop: nat,
                   result: Result<(), MobileError>)
    requires Full(rounds, count) && EndsAt(rounds, count, start, times, r, stop, result)
    ensures EndsOnTime(rounds, count, start, times, r, stop, result)
  {
    hide Overdue, InTime, Succeeded, AllFollowedBy, PassedOver, Decision;
    forall q: nat | q <= r
      ensures Overdue(rounds, count, start, times, q) <==> !InTime(rounds, count, start, times, q)
    {
      OverdueIff(rounds, count, start, times, q);
    }
  }

  lemma OutcomeIsAnswered(rounds: seq<Round>, count: nat, start: nat, times: Times, r: nat, stop: nat,
                          result: Result<(), MobileError>)
    requires Full(rounds, count) && EndsAt(rounds, count, start, times, r, stop, result)
    ensures Answers(rounds, count, r, stop, result) && NothingMissed(rounds, count, r, stop)
  {
    hide Polls.Verdict, Replies, Succeeded, GoneBefore, Followed, Overdue, AllFollowedBy, Passed;
    forall q: nat, j: nat | q < |rounds| && j < count && Before(q, j, r, stop) && !GoneBefore(rounds, count, j, q)
      ensures SaysNothing(rounds, count, q, j)
    {
      assert Decision(rounds, count, q, j).None?;
      PassedSaysNothing(rounds, count, q, j);
    }
    hide PassedOver, NothingMissed;
    if rounds[r].token && stop < count && Gone(rounds, count, stop, r) { GoneIsOver(rounds, count, r, stop); }
  }

  lemma GoneIsOver(rounds: seq<Round>, count: nat, r: nat, i: nat)
    requires Full(rounds, count) && r < |rounds| && i < count && Gone(rounds, count, i, r)
    ensures !Active(rounds, count, r, i)
  {
    CountSaysGone(rounds, count, r, i);
    hide Gone, Streak;
  }

  /** Where the loop may end, and with which result. */
  ghost predicate EndsAt(rounds: seq<Round>, count: nat, start: nat, times: Times, r: nat, stop: nat,
                         result: Result<(), MobileError>)
    requires Full(rounds, count)
  {
    && r < |rounds| && stop <= count && Passed(rounds, count, start, times, r) && PassedOver(rounds, count, r, stop)
    && Ends(rounds, count, start, times, r, stop, result)
  }

  lemma NoEarlierEnd(rounds: seq<Round>, count: nat, start: nat, times: Times, r: nat, stop: nat,
                     result: Result<(), MobileError>,
                     r': nat, stop': nat)
    requires Full(rounds, count) && EndsAt(rounds, count, start, times, r, stop, result) && r' < |rounds|
             && stop' <= count
    requires Passed(rounds, count, start, times, r') && PassedOver(rounds, count, r', stop')
    requires r == r' ==> rounds[r].token
    ensures !Before(r, stop, r', stop')
  {
    hide Decision, AllFollowedBy, Overdue, Succeeded;
  }

  /** The answers, the tokens and the clock determine the outcome: the loop can end in one place only, with
      one result. */
  lemma OutcomeIsDetermined(rounds: seq<Round>, count: nat, start: nat, times: Times, r: nat, stop: nat,
                            result: Result<(), MobileError>, r': nat, stop': nat, result': Result<(), MobileError>)
    requires Full(rounds, count)
    requires EndsAt(rounds, count, start, times, r, stop, result)
    requires EndsAt(rounds, count, start, times, r', stop', result')
    ensures r == r' && stop == stop' && result == result'
  {
    hide Decision, AllFollowedBy, Overdue, Succeeded, Passed, PassedOver;
    if r != r' || rounds[r].token {
      NoEarlierEnd(rounds, count, start, times, r, stop, result, r', stop');
      NoEarlierEnd(rounds, count, start, times, r', stop', result', r, stop);
    }
  }
}
