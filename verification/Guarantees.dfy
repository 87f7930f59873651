/** What the engine promises, over every run: any number of calls, threads, polls and retries, any
    gateway answers, in any interleaving. */
module Guarantees {
  import opened Types
  import opened Events
  import opened Calls
  import opened CallsInvariant
  import opened World
  import opened WorldInvariant
  import opened Lifecycle
  import opened Frames
  import opened OutgoingSteps
  import opened SharedIds
  import opened Projection
  import CancelTiming
  import HangUps
  import Phases
  import Outgoing
  import Locks

  // ----- Events -----

  /** Each call's events form an optional `Ringing`, an optional stretch of `Connected`/`OnHold`, and
      an optional `Ended`, and nothing follows `Ended`, whoever ended the call. */
  lemma EveryStoryIsGrammatical(steps: seq<Step>, k: nat)
    requires Run(steps).Some?
    ensures Grammar(Reports(Run(steps).value.core.log.queue, k))
  {
    RunKeeps(steps);
    StoryIsGrammar(Reports(Run(steps).value.core.log.queue, k));
  }

  lemma UsedLongAgo(used: seq<(string, bool)>, marks: seq<nat>, ids: seq<string>, j: nat, k: nat)
    requires UsedOk(used, marks, ids)
    requires j < k < |ids| && ids[j] == ids[k] && DirectionOf(ids[j]).Outbound?
    ensures exists p, q :: 0 <= p < |marks| && 0 <= q < |marks| && marks[p] == j && marks[q] == k
                           && (p - q > USED_OUTGOING_IDS || q - p > USED_OUTGOING_IDS)
  {
    assert j in marks && k in marks;
    var p :| 0 <= p < |marks| && marks[p] == j;
    var q :| 0 <= q < |marks| && marks[q] == k;
    assert ids[marks[p]] == ids[marks[q]];
  }

  /** An outgoing id is given to a second call only after more than 256 other uses of ids. */
  lemma IdsComeBackLate(steps: seq<Step>, j: nat, k: nat)
    requires Run(steps).Some?
    requires var ids := Run(steps).value.core.ids; j < k < |ids| && ids[j] == ids[k] && DirectionOf(ids[j]).Outbound?
    ensures var marks := Run(steps).value.core.marks;
            exists p, q :: 0 <= p < |marks| && 0 <= q < |marks| && marks[p] == j && marks[q] == k
                           && (p - q > USED_OUTGOING_IDS || q - p > USED_OUTGOING_IDS)
  {
    RunKeeps(steps);
    var c := Run(steps).value.core;
    UsedLongAgo(c.used, c.marks, c.ids, j, k);
  }

  lemma WorldTold(w: World)
    requires WorldInv(w)
    ensures StoriesOk(w.core.log.queue) && Told(w.core.log.queue, w.core.calls, w.core.ids, w.core.left)
    ensures Unborn(w.core)
  {
    NextIsUnborn(w.core);
    hide Outgoing.AttemptOk, AttemptsOk, PlacesOk, OneDial, DebtsOk, NoneForgotten, AcceptsOk, RequestsOk, SlotsOk;
  }

  /** In every run, what the app sees under an id is one grammatical story (one `Ringing` at most, one
      `Ended` at most, nothing after it) exactly when no two calls that share the id clash. */
  lemma OneStoryUnlessClash(steps: seq<Step>, id: string)
    requires Run(steps).Some?
    ensures Grammar(ReportsFor(Run(steps).value.core.log.queue, id)) <==> !Clashes(Run(steps).value.core.log.queue, id)
  {
    hide WorldInv, Grammar, StoriesOk, Told, Clashes, Unborn, Telling;
    RunKeeps(steps);
    var c := Run(steps).value.core;
    WorldTold(Run(steps).value);
    IdsAreTold(c);
    OneStoryIff(c.log.queue, c.ids, id);
  }

  predicate OneOf(ids: seq<string>, id: string) {
    forall j, k :: 0 <= j < |ids| && 0 <= k < |ids| && ids[j] == id && ids[k] == id ==> j == k
  }

  /** In every run, however long: an id that was given to one call has one story. */
  lemma OneUseOneStory(steps: seq<Step>, id: string)
    requires Run(steps).Some? && OneOf(Run(steps).value.core.ids, id)
    ensures Grammar(ReportsFor(Run(steps).value.core.log.queue, id))
  {
    hide WorldInv, Grammar, StoriesOk, Told, Unborn, Run;
    OneStoryUnlessClash(steps, id);
    RunKeeps(steps);
    WorldTold(Run(steps).value);
    IdsAreTold(Run(steps).value.core);
  }

  /** In every run, however long: an outgoing id all of whose uses are among the last 257 uses of ids
      was used once, and the app sees one story under it. */
  lemma OneStoryPerId(steps: seq<Step>, id: string)
    requires Run(steps).Some? && DirectionOf(id).Outbound?
    requires var c := Run(steps).value.core;
             forall p: nat :: Phases.UsedAt(c, id, p) ==> |c.marks| - p <= USED_OUTGOING_IDS + 1
    ensures OneOf(Run(steps).value.core.ids, id)
    ensures Grammar(ReportsFor(Run(steps).value.core.log.queue, id))
  {
    hide WorldInv, Grammar, ReportsFor;
    var c := Run(steps).value.core;
    forall j: nat, k: nat | j < k < |c.ids| ensures !(c.ids[j] == id && c.ids[k] == id) {
      if c.ids[j] == id && c.ids[k] == id { UsedTwice(steps, id, j, k); }
    }
    OneUseOneStory(steps, id);
  }

  lemma UsedTwice(steps: seq<Step>, id: string, j: nat, k: nat)
    requires Run(steps).Some? && DirectionOf(id).Outbound?
    requires var ids := Run(steps).value.core.ids; j < k < |ids| && ids[j] == id && ids[k] == id
    ensures var c := Run(steps).value.core;
            exists p: nat :: Phases.UsedAt(c, id, p) && |c.marks| - p > USED_OUTGOING_IDS + 1
  {
    IdsComeBackLate(steps, j, k);
    hide Run;
    var c := Run(steps).value.core;
    var p, q :| 0 <= p < |c.marks| && 0 <= q < |c.marks| && c.marks[p] == j && c.marks[q] == k
                && (p - q > USED_OUTGOING_IDS || q - p > USED_OUTGOING_IDS);
    assert Phases.UsedAt(c, id, p) && Phases.UsedAt(c, id, q);
  }

  /** Every section that took a call out of a map has gone on to queue its `Ended`. */
  predicate AllReported(w: World) {
    && w.debts == map[]
    && (forall k :: k in w.attempts ==> !w.attempts[k].canceller.Took?)
  }

  /** No call is forgotten: once every section that took a call has reported it, a call that was
      ever reported is either still live here or got its one `Ended`. */
  lemma EveryCallEnds(steps: seq<Step>, k: nat)
    requires Run(steps).Some? && AllReported(Run(steps).value)
    requires Reports(Run(steps).value.core.log.queue, k) != []
    ensures var c := Run(steps).value.core;
            var r := Reports(c.log.queue, k);
            InCalls(c.calls, c.ids, k) || Rings(c.ringing, c.ids, k) || (r[|r| - 1].state.Ended? && OneEndAtMost(r))
  {
    hide WorldInv, Run, Grammar;
    RunKeeps(steps);
    var w := Run(steps).value;
    LastOfReports(w.core.log.queue, k);
    EveryStoryIsGrammatical(steps, k);
    OneEnd(Reports(w.core.log.queue, k));
    WorldCore(w);
    if k !in w.core.log.ended { LiveUnlessEnded(w, k); }
  }

  lemma OneEnd(r: seq<CallInfo>)
    requires Grammar(r)
    ensures OneEndAtMost(r)
  {
  }

  lemma LiveUnlessEnded(w: World, k: nat)
    requires WorldInv(w) && AllReported(w) && Last(w.core.log.queue, k).Some? && k !in w.core.log.ended
    ensures InCalls(w.core.calls, w.core.ids, k) || Rings(w.core.ringing, w.core.ids, k)
  {
    hide Inv, Outgoing.AttemptOk, AttemptsOk, OneDial, DebtsOk, AcceptsOk, RequestsOk, SlotsOk;
  }

  // ----- Hold -----

  /** At most one connected call is off hold, with its media; and at every point of the queue the app
      has been told of at most one call still in the map that it is the active one. */
  lemma OneActiveCall(steps: seq<Step>)
    requires Run(steps).Some?
    ensures var c := Run(steps).value.core;
            && AtMostOneOffHold(c.calls)
            && (forall i, j ::
                  i in c.calls && j in c.calls && !c.calls[i].mediaHeld && !c.calls[j].mediaHeld ==> i == j)
            && (forall n: nat, j: nat, k: nat {:trigger Front(c.log.queue, n, j), Front(c.log.queue, n, k)} ::
                  (&& n <= |c.log.queue| && Front(c.log.queue, n, j) && Front(c.log.queue, n, k)
                   && Standing(c.left, n, j) && Standing(c.left, n, k)) ==> j == k)
  {
    RunKeeps(steps);
    var c := Run(steps).value.core;
    assert forall i :: i in c.calls && !c.calls[i].mediaHeld ==> i in OffHold(c.calls);
  }

  // ----- The two-call cap -----

  lemma AtMostTwoCalls(steps: seq<Step>)
    requires Run(steps).Some?
    ensures var c := Run(steps).value.core; |c.calls| + |c.ringing| + |c.accepting| <= 2
    ensures var w := Run(steps).value;
            forall t {:trigger t in w.core.accepting} ::
              t in w.core.accepting <==> t in w.accepts && HoldsSlot(w.accepts[t])
  {
    RunKeeps(steps);
  }

  // ----- Reports agree with the state -----

  /** A connected call that has not been reported ended was last reported exactly as it now is, and
      a ringing call was last reported `Ringing`. */
  lemma ReportsAgree(steps: seq<Step>, id: string)
    requires Run(steps).Some?
    ensures var c := Run(steps).value.core;
            && (id in c.calls && c.calls[id].source !in c.log.ended ==>
                  Last(c.log.queue, c.calls[id].source) == Some(c.calls[id].info))
            && (id in c.ringing ==> Last(c.log.queue, c.ringing[id].source) == Some(InfoOf(id, Ringing)))
            && !(id in c.calls && id in c.ringing)
  {
    RunKeeps(steps);
  }

  // ----- Ending at the gateway -----

  /** The request of the call brought back a token. */
  predicate Answered(a: Outgoing.Attempt) {
    a.request.Done? && a.request.answer.Some?
  }

  /** The call is connected here under the token and on the route that answered. */
  predicate ConnectedAs(w: World, k: nat, a: Outgoing.Attempt) {
    && InCalls(w.core.calls, w.core.ids, k)
    && var call := w.core.calls[w.core.ids[k]];
       a.request == Outgoing.Done(Some(Answer(call.token, call.route)))
  }

  /** In every run: accepted cancels and hang-ups of a call are never more than one of each, and never one
      of each unless the wait for the cancel's outcome expired. Hang-ups go to the route that answered.
      A call that was never sent, or is connected here, is not ended at the gateway. */
  lemma NeverEndedTwice(steps: seq<Step>, k: nat)
    requires Run(steps).Some? && k in Run(steps).value.attempts
    ensures var w, a := Run(steps).value, Run(steps).value.attempts[k];
            && a.accepted <= 1 && |a.hangUps| <= 1
            && (a.expired || Outgoing.Endings(a) <= 1)
            && (forall h :: h in a.hangUps ==> a.request == Outgoing.Done(Some(h)))
            && (!a.dialing ==> Outgoing.Endings(a) == 0)
            && (InCalls(w.core.calls, w.core.ids, k) ==> Outgoing.Endings(a) == 0 && ConnectedAs(w, k, a))
  {
    RunKeeps(steps);
    var w := Run(steps).value;
    Outgoing.NeverBoth(w.attempts[k]);
    if InCalls(w.core.calls, w.core.ids, k) {
      Owned(w.core);
      assert w.core.calls[w.core.ids[k]].info.direction.Outbound?;
    }
  }

  /** In every run, an answered call whose tasks are done is one of three. It is connected here under the
      token and route that answered, and was not ended at the gateway; or it was connected, is gone, was
      never cancelled, and was hung up exactly if whoever took it ordered that; or it was hung up while
      it rang, and ended at the gateway exactly once, unless the wait for the cancel's outcome expired. */
  lemma AnsweredIsOneOfThree(steps: seq<Step>, k: nat)
    requires Run(steps).Some? && k in Run(steps).value.attempts
    requires var a := Run(steps).value.attempts[k]; Outgoing.Quiet(a) && Answered(a)
    ensures var w, a := Run(steps).value, Run(steps).value.attempts[k];
            var up, hungUp := ConnectedAs(w, k, a), Outgoing.HungUpRinging(a);
            && !(up && hungUp)
            && (up ==> Outgoing.Endings(a) == 0)
            && (!up && !hungUp ==>
                  && a.place.Gone? && a.dial == Outgoing.Returned(true) && a.accepted == 0
                  && a.hangUps == if k in HangUps.Ordered(steps) then [a.request.answer.value] else [])
            && (hungUp ==> a.expired || Outgoing.Endings(a) == 1)
  {
    hide WorldInv, Run;
    NeverEndedTwice(steps, k);
    RunKeeps(steps);
    PlaceOf(Run(steps).value, k);
    ThreeWays(Run(steps).value.attempts[k]);
    var a := Run(steps).value.attempts[k];
    if a.dial == Outgoing.Returned(true) { HangUps.HungUpIffOrdered(steps, k); }
  }

  lemma PlaceOf(w: World, k: nat)
    requires WorldInv(w) && k in w.attempts
    ensures Outgoing.AttemptOk(w.attempts[k])
    ensures w.attempts[k].place.InCalls? <==> InCalls(w.core.calls, w.core.ids, k)
  {
    hide Inv, Outgoing.AttemptOk, OneDial, DebtsOk, NoneForgotten, AcceptsOk, RequestsOk, SlotsOk;
  }

  lemma ThreeWays(a: Outgoing.Attempt)
    requires Outgoing.AttemptOk(a) && Outgoing.Quiet(a) && Answered(a)
    ensures Outgoing.HungUpRinging(a) ==> !a.place.InCalls? && (a.expired || Outgoing.Endings(a) == 1)
    ensures !a.place.InCalls? && !Outgoing.HungUpRinging(a) ==>
              a.place.Gone? && a.dial == Outgoing.Returned(true) && a.accepted == 0 && |a.hangUps| <= 1
  {
    if Outgoing.HungUpRinging(a) { Outgoing.ExactlyOnce(a); }
  }

  // ----- With a clock -----

  lemma {:induction false} ActsAreSteps(steps: seq<Step>, k: nat)
    ensures forall i :: 0 <= i < |ActsOf(steps, k)| ==> ActsOf(steps, k)[i].step < |steps|
  {
    hide Run, ActOf;
    if steps != [] { ActsAreSteps(steps[..|steps| - 1], k); }
  }

  /** The acts of attempt `k` and their times, if step `n` of the run happens at `times[n]`. */
  ghost function TimedActs(steps: seq<Step>, times: seq<nat>, k: nat): seq<CancelTiming.Timed>
    requires |times| == |steps|
  {
    ActsAreSteps(steps, k);
    var p := ActsOf(steps, k);
    seq(|p|, i requires 0 <= i < |p| => CancelTiming.Timed(times[p[i].step], p[i].act))
  }

  /** The times fit the attempt: what it does at once, and the gateway's requests and the timers, take no
      longer and no shorter than they may. */
  ghost predicate OnTime(steps: seq<Step>, times: seq<nat>, k: nat)
    requires |times| == |steps|
  {
    CancelTiming.DoAll(TimedActs(steps, times, k)).Some?
  }

  lemma TimedIsAttempt(steps: seq<Step>, times: seq<nat>, k: nat)
    requires Run(steps).Some? && k in Run(steps).value.attempts && |times| == |steps| && OnTime(steps, times, k)
    ensures CancelTiming.DoAll(TimedActs(steps, times, k)).value.a == Run(steps).value.attempts[k]
  {
    RunIsActs(steps, k);
    var e := TimedActs(steps, times, k);
    CancelTiming.ClockOnly(e);
    assert CancelTiming.ActsIn(e) == ActsIn(ActsOf(steps, k));
    hide Run, ActsOf, CancelTiming.DoAll, Outgoing.DoAll;
  }

  /** Some cancel of the call was carried out by the gateway, and its answer was lost. */
  predicate LosesCancel(steps: seq<Step>, k: nat) {
    Dialling(Acts(k, Outgoing.CancelAnswered(Outgoing.AcceptedButLost))) in steps
  }

  /** In every run that keeps time: a call that was hung up while it rang and was answered anyway is, once
      its tasks are done, ended by this handset's requests exactly once; the gateway has ended it once
      too, exactly if it carried out no cancel whose answer was lost. A call whose request failed is
      not hung up. */
  lemma EndedExactlyOnce(steps: seq<Step>, times: seq<nat>, k: nat)
    requires Run(steps).Some? && k in Run(steps).value.attempts && |times| == |steps| && OnTime(steps, times, k)
    requires var a := Run(steps).value.attempts[k]; Outgoing.Quiet(a) && Outgoing.HungUpRinging(a)
    ensures var a := Run(steps).value.attempts[k];
            && (Answered(a) ==> Outgoing.Endings(a) == 1)
            && (!Answered(a) ==> a.hangUps == [])
    ensures Outgoing.DoAll(Outgoing.FRESH, ActsIn(ActsOf(steps, k))).Some?
    ensures Answered(Run(steps).value.attempts[k]) ==>
              (Outgoing.GatewayEndings(ActsIn(ActsOf(steps, k))) == 1 <==> !LosesCancel(steps, k))
  {
    hide WorldInv, Run, ActsOf, Outgoing.DoAll, CancelTiming.DoAll;
    var a := Run(steps).value.attempts[k];
    RunKeeps(steps);
    PlaceOf(Run(steps).value, k);
    TimedIsAttempt(steps, times, k);
    CancelTiming.NeverExpires(TimedActs(steps, times, k));
    Outgoing.ExactlyOnce(a);
    RunIsActs(steps, k);
    if Answered(a) {
      Outgoing.GatewayEndsOnceIff(ActsIn(ActsOf(steps, k)));
      PrivateIsStep(steps, k, Outgoing.CancelAnswered(Outgoing.AcceptedButLost));
    }
  }

  /** An incoming call is hung up at most once, whatever combination of accept, watch, hangup and
      transfer deals with it, and an offer is rejected by its watch at most once. */
  lemma IncomingEndedOnce(steps: seq<Step>, k: nat)
    requires Run(steps).Some?
    ensures Run(steps).value.hangUps[k] <= 1 && Run(steps).value.rejects[k] <= 1
  {
    RunKeeps(steps);
  }

  // ----- Gates inside gates -----

  /** When an accepted call connects, the calls that may be held inside its gate have gates of their own:
      the section keeps the lock order. */
  lemma AnswerIsSafe(steps: seq<Step>, t: string, route: Route, others: seq<nat>)
    requires Run(steps).Some? && CanAccept(Run(steps).value, AcceptConnects(t, route))
    requires forall o :: o in others ==>
               exists id :: id in Run(steps).value.core.calls && Run(steps).value.core.calls[id].source == o
    ensures Locks.Section(Locks.AnswerOps(Run(steps).value.accepts[t].source, others))
  {
    RunKeeps(steps);
    ClearedIsNotConnected(Run(steps).value, t);
    Locks.AnswerIsSection(Run(steps).value.accepts[t].source, others);
  }

  lemma ClearedIsNotConnected(w: World, t: string)
    requires WorldInv(w) && t in w.accepts && w.accepts[t].Cleared?
    ensures forall id :: id in w.core.calls ==> w.core.calls[id].source != w.accepts[t].source
  {
    Owned(w.core);
    hide Inv, Outgoing.AttemptOk, AttemptsOk, PlacesOk, OneDial, DebtsOk, NoneForgotten, RequestsOk, SlotsOk;
    assert AcceptOk(t, w.accepts[t], w.core.pending, w.core.calls, w.core.ids, w.core.left, w.core.log);
  }
}
