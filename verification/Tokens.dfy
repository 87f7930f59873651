/** What the application sees under the id of an incoming call, whatever becomes of the call. */
module Tokens {
  import opened Types
  import opened Events
  import opened Calls
  import opened CallsInvariant
  import opened World
  import opened WorldInvariant
  import opened Lifecycle
  import opened IncomingSteps
  import opened Frames
  import opened OutgoingSteps
  import opened SharedIds
  import opened Guarantees
  import opened Routes
  import opened Capacity
  import opened Abandoned
  import opened Answering
  import Outgoing


  predicate IsOffer(step: Step, t: string) {
    step.Offering? && step.offer.Offers? && step.offer.token == t
  }

  predicate IsUnknown(step: Step, t: string) {
    step.Accepting? && step.accept.AcceptUnknown? && step.accept.token == t
  }

  // ----- Which steps make a new `CallEvents` for the token -----

  /** An offer, an accept with unknown outcome, or the start of an accept, of a token that is not watched. */
  ghost predicate Makes(w: World, step: Step, t: string) {
    && t !in w.core.pending
    && (IsOffer(step, t) || IsUnknown(step, t) || step == Accepting(AcceptBegins(t)))
  }

  /** At most one `CallEvents` is added, and it is for the token exactly if the step makes one. */
  predicate Adds(ids: seq<string>, ids': seq<string>, id: string, makes: bool) {
    || (ids' == ids && !makes)
    || (|ids'| == |ids| + 1 && ids'[..|ids|] == ids && (ids'[|ids|] == id <==> makes))
  }

  lemma DialAdds(w: World, step: DialStep, t: string)
    requires CanDial(w, step)
    ensures Adds(w.core.ids, DoDial(w, step).core.ids, IncomingId(t), false)
  {
    IncomingIds(t, t);
    if step.Reserve? {
      ReserveCells(w.core, step.id, step.hasToken);
      ReservedIsOutgoing(w.core, step.id, step.hasToken);
      hide ReserveOutgoing, CanDial;
    } else if step.Tries? || (step.Acts? && step.act.RequestReturns?) {
      hide Outgoing.Do, Outgoing.Can;
    } else {
      DialKept(w, step);
      hide DoDial, CanDial;
    }
  }

  lemma ReservedIsOutgoing(c: Core, id: string, hasToken: bool)
    ensures ReserveOutgoing(c, id, hasToken).1.Ok? ==> DirectionOf(id).Outbound?
  {
    if OutgoingId(id) { OutgoingIds(id); }
  }

  lemma HangupAdds(c: Core, id: string, t: string)
    ensures Adds(c.ids, TakeForHangup(c, id).0.ids, IncomingId(t), false)
    ensures TakeCall(c, id).0.ids == c.ids
  {
    IncomingIds(t, t);
    if OutgoingId(id) { OutgoingIds(id); }
    hide UsedFlag, MarkUsed, OutgoingId, DirectionOf;
  }

  lemma EndAdds(w: World, step: EndStep, t: string)
    requires CanEnd(w, step)
    ensures Adds(w.core.ids, DoEnd(w, step).core.ids, IncomingId(t), false)
  {
    hide Outgoing.Do, Outgoing.Can, TakeForHangup, TakeCall, Emit, Adds, AsEnded, InfoOf;
    SameAdds(w.core.ids, IncomingId(t));
    match step
    case HangsUp(id) => HangupAdds(w.core, id, t);
    case Removes(id, _, _) => HangupAdds(w.core, id, t);
    case PaysDebt(_, _) =>
  }

  lemma SameAdds(ids: seq<string>, id: string)
    ensures Adds(ids, ids, id, false)
  {
  }

  lemma OfferAdds(w: World, step: OfferStep, t: string)
    requires CanOffer(w, step)
    ensures Adds(w.core.ids, DoOffer(w, step).core.ids, IncomingId(t), Makes(w, Offering(step), t))
  {
    hide Emit, WatchStatus, TakeOffered, AsEnded, InfoOf, IncomingId;
    match step
    case Offers(u, route) => IncomingIds(t, u);
    case Rejects(u) => OfferCells(w.core, u, SawOther);
    case ReportsRejected(_) =>
    case Watches(u, seen) => OfferCells(w.core, u, seen);
  }

  lemma AcceptAdds(w: World, step: AcceptStep, t: string)
    requires CanAccept(w, step)
    ensures Adds(w.core.ids, DoAccept(w, step).core.ids, IncomingId(t), Makes(w, Accepting(step), t))
  {
    hide ConnectAccepted, Emit, AsEnded, InfoOf, IncomingId, TakeOffered, Makes;
    IncomingIds(t, step.token);
    if step.AcceptConnects? { AcceptCells(w.core, step.token, w.accepts[step.token].source, step.route); }
    else if step.AcceptClears? { OfferCells(w.core, step.token, SawOther); }
    WhatMakes(w, Accepting(step), t);
  }

  lemma WhatMakes(w: World, step: Step, t: string)
    ensures Makes(w, step, t) ==> step.Offering? || step.Accepting?
    ensures step.Accepting? ==>
              (Makes(w, step, t) <==>
                 (step.accept.AcceptBegins? || step.accept.AcceptUnknown?) && step.accept.token == t
                     && t !in w.core.pending)
  {
  }

  lemma StepAdds(w: World, step: Step, t: string)
    requires Can(w, step)
    ensures Adds(w.core.ids, Do(w, step).core.ids, IncomingId(t), Makes(w, step, t))
  {
    hide Makes, DoDial, DoEnd, DoControl, DoOffer, DoAccept, CanDial, CanAccept, CanOffer;
    WhatMakes(w, step, t);
    match step
    case Dialling(dial) => DialAdds(w, dial, t);
    case Ending(end) => EndAdds(w, end, t);
    case Control(control) => ControlOnlyCalls(w, control);
    case Offering(offer) => OfferAdds(w, offer, t);
    case Accepting(accept) => AcceptAdds(w, accept, t);
  }

  // ----- Tokens that get a second `CallEvents` -----

  predicate NoneOf(ids: seq<string>, id: string) {
    forall k :: 0 <= k < |ids| ==> ids[k] != id
  }

  /** A `CallEvents` is made for a token that had one before: the token is not watched, although it was
      offered or accepted earlier. */
  ghost predicate MakesAnother(w: World, step: Step, t: string) {
    Makes(w, step, t) && !NoneOf(w.core.ids, IncomingId(t))
  }

  /** Some step of the run makes another `CallEvents` for the token. */
  ghost predicate Doubles(steps: seq<Step>, t: string) {
    exists i :: 0 <= i < |steps| && Another(steps, t, i)
  }

  ghost predicate Another(steps: seq<Step>, t: string, i: nat)
    requires i < |steps|
  {
    Run(steps[..i]).Some? && MakesAnother(Run(steps[..i]).value, steps[i], t)
  }

  lemma AddsOne(ids: seq<string>, ids': seq<string>, id: string, makes: bool)
    requires Adds(ids, ids', id, makes)
    ensures OneOf(ids', id) <==> OneOf(ids, id) && !(makes && !NoneOf(ids, id))
  {
    var n := |ids|;
    assert forall k :: 0 <= k < n ==> ids'[k] == ids[k] by {
      if ids' != ids { assert forall k :: 0 <= k < n ==> ids'[k] == ids'[..n][k]; }
    }
    if makes && !NoneOf(ids, id) {
      var k :| 0 <= k < n && ids[k] == id;
      assert ids'[k] == id && ids'[n] == id;
    }
  }

  lemma DoublesNext(steps: seq<Step>, t: string, last: Step)
    ensures Doubles(steps + [last], t) <==>
              Doubles(steps, t) || (Run(steps).Some? && MakesAnother(Run(steps).value, last, t))
  {
    hide MakesAnother, Run;
    var longer := steps + [last];
    assert longer[..|steps|] == steps && longer[|steps|] == last;
    forall i | 0 <= i < |steps| ensures Another(longer, t, i) <==> Another(steps, t, i) {
      assert longer[..i] == steps[..i] && longer[i] == steps[i];
    }
    if Doubles(longer, t) {
      var i :| 0 <= i < |longer| && Another(longer, t, i);
      assert i < |steps| ==> Another(steps, t, i);
    }
    if Doubles(steps, t) {
      var i :| 0 <= i < |steps| && Another(steps, t, i);
      assert Another(longer, t, i);
    }
    if Run(steps).Some? && MakesAnother(Run(steps).value, last, t) { assert Another(longer, t, |steps|); }
  }

  lemma StartHasNone(t: string)
    ensures OneOf(START.core.ids, IncomingId(t)) && !Doubles([], t)
  {
  }

  /** A token has had at most one `CallEvents` exactly when no step of the run made another one. */
  lemma {:induction false} OneSource(steps: seq<Step>, t: string)
    requires Run(steps).Some?
    ensures OneOf(Run(steps).value.core.ids, IncomingId(t)) <==> !Doubles(steps, t)
  {
    hide Do, Can, Adds, OneOf, NoneOf, IncomingId, Doubles, Makes;
    if steps == [] {
      StartHasNone(t);
    } else {
      var n := |steps| - 1;
      var earlier, last := steps[..n], steps[n];
      assert steps == earlier + [last];
      OneSource(earlier, t);
      var w := Run(earlier).value;
      StepAdds(w, last, t);
      DoublesNext(earlier, t, last);
      AddsOne(w.core.ids, Run(steps).value.core.ids, IncomingId(t), Makes(w, last, t));
    }
  }

  /** A token that gets one `CallEvents` has one story, whatever combination of hangups by either side,
      polls, transfers, pushes and accepts deals with the call. */
  lemma OneMakerOneStory(steps: seq<Step>, t: string)
    requires Run(steps).Some? && !Doubles(steps, t)
    ensures Grammar(ReportsFor(Run(steps).value.core.log.queue, IncomingId(t)))
  {
    hide Doubles, OneOf, Run, Grammar;
    OneSource(steps, t);
    OneUseOneStory(steps, IncomingId(t));
  }

  // ----- After an unknown outcome -----

  /** While the call is abandoned, the token gets no new `CallEvents`. */
  lemma {:induction false} NoMoreSources(w1: World, more: seq<Step>, t: string, k: nat, s: nat)
    requires Handled(w1, t, k, s, None, false) && RunFrom(w1, more).Some? && LeftAlone(more, t) && !HasOffer(more, t)
    ensures var ids, ids' := w1.core.ids, RunFrom(w1, more).value.core.ids;
            |ids| <= |ids'| && ids'[..|ids|] == ids && forall j :: |ids| <= j < |ids'| ==> ids'[j] != IncomingId(t)
  {
    hide Do, Can, Alone, Handled, Adds, IncomingId, Makes;
    if more != [] {
      var n := |more| - 1;
      var earlier, last := more[..n], more[n];
      assert forall i :: 0 <= i < n ==> earlier[i] == more[i];
      NoMoreSources(w1, earlier, t, k, s);
      AbandonedRun(w1, earlier, t, k, s);
      var v := RunFrom(w1, earlier).value;
      assert !IsOffer(last, t);
      NothingMade(v, last, t, k, s, Verdict(earlier, t), Polled(earlier, t));
      StepAdds(v, last, t);
      AddsOther(w1.core.ids, v.core.ids, RunFrom(w1, more).value.core.ids, IncomingId(t));
    }
  }

  lemma NothingMade(w: World, step: Step, t: string, k: nat, s: nat, verdict: Option<Seen>, polled: bool)
    requires Handled(w, t, k, s, verdict, polled) && Can(w, step) && !IsOffer(step, t)
    ensures !Makes(w, step, t)
  {
    assert OnlyAccept(w.accepts, t, k);
    hide Outgoing.Can, CanDial;
  }

  lemma AddsOther(a: seq<string>, b: seq<string>, c: seq<string>, id: string)
    requires |a| <= |b| && b[..|a|] == a && forall j :: |a| <= j < |b| ==> b[j] != id
    requires Adds(b, c, id, false)
    ensures |a| <= |c| && c[..|a|] == a && forall j :: |a| <= j < |c| ==> c[j] != id
  {
    if c != b {
      assert c[..|a|] == c[..|b|][..|a|];
      assert forall j :: 0 <= j < |b| ==> c[j] == c[..|b|][j];
    }
  }

  // ----- When it is one story -----

  /** The `i`-th step made `CallEvents` number `k` for the token. */
  ghost predicate MadeAt(steps: seq<Step>, t: string, i: nat, k: nat) {
    && i < |steps| && Run(steps[..i]).Some?
    && Makes(Run(steps[..i]).value, steps[i], t) && |Run(steps[..i]).value.core.ids| == k
  }

  lemma MadeStays(steps: seq<Step>, last: Step, t: string, i: nat, k: nat)
    requires i < |steps|
    ensures MadeAt(steps + [last], t, i, k) <==> MadeAt(steps, t, i, k)
  {
    hide Run, Makes;
    assert (steps + [last])[..i] == steps[..i];
  }

  /** Every `CallEvents` under the token's id was made by a step, and every such step made one. */
  lemma {:induction false} WhoMade(steps: seq<Step>, t: string, k: nat)
    requires Run(steps).Some?
    ensures (exists i: nat :: MadeAt(steps, t, i, k)) <==>
              k < |Run(steps).value.core.ids| && Run(steps).value.core.ids[k] == IncomingId(t)
  {
    hide Do, Can, IncomingId, Makes, MadeAt;
    if steps == [] {
      NoneMade(t, k);
    } else {
      var n := |steps| - 1;
      var earlier, last := steps[..n], steps[n];
      assert steps == earlier + [last];
      WhoMade(earlier, t, k);
      var w := Run(earlier).value;
      StepAdds(w, last, t);
      LastMade(earlier, last, t, k);
      forall i: nat | i < n ensures MadeAt(steps, t, i, k) <==> MadeAt(earlier, t, i, k) {
        MadeStays(earlier, last, t, i, k);
      }
      MadeIsStep(earlier, t, k);
      MadeIsStep(steps, t, k);
      MadeIn(w.core.ids, Run(steps).value.core.ids, IncomingId(t), Makes(w, last, t), k);
    }
  }

  lemma NoneMade(t: string, k: nat)
    ensures forall i: nat :: !MadeAt([], t, i, k)
    ensures START.core.ids == []
  {
  }

  lemma LastMade(steps: seq<Step>, last: Step, t: string, k: nat)
    requires Run(steps).Some?
    ensures MadeAt(steps + [last], t, |steps|, k) <==>
              Makes(Run(steps).value, last, t) && |Run(steps).value.core.ids| == k
  {
    hide Run, Makes;
    assert (steps + [last])[..|steps|] == steps;
  }

  lemma MadeIsStep(steps: seq<Step>, t: string, k: nat)
    ensures forall i: nat :: MadeAt(steps, t, i, k) ==> i < |steps|
  {
    hide Run, Makes;
  }

  lemma MadeIn(ids: seq<string>, ids': seq<string>, id: string, makes: bool, k: nat)
    requires Adds(ids, ids', id, makes)
    ensures k < |ids'| && ids'[k] == id <==> (k < |ids| && ids[k] == id) || (makes && k == |ids|)
  {
    if ids' != ids && k < |ids| { assert ids'[k] == ids'[..|ids|][k]; }
  }

  /** Every call of the token that was reported has got its `Ended`. */
  ghost predicate AllOver(c: Core, t: string) {
    forall k: nat {:trigger Reports(c.log.queue, k)} ::
      k < |c.ids| && c.ids[k] == IncomingId(t) && Reports(c.log.queue, k) != [] ==> k in c.log.ended
  }

  /** Two steps of the run made a `CallEvents` for the token, and both of these were reported. */
  ghost predicate TwoStories(steps: seq<Step>, t: string)
    requires Run(steps).Some?
  {
    exists i: nat, j: nat, k: nat, m: nat {:trigger MadeAt(steps, t, i, k), MadeAt(steps, t, j, m)} ::
      && i < j && MadeAt(steps, t, i, k) && MadeAt(steps, t, j, m)
      && Reports(Run(steps).value.core.log.queue, k) != [] && Reports(Run(steps).value.core.log.queue, m) != []
  }

  lemma {:induction false} ReportedIsThere(queue: seq<Queued>, i: nat)
    requires i < |queue|
    ensures Reports(queue, queue[i].source) != []
  {
    var n := |queue| - 1;
    if i < n { ReportedIsThere(queue[..n], i); }
  }

  /** If only call `k` was reported under an id, what was reported under the id is one story. */
  lemma StoryOf(c: Core, id: string, k: nat)
    requires StoriesOk(c.log.queue) && Told(c.log.queue, c.calls, c.ids, c.left)
    requires forall j :: 0 <= j < |c.ids| && c.ids[j] == id && j != k ==> Reports(c.log.queue, j) == []
    ensures Grammar(ReportsFor(c.log.queue, id))
  {
    IdsAreTold(c);
    OneStoryIff(c.log.queue, c.ids, id);
    hide Grammar, Reports, StoriesOk, Told, ReportsFor;
    if Clashes(c.log.queue, id) {
      var i: nat, j: nat :| Clash(c.log.queue, id, i, j);
      ReportedIsThere(c.log.queue, i);
      ReportedIsThere(c.log.queue, j);
      assert false;
    }
  }

  lemma {:induction false} FirstUnknown(steps: seq<Step>, t: string) returns (i: nat)
    requires !NoUnknown(steps, t)
    ensures i < |steps| && IsUnknown(steps[i], t) && NoUnknown(steps[..i], t)
  {
    var n := |steps| - 1;
    if NoUnknown(steps[..n], t) {
      assert forall j :: 0 <= j < n ==> steps[j] == steps[..n][j];
      i := n;
    } else {
      i := FirstUnknown(steps[..n], t);
      assert steps[..n][..i] == steps[..i];
    }
  }

  /** The watch's entry, if the unknown outcome makes one, is a `CallEvents` that nothing was queued for. */
  lemma NewWatch(w: World, t: string, route: Route)
    requires CanAccept(w, AcceptUnknown(t, route)) && Unborn(w.core)
    ensures var w1 := DoAccept(w, AcceptUnknown(t, route));
            && t in w1.core.pending && w1.core.log == w.core.log
            && (w1.core.ids == w.core.ids
                || (w1.core.ids == w.core.ids + [IncomingId(t)] && w1.core.pending[t].source == |w.core.ids|
                    && Reports(w.core.log.queue, |w.core.ids|) == []))
  {
    LastOfReports(w.core.log.queue, |w.core.ids|);
    hide Reports, Last;
  }

  lemma StoryAfterUnknown(w: World, t: string, route: Route, more: seq<Step>)
    requires WorldInv(w) && Unrejected(w.core.pending, w.rejecting) && OneOf(w.core.ids, IncomingId(t))
    requires CanAccept(w, AcceptUnknown(t, route)) && LeftAlone(more, t) && !HasOffer(more, t)
    requires RunFrom(DoAccept(w, AcceptUnknown(t, route)), more).Some?
    ensures Grammar(ReportsFor(RunFrom(DoAccept(w, AcceptUnknown(t, route)), more).value.core.log.queue, IncomingId(t)))
  {
    hide WorldInv, Alone, DoAccept, Unrejected, HasOffer, LeftAlone, Grammar, Unborn, Told, StoriesOk, Handled, RunFrom;
    var id, s := IncomingId(t), w.accepts[t].source;
    WorldTold(w);
    SendingIsOwn(w, t);
    UnknownIsHandled(w, t, route);
    NewWatch(w, t, route);
    var w1 := DoAccept(w, AcceptUnknown(t, route));
    var k := w1.core.pending[t].source;
    NoMoreSources(w1, more, t, k, s);
    AbandonedRun(w1, more, t, k, s);
    RunFromKeeps(w1, more);
    var v := RunFrom(w1, more).value;
    WorldTold(v);
    hide IncomingId;
    forall j | 0 <= j < |v.core.ids| && v.core.ids[j] == id && j != s ensures Reports(v.core.log.queue, j) == [] {
      assert j < |w1.core.ids| ==> v.core.ids[..|w1.core.ids|][j] == w1.core.ids[j];
      assert j < |w1.core.ids|;
    }
    assert v.core.ids[..|w1.core.ids|][s] == w1.core.ids[s] == w.core.ids[s];
    StoryOf(v.core, id, s);
  }

  predicate NoUnknown(steps: seq<Step>, t: string) {
    forall i :: 0 <= i < |steps| ==> !IsUnknown(steps[i], t)
  }

  predicate HasOffer(steps: seq<Step>, t: string) {
    exists i :: 0 <= i < |steps| && IsOffer(steps[i], t)
  }

  /** Only an accept with unknown outcome makes another `CallEvents` for the token, namely for a watch that
      the application is told nothing of; and after such an accept, which the application was told
      ended the call, the token is not accepted, rejected or offered again. */
  ghost predicate Orderly(steps: seq<Step>, t: string) {
    && (forall i :: 0 <= i < |steps| && Another(steps, t, i) ==> IsUnknown(steps[i], t))
    && (forall i, j :: 0 <= i < j < |steps| && IsUnknown(steps[i], t) ==>
          steps[j] != Accepting(AcceptReserves(t)) && steps[j] != Offering(Rejects(t)) && !IsOffer(steps[j], t))
  }

  lemma OrderlyOnce(steps: seq<Step>, t: string, n: nat)
    requires Orderly(steps, t) && n <= |steps| && NoUnknown(steps[..n], t)
    ensures !Doubles(steps[..n], t)
  {
    hide Run, MakesAnother;
    var p := steps[..n];
    assert forall i :: 0 <= i < n ==> p[i] == steps[i] && p[..i] == steps[..i];
    forall i | 0 <= i < n ensures !Another(p, t, i) { assert Another(p, t, i) == Another(steps, t, i); }
  }

  /** What the application sees under an incoming call's id is one grammatical story, whatever combination of
      hangups by either side, polls, transfers, repeated pushes, an accept that is refused, that
      succeeds or whose outcome is unknown, and the watch deals with the call. */
  lemma OneStoryPerToken(steps: seq<Step>, t: string)
    requires Run(steps).Some? && Orderly(steps, t)
    ensures Grammar(ReportsFor(Run(steps).value.core.log.queue, IncomingId(t)))
  {
    hide WorldInv, Grammar, DoAccept, Do, Can, RunFrom, Unrejected, OneOf, IncomingId, Doubles;
    if NoUnknown(steps, t) {
      assert steps[..|steps|] == steps;
      OrderlyOnce(steps, t, |steps|);
      OneMakerOneStory(steps, t);
    } else {
      var i := FirstUnknown(steps, t);
      var pre, x, more := steps[..i], steps[i], steps[i + 1..];
      assert steps == pre + [x] + more;
      RunSplit(START, pre + [x], more);
      RunSplit(START, pre, [x]);
      RunOne(pre, x);
      RunKeeps(pre);
      RunUnrejected(pre);
      OrderlyOnce(steps, t, i);
      OneSource(pre, t);
      RestIsLeftAlone(steps, t, i);
      UnknownStep(Run(pre).value, x, t);
      StoryAfterUnknown(Run(pre).value, t, x.accept.route, more);
    }
  }

  // ----- Exactly when -----

  lemma {:induction false} EndedIsQueued(log: EventLog, k: nat) returns (i: nat)
    requires FlagsOk(log) && k in log.ended
    ensures i < |log.queue| && log.queue[i].source == k && log.queue[i].info.state.Ended?
  {
    assert Last(log.queue, k).Some?;
    i := LastIsQueued(log.queue, k);
  }

  lemma BothEnded(c: Core, id: string, k: nat, m: nat)
    requires FlagsOk(c.log) && Telling(c.log.queue, c.ids)
    requires k < |c.ids| && m < |c.ids| && c.ids[k] == id && c.ids[m] == id
    requires k != m && k in c.log.ended && m in c.log.ended
    ensures Clashes(c.log.queue, id)
  {
    var i := EndedIsQueued(c.log, k);
    var j := EndedIsQueued(c.log, m);
    assert if i < j then Clash(c.log.queue, id, i, j) else Clash(c.log.queue, id, j, i);
  }

  lemma ClashingCalls(c: Core, id: string) returns (k: nat, m: nat)
    requires Telling(c.log.queue, c.ids) && Clashes(c.log.queue, id)
    ensures k != m && k < |c.ids| && m < |c.ids| && c.ids[k] == id && c.ids[m] == id
    ensures Reports(c.log.queue, k) != [] && Reports(c.log.queue, m) != []
  {
    hide Reports;
    var i: nat, j: nat :| Clash(c.log.queue, id, i, j);
    k, m := c.log.queue[i].source, c.log.queue[j].source;
    ReportedIsThere(c.log.queue, i);
    ReportedIsThere(c.log.queue, j);
  }

  lemma MadeOnce(steps: seq<Step>, t: string, i: nat, k: nat, m: nat)
    requires MadeAt(steps, t, i, k) && MadeAt(steps, t, i, m)
    ensures k == m
  {
  }

  lemma TwoMade(steps: seq<Step>, t: string, k: nat, m: nat)
    requires Run(steps).Some? && k != m
    requires var ids := Run(steps).value.core.ids;
             k < |ids| && m < |ids| && ids[k] == IncomingId(t) && ids[m] == IncomingId(t)
    requires Reports(Run(steps).value.core.log.queue, k) != [] && Reports(Run(steps).value.core.log.queue, m) != []
    ensures TwoStories(steps, t)
  {
    WhoMade(steps, t, k);
    WhoMade(steps, t, m);
    hide Run, Reports, IncomingId, MadeAt;
    var i: nat :| MadeAt(steps, t, i, k);
    var j: nat :| MadeAt(steps, t, j, m);
    if i == j { MadeOnce(steps, t, i, k, m); }
  }

  /** Once every call reported under a token's id is over, the application has seen one grammatical story
      under it exactly when no two steps of the run made a `CallEvents` for it that was reported: when
      it was not offered, accepted or left to a watch anew while an earlier one was no longer watched. */
  lemma OneStoryPerTokenIff(steps: seq<Step>, t: string)
    requires Run(steps).Some? && AllOver(Run(steps).value.core, t)
    ensures Grammar(ReportsFor(Run(steps).value.core.log.queue, IncomingId(t))) <==> !TwoStories(steps, t)
  {
    hide WorldInv, Grammar, StoriesOk, Told, Unborn, Reports, ReportsFor, Telling, Clashes, MadeAt, IncomingId;
    var id := IncomingId(t);
    OneStoryUnlessClash(steps, id);
    RunKeeps(steps);
    WorldTold(Run(steps).value);
    WorldCore(Run(steps).value);
    var c := Run(steps).value.core;
    IdsAreTold(c);
    if Clashes(c.log.queue, id) {
      var k, m := ClashingCalls(c, id);
      TwoMade(steps, t, k, m);
    }
    if TwoStories(steps, t) {
      var i: nat, j: nat, k: nat, m: nat :|
        && i < j && MadeAt(steps, t, i, k) && MadeAt(steps, t, j, m)
        && Reports(c.log.queue, k) != [] && Reports(c.log.queue, m) != [];
      WhoMade(steps, t, k);
      WhoMade(steps, t, m);
      MadeInOrder(steps, t, i, j, k, m);
      BothEnded(c, id, k, m);
    }
  }

  lemma MadeInOrder(steps: seq<Step>, t: string, i: nat, j: nat, k: nat, m: nat)
    requires Run(steps).Some? && i < j && MadeAt(steps, t, i, k) && MadeAt(steps, t, j, m)
    ensures k != m
  {
    var p := steps[..j];
    assert p[..i] == steps[..i];
    WhoMade(p, t, k);
    assert MadeAt(p, t, i, k);
    hide Run, Makes;
  }

  lemma UnknownStep(w: World, step: Step, t: string)
    requires Can(w, step) && IsUnknown(step, t)
    ensures CanAccept(w, AcceptUnknown(t, step.accept.route))
            && Do(w, step) == DoAccept(w, AcceptUnknown(t, step.accept.route))
  {
    hide DoAccept, CanAccept;
  }

  lemma RestIsLeftAlone(steps: seq<Step>, t: string, i: nat)
    requires Orderly(steps, t) && i < |steps| && IsUnknown(steps[i], t)
    ensures LeftAlone(steps[i + 1..], t) && !HasOffer(steps[i + 1..], t)
  {
    hide Run, Another;
    var rest := steps[i + 1..];
    assert forall j :: 0 <= j < |rest| ==> rest[j] == steps[i + 1 + j];
  }
}
