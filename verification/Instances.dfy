/** When two calls of this handset are on the same gateway instance. */
module Instances {
  import opened Types
  import opened Calls
  import opened CallsInvariant
  import opened World
  import opened WorldInvariant
  import opened Lifecycle
  import opened Frames
  import opened OutgoingSteps
  import opened Routes
  import opened Growth
  import Outgoing

  /** Both calls are connected. */
  predicate BothUp(c: Core, j: nat, k: nat) {
    InCalls(c.calls, c.ids, j) && InCalls(c.calls, c.ids, k)
  }

  predicate SameInstance(c: Core, j: nat, k: nat)
    requires BothUp(c, j, k)
  {
    c.calls[c.ids[j]].route == c.calls[c.ids[k]].route
  }

  /** A call that is still connected is on the route it was on. */
  lemma StaysOnRoute(w: World, v: World, j: nat)
    requires WorldInv(v) && Grows(w.core, v.core) && BothIn(w.core, v.core, j)
    ensures v.core.calls[v.core.ids[j]].route == w.core.calls[w.core.ids[j]].route
  {
    hide Outgoing.AttemptOk, AttemptsOk, PlacesOk, OneDial, DebtsOk, NoneForgotten, AcceptsOk, RequestsOk, SlotsOk;
  }

  predicate BothIn(c: Core, c': Core, j: nat) {
    InCalls(c.calls, c.ids, j) && InCalls(c'.calls, c'.ids, j)
  }

  /** A call dialled while another one, made or answered here, is connected is connected on that one's
      instance, for as long as both are up. */
  lemma ConnectedShareInstance(steps: seq<Step>, step: DialStep, more: seq<Step>, j: nat)
    requires Run(steps).Some? && Run(steps + [Dialling(step)] + more).Some?
    requires InCalls(Run(steps).value.core.calls, Run(steps).value.core.ids, j)
    requires step.Reserve? && ReserveOutgoing(Run(steps).value.core, step.id, step.hasToken).1.Ok?
    ensures var k, c' := |Run(steps).value.core.ids|, Run(steps + [Dialling(step)] + more).value.core;
            BothUp(c', j, k) ==> SameInstance(c', j, k)
  {
    hide WorldInv, Run, RunFrom, ReserveOutgoing, Grows;
    var all := steps + [Dialling(step)] + more;
    SecondCallSharesInstance(steps, step, more, Run(steps).value.core.ids[j]);
    assert steps + ([Dialling(step)] + more) == all;
    LaterGrows(steps, [Dialling(step)] + more);
    RunKeeps(all);
    if BothUp(Run(all).value.core, j, |Run(steps).value.core.ids|) {
      StaysOnRoute(Run(steps).value, Run(all).value, j);
    }
  }

  lemma LaterGrows(steps: seq<Step>, more: seq<Step>)
    requires Run(steps).Some? && Run(steps + more).Some?
    ensures Grows(Run(steps).value.core, Run(steps + more).value.core)
  {
    hide WorldInv, RunFrom, Grows;
    RunKeeps(steps);
    RunSplit(START, steps, more);
    RunGrows(Run(steps).value, more);
  }

  /** A call dialled while another one rings, and its request is out, is connected on that one's instance
      exactly when the other one is connected on the route it was being tried on at that time. */
  lemma RingingShareInstanceIff(steps: seq<Step>, step: DialStep, more: seq<Step>, j: nat)
    requires Run(steps).Some? && Run(steps + [Dialling(step)] + more).Some?
    requires Rings(Run(steps).value.core.ringing, Run(steps).value.core.ids, j) && j in Run(steps).value.core.cells
    requires step.Reserve? && ReserveOutgoing(Run(steps).value.core, step.id, step.hasToken).1.Ok?
    ensures var c, c' := Run(steps).value.core, Run(steps + [Dialling(step)] + more).value.core;
            BothUp(c', j, |c.ids|) ==> j in c'.cells && (SameInstance(c', j, |c.ids|) <==> c'.cells[j] == c.cells[j])
  {
    hide WorldInv, Run, RunFrom, Can, Do, ReserveOutgoing, DirectionOf;
    var c, all := Run(steps).value.core, steps + [Dialling(step)] + more;
    RunKeeps(steps);
    RingsOutbound(Run(steps).value, j);
    SecondCallSharesInstance(steps, step, more, c.ids[j]);
    OnlyThePinIsTried(all, j);
    assert steps + ([Dialling(step)] + more) == all;
    LaterGrows(steps, [Dialling(step)] + more);
    assert Run(all).value.core.ids[j] == c.ids[j];
  }

  lemma RingsOutbound(w: World, j: nat)
    requires WorldInv(w) && Rings(w.core.ringing, w.core.ids, j)
    ensures DirectionOf(w.core.ids[j]).Outbound? && w.core.ids[j] !in w.core.calls
  {
    Owned(w.core);
    hide Inv, Outgoing.AttemptOk, AttemptsOk, PlacesOk, OneDial, DebtsOk, NoneForgotten, AcceptsOk, RequestsOk, SlotsOk;
    assert w.core.ids[j] in w.core.ringing.Keys && w.core.ids[j] !in w.core.calls.Keys;
    assert w.core.ringing[w.core.ids[j]].info == InfoOf(w.core.ids[j], Ringing);
  }
}
