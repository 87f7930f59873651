/** Heartbeats after network changes: bursts of notifications are coalesced, and none is lost. */
module Heartbeats {

  import opened Types

  /** A heartbeat task is running; one more heartbeat is asked for. */
  datatype Flags = Flags(running: bool, requested: bool)

  /** `waiting` tasks are about to look at the flags, `sending` ones are busy with a round. */
  datatype State = State(flags: Flags, waiting: nat, sending: nat)

  const IDLE: State := State(Flags(false, false), 0, 0)

  /** A notification: the flags after it, and whether it starts a task. */
  function Requested(f: Flags): (Flags, bool) {
    (Flags(true, true), !f.running)
  }

  /** A task looks at the flags: the flags after it, and whether it sends a heartbeat or ends. */
  function Taken(f: Flags): (Flags, bool) {
    (if f.requested then f.(requested := false) else f.(running := false), f.requested)
  }

  /** The flags as an object, with the two sections that are run under its lock. */
  class HeartbeatState {
    var flags: Flags

    constructor ()
      ensures flags == IDLE.flags
    {
      flags := Flags(false, false);
    }

    /** `notify_network_change` */
    method Request() returns (spawn: bool)
      modifies this
      ensures (flags, spawn) == Requested(old(flags))
    {
      flags := flags.(requested := true);
      if flags.running { return false; }
      flags := flags.(running := true);
      return true;
    }

    /** The top of the task's loop. */
    method TakeRequest() returns (send: bool)
      modifies this
      ensures (flags, send) == Taken(old(flags))
    {
      if !flags.requested {
        flags := flags.(running := false);
        return false;
      }
      flags := flags.(requested := false);
      return true;
    }
  }

  datatype Step =
    | Notify
    | Look      // a task takes the request, or ends
    | Finish    // a task's round ends, or there is no device to send for

  predicate Can(s: State, step: Step) {
    match step
    case Notify => true
    case Look => s.waiting > 0
    case Finish => s.sending > 0
  }

  function Do(s: State, step: Step): State
    requires Can(s, step)
  {
    match step
    case Notify =>
      var (flags, spawn) := Requested(s.flags);
      State(flags, if spawn then s.waiting + 1 else s.waiting, s.sending)
    case Look =>
      var (flags, send) := Taken(s.flags);
      State(flags, s.waiting - 1, if send then s.sending + 1 else s.sending)
    case Finish => s.(sending := s.sending - 1, waiting := s.waiting + 1)
  }

  function Run(steps: seq<Step>): Option<State> {
    if steps == [] then Some(IDLE)
    else
      match Run(steps[..|steps| - 1])
      case None => None
      case Some(s) => if Can(s, steps[|steps| - 1]) then Some(Do(s, steps[|steps| - 1])) else None
  }

  /** Step `i` starts a round. */
  predicate Rounds(steps: seq<Step>, i: nat)
    requires i < |steps|
  {
    steps[i].Look? && Run(steps[..i]).Some? && Run(steps[..i]).value.flags.requested
  }

  function RoundsStarted(steps: seq<Step>): nat {
    if steps == [] then 0
    else RoundsStarted(steps[..|steps| - 1]) + if Rounds(steps, |steps| - 1) then 1 else 0
  }

  function Notifications(steps: seq<Step>): nat {
    if steps == [] then 0
    else Notifications(steps[..|steps| - 1]) + if steps[|steps| - 1].Notify? then 1 else 0
  }

  /** A round is started after every notification, unless one is still asked for. */
  predicate Covered(steps: seq<Step>) {
    forall i :: 0 <= i < |steps| && steps[i].Notify? ==> exists j :: i < j < |steps| && Rounds(steps, j)
  }

  /** However notifications and tasks interleave: at most one task runs, a heartbeat that is asked for has
      a running task to send it, there are no more rounds than notifications, and once nothing runs
      a round has started after the last notification. */
  lemma {:induction false} NoneIsLost(steps: seq<Step>)
    requires Run(steps).Some?
    ensures var s := Run(steps).value;
            && s.waiting + s.sending == (if s.flags.running then 1 else 0)
            && (s.flags.requested ==> s.flags.running)
            && RoundsStarted(steps) + (if s.flags.requested then 1 else 0) <= Notifications(steps)
            && (s.flags.requested || Covered(steps))
  {
    if steps != [] {
      var n := |steps| - 1;
      NoneIsLost(steps[..n]);
      if !Run(steps).value.flags.requested { CoveredNext(steps); }
    }
  }

  /** A step that is no notification, and starts a round or follows steps that were covered. */
  lemma CoveredNext(steps: seq<Step>)
    requires steps != [] && !steps[|steps| - 1].Notify?
    requires Rounds(steps, |steps| - 1) || Covered(steps[..|steps| - 1])
    ensures Covered(steps)
  {
    hide Run;
    var n := |steps| - 1;
    forall i | 0 <= i < |steps| && steps[i].Notify? ensures exists j :: i < j < |steps| && Rounds(steps, j) {
      if !Rounds(steps, n) {
        assert steps[..n][i] == steps[i];
        var j :| i < j < n && Rounds(steps[..n], j);
        assert steps[..n][j] == steps[j] && steps[..n][..j] == steps[..j];
        assert Rounds(steps, j);
      }
    }
  }
}
