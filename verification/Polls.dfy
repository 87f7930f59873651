/** When status answers mean that a call is gone, and what the poll of a connected call does then. */
module Polls {
  import opened Types
  import opened Events
  import opened Calls
  import opened CallsInvariant
  import opened Engines

  const UNKNOWN_STATUSES_BEFORE_ENDED: nat := 3
  const REMOTE_ENDED_BACKLOG: nat := 16

  // ----- GoneDetector -----

  function NextStreak(streak: nat, status: string): nat {
    if status == "ended" then streak
    else if status == "unknown" then streak + 1
    else 0
  }

  predicate GoneNow(streak: nat, status: string) {
    status == "ended" || (status == "unknown" && streak + 1 >= UNKNOWN_STATUSES_BEFORE_ENDED)
  }

  class GoneDetector {
    var unknownStreak: nat

    constructor ()
      ensures unknownStreak == 0
    {
      unknownStreak := 0;
    }

    method IsGone(status: string) returns (gone: bool)
      modifies this
      ensures unknownStreak == NextStreak(old(unknownStreak), status) && gone == GoneNow(old(unknownStreak), status)
    {
      if status == "ended" { return true; }
      if status == "unknown" {
        unknownStreak := unknownStreak + 1;
        return unknownStreak >= UNKNOWN_STATUSES_BEFORE_ENDED;
      }
      unknownStreak := 0;
      return false;
    }
  }

  // ----- The poll's verdict -----

  /** A status answer, or a request that failed, be it with a 401. */
  datatype Reply = Status(status: string) | Failed(auth: bool)

  function Answered(replies: seq<Reply>): seq<string> {
    if replies == [] then []
    else
      var last := replies[|replies| - 1];
      Answered(replies[..|replies| - 1]) + if last.Status? then [last.status] else []
  }

  /** The latest answer, with the answers before it, says that the call is gone: it is `ended`, or the
      third `unknown` in a row. Requests that failed do not count. */
  predicate Verdict(replies: seq<Reply>) {
    && replies != [] && replies[|replies| - 1].Status?
    && var answers := Answered(replies);
       || answers[|answers| - 1] == "ended"
       || (|answers| >= 3 && answers[|answers| - 1] == "unknown" && answers[|answers| - 2] == "unknown"
           && answers[|answers| - 3] == "unknown")
  }

  /** Nothing among the first `upTo` requests calls for the verdict. */
  predicate NoVerdict(replies: seq<Reply>, upTo: nat)
    requires upTo <= |replies|
  {
    forall n :: 0 <= n <= upTo ==> !Verdict(replies[..n])
  }

  /** How many of the latest answers in a row are `unknown`. */
  function TrailingUnknown(answers: seq<string>): nat {
    if answers == [] || answers[|answers| - 1] != "unknown" then 0 else TrailingUnknown(answers[..|answers| - 1]) + 1
  }

  lemma ThreeInARow(answers: seq<string>)
    ensures TrailingUnknown(answers) >= 3 <==>
              |answers| >= 3 && answers[|answers| - 1] == "unknown" && answers[|answers| - 2] == "unknown"
              && answers[|answers| - 3] == "unknown"
  {
    if answers != [] && answers[|answers| - 1] == "unknown" {
      var b := answers[..|answers| - 1];
      assert TrailingUnknown(answers) == TrailingUnknown(b) + 1;
      if b != [] && b[|b| - 1] == "unknown" {
        var c := b[..|b| - 1];
        assert TrailingUnknown(b) == TrailingUnknown(c) + 1;
        assert c != [] ==> c[|c| - 1] == answers[|answers| - 3];
      }
    }
  }

  /** One more answer: the detector, which only counts, says what the verdict says. */
  lemma CountingIsEnough(before: seq<Reply>, status: string)
    ensures var streak := TrailingUnknown(Answered(before));
            var seen := before + [Status(status)];
            && (Verdict(seen) <==> GoneNow(streak, status))
            && (status != "ended" ==> TrailingUnknown(Answered(seen)) == NextStreak(streak, status))
  {
    var seen := before + [Status(status)];
    assert seen[..|before|] == before;
    var answers := Answered(seen);
    assert answers == Answered(before) + [status];
    assert answers[..|answers| - 1] == Answered(before);
    ThreeInARow(answers);
  }

  /** The poll, given the outcome of each of its requests: after which one, if any, it says that the
      call is gone. It is the first one that calls for that verdict. */
  method PollVerdict(replies: seq<Reply>) returns (at: Option<nat>)
    ensures at.Some? ==> at.value < |replies| && Verdict(replies[..at.value + 1])
    ensures NoVerdict(replies, if at.Some? then at.value else |replies|)
  {
    hide Verdict, GoneNow, TrailingUnknown, NextStreak, Answered;
    var gone := new GoneDetector();
    NoneYet(replies);
    for i := 0 to |replies|
      invariant gone.unknownStreak == TrailingUnknown(Answered(replies[..i]))
      invariant NoVerdict(replies, i)
    {
      assert replies[..i + 1] == replies[..i] + [replies[i]];
      match replies[i]
      case Status(status) =>
        CountingIsEnough(replies[..i], status);
        Ended(gone.unknownStreak, status);
        var over := gone.IsGone(status);
        if over { return Some(i); }
      case Failed(_) => NotAnswered(replies[..i], replies[i]);
    }
    return None;
  }

  lemma NoneYet(replies: seq<Reply>)
    ensures NoVerdict(replies, 0) && TrailingUnknown(Answered(replies[..0])) == 0
  {
  }

  lemma Ended(streak: nat, status: string)
    ensures status == "ended" ==> GoneNow(streak, status)
  {
  }

  /** A request that failed changes nothing. */
  lemma NotAnswered(before: seq<Reply>, reply: Reply)
    requires reply.Failed?
    ensures !Verdict(before + [reply]) && Answered(before + [reply]) == Answered(before)
  {
    assert (before + [reply])[..|before|] == before;
  }

  // ----- Calls that a poll ended -----

  function LastOf(ids: seq<string>, n: nat): seq<string> {
    if |ids| > n then ids[|ids| - n..] else ids
  }

  /** The ids `check_remote_hangup` has still to return. */
  class RemoteEnded {
    var ended: seq<string>

    constructor ()
      ensures ended == []
    {
      ended := [];
    }

    method Push(id: string)
      modifies this
      ensures ended == LastOf(old(ended) + [id], REMOTE_ENDED_BACKLOG)
    {
      ended := ended + [id];
      if |ended| > REMOTE_ENDED_BACKLOG {
        var excess := |ended| - REMOTE_ENDED_BACKLOG;
        ended := ended[excess..];
      }
    }

    method Pop() returns (id: Option<string>)
      modifies this
      ensures if old(ended) == [] then id.None? && ended == []
              else id.Some? && old(ended) == ended + [id.value]
    {
      if ended == [] { return None; }
      id := Some(ended[|ended| - 1]);
      ended := ended[..|ended| - 1];
    }
  }

  /** The poll's verdict on call `id`: the call ends here, unless someone else has taken it already, and
      only then does its id become one that `check_remote_hangup` returns. */
  method RemoteHangup(e: Engine, backlog: RemoteEnded, id: string, reason: EndReason) returns (removed: bool)
    requires e.Valid()
    modifies e, backlog
    ensures removed == (id in old(e.calls)) && id !in e.calls
    ensures e.calls == old(e.calls) - {id}
    ensures removed ==> e.log == Emit(old(e.log), old(e.calls)[id].source, AsEnded(old(e.calls)[id].info, reason))
    ensures removed && old(e.calls)[id].source !in old(e.log).ended ==>
              var last := Last(e.log.queue, old(e.calls)[id].source);
              last.Some? && last.value.state.Ended? && last.value.endReason == Some(reason)
    ensures !removed ==> e.log == old(e.log)
    ensures backlog.ended == if removed then LastOf(old(backlog.ended) + [id], REMOTE_ENDED_BACKLOG)
            else old(backlog.ended)
  {
    hide Inv;
    var call := e.TakeCall(id);
    if call.None? {
      assert e.calls == e.calls - {id};
      return false;
    }
    if call.value.source !in e.log.ended { LastIsReason(e.log, call.value.source, call.value.info, reason); }
    var _ := e.EmitEnded(call.value.source, call.value.info, reason);
    backlog.Push(id);
    return true;
  }

  lemma LastIsReason(log: EventLog, source: nat, info: CallInfo, reason: EndReason)
    requires source !in log.ended
    ensures var last := Last(Emit(log, source, AsEnded(info, reason)).queue, source);
            last.Some? && last.value.state.Ended? && last.value.endReason == Some(reason)
  {
    QueueOne(log.queue, Queued(source, Reported(AsEnded(info, reason))), source);
  }

  datatype BacklogStep = Pushed(id: string) | Popped

  function Backlog(steps: seq<BacklogStep>): seq<string> {
    if steps == [] then []
    else
      var before := Backlog(steps[..|steps| - 1]);
      match steps[|steps| - 1]
      case Pushed(id) => LastOf(before + [id], REMOTE_ENDED_BACKLOG)
      case Popped => if before == [] then [] else before[..|before| - 1]
  }

  predicate NoRepeats(steps: seq<BacklogStep>) {
    forall i, j :: 0 <= i < j < |steps| && steps[i].Pushed? && steps[j].Pushed? ==> steps[i].id != steps[j].id
  }

  /** However polls push and the app pops, the backlog stays bounded, holds only ids that were pushed,
      and, as long as no id is pushed twice, holds each at most once. */
  lemma {:induction false} BacklogIsBounded(steps: seq<BacklogStep>)
    ensures |Backlog(steps)| <= REMOTE_ENDED_BACKLOG
    ensures forall x :: x in Backlog(steps) ==> exists i :: 0 <= i < |steps| && steps[i] == Pushed(x)
    ensures NoRepeats(steps) ==> forall i, j :: 0 <= i < j < |Backlog(steps)| ==> Backlog(steps)[i] != Backlog(steps)[j]
  {
    if steps != [] {
      var n := |steps| - 1;
      BacklogIsBounded(steps[..n]);
      var before := Backlog(steps[..n]);
      forall x | x in before ensures exists i :: 0 <= i < n && steps[i] == Pushed(x) {
        var i :| 0 <= i < n && steps[..n][i] == Pushed(x);
        assert steps[i] == Pushed(x);
      }
      if steps[n].Pushed? && NoRepeats(steps) { assert steps[n].id !in before; }
      assert steps[n].Pushed? ==> steps[n] == Pushed(steps[n].id);
    }
  }

  /** The latest call is the next one that the app is told of, and of those before it the newest are kept. */
  lemma NewestAreKept(steps: seq<BacklogStep>, id: string)
    ensures var before, after := Backlog(steps), Backlog(steps + [Pushed(id)]);
            && after != [] && after[|after| - 1] == id
            && after[..|after| - 1] == if |before| < REMOTE_ENDED_BACKLOG then before else before[1..]
  {
    BacklogIsBounded(steps);
    assert (steps + [Pushed(id)])[..|steps|] == steps;
  }
}
