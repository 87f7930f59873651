/** The queue of call-state events and the per-call gate in front of it (src/events.rs).

    A `CallEvents` object is shared by reference between everything that can report a call. Here
    each one is a number, its `source`, and the flags of all of them form the set `ended`. */
module Events {
  import opened Types

  datatype Queued = Queued(source: nat, info: CallInfo)

  datatype EventLog = EventLog(ended: set<nat>, queue: seq<Queued>)

  /** What is queued for `info`: only an `Ended` event carries a reason. */
  function Reported(info: CallInfo): CallInfo {
    if info.state.Ended? then info else info.(endReason := None)
  }

  function AsEnded(info: CallInfo, reason: EndReason): CallInfo {
    info.(state := Ended, endReason := Some(reason))
  }

  /** One pass through the gate: the check, the flag and the queueing, under one lock. */
  function Emit(log: EventLog, source: nat, info: CallInfo): EventLog {
    if source in log.ended then log
    else EventLog(
           if info.state.Ended? then log.ended + {source} else log.ended,
           log.queue + [Queued(source, Reported(info))])
  }

  /** Everything queued for one call, in order. */
  function Reports(queue: seq<Queued>, source: nat): seq<CallInfo> {
    if queue == [] then []
    else
      var earlier := Reports(queue[..|queue| - 1], source);
      var last := queue[|queue| - 1];
      if last.source == source then earlier + [last.info] else earlier
  }

  /** The last thing queued for one call. */
  function Last(queue: seq<Queued>, source: nat): Option<CallInfo> {
    if queue == [] then None
    else
      var last := queue[|queue| - 1];
      if last.source == source then Some(last.info) else Last(queue[..|queue| - 1], source)
  }

  // ----- The grammar of one call's events -----

  /** May `next` follow when `last` is the latest event of the call? */
  predicate Follows(last: Option<CallInfo>, next: CallInfo) {
    && (next.endReason.Some? <==> next.state.Ended?)
    && match last
       case None =>
         next.state.Ended? || next.state == (if next.direction.Outbound? then Ringing else Connected)
       case Some(l) =>
         && next.callId == l.callId
         && next.direction == l.direction
         && match l.state
            case Ringing => next.state.Connected? || next.state.Ended?
            case Connected => !next.state.Ringing?
            case OnHold => !next.state.Ringing?
            case Ended => false
  }

  predicate Story(r: seq<CallInfo>) {
    r == [] ||
    (Story(r[..|r| - 1]) &&
     Follows(if |r| == 1 then None else Some(r[|r| - 2]), r[|r| - 1]))
  }

  /** The same language written out: an optional `Ringing` (outgoing calls only), then an
      optional stretch of `Connected` and `OnHold` that starts with `Connected`, then an optional
      `Ended`, which is the only event with a reason. */
  predicate Grammar(r: seq<CallInfo>) {
    && (forall i :: 0 <= i < |r| ==> r[i].callId == r[0].callId && r[i].direction == r[0].direction)
    && (forall i :: 0 <= i < |r| ==> (r[i].endReason.Some? <==> r[i].state.Ended?))
    && (forall i :: 0 <= i < |r| && r[i].state.Ended? ==> i == |r| - 1)
    && (forall i :: 0 <= i < |r| && r[i].state.Ringing? ==> i == 0 && r[i].direction.Outbound?)
    && (|r| > 0 && !r[0].state.Ended? ==>
          r[0].state == if r[0].direction.Outbound? then Ringing else Connected)
    && (|r| > 1 && r[1].state.OnHold? ==> !r[0].state.Ringing?)
  }

  lemma {:induction false} StoryIsGrammar(r: seq<CallInfo>)
    ensures Story(r) <==> Grammar(r)
  {
    if r != [] {
      var p := r[..|r| - 1];
      StoryIsGrammar(p);
      if Grammar(r) {
        forall i | 0 <= i < |p| ensures p[i] == r[i] {}
        assert Grammar(p);
        if |r| > 1 { assert r[|r| - 2].callId == r[0].callId; }
      }
      if Story(r) {
        assert Grammar(p);
        assert forall i :: 0 <= i < |p| ==> p[i] == r[i];
        if |r| > 1 { assert p[|p| - 1].callId == p[0].callId && p[0] == r[0]; }
        if |r| > 2 { assert r[1] == p[1]; }
      }
    }
  }

  lemma {:induction false} LastOfReports(queue: seq<Queued>, source: nat)
    ensures var r := Reports(queue, source);
            Last(queue, source) == if r == [] then None else Some(r[|r| - 1])
  {
    if queue != [] { LastOfReports(queue[..|queue| - 1], source); }
  }

  // ----- The log's invariant -----

  /** Every call's events are a story so far. */
  ghost predicate StoriesOk(queue: seq<Queued>) {
    forall k: nat {:trigger Reports(queue, k)} :: Story(Reports(queue, k))
  }

  /** A flag is set exactly when the story of its call is over. */
  ghost predicate FlagsOk(log: EventLog) {
    forall k: nat {:trigger Last(log.queue, k)} {:trigger k in log.ended} ::
      k in log.ended <==> Last(log.queue, k).Some? && Last(log.queue, k).value.state.Ended?
  }

  ghost predicate LogOk(log: EventLog) {
    StoriesOk(log.queue) && FlagsOk(log)
  }

  lemma QueueOne(queue: seq<Queued>, e: Queued, k: nat)
    ensures Last(queue + [e], k) == if e.source == k then Some(e.info) else Last(queue, k)
    ensures Reports(queue + [e], k) ==
            if e.source == k then Reports(queue, k) + [e.info] else Reports(queue, k)
  {
    assert (queue + [e])[..|queue|] == queue;
  }

  /** Only call `source` may have been reported between the two logs. */
  ghost predicate SameBut(log: EventLog, log': EventLog, source: nat) {
    forall k: nat {:trigger Last(log'.queue, k)} {:trigger k in log'.ended} :: k != source ==>
      Last(log'.queue, k) == Last(log.queue, k) && (k in log'.ended <==> k in log.ended)
  }

  lemma EmitKeepsLog(log: EventLog, source: nat, info: CallInfo)
    requires LogOk(log)
    requires source in log.ended || Follows(Last(log.queue, source), Reported(info))
    ensures LogOk(Emit(log, source, info))
    ensures SameBut(log, Emit(log, source, info), source)
    ensures source !in log.ended ==>
              Last(Emit(log, source, info).queue, source) == Some(Reported(info))
  {
    var log' := Emit(log, source, info);
    if source !in log.ended {
      var e := Queued(source, Reported(info));
      forall k: nat
        ensures Last(log'.queue, k) == if k == source then Some(e.info) else Last(log.queue, k)
        ensures Story(Reports(log'.queue, k))
      {
        QueueOne(log.queue, e, k);
        if k == source {
          var r := Reports(log.queue, k);
          LastOfReports(log.queue, k);
          assert (r + [e.info])[..|r|] == r;
        }
      }
    }
  }

  // ----- The gate on its own -----

  /** Any threads reporting anything: the log after all of `attempts` went through the gate. */
  function EmitAll(attempts: seq<Queued>): EventLog {
    if attempts == [] then EventLog({}, [])
    else
      var last := attempts[|attempts| - 1];
      Emit(EmitAll(attempts[..|attempts| - 1]), last.source, last.info)
  }

  predicate OneEndAtMost(r: seq<CallInfo>) {
    forall i :: 0 <= i < |r| && r[i].state.Ended? ==> i == |r| - 1
  }

  /** The first `Ended` anyone reports gets through, and from then on the call is closed. */
  lemma {:induction false} FirstEndedGetsThrough(attempts: seq<Queued>, k: nat)
    ensures k in EmitAll(attempts).ended <==>
            exists i :: 0 <= i < |attempts| && attempts[i].source == k && attempts[i].info.state.Ended?
    ensures k in EmitAll(attempts).ended <==>
            Last(EmitAll(attempts).queue, k).Some? && Last(EmitAll(attempts).queue, k).value.state.Ended?
  {
    if attempts != [] {
      var n := |attempts| - 1;
      var before, a := attempts[..n], attempts[n];
      FirstEndedGetsThrough(before, k);
      QueueOne(EmitAll(before).queue, Queued(a.source, Reported(a.info)), k);
      assert forall i :: 0 <= i < n ==> before[i] == attempts[i];
    }
  }

  /** Whatever is reported by whomever, in whatever order, nothing follows a call's `Ended`. */
  lemma {:induction false} NothingFollowsEnded(attempts: seq<Queued>, k: nat)
    ensures OneEndAtMost(Reports(EmitAll(attempts).queue, k))
  {
    if attempts != [] {
      var n := |attempts| - 1;
      var before, a := attempts[..n], attempts[n];
      NothingFollowsEnded(before, k);
      FirstEndedGetsThrough(before, k);
      LastOfReports(EmitAll(before).queue, k);
      QueueOne(EmitAll(before).queue, Queued(a.source, Reported(a.info)), k);
    }
  }
}
