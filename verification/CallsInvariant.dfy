/** What every section keeps, whoever runs it and in whatever order. */
module CallsInvariant {
  import opened Types
  import opened Events
  import opened Calls

  predicate Steady(call: Active) {
    && call.info.state == (if call.info.onHold then OnHold else Connected)
    && call.mediaHeld == call.info.onHold
    && call.info.endReason.None?
  }

  /** `info` is about call number `source`. */
  predicate Proper(ids: seq<string>, source: nat, info: CallInfo) {
    && source < |ids|
    && info.callId == ids[source]
    && info.direction == DirectionOf(info.callId)
  }

  ghost predicate CallsOk(calls: map<string, Active>, ids: seq<string>, nextSeq: nat, left: map<nat, nat>) {
    forall id :: id in calls ==>
      var call := calls[id];
      && Proper(ids, call.source, call.info) && call.info.callId == id
      && Steady(call)
      && call.seqNo < nextSeq
      && call.source !in left
  }

  ghost predicate RingingOk(ringing: map<string, Pending>, ids: seq<string>, nextSeq: nat, left: map<nat, nat>,
                            log: EventLog)
  {
    forall id :: id in ringing ==>
      var p := ringing[id];
      && Proper(ids, p.source, p.info)
      && p.info == InfoOf(id, Ringing) && p.info.direction.Outbound?
      && p.seqNo < nextSeq
      && p.source !in left
      && p.source !in log.ended
      && Last(log.queue, p.source) == Some(p.info)
  }

  ghost predicate OfferedOk(pending: map<string, Offered>, calls: map<string, Active>, ids: seq<string>,
                            left: map<nat, nat>, log: EventLog)
  {
    forall t :: t in pending ==>
      var e := pending[t];
      && Proper(ids, e.source, e.info)
      && e.info.callId == IncomingId(t)
      && e.source !in left
      && !InCalls(calls, ids, e.source)
      && (e.source in log.ended || Last(log.queue, e.source).None?)
  }

  /** No id is both ringing and connected, and creation order is a strict order on live calls. */
  ghost predicate OrderOk(calls: map<string, Active>, ringing: map<string, Pending>) {
    && calls.Keys !! ringing.Keys
    && (forall i, j :: i in calls && j in calls && i != j ==> calls[i].seqNo != calls[j].seqNo)
    && (forall i, j :: i in ringing && j in ringing && i != j ==> ringing[i].seqNo != ringing[j].seqNo)
    && (forall i, j :: i in calls && j in ringing ==> calls[i].seqNo != ringing[j].seqNo)
  }

  ghost predicate AtMostOneOffHold(calls: map<string, Active>) {
    forall i, j :: i in OffHold(calls) && j in OffHold(calls) ==> i == j
  }

  /** A connected call that has not been reported ended was last reported exactly as it is. */
  ghost predicate Agrees(calls: map<string, Active>, log: EventLog) {
    forall id :: id in calls ==>
      calls[id].source in log.ended || Last(log.queue, calls[id].source) == Some(calls[id].info)
  }

  predicate InCalls(calls: map<string, Active>, ids: seq<string>, source: nat) {
    && source < |ids|
    && ids[source] in calls
    && calls[ids[source]].source == source
  }

  predicate Up(info: CallInfo) {
    info.state.Connected? || info.state.OnHold?
  }

  /** Whatever was reported is about a known call, and a call last reported up is in the map or
      was taken out of it. */
  ghost predicate Told(queue: seq<Queued>, calls: map<string, Active>, ids: seq<string>, left: map<nat, nat>) {
    forall k: nat {:trigger Last(queue, k)} :: Last(queue, k).Some? ==>
      && Proper(ids, k, Last(queue, k).value)
      && (Up(Last(queue, k).value) ==> k in left || InCalls(calls, ids, k))
  }

  ghost predicate HistoryOk(left: map<nat, nat>, cells: map<nat, Route>, ids: seq<string>, queue: seq<Queued>) {
    && (forall k :: k in left ==> k < |ids| && left[k] <= |queue|)
    && (forall k :: k in cells ==> k < |ids|)
  }

  // ----- At most one call is ever the reported active one -----

  /** After the first `n` events the app believes call `k` is connected and off hold. */
  ghost predicate Front(queue: seq<Queued>, n: nat, k: nat)
    requires n <= |queue|
  {
    var l := Last(queue[..n], k);
    l.Some? && l.value.state.Connected?
  }

  /** The call had not been taken out of the map before event `n` was queued. */
  predicate Standing(left: map<nat, nat>, n: nat, k: nat) {
    k !in left || left[k] >= n
  }

  ghost predicate OneFront(queue: seq<Queued>, left: map<nat, nat>) {
    forall n: nat, j: nat, k: nat {:trigger Front(queue, n, j), Front(queue, n, k)} ::
      (&& n <= |queue|
       && Front(queue, n, j) && Front(queue, n, k)
       && Standing(left, n, j) && Standing(left, n, k)) ==> j == k
  }

  // ----- Outgoing ids -----

  /** `used` is the last 256 ids used up; every outgoing `CallEvents` used up its id; and an id is
      used up again only when more than 256 others have been in between. */
  ghost predicate UsedOk(used: seq<(string, bool)>, marks: seq<nat>, ids: seq<string>) {
    && |used| == (if |marks| < USED_OUTGOING_IDS then |marks| else USED_OUTGOING_IDS)
    && (forall i :: 0 <= i < |marks| ==> marks[i] < |ids| && DirectionOf(ids[marks[i]]).Outbound?)
    && (forall i {:trigger used[i]} :: 0 <= i < |used| ==> used[i].0 == ids[marks[|marks| - |used| + i]])
    && (forall i, j :: 0 <= i < j < |marks| && ids[marks[i]] == ids[marks[j]] ==> j - i > USED_OUTGOING_IDS)
    && (forall k :: 0 <= k < |ids| && DirectionOf(ids[k]).Outbound? ==> k in marks)
  }

  ghost predicate Inv(c: Core) {
    && LogOk(c.log)
    && CallsOk(c.calls, c.ids, c.nextSeq, c.left)
    && RingingOk(c.ringing, c.ids, c.nextSeq, c.left, c.log)
    && OfferedOk(c.pending, c.calls, c.ids, c.left, c.log)
    && OrderOk(c.calls, c.ringing)
    && AtMostOneOffHold(c.calls)
    && Agrees(c.calls, c.log)
    && Told(c.log.queue, c.calls, c.ids, c.left)
    && HistoryOk(c.left, c.cells, c.ids, c.log.queue)
    && OneFront(c.log.queue, c.left)
    && UsedOk(c.used, c.marks, c.ids)
  }

  lemma InitialInv()
    ensures Inv(INITIAL)
  {
    forall k: nat ensures Reports(INITIAL.log.queue, k) == [] && Last(INITIAL.log.queue, k).None? {}
  }

  // ----- The queue grows by one event -----

  lemma FrontIsOffHold(c: Core, k: nat)
    requires FlagsOk(c.log) && CallsOk(c.calls, c.ids, c.nextSeq, c.left) && Agrees(c.calls, c.log)
    requires Told(c.log.queue, c.calls, c.ids, c.left)
    requires k !in c.left
    requires Last(c.log.queue, k).Some? && Last(c.log.queue, k).value.state.Connected?
    ensures InCalls(c.calls, c.ids, k) && c.ids[k] in OffHold(c.calls)
  {
    assert InCalls(c.calls, c.ids, k);
    assert Last(c.log.queue, k) == Some(c.calls[c.ids[k]].info);
  }

  /** At the newest event, "last reported connected" is "in the map and off hold". */
  lemma OneFrontExtends(queue: seq<Queued>, e: Queued, c': Core)
    requires OneFront(queue, c'.left) && HistoryOk(c'.left, c'.cells, c'.ids, queue)
    requires c'.log.queue == queue + [e]
    requires FlagsOk(c'.log) && CallsOk(c'.calls, c'.ids, c'.nextSeq, c'.left) && Agrees(c'.calls, c'.log)
    requires Told(c'.log.queue, c'.calls, c'.ids, c'.left)
    requires AtMostOneOffHold(c'.calls)
    ensures OneFront(c'.log.queue, c'.left)
  {
    var q' := c'.log.queue;
    forall n: nat, j: nat, k: nat {:trigger Front(q', n, j), Front(q', n, k)} |
      && n <= |q'| && Front(q', n, j) && Front(q', n, k)
      && Standing(c'.left, n, j) && Standing(c'.left, n, k)
      ensures j == k
    {
      if n <= |queue| {
        assert q'[..n] == queue[..n];
        assert Front(queue, n, j) && Front(queue, n, k);
      } else {
        assert q'[..n] == q';
        FrontIsOffHold(c', j);
        FrontIsOffHold(c', k);
      }
    }
  }

  // ----- What each part of the invariant needs when call `source` is reported -----

  lemma RingingFrame(ringing: map<string, Pending>, ids: seq<string>, nextSeq: nat, left: map<nat, nat>,
                     log: EventLog, log': EventLog, source: nat)
    requires RingingOk(ringing, ids, nextSeq, left, log) && SameBut(log, log', source)
    requires forall id :: id in ringing ==> ringing[id].source != source
    ensures RingingOk(ringing, ids, nextSeq, left, log')
  {
  }

  /** An offered call and a ringing one never share a `CallEvents`. */
  lemma OfferedNotRinging(c: Core, source: nat)
    requires RingingOk(c.ringing, c.ids, c.nextSeq, c.left, c.log)
    requires source < |c.ids| && DirectionOf(c.ids[source]).Inbound?
    ensures forall i :: i in c.ringing ==> c.ringing[i].source != source
  {
  }

  lemma OfferedFrame(pending: map<string, Offered>, calls: map<string, Active>, ids: seq<string>, left: map<nat, nat>,
                     log: EventLog, log': EventLog, source: nat)
    requires OfferedOk(pending, calls, ids, left, log) && SameBut(log, log', source)
    requires source in log'.ended || forall t :: t in pending ==> pending[t].source != source
    ensures OfferedOk(pending, calls, ids, left, log')
  {
  }

  lemma ToldFrame(queue: seq<Queued>, calls: map<string, Active>, queue': seq<Queued>, calls': map<string, Active>,
                  ids: seq<string>, left: map<nat, nat>, source: nat)
    requires Told(queue, calls, ids, left)
    requires forall k: nat :: k != source ==> Last(queue', k) == Last(queue, k)
    requires forall k: nat :: InCalls(calls, ids, k) ==> InCalls(calls', ids, k)
    requires Last(queue', source).Some? ==> Proper(ids, source, Last(queue', source).value)
    requires Last(queue', source).Some? && Up(Last(queue', source).value) ==> InCalls(calls', ids, source)
    ensures Told(queue', calls', ids, left)
  {
  }

  // ----- ... and when one entry of the call map changes -----

  lemma CallsUpdate(calls: map<string, Active>, ids: seq<string>, nextSeq: nat, left: map<nat, nat>, id: string,
                    call: Active)
    requires CallsOk(calls, ids, nextSeq, left)
    requires Steady(call) && Proper(ids, call.source, call.info) && call.info.callId == id
    requires call.seqNo < nextSeq && call.source !in left
    ensures CallsOk(calls[id := call], ids, nextSeq, left)
  {
  }

  lemma CallsRemove(calls: map<string, Active>, ids: seq<string>, nextSeq: nat, left: map<nat, nat>, id: string, n: nat)
    requires CallsOk(calls, ids, nextSeq, left) && id in calls
    ensures CallsOk(calls - {id}, ids, nextSeq, left[calls[id].source := n])
  {
    assert forall i :: i in calls ==> ids[calls[i].source] == i;
  }

  lemma OrderUpdate(calls: map<string, Active>, ringing: map<string, Pending>, id: string, call: Active)
    requires OrderOk(calls, ringing) && id !in ringing
    requires forall i :: i in calls && i != id ==> calls[i].seqNo != call.seqNo
    requires forall i :: i in ringing ==> ringing[i].seqNo != call.seqNo
    ensures OrderOk(calls[id := call], ringing)
  {
  }

  lemma OfferedCalls(pending: map<string, Offered>, calls: map<string, Active>, calls': map<string, Active>,
                     ids: seq<string>, left: map<nat, nat>, left': map<nat, nat>, log: EventLog)
    requires OfferedOk(pending, calls, ids, left, log)
    requires forall t :: t in pending ==> pending[t].source in left' ==> pending[t].source in left
    requires forall t :: t in pending ==> InCalls(calls', ids, pending[t].source) ==>
             InCalls(calls, ids, pending[t].source)
    ensures OfferedOk(pending, calls', ids, left', log)
  {
  }

  /** Each connected call has its own `CallEvents`, shared with no ringing call. */
  lemma OwnSource(calls: map<string, Active>, ringing: map<string, Pending>, ids: seq<string>, nextSeq: nat,
                  left: map<nat, nat>, log: EventLog)
    requires CallsOk(calls, ids, nextSeq, left) && RingingOk(ringing, ids, nextSeq, left, log)
    requires calls.Keys !! ringing.Keys
    ensures forall i :: i in calls ==> ids[calls[i].source] == i && InCalls(calls, ids, calls[i].source)
    ensures forall i :: i in ringing ==> ids[ringing[i].source] == i
    ensures forall i, j :: i in calls && j in calls && calls[i].source == calls[j].source ==> i == j
    ensures forall i, j :: i in calls && j in ringing ==> calls[i].source != ringing[j].source
  {
  }

  lemma AgreesUpdate(calls: map<string, Active>, log: EventLog, log': EventLog, id: string, call: Active)
    requires Agrees(calls, log) && SameBut(log, log', call.source)
    requires forall i :: i in calls && i != id ==> calls[i].source != call.source
    requires call.source in log'.ended || Last(log'.queue, call.source) == Some(call.info)
    ensures Agrees(calls[id := call], log')
  {
  }

  // ----- Small steps that sections are made of -----

  /** A call is reported ended. */
  lemma EndKeeps(c: Core, source: nat, info: CallInfo)
    requires Inv(c)
    requires info.state.Ended? && info.endReason.Some? && Proper(c.ids, source, info)
    requires forall id :: id in c.ringing ==> c.ringing[id].source != source
    ensures Inv(Say(c, source, info))
    ensures source in Say(c, source, info).log.ended
    ensures SameBut(c.log, Say(c, source, info).log, source)
  {
    var c' := Say(c, source, info);
    if source !in c.log.ended {
      EmitKeepsLog(c.log, source, info);
      RingingFrame(c.ringing, c.ids, c.nextSeq, c.left, c.log, c'.log, source);
      OfferedFrame(c.pending, c.calls, c.ids, c.left, c.log, c'.log, source);
      ToldFrame(c.log.queue, c.calls, c'.log.queue, c'.calls, c.ids, c.left, source);
      OneFrontExtends(c.log.queue, Queued(source, info), c');
    }
  }

  /** A report about a call whose entry is already as reported, and alone off hold if it is. */
  lemma SayKeeps(c: Core, id: string, call: Active)
    requires LogOk(c.log) && call.source !in c.log.ended && Follows(Last(c.log.queue, call.source), call.info)
    requires id !in c.calls || c.calls[id].source == call.source
    requires forall i :: i in c.calls && i != id ==> c.calls[i].source != call.source
    requires forall i :: i in c.ringing ==> c.ringing[i].source != call.source
    requires forall t :: t in c.pending ==> c.pending[t].source != call.source
    requires Up(call.info) && Proper(c.ids, call.source, call.info) && call.info.callId == id
             && call.info.endReason.None?
    requires var calls' := c.calls[id := call];
             && CallsOk(calls', c.ids, c.nextSeq, c.left) && AtMostOneOffHold(calls') && OrderOk(calls', c.ringing)
             && OfferedOk(c.pending, calls', c.ids, c.left, c.log)
    requires RingingOk(c.ringing, c.ids, c.nextSeq, c.left, c.log)
    requires Agrees(c.calls, c.log) && Told(c.log.queue, c.calls, c.ids, c.left)
    requires HistoryOk(c.left, c.cells, c.ids, c.log.queue) && OneFront(c.log.queue, c.left)
    requires UsedOk(c.used, c.marks, c.ids)
    ensures var c' := Say(c.(calls := c.calls[id := call]), call.source, call.info);
            Inv(c') && SameBut(c.log, c'.log, call.source)
  {
    hide UsedOk, OneFront, OrderOk, Story, Reports;
    var calls' := c.calls[id := call];
    var c' := Say(c.(calls := calls'), call.source, call.info);
    EmitKeepsLog(c.log, call.source, call.info);
    RingingFrame(c.ringing, c.ids, c.nextSeq, c.left, c.log, c'.log, call.source);
    OfferedFrame(c.pending, calls', c.ids, c.left, c.log, c'.log, call.source);
    AgreesUpdate(c.calls, c.log, c'.log, id, call);
    assert forall k: nat :: InCalls(c.calls, c.ids, k) ==> InCalls(calls', c.ids, k);
    ToldFrame(c.log.queue, c.calls, c'.log.queue, calls', c.ids, c.left, call.source);
    OneFrontExtends(c.log.queue, Queued(call.source, call.info), c');
  }

  lemma UpdateParts(c: Core, id: string, call: Active)
    requires Inv(c) && id in c.calls
    requires call.source == c.calls[id].source && call.seqNo == c.calls[id].seqNo
    requires Steady(call) && call.info.callId == id && call.info.direction == c.calls[id].info.direction
    ensures var calls' := c.calls[id := call];
            && CallsOk(calls', c.ids, c.nextSeq, c.left) && OrderOk(calls', c.ringing)
            && OfferedOk(c.pending, calls', c.ids, c.left, c.log)
            && (forall k: nat :: InCalls(c.calls, c.ids, k) ==> InCalls(calls', c.ids, k))
    ensures InCalls(c.calls, c.ids, call.source)
    ensures forall i :: i in c.calls && i != id ==> c.calls[i].source != call.source
    ensures forall i :: i in c.ringing ==> c.ringing[i].source != call.source
  {
    OwnSource(c.calls, c.ringing, c.ids, c.nextSeq, c.left, c.log);
    CallsUpdate(c.calls, c.ids, c.nextSeq, c.left, id, call);
    OrderUpdate(c.calls, c.ringing, id, call);
    OfferedCalls(c.pending, c.calls, c.calls[id := call], c.ids, c.left, c.left, c.log);
  }

  /** A connected call changes and is reported as it now is. */
  lemma UpdateKeeps(c: Core, id: string, call: Active)
    requires Inv(c) && id in c.calls
    requires call.source == c.calls[id].source && call.seqNo == c.calls[id].seqNo
    requires Steady(call) && call.info.callId == id && call.info.direction == c.calls[id].info.direction
    requires AtMostOneOffHold(c.calls[id := call])
    ensures Inv(Say(c.(calls := c.calls[id := call]), call.source, call.info))
    ensures SameBut(c.log, Say(c.(calls := c.calls[id := call]), call.source, call.info).log, call.source)
  {
    UpdateParts(c, id, call);
    if call.source in c.log.ended {
      AgreesUpdate(c.calls, c.log, c.log, id, call);
      ToldFrame(c.log.queue, c.calls, c.log.queue, c.calls[id := call], c.ids, c.left, call.source);
    } else {
      SayKeeps(c, id, call);
    }
  }

  /** Holding a held call again changes nothing. */
  lemma HeldAlready(calls: map<string, Active>, except: set<string>)
    requires forall id :: id in calls ==> Steady(calls[id])
    requires OffHold(calls) <= except
    ensures forall id :: id in calls && id !in except ==> Held(calls[id], true) == calls[id]
  {
    forall id | id in calls && id !in except ensures Held(calls[id], true) == calls[id] {
      assert id !in OffHold(calls);
    }
  }

  /** Holding the others is holding the one call that is off hold, if there is one. */
  lemma HoldOthersIsUpdate(c: Core, keep: string, id: string)
    requires forall i :: i in c.calls ==> Steady(c.calls[i])
    requires AtMostOneOffHold(c.calls)
    requires id in OffHold(c.calls) && id != keep
    ensures var call := Held(c.calls[id], true);
            HoldOthers(c, keep) == Say(c.(calls := c.calls[id := call]), call.source, call.info)
    ensures HeldExcept(c.calls, keep) == c.calls[id := Held(c.calls[id], true)]
    ensures OffHold(HeldExcept(c.calls, keep)) == {}
  {
    HeldAlready(c.calls, {id});
    assert OffHold(c.calls) - {keep} == {id};
    assert HeldExcept(c.calls, keep) == c.calls[id := Held(c.calls[id], true)];
  }

  lemma HoldOthersIsNothing(c: Core, keep: string)
    requires forall i :: i in c.calls ==> Steady(c.calls[i])
    requires OffHold(c.calls) <= {keep}
    ensures HoldOthers(c, keep) == c
    ensures HeldExcept(c.calls, keep) == c.calls
  {
    HeldAlready(c.calls, {keep});
    assert HeldExcept(c.calls, keep) == c.calls;
    assert OffHold(c.calls) - {keep} == {};
  }

  ghost predicate OnlyHeld(c: Core, keep: string, c': Core) {
    && c' == c.(calls := c'.calls, log := c'.log)
    && c'.calls == HeldExcept(c.calls, keep)
    && OffHold(c'.calls) == OffHold(c.calls) * {keep}
    && c'.log.ended == c.log.ended
    && forall k: nat {:trigger Last(c'.log.queue, k)} ::
         !InCalls(c.calls, c.ids, k) || k in c.log.ended || c.ids[k] == keep ==>
           Last(c'.log.queue, k) == Last(c.log.queue, k)
  }

  lemma HoldOneKeeps(c: Core, keep: string, id: string)
    requires Inv(c) && id in OffHold(c.calls) && id != keep
    ensures Inv(HoldOthers(c, keep))
    ensures HoldOthers(c, keep).calls == HeldExcept(c.calls, keep)
    ensures SameBut(c.log, HoldOthers(c, keep).log, c.calls[id].source)
  {
    HoldOthersIsUpdate(c, keep, id);
    UpdateKeeps(c, id, Held(c.calls[id], true));
  }

  lemma HoldOthersKeeps(c: Core, keep: string)
    requires Inv(c)
    ensures Inv(HoldOthers(c, keep))
    ensures OnlyHeld(c, keep, HoldOthers(c, keep))
  {
    if OffHold(c.calls) <= {keep} {
      HoldOthersIsNothing(c, keep);
    } else {
      var id :| id in OffHold(c.calls) && id != keep;
      HoldOneKeeps(c, keep, id);
      HoldOneIsOnlyHeld(c, keep, id);
    }
  }

  lemma HoldOneIsOnlyHeld(c: Core, keep: string, id: string)
    requires CallsOk(c.calls, c.ids, c.nextSeq, c.left) && AtMostOneOffHold(c.calls)
    requires id in OffHold(c.calls) && id != keep
    requires SameBut(c.log, HoldOthers(c, keep).log, c.calls[id].source)
    ensures OnlyHeld(c, keep, HoldOthers(c, keep))
  {
    HoldOthersIsUpdate(c, keep, id);
    assert OffHold(c.calls) * {keep} == {};
    assert InCalls(c.calls, c.ids, c.calls[id].source);
  }

  lemma ToldRemove(queue: seq<Queued>, calls: map<string, Active>, ids: seq<string>, left: map<nat, nat>, id: string,
                   n: nat)
    requires Told(queue, calls, ids, left) && id in calls
    ensures Told(queue, calls - {id}, ids, left[calls[id].source := n])
  {
    assert forall k: nat :: InCalls(calls, ids, k) ==> k == calls[id].source || InCalls(calls - {id}, ids, k);
  }

  lemma OneFrontRemove(queue: seq<Queued>, left: map<nat, nat>, source: nat)
    requires OneFront(queue, left) && source !in left
    ensures OneFront(queue, left[source := |queue|])
  {
    assert forall n: nat, k: nat :: n <= |queue| && Standing(left[source := |queue|], n, k) ==> Standing(left, n, k);
  }

  lemma RemoveCallKeeps(c: Core, id: string)
    requires Inv(c) && id in c.calls
    ensures Inv(RemoveCall(c, id))
  {
    var c' := RemoveCall(c, id);
    OwnSource(c.calls, c.ringing, c.ids, c.nextSeq, c.left, c.log);
    assert OffHold(c'.calls) <= OffHold(c.calls);
    CallsRemove(c.calls, c.ids, c.nextSeq, c.left, id, |c.log.queue|);
    OfferedCalls(c.pending, c.calls, c'.calls, c.ids, c.left, c'.left, c.log);
    ToldRemove(c.log.queue, c.calls, c.ids, c.left, id, |c.log.queue|);
    OneFrontRemove(c.log.queue, c.left, c.calls[id].source);
  }

  lemma RemoveRingingKeeps(c: Core, id: string)
    requires Inv(c)
    ensures Inv(c.(ringing := c.ringing - {id}))
  {
  }

  lemma RemoveOfferedKeeps(c: Core, t: string)
    requires Inv(c)
    ensures Inv(c.(pending := c.pending - {t}))
  {
  }

  predicate FreshOrder(calls: map<string, Active>, ringing: map<string, Pending>, n: nat) {
    && (forall i :: i in calls ==> calls[i].seqNo != n)
    && (forall i :: i in ringing ==> ringing[i].seqNo != n)
  }

  /** A call connects while every other call is held. */
  lemma ConnectKeeps(c: Core, id: string, call: Active)
    requires Inv(c)
    requires id !in c.calls && id !in c.ringing
    requires OffHold(c.calls) == {}
    requires Steady(call) && call.info.state.Connected? && Proper(c.ids, call.source, call.info)
             && call.info.callId == id
    requires call.seqNo < c.nextSeq && FreshOrder(c.calls, c.ringing, call.seqNo)
    requires call.source !in c.left && call.source !in c.log.ended
    requires Follows(Last(c.log.queue, call.source), call.info)
    requires forall t :: t in c.pending ==> c.pending[t].source != call.source
    ensures Inv(Say(c.(calls := c.calls[id := call]), call.source, call.info))
    ensures SameBut(c.log, Say(c.(calls := c.calls[id := call]), call.source, call.info).log, call.source)
  {
    var calls' := c.calls[id := call];
    OwnSource(c.calls, c.ringing, c.ids, c.nextSeq, c.left, c.log);
    assert OffHold(calls') <= {id};
    CallsUpdate(c.calls, c.ids, c.nextSeq, c.left, id, call);
    OrderUpdate(c.calls, c.ringing, id, call);
    OfferedCalls(c.pending, c.calls, calls', c.ids, c.left, c.left, c.log);
    SayKeeps(c, id, call);
  }

  // ----- Outgoing ids -----

  lemma {:induction false} FindUsed(used: seq<(string, bool)>, id: string)
    ensures UsedFlag(used, id).None? <==> forall i :: 0 <= i < |used| ==> used[i].0 != id
  {
    if used != [] {
      FindUsed(used[1..], id);
      assert forall i :: 0 < i < |used| ==> used[i] == used[1..][i - 1];
    }
  }

  lemma {:induction false} ClearKeepsIds(used: seq<(string, bool)>, id: string)
    ensures |ClearFlag(used, id)| == |used|
    ensures forall i :: 0 <= i < |used| ==> ClearFlag(used, id)[i].0 == used[i].0
    ensures forall j :: UsedFlag(ClearFlag(used, id), j) ==
              if j == id && UsedFlag(used, id).Some? then Some(false) else UsedFlag(used, j)
  {
    if used != [] {
      ClearKeepsIds(used[1..], id);
      assert forall i :: 0 < i < |used| ==> used[i] == used[1..][i - 1];
      assert ClearFlag(used, id)[1..] == if used[0].0 == id then used[1..] else ClearFlag(used[1..], id);
    }
  }

  /** An id that is not among the last 256 used was last used more than 256 uses ago. */
  lemma NotRecentlyUsed(used: seq<(string, bool)>, marks: seq<nat>, ids: seq<string>, id: string, i: nat)
    requires UsedOk(used, marks, ids) && UsedFlag(used, id).None?
    requires i < |marks| && ids[marks[i]] == id
    ensures |marks| - i > USED_OUTGOING_IDS
  {
    FindUsed(used, id);
    var first := |marks| - |used|;
    forall n {:trigger marks[n]} | first <= n < |marks| ensures ids[marks[n]] != id {
      assert used[n - first].0 == ids[marks[n]];
    }
  }

  lemma MarkKeepsWindow(used: seq<(string, bool)>, marks: seq<nat>, ids: seq<string>, id: string, precancelled: bool)
    requires UsedOk(used, marks, ids)
    ensures var used', marks', ids' := MarkUsed(used, id, precancelled), marks + [|ids|], ids + [id];
            && |used'| == (if |marks'| < USED_OUTGOING_IDS then |marks'| else USED_OUTGOING_IDS)
            && (forall i :: 0 <= i < |marks'| ==> marks'[i] < |ids'|)
            && (forall i {:trigger used'[i]} :: 0 <= i < |used'| ==> used'[i].0 == ids'[marks'[|marks'| - |used'| + i]])
  {
    var used', marks', ids' := MarkUsed(used, id, precancelled), marks + [|ids|], ids + [id];
    var drop := |used| + 1 - |used'|;
    forall i {:trigger used'[i]} | 0 <= i < |used'| ensures used'[i].0 == ids'[marks'[|marks'| - |used'| + i]] {
      if drop + i < |used| { assert used'[i] == used[drop + i]; } else { assert used'[i].0 == id; }
    }
  }

  /** An id is used up only when it is not among the last 256 used. */
  lemma MarkKeepsUsed(used: seq<(string, bool)>, marks: seq<nat>, ids: seq<string>, id: string, precancelled: bool)
    requires UsedOk(used, marks, ids) && DirectionOf(id).Outbound? && UsedFlag(used, id).None?
    ensures UsedOk(MarkUsed(used, id, precancelled), marks + [|ids|], ids + [id])
  {
    MarkKeepsWindow(used, marks, ids, id, precancelled);
    MarkKeepsHistory(used, marks, ids, id);
  }

  lemma MarkKeepsHistory(used: seq<(string, bool)>, marks: seq<nat>, ids: seq<string>, id: string)
    requires UsedOk(used, marks, ids) && DirectionOf(id).Outbound? && UsedFlag(used, id).None?
    ensures var marks', ids' := marks + [|ids|], ids + [id];
            && (forall i :: 0 <= i < |marks'| ==> marks'[i] < |ids'| && DirectionOf(ids'[marks'[i]]).Outbound?)
            && (forall i, j :: 0 <= i < j < |marks'| && ids'[marks'[i]] == ids'[marks'[j]] ==>
                j - i > USED_OUTGOING_IDS)
            && (forall k :: 0 <= k < |ids'| && DirectionOf(ids'[k]).Outbound? ==> k in marks')
  {
    var marks', ids' := marks + [|ids|], ids + [id];
    var m := |marks|;
    assert forall i :: 0 <= i < m ==> marks'[i] == marks[i] && ids'[marks[i]] == ids[marks[i]];
    assert marks'[m] == |ids| && ids'[marks'[m]] == id;
    forall i, j | 0 <= i < j < |marks'| && ids'[marks'[i]] == ids'[marks'[j]] ensures j - i > USED_OUTGOING_IDS {
      if j == m { NotRecentlyUsed(used, marks, ids, id, i); }
    }
    assert forall k :: 0 <= k < |ids| ==> ids'[k] == ids[k];
  }

  /** A new `CallEvents` changes nothing about the others. */
  lemma NewSourceKeeps(c: Core, id: string)
    requires Inv(c)
    ensures var ids' := c.ids + [id];
            && CallsOk(c.calls, ids', c.nextSeq, c.left)
            && RingingOk(c.ringing, ids', c.nextSeq, c.left, c.log)
            && OfferedOk(c.pending, c.calls, ids', c.left, c.log)
            && Told(c.log.queue, c.calls, ids', c.left)
            && HistoryOk(c.left, c.cells, ids', c.log.queue)
  {
    var ids' := c.ids + [id];
    assert forall k: nat :: k < |c.ids| ==> ids'[k] == c.ids[k];
    assert forall i :: i in c.calls ==> c.calls[i].source < |c.ids|;
    assert forall k: nat :: InCalls(c.calls, ids', k) <==> InCalls(c.calls, c.ids, k);
  }

  /** Nothing refers to the next `CallEvents` yet. */
  ghost predicate Unborn(c: Core) {
    && Last(c.log.queue, |c.ids|).None? && |c.ids| !in c.log.ended && |c.ids| !in c.left
    && |c.ids| !in c.cells
    && (forall i :: i in c.calls ==> c.calls[i].source != |c.ids|)
    && (forall i :: i in c.ringing ==> c.ringing[i].source != |c.ids|)
    && (forall t :: t in c.pending ==> c.pending[t].source != |c.ids|)
  }

  lemma NextIsUnborn(c: Core)
    requires Inv(c)
    ensures Unborn(c)
  {
    assert Last(c.log.queue, |c.ids|).None?;
  }

  lemma MarkKeeps(c: Core, id: string, precancelled: bool)
    requires Inv(c) && DirectionOf(id).Outbound? && UsedFlag(c.used, id).None?
    ensures Inv(Mark(c, id, precancelled))
  {
    MarkKeepsUsed(c.used, c.marks, c.ids, id, precancelled);
    NewSourceKeeps(c, id);
  }
}
