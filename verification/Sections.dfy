/** Every atomic section keeps the invariant. */
module Sections {
  import opened Types
  import opened Events
  import opened Calls
  import opened CallsInvariant

  // ----- Outgoing calls -----

  lemma ReserveKeeps(c: Core, id: string, hasToken: bool)
    requires Inv(c)
    ensures Inv(ReserveOutgoing(c, id, hasToken).0)
  {
    if OutgoingId(id) {
      match UsedFlag(c.used, id)
      case Some(true) => ClearKeepsIds(c.used, id); UsedSameIds(c.used, ClearFlag(c.used, id), c.marks, c.ids);
      case Some(false) =>
      case None =>
        if id !in c.calls && id !in c.ringing {
          OutgoingIds(id);
          StartRingingKeeps(c, id);
        }
    }
  }

  lemma UsedSameIds(used: seq<(string, bool)>, used': seq<(string, bool)>, marks: seq<nat>, ids: seq<string>)
    requires UsedOk(used, marks, ids) && |used'| == |used|
    requires forall i :: 0 <= i < |used| ==> used'[i].0 == used[i].0
    ensures UsedOk(used', marks, ids)
  {
  }

  function Started(c: Core, id: string): Core {
    var info := InfoOf(id, Ringing);
    Say(Mark(c, id, false).(ringing := c.ringing[id := Pending(|c.ids|, info, c.nextSeq, false)],
                            nextSeq := c.nextSeq + 1),
        |c.ids|, info)
  }

  lemma StartRingingKeeps(c: Core, id: string)
    requires Inv(c) && DirectionOf(id).Outbound? && UsedFlag(c.used, id).None?
    requires id !in c.calls && id !in c.ringing
    ensures Inv(Started(c, id))
  {
    NextIsUnborn(c);
    MarkKeeps(c, id, false);
    FirstRing(Mark(c, id, false), |c.ids|, id);
    AddRinging(Mark(c, id, false), |c.ids|, id);
  }

  /** The parts of the invariant that the first `Ringing` touches besides the ringing map. */
  lemma FirstRing(c: Core, source: nat, id: string)
    requires Inv(c) && source < |c.ids| && c.ids[source] == id && DirectionOf(id).Outbound?
    requires Last(c.log.queue, source).None? && source !in c.log.ended
    requires forall t :: t in c.pending ==> c.pending[t].source != source
    requires forall i :: i in c.calls ==> c.calls[i].source != source
    ensures var log' := Emit(c.log, source, InfoOf(id, Ringing));
            && LogOk(log') && SameBut(c.log, log', source)
            && Last(log'.queue, source) == Some(InfoOf(id, Ringing)) && source !in log'.ended
            && OfferedOk(c.pending, c.calls, c.ids, c.left, log')
            && Told(log'.queue, c.calls, c.ids, c.left)
            && Agrees(c.calls, log')
            && HistoryOk(c.left, c.cells, c.ids, log'.queue)
            && OneFront(log'.queue, c.left)
  {
    var info := InfoOf(id, Ringing);
    var log' := Emit(c.log, source, info);
    EmitKeepsLog(c.log, source, info);
    OfferedFrame(c.pending, c.calls, c.ids, c.left, c.log, log', source);
    ToldFrame(c.log.queue, c.calls, log'.queue, c.calls, c.ids, c.left, source);
    OneFrontExtends(c.log.queue, Queued(source, info), c.(log := log'));
  }

  lemma AddRinging(c: Core, source: nat, id: string)
    requires RingingOk(c.ringing, c.ids, c.nextSeq, c.left, c.log) && OrderOk(c.calls, c.ringing)
    requires CallsOk(c.calls, c.ids, c.nextSeq, c.left)
    requires source < |c.ids| && c.ids[source] == id && DirectionOf(id).Outbound? && source !in c.left
    requires id !in c.calls && forall i :: i in c.ringing ==> c.ringing[i].source != source
    requires var log' := Emit(c.log, source, InfoOf(id, Ringing));
             SameBut(c.log, log', source) && Last(log'.queue, source) == Some(InfoOf(id, Ringing))
                 && source !in log'.ended
    ensures var ringing' := c.ringing[id := Pending(source, InfoOf(id, Ringing), c.nextSeq, false)];
            var log' := Emit(c.log, source, InfoOf(id, Ringing));
            && RingingOk(ringing', c.ids, c.nextSeq + 1, c.left, log')
            && OrderOk(c.calls, ringing')
            && CallsOk(c.calls, c.ids, c.nextSeq + 1, c.left)
  {
    RingingFrame(c.ringing, c.ids, c.nextSeq, c.left, c.log, Emit(c.log, source, InfoOf(id, Ringing)), source);
  }

  lemma SetCellKeeps(c: Core, source: nat, route: Route)
    requires Inv(c) && source < |c.ids|
    ensures Inv(SetCell(c, source, route))
  {
  }

  lemma MarkDialingKeeps(c: Core, id: string)
    requires Inv(c)
    ensures Inv(MarkDialing(c, id))
  {
  }

  lemma ConnectDialedKeeps(c: Core, id: string, source: nat, answer: Answer)
    requires Inv(c)
    requires id in c.ringing ==> c.ringing[id].source == source
    requires forall t :: t in c.pending ==> c.pending[t].source != source
    ensures Inv(ConnectDialed(c, id, source, answer).0)
  {
    if id in c.ringing {
      var c0 := c.(ringing := c.ringing - {id});
      var c1 := HoldOthers(c0, id);
      RemoveRingingKeeps(c, id);
      HoldOthersKeeps(c0, id);
      assert OffHold(c1.calls) == {};
      OwnSource(c.calls, c.ringing, c.ids, c.nextSeq, c.left, c.log);
      assert !InCalls(c.calls, c.ids, source);
      assert Last(c1.log.queue, source) == Some(InfoOf(id, Ringing));
      ConnectKeeps(c1, id, Active(source, InfoOf(id, Connected), c.ringing[id].seqNo, answer.token, answer.route,
                                  false));
    }
  }

  lemma TakeForHangupKeeps(c: Core, id: string)
    requires Inv(c)
    ensures Inv(TakeForHangup(c, id).0)
  {
    if id in c.calls { RemoveCallKeeps(c, id); }
    else if id in c.ringing { RemoveRingingKeeps(c, id); }
    else if OutgoingId(id) && UsedFlag(c.used, id).None? { OutgoingIds(id); MarkKeeps(c, id, true); }
  }

  // ----- Call control -----

  lemma SetMuteKeeps(c: Core, id: string, muted: bool)
    requires Inv(c)
    ensures Inv(SetMute(c, id, muted).0)
  {
    if id in c.calls {
      var call := c.calls[id].(info := c.calls[id].info.(muted := muted));
      assert OffHold(c.calls[id := call]) == OffHold(c.calls);
      UpdateKeeps(c, id, call);
    }
  }

  /** A call is put on hold, or taken off it when every other call is on hold. */
  lemma UpdateHoldKeeps(c: Core, id: string, onHold: bool)
    requires Inv(c) && id in c.calls
    requires onHold || OffHold(c.calls) <= {id}
    ensures var call := Held(c.calls[id], onHold);
            Inv(Say(c.(calls := c.calls[id := call]), call.source, call.info))
  {
    var call := Held(c.calls[id], onHold);
    OffHoldAfter(c.calls, id, onHold);
    UpdateKeeps(c, id, call);
  }

  lemma OffHoldAfter(calls: map<string, Active>, id: string, onHold: bool)
    requires id in calls && AtMostOneOffHold(calls)
    requires onHold || OffHold(calls) <= {id}
    ensures var calls' := calls[id := Held(calls[id], onHold)];
            && OffHold(calls') == (if onHold then OffHold(calls) - {id} else {id})
            && AtMostOneOffHold(calls')
  {
    var calls' := calls[id := Held(calls[id], onHold)];
    assert OffHold(calls') == if onHold then OffHold(calls) - {id} else {id};
  }

  lemma SwitchHoldKeeps(c: Core, id: string, onHold: bool)
    requires Inv(c) && id in c.calls
    requires onHold || OffHold(c.calls) <= {id}
    ensures Inv(SwitchHold(c, id, onHold))
    ensures OffHold(SwitchHold(c, id, onHold).calls) == if onHold then OffHold(c.calls) - {id} else {id}
  {
    OffHoldAfter(c.calls, id, onHold);
    if c.calls[id].info.onHold == onHold {
      assert Held(c.calls[id], onHold) == c.calls[id];
      assert c.calls[id := c.calls[id]] == c.calls;
    } else {
      UpdateHoldKeeps(c, id, onHold);
    }
  }

  lemma SetHoldKeeps(c: Core, id: string, onHold: bool)
    requires Inv(c)
    ensures Inv(SetHold(c, id, onHold).0)
  {
    if id in c.calls {
      HoldOthersKeeps(c, id);
      UpdateHoldKeeps(if onHold then c else HoldOthers(c, id), id, onHold);
    }
  }

  lemma SwapCallsKeeps(c: Core, active: string, held: string)
    requires Inv(c)
    ensures Inv(SwapCalls(c, active, held).0)
  {
    if active != held && active in c.calls && held in c.calls {
      SwitchHoldKeeps(c, active, true);
      var c1 := SwitchHold(c, active, true);
      HoldOthersKeeps(c1, held);
      SwitchHoldKeeps(HoldOthers(c1, held), held, false);
    }
  }

  // ----- Incoming calls -----

  lemma BeginAcceptKeeps(c: Core, token: string)
    requires Inv(c)
    ensures Inv(BeginAccept(c, token).0)
  {
    if token in c.pending { ReplaceOffer(c, token, c.pending[token].(accepting := true)); }
    else { NewIncomingKeeps(c, token); }
  }

  lemma NewIncomingKeeps(c: Core, token: string)
    requires Inv(c)
    ensures Inv(c.(ids := c.ids + [IncomingId(token)]))
    ensures Unborn(c)
  {
    NewSourceKeeps(c, IncomingId(token));
    NextIsUnborn(c);
    IncomingIds(token, token);
    UsedGrows(c.used, c.marks, c.ids, IncomingId(token));
  }

  lemma UsedGrows(used: seq<(string, bool)>, marks: seq<nat>, ids: seq<string>, id: string)
    requires UsedOk(used, marks, ids) && DirectionOf(id).Inbound?
    ensures UsedOk(used, marks, ids + [id])
  {
    assert forall i :: 0 <= i < |marks| ==> (ids + [id])[marks[i]] == ids[marks[i]];
    assert forall k :: 0 <= k < |ids| ==> (ids + [id])[k] == ids[k];
  }

  lemma WatchIncomingKeeps(c: Core, token: string, route: Route, abandoned: bool)
    requires Inv(c)
    ensures Inv(WatchIncoming(c, token, route, abandoned))
  {
    if token in c.pending {
      var e := c.pending[token];
      ReplaceOffer(c, token, e.(abandoned := e.abandoned || abandoned, accepting := e.accepting && !abandoned));
    } else {
      NewIncomingKeeps(c, token);
      IncomingIds(token, token);
      AddOffer(c.(ids := c.ids + [IncomingId(token)]), |c.ids|, token, route, abandoned);
    }
  }

  lemma ReplaceOffer(c: Core, token: string, e: Offered)
    requires Inv(c) && token in c.pending && e.source == c.pending[token].source && e.info == c.pending[token].info
    ensures Inv(c.(pending := c.pending[token := e]))
  {
  }

  lemma AddOffer(c: Core, source: nat, token: string, route: Route, abandoned: bool)
    requires Inv(c) && source < |c.ids| && c.ids[source] == IncomingId(token) && DirectionOf(IncomingId(token)).Inbound?
    requires source !in c.left && Last(c.log.queue, source).None?
    requires forall i :: i in c.calls ==> c.calls[i].source != source
    ensures Inv(c.(pending := c.pending[token := Offered(source, InfoOf(IncomingId(token), Ended), route, false,
                                                         abandoned, false)]))
  {
  }

  lemma WatchStatusKeeps(c: Core, token: string, seen: Seen)
    requires Inv(c)
    ensures Inv(WatchStatus(c, token, seen).0)
  {
    if token in c.pending {
      var e := c.pending[token];
      RemoveOfferedKeeps(c, token);
      if seen.SawOther? {
        ReplaceOffer(c, token, e.(rejected := true));
      } else if !e.abandoned && !(seen.SawActive? && e.accepting) {
        EndOffered(c, token, if seen.SawActive? then AnsweredElsewhere else seen.reason);
      }
    }
  }

  lemma EndOffered(c: Core, token: string, reason: EndReason)
    requires Inv(c) && token in c.pending
    ensures var e := c.pending[token];
            Inv(Say(c.(pending := c.pending - {token}), e.source, AsEnded(e.info, reason)))
  {
    var e := c.pending[token];
    RemoveOfferedKeeps(c, token);
    IncomingIds(token, token);
    OfferedNotRinging(c, e.source);
    EndKeeps(c.(pending := c.pending - {token}), e.source, AsEnded(e.info, reason));
  }

  lemma ConnectAcceptedKeeps(c: Core, token: string, source: nat, route: Route)
    requires Inv(c)
    requires source < |c.ids| && c.ids[source] == IncomingId(token)
    requires source in c.log.ended || Last(c.log.queue, source).None?
    requires source !in c.left && IncomingId(token) !in c.calls
    requires forall t :: t in c.pending ==> c.pending[t].source != source
    ensures Inv(ConnectAccepted(c, token, source, route).0)
  {
    if source !in c.log.ended {
      var id := IncomingId(token);
      var c1 := ReleaseAccept(c, token);
      IncomingIds(token, token);
      OfferedNotRinging(c, source);
      HoldOthersKeeps(c1, id);
      ConnectAfterHold(HoldOthers(c1, id), id, Active(source, InfoOf(id, Connected), c.nextSeq, token, route, false));
    }
  }

  lemma ConnectAfterHold(c: Core, id: string, call: Active)
    requires Inv(c) && OffHold(c.calls) <= {id} && id !in c.calls && id !in c.ringing
    requires call.source < |c.ids| && c.ids[call.source] == id && DirectionOf(id).Inbound?
    requires Last(c.log.queue, call.source).None? && call.source !in c.left && call.source !in c.log.ended
    requires call.info == InfoOf(id, Connected) && !call.mediaHeld && call.seqNo == c.nextSeq
    requires forall t :: t in c.pending ==> c.pending[t].source != call.source
    ensures Inv(Say(c, call.source, call.info).(calls := c.calls[id := call], nextSeq := c.nextSeq + 1))
  {
    var c1 := c.(nextSeq := c.nextSeq + 1);
    assert OffHold(c.calls) == {};
    ConnectKeeps(c1, id, call);
  }
}
