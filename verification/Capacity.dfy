/** The two-call cap, section by section: what each one does to the number of live calls, and where
    the cap rests on a call token being accepted by one running call at a time. */
module Capacity {
  import opened Types
  import opened Events
  import opened Calls
  import opened CallsInvariant
  import opened Frames

  lemma ReserveShape(c: Core, id: string, hasToken: bool)
    ensures var (c', r) := ReserveOutgoing(c, id, hasToken);
            var info := InfoOf(id, Ringing);
            if r.Err? then c' == c.(used := c'.used)
            else && c'.ringing == c.ringing[id := Pending(|c.ids|, info, c.nextSeq, false)]
                 && c'.log == Emit(c.log, |c.ids|, info)
                 && c'.calls == c.calls && c'.pending == c.pending && c'.ids == c.ids + [id]
  {
    hide Emit, OutgoingId, MarkUsed, UsedFlag, InfoOf, ClearFlag;
  }

  // ----- Reservations -----

  /** A refused dial changes no map, queue, sequence number or `CallEvents`, and the ids that count as
      used stay the same ones; only an id that was hung up before it was made stops being
      pre-cancelled, and its dial reports exactly that. */
  lemma RefusedDialLeavesNoTrace(c: Core, id: string, hasToken: bool)
    requires ReserveOutgoing(c, id, hasToken).1.Err?
    ensures var (c', r) := ReserveOutgoing(c, id, hasToken);
            && c' == c.(used := c'.used)
            && |c'.used| == |c.used| && (forall i :: 0 <= i < |c.used| ==> c'.used[i].0 == c.used[i].0)
            && (forall j :: UsedFlag(c'.used, j) == if j == id && r == Err(Aborted) then Some(false)
                else UsedFlag(c.used, j))
            && (r == Err(Aborted) <==> OutgoingId(id) && UsedFlag(c.used, id) == Some(true))
            && (r == Err(AuthenticationError) <==>
                  && OutgoingId(id) && UsedFlag(c.used, id).None? && id !in c.calls && id !in c.ringing
                  && |c.calls| + |c.ringing| + |c.accepting| < 2 && !hasToken)
            && (r == Err(Aborted) || r == Err(AuthenticationError) || r == Err(InvalidState))
  {
    ReserveShape(c, id, hasToken);
    ClearKeepsIds(c.used, id);
  }

  /** A dial that is not refused adds one call, only below the cap, and only for an id that is valid,
      not live and not recently used. */
  lemma DialCounts(c: Core, id: string, hasToken: bool)
    ensures var (c', r) := ReserveOutgoing(c, id, hasToken);
            && LiveCount(c') == LiveCount(c) + (if r.Ok? then 1 else 0)
            && (r.Ok? <==>
                  && OutgoingId(id) && UsedFlag(c.used, id).None? && id !in c.calls && id !in c.ringing
                  && hasToken && LiveCount(c) < MAX_LIVE_CALLS)
  {
    ReserveShape(c, id, hasToken);
    SizeWith(c.ringing, id, Pending(|c.ids|, InfoOf(id, Ringing), c.nextSeq, false));
    ReserveAccepting(c, id, hasToken);
  }

  lemma ReserveAccepting(c: Core, id: string, hasToken: bool)
    ensures ReserveOutgoing(c, id, hasToken).0.accepting == c.accepting
  {
    hide Emit, OutgoingId, MarkUsed, UsedFlag, InfoOf, ClearFlag;
  }

  lemma AcceptCounts(c: Core, token: string)
    ensures var (c', ok) := ReserveAccept(c, token);
            && LiveCount(c') == LiveCount(c) + (if ok then 1 else 0)
            && (ok ==> LiveCount(c) < MAX_LIVE_CALLS)
            && (!ok ==> c' == c)
  {
  }

  // ----- Moves -----

  lemma HoldSize(c: Core, keep: string)
    ensures HoldOthers(c, keep).calls.Keys == c.calls.Keys && |HoldOthers(c, keep).calls| == |c.calls|
    ensures HoldOthers(c, keep).ringing == c.ringing && HoldOthers(c, keep).accepting == c.accepting
  {
    hide Held, Emit, OffHold;
    assert HeldExcept(c.calls, keep).Keys == c.calls.Keys;
    SizeSameKeys(c.calls, HeldExcept(c.calls, keep));
  }

  /** A ringing call that connects moves from one count to the other. */
  lemma ConnectingConserves(c: Core, id: string, source: nat, answer: Answer)
    requires id in c.ringing ==> id !in c.calls
    ensures LiveCount(ConnectDialed(c, id, source, answer).0) == LiveCount(c)
  {
    if id in c.ringing {
      var c1 := c.(ringing := c.ringing - {id});
      HoldSize(c1, id);
      SizeWithout(c.ringing, id);
      hide HoldOthers;
      var c2 := HoldOthers(c1, id);
      SizeWith(c2.calls, id, Active(source, InfoOf(id, Connected), c.ringing[id].seqNo, answer.token, answer.route,
                                    false));
    }
  }

  lemma AcceptingCounts(c: Core, token: string, source: nat, route: Route)
    ensures LiveCount(ConnectAccepted(c, token, source, route).0) ==
              LiveCount(c) - (if token in c.accepting then 1 else 0)
              + (if source in c.log.ended || IncomingId(token) in c.calls then 0 else 1)
  {
    hide HoldOthers, HeldExcept, IncomingId, InfoOf, Emit;
    var c1 := ReleaseAccept(c, token);
    var id := IncomingId(token);
    HoldSize(c1, id);
    var c2 := HoldOthers(c1, id);
    var call := Active(source, InfoOf(id, Connected), c.nextSeq, token, route, false);
    assert id in c.calls.Keys <==> id in c2.calls.Keys;
    SizeWith(c2.calls, id, call);
    assert token in c.accepting ==> |c1.accepting| == |c.accepting| - 1;
    assert token !in c.accepting ==> c1.accepting == c.accepting;
  }

  /** An accepted call takes the place of its slot. It is the slot that keeps the cap: without it, and
      with the cap reached, a call that connects exceeds it. */
  lemma AcceptingKeepsCapIff(c: Core, token: string, source: nat, route: Route)
    requires LiveCount(c) <= MAX_LIVE_CALLS
    ensures LiveCount(ConnectAccepted(c, token, source, route).0) <= MAX_LIVE_CALLS <==>
              || source in c.log.ended || token in c.accepting || IncomingId(token) in c.calls
              || LiveCount(c) < MAX_LIVE_CALLS
  {
    AcceptingCounts(c, token, source, route);
  }

  // ----- Accepting a token again before its earlier accept has returned -----

  /** The whole of `accept_incoming_call` up to the point where its slot is dropped. */
  ghost function Answered(c: Core, token: string, route: Route): Core {
    var (c1, source) := BeginAccept(c, token);
    ConnectAccepted(TakeOffered(c1, token).0, token, source, route).0
  }

  /** Nothing is live, and call number `|c.ids|` onwards has not been reported. */
  ghost predicate Idle(c: Core) {
    && c.calls == map[] && c.ringing == map[] && c.pending == map[] && c.accepting == {} && c.used == []
    && forall k: nat :: k >= |c.ids| ==> k !in c.log.ended
  }

  lemma FirstAccept(token: string, route: Route)
    ensures var c := ReserveAccept(INITIAL, token).0;
            && ReserveAccept(INITIAL, token).1
            && IncomingId(token) in Answered(c, token, route).calls
            && Idle(RemoveCall(Answered(c, token, route), IncomingId(token)))
  {
    var c := ReserveAccept(INITIAL, token).0;
    var c1 := ReleaseAccept(BeginAccept(c, token).0, token);
    assert HeldExcept(c1.calls, IncomingId(token)) == map[];
    assert HoldOthers(c1, IncomingId(token)) == c1;
  }

  /** The token is reserved again, the first accept gives that slot back, two calls are dialled, and the
      second accept connects: three calls are live. */
  ghost predicate ThreeLive(c: Core, token: string, a: string, b: string, route: Route) {
    && ReserveAccept(c, token).1
    && var c1 := ReleaseAccept(ReserveAccept(c, token).0, token);
       && ReserveOutgoing(c1, a, true).1.Ok?
       && var c2 := ReserveOutgoing(c1, a, true).0;
          && ReserveOutgoing(c2, b, true).1.Ok?
          && LiveCount(Answered(ReserveOutgoing(c2, b, true).0, token, route)) == MAX_LIVE_CALLS + 1
  }

  lemma StaleSlotBreaksCap(c: Core, token: string, a: string, b: string, route: Route)
    requires Idle(c) && OutgoingId(a) && OutgoingId(b) && a != b
    ensures ThreeLive(c, token, a, b, route)
  {
    var c1 := ReleaseAccept(ReserveAccept(c, token).0, token);
    assert c1 == c;
    DialCounts(c1, a, true);
    ReserveShape(c1, a, true);
    var c2 := ReserveOutgoing(c1, a, true).0;
    assert c2.used == [(a, false)];
    assert UsedFlag(c2.used[1..], b).None?;
    DialCounts(c2, b, true);
    ReserveShape(c2, b, true);
    ReserveAccepting(c1, a, true);
    var c3 := ReserveOutgoing(c2, b, true).0;
    ReserveAccepting(c2, b, true);
    var c4 := TakeOffered(BeginAccept(c3, token).0, token).0;
    AcceptingCounts(c4, token, |c3.ids|, route);
  }

  /** A new engine answers a call, which ends at once, and its token is accepted again before the first
      `accept_incoming_call` has returned. What that one then drops is the second one's slot, and the
      cap is gone. */
  lemma ReacceptBreaksCap(token: string, a: string, b: string, route: Route)
    requires OutgoingId(a) && OutgoingId(b) && a != b
    ensures ReserveAccept(INITIAL, token).1
    ensures var answered := Answered(ReserveAccept(INITIAL, token).0, token, route);
            IncomingId(token) in answered.calls && ThreeLive(RemoveCall(answered, IncomingId(token)), token, a, b,
                                                             route)
  {
    hide OutgoingId, ThreeLive, Idle, Answered, HoldOthers;
    FirstAccept(token, route);
    StaleSlotBreaksCap(RemoveCall(Answered(ReserveAccept(INITIAL, token).0, token, route), IncomingId(token)), token,
                       a, b, route);
  }
}
