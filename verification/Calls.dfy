/** The engine's shared state and its atomic sections.

    A section is what one thread does while it holds the locks it needs (`calls`, then
    `pending_outgoing`, then `accepting`); between two sections any other thread may run. Each
    section is a function from state to state here, and a method of the class `Engine`
    in Engine.dfy. */
module Calls {
  import opened Types
  import opened Events

  const MAX_LIVE_CALLS: nat := 2
  const USED_OUTGOING_IDS: nat := 256

  /** A connected call. `mediaHeld` is the hold flag of its media session. */
  datatype Active = Active(source: nat, info: CallInfo, seqNo: nat, token: string, route: Route, mediaHeld: bool)

  /** An outgoing call that rings. */
  datatype Pending = Pending(source: nat, info: CallInfo, seqNo: nat, dialing: bool)

  /** An offered incoming call. */
  datatype Offered = Offered(source: nat, info: CallInfo, route: Route, accepting: bool, abandoned: bool,
                             rejected: bool)

  /** `cells` holds the attempt cells that have been set. The last three fields are history: the
      id each `CallEvents` number reports, the numbers of the outgoing ids in the order the ids
      were used up, and how long the queue was when a connected call was taken out of `calls`. */
  datatype Core = Core(
    calls: map<string, Active>,
    ringing: map<string, Pending>,
    used: seq<(string, bool)>,
    pending: map<string, Offered>,
    accepting: set<string>,
    nextSeq: nat,
    log: EventLog,
    cells: map<nat, Route>,
    ids: seq<string>,
    marks: seq<nat>,
    left: map<nat, nat>)

  const INITIAL: Core :=
    Core(map[], map[], [], map[], {}, 0, EventLog({}, []), map[], [], [], map[])

  // ----- Call ids -----

  predicate RefChar(c: char) {
    'a' <= c <= 'z' || 'A' <= c <= 'Z' || '0' <= c <= '9' || c == '_' || c == '-'
  }

  /** `outgoing_client_ref(..).is_some()` */
  predicate OutgoingId(id: string) {
    && "outgoing-" <= id
    && 1 <= |id| - 9 <= 64
    && forall i :: 9 <= i < |id| ==> RefChar(id[i])
  }

  function IncomingId(token: string): string {
    "incoming-" + token
  }

  /** Every id the engine makes or accepts starts with `outgoing-` or `incoming-`. */
  function DirectionOf(id: string): CallDirection {
    if id != [] && id[0] == 'o' then Outbound else Inbound
  }

  lemma IncomingIds(t: string, u: string)
    ensures DirectionOf(IncomingId(t)).Inbound?
    ensures IncomingId(t) == IncomingId(u) ==> t == u
  {
    assert IncomingId(t)[0] == 'i';
    assert IncomingId(t)[9..] == t && IncomingId(u)[9..] == u;
  }

  lemma OutgoingIds(id: string)
    requires OutgoingId(id)
    ensures DirectionOf(id).Outbound?
  {
    assert id[0] == "outgoing-"[0];
  }

  function InfoOf(id: string, state: CallState): CallInfo {
    CallInfo(id, DirectionOf(id), state, false, false, None)
  }

  // ----- Holding -----

  /** `apply_hold` */
  function Held(call: Active, onHold: bool): Active {
    call.(info := call.info.(onHold := onHold, state := if onHold then OnHold else Connected),
          mediaHeld := onHold)
  }

  function OffHold(calls: map<string, Active>): set<string> {
    set id | id in calls && !calls[id].info.onHold
  }

  function HeldExcept(calls: map<string, Active>, keep: string): map<string, Active> {
    map id | id in calls :: if id == keep then calls[id] else Held(calls[id], true)
  }

  /** `hold_others`. At most one other call is off hold, so there is at most one event and the
      order in which the map is walked cannot be seen. */
  ghost function HoldOthers(c: Core, keep: string): Core {
    var off := OffHold(c.calls) - {keep};
    var c1 := c.(calls := HeldExcept(c.calls, keep));
    if off == {} then c1
    else
      var id :| id in off;
      Say(c1, c.calls[id].source, Held(c.calls[id], true).info)
  }

  function Say(c: Core, source: nat, info: CallInfo): Core {
    c.(log := Emit(c.log, source, info))
  }

  // ----- Counting and routing -----

  function LiveCount(c: Core): nat {
    |c.calls| + |c.ringing| + |c.accepting|
  }

  /** `call` is live with creation order `n` and known route `r`. */
  ghost predicate KnownRoute(c: Core, n: nat, r: Route) {
    || (exists id :: id in c.calls && c.calls[id].seqNo == n && c.calls[id].route == r)
    || (exists id :: id in c.ringing && c.ringing[id].seqNo == n
                     && c.ringing[id].source in c.cells && c.cells[c.ringing[id].source] == r)
  }

  /** `live_call_route`: the route of the oldest live call whose route is known. */
  ghost predicate OldestRoute(c: Core, r: Option<Route>) {
    match r
    case None => forall n: nat, q: Route :: !KnownRoute(c, n, q)
    case Some(route) =>
      exists n: nat :: KnownRoute(c, n, route) && forall m: nat, q: Route :: KnownRoute(c, m, q) ==> n <= m
  }

  /** The pin of a new outgoing call: the oldest known route, or failing that the route of a
      call that is being accepted. `accepting` was read before the locks were taken. */
  ghost predicate PinFor(c: Core, acceptingRoutes: seq<(string, Route)>, pin: Option<Route>) {
    || (pin.Some? && OldestRoute(c, pin))
    || (OldestRoute(c, None) &&
        match pin
        case Some(r) => exists i :: 0 <= i < |acceptingRoutes| && acceptingRoutes[i].1 == r
                                    && acceptingRoutes[i].0 in c.accepting
        case None => forall i :: 0 <= i < |acceptingRoutes| ==> acceptingRoutes[i].0 !in c.accepting)
  }

  // ----- Outgoing ids already used -----

  function UsedFlag(used: seq<(string, bool)>, id: string): Option<bool> {
    if used == [] then None
    else if used[0].0 == id then Some(used[0].1)
    else UsedFlag(used[1..], id)
  }

  function ClearFlag(used: seq<(string, bool)>, id: string): seq<(string, bool)> {
    if used == [] then []
    else if used[0].0 == id then [(id, false)] + used[1..]
    else [used[0]] + ClearFlag(used[1..], id)
  }

  function MarkUsed(used: seq<(string, bool)>, id: string, precancelled: bool): seq<(string, bool)> {
    var longer := used + [(id, precancelled)];
    if |longer| > USED_OUTGOING_IDS then longer[1..] else longer
  }

  /** A new `CallEvents` for outgoing id `id`, whose use is recorded. */
  function Mark(c: Core, id: string, precancelled: bool): Core {
    c.(used := MarkUsed(c.used, id, precancelled), marks := c.marks + [|c.ids|], ids := c.ids + [id])
  }

  // ----- Sections of outgoing calls -----

  /** `reserve_outgoing` without its pin. On success the new call is number `|c.ids|`. */
  function ReserveOutgoing(c: Core, id: string, hasToken: bool): (Core, Result<nat, MobileError>) {
    if !OutgoingId(id) then (c, Err(InvalidState))
    else
      match UsedFlag(c.used, id)
      case Some(true) => (c.(used := ClearFlag(c.used, id)), Err(Aborted))
      case Some(false) => (c, Err(InvalidState))
      case None =>
        if id in c.calls || id in c.ringing then (c, Err(InvalidState))
        else if LiveCount(c) >= MAX_LIVE_CALLS then (c, Err(InvalidState))
        else if !hasToken then (c, Err(AuthenticationError))
        else
          var source := |c.ids|;
          var info := InfoOf(id, Ringing);
          var c1 := Mark(c, id, false);
          var c2 := c1.(ringing := c1.ringing[id := Pending(source, info, c.nextSeq, false)],
                        nextSeq := c.nextSeq + 1);
          (Say(c2, source, info), Ok(source))
  }

  /** The request task stores the route it is about to try in the attempt cell. */
  function SetCell(c: Core, source: nat, route: Route): Core {
    c.(cells := c.cells[source := route])
  }

  /** `dial` marks its call as sent, if it still rings. */
  function MarkDialing(c: Core, id: string): Core {
    if id in c.ringing then c.(ringing := c.ringing[id := c.ringing[id].(dialing := true)]) else c
  }

  /** `take_ringing` */
  function TakeRinging(c: Core, id: string): (Core, Option<Pending>) {
    if id in c.ringing then (c.(ringing := c.ringing - {id}), Some(c.ringing[id])) else (c, None)
  }

  /** `dial` moves its answered call from ringing to connected, if it still rings. */
  ghost function ConnectDialed(c: Core, id: string, source: nat, answer: Answer): (Core, bool) {
    if id !in c.ringing then (c, false)
    else
      var c1 := HoldOthers(c.(ringing := c.ringing - {id}), id);
      var call := Active(source, InfoOf(id, Connected), c.ringing[id].seqNo, answer.token, answer.route, false);
      (Say(c1.(calls := c1.calls[id := call]), source, call.info), true)
  }

  // ----- Ending -----

  datatype Taken =
    | TakenActive(call: Active)
    | TakenRinging(pending: Pending)
    | NotYetMade(source: nat)
    | Missing

  /** The map entry goes; who took it owes the call's `Ended`. */
  function RemoveCall(c: Core, id: string): Core
    requires id in c.calls
  {
    c.(calls := c.calls - {id}, left := c.left[c.calls[id].source := |c.log.queue|])
  }

  /** `take_call` */
  function TakeCall(c: Core, id: string): (Core, Option<Active>) {
    if id in c.calls then (RemoveCall(c, id), Some(c.calls[id])) else (c, None)
  }

  /** `take_for_hangup` */
  function TakeForHangup(c: Core, id: string): (Core, Taken) {
    if id in c.calls then (RemoveCall(c, id), TakenActive(c.calls[id]))
    else if id in c.ringing then (c.(ringing := c.ringing - {id}), TakenRinging(c.ringing[id]))
    else if OutgoingId(id) && UsedFlag(c.used, id).None? then (Mark(c, id, true), NotYetMade(|c.ids|))
    else (c, Missing)
  }

  // ----- Call control -----

  function SetMute(c: Core, id: string, muted: bool): (Core, bool) {
    if id !in c.calls then (c, false)
    else
      var call := c.calls[id].(info := c.calls[id].info.(muted := muted));
      (Say(c.(calls := c.calls[id := call]), call.source, call.info), true)
  }

  ghost function SetHold(c: Core, id: string, onHold: bool): (Core, bool) {
    if id !in c.calls then (c, false)
    else
      var c1 := if onHold then c else HoldOthers(c, id);
      var call := Held(c1.calls[id], onHold);
      (Say(c1.(calls := c1.calls[id := call]), call.source, call.info), true)
  }

  /** `apply_hold` and, if that changed something, its event. */
  function SwitchHold(c: Core, id: string, onHold: bool): Core
    requires id in c.calls
  {
    var call := Held(c.calls[id], onHold);
    var c1 := c.(calls := c.calls[id := call]);
    if c.calls[id].info.onHold == onHold then c1 else Say(c1, call.source, call.info)
  }

  ghost function SwapCalls(c: Core, active: string, held: string): (Core, bool) {
    if active == held || active !in c.calls || held !in c.calls then (c, false)
    else (SwitchHold(HoldOthers(SwitchHold(c, active, true), held), held, false), true)
  }

  // ----- Sections of incoming calls -----

  function ReserveAccept(c: Core, token: string): (Core, bool) {
    if token in c.accepting || IncomingId(token) in c.calls then (c, false)
    else if LiveCount(c) >= MAX_LIVE_CALLS then (c, false)
    else (c.(accepting := c.accepting + {token}), true)
  }

  function ReleaseAccept(c: Core, token: string): Core {
    c.(accepting := c.accepting - {token})
  }

  /** `answer_offer` before it sends the accept: the events it will report with. */
  function BeginAccept(c: Core, token: string): (Core, nat) {
    if token in c.pending then
      (c.(pending := c.pending[token := c.pending[token].(accepting := true)]), c.pending[token].source)
    else (c.(ids := c.ids + [IncomingId(token)]), |c.ids|)
  }

  /** The gateway refused the accept: the call is still offered. */
  function RefuseAccept(c: Core, token: string): Core {
    if token in c.pending then c.(pending := c.pending[token := c.pending[token].(accepting := false)])
    else c
  }

  /** `watch_incoming`, for a new offer or for an accept that is given up. */
  function WatchIncoming(c: Core, token: string, route: Route, abandoned: bool): Core {
    if token in c.pending then
      var e := c.pending[token];
      c.(pending := c.pending[token := e.(abandoned := e.abandoned || abandoned,
                                          accepting := e.accepting && !abandoned)])
    else
      var id := IncomingId(token);
      c.(pending := c.pending[token := Offered(|c.ids|, InfoOf(id, Ended), route, false, abandoned, false)],
         ids := c.ids + [id])
  }

  /** `take_pending_incoming` */
  function TakeOffered(c: Core, token: string): (Core, Option<Offered>) {
    if token in c.pending then (c.(pending := c.pending - {token}), Some(c.pending[token])) else (c, None)
  }

  /** `answer_offer` after the gateway accepted: the call connects, unless it was already reported
      ended. Other calls are held only if it does connect. */
  ghost function ConnectAccepted(c: Core, token: string, source: nat, route: Route): (Core, bool) {
    var c1 := ReleaseAccept(c, token);
    if source in c.log.ended then (c1, false)
    else
      var id := IncomingId(token);
      var c2 := HoldOthers(c1, id);
      var call := Active(source, InfoOf(id, Connected), c.nextSeq, token, route, false);
      (Say(c2, source, call.info).(calls := c2.calls[id := call], nextSeq := c.nextSeq + 1), true)
  }

  /** What a poll of an offered call's status showed, after the `unknown` streak was counted. */
  datatype Seen = SawActive | SawGone(reason: EndReason) | SawOther

  datatype PollAction = Continue | Stop | Reject | HangUp

  /** The incoming watch acts on one status answer. */
  function WatchStatus(c: Core, token: string, seen: Seen): (Core, PollAction) {
    if token !in c.pending then (c, Stop)
    else
      var e := c.pending[token];
      var gone := c.(pending := c.pending - {token});
      match seen
      case SawActive =>
        if e.accepting then (gone, Stop)
        else if e.abandoned then (gone, HangUp)
        else (Say(gone, e.source, AsEnded(e.info, AnsweredElsewhere)), Stop)
      case SawGone(reason) =>
        if e.abandoned then (gone, Stop) else (Say(gone, e.source, AsEnded(e.info, reason)), Stop)
      case SawOther =>
        if e.abandoned && !e.rejected then
          (c.(pending := c.pending[token := e.(rejected := true)]), Reject)
        else (c, Continue)
  }
}
