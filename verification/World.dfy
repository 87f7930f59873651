/** The engine with everything that runs around it: any number of outgoing attempts, accepts,
    watches, polls, transfers and call controls, interleaved between atomic sections, and a
    gateway that answers anything at any time. A run is any sequence of steps that can happen.

    The application keeps one rule: an id or a call token is not used again while an earlier
    `make_call_with_id` or `accept_incoming_call` for the same one is still running, unless the engine
    refuses it anyway. It refuses a token that is being accepted or is connected, and an id that is
    among the last 256 used. */
module World {
  import opened Types
  import opened Events
  import opened Calls
  import opened CallsInvariant
  import Outgoing

  /** `accept_incoming_call` for one token. */
  datatype Accept =
    | Holding               // reserved, nothing sent yet
    | Sending(source: nat)  // the accept is with the gateway
    | Forsaking(source: nat)  // unknown outcome; the failure is still to be reported
    | Cleared(source: nat)  // accepted; the offer is no longer watched
    | Closing(slot: bool)   // about to return, with its slot still reserved or not

  /** Whether the hang-up procedure follows once the `Ended` has been queued. */
  datatype HangUpPlan = NoHangUp | IfToken | Always

  /** An `Ended` owed by whoever took the call. */
  datatype Debt = Debt(info: CallInfo, plan: HangUpPlan)

  /** `rejecting` are the offers taken by `reject_incoming_call` whose `Ended` is still to come;
      `hangUps` and `rejects` count the hang-up procedures and reject requests started for an
      incoming call. `pins` are the routes that calls made while another was live must use. */
  datatype World = World(
    core: Core,
    attempts: map<nat, Outgoing.Attempt>,
    accepts: map<string, Accept>,
    debts: map<nat, Debt>,
    rejecting: set<nat>,
    hangUps: multiset<nat>,
    rejects: multiset<nat>,
    pins: map<nat, Route>)

  const START: World := World(INITIAL, map[], map[], map[], {}, multiset{}, multiset{}, map[])

  /** Steps of an outgoing call until it is connected or given up. */
  datatype DialStep =
    | Reserve(id: string, hasToken: bool, acceptingRoutes: seq<(string, Route)>, pin: Option<Route>)
    | Tries(k: nat, route: Route)
    | MediaFails(k: nat)
    | MarksDialing(k: nat)
    | Joins(k: nat)
    | Connects(k: nat)
    | ReportsCancelled(k: nat)
    | Acts(k: nat, act: Outgoing.Act)

  /** Hangup by the user, by a poll or a transfer, and what whoever took the call does next. */
  datatype EndStep =
    | HangsUp(id: string)
    | Removes(id: string, reason: EndReason, hangUp: bool)
    | PaysDebt(k: nat, hasToken: bool)

  datatype ControlStep =
    | Mutes(id: string, muted: bool)
    | Holds(id: string, onHold: bool)
    | Swaps(active: string, held: string)

  /** Steps of an offered incoming call. */
  datatype OfferStep =
    | Offers(token: string, route: Route)
    | Rejects(token: string)
    | ReportsRejected(k: nat)
    | Watches(token: string, seen: Seen)

  /** Steps of `accept_incoming_call`. */
  datatype AcceptStep =
    | AcceptReserves(token: string)
    | AcceptFailsEarly(token: string)
    | AcceptBegins(token: string)
    | AcceptRefused(token: string)
    | AcceptUnknown(token: string, route: Route)
    | AcceptReportsFailed(token: string)
    | AcceptClears(token: string)
    | AcceptConnects(token: string, route: Route)
    | AcceptReturns(token: string)

  datatype Step =
    | Dialling(dial: DialStep)
    | Ending(end: EndStep)
    | Control(control: ControlStep)
    | Offering(offer: OfferStep)
    | Accepting(accept: AcceptStep)

  /** Acts of an attempt that touch none of the shared maps and queue nothing. */
  predicate Private(act: Outgoing.Act) {
    act.SetupSeesCancel? || act.RequestReturns? || act.SeesCancel? || act.SignalsCancel? || act.DecidesCancel?
    || act.CancelAnswered? || act.RetryDue? || act.RetryCutShort? || act.LateGetsAnswer? || act.LateSeesOutcome?
    || act.LateSeesClosed? || act.LateTimesOut?
  }

  predicate CanAct(w: World, k: nat, act: Outgoing.Act) {
    k in w.attempts && k < |w.core.ids| && Outgoing.Can(w.attempts[k], act)
  }

  function Act(w: World, k: nat, act: Outgoing.Act): World
    requires CanAct(w, k, act)
  {
    w.(attempts := w.attempts[k := Outgoing.Do(w.attempts[k], act)])
  }

  /** The application's rule for outgoing ids. */
  predicate NotRunning(w: World, id: string) {
    forall k :: k in w.attempts && k < |w.core.ids| && w.core.ids[k] == id ==> w.attempts[k].dial.Returned?
  }

  ghost predicate CanDial(w: World, step: DialStep) {
    match step
    case Reserve(id, hasToken, acceptingRoutes, pin) =>
      ReserveOutgoing(w.core, id, hasToken).1.Ok? ==> NotRunning(w, id) && PinFor(w.core, acceptingRoutes, pin)
    case Tries(k, route) =>
      k in w.attempts && k < |w.core.ids| && w.attempts[k].request.InFlight? && (k in w.pins ==> route == w.pins[k])
    case MediaFails(k) => CanAct(w, k, Outgoing.MediaFails)
    case MarksDialing(k) => CanAct(w, k, Outgoing.MarksDialing)
    case Joins(k) => CanAct(w, k, Outgoing.JoinsRequest)
    case Connects(k) => CanAct(w, k, Outgoing.Connects)
    case ReportsCancelled(k) => CanAct(w, k, Outgoing.ReportsEnded)
    case Acts(k, act) =>
      && CanAct(w, k, act) && Private(act)
      && (act.RequestReturns? && act.answer.Some? ==>
            k in w.core.cells && w.core.cells[k] == act.answer.value.route)
  }

  predicate CanEnd(w: World, step: EndStep) {
    step.PaysDebt? ==> step.k in w.debts
  }

  predicate CanOffer(w: World, step: OfferStep) {
    step.ReportsRejected? ==> step.k in w.rejecting && step.k < |w.core.ids|
  }

  predicate CanAccept(w: World, step: AcceptStep) {
    var t := step.token;
    match step
    case AcceptReserves(_) => ReserveAccept(w.core, t).1 ==> t !in w.accepts
    case AcceptFailsEarly(_) => t in w.accepts && w.accepts[t].Holding?
    case AcceptBegins(_) => t in w.accepts && w.accepts[t].Holding?
    case AcceptRefused(_) => t in w.accepts && w.accepts[t].Sending?
    case AcceptUnknown(_, _) => t in w.accepts && w.accepts[t].Sending?
    case AcceptReportsFailed(_) => t in w.accepts && w.accepts[t].Forsaking?
    case AcceptClears(_) => t in w.accepts && w.accepts[t].Sending?
    case AcceptConnects(_, _) => t in w.accepts && w.accepts[t].Cleared?
    case AcceptReturns(_) => t in w.accepts && w.accepts[t].Closing?
  }

  ghost predicate Can(w: World, step: Step) {
    match step
    case Dialling(dial) => CanDial(w, dial)
    case Ending(end) => CanEnd(w, end)
    case Control(_) => true
    case Offering(offer) => CanOffer(w, offer)
    case Accepting(accept) => CanAccept(w, accept)
  }

  /** A call has been taken out of `calls`; its `Ended` is owed. */
  function Owe(w: World, c': Core, call: Active, reason: EndReason, plan: HangUpPlan): World {
    var k := call.source;
    w.(core := c',
       debts := w.debts[k := Debt(AsEnded(call.info, reason), plan)],
       attempts := if CanAct(w, k, Outgoing.IsRemoved) then Act(w, k, Outgoing.IsRemoved).attempts else w.attempts)
  }

  /** `dial` fails and takes its call, unless a hangup already has. */
  function FailDial(w: World, k: nat, act: Outgoing.Act): World
    requires CanAct(w, k, act)
  {
    var (c', p) := TakeRinging(w.core, w.core.ids[k]);
    var w' := Act(w, k, act).(core := c');
    if p.Some? then w'.(debts := w.debts[p.value.source := Debt(AsEnded(p.value.info, Failed), NoHangUp)]) else w'
  }

  ghost function DoDial(w: World, step: DialStep): World
    requires CanDial(w, step)
  {
    var c := w.core;
    match step
    case Reserve(id, hasToken, _, pin) =>
      var (c', r) := ReserveOutgoing(c, id, hasToken);
      if r.Ok? then
        w.(core := c', attempts := w.attempts[r.value := Outgoing.FRESH],
           pins := if pin.Some? then w.pins[r.value := pin.value] else w.pins)
      else w.(core := c')
    case Tries(k, route) => w.(core := SetCell(c, k, route))
    case MediaFails(k) => FailDial(w, k, Outgoing.MediaFails)
    case MarksDialing(k) => Act(w, k, Outgoing.MarksDialing).(core := MarkDialing(c, c.ids[k]))
    case Joins(k) =>
      if w.attempts[k].request.answer.Some? then Act(w, k, Outgoing.JoinsRequest)
      else FailDial(w, k, Outgoing.JoinsRequest)
    case Connects(k) =>
      Act(w, k, Outgoing.Connects).(core := ConnectDialed(c, c.ids[k], k, w.attempts[k].dial.answer).0)
    case ReportsCancelled(k) =>
      Act(w, k, Outgoing.ReportsEnded).(core := Say(c, k, AsEnded(InfoOf(c.ids[k], Ringing), Cancelled)))
    case Acts(k, act) => Act(w, k, act)
  }

  function DoEnd(w: World, step: EndStep): World
    requires CanEnd(w, step)
  {
    var c := w.core;
    match step
    case HangsUp(id) =>
      (match TakeForHangup(c, id)
       case (c', TakenActive(call)) => Owe(w, c', call, LocalHangup, IfToken)
       case (c', TakenRinging(p)) =>
         if CanAct(w, p.source, Outgoing.IsTaken) then Act(w, p.source, Outgoing.IsTaken).(core := c')
         else w.(core := c')
       case (c', NotYetMade(k)) =>
         w.(core := c', debts := w.debts[k := Debt(AsEnded(InfoOf(id, Ended), Cancelled), NoHangUp)])
       case (c', Missing) => w.(core := c'))
    case Removes(id, reason, hangUp) =>
      (match TakeCall(c, id)
       case (c', Some(call)) => Owe(w, c', call, reason, if hangUp then Always else NoHangUp)
       case (c', None) => w)
    case PaysDebt(k, hasToken) =>
      var hangUp := w.debts[k].plan.Always? || (w.debts[k].plan.IfToken? && hasToken);
      var w' := w.(core := Say(c, k, w.debts[k].info), debts := w.debts - {k});
      if CanAct(w, k, Outgoing.IsClosed(hangUp))
      then w'.(attempts := Act(w, k, Outgoing.IsClosed(hangUp)).attempts)
      else if hangUp then w'.(hangUps := w.hangUps + multiset{k}) else w'
  }

  ghost function DoControl(w: World, step: ControlStep): World
  {
    var c := w.core;
    match step
    case Mutes(id, muted) => w.(core := SetMute(c, id, muted).0)
    case Holds(id, onHold) => w.(core := SetHold(c, id, onHold).0)
    case Swaps(active, held) => w.(core := SwapCalls(c, active, held).0)
  }

  function DoOffer(w: World, step: OfferStep): World
    requires CanOffer(w, step)
  {
    var c := w.core;
    match step
    case Offers(t, route) => w.(core := WatchIncoming(c, t, route, false))
    case Rejects(t) =>
      (match TakeOffered(c, t)
       case (c', Some(e)) => w.(core := c', rejecting := w.rejecting + {e.source})
       case (c', None) => w)
    case ReportsRejected(k) =>
      w.(core := Say(c, k, AsEnded(InfoOf(c.ids[k], Ended), Rejected)), rejecting := w.rejecting - {k})
    case Watches(t, seen) =>
      var (c', action) := WatchStatus(c, t, seen);
      w.(core := c',
         hangUps := if action.HangUp? then w.hangUps + multiset{c.pending[t].source} else w.hangUps,
         rejects := if action.Reject? then w.rejects + multiset{c.pending[t].source} else w.rejects)
  }

  ghost function DoAccept(w: World, step: AcceptStep): World
    requires CanAccept(w, step)
  {
    var c := w.core;
    match step
    case AcceptReserves(t) =>
      var (c', ok) := ReserveAccept(c, t);
      if ok then w.(core := c', accepts := w.accepts[t := Holding]) else w
    case AcceptFailsEarly(t) => w.(accepts := w.accepts[t := Closing(true)])
    case AcceptBegins(t) =>
      var (c', k) := BeginAccept(c, t);
      w.(core := c', accepts := w.accepts[t := Sending(k)])
    case AcceptRefused(t) => w.(core := RefuseAccept(c, t), accepts := w.accepts[t := Closing(true)])
    case AcceptUnknown(t, route) =>
      w.(core := WatchIncoming(c, t, route, true), accepts := w.accepts[t := Forsaking(w.accepts[t].source)])
    case AcceptReportsFailed(t) =>
      w.(core := Say(c, w.accepts[t].source, AsEnded(InfoOf(IncomingId(t), Connected), Failed)),
         accepts := w.accepts[t := Closing(true)])
    case AcceptClears(t) =>
      w.(core := TakeOffered(c, t).0, accepts := w.accepts[t := Cleared(w.accepts[t].source)])
    case AcceptConnects(t, route) =>
      var k := w.accepts[t].source;
      var (c', connected) := ConnectAccepted(c, t, k, route);
      w.(core := c', accepts := w.accepts[t := Closing(false)],
         hangUps := if connected then w.hangUps else w.hangUps + multiset{k})
    case AcceptReturns(t) => w.(core := ReleaseAccept(c, t), accepts := w.accepts - {t})
  }

  ghost function Do(w: World, step: Step): World
    requires Can(w, step)
  {
    match step
    case Dialling(dial) => DoDial(w, dial)
    case Ending(end) => DoEnd(w, end)
    case Control(control) => DoControl(w, control)
    case Offering(offer) => DoOffer(w, offer)
    case Accepting(accept) => DoAccept(w, accept)
  }

  /** The state after more steps, if each of them could happen. */
  ghost function RunFrom(w: World, steps: seq<Step>): Option<World> {
    if steps == [] then Some(w)
    else
      match RunFrom(w, steps[..|steps| - 1])
      case None => None
      case Some(v) => if Can(v, steps[|steps| - 1]) then Some(Do(v, steps[|steps| - 1])) else None
  }

  /** A run of the engine from its creation. */
  ghost function Run(steps: seq<Step>): Option<World> {
    RunFrom(START, steps)
  }
}
