/** Sending a request over several gateway instances (src/gateway_client.rs): the next one is tried only
    when the connection could not be established, so a request is delivered at most once. */
module Failover {
  import opened Types

  /** What one try of a route leads to. After anything but `CannotConnect` the gateway may have received
      the request. */
  datatype Try =
    | CannotConnect(timedOut: bool)
    | Lost(timedOut: bool)  // sent, but no answer
    | Response(status: nat)

  function ErrorOf(t: Try): MobileError
    requires !t.Response?
  {
    if t.timedOut then Timeout else NetworkError
  }

  /** The gateway's targets as resolved from its SRV records, if they are, and its base URL. */
  datatype Gateway = Gateway(resolved: seq<Route>, base: Route)

  function PrimaryRoute(g: Gateway): Route {
    if g.resolved == [] then g.base else g.resolved[0]
  }

  function Routes(g: Gateway): seq<Route> {
    if g.resolved == [] then [PrimaryRoute(g)] else g.resolved
  }

  /** The tries that may have reached a gateway. */
  function Deliveries(tries: seq<Try>): nat {
    if tries == [] then 0
    else Deliveries(tries[..|tries| - 1]) + if tries[|tries| - 1].CannotConnect? then 0 else 1
  }

  lemma {:induction false} NoDelivery(tries: seq<Try>)
    requires forall i :: 0 <= i < |tries| ==> tries[i].CannotConnect?
    ensures Deliveries(tries) == 0
  {
    if tries != [] { NoDelivery(tries[..|tries| - 1]); }
  }

  /** Every route tried before the last one could not be connected to. */
  predicate OnlyLastMayCount(tries: seq<Try>, tried: nat)
    requires tried <= |tries|
  {
    forall i :: 0 <= i < tried - 1 ==> tries[i].CannotConnect?
  }

  lemma AtMostOneDelivery(tries: seq<Try>, tried: nat)
    requires 0 < tried <= |tries| && OnlyLastMayCount(tries, tried)
    ensures Deliveries(tries[..tried]) == if tries[tried - 1].CannotConnect? then 0 else 1
  {
    assert tries[..tried][..tried - 1] == tries[..tried - 1];
    NoDelivery(tries[..tried - 1]);
  }

  /** `Placement::attempt`, shared with the cancel task. */
  class AttemptCell {
    var route: Option<Route>
    ghost var history: seq<Route>

    constructor ()
      ensures route.None? && history == []
    {
      route, history := None, [];
    }

    method Set(r: Route)
      modifies this
      ensures route == Some(r) && history == old(history) + [r]
    {
      route, history := Some(r), history + [r];
    }
  }

  /** `send_on`, with the cell that the request names its route in just before it is sent. `tries[i]` is
      what a try of `routes[i]` leads to. It returns the response and its route, and how many
      routes were tried. */
  method SendOn(routes: seq<Route>, tries: seq<Try>, cell: AttemptCell)
      returns (r: Result<(nat, Route), MobileError>, tried: nat)
    requires |tries| == |routes|
    modifies cell
    ensures tried <= |routes| && (routes != [] ==> tried > 0)
    ensures OnlyLastMayCount(tries, tried)
    ensures tried > 0 ==> Deliveries(tries[..tried]) <= 1
    ensures cell.history == old(cell.history) + routes[..tried]
    ensures tried > 0 ==> cell.route == Some(routes[tried - 1])
    ensures match r
            case Ok((status, route)) => tried > 0 && tries[tried - 1] == Response(status) && route == routes[tried - 1]
            case Err(e) =>
              || (tried == 0 && e == NetworkError)
              || (tried > 0 && tries[tried - 1].Lost? && e == ErrorOf(tries[tried - 1]))
              || (tried == |routes| > 0 && tries[tried - 1].CannotConnect? && e == ErrorOf(tries[tried - 1]))
    ensures r.Err? && tried > 0 ==> !tries[tried - 1].Response?
                                    && r.error == if tries[tried - 1].timedOut then Timeout else NetworkError
  {
    var lastErr := NetworkError;
    tried := 0;
    while tried < |routes|
      invariant tried <= |routes|
      invariant forall i :: 0 <= i < tried ==> tries[i].CannotConnect?
      invariant cell.history == old(cell.history) + routes[..tried]
      invariant tried > 0 ==> cell.route == Some(routes[tried - 1])
      invariant tried > 0 ==> Deliveries(tries[..tried]) <= 1
      invariant lastErr == if tried == 0 then NetworkError else ErrorOf(tries[tried - 1])
    {
      cell.Set(routes[tried]);
      tried := tried + 1;
      assert routes[..tried] == routes[..tried - 1] + [routes[tried - 1]];
      AtMostOneDelivery(tries, tried);
      match tries[tried - 1]
      case Response(status) => return Ok((status, routes[tried - 1])), tried;
      case Lost(_) => return Err(ErrorOf(tries[tried - 1])), tried;
      case CannotConnect(_) => lastErr := ErrorOf(tries[tried - 1]);
    }
    return Err(lastErr), tried;
  }

  /** The part of `make_call` that sends the request. A pinned call is placed on its pin only; another one
      on each route in turn, beginning with the one a cancel would go to before the cell is set. */
  method PlaceCall(g: Gateway, pin: Option<Route>, tries: seq<Try>, cell: AttemptCell)
      returns (r: Result<(nat, Route), MobileError>, tried: nat)
    requires |tries| == if pin.Some? then 1 else |Routes(g)|
    modifies cell
    ensures 0 < tried <= |tries| && OnlyLastMayCount(tries, tried) && Deliveries(tries[..tried]) <= 1
    ensures pin.Some? ==> cell.history == old(cell.history) + [pin.value]
    ensures pin.None? ==> cell.history == old(cell.history) + Routes(g)[..tried] && Routes(g)[0] == PrimaryRoute(g)
    ensures pin.None? && (forall i :: 0 <= i < |tries| ==> tries[i].CannotConnect?) ==>
              cell.history == old(cell.history) + if g.resolved == [] then [g.base] else g.resolved
    ensures r.Ok? ==> cell.route == Some(r.value.1)
    ensures r.Ok? <==> tries[tried - 1].Response?
  {
    var routes := if pin.Some? then [pin.value] else Routes(g);
    r, tried := SendOn(routes, tries, cell);
  }
}
