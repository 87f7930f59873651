/** Values shared by every part of the model: what is reported about a call, and the errors
    the engine returns. */
module Types {

  datatype Option<+T> = None | Some(value: T)

  datatype Result<+T, +E> = Ok(value: T) | Err(error: E)

  /** The states the engine reports; the other states of the public type are never queued. */
  datatype CallState = Ringing | Connected | OnHold | Ended

  datatype CallDirection = Inbound | Outbound

  datatype EndReason =
    | LocalHangup
    | RemoteHangup
    | CallerCancelled
    | AnsweredElsewhere
    | Rejected
    | Transferred
    | Failed
    | Cancelled

  datatype CallInfo = CallInfo(
    callId: string,
    direction: CallDirection,
    state: CallState,
    muted: bool,
    onHold: bool,
    endReason: Option<EndReason>)

  datatype MobileError =
    | NetworkError
    | AuthenticationError
    | CallFailed
    | InvalidState
    | GatewayError
    | Timeout
    | Aborted  // `MobileError::Cancelled`: the call was hung up while being made

  /** One gateway instance. */
  datatype Route = Route(url: string)

  /** What a successful `POST /v1/calls` brought back: the call token and the route that answered. */
  datatype Answer = Answer(token: string, route: Route)
}
