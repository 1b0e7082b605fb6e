/** What the worker's client of the runtime helper may conclude from a lossy socket. */
module RuntimeClient {
  import opened Wrappers
  import opened RuntimeProtocol

  const MAX_MESSAGE_BYTES := 16384

  datatype HelperError =
    | InvalidTarget
    | InvalidSocketPath
    | CredentialMissing
    | InvalidTimeout
    | HelperUnavailable
    | ResponseTimeout(mutation: Disposition)
    | ResponseLost(mutation: Disposition)
    | HelperRejected(code: ErrorCode, mutation: Disposition)
    | InvalidResponse(mutation: Disposition)
    | UnexpectedResponse(mutation: Disposition)
    | RequestTooLarge
    | UnsupportedPlatform

  function MutationDisposition(e: HelperError): Disposition {
    match e
    case ResponseTimeout(m) => m
    case ResponseLost(m) => m
    case InvalidResponse(m) => m
    case UnexpectedResponse(m) => m
    case HelperRejected(_, m) => m
    case _ => NotStarted
  }

  /** What came back on the socket before it closed. */
  datatype Received = Oversized | NotJson | Parsed(resp: Response)

  /** How one exchange went, up to the first failure. */
  datatype Traffic =
    | EncodingFailed
    | NoConnection
    | WriteFailed
    | ShutdownFailed
    | ReadTimedOut
    | ReadFailed
    | Read(received: Received)

  /** Whether any byte of a request of `size` bytes can have reached the helper. */
  predicate Sent(size: nat, t: Traffic) {
    size + 1 <= MAX_MESSAGE_BYTES && !t.EncodingFailed? && !t.NoConnection?
  }

  function Exchange(id: Id, size: nat, mutating: bool, t: Traffic): Result<Response, HelperError> {
    var sent := if mutating then Ambiguous else NotStarted;
    if t.EncodingFailed? then Err(InvalidResponse(NotStarted))
    else if size + 1 > MAX_MESSAGE_BYTES then Err(RequestTooLarge)
    else match t
      case NoConnection => Err(HelperUnavailable)
      case WriteFailed => Err(ResponseLost(sent))
      case ShutdownFailed => Err(ResponseLost(sent))
      case ReadTimedOut => Err(ResponseTimeout(sent))
      case ReadFailed => Err(ResponseLost(sent))
      case Read(Oversized) => Err(InvalidResponse(sent))
      case Read(NotJson) => Err(InvalidResponse(sent))
      case Read(Parsed(resp)) =>
        if resp.version != PROTOCOL_VERSION || resp.requestId != id then Err(InvalidResponse(sent)) else Ok(resp)
  }

  predicate ValidTargetId(target: string) {
    |target| == 64 && forall c | c in target :: '0' <= c <= '9' || 'a' <= c <= 'f' || 'A' <= c <= 'F'
  }

  datatype Restart = Restart(before: ContainerState, after: ContainerState, duplicate: bool)

  function RequestRestart(id: Id, target: string, size: nat, t: Traffic): Result<Restart, HelperError> {
    if !ValidTargetId(target) then Err(InvalidTarget)
    else match Exchange(id, size, true, t)
      case Err(e) => Err(e)
      case Ok(resp) =>
        match resp.outcome
        case Succeeded(Restarted(before, after)) => Ok(Restart(before, after, resp.duplicate))
        case Succeeded(Inspected(_)) => Err(UnexpectedResponse(Ambiguous))
        case Rejected(code, mutation) => Err(HelperRejected(code, mutation))
  }

  /** The client says NotStarted only when nothing was sent or the helper itself said so, and reports
      a restart only when the helper reported one for this very request. */
  lemma ClientIsSound(id: Id, target: string, size: nat, t: Traffic)
    ensures var r := RequestRestart(id, target, size, t);
      && (r.Err? && MutationDisposition(r.error) == NotStarted <==>
            || !ValidTargetId(target) || !Sent(size, t)
            || (t.Read? && t.received.Parsed? && t.received.resp.ClaimsNotStarted()
                && t.received.resp.requestId == id && t.received.resp.version == PROTOCOL_VERSION))
      && (r.Ok? <==>
            && ValidTargetId(target) && Sent(size, t) && t.Read? && t.received.Parsed?
              && t.received.resp.ClaimsRestarted()
            && t.received.resp.requestId == id && t.received.resp.version == PROTOCOL_VERSION)
  {
  }
}
