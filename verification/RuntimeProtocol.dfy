/** The messages exchanged with the host runtime helper, and the enrolment it enforces. */
module RuntimeProtocol {
  import opened Wrappers

  // Request ids are UUIDs in the source; only equality on them matters.
  type Id = nat

  const PROTOCOL_VERSION := 1

  datatype ContainerState = ContainerState(
    id: string,
    name: string,
    status: string,
    composeProject: Option<string>,
    composeService: Option<string>,
    controlPlane: bool)
  {
    predicate Running() { status == "running" }
  }

  datatype Command =
    | Inspect(targetId: string)
    | RestartContainer(targetId: string)

  datatype Request = Request(version: int, requestId: Id, credential: string, action: Command)

  datatype Disposition = NotStarted | Completed | Ambiguous

  datatype ErrorCode =
    | AuthenticationFailed
    | PeerNotAllowed
    | ProtocolVersionUnsupported
    | InvalidRequest
    | TargetNotEnrolled
    | TargetDisappeared
    | TargetReplaced
    | ControlPlaneTarget
    | SameControlPlaneProject
    | DockerDaemonUnavailable
    | RestartAmbiguous
    | RestartDidNotStart
    | DuplicateAmbiguous
    | InternalError

  datatype Success =
    | Inspected(state: ContainerState)
    | Restarted(before: ContainerState, after: ContainerState)

  datatype Outcome =
    | Succeeded(success: Success)
    | Rejected(code: ErrorCode, mutation: Disposition)

  datatype Response = Response(version: int, requestId: Id, duplicate: bool, outcome: Outcome)
  {
    predicate ClaimsNotStarted() { outcome.Rejected? && outcome.mutation == NotStarted }
    predicate ClaimsRestarted() { outcome.Succeeded? && outcome.success.Restarted? }
  }

  function Reply(id: Id, success: Success): Response {
    Response(PROTOCOL_VERSION, id, false, Succeeded(success))
  }

  function Reject(id: Id, code: ErrorCode, mutation: Disposition): Response {
    Response(PROTOCOL_VERSION, id, false, Rejected(code, mutation))
  }

  datatype EnrolledTarget = EnrolledTarget(id: string, name: string, composeProject: Option<string>)

  datatype HelperConfig = HelperConfig(
    allowedPeer: nat,
    credential: string,
    controlPlaneProject: string,
    target: EnrolledTarget,
    denied: set<string>)

  /** The gates every request passes before it may touch Docker or the journal. */
  function Gate(config: HelperConfig, peer: nat, request: Request): Option<ErrorCode> {
    if request.version != PROTOCOL_VERSION then Some(ProtocolVersionUnsupported)
    else if peer != config.allowedPeer then Some(PeerNotAllowed)
    else if request.credential != config.credential then Some(AuthenticationFailed)
    else if request.action.targetId != config.target.id then Some(TargetNotEnrolled)
    else None
  }

  datatype BackendError = DaemonUnavailable | NotFound | Timeout | CommandFailed | InvalidInspectOutput | Io

  /** What Docker answered to the three read-only commands of one enrolment inspection. */
  datatype Probe = Probe(
    daemonUp: bool,
    byId: Result<ContainerState, BackendError>,
    byName: Result<ContainerState, BackendError>)

  function InspectRejection(error: BackendError): ErrorCode {
    match error
    case NotFound => TargetDisappeared
    case DaemonUnavailable => DockerDaemonUnavailable
    case Timeout => DockerDaemonUnavailable
    case Io => DockerDaemonUnavailable
    case CommandFailed => InternalError
    case InvalidInspectOutput => InternalError
  }

  /** What an operator enrolled: the exact container, never part of the control plane. */
  predicate Enrolled(config: HelperConfig, state: ContainerState) {
    && state.id == config.target.id
    && state.name == config.target.name
    && state.composeProject == config.target.composeProject
    && state.composeProject != Some(config.controlPlaneProject)
    && !state.controlPlane
    && state.id !in config.denied
  }

  /** One inspection of the enrolled target, with the checks in the helper's order. It passes exactly
      when Docker answered, the id and the name still lead to the enrolled container, and that
      container is what was enrolled. */
  function InspectEnrolled(config: HelperConfig, probe: Probe): (r: Result<ContainerState, ErrorCode>)
    ensures r.Ok? <==>
      && probe.daemonUp && probe.byId.Ok? && probe.byName.Ok?
      && probe.byName.value.id == config.target.id
      && Enrolled(config, probe.byId.value)
    ensures r.Ok? ==> r.value == probe.byId.value
    ensures r.Err? ==> r.error !in {RestartAmbiguous, RestartDidNotStart, DuplicateAmbiguous}
  {
    if !probe.daemonUp then Err(DockerDaemonUnavailable)
    else if probe.byId.Err? then Err(InspectRejection(probe.byId.error))
    else if probe.byName.Err? then Err(InspectRejection(probe.byName.error))
    else
      var target, named := probe.byId.value, probe.byName.value;
      if target.id != config.target.id || named.id != config.target.id || target.name != config.target.name then
        Err(TargetReplaced)
      else if target.controlPlane || target.id in config.denied then
        Err(ControlPlaneTarget)
      else if target.composeProject == Some(config.controlPlaneProject) then
        Err(SameControlPlaneProject)
      else if target.composeProject != config.target.composeProject then
        Err(TargetReplaced)
      else
        Ok(target)
  }
}
