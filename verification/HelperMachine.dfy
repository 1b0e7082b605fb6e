/**
  The runtime helper as a state machine whose steps are single system calls, so that concurrent
  connections, per-connection timeouts and crashes can fall between any two of them.
*/
module HelperMachine {
  import opened Wrappers
  import opened RuntimeProtocol
  import opened StateDirectory

  type CallId = nat

  /** Where one connection stands in handle, restart, claim and complete. */
  datatype Pc =
    | Opening                                     // claim: exclusive create of the journal name
    | Writing(f: Inode)
    | Syncing(f: Inode)
    | SyncingClaim
    | Reading                                     // claim: the name already exists
    | Inspecting                                  // inspection before the restart
    | Launching(before: ContainerState)
    | Restarting(before: ContainerState)          // the command is out, its result is not in
    | Proving(before: ContainerState)             // inspection after the restart
    | OpeningTmp(resp: Response)                  // complete
    | WritingTmp(resp: Response, f: Inode)
    | SyncingTmp(resp: Response, f: Inode)
    | Renaming(resp: Response, f: Inode)
    | SyncingRename(resp: Response, f: Inode)
    | InspectingOnly
    | Answered(resp: Response)
    | Dead                                        // dropped by a timeout or a crash, no answer

  predicate Completing(pc: Pc) {
    pc.OpeningTmp? || pc.WritingTmp? || pc.SyncingTmp? || pc.Renaming? || pc.SyncingRename?
  }

  datatype Call = Call(id: Id, target: string, pc: Pc)

  /** One `restart_exact` command handed to Docker, and the enrolment in force at that moment. */
  datatype Issue = Issue(id: Id, call: CallId, target: string, config: HelperConfig)

  datatype Helper = Helper(config: HelperConfig, disk: Disk, calls: map<CallId, Call>, issued: seq<Issue>)

  datatype Event =
    | Arrive(call: CallId, peer: nat, request: Request)
    | Io(call: CallId, ok: bool, landed: bool, inode: Inode)
    | Probed(call: CallId, probe: Probe)
    | Launch(call: CallId)
    | Returned(call: CallId, ok: bool)
    | Abort(call: CallId)
    | CrashAndRestart(names: map<Name, Option<Inode>>, files: map<Inode, Content>, config: HelperConfig)

  function Init(config: HelperConfig): Helper {
    Helper(config, EMPTY, map[], [])
  }

  function Goto(h: Helper, c: CallId, pc: Pc): Helper
    requires c in h.calls
  {
    h.(calls := h.calls[c := h.calls[c].(pc := pc)])
  }

  function ClaimFailed(id: Id): Response { Reject(id, InternalError, NotStarted) }

  function StartedRecord(call: Call): Record {
    Record(call.id, call.target, Started, None)
  }

  function FinishedRecord(call: Call, resp: Response): Record {
    Record(call.id, call.target, Finished, Some(resp))
  }

  /** What `complete` failing means for the caller: a rejection stands, a success becomes unproven. */
  function CompletionFailed(id: Id, resp: Response): Response {
    if resp.outcome.Succeeded? then Reject(id, InternalError, Ambiguous) else resp
  }

  /** The answer to a repeated request, from what the journal name holds now. */
  function Replay(call: Call, content: Content): Response {
    match content
    case Torn => ClaimFailed(call.id)
    case Whole(r) =>
      if r.requestId == call.id && r.targetId == call.target && r.status.Finished? && r.response.Some?
      then r.response.value.(duplicate := true)
      else Reject(call.id, DuplicateAmbiguous, Ambiguous)
  }

  function ArriveStep(h: Helper, c: CallId, peer: nat, request: Request): Helper {
    if c in h.calls then h else
    var pc :=
      match Gate(h.config, peer, request)
      case Some(code) => Answered(Reject(request.requestId, code, NotStarted))
      case None => if request.action.Inspect? then InspectingOnly else Opening;
    h.(calls := h.calls[c := Call(request.requestId, request.action.targetId, pc)])
  }

  /** One system call of `claim`: what the disk and the call's position become. */
  function ClaimIo(call: Call, d: Disk, ok: bool, landed: bool, inode: Inode): (Disk, Pc) {
    var failed := Answered(ClaimFailed(call.id));
    match call.pc
    case Opening =>
      if !Missing(d, call.id) then (d, Reading)
      else if !ok || inode in d.files then (d, failed)
      else (Create(d, Json(call.id), inode), Writing(inode))
    case Writing(f) =>
      if f !in d.files then (d, call.pc)
      else (if ok || landed then Put(d, f, Whole(StartedRecord(call))) else d, if ok then Syncing(f) else failed)
    case Syncing(f) =>
      if f !in d.files then (d, call.pc)
      else if ok then (SyncFile(d, f), SyncingClaim)
      else (d, failed)
    case SyncingClaim =>
      if ok then (SyncDirectory(d), Inspecting) else (d, failed)
    case Reading =>
      var now := Look(d, Json(call.id)).now;
      (d, if ok && now.Some? && now.value in d.files then Answered(Replay(call, d.files[now.value].now)) else failed)
    case _ => (d, call.pc)
  }

  /** One system call of `complete`. */
  function CompleteIo(call: Call, d: Disk, ok: bool, landed: bool, inode: Inode): (Disk, Pc) {
    match call.pc
    case OpeningTmp(resp) =>
      var failed := Answered(CompletionFailed(call.id, resp));
      var now := Look(d, Tmp(call.id)).now;
      if !ok then (d, failed)
      else if now.Some? && now.value in d.files then (Put(d, now.value, Torn), WritingTmp(resp, now.value))
      else if inode in d.files then (d, failed)
      else (Create(d, Tmp(call.id), inode), WritingTmp(resp, inode))
    case WritingTmp(resp, f) =>
      if f !in d.files then (d, call.pc)
      else (if ok || landed then Put(d, f, Whole(FinishedRecord(call, resp))) else d,
            if ok then SyncingTmp(resp, f) else Answered(CompletionFailed(call.id, resp)))
    case SyncingTmp(resp, f) =>
      if f !in d.files then (d, call.pc)
      else if ok then (SyncFile(d, f), Renaming(resp, f))
      else (d, Answered(CompletionFailed(call.id, resp)))
    case Renaming(resp, f) =>
      if ok && Look(d, Tmp(call.id)).now.Some? then (Rename(d, call.id), SyncingRename(resp, f))
      else (d, Answered(CompletionFailed(call.id, resp)))
    case SyncingRename(resp, f) =>
      if ok then (SyncDirectory(d), Answered(resp))
      else (d, Answered(CompletionFailed(call.id, resp)))
    case _ => (d, call.pc)
  }

  function ClaimStep(h: Helper, c: CallId, ok: bool, landed: bool, inode: Inode): Helper
    requires c in h.calls
  {
    var (d, pc) := ClaimIo(h.calls[c], h.disk, ok, landed, inode);
    Goto(h.(disk := d), c, pc)
  }

  function CompleteStep(h: Helper, c: CallId, ok: bool, landed: bool, inode: Inode): Helper
    requires c in h.calls
  {
    var (d, pc) := CompleteIo(h.calls[c], h.disk, ok, landed, inode);
    Goto(h.(disk := d), c, pc)
  }

  function ProbeStep(h: Helper, c: CallId, probe: Probe): Helper
    requires c in h.calls
  {
    var call := h.calls[c];
    var found := InspectEnrolled(h.config, probe);
    match call.pc
    case Inspecting =>
      if found.Ok? then Goto(h, c, Launching(found.value))
      else Goto(h, c, OpeningTmp(Reject(call.id, found.error, NotStarted)))
    case Proving(before) =>
      if found.Err? then Goto(h, c, Answered(Reject(call.id, RestartAmbiguous, Ambiguous)))
      else if !found.value.Running() then Goto(h, c, Answered(Reject(call.id, RestartDidNotStart, Ambiguous)))
      else Goto(h, c, OpeningTmp(Reply(call.id, Restarted(before, found.value))))
    case InspectingOnly =>
      if found.Ok? then Goto(h, c, Answered(Reply(call.id, Inspected(found.value))))
      else Goto(h, c, Answered(Reject(call.id, found.error, NotStarted)))
    case _ => h
  }

  function LaunchStep(h: Helper, c: CallId): Helper
    requires c in h.calls
  {
    var call := h.calls[c];
    if !call.pc.Launching? then h else
    Goto(h.(issued := h.issued + [Issue(call.id, c, call.target, h.config)]), c, Restarting(call.pc.before))
  }

  function ReturnStep(h: Helper, c: CallId, ok: bool): Helper
    requires c in h.calls
  {
    var call := h.calls[c];
    if !call.pc.Restarting? then h
    else if ok then Goto(h, c, Proving(call.pc.before))
    else Goto(h, c, Answered(Reject(call.id, RestartAmbiguous, Ambiguous)))
  }

  function Kill(call: Call): Call {
    if call.pc.Answered? then call else call.(pc := Dead)
  }

  function CrashStep(h: Helper, names: map<Name, Option<Inode>>, files: map<Inode, Content>,
    config: HelperConfig): Helper {
    if !MayRemain(h.disk, names, files) then h else
    Helper(config, Crash(h.disk, names, files), map c | c in h.calls :: Kill(h.calls[c]), h.issued)
  }

  /** A step that is not enabled changes nothing, so every sequence of events is a run. */
  function Step(h: Helper, e: Event): Helper {
    match e
    case Arrive(c, peer, request) => ArriveStep(h, c, peer, request)
    case Io(c, ok, landed, inode) =>
      if c !in h.calls then h
      else if Completing(h.calls[c].pc) then CompleteStep(h, c, ok, landed, inode)
      else ClaimStep(h, c, ok, landed, inode)
    case Probed(c, probe) => if c in h.calls then ProbeStep(h, c, probe) else h
    case Launch(c) => if c in h.calls then LaunchStep(h, c) else h
    case Returned(c, ok) => if c in h.calls then ReturnStep(h, c, ok) else h
    case Abort(c) => if c in h.calls then h.(calls := h.calls[c := Kill(h.calls[c])]) else h
    case CrashAndRestart(names, files, config) => CrashStep(h, names, files, config)
  }

  function Run(h: Helper, es: seq<Event>): Helper
    decreases |es|
  {
    if es == [] then h else Run(Step(h, es[0]), es[1..])
  }
}
