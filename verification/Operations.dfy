/**
  The whole restart protocol: job handlers that plan, execute and verify one operation per incident,
  the administrator, the other pipelines, and the runtime helper behind a lossy socket.

  A handler's steps are its database statements and its messages; between any two of them any other
  step of the system may come, and a worker may stop for good.
*/
module Operations {
  import opened Wrappers
  import opened Policy
  import opened RuntimeProtocol
  import opened RuntimeClient
  import opened OperationsDb
  import H = HelperMachine
  import Q = JobQueue

  type Worker = Q.Worker

  /** Where a job handler stands, with the incident and action it works on. */
  datatype Task =
    | PlanStart(i: IncidentId)
    | PlanBegin(i: IncidentId, paused: bool, mode: SafetyMode)
    | PlanDecide(i: IncidentId, paused: bool, mode: SafetyMode)
    | PlanPersist(i: IncidentId, paused: bool, mode: SafetyMode, target: string, required: nat)
    | PlanApply(i: IncidentId, a: Id, context: OperationsContext)
    | PlanEnqueue(i: IncidentId, a: Id, context: OperationsContext)
    | MoveIncident(i: IncidentId, from: IncidentState, next: IncidentState)
    | ExecStart(i: IncidentId, a: Id)
    | ExecHold(i: IncidentId, a: Id)
    | ExecLoad(i: IncidentId, a: Id)
    | ExecClaim(i: IncidentId, a: Id, target: string)
    | ExecSend(i: IncidentId, a: Id, target: string)
    | ExecWait(i: IncidentId, a: Id, target: string)
    | ExecReport(i: IncidentId, a: Id, result: Result<Restart, HelperError>)
    | ExecUnclear(i: IncidentId, a: Id)
    | BeginVerify(i: IncidentId, a: Id)
    | EnqueueVerify(i: IncidentId, a: Id, check: nat)
    | VerifyStart(i: IncidentId, a: Id, check: nat)
    | VerifyLoad(i: IncidentId, a: Id, check: nat)
    | VerifyProbe(i: IncidentId, a: Id, check: nat, required: nat)
    | VerifyFailed(i: IncidentId, a: Id)
    | VerifyPassed(i: IncidentId, a: Id)
    | VerifyResolve(i: IncidentId, a: Id)
    | EscalateNow(i: IncidentId)
    | Done(ok: bool)

  datatype Grant = GrantedByAdmin | GrantedByPolicy(context: OperationsContext)

  /** A restart request on its way to the helper. */
  datatype Message = Message(a: Id, target: string, credential: string)

  /** The one request sent for an action: for which incident, and the helper call it became. */
  datatype Dispatch = Dispatch(i: IncidentId, call: Option<H.CallId>)

  /**
    `sent`, `grants`, `cleared` and `checks` are history that no handler reads: the request sent for an
    action, what allowed its execution, whether its execution read protection as active, and the
    outcome of every verification check in order.
  */
  datatype Sys = Sys(
    db: Db,
    tasks: map<Worker, Task>,
    wire: set<Message>,
    helper: H.Helper,
    sent: map<Id, Dispatch>,
    grants: map<Id, Grant>,
    cleared: set<Id>,
    checks: map<Id, seq<bool>>)

  /** What the planning step learned from the model and the configuration. */
  datatype Decision =
    | ModelFailed
    | Delegate(available: bool)                   // to deployment recovery, whose job is not an operations job
    | HandOver                                    // observe only, or escalate
    | SelectRestart(target: string, configured: string, httpSelected: bool, required: nat)

  /** A statement may take effect and still be reported as an error when the connection drops. */
  datatype Write = Acked | Lost(applied: bool)

  datatype Event =
    | OpenIncident(i: IncidentId)
    | Administer(change: AdminEvent)
    | OtherPipeline(i: IncidentId, next: IncidentState)
    | EnqueuePlan(i: IncidentId, at: int)
    | ClaimJob(w: Worker, key: Key, now: int)
    | Report(w: Worker, now: int)
    | WorkerStops(w: Worker)
    | Statement(w: Worker, write: Write, at: int)
    | Decide(w: Worker, d: Decision, write: Write)
    | PersistAction(w: Worker, id: Id, enabled: bool, cooldownClear: bool, write: Write)
    | Send(w: Worker, client: Option<HelperError>, size: nat, t: Traffic, credential: string)
    | Deliver(m: Message, call: H.CallId, peer: nat)
    | LoseMessage(m: Message)
    | Receive(w: Worker, size: nat, t: Traffic)
    | Check(w: Worker, http: bool, container: bool)
    | HelperStep(e: H.Event)

  function Clamp(n: nat): nat { if n < 2 then 2 else if n > 3 then 3 else n }

  function Init(config: HelperConfig): Sys {
    Sys(Db(false, Safe, map[], map[], Q.Queue(map[], map[])), map[], {}, H.Init(config), map[], map[], {}, map[])
  }

  function Log(s: Sys, a: Id): seq<bool> { if a in s.checks then s.checks[a] else [] }

  function Next(s: Sys, w: Worker, t: Task): Sys { s.(tasks := s.tasks[w := t]) }

  /** The handler of worker `w` ran a statement leading to `db` and goes on with `t`. */
  function Wrote(s: Sys, w: Worker, write: Write, db: Db, t: Task): Sys {
    Next(if write == Lost(false) then s else s.(db := db), w, if write.Acked? then t else Done(false))
  }

  function Try(s: Sys, w: Worker, write: Write, r: Result<Db, DbError>, t: Task): Sys {
    match r
    case Ok(db) => Wrote(s, w, write, db, t)
    case Err(_) => Next(s, w, Done(false))
  }

  function FirstTask(key: Key): Task {
    match key
    case PlanKey(i) => PlanStart(i)
    case ExecuteKey(i, a) => ExecStart(i, a)
    case VerifyKey(i, a, check) => VerifyStart(i, a, check)
  }

  /** Statements of the planning handler. */
  function PlanStep(s: Sys, w: Worker, write: Write, at: int): Sys
    requires w in s.tasks
  {
    var db := s.db;
    match s.tasks[w]
    case PlanStart(i) =>
      if i !in db.incidents then Next(s, w, Done(false))
      else if db.incidents[i].CollectingContext? then
        Next(s, w, PlanBegin(i, db.paused, db.mode))
      else Next(s, w, if db.incidents[i].Diagnosing? then PlanDecide(i, db.paused, db.mode) else Done(true))
    case PlanBegin(i, paused, mode) =>
      Try(s, w, write, Transition(db, i, CollectingContext, Diagnosing), PlanDecide(i, paused, mode))
    case PlanApply(i, a, context) =>
      (match DecideOperations(Low, true, context)
       case Allow => Try(s, w, write, Transition(db, i, Planning, Repairing), PlanEnqueue(i, a, context))
       case RequireApproval =>
         Wrote(s, w, write, Mark(db, i, a, ApprovalRequired), MoveIncident(i, Planning, WaitingApproval))
       case Block =>
         Wrote(s, w, write, Mark(db, i, a, OnHold),
               if context.killSwitch then MoveIncident(i, Planning, Paused) else EscalateNow(i)))
    case PlanEnqueue(i, a, context) =>
      var s' := Wrote(s, w, write, Enqueue(db, ExecuteKey(i, a), 1, at), Done(true));
      if s'.db == s.db then s' else s'.(grants := s.grants[a := GrantedByPolicy(context)])
    case MoveIncident(i, from, next) => Try(s, w, write, Transition(db, i, from, next), Done(true))
    case EscalateNow(i) => Try(s, w, write, Escalate(db, i), Done(true))
    case _ => s
  }

  /** The verdict on an execution from what the client returned. */
  function Verdict(result: Result<Restart, HelperError>): ActionStatus {
    if result.Ok? then Executed
    else if MutationDisposition(result.error).NotStarted? then FailedClosed
    else Unclear
  }

  /** Statements of the executing handler. */
  function ExecStep(s: Sys, w: Worker, write: Write): Sys
    requires w in s.tasks
  {
    var db := s.db;
    match s.tasks[w]
    case ExecStart(i, a) =>
      if i !in db.incidents then Next(s, w, Done(false))
      else if !db.incidents[i].Repairing? then Next(s, w, Done(true))
      else if db.paused then Next(s, w, ExecHold(i, a))
      else Next(s.(cleared := s.cleared + {a}), w, ExecLoad(i, a))
    case ExecHold(i, a) => Wrote(s, w, write, Mark(db, i, a, OnHold), MoveIncident(i, Repairing, Paused))
    case ExecLoad(i, a) =>
      if !IsRow(db, i, a) then Next(s, w, Done(false))
      else
        Next(s, w, match db.actions[i].status
                   case Executed => BeginVerify(i, a)
                   case Running => ExecUnclear(i, a)
                   case Planned => ExecClaim(i, a, db.actions[i].target)
                   case _ => Done(true))
    case ExecClaim(i, a, target) =>
      if Claimable(db, i, a) then Wrote(s, w, write, Mark(db, i, a, Running), ExecSend(i, a, target))
      else Next(s, w, Done(true))
    case ExecReport(i, a, result) =>
      Wrote(s, w, write, Mark(db, i, a, Verdict(result)), if result.Ok? then BeginVerify(i, a) else EscalateNow(i))
    case ExecUnclear(i, a) => Wrote(s, w, write, Mark(db, i, a, Unclear), EscalateNow(i))
    case _ => s
  }

  /** Statements that begin and carry on verification. */
  function VerifyStep(s: Sys, w: Worker, write: Write, at: int): Sys
    requires w in s.tasks
  {
    var db := s.db;
    match s.tasks[w]
    case BeginVerify(i, a) =>
      Try(s, w, write, Transition(db, i, Repairing, VerifyingProduction), EnqueueVerify(i, a, 0))
    case EnqueueVerify(i, a, check) => Wrote(s, w, write, Enqueue(db, VerifyKey(i, a, check), 1, at), Done(true))
    case VerifyStart(i, a, check) =>
      if i !in db.incidents then Next(s, w, Done(false))
      else Next(s, w, if db.incidents[i].VerifyingProduction? then VerifyLoad(i, a, check) else Done(true))
    case VerifyLoad(i, a, check) =>
      if !IsRow(db, i, a) then Next(s, w, Done(false))
      else if !db.actions[i].status.Executed? then Next(s, w, EscalateNow(i))
      else Next(s, w, VerifyProbe(i, a, check, Clamp(db.actions[i].required)))
    case VerifyFailed(i, a) => Wrote(s, w, write, Mark(db, i, a, VerificationFailed), EscalateNow(i))
    case VerifyPassed(i, a) => Wrote(s, w, write, Mark(db, i, a, Verified), VerifyResolve(i, a))
    case VerifyResolve(i, a) => Try(s, w, write, Transition(db, i, VerifyingProduction, Resolved), Done(true))
    case _ => s
  }

  predicate Planner(t: Task) {
    t.PlanStart? || t.PlanBegin? || t.PlanApply? || t.PlanEnqueue? || t.MoveIncident? || t.EscalateNow?
  }

  predicate Executor(t: Task) {
    t.ExecStart? || t.ExecHold? || t.ExecLoad? || t.ExecClaim? || t.ExecReport? || t.ExecUnclear?
  }

  function StatementStep(s: Sys, w: Worker, write: Write, at: int): Sys
    requires w in s.tasks
  {
    if Planner(s.tasks[w]) then PlanStep(s, w, write, at)
    else if Executor(s.tasks[w]) then ExecStep(s, w, write)
    else VerifyStep(s, w, write, at)
  }

  function DecideStep(s: Sys, w: Worker, d: Decision, write: Write): Sys
    requires w in s.tasks && s.tasks[w].PlanDecide?
  {
    var PlanDecide(i, paused, mode) := s.tasks[w];
    match d
    case ModelFailed => Next(s, w, Done(false))
    case Delegate(available) => Next(s, w, if available then Done(true) else EscalateNow(i))
    case HandOver => Next(s, w, EscalateNow(i))
    case SelectRestart(target, configured, httpSelected, required) =>
      if target != configured then Next(s, w, Done(false))
      else if !httpSelected then Next(s, w, EscalateNow(i))
      else Try(s, w, write, Transition(s.db, i, Diagnosing, Planning), PlanPersist(i, paused, mode, target, required))
  }

  function NameOf(d: Policy.Decision): PolicyName {
    match d
    case Allow => Allowed
    case RequireApproval => ApprovalNeeded
    case Block => Blocking
  }

  /** A UUID never used before. */
  predicate FreshId(s: Sys, id: Id) {
    id !in s.sent && forall j | j in s.db.actions :: s.db.actions[j].id != id
  }

  /** Decide by policy and store the action under a fresh id. */
  function PersistStep(s: Sys, w: Worker, id: Id, enabled: bool, cooldownClear: bool, write: Write): Sys
    requires w in s.tasks && s.tasks[w].PlanPersist?
  {
    var PlanPersist(i, paused, mode, target, required) := s.tasks[w];
    var context := OperationsContext(mode, paused, true, enabled, true, cooldownClear);
    if !FreshId(s, id) then s
    else match Persist(s.db, i, id, target, required, NameOf(DecideOperations(Low, true, context)))
      case Ok((db, a)) => Wrote(s, w, write, db, PlanApply(i, a, context))
      case Err(_) => Next(s, w, Done(false))
  }

  function SendStep(s: Sys, w: Worker, client: Option<HelperError>, size: nat, t: Traffic, credential: string): Sys
    requires w in s.tasks && s.tasks[w].ExecSend?
  {
    var ExecSend(i, a, target) := s.tasks[w];
    if client.Some? then
      // building the client from the environment failed
      if client.value in {InvalidSocketPath, CredentialMissing, InvalidTimeout}
      then Next(s, w, ExecReport(i, a, Err(client.value))) else s
    else if !ValidTargetId(target) || !Sent(size, t) then
      Next(s, w, ExecReport(i, a, RequestRestart(a, target, size, t)))
    else
      Next(s.(wire := s.wire + {Message(a, target, credential)}, sent := s.sent[a := Dispatch(i, None)]), w,
           ExecWait(i, a, target))
  }

  function DeliverStep(s: Sys, m: Message, c: H.CallId, peer: nat): Sys {
    if m !in s.wire || m.a !in s.sent || c in s.helper.calls then s
    else
      var request := Request(PROTOCOL_VERSION, m.a, m.credential, RestartContainer(m.target));
      s.(wire := s.wire - {m}, sent := s.sent[m.a := s.sent[m.a].(call := Some(c))],
         helper := H.Step(s.helper, H.Arrive(c, peer, request)))
  }

  /** A reply for this request is one the helper gave to the call the request became. */
  predicate Genuine(s: Sys, a: Id, t: Traffic) {
    t.Read? && t.received.Parsed? && t.received.resp.requestId == a && t.received.resp.version == PROTOCOL_VERSION ==>
      && a in s.sent && s.sent[a].call.Some? && s.sent[a].call.value in s.helper.calls
      && s.helper.calls[s.sent[a].call.value].pc == H.Answered(t.received.resp)
  }

  function ReceiveStep(s: Sys, w: Worker, size: nat, t: Traffic): Sys
    requires w in s.tasks && s.tasks[w].ExecWait?
  {
    var ExecWait(i, a, target) := s.tasks[w];
    if !ValidTargetId(target) || !Sent(size, t) || !Genuine(s, a, t) then s
    else Next(s, w, ExecReport(i, a, RequestRestart(a, target, size, t)))
  }

  function CheckStep(s: Sys, w: Worker, http: bool, container: bool): Sys
    requires w in s.tasks && s.tasks[w].VerifyProbe?
  {
    var VerifyProbe(i, a, check, required) := s.tasks[w];
    Next(s.(checks := s.checks[a := Log(s, a) + [http && container]]), w,
         if !http || !container then VerifyFailed(i, a)
         else if check + 1 < required then EnqueueVerify(i, a, check + 1)
         else VerifyPassed(i, a))
  }

  function AdminSys(s: Sys, e: AdminEvent): Sys {
    var db := AdminStep(s.db, e);
    if e.DoApprove? && db != s.db && e.i in db.actions
    then s.(db := db, grants := s.grants[db.actions[e.i].id := GrantedByAdmin])
    else s.(db := db)
  }

  function ClaimStep(s: Sys, w: Worker, key: Key, now: int): Sys {
    if w in s.tasks || !Q.Takes(s.db.queue, Q.Claim(w, key, now), key) then s
    else Next(s.(db := s.db.(queue := Q.Claimed(s.db.queue, w, key, now))), w, FirstTask(s.db.queue.jobs[key].payload))
  }

  function ReportStep(s: Sys, w: Worker, now: int): Sys
    requires w in s.tasks && s.tasks[w].Done?
  {
    s.(tasks := s.tasks - {w},
       db := s.db.(queue := if s.tasks[w].ok then Q.Finished(s.db.queue, w) else Q.FailedAttempt(s.db.queue, w, now)))
  }

  function Step(s: Sys, e: Event): Sys {
    match e
    case OpenIncident(i) =>
      if i in s.db.incidents then s
      else s.(db := s.db.(incidents := s.db.incidents[i := if s.db.paused then Paused else Open]))
    case Administer(change) => AdminSys(s, change)
    case OtherPipeline(i, next) =>
      // source recovery resolves an escalated incident outside the transition relation
      if i in s.db.incidents && (CanTransition(s.db.incidents[i], next)
        || (s.db.incidents[i].Escalated? && next.Resolved?))
      then s.(db := s.db.(incidents := s.db.incidents[i := next])) else s
    case EnqueuePlan(i, at) => s.(db := Enqueue(s.db, PlanKey(i), 3, at))
    case ClaimJob(w, key, now) => ClaimStep(s, w, key, now)
    case Report(w, now) => if w in s.tasks && s.tasks[w].Done? then ReportStep(s, w, now) else s
    case WorkerStops(w) => s.(tasks := s.tasks - {w}, db := s.db.(queue := Q.Crashed(s.db.queue, w)))
    case Statement(w, write, at) => if w in s.tasks then StatementStep(s, w, write, at) else s
    case Decide(w, d, write) => if w in s.tasks && s.tasks[w].PlanDecide? then DecideStep(s, w, d, write) else s
    case PersistAction(w, id, enabled, clear, write) =>
      if w in s.tasks && s.tasks[w].PlanPersist? then PersistStep(s, w, id, enabled, clear, write) else s
    case Send(w, client, size, t, credential) =>
      if w in s.tasks && s.tasks[w].ExecSend? then SendStep(s, w, client, size, t, credential) else s
    case Deliver(m, c, peer) => DeliverStep(s, m, c, peer)
    case LoseMessage(m) => s.(wire := s.wire - {m})
    case Receive(w, size, t) => if w in s.tasks && s.tasks[w].ExecWait? then ReceiveStep(s, w, size, t) else s
    case Check(w, http, container) =>
      if w in s.tasks && s.tasks[w].VerifyProbe? then CheckStep(s, w, http, container) else s
    // Other traffic to the helper inspects only; restarts come from `Deliver`.
    case HelperStep(he) => if he.Arrive? && !he.request.action.Inspect? then s else s.(helper := H.Step(s.helper, he))
  }

  function Run(s: Sys, es: seq<Event>): Sys
    decreases |es|
  {
    if es == [] then s else Run(Step(s, es[0]), es[1..])
  }
}
