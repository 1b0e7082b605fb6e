/** The operations tables and the SQL transactions that write them. */
module OperationsDb {
  import opened Wrappers
  import opened Policy
  import opened RuntimeProtocol
  import Q = JobQueue

  type IncidentId = nat

  /** Idempotency keys; each carries the payload its handler reads. */
  datatype Key =
    | PlanKey(i: IncidentId)
    | ExecuteKey(i: IncidentId, a: Id)
    | VerifyKey(i: IncidentId, a: Id, check: nat)

  datatype PolicyName = Allowed | ApprovalNeeded | Blocking | ByApproval | ByRejection

  datatype ActionStatus =
    | Planned | ApprovalRequired | OnHold | Refused | Running | Executed | FailedClosed | Unclear | Verified | VerificationFailed

  /** One row of `operations_actions`; `required` is the plan's number of consecutive successes. */
  datatype Action = Action(id: Id, target: string, required: nat, policy: PolicyName, status: ActionStatus)

  // The incident is the key: the table has one row per incident.
  datatype Db = Db(
    paused: bool,
    mode: SafetyMode,
    incidents: map<IncidentId, IncidentState>,
    actions: map<IncidentId, Action>,
    queue: Q.Queue<Key, Key>)

  datatype DbError = InvalidTransition | ConcurrentUpdate | ProtectionPaused | NotAwaitingApproval | DifferentOperation | RowMissing

  function Enqueue(db: Db, key: Key, maxAttempts: nat, at: int): Db {
    db.(queue := Q.Enqueued(db.queue, key, key, maxAttempts, at))
  }

  function Transition(db: Db, i: IncidentId, expected: IncidentState, next: IncidentState): Result<Db, DbError> {
    if !CanTransition(expected, next) then Err(InvalidTransition)
    else if i !in db.incidents || db.incidents[i] != expected then Err(ConcurrentUpdate)
    else Ok(db.(incidents := db.incidents[i := next]))
  }

  function Escalate(db: Db, i: IncidentId): Result<Db, DbError> {
    if i !in db.incidents then Err(RowMissing)
    else if Closed(db.incidents[i]) then Ok(db)
    else Transition(db, i, db.incidents[i], Escalated)
  }

  /** Insert the incident's one action, or find the one it already has. */
  function Persist(db: Db, i: IncidentId, id: Id, target: string, required: nat,
    policy: PolicyName): Result<(Db, Id), DbError> {
    if i !in db.actions then
      Ok((db.(actions := db.actions[i := Action(id, target, required, policy, Planned)]), id))
    else if db.actions[i].target != target then Err(DifferentOperation)
    else Ok((db, db.actions[i].id))
  }

  predicate IsRow(db: Db, i: IncidentId, a: Id) { i in db.actions && db.actions[i].id == a }

  /** The unconditional status update. */
  function Mark(db: Db, i: IncidentId, a: Id, status: ActionStatus): Db {
    if IsRow(db, i, a) then db.(actions := db.actions[i := db.actions[i].(status := status)]) else db
  }

  predicate Claimable(db: Db, i: IncidentId, a: Id) { IsRow(db, i, a) && db.actions[i].status.Planned? }

  /** What a decision read of the row before it opened its transaction; other steps may come in between. */
  datatype Seen = Seen(policy: PolicyName, status: ActionStatus)
  {
    predicate Approved() { policy.ByApproval? && status in {Planned, Running, Executed, Verified} }
    predicate Refused() { policy.ByRejection? && status.Refused? }
  }

  function Look(row: Action): Seen { Seen(row.policy, row.status) }

  function ApproveTx(db: Db, i: IncidentId, seen: Seen, at: int): (Db, Option<DbError>) {
    if i !in db.actions || i !in db.incidents then (db, Some(RowMissing)) else
    var row := db.actions[i];
    if seen.Approved() then (db, None)
    else if db.paused then (db, Some(ProtectionPaused))
    else if row.status != ApprovalRequired || db.incidents[i] != WaitingApproval then (db, Some(NotAwaitingApproval))
    else
      var db' := db.(actions := db.actions[i := row.(status := Planned, policy := ByApproval)],
                     incidents := db.incidents[i := Repairing]);
      (Enqueue(db', ExecuteKey(i, row.id), 1, at), None)
  }

  function RejectTx(db: Db, i: IncidentId, seen: Seen): (Db, Option<DbError>) {
    if i !in db.actions || i !in db.incidents then (db, Some(RowMissing)) else
    var row := db.actions[i];
    if seen.Refused() then (db, None)
    else if row.status != ApprovalRequired || db.incidents[i] != WaitingApproval then (db, Some(NotAwaitingApproval))
    else
      (db.(actions := db.actions[i := row.(status := Refused, policy := ByRejection)],
           incidents := db.incidents[i := Cancelled]), None)
  }

  function Resumed(s: IncidentState): IncidentState { if s.Paused? then CollectingContext else s }

  /** Resuming restarts every paused incident from fresh context; pausing touches no incident. */
  function SetPaused(db: Db, paused: bool): Db {
    if db.paused == paused then db
    else if paused then db.(paused := true)
    else db.(paused := false, incidents := map i | i in db.incidents :: Resumed(db.incidents[i]))
  }

  datatype AdminEvent =
    | DoApprove(i: IncidentId, seen: Seen, at: int)
    | DoReject(i: IncidentId, seen: Seen)
    | DoPause(paused: bool)
    | DoMode(mode: SafetyMode)

  /** A decision of the administrator that its transaction gets to consider. */
  predicate Approving(e: AdminEvent, i: IncidentId) { e.DoApprove? && e.i == i && !e.seen.Approved() }

  predicate Rejecting(e: AdminEvent, i: IncidentId) { e.DoReject? && e.i == i && !e.seen.Refused() }

  function AdminStep(db: Db, e: AdminEvent): Db {
    match e
    case DoApprove(i, seen, at) => ApproveTx(db, i, seen, at).0
    case DoReject(i, seen) => RejectTx(db, i, seen).0
    case DoPause(paused) => SetPaused(db, paused)
    case DoMode(mode) => db.(mode := mode)
  }

  function AdminRun(db: Db, es: seq<AdminEvent>): Db
    decreases |es|
  {
    if es == [] then db else AdminRun(AdminStep(db, es[0]), es[1..])
  }

  predicate Waiting(db: Db, i: IncidentId, row: Action) {
    && i in db.actions && i in db.incidents && db.actions[i] == row
    && row.status.ApprovalRequired? && db.incidents[i].WaitingApproval?
    && ExecuteKey(i, row.id) !in db.queue.jobs
  }

  /** Approved for good: the row and its execute job are final as far as administrators go. */
  predicate DecidedApproved(db: Db, i: IncidentId, row: Action) {
    && i in db.actions && i in db.incidents && db.actions[i] == row.(status := Planned, policy := ByApproval)
    && db.incidents[i].Repairing?
    && ExecuteKey(i, row.id) in db.queue.jobs
    && var job := db.queue.jobs[ExecuteKey(i, row.id)];
       job.payload == ExecuteKey(i, row.id) && job.status.Pending? && job.attempt == 0 && job.maxAttempts == 1
  }

  predicate DecidedRejected(db: Db, i: IncidentId, row: Action) {
    && i in db.actions && i in db.incidents && db.actions[i] == row.(status := Refused, policy := ByRejection)
    && db.incidents[i].Cancelled? && ExecuteKey(i, row.id) !in db.queue.jobs
  }

  /** One decision per operation: approving takes effect only from waiting and unpaused, rejecting only
      from waiting, and once decided nothing an administrator does changes it. */
  lemma DecisionStep(db: Db, e: AdminEvent, i: IncidentId, row: Action)
    requires Waiting(db, i, row) || DecidedApproved(db, i, row) || DecidedRejected(db, i, row)
    ensures Waiting(db, i, row) ==>
      if Approving(e, i) && !db.paused then DecidedApproved(AdminStep(db, e), i, row)
      else if Rejecting(e, i) then DecidedRejected(AdminStep(db, e), i, row)
      else Waiting(AdminStep(db, e), i, row)
    ensures DecidedApproved(db, i, row) ==> DecidedApproved(AdminStep(db, e), i, row)
    ensures DecidedRejected(db, i, row) ==> DecidedRejected(AdminStep(db, e), i, row)
  {
  }

  /** Which decision a run leaves, from the first approval outside a pause or rejection in it. */
  function FirstDecision(db: Db, es: seq<AdminEvent>, i: IncidentId): Option<bool>
    decreases |es|
  {
    if es == [] then None
    else if Approving(es[0], i) && !db.paused then Some(true)
    else if Rejecting(es[0], i) then Some(false)
    else FirstDecision(AdminStep(db, es[0]), es[1..], i)
  }

  lemma {:induction false} DecidedForever(db: Db, es: seq<AdminEvent>, i: IncidentId, row: Action)
    requires DecidedApproved(db, i, row) || DecidedRejected(db, i, row)
    ensures DecidedApproved(db, i, row) ==> DecidedApproved(AdminRun(db, es), i, row)
    ensures DecidedRejected(db, i, row) ==> DecidedRejected(AdminRun(db, es), i, row)
    decreases |es|
  {
    if es != [] {
      DecisionStep(db, es[0], i, row);
      DecidedForever(AdminStep(db, es[0]), es[1..], i, row);
    }
  }

  /** Over any interleaving of approvals, rejections, pauses, resumes and mode changes, the first
      effective decision wins and stays; exactly an approved operation has its one execute job. */
  lemma {:induction false} FirstDecisionWins(db: Db, es: seq<AdminEvent>, i: IncidentId, row: Action)
    requires Waiting(db, i, row)
    ensures match FirstDecision(db, es, i)
            case None => Waiting(AdminRun(db, es), i, row)
            case Some(true) => DecidedApproved(AdminRun(db, es), i, row)
            case Some(false) => DecidedRejected(AdminRun(db, es), i, row)
    decreases |es|
  {
    if es != [] {
      DecisionStep(db, es[0], i, row);
      if !Waiting(AdminStep(db, es[0]), i, row) {
        DecidedForever(AdminStep(db, es[0]), es[1..], i, row);
      } else {
        FirstDecisionWins(AdminStep(db, es[0]), es[1..], i, row);
      }
    }
  }

  /** After a decision neither kind of transaction changes anything any more. One that had read the row as it
      is now reports success for the winning decision; one that had read it before the decision is refused. */
  lemma RepeatsChangeNothing(db: Db, i: IncidentId, row: Action, seen: Seen, at: int)
    requires DecidedApproved(db, i, row) || DecidedRejected(db, i, row)
    requires row.status.ApprovalRequired? && (seen == Look(row) || seen == Look(db.actions[i]))
    ensures var refused := Some(if db.paused then ProtectionPaused else NotAwaitingApproval);
      && ApproveTx(db, i, seen, at) ==
           (db, if DecidedApproved(db, i, row) && seen == Look(db.actions[i]) then None else refused)
      && RejectTx(db, i, seen) ==
           (db, if DecidedRejected(db, i, row) && seen == Look(db.actions[i]) then None else Some(NotAwaitingApproval))
  {
  }

  class Database {
    var paused: bool
    var mode: SafetyMode
    var incidents: map<IncidentId, IncidentState>
    var actions: map<IncidentId, Action>
    const jobs: Q.Table<Key, Key>

    constructor ()
      ensures fresh(jobs) && jobs.Valid()
      ensures Value() == Db(false, Safe, map[], map[], Q.Queue(map[], map[]))
    {
      paused, mode := false, Safe;
      incidents, actions := map[], map[];
      held := map[];
      jobs := new Q.Table<Key, Key>();
    }

    // The leases the worker loops hold; no transaction here reads or writes them.
    ghost var held: map<Q.Worker, Q.Lease<Key>>

    ghost function Value(): Db
      reads this, jobs
    {
      Db(paused, mode, incidents, actions, Q.Queue(jobs.jobs, held))
    }

    method TransitionIncident(i: IncidentId, expected: IncidentState,
      next: IncidentState) returns (error: Option<DbError>)
      modifies this`incidents
      ensures Transition(old(Value()), i, expected, next) == if error.None? then Ok(Value()) else Err(error.value)
      ensures error.Some? ==> incidents == old(incidents)
    {
      if !CanTransition(expected, next) {
        return Some(InvalidTransition);
      }
      if i !in incidents || incidents[i] != expected {
        return Some(ConcurrentUpdate);
      }
      incidents := incidents[i := next];
      return None;
    }

    method EscalateIncident(i: IncidentId) returns (error: Option<DbError>)
      modifies this`incidents
      ensures Escalate(old(Value()), i) == if error.None? then Ok(Value()) else Err(error.value)
      ensures i !in old(incidents) ==> error == Some(RowMissing) && incidents == old(incidents)
      ensures i in old(incidents) && old(incidents)[i] in {Resolved, RolledBack, Escalated, Failed, Cancelled} ==>
        error.None? && incidents == old(incidents)
      ensures i in old(incidents) && old(incidents)[i] !in {Resolved, RolledBack, Escalated, Failed, Cancelled} ==>
        error.None? && incidents == old(incidents)[i := Escalated]
    {
      if i !in incidents {
        return Some(RowMissing);
      }
      if Closed(incidents[i]) {
        return None;
      }
      error := TransitionIncident(i, incidents[i], Escalated);
    }

    method PersistAction(i: IncidentId, id: Id, target: string, required: nat, policy: PolicyName)
        returns (r: Result<Id, DbError>)
      modifies this`actions
      ensures Persist(old(Value()), i, id, target, required, policy) == if r.Ok? then Ok((Value(), r.value)) else Err(r.error)
      ensures r.Err? ==> actions == old(actions)
    {
      if i !in actions {
        actions := actions[i := Action(id, target, required, policy, Planned)];
        return Ok(id);
      }
      if actions[i].target != target {
        return Err(DifferentOperation);
      }
      return Ok(actions[i].id);
    }

    method MarkStatus(i: IncidentId, a: Id, status: ActionStatus)
      modifies this`actions
      ensures Value() == Mark(old(Value()), i, a, status)
    {
      if i in actions && actions[i].id == a {
        actions := actions[i := actions[i].(status := status)];
      }
    }

    method ClaimAction(i: IncidentId, a: Id) returns (claimed: bool)
      modifies this`actions
      ensures claimed == Claimable(old(Value()), i, a)
      ensures Value() == if claimed then Mark(old(Value()), i, a, Running) else old(Value())
    {
      claimed := i in actions && actions[i].id == a && actions[i].status.Planned?;
      if claimed {
        actions := actions[i := actions[i].(status := Running)];
      }
    }

    method ApproveIncident(i: IncidentId, seen: Seen, at: int) returns (error: Option<DbError>)
      requires jobs.Valid()
      modifies this`actions, this`incidents, jobs
      ensures jobs.Valid()
      ensures ApproveTx(old(Value()), i, seen, at) == (Value(), error)
    {
      if i !in actions || i !in incidents {
        return Some(RowMissing);
      }
      var row := actions[i];
      if seen.Approved() {
        return None;
      }
      if paused {
        return Some(ProtectionPaused);
      }
      if row.status != ApprovalRequired || incidents[i] != WaitingApproval {
        return Some(NotAwaitingApproval);
      }
      actions := actions[i := row.(status := Planned, policy := ByApproval)];
      incidents := incidents[i := Repairing];
      jobs.Add(ExecuteKey(i, row.id), ExecuteKey(i, row.id), 1, at, held);
      return None;
    }

    method RejectIncident(i: IncidentId, seen: Seen) returns (error: Option<DbError>)
      modifies this`actions, this`incidents
      ensures RejectTx(old(Value()), i, seen) == (Value(), error)
    {
      if i !in actions || i !in incidents {
        return Some(RowMissing);
      }
      var row := actions[i];
      if seen.Refused() {
        return None;
      }
      if row.status != ApprovalRequired || incidents[i] != WaitingApproval {
        return Some(NotAwaitingApproval);
      }
      actions := actions[i := row.(status := Refused, policy := ByRejection)];
      incidents := incidents[i := Cancelled];
      return None;
    }

    method SetProtectionPaused(value: bool)
      modifies this`paused, this`incidents
      ensures Value() == SetPaused(old(Value()), value)
    {
      if paused == value {
        return;
      }
      paused := value;
      if value {
        return;
      }
      var left := set i | i in incidents && incidents[i].Paused?;
      while left != {}
        invariant !paused && incidents.Keys == old(incidents).Keys
        invariant left <= incidents.Keys
        invariant forall i | i in incidents ::
          incidents[i] == if i in left then old(incidents)[i] else Resumed(old(incidents)[i])
        invariant forall i | i in left :: old(incidents)[i].Paused?
        decreases |left|
      {
        var i :| i in left;
        incidents := incidents[i := CollectingContext];
        left := left - {i};
      }
      assert incidents == map i | i in old(incidents) :: Resumed(old(incidents)[i]);
    }
  }
}
