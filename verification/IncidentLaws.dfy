/** Which status may follow which, and what takes an incident out of RESOLVED. */
module IncidentLaws {
  import opened Wrappers
  import opened Policy
  import opened RuntimeProtocol
  import opened RuntimeClient
  import opened OperationsDb
  import opened Operations
  import opened OperationsSafety
  import opened OperationsTheorems
  import OH = OperationsHistory
  import L = IncidentLifecycle
  import Q = JobQueue

  /** The relation read backwards: what an incident was before it is `next`, other than stopped. */
  function Sources(next: IncidentState): set<IncidentState> {
    if next in {Diagnosing} then {CollectingContext}
    else if next in {CollectingContext} then {Open, Paused}
    else if next in {Planning} then {Diagnosing}
    else if next in {WaitingApproval} then {Planning, VerifyingPreview}
    else if next in {Repairing} then {Planning, WaitingApproval, Testing, VerifyingPreview}
    else if next in {Testing} then {Repairing}
    else if next in {PreviewDeploying} then {Testing}
    else if next in {VerifyingPreview} then {PreviewDeploying}
    else if next in {ProductionDeploying} then {WaitingApproval, VerifyingPreview}
    else if next in {VerifyingProduction} then {Repairing, ProductionDeploying}
    else if next in {RollingBack} then {VerifyingProduction}
    else if next in {RolledBack} then {RollingBack}
    else if next in {Resolved} then {VerifyingProduction, RolledBack}
    else {}
  }

  const STOPPED := {Escalated, Failed, Cancelled, Paused}

  /** A checked transition goes through exactly if the incident exists with the expected status and that is one
      of the statuses the next one may come from, or the incident is stopped. */
  lemma TransitionExactly(db: Db, i: IncidentId, expected: IncidentState, next: IncidentState)
    ensures var r := Transition(db, i, expected, next);
      && (r.Ok? <==>
            i in db.incidents && db.incidents[i] == expected && (expected in Sources(next) || next in STOPPED))
      && (r.Ok? ==> r.value == db.(incidents := db.incidents[i := next]))
      && (r.Err? ==>
            r.error == if expected in Sources(next) || next in STOPPED then ConcurrentUpdate else InvalidTransition)
  {
    hide CanTransition;
    EdgesExactly(expected, next);
  }

  lemma EdgesExactly(s: IncidentState, next: IncidentState)
    ensures CanTransition(s, next) <==> s in Sources(next) || next in STOPPED
  {
  }

  /** Over every run of one incident, each status comes from one of those, or it is stopped, or source recovery
      resolves it. */
  lemma EveryEdgeIsListed(paused: bool, es: seq<L.Event>, k: nat)
    requires var path := L.Run(L.Opened(paused), es).path; 0 < k < |path|
    ensures var path := L.Run(L.Opened(paused), es).path;
      || path[k - 1] in Sources(path[k]) || path[k] in STOPPED
      || (path[k - 1] == Escalated && path[k] == Resolved)
  {
    L.ResolvedMeansVerified(paused, es);
    var path := L.Run(L.Opened(paused), es).path;
    assert CanTransition(path[k - 1], path[k - 1 + 1]) || L.Recovery(path[k - 1], path[k - 1 + 1]);
    TransitionExactly(Db(false, Safe, map[0 := path[k - 1]], map[], Q.Queue(map[], map[])), 0, path[k - 1], path[k]);
  }

  /** A new incident is open, or paused from the start while protection is; opening one again changes nothing. */
  lemma OpeningExactly(s: Sys, i: IncidentId)
    ensures var s' := Step(s, OpenIncident(i)); var status := if s.db.paused then Paused else Open;
      && s' == (if i in s.db.incidents then s else s.(db := s.db.(incidents := s.db.incidents[i := status])))
      && L.Opened(s.db.paused).status == status && L.Opened(s.db.paused).path == [status]
      && !L.Opened(s.db.paused).resolvedAt && !L.Opened(s.db.paused).asking
  {
  }

  /** What the other pipelines may do to an incident of this one: any listed or stopping write, and source
      recovery's resolution of an escalated one. */
  lemma OthersMayExactly(s: Sys, i: IncidentId, next: IncidentState)
    ensures var s' := Step(s, OtherPipeline(i, next));
      if i in s.db.incidents
         && (s.db.incidents[i] in Sources(next) || next in STOPPED || (s.db.incidents[i] == Escalated && next == Resolved))
      then s' == s.(db := s.db.(incidents := s.db.incidents[i := next]))
      else s' == s
  {
  }

  // Escalation.

  /** Escalating leaves an incident that is over, and escalates any other; in both models of it. */
  lemma EscalationExactly(db: Db, i: IncidentId, row: L.Incident)
    requires i in db.incidents && row.status == db.incidents[i]
    ensures var over := db.incidents[i] in {Resolved, RolledBack, Escalated, Failed, Cancelled};
      && Escalate(db, i) == Ok(if over then db else db.(incidents := db.incidents[i := Escalated]))
      && L.Step(row, L.Escalate) ==
           if over then row else row.(status := Escalated, path := row.path + [Escalated])
  {
  }

  lemma TryStays(s: Sys, w: Worker, write: Write, i: IncidentId, from: IncidentState, next: IncidentState, t: Task,
                 j: IncidentId)
    requires j in s.db.incidents && s.db.incidents[j].Resolved? && !from.Resolved?
    ensures var s' := Try(s, w, write, Transition(s.db, i, from, next), t);
      j in s'.db.incidents && s'.db.incidents[j].Resolved?
  {
    hide CanTransition;
  }

  lemma EscalateStays(s: Sys, w: Worker, write: Write, i: IncidentId, t: Task, j: IncidentId)
    requires j in s.db.incidents && s.db.incidents[j].Resolved?
    ensures var s' := Try(s, w, write, Escalate(s.db, i), t); j in s'.db.incidents && s'.db.incidents[j].Resolved?
  {
    hide CanTransition;
  }

  lemma PlanStays(s: Sys, w: Worker, write: Write, at: int, j: IncidentId)
    requires w in s.tasks && Planner(s.tasks[w]) && TaskOk(s, s.tasks[w])
    requires j in s.db.incidents && s.db.incidents[j].Resolved?
    ensures var s' := PlanStep(s, w, write, at); j in s'.db.incidents && s'.db.incidents[j].Resolved?
  {
    hide Transition, Escalate, DecideOperations, Try;
    match s.tasks[w]
    case PlanStart(i) =>
    case PlanBegin(i, paused, mode) =>
      TryStays(s, w, write, i, CollectingContext, Diagnosing, PlanDecide(i, paused, mode), j);
    case PlanApply(i, a, context) => TryStays(s, w, write, i, Planning, Repairing, PlanEnqueue(i, a, context), j);
    case PlanEnqueue(i, a, context) =>
    case MoveIncident(i, from, next) => TryStays(s, w, write, i, from, next, Done(true), j);
    case EscalateNow(i) => EscalateStays(s, w, write, i, Done(true), j);
  }

  lemma VerifyStays(s: Sys, w: Worker, write: Write, at: int, j: IncidentId)
    requires w in s.tasks && j in s.db.incidents && s.db.incidents[j].Resolved?
    ensures var s' := VerifyStep(s, w, write, at); j in s'.db.incidents && s'.db.incidents[j].Resolved?
  {
    hide Transition, Try, IsRow, Clamp;
    match s.tasks[w]
    case BeginVerify(i, a) =>
      TryStays(s, w, write, i, Repairing, VerifyingProduction, EnqueueVerify(i, a, 0), j);
    case VerifyResolve(i, a) => TryStays(s, w, write, i, VerifyingProduction, Resolved, Done(true), j);
    case _ =>
  }

  lemma StatementStays(s: Sys, w: Worker, write: Write, at: int, j: IncidentId)
    requires w in s.tasks && TaskOk(s, s.tasks[w]) && j in s.db.incidents && s.db.incidents[j].Resolved?
    ensures var s' := StatementStep(s, w, write, at); j in s'.db.incidents && s'.db.incidents[j].Resolved?
  {
    hide PlanStep, ExecStep, VerifyStep, TaskOk;
    if Planner(s.tasks[w]) {
      PlanStays(s, w, write, at, j);
    } else if Executor(s.tasks[w]) {
      OH.ExecMoves(s, w, write);
    } else {
      VerifyStays(s, w, write, at, j);
    }
  }

  lemma AdminStays(s: Sys, change: AdminEvent, j: IncidentId)
    requires j in s.db.incidents && s.db.incidents[j].Resolved?
    ensures var s' := AdminSys(s, change); j in s'.db.incidents && s'.db.incidents[j].Resolved?
  {
  }

  lemma DecisionStays(s: Sys, e: Event, j: IncidentId)
    requires (e.Decide? || e.PersistAction?) && j in s.db.incidents && s.db.incidents[j].Resolved?
    ensures var s' := Step(s, e); j in s'.db.incidents && s'.db.incidents[j].Resolved?
  {
    hide DecideStep, PersistStep;
    match e
    case Decide(w, d, write) => if w in s.tasks && s.tasks[w].PlanDecide? { DecideStays(s, w, d, write, j); }
    case PersistAction(w, id, enabled, clear, write) =>
      if w in s.tasks && s.tasks[w].PlanPersist? { PersistStays(s, w, id, enabled, clear, write, j); }
  }

  lemma DecideStays(s: Sys, w: Worker, d: Operations.Decision, write: Write, j: IncidentId)
    requires w in s.tasks && s.tasks[w].PlanDecide? && j in s.db.incidents && s.db.incidents[j].Resolved?
    ensures var s' := DecideStep(s, w, d, write); j in s'.db.incidents && s'.db.incidents[j].Resolved?
  {
    hide CanTransition;
  }

  lemma PersistStays(s: Sys, w: Worker, id: Id, enabled: bool, clear: bool, write: Write, j: IncidentId)
    requires w in s.tasks && s.tasks[w].PlanPersist? && j in s.db.incidents && s.db.incidents[j].Resolved?
    ensures var s' := PersistStep(s, w, id, enabled, clear, write); j in s'.db.incidents && s'.db.incidents[j].Resolved?
  {
    hide FreshId, DecideOperations, NameOf;
  }

  lemma OthersStay(s: Sys, e: Event, j: IncidentId)
    requires !e.Statement? && !e.Administer? && !e.Decide? && !e.PersistAction?
    requires j in s.db.incidents && s.db.incidents[j].Resolved?
    requires !(e.OtherPipeline? && e.i == j && e.next in STOPPED)
    ensures var s' := Step(s, e); j in s'.db.incidents && s'.db.incidents[j].Resolved?
  {
    hide RequestRestart, Genuine, ValidTargetId, Sent, Q.Takes, Q.Claimed, Q.Finished, Q.FailedAttempt, Q.Crashed,
      Q.Enqueued;
  }

  /** Over every run of the whole system, a RESOLVED incident stays RESOLVED unless another pipeline stops it: no
      escalation, no decision and no late statement of this one takes it out. */
  lemma ResolvedStays(config: HelperConfig, es: seq<Event>, n: nat, i: IncidentId)
    requires n < |es| && i in At(config, es, n).db.incidents && At(config, es, n).db.incidents[i].Resolved?
    requires forall next | next in {Escalated, Failed, Cancelled, Paused} :: es[n] != OtherPipeline(i, next)
    ensures i in At(config, es, n + 1).db.incidents && At(config, es, n + 1).db.incidents[i].Resolved?
  {
    hide Inv, Run, TaskOk, StatementStep, AdminSys;
    AtNext(config, es, n);
    var s, e := At(config, es, n), es[n];
    Reached(config, es[..n]);
    if e.Statement? {
      if e.w in s.tasks {
        TaskFact(s, e.w);
        StatementStays(s, e.w, e.write, e.at, i);
      }
    } else if e.Administer? {
      AdminStays(s, e.change, i);
    } else if e.Decide? || e.PersistAction? {
      DecisionStays(s, e, i);
    } else {
      OthersStay(s, e, i);
    }
  }

  /** Over every run of one incident, only a transition that stops it takes it out of RESOLVED. */
  lemma ResolvedRowStays(paused: bool, es: seq<L.Event>, e: L.Event)
    requires var i := L.Run(L.Opened(paused), es); i.status.Resolved?
    ensures var i := L.Run(L.Opened(paused), es);
      L.Step(i, e).status.Resolved? || (e.Transition? && e.expected == Resolved && e.next in STOPPED)
  {
  }

  /** What each decision on one incident's row does, and when: only a waiting incident with an operation that asks
      is approved or rejected, only one without an operation has its deployment approved. */
  lemma DecisionExactly(i: L.Incident)
    ensures var asked := i.operation != None && i.asking && i.status == WaitingApproval;
      && L.Step(i, L.ApproveOperation) ==
           (if asked then i.(status := Repairing, path := i.path + [Repairing], operation := Some(L.ApprovedByAdmin),
                             asking := false) else i)
      && L.Step(i, L.RejectOperation) ==
           (if asked then i.(status := Cancelled, path := i.path + [Cancelled], operation := Some(L.RejectedByAdmin),
                             asking := false) else i)
    ensures L.Step(i, L.ApproveDeployment) ==
      if i.operation == None && i.status == WaitingApproval
      then i.(status := ProductionDeploying, path := i.path + [ProductionDeploying], deploymentApproved := true) else i
    ensures L.Step(i, L.Resume) ==
      if i.status == Paused then i.(status := CollectingContext, path := i.path + [CollectingContext]) else i
  {
  }

  /** And each record: an operation is planned once and never as decided, a revert is attested only by a handler that
      had read the incident as rolled back, and only an attested one lets source recovery resolve it. */
  lemma RecordExactly(i: L.Incident, policy: L.OperationPolicy, asking: bool, w: L.Handler, revert: L.Revert)
    ensures L.Step(i, L.PlanOperation(policy)) ==
      (if i.operation == None && policy in {L.AllowedByPolicy, L.ApprovalRequiredByPolicy, L.BlockedByPolicy}
       then i.(operation := Some(policy)) else i)
    ensures L.Step(i, L.MarkOperation(asking)) == if i.operation != None then i.(asking := asking) else i
    ensures L.Step(i, L.ReadRolledBack(w)) == if i.status == RolledBack then i.(readers := i.readers + {w}) else i
    ensures L.Step(i, L.RecordRevert(w, revert)) == if w in i.readers then i.(reverts := i.reverts + {revert}) else i
    ensures L.Step(i, L.ResolveRecovered(revert)) ==
      if i.status == Escalated && revert in i.reverts
      then i.(status := Resolved, path := i.path + [Resolved], resolvedAt := true, autonomous := false) else i
  {
  }
}
