/** Every write to one incident's status, and what must have happened before it is resolved. */
module IncidentLifecycle {
  import opened Wrappers
  import opened Policy

  type Handler = nat

  /** What identifies a source-revert pull request: number, node, head and base commit. */
  datatype Revert = Revert(number: nat, node: string, head: string, base: string)

  datatype OperationPolicy = AllowedByPolicy | ApprovalRequiredByPolicy | BlockedByPolicy | ApprovedByAdmin | RejectedByAdmin

  /**
    One incident row with the records that its writers consult: whether its events hold a deployment
    approval, the policy of its operation and whether that waits for approval, and the attested reverts
    in its audit log. `path` is the history of its statuses, which no writer reads; `readers` are handlers that read it as rolled back.
  */
  datatype Incident = Incident(
    status: IncidentState,
    resolvedAt: bool,
    autonomous: bool,
    deploymentApproved: bool,
    operation: Option<OperationPolicy>,
    asking: bool,
    reverts: set<Revert>,
    readers: set<Handler>,
    path: seq<IncidentState>)

  // A guard that only forbids more is left out: approvals here need no unpaused project. `MarkOperation` is
  // any write of the operation's status other than a decision.
  datatype Event =
    | Transition(expected: IncidentState, next: IncidentState)
    | Escalate
    | Resume
    | PlanOperation(policy: OperationPolicy)
    | MarkOperation(asking: bool)
    | ApproveOperation
    | RejectOperation
    | ApproveDeployment
    | ReadRolledBack(w: Handler)
    | RecordRevert(w: Handler, revert: Revert)
    | ResolveRecovered(revert: Revert)

  function Opened(paused: bool): Incident {
    var status := if paused then Paused else Open;
    Incident(status, false, false, false, None, false, {}, {}, [status])
  }

  function Write(i: Incident, next: IncidentState): Incident {
    i.(status := next, path := i.path + [next])
  }

  /** The checked update: it also stamps the resolution time and decides whether it was autonomous. */
  function Move(i: Incident, expected: IncidentState, next: IncidentState): Incident {
    if !CanTransition(expected, next) || i.status != expected then i
    else Write(i, next).(
      resolvedAt := i.resolvedAt || next.Resolved? || next.RolledBack?,
      autonomous := if next.Resolved? then !i.deploymentApproved && i.operation != Some(ApprovedByAdmin) else i.autonomous)
  }

  /** The operation waits for a decision. */
  predicate Waiting(i: Incident) { i.operation.Some? && i.asking && i.status.WaitingApproval? }

  function Step(i: Incident, e: Event): Incident {
    match e
    case Transition(expected, next) => Move(i, expected, next)
    case Escalate => if Closed(i.status) then i else Move(i, i.status, Escalated)
    case Resume => if i.status.Paused? then Write(i, CollectingContext) else i
    case PlanOperation(policy) =>
      if i.operation.None? && !policy.ApprovedByAdmin? && !policy.RejectedByAdmin? then i.(operation := Some(policy)) else i
    case MarkOperation(asking) => if i.operation.Some? then i.(asking := asking) else i
    case ApproveOperation =>
      if Waiting(i) then Write(i, Repairing).(operation := Some(ApprovedByAdmin), asking := false) else i
    case RejectOperation =>
      if Waiting(i) then Write(i, Cancelled).(operation := Some(RejectedByAdmin), asking := false) else i
    case ApproveDeployment =>
      if i.operation.None? && i.status.WaitingApproval?
      then Move(i, WaitingApproval, ProductionDeploying).(deploymentApproved := true) else i
    case ReadRolledBack(w) => if i.status.RolledBack? then i.(readers := i.readers + {w}) else i
    case RecordRevert(w, revert) => if w in i.readers then i.(reverts := i.reverts + {revert}) else i
    case ResolveRecovered(revert) =>
      if i.status.Escalated? && revert in i.reverts then Write(i, Resolved).(resolvedAt := true, autonomous := false) else i
  }

  function Run(i: Incident, es: seq<Event>): Incident
    decreases |es|
  {
    if es == [] then i else Run(Step(i, es[0]), es[1..])
  }

  predicate Recovery(s: IncidentState, next: IncidentState) { s.Escalated? && next.Resolved? }

  /** The paths of an incident: edges of the transition relation, and source recovery's one exception. */
  predicate Legal(path: seq<IncidentState>) {
    forall k | 0 <= k < |path| - 1 :: CanTransition(path[k], path[k + 1]) || Recovery(path[k], path[k + 1])
  }

  predicate Verified(path: seq<IncidentState>, k: nat)
    requires k <= |path|
  {
    exists j | 0 <= j < k :: path[j].VerifyingProduction?
  }

  predicate AfterVerifying(s: IncidentState) { s.RollingBack? || s.RolledBack? || s.Resolved? }

  /** Rolling back, having rolled back and being resolved all come after a production verification. */
  predicate VerifiedFirst(path: seq<IncidentState>) {
    forall k | 0 <= k < |path| && AfterVerifying(path[k]) :: Verified(path, k)
  }

  predicate Inv(i: Incident) {
    && i.path != [] && i.path[|i.path| - 1] == i.status
    && Legal(i.path) && VerifiedFirst(i.path)
    && (i.reverts != {} || i.readers != {} ==> Verified(i.path, |i.path|))
    && (i.resolvedAt <==> exists k | 0 <= k < |i.path| :: i.path[k].Resolved? || i.path[k].RolledBack?)
    && (i.status.Resolved? ==>
          i.autonomous == (!Recovered(i.path) && !i.deploymentApproved && i.operation != Some(ApprovedByAdmin)))
  }

  /** The last status write was source recovery's. */
  predicate Recovered(path: seq<IncidentState>) {
    |path| >= 2 && Recovery(path[|path| - 2], path[|path| - 1])
  }

  lemma EdgesAfterVerifying(s: IncidentState, next: IncidentState)
    requires CanTransition(s, next) && AfterVerifying(next)
    ensures s.VerifyingProduction? || AfterVerifying(s)
  {
  }

  lemma VerifiedLater(path: seq<IncidentState>, next: IncidentState, k: nat)
    requires k <= |path| && Verified(path, k)
    ensures Verified(path + [next], k) && Verified(path + [next], |path| + 1)
  {
    var j :| 0 <= j < k && path[j].VerifyingProduction?;
    assert (path + [next])[j].VerifyingProduction?;
  }

  lemma WriteInv(i: Incident, next: IncidentState)
    requires Inv(i) && (CanTransition(i.status, next) || (Recovery(i.status, next) && i.reverts != {}))
    ensures Legal(i.path + [next]) && VerifiedFirst(i.path + [next])
    ensures Verified(i.path, |i.path|) ==> Verified(i.path + [next], |i.path| + 1)
    ensures (exists k | 0 <= k < |i.path| + 1 :: (i.path + [next])[k].Resolved? || (i.path + [next])[k].RolledBack?)
      <==> i.resolvedAt || next.Resolved? || next.RolledBack?
  {
    hide CanTransition, Verified;
    var path, n := i.path + [next], |i.path|;
    forall k | 0 <= k < |path| && AfterVerifying(path[k]) ensures Verified(path, k) {
      if k < n {
        VerifiedLater(i.path, next, k);
      } else {
        VerifiedNow(i, next);
      }
    }
    if Verified(i.path, n) { VerifiedLater(i.path, next, n); }
    if i.resolvedAt {
      var k :| 0 <= k < n && (i.path[k].Resolved? || i.path[k].RolledBack?);
      assert path[k] == i.path[k];
    }
    assert path[n] == next;
  }

  lemma VerifiedNow(i: Incident, next: IncidentState)
    requires Inv(i) && AfterVerifying(next)
    requires CanTransition(i.status, next) || (Recovery(i.status, next) && i.reverts != {})
    ensures Verified(i.path + [next], |i.path|)
  {
    hide CanTransition;
    var n := |i.path|;
    if Recovery(i.status, next) && i.reverts != {} {
      VerifiedLater(i.path, next, n);
    } else {
      EdgesAfterVerifying(i.status, next);
      if i.status.VerifyingProduction? {
        assert (i.path + [next])[n - 1].VerifyingProduction?;
      } else {
        VerifiedLater(i.path, next, n - 1);
        var j :| 0 <= j < n - 1 && (i.path + [next])[j].VerifyingProduction?;
      }
    }
  }

  lemma StepInv(i: Incident, e: Event)
    requires Inv(i)
    ensures Inv(Step(i, e))
  {
    hide Inv, Step;
    if Step(i, e).path != i.path {
      WrittenInv(i, e);
    } else {
      UnwrittenInv(i, e);
    }
  }

  lemma UnwrittenInv(i: Incident, e: Event)
    requires Inv(i) && Step(i, e).path == i.path
    ensures Inv(Step(i, e))
  {
    hide CanTransition;
    var n := |i.path|;
    if e.ReadRolledBack? && i.status.RolledBack? {
      assert Verified(i.path, n - 1);
      var j :| 0 <= j < n - 1 && i.path[j].VerifyingProduction?;
      assert Verified(i.path, n);
    }
    assert Step(i, e).status == i.status;
  }

  lemma WrittenInv(i: Incident, e: Event)
    requires Inv(i) && Step(i, e).path != i.path
    ensures Inv(Step(i, e))
  {
    hide CanTransition;
    var i' := Step(i, e);
    WrittenStep(i, e);
    WriteInv(i, i'.status);
  }

  /** What a status write leaves: one edge more, and the records that go with it. */
  predicate Written(i: Incident, i': Incident, recovered: bool) {
    && i'.path == i.path + [i'.status] && i'.reverts == i.reverts && i'.readers == i.readers
    && i'.resolvedAt == (i.resolvedAt || i'.status.Resolved? || i'.status.RolledBack?)
    && if recovered then Recovery(i.status, i'.status) && i.reverts != {} && !i'.autonomous
       else CanTransition(i.status, i'.status) && !Recovery(i.status, i'.status)
            && (i'.status.Resolved? ==>
                  i'.autonomous == (!i'.deploymentApproved && i'.operation != Some(ApprovedByAdmin)))
  }

  lemma MoveWrites(i: Incident, expected: IncidentState, next: IncidentState)
    requires Move(i, expected, next).path != i.path
    ensures Written(i, Move(i, expected, next), false)
  {
    hide CanTransition;
    ApprovalIsLegal();
  }

  lemma WrittenStep(i: Incident, e: Event)
    requires Step(i, e).path != i.path
    ensures Written(i, Step(i, e), e.ResolveRecovered?)
  {
    hide CanTransition;
    ApprovalIsLegal();
    match e
    case Transition(expected, next) =>
      hide Written, Move;
      MoveWrites(i, expected, next);
    case Escalate =>
      hide Written, Move;
      MoveWrites(i, i.status, Escalated);
    case ApproveDeployment =>
      MoveWrites(i, WaitingApproval, ProductionDeploying);
    case _ =>
      hide Move;
  }

  lemma {:induction false} RunInv(i: Incident, es: seq<Event>)
    requires Inv(i)
    ensures Inv(Run(i, es))
    decreases |es|
  {
    if es != [] {
      StepInv(i, es[0]);
      RunInv(Step(i, es[0]), es[1..]);
    }
  }

  /** Over every run from opening, each status write follows the transition relation or is source
      recovery's, and whenever the incident was resolved a production verification had come before. */
  lemma ResolvedMeansVerified(paused: bool, es: seq<Event>)
    ensures var i := Run(Opened(paused), es);
      && Legal(i.path)
      && (forall k | 0 <= k < |i.path| && i.path[k].Resolved? :: Verified(i.path, k))
      && (i.resolvedAt <==> exists k | 0 <= k < |i.path| :: i.path[k].Resolved? || i.path[k].RolledBack?)
  {
    RunInv(Opened(paused), es);
  }

  // Approvals and rejections that took effect in a run.

  predicate ApprovesDeployment(i: Incident, e: Event) {
    e.ApproveDeployment? && i.operation.None? && i.status.WaitingApproval?
  }

  predicate ApprovesOperation(i: Incident, e: Event) { e.ApproveOperation? && Waiting(i) }

  predicate RejectsOperation(i: Incident, e: Event) { e.RejectOperation? && Waiting(i) }

  predicate DeploymentApproved(i: Incident, es: seq<Event>)
    decreases |es|
  {
    es != [] && (ApprovesDeployment(i, es[0]) || DeploymentApproved(Step(i, es[0]), es[1..]))
  }

  predicate OperationApproved(i: Incident, es: seq<Event>)
    decreases |es|
  {
    es != [] && (ApprovesOperation(i, es[0]) || OperationApproved(Step(i, es[0]), es[1..]))
  }

  /** The last decision on the operation that took effect: approved or rejected. */
  function LastDecision(i: Incident, es: seq<Event>): Option<bool>
    decreases |es|
  {
    if es == [] then None
    else
      var later := LastDecision(Step(i, es[0]), es[1..]);
      if later.Some? then later
      else if ApprovesOperation(i, es[0]) then Some(true)
      else if RejectsOperation(i, es[0]) then Some(false)
      else None
  }

  lemma StepRecords(i: Incident, e: Event)
    ensures Step(i, e).deploymentApproved == (i.deploymentApproved || ApprovesDeployment(i, e))
    ensures if ApprovesOperation(i, e) then Step(i, e).operation == Some(ApprovedByAdmin)
            else if RejectsOperation(i, e) then Step(i, e).operation == Some(RejectedByAdmin)
            else (Step(i, e).operation == Some(ApprovedByAdmin) <==> i.operation == Some(ApprovedByAdmin))
                 && (Step(i, e).operation == Some(RejectedByAdmin) <==> i.operation == Some(RejectedByAdmin))
    ensures !(ApprovesOperation(i, e) && RejectsOperation(i, e))
  {
    hide CanTransition;
    assert CanTransition(WaitingApproval, ProductionDeploying) by { ApprovalIsLegal(); }
  }

  lemma ApprovalIsLegal()
    ensures CanTransition(WaitingApproval, ProductionDeploying) && CanTransition(WaitingApproval, Repairing)
    ensures CanTransition(WaitingApproval, Cancelled) && CanTransition(Paused, CollectingContext)
    ensures !CanTransition(Escalated, Resolved)
  {
  }

  /** The row's columns remember whether a deployment was approved, and only the last decision. */
  lemma {:induction false} DecisionsAreRecorded(i: Incident, es: seq<Event>)
    ensures Run(i, es).deploymentApproved == (i.deploymentApproved || DeploymentApproved(i, es))
    ensures match LastDecision(i, es)
            case Some(true) => Run(i, es).operation == Some(ApprovedByAdmin) && OperationApproved(i, es)
            case Some(false) => Run(i, es).operation == Some(RejectedByAdmin)
            case None =>
              && !OperationApproved(i, es)
              && (Run(i, es).operation == Some(ApprovedByAdmin) <==> i.operation == Some(ApprovedByAdmin))
              && (Run(i, es).operation == Some(RejectedByAdmin) <==> i.operation == Some(RejectedByAdmin))
    decreases |es|
  {
    if es != [] {
      hide Step, ApprovesDeployment, ApprovesOperation, RejectsOperation;
      StepRecords(i, es[0]);
      DecisionsAreRecorded(Step(i, es[0]), es[1..]);
    }
  }

  /** An approval of the operation took effect and a later rejection too, the last decision of all. */
  predicate Overruled(i: Incident, es: seq<Event>) {
    OperationApproved(i, es) && LastDecision(i, es) == Some(false)
  }

  /** A resolved incident counts as autonomous exactly when source recovery did not resolve it, no deployment
      approval took effect in its history, and the last decision on its operation, if any, was no approval. */
  lemma AutonomousExactly(paused: bool, es: seq<Event>)
    requires Run(Opened(paused), es).status.Resolved?
    ensures var i := Opened(paused);
      Run(i, es).autonomous <==>
        !Recovered(Run(i, es).path) && !DeploymentApproved(i, es) && LastDecision(i, es) != Some(true)
  {
    hide Run, Step;
    RunInv(Opened(paused), es);
    DecisionsAreRecorded(Opened(paused), es);
  }

  /** So it says exactly whether anybody ever approved, unless an approval was overruled by a rejection. */
  lemma AutonomousMeansUnapprovedExactly(paused: bool, es: seq<Event>)
    requires Run(Opened(paused), es).status.Resolved?
    ensures var i := Opened(paused); var recovered := Recovered(Run(i, es).path);
      (Run(i, es).autonomous <==> !recovered && !DeploymentApproved(i, es) && !OperationApproved(i, es))
        <==> recovered || DeploymentApproved(i, es) || !Overruled(i, es)
  {
    hide Run, Step;
    AutonomousExactly(paused, es);
    DecisionsAreRecorded(Opened(paused), es);
  }

  lemma {:induction false} OneMore(i: Incident, es: seq<Event>, e: Event)
    ensures Run(i, es + [e]) == Step(Run(i, es), e)
    ensures OperationApproved(i, es + [e]) == (OperationApproved(i, es) || ApprovesOperation(Run(i, es), e))
    ensures LastDecision(i, es + [e]) ==
      if ApprovesOperation(Run(i, es), e) then Some(true)
      else if RejectsOperation(Run(i, es), e) then Some(false) else LastDecision(i, es)
    decreases |es|
  {
    hide ApprovesOperation, RejectsOperation;
    if es == [] {
      assert es + [e] == [e] && [e][1..] == [];
    } else {
      assert (es + [e])[1..] == es[1..] + [e];
      OneMore(Step(i, es[0]), es[1..], e);
    }
  }

  /** Where a run from opening stands, with its operation and the decisions on it. */
  predicate Stands(es: seq<Event>, status: IncidentState, operation: Option<OperationPolicy>, last: Option<bool>) {
    var i := Run(Opened(false), es);
    && i.status == status && i.operation == operation && !i.deploymentApproved
      && LastDecision(Opened(false), es) == last
    && (last.Some? ==> OperationApproved(Opened(false), es))
  }

  lemma Walk(es: seq<Event>, from: IncidentState, next: IncidentState, operation: Option<OperationPolicy>,
    last: Option<bool>)
      returns (longer: seq<Event>)
    requires Stands(es, from, operation, last) && CanTransition(from, next)
    ensures Stands(longer, next, operation, last) && longer == es + [Transition(from, next)]
  {
    OneMore(Opened(false), es, Transition(from, next));
    longer := es + [Transition(from, next)];
  }

  /** Planning again marks the operation as waiting for approval, whatever was decided about it. */
  lemma ToWaiting(es: seq<Event>, from: IncidentState, operation: Option<OperationPolicy>, last: Option<bool>)
      returns (longer: seq<Event>)
    requires Stands(es, from, operation, last)
    requires operation.Some?
    ensures Stands(longer, WaitingApproval, operation, last) && Run(Opened(false), longer).asking
  {
    longer := ToPlanning(es, from, operation, last);
    OneMore(Opened(false), longer, MarkOperation(true));
    longer := longer + [MarkOperation(true)];
    OneMore(Opened(false), longer, Transition(Planning, WaitingApproval));
    longer := longer + [Transition(Planning, WaitingApproval)];
  }

  /** Any incident can be paused and resumed, and planned afresh. */
  lemma ToPlanning(es: seq<Event>, from: IncidentState, operation: Option<OperationPolicy>, last: Option<bool>)
      returns (longer: seq<Event>)
    requires Stands(es, from, operation, last)
    ensures Stands(longer, Planning, operation, last)
  {
    longer := Walk(es, from, Paused, operation, last);
    OneMore(Opened(false), longer, Resume);
    longer := longer + [Resume];
    longer := Walk(longer, CollectingContext, Diagnosing, operation, last);
    longer := Walk(longer, Diagnosing, Planning, operation, last);
  }

  lemma Decided(es: seq<Event>, e: Event, operation: OperationPolicy, last: Option<bool>) returns (longer: seq<Event>)
    requires Stands(es, WaitingApproval, Some(operation), last) && Run(Opened(false), es).asking
    requires e.ApproveOperation? || (e.RejectOperation? && last.Some?)
    ensures if e.ApproveOperation? then Stands(longer, Repairing, Some(ApprovedByAdmin), Some(true))
            else Stands(longer, Cancelled, Some(RejectedByAdmin), Some(false))
  {
    OneMore(Opened(false), es, e);
    longer := es + [e];
  }

  lemma OperationPlanned() returns (es: seq<Event>)
    ensures Stands(es, Open, Some(ApprovalRequiredByPolicy), None)
  {
    es := [PlanOperation(ApprovalRequiredByPolicy)];
    OneMore(Opened(false), [], es[0]);
    assert [] + [es[0]] == es;
  }

  /** It does happen: an operation is approved, the incident paused and planned again, which marks the operation
      as waiting for approval again, the same operation rejected, and the incident, resolved in the end, counts
      as autonomous. */
  lemma ApprovedYetAutonomous() returns (es: seq<Event>)
    ensures var i := Run(Opened(false), es);
      i.status.Resolved? && i.autonomous && !Recovered(i.path) && OperationApproved(Opened(false), es)
  {
    hide Stands, Run;
    es := OperationPlanned();
    es := ToWaiting(es, Open, Some(ApprovalRequiredByPolicy), None);
    es := Decided(es, ApproveOperation, ApprovalRequiredByPolicy, None);
    es := ToWaiting(es, Repairing, Some(ApprovedByAdmin), Some(true));
    es := Decided(es, RejectOperation, ApprovedByAdmin, Some(true));
    es := ToPlanning(es, Cancelled, Some(RejectedByAdmin), Some(false));
    es := Walk(es, Planning, Repairing, Some(RejectedByAdmin), Some(false));
    es := Walk(es, Repairing, VerifyingProduction, Some(RejectedByAdmin), Some(false));
    es := ResolvedRun(es);
  }

  lemma ResolvedRun(es: seq<Event>) returns (longer: seq<Event>)
    requires Stands(es, VerifyingProduction, Some(RejectedByAdmin), Some(false))
    ensures var i := Run(Opened(false), longer);
      i.status.Resolved? && i.autonomous && !Recovered(i.path) && OperationApproved(Opened(false), longer)
  {
    RunInv(Opened(false), es);
    OneMore(Opened(false), es, Transition(VerifyingProduction, Resolved));
    longer := es + [Transition(VerifyingProduction, Resolved)];
  }

  /** The row and its records as the database keeps them; `readers` and `path` are history. */
  class IncidentRow {
    var status: IncidentState
    var resolvedAt: bool
    var autonomous: bool
    var deploymentApproved: bool
    var operation: Option<OperationPolicy>
    var asking: bool
    var reverts: set<Revert>
    ghost var readers: set<Handler>
    ghost var path: seq<IncidentState>

    ghost function Value(): Incident
      reads this
    {
      Incident(status, resolvedAt, autonomous, deploymentApproved, operation, asking, reverts, readers, path)
    }

    constructor (paused: bool)
      ensures Value() == Opened(paused)
    {
      status := if paused then Paused else Open;
      resolvedAt, autonomous, deploymentApproved, operation, asking := false, false, false, None, false;
      reverts, readers := {}, {};
      path := [if paused then Paused else Open];
    }

    method TransitionIncident(expected: IncidentState, next: IncidentState) returns (ok: bool)
      modifies this
      ensures ok == (CanTransition(expected, next) && old(status) == expected)
      ensures Value() == Step(old(Value()), Transition(expected, next))
    {
      if !CanTransition(expected, next) || status != expected {
        return false;
      }
      status, path := next, path + [next];
      if next.Resolved? || next.RolledBack? {
        resolvedAt := true;
      }
      if next.Resolved? {
        autonomous := !deploymentApproved && operation != Some(ApprovedByAdmin);
      }
      return true;
    }

    method EscalateIncident()
      modifies this
      ensures Value() == Step(old(Value()), Escalate)
      ensures old(status) in {Resolved, RolledBack, IncidentState.Escalated, Failed, Cancelled} ==> Value() == old(Value())
      ensures old(status) !in {Resolved, RolledBack, IncidentState.Escalated, Failed, Cancelled} ==>
        Value() == old(Value()).(status := IncidentState.Escalated, path := old(path) + [IncidentState.Escalated])
    {
      if Closed(status) {
        return;
      }
      var ok := TransitionIncident(status, Escalated);
    }

    /** The one write outside the transition relation, under its own two checks. */
    method ResolveEscalatedSourceRecovery(revert: Revert) returns (ok: bool)
      modifies this
      ensures Value() == Step(old(Value()), ResolveRecovered(revert))
      ensures ok ==> old(status).Escalated? ==> status.Resolved?
    {
      if !status.Escalated? {
        return true;
      }
      if revert !in reverts {
        return false;
      }
      status, resolvedAt, autonomous := Resolved, true, false;
      path := path + [Resolved];
      return true;
    }
  }
}
