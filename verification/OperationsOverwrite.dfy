/**
  Which status the row of an issued restart has, in every run; and the one way it can lose it: a planning
  handler that runs again finds the incident's action stored already and marks it whatever its status is.
*/
module OperationsOverwrite {
  import opened Wrappers
  import opened Policy
  import opened RuntimeProtocol
  import opened RuntimeClient
  import opened OperationsDb
  import opened Operations
  import opened OperationsSafety
  import opened OperationsSteps
  import opened OperationsTheorems
  import OH = OperationsHistory
  import H = HelperMachine
  import Q = JobQueue

  /** What an issued restart should be recorded as: still running, proven, or unclear. */
  predicate Acted(status: ActionStatus) {
    status.Running? || status.Executed? || status.Unclear? || status.Verified? || status.VerificationFailed?
  }

  predicate AboutToSend(s: Sys, a: Id) {
    exists w | w in s.tasks :: s.tasks[w].ExecSend? && s.tasks[w].a == a
  }

  /** The execution of `a` was claimed, and its request is sent or about to be. */
  predicate Begun(s: Sys, a: Id) { a in s.sent || AboutToSend(s, a) }

  /** The mark the next statement of a handler makes. */
  function Marks(s: Sys, t: Task): Option<(IncidentId, Id, ActionStatus)> {
    match t
    case PlanApply(i, a, c) =>
      var decision := DecideOperations(Low, true, c);
      if decision.Allow? then None else Some((i, a, if decision.RequireApproval? then ApprovalRequired else OnHold))
    case ExecHold(i, a) => Some((i, a, OnHold))
    case ExecClaim(i, a, _) => if Claimable(s.db, i, a) then Some((i, a, Running)) else None
    case ExecReport(i, a, r) => Some((i, a, Verdict(r)))
    case ExecUnclear(i, a) => Some((i, a, Unclear))
    case VerifyFailed(i, a) => Some((i, a, VerificationFailed))
    case VerifyPassed(i, a) => Some((i, a, Verified))
    case _ => None
  }

  predicate MarksAs(s: Sys, s': Sys, write: Write, mark: Option<(IncidentId, Id, ActionStatus)>) {
    s'.db.actions ==
      if mark.None? || write == Lost(false) then s.db.actions
      else Mark(s.db, mark.value.0, mark.value.1, mark.value.2).actions
  }

  lemma WroteMarks(s: Sys, w: Worker, write: Write, i: IncidentId, a: Id, status: ActionStatus, t: Task)
    ensures MarksAs(s, Wrote(s, w, write, Mark(s.db, i, a, status), t), write, Some((i, a, status)))
  {
  }

  lemma TryKeepsRows(s: Sys, w: Worker, write: Write, r: Result<Db, DbError>, t: Task)
    requires r.Ok? ==> r.value.actions == s.db.actions
    ensures Try(s, w, write, r, t).db.actions == s.db.actions
  {
  }

  lemma PlanMarks(s: Sys, w: Worker, write: Write, at: int)
    requires w in s.tasks && Planner(s.tasks[w])
    ensures MarksAs(s, PlanStep(s, w, write, at), write, Marks(s, s.tasks[w]))
  {
    hide Transition, Escalate, DecideOperations, Try, Mark, Wrote, MarksAs, Enqueue;
    var db := s.db;
    match s.tasks[w]
    case PlanApply(i, a, c) =>
      if DecideOperations(Low, true, c).Allow? {
        MovedRows(s, w, write, i, Planning, Repairing, PlanEnqueue(i, a, c));
      } else if DecideOperations(Low, true, c).RequireApproval? {
        WroteMarks(s, w, write, i, a, ApprovalRequired, MoveIncident(i, Planning, WaitingApproval));
      } else {
        WroteMarks(s, w, write, i, a, OnHold, if c.killSwitch then MoveIncident(i, Planning, Paused) else EscalateNow(i));
      }
    case PlanEnqueue(i, a, c) => EnqueuedRows(s, w, write, at, i, a, c);
    case PlanStart(i) => StartedRows(s, w, write, at, i);
    case PlanBegin(i, paused, mode) =>
      MovedRows(s, w, write, i, CollectingContext, Diagnosing, PlanDecide(i, paused, mode));
    case MoveIncident(i, from, next) => MovedRows(s, w, write, i, from, next, Done(true));
    case EscalateNow(i) => EscalatedRows(s, w, write, i);
  }

  lemma MovedRows(s: Sys, w: Worker, write: Write, i: IncidentId, from: IncidentState, next: IncidentState, t: Task)
    ensures MarksAs(s, Try(s, w, write, Transition(s.db, i, from, next), t), write, None)
  {
    hide CanTransition;
    TryKeepsRows(s, w, write, Transition(s.db, i, from, next), t);
  }

  lemma EscalatedRows(s: Sys, w: Worker, write: Write, i: IncidentId)
    ensures MarksAs(s, Try(s, w, write, Escalate(s.db, i), Done(true)), write, None)
  {
    hide CanTransition;
    TryKeepsRows(s, w, write, Escalate(s.db, i), Done(true));
  }

  lemma StartedRows(s: Sys, w: Worker, write: Write, at: int, i: IncidentId)
    requires w in s.tasks && s.tasks[w] == PlanStart(i)
    ensures MarksAs(s, PlanStep(s, w, write, at), write, None)
  {
    hide CanTransition;
  }

  lemma EnqueuedRows(s: Sys, w: Worker, write: Write, at: int, i: IncidentId, a: Id, c: OperationsContext)
    requires w in s.tasks && s.tasks[w] == PlanEnqueue(i, a, c)
    ensures MarksAs(s, PlanStep(s, w, write, at), write, None)
  {
  }

  lemma ExecMarks(s: Sys, w: Worker, write: Write)
    requires w in s.tasks && Executor(s.tasks[w])
    ensures MarksAs(s, ExecStep(s, w, write), write, Marks(s, s.tasks[w]))
  {
    hide Verdict, Claimable, IsRow, Mark, Wrote;
    match s.tasks[w]
    case ExecHold(i, a) => WroteMarks(s, w, write, i, a, OnHold, MoveIncident(i, Repairing, Paused));
    case ExecClaim(i, a, target) =>
      if Claimable(s.db, i, a) { WroteMarks(s, w, write, i, a, Running, ExecSend(i, a, target)); }
    case ExecReport(i, a, r) =>
      WroteMarks(s, w, write, i, a, Verdict(r), if r.Ok? then BeginVerify(i, a) else EscalateNow(i));
    case ExecUnclear(i, a) => WroteMarks(s, w, write, i, a, Unclear, EscalateNow(i));
    case _ =>
  }

  lemma VerifyMarks(s: Sys, w: Worker, write: Write, at: int)
    requires w in s.tasks && !Planner(s.tasks[w]) && !Executor(s.tasks[w])
    ensures MarksAs(s, VerifyStep(s, w, write, at), write, Marks(s, s.tasks[w]))
  {
    hide Transition, IsRow, Clamp, Try, Mark, Wrote, Enqueue, MarksAs;
    match s.tasks[w]
    case BeginVerify(i, a) => MovedRows(s, w, write, i, Repairing, VerifyingProduction, EnqueueVerify(i, a, 0));
    case EnqueueVerify(i, a, n) => QueuedRows(s, w, write, VerifyKey(i, a, n), at);
    case VerifyFailed(i, a) => WroteMarks(s, w, write, i, a, VerificationFailed, EscalateNow(i));
    case VerifyPassed(i, a) => WroteMarks(s, w, write, i, a, Verified, VerifyResolve(i, a));
    case VerifyResolve(i, a) => MovedRows(s, w, write, i, VerifyingProduction, Resolved, Done(true));
    case VerifyStart(i, a, n) => ReadRows(s, w, write, at);
    case VerifyLoad(i, a, n) => ReadRows(s, w, write, at);
    case _ => ReadRows(s, w, write, at);
  }

  lemma QueuedRows(s: Sys, w: Worker, write: Write, key: Key, at: int)
    ensures MarksAs(s, Wrote(s, w, write, Enqueue(s.db, key, 1, at), Done(true)), write, None)
  {
  }

  lemma ReadRows(s: Sys, w: Worker, write: Write, at: int)
    requires w in s.tasks && (s.tasks[w].VerifyStart? || s.tasks[w].VerifyLoad? || VerifyStep(s, w, write, at) == s)
    ensures MarksAs(s, VerifyStep(s, w, write, at), write, None)
  {
  }

  lemma StatementMarks(s: Sys, w: Worker, write: Write, at: int)
    requires w in s.tasks
    ensures MarksAs(s, StatementStep(s, w, write, at), write, Marks(s, s.tasks[w]))
  {
    hide PlanStep, ExecStep, VerifyStep, MarksAs, Marks;
    if Planner(s.tasks[w]) {
      PlanMarks(s, w, write, at);
    } else if Executor(s.tasks[w]) {
      ExecMarks(s, w, write);
    } else {
      VerifyMarks(s, w, write, at);
    }
  }

  // Rows of begun executions.

  predicate Kept(status: ActionStatus) { Acted(status) || status.FailedClosed? }

  ghost predicate BegunKept(s: Sys) {
    forall i | i in s.db.actions && Begun(s, s.db.actions[i].id) :: Kept(s.db.actions[i].status)
  }

  /** A planning statement marks an action it was not allowed to execute. */
  predicate Overmarking(s: Sys, e: Event) {
    && e.Statement? && e.w in s.tasks && s.tasks[e.w].PlanApply? && e.write != Lost(false)
    && !DecideOperations(Low, true, s.tasks[e.w].context).Allow?
  }

  /** Such a statement marks an action whose execution has begun. */
  predicate Overmarks(s: Sys, e: Event) { Overmarking(s, e) && Begun(s, s.tasks[e.w].a) }

  /** What a statement leaves of the other handlers, the messages and the helper. */
  lemma StatementFrame(s: Sys, w: Worker, write: Write, at: int)
    requires w in s.tasks
    ensures var s' := StatementStep(s, w, write, at);
      && w in s'.tasks && s'.tasks == s.tasks[w := s'.tasks[w]] && s'.sent == s.sent && s'.helper == s.helper
      && (s'.tasks[w].ExecSend? && s'.tasks[w] != s.tasks[w] ==>
            s.tasks[w].ExecClaim? && s.tasks[w].a == s'.tasks[w].a && Claimable(s.db, s.tasks[w].i, s.tasks[w].a)
              && write.Acked?)
  {
    hide PlanStep, VerifyStep, ExecStep;
    StatementCalm(s, w, write, at);
    if Planner(s.tasks[w]) {
      OH.PlanFollows(s, w, write, at);
    } else if Executor(s.tasks[w]) {
      OH.ExecFollows(s, w, write);
      ExecSends(s, w, write);
    } else {
      OH.VerifyFollows(s, w, write, at);
      VerifySends(s, w, write, at);
    }
  }

  lemma ExecSends(s: Sys, w: Worker, write: Write)
    requires w in s.tasks && Executor(s.tasks[w])
    ensures var s' := ExecStep(s, w, write);
      w in s'.tasks && s'.tasks[w].ExecSend? ==>
        s.tasks[w].ExecClaim? && s.tasks[w].a == s'.tasks[w].a && Claimable(s.db, s.tasks[w].i, s.tasks[w].a)
          && write.Acked?
  {
    hide Verdict, IsRow, Mark;
  }

  lemma VerifySends(s: Sys, w: Worker, write: Write, at: int)
    requires w in s.tasks && !Planner(s.tasks[w]) && !Executor(s.tasks[w])
    ensures s.tasks[w].ExecSend? ==> VerifyStep(s, w, write, at) == s
    ensures var s' := VerifyStep(s, w, write, at); w in s'.tasks && s'.tasks[w].ExecSend? ==> s.tasks[w].ExecSend?
  {
    VerifyCalm(s, w, write, at);
  }

  /** A handler that holds before sending is not overtaken by another one that sends for the same action. */
  lemma HoldIsAlone(s: Sys, w: Worker)
    requires Inv(s) && w in s.tasks && s.tasks[w].ExecHold?
    ensures !Begun(s, s.tasks[w].a)
  {
    hide Inv;
    TaskFact(s, w);
    forall v | v in s.tasks && s.tasks[v].ExecSend? ensures s.tasks[v].a != s.tasks[w].a {
      if s.tasks[v].a == s.tasks[w].a { OneSender(s, v, w); }
    }
  }

  lemma BegunIn(s: Sys, s': Sys, w: Worker, a: Id)
    requires w in s.tasks && w in s'.tasks && s'.tasks == s.tasks[w := s'.tasks[w]] && s'.sent == s.sent
    requires s'.tasks[w].ExecSend? ==> s.tasks[w].ExecSend? && s.tasks[w].a == s'.tasks[w].a
    ensures Begun(s', a) ==> Begun(s, a)
    ensures !s.tasks[w].ExecSend? ==> Begun(s', a) == Begun(s, a)
  {
    if AboutToSend(s', a) {
      var v :| v in s'.tasks && s'.tasks[v].ExecSend? && s'.tasks[v].a == a;
      assert v in s.tasks && s.tasks[v].ExecSend? && s.tasks[v].a == a;
    }
    if AboutToSend(s, a) && !s.tasks[w].ExecSend? {
      var v :| v in s.tasks && s.tasks[v].ExecSend? && s.tasks[v].a == a;
      assert v in s'.tasks && s'.tasks[v] == s.tasks[v];
    }
  }

  /** What kind of status each kind of handler writes. */
  predicate Fitting(s: Sys, t: Task, mark: Option<(IncidentId, Id, ActionStatus)>) {
    && (t.PlanApply? ==> (mark.Some? <==> !DecideOperations(Low, true, t.context).Allow?))
    && (mark.Some? ==>
          var (i, a, status) := mark.value;
          && !t.ExecSend?
          && (Kept(status) || t == ExecHold(i, a) || (t.PlanApply? && t.a == a && IsRow(s.db, i, a)))
          && (t.PlanApply? || t.ExecHold? ==> !Kept(status)))
  }

  lemma MarksFit(s: Sys, t: Task)
    requires TaskOk(s, t)
    ensures Fitting(s, t, Marks(s, t))
  {
  }

  lemma StatementKeepsBegun(s: Sys, e: Event)
    requires Inv(s) && BegunKept(s) && e.Statement? && e.w in s.tasks
    ensures BegunKept(Step(s, e)) <==> !Overmarks(s, e)
  {
    hide Inv, StatementStep, Marks, DecideOperations, Begun, Kept, Fitting, MarksAs;
    var w, s', mark := e.w, Step(s, e), Marks(s, s.tasks[e.w]);
    StatementMarks(s, w, e.write, e.at);
    StatementFrame(s, w, e.write, e.at);
    TaskFact(s, w);
    IdsFact(s);
    if s'.tasks[w].ExecSend? && s'.tasks[w] != s.tasks[w] {
      ClaimKeepsBegun(s, s', w, e.write);
    } else {
      forall a ensures Begun(s', a) ==> Begun(s, a)
               ensures !s.tasks[w].ExecSend? ==> Begun(s', a) == Begun(s, a) {
        BegunIn(s, s', w, a);
      }
      MarksFit(s, s.tasks[w]);
      if s.tasks[w].ExecHold? { HoldIsAlone(s, w); }
      MarkKeepsBegun(s, s', e, mark);
    }
  }

  /** The claim itself: the row is running when its request is about to be sent. */
  lemma ClaimKeepsBegun(s: Sys, s': Sys, w: Worker, write: Write)
    requires BegunKept(s) && IdsOk(s.db) && w in s.tasks && s.tasks[w].ExecClaim? && write.Acked?
    requires Claimable(s.db, s.tasks[w].i, s.tasks[w].a) && MarksAs(s, s', write, Marks(s, s.tasks[w]))
    requires w in s'.tasks && s'.tasks == s.tasks[w := s'.tasks[w]] && s'.sent == s.sent
    requires s'.tasks[w].ExecSend? && s'.tasks[w].a == s.tasks[w].a
    ensures BegunKept(s')
  {
    var a := s.tasks[w].a;
    forall x | Begun(s', x) && x != a ensures Begun(s, x) {
      if AboutToSend(s', x) {
        var v :| v in s'.tasks && s'.tasks[v].ExecSend? && s'.tasks[v].a == x;
        assert v in s.tasks && s.tasks[v].ExecSend? && s.tasks[v].a == x;
      }
    }
  }

  lemma MarkKeepsBegun(s: Sys, s': Sys, e: Event, mark: Option<(IncidentId, Id, ActionStatus)>)
    requires BegunKept(s) && IdsOk(s.db) && e.Statement? && e.w in s.tasks
    requires MarksAs(s, s', e.write, mark) && forall a :: Begun(s', a) ==> Begun(s, a)
    requires !s.tasks[e.w].ExecSend? ==> forall a :: Begun(s', a) == Begun(s, a)
    requires Fitting(s, s.tasks[e.w], mark) && (s.tasks[e.w].ExecHold? ==> !Begun(s, s.tasks[e.w].a))
    ensures BegunKept(s') <==> !Overmarks(s, e)
  {
    hide DecideOperations, Begun, Kept;
    if Overmarks(s, e) {
      assert s'.db.actions[mark.value.0].status == mark.value.2 && s'.db.actions[mark.value.0].id == mark.value.1;
    }
  }

  // The other steps begin nothing and mark nothing that has begun.

  lemma SameRowsKeepBegun(s: Sys, s': Sys)
    requires BegunKept(s) && s'.db.actions == s.db.actions && forall a | Begun(s', a) :: Begun(s, a)
    ensures BegunKept(s')
  {
  }

  lemma SenderHasRow(s: Sys, a: Id)
    requires Inv(s) && Begun(s, a)
    ensures exists i :: IsRow(s.db, i, a)
  {
    hide Inv;
    SentFact(s);
    if a in s.sent {
      assert IsRow(s.db, s.sent[a].i, a);
    } else {
      var w :| w in s.tasks && s.tasks[w].ExecSend? && s.tasks[w].a == a;
      TaskFact(s, w);
      Started(s, w);
      assert IsRow(s.db, s.tasks[w].i, a);
    }
  }

  lemma PersistKeepsBegun(s: Sys, w: Worker, id: Id, enabled: bool, clear: bool, write: Write)
    requires Inv(s) && BegunKept(s) && w in s.tasks && s.tasks[w].PlanPersist?
    ensures BegunKept(PersistStep(s, w, id, enabled, clear, write))
  {
    hide Inv, DecideOperations, NameOf;
    var s' := PersistStep(s, w, id, enabled, clear, write);
    forall a | Begun(s', a) ensures Begun(s, a) {
      if AboutToSend(s', a) {
        var v :| v in s'.tasks && s'.tasks[v].ExecSend? && s'.tasks[v].a == a;
        assert v in s.tasks && s.tasks[v] == s'.tasks[v];
      }
    }
    if FreshId(s, id) && Begun(s, id) {
      SenderHasRow(s, id);
    }
  }

  lemma AdminKeepsBegun(s: Sys, change: AdminEvent)
    requires BegunKept(s)
    ensures BegunKept(AdminSys(s, change))
  {
    var s' := AdminSys(s, change);
    assert s'.tasks == s.tasks && s'.sent == s.sent;
    assert forall a :: Begun(s', a) == Begun(s, a);
  }

  /** Handlers only come or go, or move on without beginning to send. */
  predicate NoNewSender(s: Sys, s': Sys) {
    forall w | w in s'.tasks && s'.tasks[w].ExecSend? :: w in s.tasks && s.tasks[w] == s'.tasks[w]
  }

  lemma NothingBegins(s: Sys, s': Sys)
    requires BegunKept(s) && s'.db.actions == s.db.actions && NoNewSender(s, s')
    requires forall a | a in s'.sent :: Begun(s, a)
    ensures BegunKept(s')
  {
    forall a | Begun(s', a) ensures Begun(s, a) {
      if a !in s'.sent {
        var v :| v in s'.tasks && s'.tasks[v].ExecSend? && s'.tasks[v].a == a;
        assert v in s.tasks && s.tasks[v] == s'.tasks[v];
      }
    }
    SameRowsKeepBegun(s, s');
  }

  lemma SendKeepsBegun(s: Sys, w: Worker, client: Option<HelperError>, size: nat, t: Traffic, credential: string)
    requires BegunKept(s) && w in s.tasks && s.tasks[w].ExecSend?
    ensures BegunKept(SendStep(s, w, client, size, t, credential))
  {
    hide RequestRestart, ValidTargetId, Sent;
    assert AboutToSend(s, s.tasks[w].a);
    NothingBegins(s, SendStep(s, w, client, size, t, credential));
  }

  lemma DecideSendsNot(s: Sys, w: Worker, d: Operations.Decision, write: Write)
    requires w in s.tasks && s.tasks[w].PlanDecide?
    ensures var s' := DecideStep(s, w, d, write);
      NoNewSender(s, s') && s'.db.actions == s.db.actions && s'.sent == s.sent && s'.helper == s.helper
  {
    hide CanTransition;
  }

  lemma ReceiveSendsNot(s: Sys, w: Worker, size: nat, t: Traffic)
    requires w in s.tasks && s.tasks[w].ExecWait?
    ensures var s' := ReceiveStep(s, w, size, t);
      NoNewSender(s, s') && s'.db.actions == s.db.actions && s'.sent == s.sent && s'.helper == s.helper
  {
    hide RequestRestart, ValidTargetId, Sent, Genuine;
  }

  lemma CheckSendsNot(s: Sys, w: Worker, http: bool, container: bool)
    requires w in s.tasks && s.tasks[w].VerifyProbe?
    ensures var s' := CheckStep(s, w, http, container);
      NoNewSender(s, s') && s'.db.actions == s.db.actions && s'.sent == s.sent && s'.helper == s.helper
  {
  }

  lemma SameSendsNot(s: Sys)
    ensures NoNewSender(s, s)
  {
  }

  /** Steps of handlers that write no row and send nothing. */
  lemma HandlerSendsNot(s: Sys, e: Event)
    requires e.Decide? || e.Receive? || e.Check?
    ensures var s' := Step(s, e);
      NoNewSender(s, s') && s'.db.actions == s.db.actions && s'.sent == s.sent && s'.helper == s.helper
  {
    hide NoNewSender, DecideStep, ReceiveStep, CheckStep;
    SameSendsNot(s);
    match e
    case Decide(w, d, write) => if w in s.tasks && s.tasks[w].PlanDecide? { DecideSendsNot(s, w, d, write); }
    case Receive(w, size, t) => if w in s.tasks && s.tasks[w].ExecWait? { ReceiveSendsNot(s, w, size, t); }
    case Check(w, http, container) =>
      if w in s.tasks && s.tasks[w].VerifyProbe? { CheckSendsNot(s, w, http, container); }
  }

  lemma HandlerKeepsBegun(s: Sys, e: Event)
    requires BegunKept(s) && (e.Decide? || e.Receive? || e.Check?)
    ensures BegunKept(Step(s, e))
  {
    hide Step, BegunKept, Begun, NoNewSender;
    HandlerSendsNot(s, e);
    SentHaveBegun(s);
    NothingBegins(s, Step(s, e));
  }

  lemma SentHaveBegun(s: Sys)
    ensures forall a | a in s.sent :: Begun(s, a)
  {
  }

  lemma RestKeepsBegun(s: Sys, e: Event)
    requires BegunKept(s)
    requires !e.Statement? && !e.Decide? && !e.PersistAction? && !e.Send? && !e.Receive? && !e.Check? && !e.Administer?
    ensures BegunKept(Step(s, e))
  {
    hide CanTransition, BegunKept, Begun, Q.Takes, Q.Claimed, Q.Finished, Q.FailedAttempt, Q.Crashed, Q.Enqueued;
    SentHaveBegun(s);
    NothingBegins(s, Step(s, e));
  }

  /** One step keeps every begun execution's row at what execution and verification wrote, exactly when it is
      not a planning statement marking it over. */
  lemma BegunStep(s: Sys, e: Event)
    requires Inv(s) && BegunKept(s)
    ensures BegunKept(Step(s, e)) <==> !Overmarks(s, e)
  {
    hide Inv, BegunKept, Begun;
    match e
    case Statement(w, write, at) => if w in s.tasks { StatementKeepsBegun(s, e); }
    case PersistAction(w, id, enabled, clear, write) =>
      if w in s.tasks && s.tasks[w].PlanPersist? { PersistKeepsBegun(s, w, id, enabled, clear, write); }
    case Administer(change) => AdminKeepsBegun(s, change);
    case Send(w, client, size, t, credential) =>
      if w in s.tasks && s.tasks[w].ExecSend? { SendKeepsBegun(s, w, client, size, t, credential); }
    case _ =>
      if e.Decide? || e.Receive? || e.Check? { HandlerKeepsBegun(s, e); } else { RestKeepsBegun(s, e); }
  }

  ghost predicate NeverOvermarks(s: Sys, es: seq<Event>)
    decreases |es|
  {
    es == [] || (!Overmarks(s, es[0]) && NeverOvermarks(Step(s, es[0]), es[1..]))
  }

  ghost predicate AlwaysBegunKept(s: Sys, es: seq<Event>)
    decreases |es|
  {
    BegunKept(s) && (es == [] || AlwaysBegunKept(Step(s, es[0]), es[1..]))
  }

  lemma {:induction false} BegunRun(s: Sys, es: seq<Event>)
    requires Inv(s) && BegunKept(s)
    ensures AlwaysBegunKept(s, es) <==> NeverOvermarks(s, es)
    decreases |es|
  {
    if es != [] {
      hide Inv, BegunKept, Overmarks, Step;
      BegunStep(s, es[0]);
      if !Overmarks(s, es[0]) {
        OperationsSteps.StepInv(s, es[0]);
        BegunRun(Step(s, es[0]), es[1..]);
      } else {
        KeptNow(Step(s, es[0]), es[1..]);
      }
    }
  }

  lemma KeptNow(s: Sys, es: seq<Event>)
    ensures AlwaysBegunKept(s, es) ==> BegunKept(s)
  {
  }

  /** In every run, every row whose execution was claimed and sent, or is about to be, is at every moment
      RUNNING, EXECUTED, FAILED_CLOSED, AMBIGUOUS, VERIFIED or VERIFICATION_FAILED, exactly when no planning
      statement marks such a row. */
  lemma BegunRowsExactly(config: HelperConfig, es: seq<Event>)
    ensures AlwaysBegunKept(Init(config), es) <==> NeverOvermarks(Init(config), es)
  {
    OperationsSafety.InitInv(config);
    BegunRun(Init(config), es);
  }

  // Rows of issued restarts.

  /** Every row whose restart was issued says so: RUNNING, EXECUTED, AMBIGUOUS or the verdict of verification. */
  ghost predicate IssuedActed(s: Sys) {
    forall i | i in s.db.actions && Issued(s, s.db.actions[i].id) :: Acted(s.db.actions[i].status)
  }

  /** A planning statement marks an action whose restart was issued. */
  ghost predicate OvermarksIssued(s: Sys, e: Event) { Overmarking(s, e) && Issued(s, s.tasks[e.w].a) }

  /** The helper hands Docker the restart of an action that was marked over while the request was under way. */
  predicate LaunchesOvermarked(s: Sys, e: Event) {
    && e.HelperStep? && e.e.Launch? && e.e.call in s.helper.calls && s.helper.calls[e.e.call].pc.Launching?
    && exists i | i in s.db.actions ::
         s.db.actions[i].id == s.helper.calls[e.e.call].id && !Acted(s.db.actions[i].status)
  }

  lemma IssuedIsBegun(s: Sys, a: Id)
    requires Inv(s) && Issued(s, a)
    ensures a in s.sent && Begun(s, a)
  {
    var k :| 0 <= k < |s.helper.issued| && s.helper.issued[k].id == a;
    IssueHasRow(s, k);
  }

  lemma StatementKeepsIssued(s: Sys, e: Event)
    requires Inv(s) && IssuedActed(s) && e.Statement? && e.w in s.tasks
    ensures IssuedActed(Step(s, e)) <==> !OvermarksIssued(s, e)
  {
    hide Inv, StatementStep, Marks, DecideOperations, Begun, Issued, Fitting, MarksAs, Acted;
    var w, s', mark := e.w, Step(s, e), Marks(s, s.tasks[e.w]);
    StatementMarks(s, w, e.write, e.at);
    StatementFrame(s, w, e.write, e.at);
    TaskFact(s, w);
    IdsFact(s);
    MarksFit(s, s.tasks[w]);
    SameIssued(s, s');
    if mark.Some? { MarkOfIssued(s, w, mark); }
    MarkKeepsIssued(s, s', e, mark);
  }

  lemma SameIssued(s: Sys, s': Sys)
    requires s'.helper == s.helper
    ensures forall a :: Issued(s', a) == Issued(s, a)
  {
  }

  /** Execution and verification never mark an issued restart with anything else. */
  lemma MarkOfIssued(s: Sys, w: Worker, mark: Option<(IncidentId, Id, ActionStatus)>)
    requires Inv(s) && w in s.tasks && mark == Marks(s, s.tasks[w]) && mark.Some?
    requires TaskOk(s, s.tasks[w]) && Fitting(s, s.tasks[w], mark)
    ensures s.tasks[w].PlanApply? || Acted(mark.value.2) || !Issued(s, mark.value.1)
  {
    hide Inv, Issued, Begun, DecideOperations;
    var t := s.tasks[w];
    if t.ExecHold? {
      HoldIsAlone(s, w);
      if Issued(s, t.a) { IssuedIsBegun(s, t.a); }
    } else if t.ExecReport? && Verdict(t.result).FailedClosed? {
      ShutOutNone(s, t.i, t.a);
    }
  }

  lemma MarkKeepsIssued(s: Sys, s': Sys, e: Event, mark: Option<(IncidentId, Id, ActionStatus)>)
    requires IssuedActed(s) && IdsOk(s.db) && e.Statement? && e.w in s.tasks
    requires MarksAs(s, s', e.write, mark) && forall a :: Issued(s', a) == Issued(s, a)
    requires Fitting(s, s.tasks[e.w], mark)
    requires mark.Some? ==> s.tasks[e.w].PlanApply? || Acted(mark.value.2) || !Issued(s, mark.value.1)
    ensures IssuedActed(s') <==> !OvermarksIssued(s, e)
  {
    hide DecideOperations, Issued;
    if OvermarksIssued(s, e) {
      assert s'.db.actions[mark.value.0].status == mark.value.2 && s'.db.actions[mark.value.0].id == mark.value.1;
    }
  }

  lemma PersistKeepsIssued(s: Sys, w: Worker, id: Id, enabled: bool, clear: bool, write: Write)
    requires Inv(s) && IssuedActed(s) && w in s.tasks && s.tasks[w].PlanPersist?
    ensures IssuedActed(PersistStep(s, w, id, enabled, clear, write))
  {
    hide Inv, DecideOperations, NameOf, Issued;
    SameIssued(s, PersistStep(s, w, id, enabled, clear, write));
    if Issued(s, id) { IssuedIsBegun(s, id); }
  }

  lemma AdminKeepsIssued(s: Sys, change: AdminEvent)
    requires IssuedActed(s)
    ensures IssuedActed(AdminSys(s, change))
  {
    hide Issued;
    SameIssued(s, AdminSys(s, change));
  }

  lemma SameKeepsIssued(s: Sys, s': Sys)
    requires IssuedActed(s) && s'.db.actions == s.db.actions && forall a | Issued(s', a) :: Issued(s, a)
    ensures IssuedActed(s')
  {
  }

  lemma LaunchKeepsIssued(s: Sys, e: Event)
    requires Inv(s) && IssuedActed(s) && e.HelperStep?
    ensures IssuedActed(Step(s, e)) <==> !LaunchesOvermarked(s, e)
  {
    hide Inv, Acted, H.Step;
    var h, h' := s.helper, Step(s, e).helper;
    HelperIssues(h, e.e);
    if e.e.Launch? && e.e.call in h.calls && h.calls[e.e.call].pc.Launching? {
      var a := h.calls[e.e.call].id;
      assert forall x :: Issued(Step(s, e), x) <==> Issued(s, x) || x == a by { IssuedMore(s, Step(s, e), a); }
    }
  }

  lemma IssuedMore(s: Sys, s': Sys, a: Id)
    requires |s'.helper.issued| == |s.helper.issued| + 1 && s'.helper.issued[..|s.helper.issued|] == s.helper.issued
    requires s'.helper.issued[|s.helper.issued|].id == a
    ensures forall x :: Issued(s', x) <==> Issued(s, x) || x == a
  {
    var n := |s.helper.issued|;
    assert forall k | 0 <= k < n :: s'.helper.issued[k] == s'.helper.issued[..n][k];
  }

  lemma HelperIssues(h: H.Helper, e: H.Event)
    ensures var h' := H.Step(h, e);
      if e.Launch? && e.call in h.calls && h.calls[e.call].pc.Launching?
      then |h'.issued| == |h.issued| + 1 && h'.issued[..|h.issued|] == h.issued
        && h'.issued[|h.issued|].id == h.calls[e.call].id
      else h'.issued == h.issued
  {
    hide H.ClaimIo, H.CompleteIo;
  }

  lemma DeliverKeepsIssued(s: Sys, m: Message, c: H.CallId, peer: nat)
    ensures var s' := DeliverStep(s, m, c, peer); s'.db == s.db && s'.helper.issued == s.helper.issued
  {
  }

  lemma RestKeepsIssued(s: Sys, e: Event)
    requires !e.Statement? && !e.Decide? && !e.PersistAction? && !e.Receive? && !e.Check? && !e.Administer?
      && !e.HelperStep?
    ensures Step(s, e).db.actions == s.db.actions && Step(s, e).helper.issued == s.helper.issued
  {
    hide CanTransition, Q.Takes, Q.Claimed, Q.Finished, Q.FailedAttempt, Q.Crashed, Q.Enqueued, RequestRestart,
      ValidTargetId, Sent, DeliverStep;
    if e.Deliver? { DeliverKeepsIssued(s, e.m, e.call, e.peer); }
  }

  /** One step keeps every issued restart's row saying so, exactly when it is neither a planning statement
      marking it over nor the helper launching the restart of a row marked over before. */
  lemma IssuedStep(s: Sys, e: Event)
    requires Inv(s) && IssuedActed(s)
    ensures IssuedActed(Step(s, e)) <==> !OvermarksIssued(s, e) && !LaunchesOvermarked(s, e)
  {
    hide Inv, IssuedActed, Issued;
    match e
    case Statement(w, write, at) => if w in s.tasks { StatementKeepsIssued(s, e); }
    case PersistAction(w, id, enabled, clear, write) =>
      if w in s.tasks && s.tasks[w].PlanPersist? { PersistKeepsIssued(s, w, id, enabled, clear, write); }
    case Administer(change) => AdminKeepsIssued(s, change);
    case HelperStep(he) => LaunchKeepsIssued(s, e);
    case _ =>
      if e.Decide? || e.Receive? || e.Check? {
        HandlerSendsNot(s, e);
        SameIssued(s, Step(s, e));
      } else {
        RestKeepsIssued(s, e);
        SameIssues(s, Step(s, e));
      }
      SameKeepsIssued(s, Step(s, e));
  }

  lemma SameIssues(s: Sys, s': Sys)
    requires s'.helper.issued == s.helper.issued
    ensures forall a :: Issued(s', a) == Issued(s, a)
  {
  }

  ghost predicate NeverOvermarksIssued(s: Sys, es: seq<Event>)
    decreases |es|
  {
    es == [] || (!OvermarksIssued(s, es[0]) && !LaunchesOvermarked(s, es[0])
      && NeverOvermarksIssued(Step(s, es[0]), es[1..]))
  }

  ghost predicate AlwaysIssuedActed(s: Sys, es: seq<Event>)
    decreases |es|
  {
    IssuedActed(s) && (es == [] || AlwaysIssuedActed(Step(s, es[0]), es[1..]))
  }

  lemma {:induction false} IssuedRun(s: Sys, es: seq<Event>)
    requires Inv(s) && IssuedActed(s)
    ensures AlwaysIssuedActed(s, es) <==> NeverOvermarksIssued(s, es)
    decreases |es|
  {
    if es != [] {
      hide Inv, IssuedActed, OvermarksIssued, LaunchesOvermarked, Step;
      IssuedStep(s, es[0]);
      if IssuedActed(Step(s, es[0])) {
        OperationsSteps.StepInv(s, es[0]);
        IssuedRun(Step(s, es[0]), es[1..]);
      } else {
        ActedNow(Step(s, es[0]), es[1..]);
      }
    }
  }

  lemma ActedNow(s: Sys, es: seq<Event>)
    ensures AlwaysIssuedActed(s, es) ==> IssuedActed(s)
  {
  }

  /** In every run, an execution whose restart was issued is at every moment recorded as RUNNING, AMBIGUOUS,
      EXECUTED, VERIFIED or VERIFICATION_FAILED, exactly when no planning statement marks an issued action
      over, and none is issued after having been marked over. */
  lemma IssuedRowsExactly(config: HelperConfig, es: seq<Event>)
    ensures AlwaysIssuedActed(Init(config), es) <==> NeverOvermarksIssued(Init(config), es)
  {
    OperationsSafety.InitInv(config);
    IssuedRun(Init(config), es);
  }

  /** In particular an issued restart that the helper has not proven is RUNNING or AMBIGUOUS then. */
  lemma UnprovenIsOpen(config: HelperConfig, es: seq<Event>, i: IncidentId)
    requires NeverOvermarksIssued(Init(config), es) && i in Run(Init(config), es).db.actions
    ensures var s := Run(Init(config), es); var row := s.db.actions[i];
      Issued(s, row.id) && !RestartedOnce(s, row.id) ==> row.status.Running? || row.status.Unclear?
  {
    hide Run, Issued, RestartedOnce, NeverOvermarksIssued, IssuedActed;
    IssuedRowsExactly(config, es);
    ActedAtEnd(Init(config), es);
    RowsTellTheTruth(config, es, i);
    RowActed(Run(Init(config), es), i);
  }

  lemma {:induction false} ActedAtEnd(s: Sys, es: seq<Event>)
    requires AlwaysIssuedActed(s, es)
    ensures IssuedActed(Run(s, es))
    decreases |es|
  {
    hide IssuedActed, Step;
    if es != [] { ActedAtEnd(Step(s, es[0]), es[1..]); }
  }

  lemma RowActed(s: Sys, i: IncidentId)
    requires IssuedActed(s) && i in s.db.actions
    ensures Issued(s, s.db.actions[i].id) ==> Acted(s.db.actions[i].status)
  {
  }

  lemma BegunMeansIssuedActed(s: Sys)
    requires Inv(s) && BegunKept(s)
    ensures IssuedActed(s)
  {
    hide Inv, Begun, Issued;
    forall i | i in s.db.actions && Issued(s, s.db.actions[i].id) ensures Acted(s.db.actions[i].status) {
      IssuedIsBegun(s, s.db.actions[i].id);
      if s.db.actions[i].status.FailedClosed? {
        RowFact(s, i);
        ShutOutNone(s, i, s.db.actions[i].id);
      }
    }
  }

  /** So where no planning statement marks a row that has begun, every issued restart's row says so always. */
  lemma {:induction false} IssuedRowsActed(s: Sys, es: seq<Event>)
    requires Inv(s) && BegunKept(s) && NeverOvermarks(s, es)
    ensures AlwaysIssuedActed(s, es)
    decreases |es|
  {
    hide Inv, BegunKept, IssuedActed, Overmarks, Step;
    BegunMeansIssuedActed(s);
    if es != [] {
      BegunStep(s, es[0]);
      OperationsSteps.StepInv(s, es[0]);
      IssuedRowsActed(Step(s, es[0]), es[1..]);
    }
  }
}
