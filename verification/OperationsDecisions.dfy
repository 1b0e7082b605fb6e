/**
  Decisions on an operation in the whole system: an administrator's first decision stays the only one, as
  long as planning does not open the decided row again.
*/
module OperationsDecisions {
  import opened Wrappers
  import opened Policy
  import opened RuntimeProtocol
  import opened RuntimeClient
  import opened OperationsDb
  import opened Operations
  import opened OperationsTheorems
  import opened OperationsOverwrite
  import OH = OperationsHistory
  import Q = JobQueue

  predicate Decided(row: Action) { row.policy.ByApproval? || row.policy.ByRejection? }

  /** An administrator's decision on the operation of `i` changes its row. */
  predicate TakesEffect(s: Sys, e: Event, i: IncidentId) {
    && e.Administer? && (e.change.DoApprove? || e.change.DoReject?) && e.change.i == i
    && Step(s, e).db.actions != s.db.actions
  }

  /** A further decision takes effect on an operation that was decided before. */
  predicate DecidedAgain(s: Sys, e: Event, i: IncidentId) {
    i in s.db.actions && Decided(s.db.actions[i]) && TakesEffect(s, e, i)
  }

  /** The row was decided, and waits for approval nevertheless. */
  predicate Reopened(s: Sys, i: IncidentId) {
    i in s.db.actions && Decided(s.db.actions[i]) && s.db.actions[i].status.ApprovalRequired?
  }

  /** A planning statement asks for approval of an operation that was decided before. */
  predicate Reopens(s: Sys, e: Event, i: IncidentId) {
    && e.Statement? && e.w in s.tasks && e.write != Lost(false)
    && s.tasks[e.w].PlanApply? && s.tasks[e.w].i == i && IsRow(s.db, i, s.tasks[e.w].a)
    && DecideOperations(Low, true, s.tasks[e.w].context).RequireApproval? && Decided(s.db.actions[i])
  }

  lemma StatementReopens(s: Sys, e: Event, i: IncidentId)
    requires e.Statement? && e.w in s.tasks && !Reopened(s, i)
    ensures Reopened(Step(s, e), i) <==> Reopens(s, e, i)
  {
    StatementMarks(s, e.w, e.write, e.at);
    MarkReopens(s, Step(s, e), e, i);
  }

  lemma MarkReopens(s: Sys, s': Sys, e: Event, i: IncidentId)
    requires e.Statement? && e.w in s.tasks && !Reopened(s, i)
    requires MarksAs(s, s', e.write, Marks(s, s.tasks[e.w]))
    ensures Reopened(s', i) <==> Reopens(s, e, i)
  {
    hide DecideOperations, Claimable;
  }

  lemma PersistReopensNot(s: Sys, w: Worker, id: Id, enabled: bool, clear: bool, write: Write, i: IncidentId)
    requires w in s.tasks && s.tasks[w].PlanPersist? && !Reopened(s, i)
    ensures !Reopened(PersistStep(s, w, id, enabled, clear, write), i)
  {
    hide DecideOperations;
  }

  lemma AdminReopensNot(s: Sys, change: AdminEvent, i: IncidentId)
    requires !Reopened(s, i)
    ensures !Reopened(AdminSys(s, change), i)
  {
  }

  lemma RestKeepsRows(s: Sys, e: Event)
    requires !e.Statement? && !e.PersistAction? && !e.Administer?
    ensures Step(s, e).db.actions == s.db.actions
  {
    if e.Decide? || e.Receive? || e.Check? {
      HandlerSendsNot(s, e);
    } else {
      OthersKeepRows(s, e);
    }
  }

  lemma OthersKeepRows(s: Sys, e: Event)
    requires !e.Statement? && !e.PersistAction? && !e.Administer? && !e.Decide? && !e.Receive? && !e.Check?
    ensures Step(s, e).db.actions == s.db.actions
  {
    hide CanTransition, RequestRestart, ValidTargetId, Sent, Q.Takes, Q.Claimed, Q.Finished, Q.FailedAttempt, Q.Crashed,
      Q.Enqueued;
  }

  /** One step opens a decided row again exactly when it is such a statement. */
  lemma ReopenStep(s: Sys, e: Event, i: IncidentId)
    requires !Reopened(s, i)
    ensures Reopened(Step(s, e), i) <==> Reopens(s, e, i)
  {
    hide Reopened, Reopens;
    match e
    case Statement(w, write, at) =>
      if w in s.tasks { StatementReopens(s, e, i); } else { ReopensNot(s, e, i); }
    case PersistAction(w, id, enabled, clear, write) =>
      if w in s.tasks && s.tasks[w].PlanPersist? { PersistReopensNot(s, w, id, enabled, clear, write, i); }
      ReopensNot(s, e, i);
    case Administer(change) =>
      AdminReopensNot(s, change, i);
      ReopensNot(s, e, i);
    case _ =>
      RestKeepsRows(s, e);
      SameReopened(s, Step(s, e), i);
      ReopensNot(s, e, i);
  }

  lemma ReopensNot(s: Sys, e: Event, i: IncidentId)
    requires !e.Statement? || e.w !in s.tasks
    ensures !Reopens(s, e, i)
  {
  }

  lemma SameReopened(s: Sys, s': Sys, i: IncidentId)
    requires s'.db.actions == s.db.actions
    ensures Reopened(s', i) == Reopened(s, i)
  {
  }

  predicate NeverReopened(s: Sys, es: seq<Event>, i: IncidentId)
    decreases |es|
  {
    !Reopened(s, i) && (es == [] || NeverReopened(Step(s, es[0]), es[1..], i))
  }

  predicate NeverReopens(s: Sys, es: seq<Event>, i: IncidentId)
    decreases |es|
  {
    es == [] || (!Reopens(s, es[0], i) && NeverReopens(Step(s, es[0]), es[1..], i))
  }

  lemma {:induction false} ReopenRun(s: Sys, es: seq<Event>, i: IncidentId)
    requires !Reopened(s, i)
    ensures NeverReopened(s, es, i) <==> NeverReopens(s, es, i)
    decreases |es|
  {
    hide Step, Reopened, Reopens;
    if es != [] {
      ReopenStep(s, es[0], i);
      if !Reopens(s, es[0], i) { ReopenRun(Step(s, es[0]), es[1..], i); }
    }
  }

  /** In every run, no decided operation ever waits for approval again, exactly when no planning statement asks
      for approval of a decided one. */
  lemma DecidedRowsExactly(config: HelperConfig, es: seq<Event>, i: IncidentId)
    ensures NeverReopened(Init(config), es, i) <==> NeverReopens(Init(config), es, i)
  {
    ReopenRun(Init(config), es, i);
  }

  lemma OnlyReopened(s: Sys, e: Event, i: IncidentId)
    requires DecidedAgain(s, e, i)
    ensures Reopened(s, i)
  {
  }

  lemma {:induction false} SettledRun(s: Sys, es: seq<Event>, e: Event, i: IncidentId)
    requires !Reopened(s, i) && NeverReopens(s, es, i)
    ensures !DecidedAgain(Run(s, es), e, i)
    decreases |es|
  {
    hide Step, Reopened, Reopens, DecidedAgain;
    if es == [] {
      if DecidedAgain(s, e, i) { OnlyReopened(s, e, i); }
    } else {
      ReopenStep(s, es[0], i);
      SettledRun(Step(s, es[0]), es[1..], e, i);
    }
  }

  /** In such runs at most one decision on an operation takes effect. */
  lemma DecidedOnce(config: HelperConfig, es: seq<Event>, n: nat, i: IncidentId)
    requires n < |es| && NeverReopens(Init(config), es[..n], i)
    ensures !DecidedAgain(At(config, es, n), es[n], i)
  {
    SettledRun(Init(config), es[..n], es[n], i);
  }

  // A decided row has an incident.

  predicate Placed(s: Sys, i: IncidentId) { i in s.db.actions && Decided(s.db.actions[i]) ==> i in s.db.incidents }

  lemma StatementPlaces(s: Sys, e: Event, i: IncidentId)
    requires e.Statement? && e.w in s.tasks && Placed(s, i)
    ensures Placed(Step(s, e), i)
  {
    hide StatementStep;
    StatementMarks(s, e.w, e.write, e.at);
    OH.StatementMoves(s, e.w, e.write, e.at);
    MarkPlaces(s, Step(s, e), e, i);
  }

  lemma MarkPlaces(s: Sys, s': Sys, e: Event, i: IncidentId)
    requires e.Statement? && e.w in s.tasks && Placed(s, i)
    requires MarksAs(s, s', e.write, Marks(s, s.tasks[e.w])) && OH.MovesTo(s, s', OH.Target(s.tasks[e.w]))
    ensures Placed(s', i)
  {
    hide Marks, OH.Target;
  }

  lemma PersistPlaces(s: Sys, w: Worker, id: Id, enabled: bool, clear: bool, write: Write, i: IncidentId)
    requires w in s.tasks && s.tasks[w].PlanPersist? && Placed(s, i)
    ensures Placed(PersistStep(s, w, id, enabled, clear, write), i)
  {
    hide DecideOperations;
  }

  lemma AdminPlaces(s: Sys, change: AdminEvent, i: IncidentId)
    requires Placed(s, i)
    ensures Placed(AdminSys(s, change), i)
  {
  }

  lemma RestPlaces(s: Sys, e: Event)
    requires !e.Statement? && !e.PersistAction? && !e.Administer?
    ensures s.db.incidents.Keys <= Step(s, e).db.incidents.Keys
  {
    hide CanTransition, RequestRestart, ValidTargetId, Sent, Genuine, Q.Takes, Q.Claimed, Q.Finished, Q.FailedAttempt,
      Q.Crashed, Q.Enqueued;
  }

  lemma PlacedStep(s: Sys, e: Event, i: IncidentId)
    requires Placed(s, i)
    ensures Placed(Step(s, e), i)
  {
    hide StatementStep, PersistStep, AdminSys;
    match e
    case Statement(w, write, at) => if w in s.tasks { StatementPlaces(s, e, i); }
    case PersistAction(w, id, enabled, clear, write) =>
      if w in s.tasks && s.tasks[w].PlanPersist? { PersistPlaces(s, w, id, enabled, clear, write, i); }
    case Administer(change) => AdminPlaces(s, change, i);
    case _ =>
      RestKeepsRows(s, e);
      RestPlaces(s, e);
  }

  lemma {:induction false} PlacedRun(s: Sys, es: seq<Event>, i: IncidentId)
    requires Placed(s, i)
    ensures Placed(Run(s, es), i)
    decreases |es|
  {
    if es != [] {
      hide Placed, Step;
      PlacedStep(s, es[0], i);
      PlacedRun(Step(s, es[0]), es[1..], i);
    }
  }

  // And a decided row that waits again can be decided again.

  lemma Moved(s: Sys, i: IncidentId, next: IncidentState)
    requires i in s.db.incidents && CanTransition(s.db.incidents[i], next)
    ensures Step(s, OtherPipeline(i, next)) == s.(db := s.db.(incidents := s.db.incidents[i := next]))
    ensures !Reopens(s, OtherPipeline(i, next), i)
  {
    hide CanTransition;
  }

  /** The other pipelines may bring any incident to wait for approval. */
  lemma {:induction false} ToWaiting(s: Sys, i: IncidentId, path: seq<IncidentState>) returns (more: seq<Event>)
    requires i in s.db.incidents && path != []
    requires CanTransition(s.db.incidents[i], path[0])
    requires forall k | 0 <= k < |path| - 1 :: CanTransition(path[k], path[k + 1])
    ensures NeverReopens(s, more, i)
    ensures Run(s, more) == s.(db := s.db.(incidents := s.db.incidents[i := path[|path| - 1]]))
    decreases |path|
  {
    hide CanTransition, Step, Reopens;
    var e := OtherPipeline(i, path[0]);
    Moved(s, i, path[0]);
    if |path| == 1 {
      more := [e];
      assert [e][1..] == [];
    } else {
      var rest := ToWaiting(Step(s, e), i, path[1..]);
      more := [e] + rest;
      assert more[1..] == rest;
    }
  }

  lemma RejectedNow(s: Sys, i: IncidentId)
    requires Reopened(s, i) && i in s.db.incidents && s.db.incidents[i].WaitingApproval?
    ensures DecidedAgain(s, Administer(DoReject(i, Look(s.db.actions[i]))), i)
  {
    var row := s.db.actions[i];
    assert Step(s, Administer(DoReject(i, Look(row)))).db.actions[i].status.Refused?;
  }

  /** After every run, a decided operation can be decided again, without planning touching it first, exactly
      when its row waits for approval. */
  lemma DecidedAgainExactly(config: HelperConfig, es: seq<Event>, i: IncidentId)
    requires var s := Run(Init(config), es); i in s.db.actions && Decided(s.db.actions[i])
    ensures var s := Run(Init(config), es);
      (exists more, e :: NeverReopens(s, more, i) && DecidedAgain(Run(s, more), e, i))
        <==> s.db.actions[i].status.ApprovalRequired?
  {
    var s := Run(Init(config), es);
    hide Run, Step, NeverReopens, DecidedAgain;
    if s.db.actions[i].status.ApprovalRequired? {
      PlacedRun(Init(config), es, i);
      var more := ToWaiting(s, i, [Paused, CollectingContext, Diagnosing, Planning, WaitingApproval]);
      RejectedNow(Run(s, more), i);
    } else {
      forall more, e | NeverReopens(s, more, i) ensures !DecidedAgain(Run(s, more), e, i) {
        SettledRun(s, more, e, i);
      }
    }
  }
}
