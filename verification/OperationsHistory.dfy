/** What must have happened earlier in a run for an execution, a verdict or a resolution to appear. */
module OperationsHistory {
  import opened Wrappers
  import opened Policy
  import opened RuntimeProtocol
  import opened RuntimeClient
  import opened OperationsDb
  import opened Operations
  import opened OperationsSafety
  import opened OperationsSteps
  import opened OperationsTheorems
  import Q = JobQueue

  // The events that matter, each with the state it happens in.

  /** An administrator approves the waiting operation `a` of `i` while protection is on. */
  predicate Approves(s: Sys, e: Event, a: Id) {
    && e.Administer? && e.change.DoApprove?
    && IsRow(s.db, e.change.i, a) && s.db.actions[e.change.i].status.ApprovalRequired?
    && e.change.i in s.db.incidents && s.db.incidents[e.change.i].WaitingApproval? && !s.db.paused
  }

  /** The planning handler enqueues the execution of `a` under a policy verdict on `c`. */
  predicate AutoPlans(s: Sys, e: Event, i: IncidentId, a: Id, c: OperationsContext) {
    e.Statement? && e.w in s.tasks && s.tasks[e.w] == PlanEnqueue(i, a, c)
  }

  /** The planning handler of `i` reads the kill switch and the safety mode. */
  predicate Reads(s: Sys, e: Event, i: IncidentId, killSwitch: bool, mode: SafetyMode) {
    e.Statement? && e.w in s.tasks && s.tasks[e.w] == PlanStart(i) && s.db.paused == killSwitch && s.db.mode == mode
  }

  /** The planning handler of `i` consults the policy with `c`. */
  predicate Decides(s: Sys, e: Event, i: IncidentId, c: OperationsContext) {
    && e.PersistAction? && e.w in s.tasks && s.tasks[e.w].PlanPersist? && s.tasks[e.w].i == i
    && c == OperationsContext(s.tasks[e.w].mode, s.tasks[e.w].paused, true, e.enabled, true, e.cooldownClear)
  }

  /** The executing handler of `a` reads that protection is not paused. */
  predicate Clears(s: Sys, e: Event, a: Id) {
    e.Statement? && e.w in s.tasks && s.tasks[e.w].ExecStart? && s.tasks[e.w].a == a && !s.db.paused
  }

  // One step adds history only by these events.

  lemma PlanGrants(s: Sys, w: Worker, write: Write, at: int)
    requires w in s.tasks && Planner(s.tasks[w])
    ensures var s' := PlanStep(s, w, write, at);
      || s'.grants == s.grants
      || (s.tasks[w].PlanEnqueue? && s'.grants == s.grants[s.tasks[w].a := GrantedByPolicy(s.tasks[w].context)])
  {
    hide Transition, Escalate, Mark, Enqueue, DecideOperations;
  }

  lemma ExecGrants(s: Sys, w: Worker, write: Write)
    requires w in s.tasks && Executor(s.tasks[w])
    ensures ExecStep(s, w, write).grants == s.grants
  {
    hide Mark, Verdict, Claimable, IsRow;
  }

  lemma VerifyGrants(s: Sys, w: Worker, write: Write, at: int)
    requires w in s.tasks
    ensures VerifyStep(s, w, write, at).grants == s.grants
  {
    hide Transition, Mark, Enqueue, IsRow, Clamp;
  }

  lemma StatementGrants(s: Sys, w: Worker, write: Write, at: int)
    requires w in s.tasks
    ensures var s' := StatementStep(s, w, write, at);
      || s'.grants == s.grants
      || (s.tasks[w].PlanEnqueue? && s'.grants == s.grants[s.tasks[w].a := GrantedByPolicy(s.tasks[w].context)])
  {
    hide PlanStep, ExecStep, VerifyStep;
    if Planner(s.tasks[w]) {
      PlanGrants(s, w, write, at);
    } else if Executor(s.tasks[w]) {
      ExecGrants(s, w, write);
    } else {
      VerifyGrants(s, w, write, at);
    }
  }

  lemma OtherGrants(s: Sys, e: Event)
    requires !e.Statement? && !e.Administer?
    ensures Step(s, e).grants == s.grants
  {
    if e.Decide? || e.PersistAction? || e.Send? || e.Receive? {
      HandlersKeepChecks(s, e);
    } else if !e.Check? {
      OthersKeepChecks(s, e);
    }
  }

  lemma AdminGrants(s: Sys, e: Event, a: Id)
    requires e.Administer? && a in Step(s, e).grants && (a in s.grants ==> Step(s, e).grants[a] != s.grants[a])
    ensures Approves(s, e, a) && Step(s, e).grants[a].GrantedByAdmin?
  {
  }

  lemma StepGrants(s: Sys, e: Event, a: Id)
    requires a in Step(s, e).grants && (a in s.grants ==> Step(s, e).grants[a] != s.grants[a])
    ensures Step(s, e).grants[a].GrantedByAdmin? ==> Approves(s, e, a)
    ensures Step(s, e).grants[a].GrantedByPolicy? ==> exists i :: AutoPlans(s, e, i, a, Step(s, e).grants[a].context)
  {
    hide StatementStep, AdminSys, Approves;
    if e.Administer? {
      AdminGrants(s, e, a);
    } else if e.Statement? && e.w in s.tasks {
      StatementGrants(s, e.w, e.write, e.at);
      if s.tasks[e.w].PlanEnqueue? {
        assert AutoPlans(s, e, s.tasks[e.w].i, a, Step(s, e).grants[a].context);
      }
    } else if !e.Statement? {
      OtherGrants(s, e);
    }
  }

  lemma PlanCleared(s: Sys, w: Worker, write: Write, at: int)
    requires w in s.tasks && Planner(s.tasks[w])
    ensures PlanStep(s, w, write, at).cleared == s.cleared
  {
    hide Transition, Escalate, Mark, Enqueue, DecideOperations;
  }

  lemma VerifyCleared(s: Sys, w: Worker, write: Write, at: int)
    requires w in s.tasks
    ensures VerifyStep(s, w, write, at).cleared == s.cleared
  {
    hide Transition, Mark, Enqueue, IsRow, Clamp;
  }

  lemma StatementCleared(s: Sys, w: Worker, write: Write, at: int)
    requires w in s.tasks
    ensures var s' := StatementStep(s, w, write, at);
      || s'.cleared == s.cleared
      || (s.tasks[w].ExecStart? && !s.db.paused && s'.cleared == s.cleared + {s.tasks[w].a})
  {
    hide PlanStep, VerifyStep, Mark, Verdict, Claimable, IsRow;
    if Planner(s.tasks[w]) {
      PlanCleared(s, w, write, at);
    } else if !Executor(s.tasks[w]) {
      VerifyCleared(s, w, write, at);
    }
  }

  lemma OtherCleared(s: Sys, e: Event)
    requires !e.Statement?
    ensures Step(s, e).cleared == s.cleared
  {
    if e.Decide? || e.PersistAction? || e.Send? || e.Receive? {
      HandlersKeepChecks(s, e);
    } else if !e.Check? {
      OthersKeepChecks(s, e);
    }
  }

  lemma StepCleared(s: Sys, e: Event, a: Id)
    requires a in Step(s, e).cleared && a !in s.cleared
    ensures Clears(s, e, a)
  {
    hide StatementStep;
    if !e.Statement? {
      OtherCleared(s, e);
    } else if e.w in s.tasks {
      StatementCleared(s, e.w, e.write, e.at);
    }
  }

  function Outcome(s: Sys, e: Event, a: Id): seq<bool> {
    if e.Check? && e.w in s.tasks && s.tasks[e.w].VerifyProbe? && s.tasks[e.w].a == a then [e.http && e.container] else []
  }

  lemma PlanChecks(s: Sys, w: Worker, write: Write, at: int)
    requires w in s.tasks && Planner(s.tasks[w])
    ensures PlanStep(s, w, write, at).checks == s.checks
  {
    hide Transition, Escalate, Mark, Enqueue, DecideOperations;
  }

  lemma StatementChecks(s: Sys, w: Worker, write: Write, at: int)
    requires w in s.tasks
    ensures StatementStep(s, w, write, at).checks == s.checks
  {
    hide PlanStep, Transition, Mark, Enqueue, Verdict, Claimable, IsRow, Clamp;
    if Planner(s.tasks[w]) { PlanChecks(s, w, write, at); }
  }

  lemma OtherChecks(s: Sys, e: Event)
    requires !e.Statement? && !e.Check?
    ensures Step(s, e).checks == s.checks
  {
    if e.Decide? || e.PersistAction? || e.Send? || e.Receive? {
      HandlersKeepChecks(s, e);
    } else {
      OthersKeepChecks(s, e);
    }
  }

  lemma HandlersKeepChecks(s: Sys, e: Event)
    requires e.Decide? || e.PersistAction? || e.Send? || e.Receive?
    ensures Step(s, e).checks == s.checks && Step(s, e).cleared == s.cleared && Step(s, e).grants == s.grants
  {
    hide Transition, Persist, DecideOperations, RequestRestart, Genuine, FreshId, ValidTargetId, Sent;
  }

  lemma OthersKeepChecks(s: Sys, e: Event)
    requires !e.Statement? && !e.Check? && !e.Decide? && !e.PersistAction? && !e.Send? && !e.Receive?
    ensures Step(s, e).checks == s.checks && Step(s, e).cleared == s.cleared
    ensures !e.Administer? ==> Step(s, e).grants == s.grants
  {
    hide CanTransition, AdminStep, Enqueue, Q.Claimed, Q.Finished, Q.FailedAttempt, Q.Crashed, Q.Takes;
  }

  lemma StepChecks(s: Sys, e: Event, a: Id)
    ensures Log(Step(s, e), a) == Log(s, a) + Outcome(s, e, a)
  {
    hide StatementStep;
    if e.Statement? {
      if e.w in s.tasks { StatementChecks(s, e.w, e.write, e.at); }
    } else if !e.Check? {
      OtherChecks(s, e);
    }
  }

  /** Where a planning handler's position comes from. */
  predicate Comes(s: Sys, e: Event, w: Worker)
    requires w in Step(s, e).tasks
  {
    var t' := Step(s, e).tasks[w];
    || (w in s.tasks && t' == s.tasks[w])
    || match t'
       case PlanBegin(i, paused, mode) => Reads(s, e, i, paused, mode)
       case PlanDecide(i, paused, mode) =>
         Reads(s, e, i, paused, mode) || (w in s.tasks && s.tasks[w] == PlanBegin(i, paused, mode))
       case PlanPersist(i, paused, mode, _, _) => w in s.tasks && s.tasks[w] == PlanDecide(i, paused, mode)
       case PlanApply(i, _, c) => Decides(s, e, i, c) && e.w == w
       case PlanEnqueue(i, a, c) => w in s.tasks && s.tasks[w] == PlanApply(i, a, c)
       case _ => true
  }

  /** How a statement moves its own handler, as far as planning goes. */
  predicate Follows(s: Sys, s': Sys, w: Worker)
    requires w in s.tasks
  {
    && w in s'.tasks && s'.tasks == s.tasks[w := s'.tasks[w]]
    && var t, t' := s.tasks[w], s'.tasks[w];
       || t' == t
       || match t'
          case PlanBegin(i, paused, mode) => t == PlanStart(i) && paused == s.db.paused && mode == s.db.mode
          case PlanDecide(i, paused, mode) =>
            t == PlanBegin(i, paused, mode) || (t == PlanStart(i) && paused == s.db.paused && mode == s.db.mode)
          case PlanPersist(_, _, _, _, _) => false
          case PlanApply(_, _, _) => false
          case PlanEnqueue(i, a, c) => t == PlanApply(i, a, c)
          case _ => true
  }

  predicate IsPlanning(t: Task) { t.PlanBegin? || t.PlanDecide? || t.PlanPersist? || t.PlanApply? || t.PlanEnqueue? }

  lemma TryFollows(s: Sys, w: Worker, write: Write, r: Result<Db, DbError>, t: Task)
    requires w in s.tasks && (!IsPlanning(t) || Follows(s, Next(s, w, t), w))
    ensures Follows(s, Try(s, w, write, r, t), w)
  {
  }

  lemma PlanFollows(s: Sys, w: Worker, write: Write, at: int)
    requires w in s.tasks && Planner(s.tasks[w])
    ensures Follows(s, PlanStep(s, w, write, at), w)
  {
    hide Transition, Escalate, Mark, Enqueue, DecideOperations, Follows;
    var db := s.db;
    match s.tasks[w]
    case PlanStart(i) => PlanStartFollows(s, w, write, at, i);
    case PlanBegin(i, paused, mode) => PlanBeginFollows(s, w, write, at, i, paused, mode);
    case PlanApply(i, a, context) => PlanApplyFollows(s, w, write, at, i, a, context);
    case PlanEnqueue(i, a, context) => PlanEnqueueFollows(s, w, write, at, i, a, context);
    case MoveIncident(i, from, next) => TryFollows(s, w, write, Transition(db, i, from, next), Done(true));
    case EscalateNow(i) => TryFollows(s, w, write, Escalate(db, i), Done(true));
  }

  lemma PlanStartFollows(s: Sys, w: Worker, write: Write, at: int, i: IncidentId)
    requires w in s.tasks && s.tasks[w] == PlanStart(i)
    ensures Follows(s, PlanStep(s, w, write, at), w)
  {
  }

  lemma PlanBeginFollows(s: Sys, w: Worker, write: Write, at: int, i: IncidentId, paused: bool, mode: SafetyMode)
    requires w in s.tasks && s.tasks[w] == PlanBegin(i, paused, mode)
    ensures Follows(s, PlanStep(s, w, write, at), w)
  {
    hide Transition;
    TryFollows(s, w, write, Transition(s.db, i, CollectingContext, Diagnosing), PlanDecide(i, paused, mode));
  }

  lemma PlanApplyFollows(s: Sys, w: Worker, write: Write, at: int, i: IncidentId, a: Id, context: OperationsContext)
    requires w in s.tasks && s.tasks[w] == PlanApply(i, a, context)
    ensures Follows(s, PlanStep(s, w, write, at), w)
  {
    hide Transition, Mark, DecideOperations;
    if DecideOperations(Low, true, context).Allow? {
      TryFollows(s, w, write, Transition(s.db, i, Planning, Repairing), PlanEnqueue(i, a, context));
    }
  }

  lemma PlanEnqueueFollows(s: Sys, w: Worker, write: Write, at: int, i: IncidentId, a: Id, context: OperationsContext)
    requires w in s.tasks && s.tasks[w] == PlanEnqueue(i, a, context)
    ensures Follows(s, PlanStep(s, w, write, at), w)
  {
    hide Enqueue;
  }

  lemma ExecFollows(s: Sys, w: Worker, write: Write)
    requires w in s.tasks && Executor(s.tasks[w])
    ensures Follows(s, ExecStep(s, w, write), w)
  {
    hide Mark, Verdict, Claimable, IsRow;
  }

  lemma VerifyFollows(s: Sys, w: Worker, write: Write, at: int)
    requires w in s.tasks
    ensures Follows(s, VerifyStep(s, w, write, at), w)
  {
    hide Transition, Mark, Enqueue, IsRow, Clamp, Follows;
    var db := s.db;
    match s.tasks[w]
    case BeginVerify(i, a) =>
      TryFollows(s, w, write, Transition(db, i, Repairing, VerifyingProduction), EnqueueVerify(i, a, 0));
    case EnqueueVerify(i, a, n) => TryFollows(s, w, write, Ok(Enqueue(db, VerifyKey(i, a, n), 1, at)), Done(true));
    case VerifyStart(i, a, n) => NextFollows(s, w, VerifyStep(s, w, write, at).tasks[w]);
    case VerifyLoad(i, a, n) => NextFollows(s, w, VerifyStep(s, w, write, at).tasks[w]);
    case VerifyFailed(i, a) => TryFollows(s, w, write, Ok(Mark(db, i, a, VerificationFailed)), EscalateNow(i));
    case VerifyPassed(i, a) => TryFollows(s, w, write, Ok(Mark(db, i, a, Verified)), VerifyResolve(i, a));
    case VerifyResolve(i, a) => TryFollows(s, w, write, Transition(db, i, VerifyingProduction, Resolved), Done(true));
    case _ => NextFollows(s, w, s.tasks[w]);
  }

  lemma NextFollows(s: Sys, w: Worker, t: Task)
    requires w in s.tasks && (t == s.tasks[w] || !IsPlanning(t))
    ensures Follows(s, Next(s, w, t), w)
    ensures t == s.tasks[w] ==> Next(s, w, t) == s
  {
    if t == s.tasks[w] {
      assert s.tasks[w := t] == s.tasks;
    }
  }

  lemma StatementComes(s: Sys, e: Event, w: Worker)
    requires e.Statement? && e.w in s.tasks && w in Step(s, e).tasks
    ensures Comes(s, e, w)
  {
    hide PlanStep, ExecStep, VerifyStep;
    var s' := Step(s, e);
    if Planner(s.tasks[e.w]) {
      PlanFollows(s, e.w, e.write, e.at);
    } else if Executor(s.tasks[e.w]) {
      ExecFollows(s, e.w, e.write);
    } else {
      VerifyFollows(s, e.w, e.write, e.at);
    }
    assert Follows(s, s', e.w);
  }

  lemma DecideComes(s: Sys, e: Event, w: Worker)
    requires e.Decide? && w in Step(s, e).tasks
    ensures Comes(s, e, w)
  {
    hide Reads, Decides, DecideStep;
    if e.w in s.tasks && s.tasks[e.w].PlanDecide? {
      DecideMoves(s, e.w, e.d, e.write);
    }
  }

  lemma DecideMoves(s: Sys, w: Worker, d: Operations.Decision, write: Write)
    requires w in s.tasks && s.tasks[w].PlanDecide?
    ensures (var s' := DecideStep(s, w, d, write);
      && w in s'.tasks && s'.tasks == s.tasks[w := s'.tasks[w]]
      && var t, t' := s.tasks[w], s'.tasks[w];
         t'.Done? || t'.EscalateNow? || (t'.PlanPersist? && t'.i == t.i && t'.paused == t.paused && t'.mode == t.mode))
  {
    hide Transition;
  }

  lemma PersistComes(s: Sys, e: Event, w: Worker)
    requires e.PersistAction? && w in Step(s, e).tasks
    ensures Comes(s, e, w)
  {
    hide Reads, PersistStep;
    if e.w in s.tasks && s.tasks[e.w].PlanPersist? {
      PersistMoves(s, e.w, e.id, e.enabled, e.cooldownClear, e.write);
    }
  }

  lemma PersistMoves(s: Sys, w: Worker, id: Id, enabled: bool, clear: bool, write: Write)
    requires w in s.tasks && s.tasks[w].PlanPersist?
    ensures (var s' := PersistStep(s, w, id, enabled, clear, write);
      && w in s'.tasks && s'.tasks == s.tasks[w := s'.tasks[w]]
      && var t, t' := s.tasks[w], s'.tasks[w];
         t' == t || t'.Done?
         || (t'.PlanApply? && t'.i == t.i && t'.context == OperationsContext(t.mode, t.paused, true, enabled, true, clear)))
  {
    hide Persist, DecideOperations, NameOf;
  }

  lemma ExchangeComes(s: Sys, e: Event, w: Worker)
    requires (e.Send? || e.Receive? || e.Check?) && w in Step(s, e).tasks
    ensures Comes(s, e, w)
  {
    hide RequestRestart, Genuine, Sent, ValidTargetId;
  }

  lemma QueueComes(s: Sys, e: Event, w: Worker)
    requires (e.ClaimJob? || e.Report? || e.WorkerStops? || e.EnqueuePlan?) && w in Step(s, e).tasks
    ensures Comes(s, e, w)
  {
    hide Q.Claimed, Q.Finished, Q.FailedAttempt, Q.Crashed, Q.Enqueued, Q.Takes;
  }

  lemma OtherComes(s: Sys, e: Event, w: Worker)
    requires !e.Statement? && !e.Decide? && !e.PersistAction? && w in Step(s, e).tasks
    ensures Comes(s, e, w)
  {
    hide AdminStep, CanTransition, Comes, SendStep, ReceiveStep, CheckStep, ClaimStep, ReportStep;
    if e.Send? || e.Receive? || e.Check? {
      ExchangeComes(s, e, w);
    } else if e.ClaimJob? || e.Report? || e.WorkerStops? || e.EnqueuePlan? {
      QueueComes(s, e, w);
    } else {
      SameTasksComes(s, e, w);
    }
  }

  lemma SameTasksComes(s: Sys, e: Event, w: Worker)
    requires w in Step(s, e).tasks && Step(s, e).tasks == s.tasks
    ensures Comes(s, e, w)
  {
    hide Step;
  }

  lemma StepComes(s: Sys, e: Event, w: Worker)
    requires w in Step(s, e).tasks
    ensures Comes(s, e, w)
  {
    hide Step, Comes;
    if e.Statement? {
      if e.w in s.tasks { StatementComes(s, e, w); } else { IdleComes(s, e, w); }
    } else if e.Decide? {
      DecideComes(s, e, w);
    } else if e.PersistAction? {
      PersistComes(s, e, w);
    } else {
      OtherComes(s, e, w);
    }
  }

  lemma IdleComes(s: Sys, e: Event, w: Worker)
    requires e.Statement? && e.w !in s.tasks && w in Step(s, e).tasks
    ensures Comes(s, e, w)
  {
  }

  // The same over whole runs.

  ghost predicate WasRead(config: HelperConfig, es: seq<Event>, n: nat, i: IncidentId, killSwitch: bool, mode: SafetyMode)
    requires n <= |es|
  {
    exists m | 0 <= m < n :: Reads(At(config, es, m), es[m], i, killSwitch, mode)
  }

  /** The policy was consulted with `c` within the first `n` events, on switches read before that. */
  ghost predicate WasDecided(config: HelperConfig, es: seq<Event>, n: nat, i: IncidentId, c: OperationsContext)
    requires n <= |es|
  {
    exists m | 0 <= m < n :: Decides(At(config, es, m), es[m], i, c) && WasRead(config, es, m, i, c.killSwitch, c.mode)
  }

  lemma {:induction false} PlansWereRead(config: HelperConfig, es: seq<Event>, n: nat, w: Worker)
    requires n <= |es| && w in At(config, es, n).tasks
    ensures var t := At(config, es, n).tasks[w];
      && (t.PlanBegin? || t.PlanDecide? || t.PlanPersist? ==> WasRead(config, es, n, t.i, t.paused, t.mode))
      && (t.PlanApply? || t.PlanEnqueue? ==> WasDecided(config, es, n, t.i, t.context))
  {
    if n != 0 {
      hide Step;
      AtNext(config, es, n - 1);
      var s := At(config, es, n - 1);
      StepComes(s, es[n - 1], w);
      if w in s.tasks {
        PlansWereRead(config, es, n - 1, w);
      }
    }
  }

  ghost predicate WasApproved(config: HelperConfig, es: seq<Event>, n: nat, a: Id)
    requires n <= |es|
  {
    exists m | 0 <= m < n :: Approves(At(config, es, m), es[m], a)
  }

  ghost predicate WasAutoPlanned(config: HelperConfig, es: seq<Event>, n: nat, a: Id, c: OperationsContext)
    requires n <= |es|
  {
    exists m, i | 0 <= m < n :: AutoPlans(At(config, es, m), es[m], i, a, c) && WasDecided(config, es, m, i, c)
  }

  ghost predicate WasCleared(config: HelperConfig, es: seq<Event>, n: nat, a: Id)
    requires n <= |es|
  {
    exists m | 0 <= m < n :: Clears(At(config, es, m), es[m], a)
  }

  lemma {:induction false} GrantsHappened(config: HelperConfig, es: seq<Event>, n: nat, a: Id)
    requires n <= |es| && a in At(config, es, n).grants
    ensures match At(config, es, n).grants[a]
            case GrantedByAdmin => WasApproved(config, es, n, a)
            case GrantedByPolicy(c) => WasAutoPlanned(config, es, n, a, c)
  {
    if n != 0 {
      hide Step, Run, Approves, WasDecided;
      AtNext(config, es, n - 1);
      var s := At(config, es, n - 1);
      if a in s.grants && s.grants[a] == At(config, es, n).grants[a] {
        GrantsHappened(config, es, n - 1, a);
      } else {
        StepGrants(s, es[n - 1], a);
        var g := At(config, es, n).grants[a];
        if g.GrantedByPolicy? {
          var i :| AutoPlans(s, es[n - 1], i, a, g.context);
          PlansWereRead(config, es, n - 1, es[n - 1].w);
        }
      }
    }
  }

  lemma {:induction false} ClearsHappened(config: HelperConfig, es: seq<Event>, n: nat, a: Id)
    requires n <= |es| && a in At(config, es, n).cleared
    ensures WasCleared(config, es, n, a)
  {
    if n != 0 {
      hide Step, Clears;
      AtNext(config, es, n - 1);
      if a in At(config, es, n - 1).cleared {
        ClearsHappened(config, es, n - 1, a);
      } else {
        StepCleared(At(config, es, n - 1), es[n - 1], a);
      }
    }
  }

  /** An action that is RUNNING or whose restart was issued was either approved by an administrator, or
      allowed by the policy in Autopilot with the kill switch read as off and the cooldown clear; and the
      executing handler read protection as active. In Safe Mode only the first is possible. */
  lemma ExecutionWasAllowed(config: HelperConfig, es: seq<Event>, a: Id)
    requires var s := Run(Init(config), es);
      Issued(s, a) || exists i :: IsRow(s.db, i, a) && s.db.actions[i].status.Running?
    ensures WasCleared(config, es, |es|, a)
    ensures || WasApproved(config, es, |es|, a)
            || exists c: OperationsContext ::
                 && WasAutoPlanned(config, es, |es|, a, c)
                 && c.mode.AutopilotExperimental? && !c.killSwitch && c.cooldownClear && c.actionEnabled
  {
    hide Inv, Run, WasApproved, WasCleared, WasAutoPlanned, GrantOk, Issued;
    Reached(config, es);
    var s := Run(Init(config), es);
    assert es[..|es|] == es;
    ExecutedFacts(s, a);
    GrantsHappened(config, es, |es|, a);
    ClearsHappened(config, es, |es|, a);
    if s.grants[a].GrantedByPolicy? {
      GrantMeans(s.grants[a]);
      assert WasAutoPlanned(config, es, |es|, a, s.grants[a].context);
    }
  }

  lemma GrantMeans(g: Grant)
    requires GrantOk(g) && g.GrantedByPolicy?
    ensures g.context.mode.AutopilotExperimental? && !g.context.killSwitch && g.context.cooldownClear
      && g.context.actionEnabled
  {
  }

  lemma ExecutedFacts(s: Sys, a: Id)
    requires Inv(s) && (Issued(s, a) || exists i :: IsRow(s.db, i, a) && s.db.actions[i].status.Running?)
    ensures a in s.cleared && a in s.grants && GrantOk(s.grants[a])
  {
    if Issued(s, a) {
      var k :| 0 <= k < |s.helper.issued| && s.helper.issued[k].id == a;
      IssueHasRow(s, k);
      SentFact(s);
      GrantFact(s, s.sent[a].i, a);
    } else {
      var i :| IsRow(s.db, i, a) && s.db.actions[i].status.Running?;
      RowFact(s, i);
      GrantFact(s, i, a);
    }
  }

  lemma GrantFact(s: Sys, i: IncidentId, a: Id)
    requires Inv(s) && !Unstarted(s, ExecuteKey(i, a))
    ensures a in s.grants && GrantOk(s.grants[a])
  {
    assert JobOk(s, ExecuteKey(i, a));
  }

  /** The outcomes of the checks made for `a` in a run, in order. */
  function CheckTrace(s: Sys, es: seq<Event>, a: Id): seq<bool>
    decreases |es|
  {
    if es == [] then [] else Outcome(s, es[0], a) + CheckTrace(Step(s, es[0]), es[1..], a)
  }

  lemma Joined(a: seq<bool>, b: seq<bool>, c: seq<bool>)
    ensures a + (b + c) == (a + b) + c
  {
  }

  lemma {:induction false} LogIsTrace(s: Sys, es: seq<Event>, a: Id)
    ensures Log(Run(s, es), a) == Log(s, a) + CheckTrace(s, es, a)
    decreases |es|
  {
    hide Step, Outcome, Log;
    if es != [] {
      StepChecks(s, es[0], a);
      LogIsTrace(Step(s, es[0]), es[1..], a);
      Joined(Log(s, a), Outcome(s, es[0], a), CheckTrace(Step(s, es[0]), es[1..], a));
    }
  }

  /** The run made two checks for `a`, or three if its plan requires more than two, and all passed. */
  predicate AllPassed(config: HelperConfig, es: seq<Event>, a: Id, required: nat) {
    var trace := CheckTrace(Init(config), es, a);
    && |trace| == (if required <= 2 then 2 else 3)
    && forall k | 0 <= k < |trace| :: trace[k]
  }

  /** VERIFIED means the one proven restart was followed by exactly two checks, or three if the plan requires
      three or more, all passing; VERIFICATION_FAILED means the last check failed. */
  lemma VerifiedMeansChecked(config: HelperConfig, es: seq<Event>, i: IncidentId)
    requires i in Run(Init(config), es).db.actions
    ensures var row := Run(Init(config), es).db.actions[i];
      && (row.status.Verified? ==>
            AllPassed(config, es, row.id, row.required) && RestartedOnce(Run(Init(config), es), row.id))
      && (row.status.VerificationFailed? ==>
            var trace := CheckTrace(Init(config), es, row.id); trace != [] && !trace[|trace| - 1])
  {
    hide Run, Inv, CheckTrace, RestartedOnce;
    Reached(config, es);
    var s := Run(Init(config), es);
    LogIsAll(config, es, s.db.actions[i].id);
    RowIsChecked(s, i);
  }

  lemma LogIsAll(config: HelperConfig, es: seq<Event>, a: Id)
    ensures Log(Run(Init(config), es), a) == CheckTrace(Init(config), es, a)
  {
    LogIsTrace(Init(config), es, a);
    assert Log(Init(config), a) == [];
  }

  lemma RowIsChecked(s: Sys, i: IncidentId)
    requires Inv(s) && i in s.db.actions
    ensures var row := s.db.actions[i];
      && (row.status.Verified? ==> FullLog(s, i, row.id) && RestartedOnce(s, row.id))
      && (row.status.VerificationFailed? ==> FailedLog(s, row.id))
  {
    hide Inv;
    RowFact(s, i);
    if s.db.actions[i].status.Verified? {
      ConfirmedOnce(s, s.db.actions[i].id);
    }
  }

  lemma TaskIsChecked(s: Sys, w: Worker)
    requires Inv(s) && w in s.tasks
    ensures var t := s.tasks[w];
      && (t.VerifyResolve? ==> FullLog(s, t.i, t.a) && RestartedOnce(s, t.a))
      && (t.VerifyProbe? ==>
            LogAt(s, t.i, t.a, t.check) && t.required == Clamp(s.db.actions[t.i].required) && RestartedOnce(s, t.a))
  {
    hide Inv;
    TaskFact(s, w);
    var t := s.tasks[w];
    if t.VerifyResolve? || t.VerifyProbe? {
      Started(s, w);
      ConfirmedOnce(s, t.a);
    }
  }

  /** The operations pipeline is about to resolve an incident only with a full log of passed checks after
      the one proven restart; and every single check comes after that restart, at its own number. */
  lemma ResolveMeansChecked(config: HelperConfig, es: seq<Event>, w: Worker)
    requires w in Run(Init(config), es).tasks
    ensures var s := Run(Init(config), es); var t := s.tasks[w];
      && (t.VerifyResolve? ==>
            && IsRow(s.db, t.i, t.a) && AllPassed(config, es, t.a, s.db.actions[t.i].required) && RestartedOnce(s, t.a))
      && (t.VerifyProbe? ==>
            && RestartedOnce(s, t.a) && IsRow(s.db, t.i, t.a)
            && var trace := CheckTrace(Init(config), es, t.a);
               && |trace| == t.check < t.required == (if s.db.actions[t.i].required <= 2 then 2 else 3)
               && forall k | 0 <= k < |trace| :: trace[k])
  {
    hide Run, Inv, CheckTrace, RestartedOnce;
    Reached(config, es);
    var s := Run(Init(config), es);
    if s.tasks[w].VerifyResolve? || s.tasks[w].VerifyProbe? {
      LogIsAll(config, es, s.tasks[w].a);
      TaskIsChecked(s, w);
    }
  }

  // Which step resolves an incident.

  /** The incident a handler's next statement may move, and where to. */
  function Target(t: Task): Option<(IncidentId, IncidentState)> {
    match t
    case PlanBegin(i, _, _) => Some((i, Diagnosing))
    case PlanApply(i, _, _) => Some((i, Repairing))
    case MoveIncident(i, _, next) => Some((i, next))
    case EscalateNow(i) => Some((i, Escalated))
    case BeginVerify(i, _) => Some((i, VerifyingProduction))
    case VerifyResolve(i, _) => Some((i, Resolved))
    case _ => None
  }

  predicate MovesTo(s: Sys, s': Sys, target: Option<(IncidentId, IncidentState)>) {
    s'.db.incidents == s.db.incidents
    || (target.Some? && s'.db.incidents == s.db.incidents[target.value.0 := target.value.1])
  }

  lemma TryMoves(s: Sys, w: Worker, write: Write, i: IncidentId, from: IncidentState, next: IncidentState, t: Task)
    ensures MovesTo(s, Try(s, w, write, Transition(s.db, i, from, next), t), Some((i, next)))
  {
    hide CanTransition;
  }

  lemma MarkMoves(s: Sys, w: Worker, write: Write, i: IncidentId, a: Id, status: ActionStatus, t: Task)
    ensures Wrote(s, w, write, Mark(s.db, i, a, status), t).db.incidents == s.db.incidents
  {
  }

  lemma EscalateMoves(s: Sys, w: Worker, write: Write, i: IncidentId, t: Task)
    ensures MovesTo(s, Try(s, w, write, Escalate(s.db, i), t), Some((i, Escalated)))
  {
    hide CanTransition;
  }

  lemma PlanMoves(s: Sys, w: Worker, write: Write, at: int)
    requires w in s.tasks && Planner(s.tasks[w])
    ensures MovesTo(s, PlanStep(s, w, write, at), Target(s.tasks[w]))
  {
    hide Transition, Escalate, DecideOperations, Try;
    var db := s.db;
    match s.tasks[w]
    case PlanStart(i) =>
    case PlanBegin(i, paused, mode) =>
      TryMoves(s, w, write, i, CollectingContext, Diagnosing, PlanDecide(i, paused, mode));
    case PlanApply(i, a, context) =>
      TryMoves(s, w, write, i, Planning, Repairing, PlanEnqueue(i, a, context));
    case PlanEnqueue(i, a, context) =>
    case MoveIncident(i, from, next) => TryMoves(s, w, write, i, from, next, Done(true));
    case EscalateNow(i) => EscalateMoves(s, w, write, i, Done(true));
  }

  lemma ExecMoves(s: Sys, w: Worker, write: Write)
    requires w in s.tasks && Executor(s.tasks[w])
    ensures ExecStep(s, w, write).db.incidents == s.db.incidents
  {
    hide Verdict, Claimable, IsRow, Mark, Wrote;
    match s.tasks[w]
    case ExecHold(i, a) => MarkMoves(s, w, write, i, a, OnHold, MoveIncident(i, Repairing, Paused));
    case ExecClaim(i, a, target) => MarkMoves(s, w, write, i, a, Running, ExecSend(i, a, target));
    case ExecReport(i, a, r) =>
      MarkMoves(s, w, write, i, a, Verdict(r), if r.Ok? then BeginVerify(i, a) else EscalateNow(i));
    case ExecUnclear(i, a) => MarkMoves(s, w, write, i, a, Unclear, EscalateNow(i));
    case _ =>
  }

  lemma VerifyMoves(s: Sys, w: Worker, write: Write, at: int)
    requires w in s.tasks
    ensures MovesTo(s, VerifyStep(s, w, write, at), Target(s.tasks[w])) || Planner(s.tasks[w])
  {
    hide Transition, IsRow, Clamp, Try;
    match s.tasks[w]
    case BeginVerify(i, a) => TryMoves(s, w, write, i, Repairing, VerifyingProduction, EnqueueVerify(i, a, 0));
    case VerifyResolve(i, a) => TryMoves(s, w, write, i, VerifyingProduction, Resolved, Done(true));
    case _ =>
  }

  lemma StatementMoves(s: Sys, w: Worker, write: Write, at: int)
    requires w in s.tasks
    ensures MovesTo(s, StatementStep(s, w, write, at), Target(s.tasks[w]))
  {
    hide PlanStep, ExecStep, VerifyStep;
    if Planner(s.tasks[w]) {
      PlanMoves(s, w, write, at);
    } else if Executor(s.tasks[w]) {
      ExecMoves(s, w, write);
    } else {
      VerifyMoves(s, w, write, at);
    }
  }

  predicate BecomesResolved(s: Sys, s': Sys, i: IncidentId) {
    && i in s'.db.incidents && s'.db.incidents[i].Resolved?
    && (i !in s.db.incidents || !s.db.incidents[i].Resolved?)
  }

  lemma AdminMoves(s: Sys, change: AdminEvent, i: IncidentId)
    ensures !BecomesResolved(s, AdminSys(s, change), i)
  {
  }

  lemma DecisionMoves(s: Sys, e: Event, i: IncidentId)
    requires e.Decide? || e.PersistAction?
    ensures !BecomesResolved(s, Step(s, e), i)
  {
    hide CanTransition, FreshId, DecideOperations, NameOf;
  }

  lemma OtherMoves(s: Sys, e: Event, i: IncidentId)
    requires !e.Statement? && BecomesResolved(s, Step(s, e), i)
    ensures e == OtherPipeline(i, Resolved)
  {
    hide CanTransition, RequestRestart, Genuine, AdminSys, DecideStep, PersistStep, Enqueue,
      Q.Takes, Q.Claimed, Q.Finished, Q.FailedAttempt, Q.Crashed;
    if e.Administer? {
      AdminMoves(s, e.change, i);
    } else if e.Decide? || e.PersistAction? {
      DecisionMoves(s, e, i);
    } else if e.EnqueuePlan? {
      SameIncidents(s.db, PlanKey(e.i), e.at);
    }
  }

  lemma SameIncidents(db: Db, key: Key, at: int)
    ensures Enqueue(db, key, 3, at).incidents == db.incidents
  {
  }

  /** Only another pipeline, or this pipeline's last statement after a full log of passed checks behind the
      one proven restart, makes an incident RESOLVED. */
  lemma ResolvedByWhom(config: HelperConfig, es: seq<Event>, n: nat, i: IncidentId)
    requires n < |es| && BecomesResolved(At(config, es, n), At(config, es, n + 1), i)
    ensures var s := At(config, es, n);
      || es[n] == OtherPipeline(i, Resolved)
      || (es[n].Statement? && es[n].w in s.tasks &&
          var t := s.tasks[es[n].w];
          && t.VerifyResolve? && t.i == i && IsRow(s.db, i, t.a)
          && AllPassed(config, es[..n], t.a, s.db.actions[i].required) && RestartedOnce(s, t.a))
  {
    hide Inv, Run, Step, AllPassed, RestartedOnce, StatementStep;
    AtNext(config, es, n);
    var s := At(config, es, n);
    if !es[n].Statement? {
      OtherMoves(s, es[n], i);
    } else {
      StatementResolves(s, es[n], i);
      Reached(config, es[..n]);
      TaskFact(s, es[n].w);
      ResolveMeansChecked(config, es[..n], es[n].w);
    }
  }

  lemma StatementResolves(s: Sys, e: Event, i: IncidentId)
    requires e.Statement? && BecomesResolved(s, Step(s, e), i)
    ensures e.w in s.tasks && Target(s.tasks[e.w]) == Some((i, Resolved))
  {
    hide StatementStep;
    if e.w in s.tasks { StatementMoves(s, e.w, e.write, e.at); }
  }
}
