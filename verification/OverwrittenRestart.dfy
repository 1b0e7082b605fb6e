/**
  A run in which the row of an issued restart is marked over, and then even rejected: a planning handler
  whose last statement took effect but was reported as failed is run again after the restart.
*/
module OverwrittenRestart {
  import opened Wrappers
  import opened Policy
  import opened RuntimeProtocol
  import opened RuntimeClient
  import opened OperationsDb
  import opened Operations
  import opened OperationsTheorems
  import opened OperationsOverwrite
  import H = HelperMachine
  import Q = JobQueue
  import SD = StateDirectory

  const DIGITS: string := "0123456789abcdef"
  const TARGET: string := DIGITS + DIGITS + DIGITS + DIGITS
  const CONFIG := HelperConfig(0, "", "control", EnrolledTarget(TARGET, "app", None), {})
  const FOUND := ContainerState(TARGET, "app", "running", None, None, false)
  const PROBE := Probe(true, Ok(FOUND), Ok(FOUND))
  const CONTEXT := OperationsContext(Safe, false, true, true, true, true)

  type Job = Q.Job<Key>
  type Queue = Q.Queue<Key, Key>

  /** The one incident 0, its action 5, its two jobs, worker 1 that plans and worker 2 that executes. */
  datatype Scene = Scene(
    status: IncidentState,
    paused: bool,
    row: Option<Action>,
    plan: Option<Job>,
    exec: Option<Job>,
    planner: Option<Task>,
    executor: Option<Task>,
    helper: H.Helper)

  predicate Works(s: Sys, w: Worker, task: Option<Task>) {
    if task.None? then w !in s.tasks else w in s.tasks && s.tasks[w] == task.value
  }

  /** Worker `w` holds the job exactly if it is at work. */
  predicate Held(q: Queue, w: Worker, atWork: bool, key: Key, job: Option<Job>) {
    if !atWork then w !in q.held
    else
      && job.Some? && w in q.held && q.held[w] == Q.Lease(key, job.value.attempt, job.value.maxAttempts)
      && job.value.status.Running? && job.value.lockedBy == Some(w)
  }

  predicate Has(q: Queue, key: Key, job: Option<Job>) {
    if job.None? then key !in q.jobs else key in q.jobs && q.jobs[key] == job.value && job.value.payload == key
  }

  predicate Queued(q: Queue, plan: Option<Job>, planning: bool, exec: Option<Job>, executing: bool) {
    && Has(q, PlanKey(0), plan) && Has(q, ExecuteKey(0, 5), exec)
    && Held(q, 1, planning, PlanKey(0), plan) && Held(q, 2, executing, ExecuteKey(0, 5), exec)
  }

  predicate Shows(s: Sys, x: Scene) {
    && s.db.paused == x.paused && s.db.mode == Safe
    && 0 in s.db.incidents && s.db.incidents[0] == x.status
    && s.db.actions == (if x.row.Some? then map[0 := x.row.value] else map[]) && (x.row.Some? ==> x.row.value.id == 5)
    && Works(s, 1, x.planner) && Works(s, 2, x.executor)
    && Queued(s.db.queue, x.plan, x.planner.Some?, x.exec, x.executor.Some?)
    && s.sent.Keys <= {5} && (!SentYet(x) ==> s.sent == map[])
    && s.helper == x.helper
  }

  predicate SentYet(x: Scene) { x.executor.Some? && x.executor.value.ExecWait? }

  lemma Opened()
    ensures Shows(Step(Init(CONFIG), OpenIncident(0)), Scene(Open, false, None, None, None, None, None, H.Init(CONFIG)))
  {
  }

  lemma Elsewhere(s: Sys, x: Scene, next: IncidentState)
    requires Shows(s, x) && CanTransition(x.status, next)
    ensures Shows(Step(s, OtherPipeline(0, next)), x.(status := next))
  {
    hide CanTransition, Queued;
  }

  lemma PlanQueued(s: Sys, x: Scene)
    requires Shows(s, x) && x.plan.None? && x.planner.None?
    ensures Shows(Step(s, EnqueuePlan(0, 0)), x.(plan := Some(Q.Job(PlanKey(0), Q.Pending, 0, 3, 0, None))))
  {
  }

  lemma PlanTaken(s: Sys, x: Scene, now: int)
    requires Shows(s, x) && x.planner.None? && x.plan.Some? && Q.Ready(x.plan.value, now)
    ensures var job := x.plan.value.(status := Q.Running, attempt := x.plan.value.attempt + 1, lockedBy := Some(1));
      Shows(Step(s, ClaimJob(1, PlanKey(0), now)), x.(plan := Some(job), planner := Some(PlanStart(0))))
  {
    hide H.Step;
    assert Q.Takes(s.db.queue, Q.Claim(1, PlanKey(0), now), PlanKey(0));
  }

  lemma ExecTaken(s: Sys, x: Scene)
    requires Shows(s, x) && x.executor.None? && x.exec.Some? && Q.Ready(x.exec.value, 0)
    ensures var job := x.exec.value.(status := Q.Running, attempt := x.exec.value.attempt + 1, lockedBy := Some(2));
      Shows(Step(s, ClaimJob(2, ExecuteKey(0, 5), 0)), x.(exec := Some(job), executor := Some(ExecStart(0, 5))))
  {
    hide H.Step;
    assert Q.Takes(s.db.queue, Q.Claim(2, ExecuteKey(0, 5), 0), ExecuteKey(0, 5));
  }

  lemma PlanRead(s: Sys, x: Scene)
    requires Shows(s, x) && x.planner == Some(PlanStart(0)) && x.status.CollectingContext? && !x.paused
    ensures Shows(Step(s, Statement(1, Acked, 0)), x.(planner := Some(PlanBegin(0, false, Safe))))
  {
    hide H.Step, Queued;
  }

  lemma PlanStarted(s: Sys, x: Scene)
    requires Shows(s, x) && x.planner == Some(PlanBegin(0, false, Safe)) && x.status.CollectingContext?
    ensures Shows(Step(s, Statement(1, Acked, 0)), x.(status := Diagnosing, planner := Some(PlanDecide(0, false, Safe))))
  {
    hide H.Step, Queued;
  }

  const CHOICE := SelectRestart(TARGET, TARGET, true, 2)

  lemma PlanChosen(s: Sys, x: Scene)
    requires Shows(s, x) && x.planner == Some(PlanDecide(0, false, Safe)) && x.status.Diagnosing?
    ensures Shows(Step(s, Decide(1, CHOICE, Acked)),
      x.(status := Planning, planner := Some(PlanPersist(0, false, Safe, TARGET, 2))))
  {
    hide H.Step, Queued;
  }

  const ROW := Action(5, TARGET, 2, ApprovalNeeded, Planned)

  lemma PlanStored(s: Sys, x: Scene)
    requires Shows(s, x) && x.planner == Some(PlanPersist(0, false, Safe, TARGET, 2)) && x.row.None? && !SentYet(x)
    ensures Shows(Step(s, PersistAction(1, 5, true, true, Acked)),
      x.(row := Some(ROW), planner := Some(PlanApply(0, 5, CONTEXT))))
  {
    hide H.Step, Queued;
  }

  lemma PlanFound(s: Sys, x: Scene)
    requires Shows(s, x) && x.planner == Some(PlanPersist(0, false, Safe, TARGET, 2))
    requires x.row.Some? && x.row.value.target == TARGET
    ensures Shows(Step(s, PersistAction(1, 6, true, true, Acked)), x.(planner := Some(PlanApply(0, 5, CONTEXT))))
  {
    hide CanTransition, H.Step, Queued;
    assert FreshId(s, 6);
    forall name ensures Persist(s.db, 0, 6, TARGET, 2, name) == Ok((s.db, 5)) { }
    assert Step(s, PersistAction(1, 6, true, true, Acked)) == Next(s.(db := s.db), 1, PlanApply(0, 5, CONTEXT));
  }

  lemma PlanMarked(s: Sys, x: Scene)
    requires Shows(s, x) && x.planner == Some(PlanApply(0, 5, CONTEXT)) && x.row.Some?
    ensures Shows(Step(s, Statement(1, Acked, 0)),
      x.(row := Some(x.row.value.(status := ApprovalRequired)), planner := Some(MoveIncident(0, Planning, WaitingApproval))))
  {
    hide H.Step, Queued;
  }

  lemma PlanWaits(s: Sys, x: Scene, write: Write)
    requires Shows(s, x) && x.planner == Some(MoveIncident(0, Planning, WaitingApproval)) && x.status.Planning?
    requires write.Acked? || write == Lost(true)
    ensures Shows(Step(s, Statement(1, write, 0)), x.(status := WaitingApproval, planner := Some(Done(write.Acked?))))
  {
    hide H.Step, Queued;
  }

  lemma PlanFailed(s: Sys, x: Scene)
    requires Shows(s, x) && x.planner == Some(Done(false)) && x.plan.value.attempt == 1 && x.plan.value.maxAttempts == 3
    ensures Shows(Step(s, Report(1, 0)),
      x.(plan := Some(x.plan.value.(status := Q.Retry, availableAt := 2, lockedBy := None)), planner := None))
  {
    assert Q.Backoff(1) == 2;
  }

  lemma Approved(s: Sys, x: Scene, seen: Seen)
    requires Shows(s, x) && x.row.Some? && x.row.value.status.ApprovalRequired? && x.status.WaitingApproval?
      && !x.paused
    requires seen == Look(x.row.value) && x.exec.None?
    ensures Shows(Step(s, Administer(DoApprove(0, seen, 0))),
      x.(row := Some(x.row.value.(status := Planned, policy := ByApproval)), status := Repairing,
         exec := Some(Q.Job(ExecuteKey(0, 5), Q.Pending, 0, 1, 0, None))))
  {
  }

  lemma Rejected(s: Sys, x: Scene, seen: Seen)
    requires Shows(s, x) && x.row.Some? && x.row.value.status.ApprovalRequired? && x.status.WaitingApproval?
    requires seen == Look(x.row.value)
    ensures Shows(Step(s, Administer(DoReject(0, seen))),
      x.(row := Some(x.row.value.(status := Refused, policy := ByRejection)), status := Cancelled))
  {
    hide H.Step, Queued;
  }

  lemma PausedNow(s: Sys, x: Scene)
    requires Shows(s, x) && !x.paused
    ensures Shows(Step(s, Administer(DoPause(true))), x.(paused := true))
  {
    hide H.Step, Queued;
  }

  lemma ResumedNow(s: Sys, x: Scene)
    requires Shows(s, x) && x.paused && x.status.Paused?
    ensures Shows(Step(s, Administer(DoPause(false))), x.(paused := false, status := CollectingContext))
  {
    hide H.Step, Queued;
  }

  /** The executing handler's three statements up to sending. */
  lemma Executing(s: Sys, x: Scene)
    requires Shows(s, x) && x.executor.Some? && x.row.Some? && x.row.value.target == TARGET
    requires x.status.Repairing? && !x.paused && x.row.value.status.Planned?
    ensures var next := Step(s, Statement(2, Acked, 0));
      && (x.executor.value == ExecStart(0, 5) ==> Shows(next, x.(executor := Some(ExecLoad(0, 5)))))
      && (x.executor.value == ExecLoad(0, 5) ==> Shows(next, x.(executor := Some(ExecClaim(0, 5, TARGET)))))
      && (x.executor.value == ExecClaim(0, 5, TARGET) ==>
            Shows(next, x.(executor := Some(ExecSend(0, 5, TARGET)), row := Some(x.row.value.(status := Running)))))
  {
    hide H.Step, Queued;
  }

  lemma TargetIsValid()
    ensures ValidTargetId(TARGET)
  {
    assert forall c | c in DIGITS :: '0' <= c <= '9' || 'a' <= c <= 'f';
  }

  const REQUEST := Message(5, TARGET, "")

  lemma Posted(s: Sys, x: Scene)
    requires Shows(s, x) && x.executor == Some(ExecSend(0, 5, TARGET))
    ensures var s' := Step(s, Send(2, None, 0, ReadTimedOut, ""));
      Shows(s', x.(executor := Some(ExecWait(0, 5, TARGET)))) && REQUEST in s'.wire && 5 in s'.sent
  {
    hide ValidTargetId, H.Step, Queued;
    TargetIsValid();
  }

  const ARRIVAL := H.Arrive(7, 0, Request(PROTOCOL_VERSION, 5, "", RestartContainer(TARGET)))

  lemma Arrived(s: Sys, x: Scene)
    requires Shows(s, x) && SentYet(x) && REQUEST in s.wire && 5 in s.sent && 7 !in x.helper.calls
    ensures Shows(Step(s, Deliver(REQUEST, 7, 0)), x.(helper := H.Step(x.helper, ARRIVAL)))
  {
    hide H.Step;
  }

  lemma HelperWorks(s: Sys, x: Scene, e: H.Event)
    requires Shows(s, x) && !e.Arrive?
    ensures Shows(Step(s, HelperStep(e)), x.(helper := H.Step(x.helper, e)))
  {
    hide H.Step;
  }

  // The helper on its own, up to launching the restart.

  predicate AtPc(h: H.Helper, pc: H.Pc) {
    h.calls == map[7 := H.Call(5, TARGET, pc)] && h.config == CONFIG && h.issued == []
  }

  const IO := H.Io(7, true, true, 9)

  lemma HelperOpens()
    ensures var h := H.Step(H.Step(H.Init(CONFIG), ARRIVAL), IO);
      7 !in H.Init(CONFIG).calls && AtPc(h, H.Writing(9)) && 9 in h.disk.files
  {
    var h := H.Step(H.Init(CONFIG), ARRIVAL);
    assert AtPc(h, H.Opening) && SD.Missing(h.disk, 5);
  }

  lemma HelperClaims(h: H.Helper)
    requires AtPc(h, H.Writing(9)) && 9 in h.disk.files
    ensures AtPc(H.Step(H.Step(H.Step(h, IO), IO), IO), H.Inspecting)
  {
    var h1 := H.Step(h, IO);
    assert AtPc(h1, H.Syncing(9)) && 9 in h1.disk.files;
    var h2 := H.Step(h1, IO);
    assert AtPc(h2, H.SyncingClaim);
  }

  lemma HelperInspects(h: H.Helper)
    requires AtPc(h, H.Inspecting)
    ensures AtPc(H.Step(h, H.Probed(7, PROBE)), H.Launching(FOUND))
  {
    assert InspectEnrolled(CONFIG, PROBE) == Ok(FOUND);
  }

  lemma HelperLaunches(h: H.Helper)
    requires AtPc(h, H.Launching(FOUND))
    ensures H.Step(h, H.Launch(7)).issued == [H.Issue(5, 7, TARGET, CONFIG)]
  {
  }

  // The run.

  lemma Then(es: seq<Event>, e: Event) returns (longer: seq<Event>)
    ensures longer == es + [e] && Run(Init(CONFIG), longer) == Step(Run(Init(CONFIG), es), e)
  {
    RunSnoc(Init(CONFIG), es, e);
    longer := es + [e];
  }

  const ASKED := Action(5, TARGET, 2, ApprovalNeeded, ApprovalRequired)

  /** The plan job is claimed, and the plan made and stored; its last statement takes effect but is
      reported as failed, so the job is to be run again from time 2 on. */
  lemma PlannedOnce() returns (es: seq<Event>)
    ensures var job := Q.Job(PlanKey(0), Q.Retry, 1, 3, 2, None);
      Shows(Run(Init(CONFIG), es), Scene(WaitingApproval, false, Some(ASKED), Some(job), None, None, None, H.Init(CONFIG)))
  {
    hide Run, Step, Shows;
    var h := H.Init(CONFIG);
    assert Run(Init(CONFIG), []) == Init(CONFIG) by { NoEvents(); }
    es := Then([], OpenIncident(0));
    Opened();
    var x := Scene(Open, false, None, None, None, None, None, h);
    Elsewhere(Run(Init(CONFIG), es), x, CollectingContext);
    es := Then(es, OtherPipeline(0, CollectingContext));
    x := x.(status := CollectingContext);
    PlanQueued(Run(Init(CONFIG), es), x);
    es := Then(es, EnqueuePlan(0, 0));
    x := x.(plan := Some(Q.Job(PlanKey(0), Q.Pending, 0, 3, 0, None)));
    PlanTaken(Run(Init(CONFIG), es), x, 0);
    es := Then(es, ClaimJob(1, PlanKey(0), 0));
    x := x.(plan := Some(Q.Job(PlanKey(0), Q.Running, 1, 3, 0, Some(1))), planner := Some(PlanStart(0)));
    PlanRead(Run(Init(CONFIG), es), x);
    es := Then(es, Statement(1, Acked, 0));
    x := x.(planner := Some(PlanBegin(0, false, Safe)));
    PlanStarted(Run(Init(CONFIG), es), x);
    es := Then(es, Statement(1, Acked, 0));
    x := x.(status := Diagnosing, planner := Some(PlanDecide(0, false, Safe)));
    PlanChosen(Run(Init(CONFIG), es), x);
    es := Then(es, Decide(1, CHOICE, Acked));
    x := x.(status := Planning, planner := Some(PlanPersist(0, false, Safe, TARGET, 2)));
    PlanStored(Run(Init(CONFIG), es), x);
    es := Then(es, PersistAction(1, 5, true, true, Acked));
    x := x.(row := Some(ROW), planner := Some(PlanApply(0, 5, CONTEXT)));
    PlanMarked(Run(Init(CONFIG), es), x);
    es := Then(es, Statement(1, Acked, 0));
    x := x.(row := Some(ASKED), planner := Some(MoveIncident(0, Planning, WaitingApproval)));
    PlanWaits(Run(Init(CONFIG), es), x, Lost(true));
    es := Then(es, Statement(1, Lost(true), 0));
    x := x.(status := WaitingApproval, planner := Some(Done(false)));
    PlanFailed(Run(Init(CONFIG), es), x);
    es := Then(es, Report(1, 0));
  }

  lemma NoEvents()
    ensures Run(Init(CONFIG), []) == Init(CONFIG)
  {
  }

  const RETRY := Q.Job(PlanKey(0), Q.Retry, 1, 3, 2, None)
  const RUNNING := Q.Job(ExecuteKey(0, 5), Q.Running, 1, 1, 0, Some(2))
  const APPROVED := Action(5, TARGET, 2, ByApproval, Planned)

  /** The action is approved, claimed and sent, and the helper has claimed and inspected. */
  lemma SentOnce() returns (es: seq<Event>, h: H.Helper)
    ensures AtPc(h, H.Launching(FOUND))
    ensures Shows(Run(Init(CONFIG), es), Scene(Repairing, false, Some(APPROVED.(status := Running)), Some(RETRY),
      Some(RUNNING), None, Some(ExecWait(0, 5, TARGET)), h))
  {
    hide Run, Step, Shows, H.Step, AtPc;
    h := H.Init(CONFIG);
    es := PlannedOnce();
    var x := Scene(WaitingApproval, false, Some(ASKED), Some(RETRY), None, None, None, h);
    Approved(Run(Init(CONFIG), es), x, Look(ASKED));
    es := Then(es, Administer(DoApprove(0, Look(ASKED), 0)));
    x := x.(row := Some(APPROVED), status := Repairing, exec := Some(Q.Job(ExecuteKey(0, 5), Q.Pending, 0, 1, 0, None)));
    ExecTaken(Run(Init(CONFIG), es), x);
    es := Then(es, ClaimJob(2, ExecuteKey(0, 5), 0));
    x := x.(exec := Some(RUNNING), executor := Some(ExecStart(0, 5)));
    Executing(Run(Init(CONFIG), es), x);
    es := Then(es, Statement(2, Acked, 0));
    x := x.(executor := Some(ExecLoad(0, 5)));
    Executing(Run(Init(CONFIG), es), x);
    es := Then(es, Statement(2, Acked, 0));
    x := x.(executor := Some(ExecClaim(0, 5, TARGET)));
    Executing(Run(Init(CONFIG), es), x);
    es := Then(es, Statement(2, Acked, 0));
    x := x.(executor := Some(ExecSend(0, 5, TARGET)), row := Some(APPROVED.(status := Running)));
    Posted(Run(Init(CONFIG), es), x);
    es := Then(es, Send(2, None, 0, ReadTimedOut, ""));
    x := x.(executor := Some(ExecWait(0, 5, TARGET)));
    HelperOpens();
    Arrived(Run(Init(CONFIG), es), x);
    es := Then(es, Deliver(REQUEST, 7, 0));
    h := H.Step(h, ARRIVAL);
    es, h := HelperThen(es, x.(helper := h), IO);
    HelperClaims(h);
    es, h := HelperThen(es, x.(helper := h), IO);
    es, h := HelperThen(es, x.(helper := h), IO);
    es, h := HelperThen(es, x.(helper := h), IO);
    HelperInspects(h);
    es, h := HelperThen(es, x.(helper := h), H.Probed(7, PROBE));
  }

  lemma HelperThen(es: seq<Event>, x: Scene, e: H.Event) returns (longer: seq<Event>, h: H.Helper)
    requires Shows(Run(Init(CONFIG), es), x) && !e.Arrive?
    ensures h == H.Step(x.helper, e) && longer == es + [HelperStep(e)]
      && Shows(Run(Init(CONFIG), longer), x.(helper := h))
  {
    hide Run, Step, Shows, H.Step;
    HelperWorks(Run(Init(CONFIG), es), x, e);
    longer := Then(es, HelperStep(e));
    h := H.Step(x.helper, e);
  }

  const AGAIN := Q.Job(PlanKey(0), Q.Running, 2, 3, 2, Some(1))

  /** Meanwhile protection is paused, and with it the incident; both are resumed, and the plan job is run again:
      it finds the action. */
  lemma PlannedAgain(before: seq<Event>, h: H.Helper) returns (es: seq<Event>, x: Scene)
    requires Shows(Run(Init(CONFIG), before), Scene(Repairing, false, Some(APPROVED.(status := Running)), Some(RETRY),
      Some(RUNNING), None, Some(ExecWait(0, 5, TARGET)), h))
    ensures x == Scene(Planning, false, Some(APPROVED.(status := Running)), Some(AGAIN), Some(RUNNING),
      Some(PlanApply(0, 5, CONTEXT)), Some(ExecWait(0, 5, TARGET)), h)
    ensures Shows(Run(Init(CONFIG), es), x)
  {
    hide Run, Step, Shows;
    es := before;
    x := Scene(Repairing, false, Some(APPROVED.(status := Running)), Some(RETRY), Some(RUNNING), None,
               Some(ExecWait(0, 5, TARGET)), h);
    PausedNow(Run(Init(CONFIG), es), x);
    es := Then(es, Administer(DoPause(true)));
    x := x.(paused := true);
    Elsewhere(Run(Init(CONFIG), es), x, Paused);
    es := Then(es, OtherPipeline(0, Paused));
    x := x.(status := Paused);
    ResumedNow(Run(Init(CONFIG), es), x);
    es := Then(es, Administer(DoPause(false)));
    x := x.(paused := false, status := CollectingContext);
    PlanTaken(Run(Init(CONFIG), es), x, 2);
    es := Then(es, ClaimJob(1, PlanKey(0), 2));
    x := x.(plan := Some(AGAIN), planner := Some(PlanStart(0)));
    PlanRead(Run(Init(CONFIG), es), x);
    es := Then(es, Statement(1, Acked, 0));
    x := x.(planner := Some(PlanBegin(0, false, Safe)));
    PlanStarted(Run(Init(CONFIG), es), x);
    es := Then(es, Statement(1, Acked, 0));
    x := x.(status := Diagnosing, planner := Some(PlanDecide(0, false, Safe)));
    PlanChosen(Run(Init(CONFIG), es), x);
    es := Then(es, Decide(1, CHOICE, Acked));
    x := x.(status := Planning, planner := Some(PlanPersist(0, false, Safe, TARGET, 2)));
    PlanFound(Run(Init(CONFIG), es), x);
    es := Then(es, PersistAction(1, 6, true, true, Acked));
    x := x.(planner := Some(PlanApply(0, 5, CONTEXT)));
  }

  lemma IssuedHere(s: Sys, x: Scene)
    requires Shows(s, x) && x.helper.issued == [H.Issue(5, 7, TARGET, CONFIG)]
    ensures |s.helper.issued| == 1 && Issued(s, 5)
    ensures x.row.Some? ==> s.db.actions == map[0 := x.row.value]
    ensures 0 in s.db.incidents && s.db.incidents[0] == x.status
  {
    assert s.helper.issued[0].id == 5;
  }

  /** The restart is issued, its row then marked as waiting for approval, and then, although an approval had
      taken effect before, rejected: the incident ends CANCELLED and its action REJECTED, restarted. */
  lemma IssuedThenRejected() returns (es: seq<Event>, n: nat)
    ensures n < |es|
    ensures var s := Run(Init(CONFIG), es[..n]);
      |s.helper.issued| == 1 && Issued(s, 5) && s.db.actions == map[0 := APPROVED.(status := ApprovalRequired)]
    ensures var s := Run(Init(CONFIG), es);
      && |s.helper.issued| == 1 && Issued(s, 5)
      && s.db.actions == map[0 := ROW.(status := Refused, policy := ByRejection)]
      && 0 in s.db.incidents && s.db.incidents[0].Cancelled?
  {
    hide Run, Step, Shows, Issued, H.Step, AtPc;
    var h;
    es, h := SentOnce();
    HelperLaunches(h);
    var x := Scene(Repairing, false, Some(APPROVED.(status := Running)), Some(RETRY), Some(RUNNING), None,
                   Some(ExecWait(0, 5, TARGET)), h);
    es, h := HelperThen(es, x, H.Launch(7));
    es, x := PlannedAgain(es, h);
    PlanMarked(Run(Init(CONFIG), es), x);
    es := Then(es, Statement(1, Acked, 0));
    x := x.(row := Some(APPROVED.(status := ApprovalRequired)), planner := Some(MoveIncident(0, Planning, WaitingApproval)));
    n := |es|;
    var marked := es;
    IssuedHere(Run(Init(CONFIG), es), x);
    PlanWaits(Run(Init(CONFIG), es), x, Acked);
    es := Then(es, Statement(1, Acked, 0));
    x := x.(status := WaitingApproval, planner := Some(Done(true)));
    var seen := Look(APPROVED.(status := ApprovalRequired));
    Rejected(Run(Init(CONFIG), es), x, seen);
    es := Then(es, Administer(DoReject(0, seen)));
    x := x.(row := Some(ROW.(status := Refused, policy := ByRejection)), status := Cancelled);
    IssuedHere(Run(Init(CONFIG), es), x);
    assert es[..n] == marked;
  }

  lemma LaunchIsOvermarked(s: Sys, x: Scene)
    requires Shows(s, x) && AtPc(x.helper, H.Launching(FOUND))
    requires x.row == Some(Action(5, TARGET, 2, ByApproval, ApprovalRequired))
    ensures LaunchesOvermarked(s, HelperStep(H.Launch(7))) && s.helper.issued == []
  {
    assert s.db.actions[0].id == 5;
  }

  /** The other way round: the row is marked over while the request is under way, when no restart was issued
      yet, and the helper issues it then. */
  lemma MarkedThenIssued() returns (es: seq<Event>)
    ensures es != [] && LaunchesOvermarked(Run(Init(CONFIG), es[..|es| - 1]), es[|es| - 1])
    ensures Run(Init(CONFIG), es[..|es| - 1]).helper.issued == []
    ensures var s := Run(Init(CONFIG), es);
      |s.helper.issued| == 1 && Issued(s, 5) && s.db.actions == map[0 := APPROVED.(status := ApprovalRequired)]
  {
    hide Run, Step, Shows, Issued, H.Step;
    var h;
    es, h := SentOnce();
    HelperLaunches(h);
    var x;
    es, x := PlannedAgain(es, h);
    PlanMarked(Run(Init(CONFIG), es), x);
    es := Then(es, Statement(1, Acked, 0));
    x := x.(row := Some(APPROVED.(status := ApprovalRequired)), planner := Some(MoveIncident(0, Planning, WaitingApproval)));
    var marked := es;
    LaunchIsOvermarked(Run(Init(CONFIG), marked), x);
    es, h := HelperThen(es, x, H.Launch(7));
    IssuedHere(Run(Init(CONFIG), es), x.(helper := h));
    assert es[..|es| - 1] == marked;
  }
}
