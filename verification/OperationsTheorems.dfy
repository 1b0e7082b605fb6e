/** The guarantees of the composed system over every run from an empty database and state directory. */
module OperationsTheorems {
  import opened Wrappers
  import opened Policy
  import opened RuntimeProtocol
  import opened RuntimeClient
  import opened OperationsDb
  import opened Operations
  import opened OperationsSafety
  import opened OperationsSteps
  import H = HelperMachine
  import HS = HelperSafety
  import Q = JobQueue

  /** The system after the first `n` events of a run. */
  function At(config: HelperConfig, es: seq<Event>, n: nat): Sys
    requires n <= |es|
  {
    Run(Init(config), es[..n])
  }

  lemma {:induction false} RunSnoc(s: Sys, es: seq<Event>, e: Event)
    ensures Run(s, es + [e]) == Step(Run(s, es), e)
    decreases |es|
  {
    if es == [] {
      assert es + [e] == [e];
      assert Run(Step(s, e), []) == Step(s, e);
    } else {
      assert (es + [e])[1..] == es[1..] + [e];
      RunSnoc(Step(s, es[0]), es[1..], e);
    }
  }

  lemma AtNext(config: HelperConfig, es: seq<Event>, n: nat)
    requires n < |es|
    ensures At(config, es, n + 1) == Step(At(config, es, n), es[n])
  {
    RunSnoc(Init(config), es[..n], es[n]);
    assert es[..n + 1] == es[..n] + [es[n]];
  }

  lemma Reached(config: HelperConfig, es: seq<Event>)
    ensures Inv(Run(Init(config), es))
  {
    OperationsSafety.InitInv(config);
    RunInv(Init(config), es);
  }

  // What the helper did for an action.

  /** The restart of `a` was issued exactly once, and the helper proved it: the two inspections it reported
      passed the enrolment in force when it was issued, and the container was running after it. */
  ghost predicate RestartedOnce(s: Sys, a: Id) {
    Confirmed(s, a) &&
    var success := GivenReply(s, a).outcome.success;
    exists k :: 0 <= k < |s.helper.issued| && s.helper.issued[k].id == a
      && (forall j | 0 <= j < |s.helper.issued| && s.helper.issued[j].id == a :: j == k)
      && ProvenIssue(s.helper.issued[k], success.before, success.after)
  }

  predicate ProvenIssue(issue: H.Issue, before: ContainerState, after: ContainerState) {
    Enrolled(issue.config, before) && Enrolled(issue.config, after) && before.id == issue.target == after.id
      && after.Running()
  }

  ghost predicate Issued(s: Sys, a: Id) { HS.Logged(s.helper, a) }

  lemma ConfirmedOnce(s: Sys, a: Id)
    requires Inv(s) && Confirmed(s, a)
    ensures RestartedOnce(s, a)
  {
    hide Inv;
    SentFact(s);
    CalledFact(s, a);
    ProvenOnce(s, a, s.sent[a].call.value);
  }

  lemma CalledFact(s: Sys, a: Id)
    requires SentOk(s) && HelperOk(s.helper, s.sent) && Answer(s, a)
    ensures s.helper.calls[s.sent[a].call.value].id == a && HS.Inv(s.helper)
  {
    hide HS.Inv;
  }

  lemma ProvenOnce(s: Sys, a: Id, c: H.CallId)
    requires HS.Inv(s.helper) && c in s.helper.calls && s.helper.calls[c].id == a
    requires Confirmed(s, a) && s.sent[a].call.value == c
    ensures RestartedOnce(s, a)
  {
    hide HS.Inv, Enrolled;
    AnsweredTruth(s.helper, c);
    OnceEach(s.helper);
    var success, target := s.helper.calls[c].pc.resp.outcome.success, s.helper.calls[c].target;
    var k :| 0 <= k < |s.helper.issued| && s.helper.issued[k].id == a && s.helper.issued[k].target == target
      && Enrolled(s.helper.issued[k].config, success.before) && Enrolled(s.helper.issued[k].config, success.after)
      && success.before.id == target && success.after.id == target && success.after.Running();
    assert ProvenIssue(s.helper.issued[k], success.before, success.after);
  }

  lemma AnsweredTruth(h: H.Helper, c: H.CallId)
    requires HS.Inv(h) && c in h.calls && h.calls[c].pc.Answered?
    ensures HS.AnswerOk(h, c, h.calls[c].pc.resp)
  {
    assert HS.PcOk(h, c);
  }

  lemma OnceEach(h: H.Helper)
    requires HS.Inv(h)
    ensures forall j, k | 0 <= j < |h.issued| && 0 <= k < |h.issued| && h.issued[j].id == h.issued[k].id :: j == k
  {
  }

  lemma ShutOutNone(s: Sys, i: IncidentId, a: Id)
    requires Inv(s) && ShutOut(s, i, a)
    ensures !Issued(s, a)
  {
    SentFact(s);
    forall k | 0 <= k < |s.helper.issued| ensures s.helper.issued[k].id != a {
      if s.helper.issued[k].id == a {
        AnsweredTruth(s.helper, s.helper.issued[k].call);
        assert HS.IssuedBy(s.helper, s.helper.issued[k].call);
      }
    }
  }

  ghost predicate HasRow(db: Db, a: Id) { exists i :: IsRow(db, i, a) }

  lemma IssueHasRow(s: Sys, k: nat)
    requires Inv(s) && k < |s.helper.issued|
    ensures s.helper.issued[k].id in s.sent && IsRow(s.db, s.sent[s.helper.issued[k].id].i, s.helper.issued[k].id)
  {
    SentFact(s);
  }

  /** Every restart belongs to the one action of one incident, and no two to the same incident. */
  lemma OneRestartPerIncident(config: HelperConfig, es: seq<Event>)
    ensures var s := Run(Init(config), es);
      && (forall k | 0 <= k < |s.helper.issued| :: HasRow(s.db, s.helper.issued[k].id))
      && (forall i, j, k | 0 <= j < |s.helper.issued| && 0 <= k < |s.helper.issued|
            && IsRow(s.db, i, s.helper.issued[j].id) && IsRow(s.db, i, s.helper.issued[k].id) :: j == k)
  {
    Reached(config, es);
    var s := Run(Init(config), es);
    SentFact(s);
    OnceEach(s.helper);
    forall k | 0 <= k < |s.helper.issued| ensures HasRow(s.db, s.helper.issued[k].id) {
      IssueHasRow(s, k);
    }
  }

  /** What the action's row says happened: an executed or verified action was restarted exactly once and
      proven; one that failed closed was not restarted; an issued restart is never recorded as failed
      closed, and one not yet executed was not issued. */
  lemma RowsTellTheTruth(config: HelperConfig, es: seq<Event>, i: IncidentId)
    requires i in Run(Init(config), es).db.actions
    ensures var s := Run(Init(config), es); var row := s.db.actions[i];
      && (row.status.Executed? || row.status.Verified? || row.status.VerificationFailed? ==> RestartedOnce(s, row.id))
      && (row.status.FailedClosed? ==> !Issued(s, row.id))
      && (Unstarted(s, ExecuteKey(i, row.id)) ==> !Issued(s, row.id))
  {
    Reached(config, es);
    var s := Run(Init(config), es);
    var row := s.db.actions[i];
    RowFact(s, i);
    SentFact(s);
    if row.status.FailedClosed? {
      ShutOutNone(s, i, row.id);
    } else if row.status.Executed? || row.status.Verified? || row.status.VerificationFailed? {
      ConfirmedOnce(s, row.id);
    }
  }

  /** The verdict a handler is about to write is sound: EXECUTED means exactly one proven restart,
      FAILED_CLOSED means none, so a restart that is not proven can only become AMBIGUOUS. */
  lemma VerdictsAreSound(config: HelperConfig, es: seq<Event>, w: Worker)
    requires w in Run(Init(config), es).tasks && Run(Init(config), es).tasks[w].ExecReport?
    ensures var s := Run(Init(config), es); var ExecReport(i, a, result) := s.tasks[w];
      && (Verdict(result).Executed? ==> RestartedOnce(s, a))
      && (Verdict(result).FailedClosed? ==> !Issued(s, a))
      && (Issued(s, a) && !RestartedOnce(s, a) ==> Verdict(result).Unclear?)
  {
    hide Inv, Run, RestartedOnce;
    Reached(config, es);
    var s := Run(Init(config), es);
    TaskFact(s, w);
    var ExecReport(i, a, result) := s.tasks[w];
    if Verdict(result).Executed? {
      ConfirmedOnce(s, a);
    } else if Verdict(result).FailedClosed? {
      ShutOutNone(s, i, a);
    }
  }

  // A failed-closed action stays without a restart.

  predicate Calm(s: Sys, s': Sys) {
    && s'.sent == s.sent && s'.helper == s.helper
    && (forall k | k in s.db.queue.jobs ::
          k in s'.db.queue.jobs && s.db.queue.jobs[k].attempt <= s'.db.queue.jobs[k].attempt)
    && (forall w | w in s'.tasks && PreSend(s'.tasks[w]) ::
          w in s.tasks && PreSend(s.tasks[w]) && s.tasks[w].a == s'.tasks[w].a)
  }

  lemma CalmShutOut(s: Sys, s': Sys, i: IncidentId, a: Id)
    requires Calm(s, s') && ShutOut(s, i, a)
    ensures ShutOut(s', i, a)
  {
  }

  lemma HeardShutOut(s: Sys, s': Sys, i: IncidentId, a: Id)
    requires Heard(s, s') && ShutOut(s, i, a)
    ensures ShutOut(s', i, a)
  {
  }

  predicate Onward(s: Sys, w: Worker, t: Task)
    requires w in s.tasks
  {
    PreSend(t) ==> PreSend(s.tasks[w]) && s.tasks[w].a == t.a
  }

  lemma NextCalm(s: Sys, w: Worker, t: Task)
    requires w in s.tasks && Onward(s, w, t)
    ensures Calm(s, Next(s, w, t))
  {
  }

  lemma WroteCalm(s: Sys, w: Worker, write: Write, db: Db, t: Task)
    requires w in s.tasks && Onward(s, w, t)
    requires db.queue == s.db.queue || exists key, max, at :: db.queue == Q.Enqueued(s.db.queue, key, key, max, at)
    ensures Calm(s, Wrote(s, w, write, db, t))
  {
  }

  lemma TryCalm(s: Sys, w: Worker, write: Write, r: Result<Db, DbError>, t: Task)
    requires w in s.tasks && Onward(s, w, t) && (r.Ok? ==> r.value.queue == s.db.queue)
    ensures Calm(s, Try(s, w, write, r, t))
  {
    hide Calm;
    match r
    case Ok(db) => WroteCalm(s, w, write, db, t);
    case Err(_) => NextCalm(s, w, Done(false));
  }

  lemma EnqueueCalm(s: Sys, w: Worker, write: Write, key: Key, max: nat, at: int)
    requires w in s.tasks
    ensures Calm(s, Wrote(s, w, write, Enqueue(s.db, key, max, at), Done(true)))
  {
    hide Calm;
    assert Enqueue(s.db, key, max, at).queue == Q.Enqueued(s.db.queue, key, key, max, at);
    WroteCalm(s, w, write, Enqueue(s.db, key, max, at), Done(true));
  }

  lemma PlanCalm(s: Sys, w: Worker, write: Write, at: int)
    requires w in s.tasks && Planner(s.tasks[w])
    ensures Calm(s, PlanStep(s, w, write, at))
  {
    hide Calm;
    var s', db := PlanStep(s, w, write, at), s.db;
    match s.tasks[w]
    case PlanStart(i) => NextCalm(s, w, s'.tasks[w]);
    case PlanBegin(i, paused, mode) =>
      TryCalm(s, w, write, Transition(db, i, CollectingContext, Diagnosing), PlanDecide(i, paused, mode));
    case PlanApply(i, a, context) =>
      if DecideOperations(Low, true, context).Allow? {
        TryCalm(s, w, write, Transition(db, i, Planning, Repairing), PlanEnqueue(i, a, context));
      } else if DecideOperations(Low, true, context).RequireApproval? {
        WroteCalm(s, w, write, Mark(db, i, a, ApprovalRequired), MoveIncident(i, Planning, WaitingApproval));
      } else {
        WroteCalm(s, w, write, Mark(db, i, a, OnHold), if context.killSwitch then MoveIncident(i, Planning, Paused) else EscalateNow(i));
      }
    case PlanEnqueue(i, a, context) =>
      EnqueueCalm(s, w, write, ExecuteKey(i, a), 1, at);
      GrantsCalm(s, Wrote(s, w, write, Enqueue(db, ExecuteKey(i, a), 1, at), Done(true)), s'.grants);
    case MoveIncident(i, from, next) => TryCalm(s, w, write, Transition(db, i, from, next), Done(true));
    case EscalateNow(i) => TryCalm(s, w, write, Escalate(db, i), Done(true));
  }

  lemma GrantsCalm(s: Sys, s1: Sys, grants: map<Id, Grant>)
    requires Calm(s, s1)
    ensures Calm(s, s1.(grants := grants))
  {
  }

  lemma ExecCalm(s: Sys, w: Worker, write: Write)
    requires w in s.tasks && Executor(s.tasks[w])
    ensures Calm(s, ExecStep(s, w, write))
  {
    hide Calm;
    var s', db := ExecStep(s, w, write), s.db;
    match s.tasks[w]
    case ExecStart(i, a) =>
      NextCalm(s, w, s'.tasks[w]);
      ClearedCalm(s, Next(s, w, s'.tasks[w]), s'.cleared);
    case ExecHold(i, a) => WroteCalm(s, w, write, Mark(db, i, a, OnHold), MoveIncident(i, Repairing, Paused));
    case ExecLoad(i, a) => NextCalm(s, w, s'.tasks[w]);
    case ExecClaim(i, a, target) =>
      if Claimable(db, i, a) { WroteCalm(s, w, write, Mark(db, i, a, Running), ExecSend(i, a, target)); }
      else { NextCalm(s, w, Done(true)); }
    case ExecReport(i, a, result) =>
      WroteCalm(s, w, write, Mark(db, i, a, Verdict(result)), if result.Ok? then BeginVerify(i, a) else EscalateNow(i));
    case ExecUnclear(i, a) => WroteCalm(s, w, write, Mark(db, i, a, Unclear), EscalateNow(i));
  }

  lemma ClearedCalm(s: Sys, s1: Sys, cleared: set<Id>)
    requires Calm(s, s1)
    ensures Calm(s, s1.(cleared := cleared))
  {
  }

  lemma VerifyCalm(s: Sys, w: Worker, write: Write, at: int)
    requires w in s.tasks
    ensures Calm(s, VerifyStep(s, w, write, at))
  {
    hide Calm;
    var s', db := VerifyStep(s, w, write, at), s.db;
    match s.tasks[w]
    case BeginVerify(i, a) =>
      TryCalm(s, w, write, Transition(db, i, Repairing, VerifyingProduction), EnqueueVerify(i, a, 0));
    case EnqueueVerify(i, a, check) => EnqueueCalm(s, w, write, VerifyKey(i, a, check), 1, at);
    case VerifyStart(i, a, check) => NextCalm(s, w, s'.tasks[w]);
    case VerifyLoad(i, a, check) => NextCalm(s, w, s'.tasks[w]);
    case VerifyFailed(i, a) => WroteCalm(s, w, write, Mark(db, i, a, VerificationFailed), EscalateNow(i));
    case VerifyPassed(i, a) => WroteCalm(s, w, write, Mark(db, i, a, Verified), VerifyResolve(i, a));
    case VerifyResolve(i, a) => TryCalm(s, w, write, Transition(db, i, VerifyingProduction, Resolved), Done(true));
    case _ => SelfCalm(s);
  }

  lemma SelfCalm(s: Sys)
    ensures Calm(s, s)
  {
  }

  lemma StatementCalm(s: Sys, w: Worker, write: Write, at: int)
    requires w in s.tasks
    ensures Calm(s, StatementStep(s, w, write, at))
  {
    hide Calm;
    if Planner(s.tasks[w]) {
      PlanCalm(s, w, write, at);
    } else if Executor(s.tasks[w]) {
      ExecCalm(s, w, write);
    } else {
      VerifyCalm(s, w, write, at);
    }
  }

  lemma ShutOutSend(s: Sys, w: Worker, client: Option<HelperError>, size: nat, t: Traffic, credential: string,
    i: IncidentId, a: Id)
    requires w in s.tasks && s.tasks[w].ExecSend? && ShutOut(s, i, a) && (a in s.sent ==> s.tasks[w].a != a)
    ensures ShutOut(SendStep(s, w, client, size, t, credential), i, a)
  {
  }

  lemma SenderUnsent(s: Sys, w: Worker)
    requires Inv(s) && w in s.tasks && s.tasks[w].ExecSend?
    ensures s.tasks[w].a !in s.sent
  {
    TaskFact(s, w);
  }

  lemma ShutOutHelped(s: Sys, e: H.Event, i: IncidentId, a: Id)
    requires Inv(s) && ShutOut(s, i, a) && (!e.Arrive? || e.request.action.Inspect?)
    ensures ShutOut(s.(helper := H.Step(s.helper, e)), i, a)
  {
    hide Inv, ShutOut;
    SentFact(s);
    HS.StepInv(s.helper, e);
    HelperFrame(s.helper, e);
    Helped(s, H.Step(s.helper, e));
    HeardShutOut(s, s.(helper := H.Step(s.helper, e)), i, a);
  }

  lemma ShutOutDelivered(s: Sys, m: Message, c: H.CallId, peer: nat, i: IncidentId, a: Id)
    requires Inv(s) && ShutOut(s, i, a)
    ensures ShutOut(DeliverStep(s, m, c, peer), i, a)
  {
    hide Inv, ShutOut;
    SentFact(s);
    if m in s.wire && m.a in s.sent && c !in s.helper.calls {
      HS.StepInv(s.helper, H.Arrive(c, peer, Request(PROTOCOL_VERSION, m.a, m.credential, RestartContainer(m.target))));
      Delivered(s, m, c, peer);
      HeardShutOut(s, DeliverStep(s, m, c, peer), i, a);
    }
  }

  lemma ShutOutStep(s: Sys, e: Event, i: IncidentId, a: Id)
    requires Inv(s) && ShutOut(s, i, a)
    ensures ShutOut(Step(s, e), i, a)
  {
    hide Inv, ShutOut, Calm;
    var s' := Step(s, e);
    match e
    case Statement(w, write, at) =>
      if w in s.tasks {
        StatementCalm(s, w, write, at);
        CalmShutOut(s, s', i, a);
      }
    case ClaimJob(w, key, now) =>
      if Takeable(s, w, key, now) {
        FirstClaim(s, w, key, now);
        IdsFact(s);
        JobsFact(s);
        TakenShutOut(s, w, key, now, i, a);
      }
    case Send(w, client, size, t, credential) =>
      if w in s.tasks && s.tasks[w].ExecSend? {
        SenderUnsent(s, w);
        ShutOutSend(s, w, client, size, t, credential, i, a);
      }
    case Deliver(m, c, peer) => ShutOutDelivered(s, m, c, peer, i, a);
    case HelperStep(he) => if !he.Arrive? || he.request.action.Inspect? { ShutOutHelped(s, he, i, a); }
    case _ =>
      if e.Decide? || e.PersistAction? || e.Receive? || e.Check? {
        HandlersCalm(s, e);
      } else if e.EnqueuePlan? || e.Report? || e.WorkerStops? {
        QueueCalm(s, e);
      } else {
        OthersCalm(s, e);
      }
      CalmShutOut(s, s', i, a);
  }

  lemma JobsFact(s: Sys)
    requires Inv(s)
    ensures forall k | k in s.db.queue.jobs :: JobOk(s, k)
  {
  }

  lemma DecideCalm(s: Sys, w: Worker, d: Operations.Decision, write: Write)
    requires w in s.tasks && s.tasks[w].PlanDecide?
    ensures Calm(s, DecideStep(s, w, d, write))
  {
    hide Calm;
    var PlanDecide(i, paused, mode) := s.tasks[w];
    if d.SelectRestart? && d.target == d.configured && d.httpSelected {
      TryCalm(s, w, write, Transition(s.db, i, Diagnosing, Planning), PlanPersist(i, paused, mode, d.target, d.required));
    } else {
      NextCalm(s, w, DecideStep(s, w, d, write).tasks[w]);
    }
  }

  lemma PersistCalm(s: Sys, w: Worker, id: Id, enabled: bool, clear: bool, write: Write)
    requires w in s.tasks && s.tasks[w].PlanPersist?
    ensures Calm(s, PersistStep(s, w, id, enabled, clear, write))
  {
    hide Calm;
    SelfCalm(s);
    var PlanPersist(i, paused, mode, target, required) := s.tasks[w];
    var context := OperationsContext(mode, paused, true, enabled, true, clear);
    var r := Persist(s.db, i, id, target, required, NameOf(DecideOperations(Low, true, context)));
    if r.Ok? {
      WroteCalm(s, w, write, r.value.0, PlanApply(i, r.value.1, context));
    } else {
      NextCalm(s, w, Done(false));
    }
  }

  lemma CheckCalm(s: Sys, w: Worker, http: bool, container: bool)
    requires w in s.tasks && s.tasks[w].VerifyProbe?
    ensures Calm(s, CheckStep(s, w, http, container))
  {
  }

  lemma ReceiveCalm(s: Sys, w: Worker, size: nat, t: Traffic)
    requires w in s.tasks && s.tasks[w].ExecWait?
    ensures Calm(s, ReceiveStep(s, w, size, t))
  {
  }

  lemma HandlersCalm(s: Sys, e: Event)
    requires e.Decide? || e.PersistAction? || e.Receive? || e.Check?
    ensures Calm(s, Step(s, e))
  {
    hide Calm;
    SelfCalm(s);
    match e
    case Decide(w, d, write) => if w in s.tasks && s.tasks[w].PlanDecide? { DecideCalm(s, w, d, write); }
    case PersistAction(w, id, enabled, clear, write) =>
      if w in s.tasks && s.tasks[w].PlanPersist? { PersistCalm(s, w, id, enabled, clear, write); }
    case Receive(w, size, t) => if w in s.tasks && s.tasks[w].ExecWait? { ReceiveCalm(s, w, size, t); }
    case Check(w, http, container) => if w in s.tasks && s.tasks[w].VerifyProbe? { CheckCalm(s, w, http, container); }
  }

  lemma QueueCalm(s: Sys, e: Event)
    requires e.EnqueuePlan? || e.Report? || e.WorkerStops?
    ensures Calm(s, Step(s, e))
  {
  }

  lemma AdminCalm(s: Sys, change: AdminEvent)
    ensures Calm(s, AdminSys(s, change))
  {
  }

  lemma OthersCalm(s: Sys, e: Event)
    requires e.OpenIncident? || e.Administer? || e.OtherPipeline? || e.LoseMessage?
    ensures Calm(s, Step(s, e))
  {
    hide CanTransition, AdminSys;
    if e.Administer? { AdminCalm(s, e.change); }
  }

  /** FAILED_CLOSED means no restart of the action was issued and none ever will be. */
  lemma {:induction false} ShutOutForever(s: Sys, es: seq<Event>, i: IncidentId, a: Id)
    requires Inv(s) && ShutOut(s, i, a)
    ensures !Issued(Run(s, es), a)
    decreases |es|
  {
    if es == [] {
      ShutOutNone(s, i, a);
    } else {
      OperationsSteps.StepInv(s, es[0]);
      ShutOutStep(s, es[0], i, a);
      ShutOutForever(Step(s, es[0]), es[1..], i, a);
    }
  }

  lemma FailedClosedForever(config: HelperConfig, es: seq<Event>, i: IncidentId, more: seq<Event>)
    requires i in Run(Init(config), es).db.actions && Run(Init(config), es).db.actions[i].status.FailedClosed?
    ensures !Issued(Run(Run(Init(config), es), more), Run(Init(config), es).db.actions[i].id)
  {
    Reached(config, es);
    var s := Run(Init(config), es);
    RowFact(s, i);
    ShutOutForever(s, more, i, s.db.actions[i].id);
  }
}
