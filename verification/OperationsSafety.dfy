/** The invariant of the composed system. */
module OperationsSafety {
  import opened Wrappers
  import opened Policy
  import opened RuntimeProtocol
  import opened RuntimeClient
  import opened OperationsDb
  import opened Operations
  import H = HelperMachine
  import HS = HelperSafety
  import Q = JobQueue

  predicate Unstarted(s: Sys, key: Key) {
    key !in s.db.queue.jobs || s.db.queue.jobs[key].attempt == 0
  }

  predicate PreSend(t: Task) {
    t.ExecStart? || t.ExecHold? || t.ExecLoad? || t.ExecClaim? || t.ExecSend?
  }

  predicate NoSender(s: Sys, a: Id) {
    forall w | w in s.tasks && PreSend(s.tasks[w]) :: s.tasks[w].a != a
  }

  predicate Answer(s: Sys, a: Id) {
    && a in s.sent && s.sent[a].call.Some? && s.sent[a].call.value in s.helper.calls
    && s.helper.calls[s.sent[a].call.value].pc.Answered?
  }

  function GivenReply(s: Sys, a: Id): Response
    requires Answer(s, a)
  {
    s.helper.calls[s.sent[a].call.value].pc.resp
  }

  /** The helper answered the one request of `a` with a success. */
  predicate Confirmed(s: Sys, a: Id) { Answer(s, a) && GivenReply(s, a).ClaimsRestarted() }

  /** No restart of `a` happened or ever will: nothing was sent and nobody is about to, or the helper
      refused the one request. */
  predicate ShutOut(s: Sys, i: IncidentId, a: Id) {
    && !Unstarted(s, ExecuteKey(i, a))
    && ((a !in s.sent && NoSender(s, a)) || (Answer(s, a) && GivenReply(s, a).ClaimsNotStarted()))
  }

  ghost predicate NoChecks(s: Sys, a: Id) {
    Log(s, a) == [] && forall i, n :: VerifyKey(i, a, n) !in s.db.queue.jobs
  }

  predicate AllTrue(log: seq<bool>) { forall n | 0 <= n < |log| :: log[n] }

  predicate LogAt(s: Sys, i: IncidentId, a: Id, n: nat) {
    IsRow(s.db, i, a) && |Log(s, a)| == n && AllTrue(Log(s, a)) && n < Clamp(s.db.actions[i].required)
  }

  predicate FullLog(s: Sys, i: IncidentId, a: Id) {
    IsRow(s.db, i, a) && |Log(s, a)| == Clamp(s.db.actions[i].required) && AllTrue(Log(s, a))
  }

  predicate FailedLog(s: Sys, a: Id) { |Log(s, a)| > 0 && !Log(s, a)[|Log(s, a)| - 1] }

  predicate Fits(t: Task, key: Key) {
    match t
    case ExecStart(i, a) => key == ExecuteKey(i, a)
    case ExecHold(i, a) => key == ExecuteKey(i, a)
    case ExecLoad(i, a) => key == ExecuteKey(i, a)
    case ExecClaim(i, a, _) => key == ExecuteKey(i, a)
    case ExecSend(i, a, _) => key == ExecuteKey(i, a)
    case ExecWait(i, a, _) => key == ExecuteKey(i, a)
    case ExecReport(i, a, _) => key == ExecuteKey(i, a)
    case ExecUnclear(i, a) => key == ExecuteKey(i, a)
    case BeginVerify(i, a) => key == ExecuteKey(i, a)
    case EnqueueVerify(i, a, n) => key == if n == 0 then ExecuteKey(i, a) else VerifyKey(i, a, n - 1)
    case VerifyStart(i, a, n) => key == VerifyKey(i, a, n)
    case VerifyLoad(i, a, n) => key == VerifyKey(i, a, n)
    case VerifyProbe(i, a, n, _) => key == VerifyKey(i, a, n)
    case VerifyFailed(i, a) => key.VerifyKey? && key.i == i && key.a == a
    case VerifyPassed(i, a) => key.VerifyKey? && key.i == i && key.a == a
    case VerifyResolve(i, a) => key.VerifyKey? && key.i == i && key.a == a
    case _ => true
  }

  ghost predicate TaskOk(s: Sys, t: Task) {
    match t
    case MoveIncident(_, from, next) => !from.Resolved? && !next.Resolved?
    case PlanApply(i, a, _) => IsRow(s.db, i, a)
    case PlanEnqueue(i, a, context) => IsRow(s.db, i, a) && DecideOperations(Low, true, context).Allow?
    case ExecStart(i, a) => a !in s.sent && NoChecks(s, a)
    case ExecHold(i, a) => a !in s.sent && NoChecks(s, a)
    case ExecLoad(i, a) => a !in s.sent && NoChecks(s, a) && a in s.cleared
    case ExecClaim(i, a, _) => a !in s.sent && NoChecks(s, a) && a in s.cleared
    case ExecSend(i, a, _) => a !in s.sent && NoChecks(s, a) && a in s.cleared
    case ExecWait(i, a, _) => a in s.sent && NoChecks(s, a)
    case ExecReport(i, a, r) =>
      && NoChecks(s, a)
      && (Verdict(r).Executed? ==> Confirmed(s, a))
      && (Verdict(r).FailedClosed? ==> ShutOut(s, i, a))
    case ExecUnclear(i, a) => NoChecks(s, a)
    case BeginVerify(i, a) => NoChecks(s, a) && Confirmed(s, a)
    case EnqueueVerify(i, a, n) =>
      LogAt(s, i, a, n) && VerifyKey(i, a, n) !in s.db.queue.jobs && Confirmed(s, a) && (n == 0 ==> NoChecks(s, a))
    case VerifyStart(i, a, n) => LogAt(s, i, a, n)
    case VerifyLoad(i, a, n) => LogAt(s, i, a, n)
    case VerifyProbe(i, a, n, required) => LogAt(s, i, a, n) && required == Clamp(s.db.actions[i].required)
    case VerifyFailed(i, a) => FailedLog(s, a)
    case VerifyPassed(i, a) => FullLog(s, i, a)
    case VerifyResolve(i, a) => FullLog(s, i, a)
    case _ => true
  }

  /** What may allow an execution. */
  predicate GrantOk(g: Grant) { g.GrantedByAdmin? || DecideOperations(Low, true, g.context).Allow? }

  ghost predicate JobOk(s: Sys, key: Key)
    requires key in s.db.queue.jobs
  {
    var job := s.db.queue.jobs[key];
    && job.payload == key
    && match key
       case PlanKey(_) => true
       case ExecuteKey(i, a) => job.maxAttempts == 1 && IsRow(s.db, i, a) && a in s.grants && GrantOk(s.grants[a])
       case VerifyKey(i, a, n) =>
         && job.maxAttempts == 1 && IsRow(s.db, i, a) && !Unstarted(s, ExecuteKey(i, a)) && Confirmed(s, a)
         && n <= |Log(s, a)| && (job.attempt == 0 ==> LogAt(s, i, a, n))
  }

  ghost predicate RowOk(s: Sys, i: IncidentId)
    requires i in s.db.actions
  {
    var row := s.db.actions[i];
    var a := row.id;
    && (Unstarted(s, ExecuteKey(i, a)) ==>
          && a !in s.sent && NoChecks(s, a)
          && (row.status.Planned? || row.status.ApprovalRequired? || row.status.OnHold? || row.status.Refused?))
    && match row.status
       case Running => a in s.cleared
       case FailedClosed => ShutOut(s, i, a)
       case Executed => Confirmed(s, a)
       case Verified => Confirmed(s, a) && FullLog(s, i, a)
       case VerificationFailed => Confirmed(s, a) && FailedLog(s, a)
       case _ => true
  }

  predicate AtWork(pc: H.Pc) { !pc.InspectingOnly? && !pc.Answered? && !pc.Dead? }

  ghost predicate SentOk(s: Sys) {
    && (forall a | a in s.sent ::
          && a in s.cleared && IsRow(s.db, s.sent[a].i, a) && !Unstarted(s, ExecuteKey(s.sent[a].i, a))
          && (s.sent[a].call.Some? ==>
                s.sent[a].call.value in s.helper.calls && s.helper.calls[s.sent[a].call.value].id == a))
    && (forall m | m in s.wire :: m.a in s.sent && s.sent[m.a].call.None?)
    && (forall m, m' | m in s.wire && m' in s.wire && m.a == m'.a :: m == m')
    && (forall a | a in s.checks :: a in s.sent)
  }

  ghost predicate HelperOk(h: H.Helper, sent: map<Id, Dispatch>) {
    && HS.Inv(h)
    && (forall c | c in h.calls && AtWork(h.calls[c].pc) ::
          var a := h.calls[c].id; a in sent && sent[a].call == Some(c))
    && (forall k | 0 <= k < |h.issued| ::
          var issue := h.issued[k]; issue.id in sent && sent[issue.id].call == Some(issue.call))
  }

  /** The job a handler works on. */
  function Held(s: Sys, w: Worker): Key {
    if w in s.db.queue.held then s.db.queue.held[w].key else PlanKey(0)
  }

  ghost predicate LeasesOk(tasks: map<Worker, Task>, held: map<Worker, Q.Lease<Key>>) {
    && tasks.Keys == held.Keys
    && forall w | w in tasks :: Fits(tasks[w], held[w].key)
  }

  predicate IdsOk(db: Db) {
    forall i, j | i in db.actions && j in db.actions && db.actions[i].id == db.actions[j].id :: i == j
  }

  ghost predicate Inv(s: Sys) {
    && HelperOk(s.helper, s.sent)
    && Q.Inv(s.db.queue)
    && LeasesOk(s.tasks, s.db.queue.held)
    && IdsOk(s.db)
    && SentOk(s)
    && (forall key | key in s.db.queue.jobs :: JobOk(s, key))
    && (forall i | i in s.db.actions :: RowOk(s, i))
    && (forall w | w in s.tasks :: TaskOk(s, s.tasks[w]))
  }

  lemma InitInv(config: HelperConfig)
    ensures Inv(Init(config))
  {
  }

  /** Rows keep their identity and plan; only status and policy may differ. */
  predicate SameRows(db: Db, db': Db) {
    && db'.actions.Keys == db.actions.Keys
    && forall i | i in db.actions ::
         db'.actions[i] == db.actions[i].(status := db'.actions[i].status, policy := db'.actions[i].policy)
  }

  /** A handler's step that writes incidents or one status and leaves jobs, messages and history alone. */
  predicate Quiet(s: Sys, s': Sys, w: Worker)
    requires w in s.tasks
  {
    && SameRows(s.db, s'.db) && s'.db.queue == s.db.queue
    && w in s'.tasks && s'.tasks == s.tasks[w := s'.tasks[w]]
    && s'.wire == s.wire && s'.helper == s.helper && s'.sent == s.sent && s'.grants == s.grants && s'.checks == s.checks
    && s.cleared <= s'.cleared
    && (PreSend(s'.tasks[w]) ==> PreSend(s.tasks[w]) && s'.tasks[w].a == s.tasks[w].a)
  }

  lemma QuietTask(s: Sys, s': Sys, w: Worker, t: Task)
    requires w in s.tasks && Quiet(s, s', w) && TaskOk(s, t)
    ensures TaskOk(s', t)
  {
  }

  lemma QuietJob(s: Sys, s': Sys, w: Worker, key: Key)
    requires w in s.tasks && Quiet(s, s', w) && key in s.db.queue.jobs && JobOk(s, key)
    ensures JobOk(s', key)
  {
  }

  lemma QuietRow(s: Sys, s': Sys, w: Worker, i: IncidentId)
    requires w in s.tasks && Quiet(s, s', w) && i in s.db.actions && RowOk(s, i)
    requires s'.db.actions[i].status == s.db.actions[i].status
    ensures RowOk(s', i)
  {
  }

  lemma QuietSent(s: Sys, s': Sys, w: Worker)
    requires w in s.tasks && Quiet(s, s', w) && SentOk(s)
    ensures SentOk(s')
  {
  }

  lemma QuietInv(s: Sys, s': Sys, w: Worker)
    requires Inv(s) && w in s.tasks && Quiet(s, s', w)
    requires Fits(s'.tasks[w], Held(s, w))
    requires TaskOk(s, s'.tasks[w]) || TaskOk(s', s'.tasks[w])
    requires forall i | i in s.db.actions && s'.db.actions[i].status != s.db.actions[i].status :: RowOk(s', i)
    ensures Inv(s')
  {
    hide TaskOk, RowOk, JobOk, SentOk, HelperOk, Q.Inv;
    QuietSent(s, s', w);
    forall v | v in s'.tasks ensures TaskOk(s', s'.tasks[v]) {
      if v != w || TaskOk(s, s'.tasks[w]) {
        QuietTask(s, s', w, s'.tasks[v]);
      }
    }
    forall key | key in s'.db.queue.jobs ensures JobOk(s', key) {
      QuietJob(s, s', w, key);
    }
    forall i | i in s'.db.actions ensures RowOk(s', i) {
      if s'.db.actions[i].status == s.db.actions[i].status {
        QuietRow(s, s', w, i);
      }
    }
  }

  lemma TaskFact(s: Sys, w: Worker)
    requires Inv(s) && w in s.tasks
    ensures w in s.db.queue.held && Fits(s.tasks[w], Held(s, w)) && TaskOk(s, s.tasks[w])
  {
  }

  lemma RowFact(s: Sys, i: IncidentId)
    requires Inv(s) && i in s.db.actions
    ensures RowOk(s, i)
  {
  }

  /** A statement that only moves the incident, or only reads. */
  lemma ReadInv(s: Sys, w: Worker, db: Db, t: Task)
    requires Inv(s) && w in s.tasks && Fits(t, Held(s, w)) && TaskOk(s, t)
    requires PreSend(t) ==> PreSend(s.tasks[w]) && t.a == s.tasks[w].a
    requires db.actions == s.db.actions && db.queue == s.db.queue
    ensures Inv(Next(s.(db := db), w, t))
  {
    hide Inv, TaskOk, RowOk, Fits;
    QuietInv(s, Next(s.(db := db), w, t), w);
  }

  lemma StayInv(s: Sys, w: Worker, t: Task)
    requires Inv(s) && w in s.tasks && Fits(t, Held(s, w)) && TaskOk(s, t)
    requires PreSend(t) ==> PreSend(s.tasks[w]) && t.a == s.tasks[w].a
    ensures Inv(Next(s, w, t))
  {
    ReadInv(s, w, s.db, t);
    assert s.(db := s.db) == s;
  }

  lemma TryInv(s: Sys, w: Worker, write: Write, r: Result<Db, DbError>, t: Task)
    requires Inv(s) && w in s.tasks && Fits(t, Held(s, w)) && TaskOk(s, t)
    requires PreSend(t) ==> PreSend(s.tasks[w]) && t.a == s.tasks[w].a
    requires r.Ok? ==> r.value.actions == s.db.actions && r.value.queue == s.db.queue
    ensures Inv(Try(s, w, write, r, t))
  {
    hide Inv;
    var s' := Try(s, w, write, r, t);
    var t' := s'.tasks[w];
    if r.Err? || write == Lost(false) {
      assert s' == Next(s, w, t');
      StayInv(s, w, t');
    } else {
      assert s' == Next(s.(db := r.value), w, t');
      ReadInv(s, w, r.value, t');
    }
  }

  lemma MarkInv(s: Sys, w: Worker, write: Write, i: IncidentId, a: Id, status: ActionStatus, t: Task)
    requires Inv(s) && w in s.tasks && Fits(t, Held(s, w)) && TaskOk(s, t)
    requires PreSend(t) ==> PreSend(s.tasks[w]) && t.a == s.tasks[w].a
    requires IsRow(s.db, i, a) ==> RowOk(s.(db := Mark(s.db, i, a, status)), i)
    ensures Inv(Wrote(s, w, write, Mark(s.db, i, a, status), t))
  {
    hide Inv;
    var s' := Wrote(s, w, write, Mark(s.db, i, a, status), t);
    var t' := s'.tasks[w];
    if write == Lost(false) {
      assert s' == Next(s, w, t');
      StayInv(s, w, t');
    } else {
      assert s' == Next(s.(db := Mark(s.db, i, a, status)), w, t');
      MarkedInv(s, w, i, a, status, t');
    }
  }

  lemma MarkedInv(s: Sys, w: Worker, i: IncidentId, a: Id, status: ActionStatus, t: Task)
    requires Inv(s) && w in s.tasks && Fits(t, Held(s, w)) && TaskOk(s, t)
    requires PreSend(t) ==> PreSend(s.tasks[w]) && t.a == s.tasks[w].a
    requires IsRow(s.db, i, a) ==> RowOk(s.(db := Mark(s.db, i, a, status)), i)
    ensures Inv(Next(s.(db := Mark(s.db, i, a, status)), w, t))
  {
    hide Inv, TaskOk, RowOk, Fits;
    var s1 := s.(db := Mark(s.db, i, a, status));
    var s' := Next(s1, w, t);
    if IsRow(s.db, i, a) {
      QuietRow(s1, s', w, i);
    }
    QuietInv(s, s', w);
  }

  lemma Started(s: Sys, w: Worker)
    requires Inv(s) && w in s.tasks
    ensures Held(s, w) in s.db.queue.jobs && !Unstarted(s, Held(s, w)) && JobOk(s, Held(s, w))
    ensures Held(s, w).VerifyKey? ==> !Unstarted(s, ExecuteKey(Held(s, w).i, Held(s, w).a))
  {
  }

  // Marking a started action with a status that claims nothing.
  lemma MarkFreely(s: Sys, w: Worker, write: Write, i: IncidentId, a: Id, status: ActionStatus, t: Task)
    requires Inv(s) && w in s.tasks && Fits(t, Held(s, w)) && TaskOk(s, t) && !PreSend(t)
    requires status.ApprovalRequired? || status.OnHold? || (status.Unclear? && !Unstarted(s, ExecuteKey(i, a)))
    ensures Inv(Wrote(s, w, write, Mark(s.db, i, a, status), t))
  {
    hide Inv;
    TaskFact(s, w);
    if IsRow(s.db, i, a) {
      RowFact(s, i);
      FreeRow(s, i, a, status);
    }
    MarkInv(s, w, write, i, a, status, t);
  }

  lemma FreeRow(s: Sys, i: IncidentId, a: Id, status: ActionStatus)
    requires IsRow(s.db, i, a) && RowOk(s, i)
    requires status.ApprovalRequired? || status.OnHold? || (status.Unclear? && !Unstarted(s, ExecuteKey(i, a)))
    ensures RowOk(s.(db := Mark(s.db, i, a, status)), i)
  {
  }

  lemma ReportedRow(s: Sys, i: IncidentId, a: Id, result: Result<Restart, HelperError>)
    requires IsRow(s.db, i, a) && !Unstarted(s, ExecuteKey(i, a)) && TaskOk(s, ExecReport(i, a, result))
    ensures RowOk(s.(db := Mark(s.db, i, a, Verdict(result))), i)
  {
  }

  lemma ReportInv(s: Sys, w: Worker, write: Write, i: IncidentId, a: Id, result: Result<Restart, HelperError>)
    requires Inv(s) && w in s.tasks && s.tasks[w] == ExecReport(i, a, result)
    ensures Inv(ExecStep(s, w, write))
  {
    hide Inv;
    TaskFact(s, w);
    Started(s, w);
    if IsRow(s.db, i, a) {
      ReportedRow(s, i, a, result);
    }
    var t := if result.Ok? then BeginVerify(i, a) else EscalateNow(i);
    assert ExecStep(s, w, write) == Wrote(s, w, write, Mark(s.db, i, a, Verdict(result)), t);
    MarkInv(s, w, write, i, a, Verdict(result), t);
  }

  lemma ClaimRunInv(s: Sys, w: Worker, write: Write, i: IncidentId, a: Id, target: string)
    requires Inv(s) && w in s.tasks && s.tasks[w] == ExecClaim(i, a, target)
    ensures Inv(ExecStep(s, w, write))
  {
    hide Inv;
    TaskFact(s, w);
    Started(s, w);
    if Claimable(s.db, i, a) {
      RowFact(s, i);
      RunningRow(s, i, a);
      assert ExecStep(s, w, write) == Wrote(s, w, write, Mark(s.db, i, a, Running), ExecSend(i, a, target));
      MarkInv(s, w, write, i, a, Running, ExecSend(i, a, target));
    } else {
      assert ExecStep(s, w, write) == Next(s, w, Done(true));
      StayInv(s, w, Done(true));
    }
  }

  lemma RunningRow(s: Sys, i: IncidentId, a: Id)
    requires IsRow(s.db, i, a) && RowOk(s, i) && !Unstarted(s, ExecuteKey(i, a)) && a in s.cleared
    ensures RowOk(s.(db := Mark(s.db, i, a, Running)), i)
  {
  }

  lemma ExecStartInv(s: Sys, w: Worker, i: IncidentId, a: Id, write: Write)
    requires Inv(s) && w in s.tasks && s.tasks[w] == ExecStart(i, a)
    ensures Inv(ExecStep(s, w, write))
  {
    hide Inv, NoChecks, ExecStep;
    TaskFact(s, w);
    var t := ExecReads(s, w, i, a, write);
    if t.ExecLoad? {
      ClearedInv(s, w, i, a);
    } else {
      StayInv(s, w, t);
    }
  }

  lemma ExecReads(s: Sys, w: Worker, i: IncidentId, a: Id, write: Write) returns (t: Task)
    requires w in s.tasks && s.tasks[w] == ExecStart(i, a)
    ensures t.Done? || t == ExecHold(i, a) || t == ExecLoad(i, a)
    ensures ExecStep(s, w, write) == Next(if t.ExecLoad? then s.(cleared := s.cleared + {a}) else s, w, t)
  {
    t := ExecStep(s, w, write).tasks[w];
  }

  /** Protection was read as active. */
  lemma ClearedInv(s: Sys, w: Worker, i: IncidentId, a: Id)
    requires Inv(s) && w in s.tasks && s.tasks[w] == ExecStart(i, a)
    ensures Inv(Next(s.(cleared := s.cleared + {a}), w, ExecLoad(i, a)))
  {
    hide Inv;
    TaskFact(s, w);
    QuietInv(s, Next(s.(cleared := s.cleared + {a}), w, ExecLoad(i, a)), w);
  }

  lemma ExecLoadInv(s: Sys, w: Worker, i: IncidentId, a: Id, write: Write)
    requires Inv(s) && w in s.tasks && s.tasks[w] == ExecLoad(i, a)
    ensures Inv(ExecStep(s, w, write))
  {
    hide Inv;
    TaskFact(s, w);
    var s' := ExecStep(s, w, write);
    if IsRow(s.db, i, a) {
      RowFact(s, i);
    }
    assert s' == Next(s, w, s'.tasks[w]);
    assert TaskOk(s, s'.tasks[w]);
    StayInv(s, w, s'.tasks[w]);
  }

  lemma ExecInv(s: Sys, w: Worker, write: Write)
    requires Inv(s) && w in s.tasks && Executor(s.tasks[w])
    ensures Inv(ExecStep(s, w, write))
  {
    hide Inv;
    TaskFact(s, w);
    match s.tasks[w]
    case ExecStart(i, a) => ExecStartInv(s, w, i, a, write);
    case ExecHold(i, a) =>
      var t := MoveIncident(i, Repairing, Paused);
      assert ExecStep(s, w, write) == Wrote(s, w, write, Mark(s.db, i, a, OnHold), t);
      MarkFreely(s, w, write, i, a, OnHold, t);
    case ExecLoad(i, a) => ExecLoadInv(s, w, i, a, write);
    case ExecClaim(i, a, target) => ClaimRunInv(s, w, write, i, a, target);
    case ExecReport(i, a, result) => ReportInv(s, w, write, i, a, result);
    case ExecUnclear(i, a) =>
      Started(s, w);
      assert ExecStep(s, w, write) == Wrote(s, w, write, Mark(s.db, i, a, Unclear), EscalateNow(i));
      MarkFreely(s, w, write, i, a, Unclear, EscalateNow(i));
  }

  lemma PlanStartInv(s: Sys, w: Worker, write: Write, i: IncidentId)
    requires Inv(s) && w in s.tasks && s.tasks[w] == PlanStart(i)
    ensures Inv(PlanStep(s, w, write, 0))
  {
    hide Inv, PlanStep, Transition;
    var t := PlanReads(s, w, write, i);
    StayInv(s, w, t);
  }

  lemma PlanReads(s: Sys, w: Worker, write: Write, i: IncidentId) returns (t: Task)
    requires w in s.tasks && s.tasks[w] == PlanStart(i)
    ensures PlanStep(s, w, write, 0) == Next(s, w, t) && (t.PlanBegin? || t.PlanDecide? || t.Done?)
  {
    t := PlanStep(s, w, write, 0).tasks[w];
  }

  lemma PlanApplyInv(s: Sys, w: Worker, write: Write, i: IncidentId, a: Id, context: OperationsContext)
    requires Inv(s) && w in s.tasks && s.tasks[w] == PlanApply(i, a, context)
    ensures Inv(PlanStep(s, w, write, 0))
  {
    hide Inv;
    TaskFact(s, w);
    var s' := PlanStep(s, w, write, 0);
    match DecideOperations(Low, true, context)
    case Allow =>
      assert s' == Try(s, w, write, Transition(s.db, i, Planning, Repairing), PlanEnqueue(i, a, context));
      TryInv(s, w, write, Transition(s.db, i, Planning, Repairing), PlanEnqueue(i, a, context));
    case RequireApproval =>
      var t := MoveIncident(i, Planning, WaitingApproval);
      assert s' == Wrote(s, w, write, Mark(s.db, i, a, ApprovalRequired), t);
      MarkFreely(s, w, write, i, a, ApprovalRequired, t);
    case Block =>
      var t := if context.killSwitch then MoveIncident(i, Planning, Paused) else EscalateNow(i);
      assert s' == Wrote(s, w, write, Mark(s.db, i, a, OnHold), t);
      MarkFreely(s, w, write, i, a, OnHold, t);
  }

  lemma PlanInv(s: Sys, w: Worker, write: Write, at: int)
    requires Inv(s) && w in s.tasks && Planner(s.tasks[w]) && !s.tasks[w].PlanEnqueue?
    ensures Inv(PlanStep(s, w, write, at))
  {
    hide Inv;
    TaskFact(s, w);
    assert PlanStep(s, w, write, at) == PlanStep(s, w, write, 0);
    match s.tasks[w]
    case PlanStart(i) => PlanStartInv(s, w, write, i);
    case PlanBegin(i, paused, mode) =>
      var t := PlanDecide(i, paused, mode);
      assert PlanStep(s, w, write, 0) == Try(s, w, write, Transition(s.db, i, CollectingContext, Diagnosing), t);
      TryInv(s, w, write, Transition(s.db, i, CollectingContext, Diagnosing), t);
    case PlanApply(i, a, context) => PlanApplyInv(s, w, write, i, a, context);
    case MoveIncident(i, from, next) =>
      assert PlanStep(s, w, write, 0) == Try(s, w, write, Transition(s.db, i, from, next), Done(true));
      TryInv(s, w, write, Transition(s.db, i, from, next), Done(true));
    case EscalateNow(i) =>
      assert PlanStep(s, w, write, 0) == Try(s, w, write, Escalate(s.db, i), Done(true));
      TryInv(s, w, write, Escalate(s.db, i), Done(true));
  }

  lemma VerdictRow(s: Sys, i: IncidentId, a: Id, passed: bool)
    requires IsRow(s.db, i, a) && !Unstarted(s, ExecuteKey(i, a)) && Confirmed(s, a)
    requires if passed then FullLog(s, i, a) else FailedLog(s, a)
    ensures RowOk(s.(db := Mark(s.db, i, a, if passed then Verified else VerificationFailed)), i)
  {
  }

  lemma VerdictInv(s: Sys, w: Worker, write: Write, i: IncidentId, a: Id, passed: bool, t: Task)
    requires Inv(s) && w in s.tasks && s.tasks[w] == (if passed then VerifyPassed(i, a) else VerifyFailed(i, a))
    requires t == if passed then VerifyResolve(i, a) else EscalateNow(i)
    ensures Inv(Wrote(s, w, write, Mark(s.db, i, a, if passed then Verified else VerificationFailed), t))
  {
    hide Inv;
    TaskFact(s, w);
    Started(s, w);
    if IsRow(s.db, i, a) {
      VerdictRow(s, i, a, passed);
    }
    MarkInv(s, w, write, i, a, if passed then Verified else VerificationFailed, t);
  }

  lemma BeginVerifyInv(s: Sys, w: Worker, write: Write, i: IncidentId, a: Id)
    requires Inv(s) && w in s.tasks && s.tasks[w] == BeginVerify(i, a)
    ensures Inv(VerifyStep(s, w, write, 0))
  {
    hide Inv;
    TaskFact(s, w);
    Started(s, w);
    var s' := VerifyStep(s, w, write, 0);
    assert s' == Try(s, w, write, Transition(s.db, i, Repairing, VerifyingProduction), EnqueueVerify(i, a, 0));
    assert TaskOk(s, EnqueueVerify(i, a, 0));
    TryInv(s, w, write, Transition(s.db, i, Repairing, VerifyingProduction), EnqueueVerify(i, a, 0));
  }

  lemma VerifyStartInv(s: Sys, w: Worker, write: Write, i: IncidentId, a: Id, check: nat)
    requires Inv(s) && w in s.tasks && s.tasks[w] == VerifyStart(i, a, check)
    ensures Inv(VerifyStep(s, w, write, 0))
  {
    hide Inv, LogAt;
    TaskFact(s, w);
    var t := VerifyStep(s, w, write, 0).tasks[w];
    assert VerifyStep(s, w, write, 0) == Next(s, w, t);
    StayInv(s, w, t);
  }

  lemma VerifyLoadInv(s: Sys, w: Worker, write: Write, i: IncidentId, a: Id, check: nat)
    requires Inv(s) && w in s.tasks && s.tasks[w] == VerifyLoad(i, a, check)
    ensures Inv(VerifyStep(s, w, write, 0))
  {
    hide Inv, TaskOk, Fits;
    TaskFact(s, w);
    var t := VerifyStep(s, w, write, 0).tasks[w];
    assert VerifyStep(s, w, write, 0) == Next(s, w, t);
    if t.VerifyProbe? {
      assert t == VerifyProbe(i, a, check, Clamp(s.db.actions[i].required));
      ProbeOk(s, i, a, check, Held(s, w));
    } else {
      EndOk(s, t, Held(s, w));
    }
    StayInv(s, w, t);
  }

  lemma ProbeOk(s: Sys, i: IncidentId, a: Id, check: nat, key: Key)
    requires IsRow(s.db, i, a) && TaskOk(s, VerifyLoad(i, a, check)) && Fits(VerifyLoad(i, a, check), key)
    ensures var t := VerifyProbe(i, a, check, Clamp(s.db.actions[i].required)); TaskOk(s, t) && Fits(t, key)
  {
  }

  lemma EndOk(s: Sys, t: Task, key: Key)
    requires t.Done? || t.EscalateNow?
    ensures TaskOk(s, t) && Fits(t, key) && !PreSend(t)
  {
  }

  lemma VerifyInv(s: Sys, w: Worker, write: Write, at: int)
    requires Inv(s) && w in s.tasks && !Planner(s.tasks[w]) && !Executor(s.tasks[w]) && !s.tasks[w].EnqueueVerify?
    ensures Inv(VerifyStep(s, w, write, at))
  {
    hide Inv;
    TaskFact(s, w);
    assert VerifyStep(s, w, write, at) == VerifyStep(s, w, write, 0);
    match s.tasks[w]
    case BeginVerify(i, a) => BeginVerifyInv(s, w, write, i, a);
    case VerifyStart(i, a, check) => VerifyStartInv(s, w, write, i, a, check);
    case VerifyLoad(i, a, check) => VerifyLoadInv(s, w, write, i, a, check);
    case VerifyFailed(i, a) =>
      assert VerifyStep(s, w, write, 0) == Wrote(s, w, write, Mark(s.db, i, a, VerificationFailed), EscalateNow(i));
      VerdictInv(s, w, write, i, a, false, EscalateNow(i));
    case VerifyPassed(i, a) =>
      assert VerifyStep(s, w, write, 0) == Wrote(s, w, write, Mark(s.db, i, a, Verified), VerifyResolve(i, a));
      VerdictInv(s, w, write, i, a, true, VerifyResolve(i, a));
    case VerifyResolve(i, a) =>
      assert VerifyStep(s, w, write, 0) == Try(s, w, write, Transition(s.db, i, VerifyingProduction, Resolved), Done(true));
      TryInv(s, w, write, Transition(s.db, i, VerifyingProduction, Resolved), Done(true));
    case _ => assert VerifyStep(s, w, write, 0) == s;
  }

  // A task whose facts would be upset by a verification job of `a` appearing.
  predicate Rival(t: Task, a: Id) {
    (PreSend(t) || t.ExecWait? || t.ExecReport? || t.ExecUnclear? || t.BeginVerify? || t.EnqueueVerify?) && t.a == a
  }

  predicate MayAdd(s: Sys, key: Key, maxAttempts: nat) {
    match key
    case PlanKey(_) => true
    case ExecuteKey(i, a) => maxAttempts == 1 && IsRow(s.db, i, a) && a in s.grants && GrantOk(s.grants[a])
    case VerifyKey(i, a, n) =>
      && maxAttempts == 1 && LogAt(s, i, a, n) && !Unstarted(s, ExecuteKey(i, a)) && Confirmed(s, a)
      && forall w | w in s.tasks :: !Rival(s.tasks[w], a)
  }

  lemma AddTask(s: Sys, key: Key, max: nat, at: int, t: Task)
    requires TaskOk(s, t) && MayAdd(s, key, max) && (key.VerifyKey? ==> !Rival(t, key.a))
    ensures TaskOk(s.(db := Enqueue(s.db, key, max, at)), t)
  {
  }

  lemma AddRow(s: Sys, key: Key, max: nat, at: int, i: IncidentId)
    requires i in s.db.actions && RowOk(s, i) && MayAdd(s, key, max) && IdsOk(s.db)
    ensures RowOk(s.(db := Enqueue(s.db, key, max, at)), i)
  {
  }

  lemma AddedJob(s: Sys, key: Key, max: nat, at: int, k: Key)
    requires MayAdd(s, key, max) && (forall k | k in s.db.queue.jobs :: JobOk(s, k))
    requires k in Enqueue(s.db, key, max, at).queue.jobs
    ensures JobOk(s.(db := Enqueue(s.db, key, max, at)), k)
  {
    if k in s.db.queue.jobs {
      assert JobOk(s, k);
    }
  }

  lemma AddSent(s: Sys, key: Key, max: nat, at: int)
    requires SentOk(s)
    ensures SentOk(s.(db := Enqueue(s.db, key, max, at)))
  {
  }

  lemma AddInv(s: Sys, key: Key, max: nat, at: int)
    requires Inv(s) && MayAdd(s, key, max)
    ensures Inv(s.(db := Enqueue(s.db, key, max, at)))
  {
    hide TaskOk, RowOk, JobOk, SentOk, HelperOk, Q.Inv, Rival, Confirmed;
    var s' := s.(db := Enqueue(s.db, key, max, at));
    AddSent(s, key, max, at);
    forall w | w in s'.tasks ensures TaskOk(s', s'.tasks[w]) {
      AddTask(s, key, max, at, s.tasks[w]);
    }
    forall i | i in s'.db.actions ensures RowOk(s', i) {
      AddRow(s, key, max, at, i);
    }
    forall k | k in s'.db.queue.jobs ensures JobOk(s', k) {
      AddedJob(s, key, max, at, k);
    }
    Q.StepInv(s.db.queue, Q.Event.Enqueue(key, key, max, at));
  }

  lemma GrantJob(s: Sys, a: Id, g: Grant, key: Key)
    requires key in s.db.queue.jobs && JobOk(s, key) && GrantOk(g)
    ensures JobOk(s.(grants := s.grants[a := g]), key)
  {
  }

  lemma GrantInv(s: Sys, a: Id, g: Grant)
    requires Inv(s) && GrantOk(g)
    ensures Inv(s.(grants := s.grants[a := g]))
  {
    hide GrantOk, TaskOk, RowOk, JobOk;
    var s' := s.(grants := s.grants[a := g]);
    forall w | w in s'.tasks ensures TaskOk(s', s'.tasks[w]) {
      GrantTask(s, s', s.tasks[w]);
    }
    forall i | i in s'.db.actions ensures RowOk(s', i) {
      GrantRow(s, s', i);
    }
    forall key | key in s'.db.queue.jobs ensures JobOk(s', key) {
      GrantJob(s, a, g, key);
    }
  }

  lemma GrantTask(s: Sys, s': Sys, t: Task)
    requires s' == s.(grants := s'.grants) && TaskOk(s, t)
    ensures TaskOk(s', t)
  {
  }

  lemma GrantRow(s: Sys, s': Sys, i: IncidentId)
    requires s' == s.(grants := s'.grants) && i in s.db.actions && RowOk(s, i)
    ensures RowOk(s', i)
  {
  }

  lemma PlanEnqueueInv(s: Sys, w: Worker, write: Write, at: int, i: IncidentId, a: Id, context: OperationsContext)
    requires Inv(s) && w in s.tasks && s.tasks[w] == PlanEnqueue(i, a, context)
    ensures Inv(PlanStep(s, w, write, at))
  {
    hide Inv;
    TaskFact(s, w);
    var s' := PlanStep(s, w, write, at);
    var t := Done(write.Acked?);
    StayInv(s, w, t);
    if s'.db == s.db {
      assert s' == Next(s, w, t);
    } else {
      var s1 := Next(s, w, t);
      var s2 := s1.(grants := s1.grants[a := GrantedByPolicy(context)]);
      GrantInv(s1, a, GrantedByPolicy(context));
      AddInv(s2, ExecuteKey(i, a), 1, at);
      assert s' == s2.(db := Enqueue(s2.db, ExecuteKey(i, a), 1, at));
    }
  }

  lemma OneHolder(s: Sys, w: Worker, v: Worker)
    requires Inv(s) && w in s.tasks && v in s.tasks && Held(s, v) == Held(s, w)
    ensures v == w
  {
  }

  lemma IdsFact(s: Sys)
    requires Inv(s)
    ensures IdsOk(s.db)
  {
  }

  /** The handler about to enqueue a verification job is the only one that could mind. */
  lemma NoRivals(s: Sys, w: Worker, i: IncidentId, a: Id, n: nat, v: Worker)
    requires Inv(s) && w in s.tasks && s.tasks[w] == EnqueueVerify(i, a, n) && v in s.tasks && Rival(s.tasks[v], a)
    ensures v == w
  {
    hide Inv;
    TaskFact(s, w);
    TaskFact(s, v);
    Started(s, w);
    Started(s, v);
    IdsFact(s);
    RivalsKey(s, i, a, n, Held(s, w), s.tasks[v], Held(s, v));
    OneHolder(s, w, v);
  }

  lemma RivalsKey(s: Sys, i: IncidentId, a: Id, n: nat, key: Key, t: Task, k: Key)
    requires IdsOk(s.db) && key in s.db.queue.jobs && k in s.db.queue.jobs && JobOk(s, k)
    requires Fits(EnqueueVerify(i, a, n), key) && TaskOk(s, EnqueueVerify(i, a, n))
    requires Rival(t, a) && Fits(t, k) && TaskOk(s, t)
    ensures k == key
  {
    hide Answer, Confirmed, ShutOut, JobOk, TaskOk, Rival;
    VerifierFact(s, i, a, n);
    if t.EnqueueVerify? {
      RivalIsOf(t, a);
      VerifierFact(s, t.i, a, t.check);
    } else {
      RivalFact(s, t, a, k);
    }
  }

  lemma VerifierFact(s: Sys, i: IncidentId, a: Id, n: nat)
    requires TaskOk(s, EnqueueVerify(i, a, n))
    ensures IsRow(s.db, i, a) && |Log(s, a)| == n
  {
  }

  lemma RivalIsOf(t: Task, a: Id)
    requires Rival(t, a) && t.EnqueueVerify?
    ensures t.a == a
  {
  }

  lemma RivalFact(s: Sys, t: Task, a: Id, k: Key)
    requires Rival(t, a) && !t.EnqueueVerify? && TaskOk(s, t) && Fits(t, k) && k in s.db.queue.jobs && JobOk(s, k)
    ensures k.ExecuteKey? && k.a == a && IsRow(s.db, k.i, a) && NoChecks(s, a)
  {
    hide Answer, Confirmed, ShutOut, NoChecks;
  }

  lemma EnqueueVerifyInv(s: Sys, w: Worker, write: Write, at: int, i: IncidentId, a: Id, n: nat)
    requires Inv(s) && w in s.tasks && s.tasks[w] == EnqueueVerify(i, a, n)
    ensures Inv(VerifyStep(s, w, write, at))
  {
    hide Inv;
    TaskFact(s, w);
    Started(s, w);
    forall v | v in s.tasks && v != w ensures !Rival(s.tasks[v], a) {
      if Rival(s.tasks[v], a) { NoRivals(s, w, i, a, n, v); }
    }
    var s' := VerifyStep(s, w, write, at);
    var s1 := Next(s, w, Done(write.Acked?));
    StayInv(s, w, Done(write.Acked?));
    if write == Lost(false) {
      assert s' == s1;
    } else {
      AddInv(s1, VerifyKey(i, a, n), 1, at);
      assert s' == s1.(db := Enqueue(s1.db, VerifyKey(i, a, n), 1, at));
    }
  }
}
