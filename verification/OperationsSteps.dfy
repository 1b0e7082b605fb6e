/** Every step of the composed system keeps its invariant: the steps outside a handler's statements. */
module OperationsSteps {
  import opened Wrappers
  import opened Policy
  import opened RuntimeProtocol
  import opened RuntimeClient
  import opened OperationsDb
  import opened Operations
  import opened OperationsSafety
  import H = HelperMachine
  import HS = HelperSafety
  import Q = JobQueue
  import SD = StateDirectory

  /** Incidents, the switches and row decisions may change; jobs, handlers and history do not. */
  lemma RelabelInv(s: Sys, db: Db)
    requires Inv(s) && SameRows(s.db, db) && db.queue == s.db.queue
    requires forall i | i in s.db.actions && db.actions[i].status != s.db.actions[i].status :: RowOk(s.(db := db), i)
    ensures Inv(s.(db := db))
  {
    hide TaskOk, RowOk, JobOk;
    var s' := s.(db := db);
    forall w | w in s'.tasks ensures TaskOk(s', s'.tasks[w]) {
      RelabelTask(s, db, s.tasks[w]);
    }
    forall key | key in s'.db.queue.jobs ensures JobOk(s', key) {
      RelabelJob(s, db, key);
    }
    forall i | i in s'.db.actions ensures RowOk(s', i) {
      if db.actions[i].status == s.db.actions[i].status {
        RelabelRow(s, db, i);
      }
    }
  }

  lemma RelabelTask(s: Sys, db: Db, t: Task)
    requires SameRows(s.db, db) && db.queue == s.db.queue && TaskOk(s, t)
    ensures TaskOk(s.(db := db), t)
  {
  }

  lemma RelabelJob(s: Sys, db: Db, key: Key)
    requires SameRows(s.db, db) && db.queue == s.db.queue && key in s.db.queue.jobs && JobOk(s, key)
    ensures JobOk(s.(db := db), key)
  {
  }

  lemma RelabelRow(s: Sys, db: Db, i: IncidentId)
    requires SameRows(s.db, db) && db.queue == s.db.queue && i in s.db.actions && RowOk(s, i)
    requires db.actions[i].status == s.db.actions[i].status
    ensures RowOk(s.(db := db), i)
  {
  }

  /** A handler ends or its worker dies: the jobs keep their keys, payloads and attempts. */
  predicate SameJobs(q: Q.Queue<Key, Key>, q': Q.Queue<Key, Key>) {
    && q'.jobs.Keys == q.jobs.Keys
    && forall k | k in q.jobs ::
         && q'.jobs[k].payload == q.jobs[k].payload
         && q'.jobs[k].attempt == q.jobs[k].attempt && q'.jobs[k].maxAttempts == q.jobs[k].maxAttempts
  }

  lemma LeaveInv(s: Sys, w: Worker, q: Q.Queue<Key, Key>)
    requires Inv(s) && SameJobs(s.db.queue, q) && Q.Inv(q) && q.held == s.db.queue.held - {w}
    ensures Inv(s.(tasks := s.tasks - {w}, db := s.db.(queue := q)))
  {
    hide TaskOk, RowOk, JobOk, SentOk, HelperOk, Q.Inv;
    var s' := s.(tasks := s.tasks - {w}, db := s.db.(queue := q));
    LeaveSent(s, w, q);
    forall v | v in s'.tasks ensures TaskOk(s', s'.tasks[v]) {
      LeaveTask(s, w, q, s.tasks[v]);
    }
    forall key | key in s'.db.queue.jobs ensures JobOk(s', key) {
      LeaveJob(s, w, q, key);
    }
    forall i | i in s'.db.actions ensures RowOk(s', i) {
      LeaveRow(s, w, q, i);
    }
  }

  lemma LeaveSent(s: Sys, w: Worker, q: Q.Queue<Key, Key>)
    requires SameJobs(s.db.queue, q) && SentOk(s)
    ensures SentOk(s.(tasks := s.tasks - {w}, db := s.db.(queue := q)))
  {
  }

  lemma LeaveTask(s: Sys, w: Worker, q: Q.Queue<Key, Key>, t: Task)
    requires SameJobs(s.db.queue, q) && TaskOk(s, t)
    ensures TaskOk(s.(tasks := s.tasks - {w}, db := s.db.(queue := q)), t)
  {
  }

  lemma LeaveJob(s: Sys, w: Worker, q: Q.Queue<Key, Key>, key: Key)
    requires SameJobs(s.db.queue, q) && key in s.db.queue.jobs && JobOk(s, key)
    ensures JobOk(s.(tasks := s.tasks - {w}, db := s.db.(queue := q)), key)
  {
  }

  lemma LeaveRow(s: Sys, w: Worker, q: Q.Queue<Key, Key>, i: IncidentId)
    requires SameJobs(s.db.queue, q) && i in s.db.actions && RowOk(s, i)
    ensures RowOk(s.(tasks := s.tasks - {w}, db := s.db.(queue := q)), i)
  {
  }

  lemma ReportedInv(s: Sys, w: Worker, now: int)
    requires Inv(s) && w in s.tasks && s.tasks[w].Done?
    ensures Inv(ReportStep(s, w, now))
  {
    hide Inv, Q.Finished, Q.FailedAttempt, Q.Inv, SameJobs;
    QueueFact(s);
    var q := if s.tasks[w].ok then Q.Finished(s.db.queue, w) else Q.FailedAttempt(s.db.queue, w, now);
    Q.StepInv(s.db.queue, if s.tasks[w].ok then Q.Complete(w) else Q.Fail(w, now));
    ReportedJobs(s, w, now);
    LeaveInv(s, w, q);
  }

  lemma QueueFact(s: Sys)
    requires Inv(s)
    ensures Q.Inv(s.db.queue) && s.tasks.Keys == s.db.queue.held.Keys
  {
  }

  lemma ReportedJobs(s: Sys, w: Worker, now: int)
    requires w in s.db.queue.held
    ensures SameJobs(s.db.queue, Q.Finished(s.db.queue, w)) && SameJobs(s.db.queue, Q.FailedAttempt(s.db.queue, w, now))
    ensures Q.Finished(s.db.queue, w).held == s.db.queue.held - {w} == Q.FailedAttempt(s.db.queue, w, now).held
  {
  }

  lemma StopInv(s: Sys, w: Worker)
    requires Inv(s)
    ensures Inv(s.(tasks := s.tasks - {w}, db := s.db.(queue := Q.Crashed(s.db.queue, w))))
  {
    hide TaskOk, RowOk, JobOk, SentOk, HelperOk;
    Q.StepInv(s.db.queue, Q.Event<Key, Key>.Crash(w));
    LeaveInv(s, w, Q.Crashed(s.db.queue, w));
  }

  predicate Takeable(s: Sys, w: Worker, key: Key, now: int) {
    w !in s.tasks && Q.Takes(s.db.queue, Q.Claim(w, key, now), key)
  }

  function Taken(s: Sys, w: Worker, key: Key, now: int): Sys
    requires Takeable(s, w, key, now)
  {
    Next(s.(db := s.db.(queue := Q.Claimed(s.db.queue, w, key, now))), w, FirstTask(key))
  }

  /** A job of one attempt that can be claimed was never claimed before. */
  lemma FirstClaim(s: Sys, w: Worker, key: Key, now: int)
    requires Inv(s) && Takeable(s, w, key, now)
    ensures JobOk(s, key) && (!key.PlanKey? ==> Unstarted(s, key) && s.db.queue.jobs[key].attempt == 0)
  {
  }

  lemma TakenTask(s: Sys, w: Worker, key: Key, now: int, t: Task)
    requires Takeable(s, w, key, now) && TaskOk(s, t) && JobOk(s, key) && IdsOk(s.db)
    requires forall k | k in s.db.queue.jobs :: JobOk(s, k)
    requires !key.PlanKey? ==> Unstarted(s, key)
    ensures TaskOk(Taken(s, w, key, now), t)
  {
    if t.ExecReport? && Verdict(t.result).FailedClosed? {
      TakenShutOut(s, w, key, now, t.i, t.a);
    }
  }

  lemma TakenShutOut(s: Sys, w: Worker, key: Key, now: int, i: IncidentId, a: Id)
    requires Takeable(s, w, key, now) && ShutOut(s, i, a) && JobOk(s, key) && IdsOk(s.db)
    requires forall k | k in s.db.queue.jobs :: JobOk(s, k)
    requires !key.PlanKey? ==> Unstarted(s, key)
    ensures ShutOut(Taken(s, w, key, now), i, a)
  {
    assert JobOk(s, ExecuteKey(i, a));
  }

  lemma TakenJob(s: Sys, w: Worker, key: Key, now: int, k: Key)
    requires Takeable(s, w, key, now) && k in s.db.queue.jobs && JobOk(s, k)
    ensures JobOk(Taken(s, w, key, now), k)
  {
  }

  lemma TakenRow(s: Sys, w: Worker, key: Key, now: int, i: IncidentId)
    requires Takeable(s, w, key, now) && i in s.db.actions && RowOk(s, i) && JobOk(s, key) && IdsOk(s.db)
    requires forall k | k in s.db.queue.jobs :: JobOk(s, k)
    requires !key.PlanKey? ==> Unstarted(s, key)
    ensures RowOk(Taken(s, w, key, now), i)
  {
    hide JobOk, ShutOut, Takeable, IdsOk, Taken, Unstarted;
    if s.db.actions[i].status.FailedClosed? {
      TakenShutOut(s, w, key, now, i, s.db.actions[i].id);
    }
    TakenStarts(s, w, key, now, ExecuteKey(i, s.db.actions[i].id));
  }

  lemma TakenStarts(s: Sys, w: Worker, key: Key, now: int, k: Key)
    requires Takeable(s, w, key, now)
    ensures var s' := Taken(s, w, key, now);
      && (Unstarted(s', k) ==> Unstarted(s, k)) && s'.db.queue.jobs.Keys == s.db.queue.jobs.Keys
      && s'.db.actions == s.db.actions && s'.sent == s.sent && s'.helper == s.helper
      && s'.checks == s.checks && s'.cleared == s.cleared
  {
  }

  lemma TakenSent(s: Sys, w: Worker, key: Key, now: int)
    requires Takeable(s, w, key, now) && SentOk(s)
    ensures SentOk(Taken(s, w, key, now))
  {
  }

  lemma FirstTaskOk(s: Sys, w: Worker, key: Key, now: int)
    requires Takeable(s, w, key, now) && JobOk(s, key) && (!key.PlanKey? ==> s.db.queue.jobs[key].attempt == 0)
    requires key.ExecuteKey? ==> IsRow(s.db, key.i, key.a) && RowOk(s, key.i)
    ensures TaskOk(Taken(s, w, key, now), FirstTask(key)) && Fits(FirstTask(key), key)
  {
  }

  lemma TakenInv(s: Sys, w: Worker, key: Key, now: int)
    requires Inv(s) && Takeable(s, w, key, now)
    ensures Inv(Taken(s, w, key, now))
  {
    hide TaskOk, RowOk, SentOk, HelperOk, Q.Inv, Unstarted;
    FirstClaim(s, w, key, now);
    var s' := Taken(s, w, key, now);
    Q.StepInv(s.db.queue, Q.Claim(w, key, now));
    TakenSent(s, w, key, now);
    FirstTaskOk(s, w, key, now);
    forall v | v in s'.tasks ensures TaskOk(s', s'.tasks[v]) {
      if v != w { TakenTask(s, w, key, now, s.tasks[v]); }
    }
    forall k | k in s'.db.queue.jobs ensures JobOk(s', k) {
      TakenJob(s, w, key, now, k);
    }
    forall i | i in s'.db.actions ensures RowOk(s', i) {
      TakenRow(s, w, key, now, i);
    }
  }

  lemma ClaimInv(s: Sys, w: Worker, key: Key, now: int)
    requires Inv(s)
    ensures Inv(ClaimStep(s, w, key, now))
  {
    hide Inv;
    if Takeable(s, w, key, now) {
      FirstClaim(s, w, key, now);
      TakenInv(s, w, key, now);
    }
  }

  lemma DecideInv(s: Sys, w: Worker, d: Operations.Decision, write: Write)
    requires Inv(s) && w in s.tasks && s.tasks[w].PlanDecide?
    ensures Inv(DecideStep(s, w, d, write))
  {
    hide Inv;
    TaskFact(s, w);
    var s' := DecideStep(s, w, d, write);
    var PlanDecide(i, paused, mode) := s.tasks[w];
    if d.SelectRestart? && d.target == d.configured && d.httpSelected {
      TryInv(s, w, write, Transition(s.db, i, Diagnosing, Planning), PlanPersist(i, paused, mode, d.target, d.required));
    } else {
      assert s' == Next(s, w, s'.tasks[w]);
      StayInv(s, w, s'.tasks[w]);
    }
  }

  function Insert(s: Sys, i: IncidentId, row: Action): Sys {
    s.(db := s.db.(actions := s.db.actions[i := row]))
  }

  lemma InsertTask(s: Sys, i: IncidentId, row: Action, t: Task)
    requires i !in s.db.actions && TaskOk(s, t)
    ensures TaskOk(Insert(s, i, row), t)
  {
  }

  lemma InsertJob(s: Sys, i: IncidentId, row: Action, key: Key)
    requires i !in s.db.actions && key in s.db.queue.jobs && JobOk(s, key)
    ensures JobOk(Insert(s, i, row), key)
  {
  }

  lemma InsertRow(s: Sys, i: IncidentId, row: Action, j: IncidentId)
    requires i !in s.db.actions && j in s.db.actions && RowOk(s, j)
    ensures RowOk(Insert(s, i, row), j)
  {
  }

  lemma InsertSent(s: Sys, i: IncidentId, row: Action)
    requires i !in s.db.actions && SentOk(s)
    ensures SentOk(Insert(s, i, row))
  {
  }

  /** A fresh id has no job, no request and no checks. */
  lemma FreshRow(s: Sys, i: IncidentId, row: Action)
    requires Inv(s) && i !in s.db.actions && FreshId(s, row.id) && row.status.Planned?
    ensures RowOk(Insert(s, i, row), i)
  {
    assert forall key | key in s.db.queue.jobs :: JobOk(s, key);
    assert forall k, n :: VerifyKey(k, row.id, n) !in s.db.queue.jobs;
  }

  lemma InsertInv(s: Sys, i: IncidentId, row: Action)
    requires Inv(s) && i !in s.db.actions && FreshId(s, row.id) && row.status.Planned?
    ensures Inv(Insert(s, i, row))
  {
    hide TaskOk, RowOk, JobOk, SentOk, HelperOk, Q.Inv;
    FreshRow(s, i, row);
    InsertSent(s, i, row);
    var s' := Insert(s, i, row);
    forall w | w in s'.tasks ensures TaskOk(s', s'.tasks[w]) {
      InsertTask(s, i, row, s.tasks[w]);
    }
    forall key | key in s'.db.queue.jobs ensures JobOk(s', key) {
      InsertJob(s, i, row, key);
    }
    forall j | j in s'.db.actions ensures RowOk(s', j) {
      if j != i { InsertRow(s, i, row, j); }
    }
  }

  /** The row is there already, or the insert did not happen: only the handler moves. */
  lemma FoundInv(s: Sys, w: Worker, t: Task)
    requires Inv(s) && w in s.tasks && (t.Done? || (t.PlanApply? && IsRow(s.db, t.i, t.a)))
    ensures Inv(Next(s, w, t))
  {
    hide Inv;
    StayInv(s, w, t);
  }

  lemma PersistInv(s: Sys, w: Worker, id: Id, enabled: bool, clear: bool, write: Write)
    requires Inv(s) && w in s.tasks && s.tasks[w].PlanPersist?
    ensures Inv(PersistStep(s, w, id, enabled, clear, write))
  {
    hide Inv, DecideOperations, NameOf;
    var s' := PersistStep(s, w, id, enabled, clear, write);
    if !FreshId(s, id) {
      assert s' == s;
      return;
    }
    var PlanPersist(i, paused, mode, target, required) := s.tasks[w];
    var context := OperationsContext(mode, paused, true, enabled, true, clear);
    if i in s.db.actions || write == Lost(false) {
      assert s' == Next(s, w, s'.tasks[w]);
      FoundInv(s, w, s'.tasks[w]);
    } else {
      var row := Action(id, target, required, NameOf(DecideOperations(Low, true, context)), Planned);
      InsertInv(s, i, row);
      FoundInv(Insert(s, i, row), w, s'.tasks[w]);
      assert s' == Next(Insert(s, i, row), w, s'.tasks[w]);
    }
  }

  // Sending: the request of `a` comes into being.

  function Posted(s: Sys, w: Worker, i: IncidentId, m: Message): Sys {
    Next(s.(wire := s.wire + {m}, sent := s.sent[m.a := Dispatch(i, None)]), w, ExecWait(i, m.a, m.target))
  }

  predicate Sending(s: Sys, w: Worker, i: IncidentId, m: Message) {
    && w in s.tasks && s.tasks[w] == ExecSend(i, m.a, m.target)
    && m.a !in s.sent && m.a in s.cleared && IsRow(s.db, i, m.a) && !Unstarted(s, ExecuteKey(i, m.a)) && IdsOk(s.db)
  }

  /** The sender holds the one job that may send for its action. */
  lemma OneSender(s: Sys, w: Worker, v: Worker)
    requires Inv(s) && w in s.tasks && s.tasks[w].ExecSend?
    requires v in s.tasks && PreSend(s.tasks[v]) && s.tasks[v].a == s.tasks[w].a
    ensures v == w
  {
    hide Inv;
    TaskFact(s, w);
    TaskFact(s, v);
    Started(s, w);
    Started(s, v);
    IdsFact(s);
    assert Held(s, v) == Held(s, w);
    OneHolder(s, w, v);
  }

  lemma PostedTask(s: Sys, w: Worker, i: IncidentId, m: Message, t: Task)
    requires Sending(s, w, i, m) && TaskOk(s, t)
    requires PreSend(t) ==> t.a != m.a
    ensures TaskOk(Posted(s, w, i, m), t)
  {
  }

  lemma PostedJob(s: Sys, w: Worker, i: IncidentId, m: Message, key: Key)
    requires Sending(s, w, i, m) && key in s.db.queue.jobs && JobOk(s, key)
    ensures JobOk(Posted(s, w, i, m), key)
  {
  }

  lemma PostedRow(s: Sys, w: Worker, i: IncidentId, m: Message, j: IncidentId)
    requires Sending(s, w, i, m) && j in s.db.actions && RowOk(s, j)
    ensures RowOk(Posted(s, w, i, m), j)
  {
  }

  lemma PostedSent(s: Sys, w: Worker, i: IncidentId, m: Message)
    requires Sending(s, w, i, m) && SentOk(s)
    ensures SentOk(Posted(s, w, i, m))
  {
  }

  lemma PostedInv(s: Sys, w: Worker, i: IncidentId, m: Message)
    requires Inv(s) && Sending(s, w, i, m)
    ensures Inv(Posted(s, w, i, m))
  {
    hide TaskOk, RowOk, JobOk, SentOk, Q.Inv, HS.Inv;
    TaskFact(s, w);
    PostedSent(s, w, i, m);
    var s' := Posted(s, w, i, m);
    forall v | v in s'.tasks ensures TaskOk(s', s'.tasks[v]) {
      if v != w {
        if PreSend(s.tasks[v]) && s.tasks[v].a == m.a { OneSender(s, w, v); }
        PostedTask(s, w, i, m, s.tasks[v]);
      } else {
        WaitOk(s, w, i, m);
      }
    }
    forall key | key in s'.db.queue.jobs ensures JobOk(s', key) {
      PostedJob(s, w, i, m, key);
    }
    forall j | j in s'.db.actions ensures RowOk(s', j) {
      PostedRow(s, w, i, m, j);
    }
  }

  lemma WaitOk(s: Sys, w: Worker, i: IncidentId, m: Message)
    requires Sending(s, w, i, m) && TaskOk(s, s.tasks[w])
    ensures TaskOk(Posted(s, w, i, m), ExecWait(i, m.a, m.target))
  {
  }

  // Before anything was sent, the client can only fail without a restart.
  lemma NotSentInv(s: Sys, w: Worker, i: IncidentId, a: Id, target: string, r: Result<Restart, HelperError>)
    requires Inv(s) && w in s.tasks && s.tasks[w] == ExecSend(i, a, target)
    requires r.Err? && MutationDisposition(r.error).NotStarted?
    ensures Inv(Next(s, w, ExecReport(i, a, r)))
  {
    TaskFact(s, w);
    Started(s, w);
    OnlySender(s, w);
    NotSentQuiet(s, w, i, a, target, r);
  }

  lemma OnlySender(s: Sys, w: Worker)
    requires Inv(s) && w in s.tasks && s.tasks[w].ExecSend?
    ensures forall v | v in s.tasks && PreSend(s.tasks[v]) && s.tasks[v].a == s.tasks[w].a :: v == w
  {
    hide Inv;
    forall v | v in s.tasks && PreSend(s.tasks[v]) && s.tasks[v].a == s.tasks[w].a ensures v == w {
      OneSender(s, w, v);
    }
  }

  lemma NotSentQuiet(s: Sys, w: Worker, i: IncidentId, a: Id, target: string, r: Result<Restart, HelperError>)
    requires Inv(s) && w in s.tasks && s.tasks[w] == ExecSend(i, a, target)
    requires r.Err? && MutationDisposition(r.error).NotStarted?
    requires Fits(s.tasks[w], Held(s, w)) && TaskOk(s, s.tasks[w]) && !Unstarted(s, ExecuteKey(i, a))
    requires forall v | v in s.tasks && PreSend(s.tasks[v]) && s.tasks[v].a == a :: v == w
    ensures Inv(Next(s, w, ExecReport(i, a, r)))
  {
    hide Inv;
    var s' := Next(s, w, ExecReport(i, a, r));
    assert ShutOut(s', i, a);
    QuietInv(s, s', w);
  }

  lemma SendInv(s: Sys, w: Worker, client: Option<HelperError>, size: nat, t: Traffic, credential: string)
    requires Inv(s) && w in s.tasks && s.tasks[w].ExecSend?
    ensures Inv(SendStep(s, w, client, size, t, credential))
  {
    hide Inv;
    var ExecSend(i, a, target) := s.tasks[w];
    if client.Some? {
      if client.value in {InvalidSocketPath, CredentialMissing, InvalidTimeout} {
        NotSentInv(s, w, i, a, target, Err(client.value));
      }
    } else if !ValidTargetId(target) || !Sent(size, t) {
      ClientIsSound(a, target, size, t);
      NotSentInv(s, w, i, a, target, RequestRestart(a, target, size, t));
    } else {
      TaskFact(s, w);
      Started(s, w);
      IdsFact(s);
      PostedInv(s, w, i, Message(a, target, credential));
    }
  }

  // Messages and the helper: replies once given stay as they are.

  predicate Heard(s: Sys, s': Sys) {
    && s' == s.(wire := s'.wire, sent := s'.sent, helper := s'.helper)
    && s'.sent.Keys == s.sent.Keys
    && (forall a | a in s.sent :: s'.sent[a].i == s.sent[a].i)
    && (forall a | a in s.sent && Answer(s, a) :: Answer(s', a) && GivenReply(s', a) == GivenReply(s, a))
  }

  lemma HeardTask(s: Sys, s': Sys, t: Task)
    requires Heard(s, s') && TaskOk(s, t)
    ensures TaskOk(s', t)
  {
  }

  lemma HeardJob(s: Sys, s': Sys, key: Key)
    requires Heard(s, s') && key in s.db.queue.jobs && JobOk(s, key)
    ensures JobOk(s', key)
  {
  }

  lemma HeardRow(s: Sys, s': Sys, i: IncidentId)
    requires Heard(s, s') && i in s.db.actions && RowOk(s, i)
    ensures RowOk(s', i)
  {
  }

  lemma HeardInv(s: Sys, s': Sys)
    requires Inv(s) && Heard(s, s') && HelperOk(s'.helper, s'.sent) && SentOk(s')
    ensures Inv(s')
  {
    hide TaskOk, RowOk, JobOk, SentOk, HelperOk, Q.Inv;
    forall w | w in s'.tasks ensures TaskOk(s', s'.tasks[w]) {
      HeardTask(s, s', s.tasks[w]);
    }
    forall key | key in s'.db.queue.jobs ensures JobOk(s', key) {
      HeardJob(s, s', key);
    }
    forall i | i in s'.db.actions ensures RowOk(s', i) {
      HeardRow(s, s', i);
    }
  }

  lemma LoseInv(s: Sys, m: Message)
    requires Inv(s)
    ensures Inv(s.(wire := s.wire - {m}))
  {
    hide TaskOk, RowOk, JobOk, HelperOk, Q.Inv;
    HeardInv(s, s.(wire := s.wire - {m}));
  }

  lemma SentFact(s: Sys)
    requires Inv(s)
    ensures SentOk(s) && HelperOk(s.helper, s.sent)
  {
  }

  lemma DeliverInv(s: Sys, m: Message, c: H.CallId, peer: nat)
    requires Inv(s)
    ensures Inv(DeliverStep(s, m, c, peer))
  {
    hide Inv, TaskOk, RowOk, JobOk;
    SentFact(s);
    var s' := DeliverStep(s, m, c, peer);
    if m in s.wire && m.a in s.sent && c !in s.helper.calls {
      var request := Request(PROTOCOL_VERSION, m.a, m.credential, RestartContainer(m.target));
      HS.StepInv(s.helper, H.Arrive(c, peer, request));
      Delivered(s, m, c, peer);
      HeardInv(s, s');
    }
  }

  lemma Delivered(s: Sys, m: Message, c: H.CallId, peer: nat)
    requires SentOk(s) && HelperOk(s.helper, s.sent) && m in s.wire && c !in s.helper.calls
    requires HS.Inv(DeliverStep(s, m, c, peer).helper)
    ensures var s' := DeliverStep(s, m, c, peer); SentOk(s') && HelperOk(s'.helper, s'.sent) && Heard(s, s')
  {
    hide HS.Inv, DeliverStep;
    Arrived(s, m, c, peer);
    assert forall a | a in s.sent && Answer(s, a) :: a != m.a;
  }

  /** The message becomes the one call of its action. */
  lemma Arrived(s: Sys, m: Message, c: H.CallId, peer: nat)
    requires m in s.wire && m.a in s.sent && c !in s.helper.calls
    ensures var s' := DeliverStep(s, m, c, peer);
      && c in s'.helper.calls && s'.helper.calls[c].id == m.a
      && s'.helper.calls == s.helper.calls[c := s'.helper.calls[c]] && s'.helper.issued == s.helper.issued
      && s' == s.(wire := s.wire - {m}, sent := s.sent[m.a := s.sent[m.a].(call := Some(c))], helper := s'.helper)
  {
  }

  /** Calls keep their identity and answers, and only a call at work may start or issue anything. */
  predicate Framed(h: H.Helper, h': H.Helper) {
    && (forall c | c in h.calls :: c in h'.calls && h'.calls[c].id == h.calls[c].id
          && (h.calls[c].pc.Answered? ==> h'.calls[c].pc == h.calls[c].pc))
    && (forall c | c in h'.calls && AtWork(h'.calls[c].pc) :: c in h.calls && AtWork(h.calls[c].pc))
    && |h.issued| <= |h'.issued| && h'.issued[..|h.issued|] == h.issued
    && (forall k | |h.issued| <= k < |h'.issued| ::
          var issue := h'.issued[k];
          issue.call in h.calls && h.calls[issue.call].id == issue.id && AtWork(h.calls[issue.call].pc))
  }

  lemma MoveFramed(h: H.Helper, c: H.CallId, d: SD.Disk, pc: H.Pc)
    requires c in h.calls
    requires h.calls[c].pc.Answered? ==> pc == h.calls[c].pc
    requires AtWork(pc) ==> AtWork(h.calls[c].pc)
    ensures Framed(h, H.Goto(h.(disk := d), c, pc))
  {
  }

  lemma IoFramed(h: H.Helper, c: H.CallId, ok: bool, landed: bool, inode: SD.Inode)
    requires c in h.calls
    ensures Framed(h, H.Step(h, H.Io(c, ok, landed, inode)))
  {
    hide Framed;
    var (d, pc) := if H.Completing(h.calls[c].pc) then H.CompleteIo(h.calls[c], h.disk, ok, landed, inode)
                   else H.ClaimIo(h.calls[c], h.disk, ok, landed, inode);
    assert H.Step(h, H.Io(c, ok, landed, inode)) == H.Goto(h.(disk := d), c, pc);
    MoveFramed(h, c, d, pc);
  }

  lemma WorkFramed(h: H.Helper, e: H.Event, c: H.CallId)
    requires (e.Probed? || e.Returned? || e.Abort?) && e.call == c && c in h.calls
    ensures Framed(h, H.Step(h, e))
  {
    hide Framed;
    var h' := H.Step(h, e);
    assert h == h.(disk := h.disk);
    assert h' == H.Goto(h.(disk := h.disk), c, h'.calls[c].pc);
    MoveFramed(h, c, h.disk, h'.calls[c].pc);
  }

  /** Only the call that asked for a restart can work on one. */
  lemma HelperFrame(h: H.Helper, e: H.Event)
    requires !e.Arrive? || e.request.action.Inspect?
    ensures Framed(h, H.Step(h, e))
  {
    match e
    case Arrive(c, peer, request) =>
    case CrashAndRestart(names, files, config) =>
    case Launch(c) =>
    case Io(c, ok, landed, inode) => if c in h.calls { IoFramed(h, c, ok, landed, inode); }
    case Probed(c, _) => if c in h.calls { WorkFramed(h, e, c); }
    case Returned(c, _) => if c in h.calls { WorkFramed(h, e, c); }
    case Abort(c) => if c in h.calls { WorkFramed(h, e, c); }
  }

  lemma HelperStepInv(s: Sys, e: H.Event)
    requires Inv(s) && (!e.Arrive? || e.request.action.Inspect?)
    ensures Inv(s.(helper := H.Step(s.helper, e)))
  {
    hide Inv, TaskOk, RowOk, JobOk;
    SentFact(s);
    HS.StepInv(s.helper, e);
    HelperFrame(s.helper, e);
    Helped(s, H.Step(s.helper, e));
    HeardInv(s, s.(helper := H.Step(s.helper, e)));
  }

  lemma Helped(s: Sys, h': H.Helper)
    requires SentOk(s) && HelperOk(s.helper, s.sent) && HS.Inv(h')
    requires Framed(s.helper, h')
    ensures var s' := s.(helper := h'); SentOk(s') && HelperOk(h', s.sent) && Heard(s, s')
  {
    hide HS.Inv;
    forall k | 0 <= k < |h'.issued| ensures h'.issued[k].id in s.sent
      && s.sent[h'.issued[k].id].call == Some(h'.issued[k].call) {
      if k < |s.helper.issued| {
        assert h'.issued[k] == h'.issued[..|s.helper.issued|][k];
      }
    }
  }

  lemma ReceivedOk(s: Sys, i: IncidentId, a: Id, target: string, size: nat, t: Traffic)
    requires ValidTargetId(target) && Sent(size, t) && Genuine(s, a, t)
    requires TaskOk(s, ExecWait(i, a, target)) && !Unstarted(s, ExecuteKey(i, a))
    ensures TaskOk(s, ExecReport(i, a, RequestRestart(a, target, size, t)))
  {
    ClientIsSound(a, target, size, t);
  }

  lemma ReceiveInv(s: Sys, w: Worker, size: nat, t: Traffic)
    requires Inv(s) && w in s.tasks && s.tasks[w].ExecWait?
    ensures Inv(ReceiveStep(s, w, size, t))
  {
    hide Inv;
    TaskFact(s, w);
    Started(s, w);
    var ExecWait(i, a, target) := s.tasks[w];
    if ValidTargetId(target) && Sent(size, t) && Genuine(s, a, t) {
      ReceivedOk(s, i, a, target, size, t);
      StayInv(s, w, ExecReport(i, a, RequestRestart(a, target, size, t)));
    }
  }

  // A check: only its own handler looks at the log it extends.

  predicate Checking(s: Sys, i: IncidentId, a: Id, n: nat) {
    LogAt(s, i, a, n) && !Unstarted(s, VerifyKey(i, a, n)) && IdsOk(s.db) && Confirmed(s, a)
  }

  predicate Watches(t: Task) { t.VerifyStart? || t.VerifyLoad? || t.VerifyProbe? }

  lemma CheckingFact(s: Sys, w: Worker)
    requires Inv(s) && w in s.tasks && s.tasks[w].VerifyProbe?
    ensures Checking(s, s.tasks[w].i, s.tasks[w].a, s.tasks[w].check)
    ensures s.tasks[w].required == Clamp(s.db.actions[s.tasks[w].i].required)
    ensures VerifyKey(s.tasks[w].i, s.tasks[w].a, s.tasks[w].check + 1) !in s.db.queue.jobs
  {
    hide Inv, Confirmed;
    TaskFact(s, w);
    Started(s, w);
    IdsFact(s);
    NextUnqueued(s, s.tasks[w].i, s.tasks[w].a, s.tasks[w].check);
  }

  lemma NextUnqueued(s: Sys, i: IncidentId, a: Id, n: nat)
    requires Inv(s) && |Log(s, a)| == n
    ensures VerifyKey(i, a, n + 1) !in s.db.queue.jobs
  {
    var next := VerifyKey(i, a, n + 1);
    assert next in s.db.queue.jobs ==> JobOk(s, next);
  }

  lemma OneChecker(s: Sys, w: Worker, v: Worker)
    requires Inv(s) && w in s.tasks && v in s.tasks && s.tasks[w].VerifyProbe? && Watches(s.tasks[v])
    requires s.tasks[v].a == s.tasks[w].a
    ensures v == w
  {
    hide Inv;
    TaskFact(s, w);
    TaskFact(s, v);
    IdsFact(s);
    assert Held(s, v) == Held(s, w);
    OneHolder(s, w, v);
  }

  function Logged(s: Sys, a: Id, passed: bool): Sys {
    s.(checks := s.checks[a := Log(s, a) + [passed]])
  }

  lemma LoggedTask(s: Sys, i: IncidentId, a: Id, n: nat, passed: bool, t: Task)
    requires Checking(s, i, a, n) && TaskOk(s, t) && (Watches(t) ==> t.a != a)
    ensures TaskOk(Logged(s, a, passed), t)
  {
  }

  lemma LoggedJob(s: Sys, i: IncidentId, a: Id, n: nat, passed: bool, key: Key)
    requires Checking(s, i, a, n) && key in s.db.queue.jobs && JobOk(s, key)
    ensures JobOk(Logged(s, a, passed), key)
  {
  }

  lemma LoggedRow(s: Sys, i: IncidentId, a: Id, n: nat, passed: bool, j: IncidentId)
    requires Checking(s, i, a, n) && j in s.db.actions && RowOk(s, j)
    ensures RowOk(Logged(s, a, passed), j)
  {
  }

  lemma LoggedSent(s: Sys, i: IncidentId, a: Id, n: nat, passed: bool)
    requires Checking(s, i, a, n) && SentOk(s)
    ensures SentOk(Logged(s, a, passed))
  {
  }

  lemma LoggedInv(s: Sys, i: IncidentId, a: Id, n: nat, passed: bool)
    requires Inv(s) && Checking(s, i, a, n) && forall w | w in s.tasks && Watches(s.tasks[w]) :: s.tasks[w].a != a
    ensures Inv(Logged(s, a, passed))
  {
    hide TaskOk, RowOk, JobOk, SentOk, HelperOk, Q.Inv, Checking;
    var s' := Logged(s, a, passed);
    LoggedSent(s, i, a, n, passed);
    forall w | w in s'.tasks ensures TaskOk(s', s'.tasks[w]) {
      LoggedTask(s, i, a, n, passed, s.tasks[w]);
    }
    forall key | key in s'.db.queue.jobs ensures JobOk(s', key) {
      LoggedJob(s, i, a, n, passed, key);
    }
    forall j | j in s'.db.actions ensures RowOk(s', j) {
      LoggedRow(s, i, a, n, passed, j);
    }
  }

  lemma CheckInv(s: Sys, w: Worker, http: bool, container: bool)
    requires Inv(s) && w in s.tasks && s.tasks[w].VerifyProbe?
    ensures Inv(CheckStep(s, w, http, container))
  {
    hide Inv, TaskOk, Checking, Logged;
    TaskFact(s, w);
    CheckingFact(s, w);
    var VerifyProbe(i, a, n, required) := s.tasks[w];
    var s' := CheckStep(s, w, http, container);
    var s0 := Next(s, w, Done(true));
    EndOk(s, Done(true), Held(s, w));
    StayInv(s, w, Done(true));
    forall v | v in s0.tasks && Watches(s0.tasks[v]) ensures s0.tasks[v].a != a {
      if s.tasks[v].a == a { OneChecker(s, w, v); }
    }
    CheckingStays(s, w, i, a, n);
    LoggedInv(s0, i, a, n, http && container);
    var s1 := Logged(s0, a, http && container);
    CheckedOk(s0, i, a, n, required, http, container, Held(s, w));
    assert s'.tasks[w] == AfterCheck(i, a, n, required, http, container);
    LoggedSame(s, w, a, http, container);
    StayInv(s1, w, s'.tasks[w]);
  }

  lemma CheckingStays(s: Sys, w: Worker, i: IncidentId, a: Id, n: nat)
    requires Checking(s, i, a, n)
    ensures Checking(Next(s, w, Done(true)), i, a, n)
  {
  }

  lemma LoggedSame(s: Sys, w: Worker, a: Id, http: bool, container: bool)
    requires w in s.tasks && s.tasks[w].VerifyProbe? && s.tasks[w].a == a
    ensures var s0, s' := Next(s, w, Done(true)), CheckStep(s, w, http, container);
      var s1 := Logged(s0, a, http && container);
      s' == Next(s1, w, s'.tasks[w]) && s1.tasks == s0.tasks && s1.db == s.db
  {
  }

  function AfterCheck(i: IncidentId, a: Id, n: nat, required: nat, http: bool, container: bool): Task {
    if !http || !container then VerifyFailed(i, a)
    else if n + 1 < required then EnqueueVerify(i, a, n + 1)
    else VerifyPassed(i, a)
  }

  lemma CheckedOk(s: Sys, i: IncidentId, a: Id, n: nat, required: nat, http: bool, container: bool, key: Key)
    requires Checking(s, i, a, n) && required == Clamp(s.db.actions[i].required)
      && VerifyKey(i, a, n + 1) !in s.db.queue.jobs
    requires key == VerifyKey(i, a, n)
    ensures var t := AfterCheck(i, a, n, required, http, container);
      TaskOk(Logged(s, a, http && container), t) && Fits(t, key) && !PreSend(t)
  {
  }

  // Administrators.

  lemma DecidedRow(s: Sys, i: IncidentId, db: Db)
    requires i in s.db.actions && RowOk(s, i) && s.db.actions[i].status.ApprovalRequired?
    requires SameRows(s.db, db) && db.queue == s.db.queue
      && (db.actions[i].status.Planned? || db.actions[i].status.Refused?)
    ensures RowOk(s.(db := db), i)
  {
  }

  lemma ApproveInv(s: Sys, i: IncidentId, seen: Seen, at: int)
    requires Inv(s)
    ensures Inv(AdminSys(s, DoApprove(i, seen, at)))
  {
    hide Inv, RowOk;
    var s' := AdminSys(s, DoApprove(i, seen, at));
    if i !in s.db.actions || ApproveTx(s.db, i, seen, at).0 == s.db {
      assert s' == s;
      return;
    }
    var a := s.db.actions[i].id;
    var db := s.db.(actions := s.db.actions[i := s.db.actions[i].(status := Planned, policy := ByApproval)],
                    incidents := s.db.incidents[i := Repairing]);
    RowFact(s, i);
    DecidedRow(s, i, db);
    RelabelInv(s, db);
    var s1 := s.(db := db);
    GrantInv(s1, a, GrantedByAdmin);
    var s2 := s1.(grants := s1.grants[a := GrantedByAdmin]);
    AddInv(s2, ExecuteKey(i, a), 1, at);
    assert s' == s2.(db := Enqueue(s2.db, ExecuteKey(i, a), 1, at));
  }

  lemma RejectInv(s: Sys, i: IncidentId, seen: Seen)
    requires Inv(s)
    ensures Inv(AdminSys(s, DoReject(i, seen)))
  {
    hide Inv, RowOk;
    var db := RejectTx(s.db, i, seen).0;
    if db == s.db {
      assert AdminSys(s, DoReject(i, seen)) == s;
      return;
    }
    RowFact(s, i);
    DecidedRow(s, i, db);
    RelabelInv(s, db);
  }

  lemma AdminInv(s: Sys, e: AdminEvent)
    requires Inv(s)
    ensures Inv(AdminSys(s, e))
  {
    hide Inv;
    match e
    case DoApprove(i, seen, at) => ApproveInv(s, i, seen, at);
    case DoReject(i, seen) => RejectInv(s, i, seen);
    case DoPause(paused) => RelabelInv(s, AdminStep(s.db, e));
    case DoMode(mode) => RelabelInv(s, AdminStep(s.db, e));
  }

  lemma StatementInv(s: Sys, w: Worker, write: Write, at: int)
    requires Inv(s) && w in s.tasks
    ensures Inv(StatementStep(s, w, write, at))
  {
    hide Inv;
    var t := s.tasks[w];
    if t.PlanEnqueue? {
      PlanEnqueueInv(s, w, write, at, t.i, t.a, t.context);
    } else if Planner(t) {
      PlanInv(s, w, write, at);
    } else if Executor(t) {
      ExecInv(s, w, write);
    } else if t.EnqueueVerify? {
      EnqueueVerifyInv(s, w, write, at, t.i, t.a, t.check);
    } else {
      VerifyInv(s, w, write, at);
    }
  }

  lemma StepInv(s: Sys, e: Event)
    requires Inv(s)
    ensures Inv(Step(s, e))
  {
    hide Inv;
    match e
    case OpenIncident(i) => RelabelInv(s, Step(s, e).db);
    case Administer(change) => AdminInv(s, change);
    case OtherPipeline(i, next) => RelabelInv(s, Step(s, e).db);
    case EnqueuePlan(i, at) => AddInv(s, PlanKey(i), 3, at);
    case ClaimJob(w, key, now) => ClaimInv(s, w, key, now);
    case Report(w, now) => if w in s.tasks && s.tasks[w].Done? { ReportedInv(s, w, now); }
    case WorkerStops(w) => StopInv(s, w);
    case Statement(w, write, at) => if w in s.tasks { StatementInv(s, w, write, at); }
    case Decide(w, d, write) => if w in s.tasks && s.tasks[w].PlanDecide? { DecideInv(s, w, d, write); }
    case PersistAction(w, id, enabled, clear, write) =>
      if w in s.tasks && s.tasks[w].PlanPersist? { PersistInv(s, w, id, enabled, clear, write); }
    case Send(w, client, size, t, credential) =>
      if w in s.tasks && s.tasks[w].ExecSend? { SendInv(s, w, client, size, t, credential); }
    case Deliver(m, c, peer) => DeliverInv(s, m, c, peer);
    case LoseMessage(m) => LoseInv(s, m);
    case Receive(w, size, t) => if w in s.tasks && s.tasks[w].ExecWait? { ReceiveInv(s, w, size, t); }
    case Check(w, http, container) => if w in s.tasks && s.tasks[w].VerifyProbe? { CheckInv(s, w, http, container); }
    case HelperStep(he) => if !he.Arrive? || he.request.action.Inspect? { HelperStepInv(s, he); }
  }

  lemma {:induction false} RunInv(s: Sys, es: seq<Event>)
    requires Inv(s)
    ensures Inv(Run(s, es))
    decreases |es|
  {
    if es != [] {
      StepInv(s, es[0]);
      RunInv(Step(s, es[0]), es[1..]);
    }
  }
}
