/** What planning, the administrator and the client decide, by their inputs alone. */
module OperationsLaws {
  import opened Wrappers
  import opened Policy
  import opened RuntimeProtocol
  import opened RuntimeClient
  import opened OperationsDb
  import opened Operations
  import H = HelperMachine
  import Q = JobQueue

  /** Nothing stands against an operation but the mode and the risk. */
  predicate Clear(c: OperationsContext) {
    !c.killSwitch && c.targetConfigured && c.actionEnabled && c.verificationConfigured && c.cooldownClear
  }

  /** What the policy decides: reading is always allowed; a change needs every precondition and at most medium
      risk; then Autopilot allows low risk, and everything else needs approval. */
  lemma PolicyExactly(risk: Risk, mutating: bool, c: OperationsContext)
    ensures var d := DecideOperations(risk, mutating, c); var open := Clear(c) && risk in {Low, Medium};
      && (d == Allow <==> !mutating || (open && c.mode == AutopilotExperimental && risk == Low))
      && (d == RequireApproval <==> mutating && open && (c.mode == Safe || risk == Medium))
      && (d == Block <==> mutating && !open)
  {
  }

  /** What planning stores: the incident's action under a fresh id with the name of that verdict, unless there is
      one with the same target. */
  lemma PlanIsStored(s: Sys, w: Worker, id: Id, enabled: bool, clear: bool)
    requires w in s.tasks && s.tasks[w].PlanPersist? && FreshId(s, id)
    ensures var t := s.tasks[w]; var s' := Step(s, PersistAction(w, id, enabled, clear, Acked));
      var c := OperationsContext(t.mode, t.paused, true, enabled, true, clear);
      var open := !t.paused && enabled && clear;
      && w in s'.tasks && s'.db.incidents == s.db.incidents
      && (t.i !in s.db.actions ==>
            && s'.db.actions == s.db.actions[t.i := Action(id, t.target, t.required,
                 if !open then Blocking else if t.mode == Safe then ApprovalNeeded else Allowed, Planned)]
            && s'.tasks[w] == PlanApply(t.i, id, c))
      && (t.i in s.db.actions && s.db.actions[t.i].target == t.target ==>
            s'.db.actions == s.db.actions && s'.tasks[w] == PlanApply(t.i, s.db.actions[t.i].id, c))
      && (t.i in s.db.actions && s.db.actions[t.i].target != t.target ==>
            s'.db.actions == s.db.actions && s'.tasks[w] == Done(false))
  {
    hide FreshId;
    assert Step(s, PersistAction(w, id, enabled, clear, Acked)) == PersistStep(s, w, id, enabled, clear, Acked);
  }

  /** What planning does with the verdict: run the action, ask for approval, hold it while protection is paused,
      or hold it and escalate. */
  lemma PlanIsApplied(s: Sys, w: Worker, at: int, i: IncidentId, a: Id, c: OperationsContext)
    requires w in s.tasks && s.tasks[w] == PlanApply(i, a, c) && IsRow(s.db, i, a)
    requires i in s.db.incidents && s.db.incidents[i].Planning?
    ensures var s' := Step(s, Statement(w, Acked, at)); var row := s.db.actions[i];
      && w in s'.tasks
      && (Clear(c) && c.mode == AutopilotExperimental ==>
            && s'.db == s.db.(incidents := s.db.incidents[i := Repairing]) && s'.tasks[w] == PlanEnqueue(i, a, c))
      && (Clear(c) && c.mode == Safe ==>
            && s'.db == s.db.(actions := s.db.actions[i := row.(status := ApprovalRequired)])
            && s'.tasks[w] == MoveIncident(i, Planning, WaitingApproval))
      && (!Clear(c) ==>
            && s'.db == s.db.(actions := s.db.actions[i := row.(status := OnHold)])
            && s'.tasks[w] == if c.killSwitch then MoveIncident(i, Planning, Paused) else EscalateNow(i))
  {
  }

  // The administrator.

  /** An approval is accepted without effect if the row had been read as approved; otherwise it takes effect
      exactly on a waiting operation while protection is on. */
  lemma ApprovalExactly(db: Db, i: IncidentId, seen: Seen, at: int)
    requires i in db.actions && i in db.incidents
    ensures var (db', error) := ApproveTx(db, i, seen, at); var row := db.actions[i];
      var already := seen.policy == ByApproval && (seen.status == Planned || seen.status == Running
                                                   || seen.status == Executed || seen.status == Verified);
      var waits := row.status == ApprovalRequired && db.incidents[i] == WaitingApproval;
      && (error == None <==> already || (!db.paused && waits))
      && (error != None ==> error == Some(if db.paused then ProtectionPaused else NotAwaitingApproval))
      && (already || db.paused || !waits ==> db' == db)
      && (!already && !db.paused && waits ==>
            && db'.actions == db.actions[i := row.(status := Planned, policy := ByApproval)]
            && db'.incidents == db.incidents[i := Repairing] && db'.paused == db.paused && db'.mode == db.mode
            && ExecuteKey(i, row.id) in db'.queue.jobs
            && (ExecuteKey(i, row.id) !in db.queue.jobs ==>
                  db'.queue.jobs == db.queue.jobs[ExecuteKey(i, row.id) :=
                    Q.Job(ExecuteKey(i, row.id), Q.Pending, 0, 1, at, None)])
            && (ExecuteKey(i, row.id) in db.queue.jobs ==> db'.queue == db.queue))
  {
  }

  lemma RejectionExactly(db: Db, i: IncidentId, seen: Seen)
    requires i in db.actions && i in db.incidents
    ensures var (db', error) := RejectTx(db, i, seen); var row := db.actions[i];
      var already := seen.policy == ByRejection && seen.status == Refused;
      var waits := row.status == ApprovalRequired && db.incidents[i] == WaitingApproval;
      && error == (if already || waits then None else Some(NotAwaitingApproval))
      && db' == if already || !waits then db
                else db.(actions := db.actions[i := row.(status := Refused, policy := ByRejection)],
                         incidents := db.incidents[i := Cancelled])
  {
  }

  // What execution records.

  predicate HexDigit(c: char) { '0' <= c <= '9' || 'a' <= c <= 'f' || 'A' <= c <= 'F' }

  /** The helper's answer to this very request in this version of the protocol. */
  predicate Answers(t: Traffic, id: Id) {
    t.Read? && t.received.Parsed? && t.received.resp.version == 1 && t.received.resp.requestId == id
  }

  /** What is recorded of one exchange: EXECUTED exactly on the helper's report of a restart, FAILED_CLOSED exactly
      when no byte was sent or the helper said that nothing was started, and AMBIGUOUS otherwise. */
  lemma VerdictExactly(id: Id, target: string, size: nat, t: Traffic)
    ensures var verdict := Verdict(RequestRestart(id, target, size, t));
      var sent := |target| == 64 && (forall k | 0 <= k < |target| :: HexDigit(target[k])) && size <= 16383
                  && t != EncodingFailed && t != NoConnection;
      && (verdict == Executed <==>
            sent && Answers(t, id) && t.received.resp.outcome.Succeeded? && t.received.resp.outcome.success.Restarted?)
      && (verdict == FailedClosed <==>
            || !sent
            || (Answers(t, id) && t.received.resp.outcome.Rejected? && t.received.resp.outcome.mutation == NotStarted))
      && verdict in {Executed, FailedClosed, Unclear}
  {
    if forall k | 0 <= k < |target| :: HexDigit(target[k]) {
      assert forall c | c in target :: HexDigit(c);
    } else {
      assert exists c :: c in target && !HexDigit(c);
    }
  }

  /** A client that could not even be set up has started nothing. */
  lemma UnsetIsFailedClosed(e: HelperError)
    requires e in {InvalidTarget, InvalidSocketPath, CredentialMissing, InvalidTimeout, HelperUnavailable, RequestTooLarge,
                   UnsupportedPlatform}
    ensures Verdict(Err(e)) == FailedClosed
  {
  }

  /** A failed exchange is harmless exactly if it was no mutation, or nothing of it can have been sent. */
  lemma ExchangeExactly(id: Id, size: nat, mutating: bool, t: Traffic)
    ensures var r := Exchange(id, size, mutating, t); var sent := size <= 16383 && t != EncodingFailed && t != NoConnection;
      && (r.Ok? <==> sent && Answers(t, id))
      && (r.Ok? ==> r.value == t.received.resp)
      && (r.Err? ==> MutationDisposition(r.error) == if mutating && sent then Ambiguous else NotStarted)
  {
  }

  /** The helper moves on its own, except that restarts reach it only as delivered requests. */
  lemma HelperMovesExactly(s: Sys, e: H.Event)
    ensures Step(s, HelperStep(e)) ==
      if e.Arrive? && e.request.action.RestartContainer? then s else s.(helper := H.Step(s.helper, e))
  {
    hide H.Step;
  }
}
