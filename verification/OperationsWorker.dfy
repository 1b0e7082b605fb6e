/**
  The job handlers of the operations worker as the sequential code they are. Undisturbed by other steps
  and by connection failures, each has the effect of its steps in the composed system; what other steps in
  between can do is the subject of the system's own theorems.
*/
module OperationsWorker {
  import opened Wrappers
  import opened Policy
  import opened RuntimeProtocol
  import opened RuntimeClient
  import opened OperationsDb
  import opened Operations

  /** The next statement of worker `w`'s handler; nothing once it is done or waits for something else. */
  function Go(s: Sys, w: Worker, at: int): Sys {
    Step(s, Statement(w, Acked, at))
  }

  lemma DoneStays(s: Sys, w: Worker, at: int)
    requires w in s.tasks && (s.tasks[w].Done? || s.tasks[w].ExecSend? || s.tasks[w].ExecWait?
      || s.tasks[w].VerifyProbe?)
    ensures Go(s, w, at) == s
  {
  }

  /** Worker `w` of system `s` is at `t`, and `s` has this database. */
  predicate Stands(s: Sys, w: Worker, t: Task, db: Db) {
    w in s.tasks && s.tasks[w] == t && s.db == db
  }

  lemma BeginSteps(s: Sys, w: Worker, i: IncidentId, a: Id, at: int)
    requires w in s.tasks && s.tasks[w] == BeginVerify(i, a)
    ensures match Transition(s.db, i, Repairing, VerifyingProduction)
            case Ok(db) => Stands(Go(Go(s, w, at), w, at), w, Done(true), Enqueue(db, VerifyKey(i, a, 0), 1, at))
            case Err(_) => Stands(Go(Go(s, w, at), w, at), w, Done(false), s.db)
  {
    hide Go, Transition, Enqueue;
    BeginMoves(s, w, i, a, at);
    var s1 := Go(s, w, at);
    if s1.tasks[w].Done? {
      DoneStays(s1, w, at);
    } else {
      NextCheckSteps(s1, w, i, a, 0, at);
    }
  }

  lemma BeginMoves(s: Sys, w: Worker, i: IncidentId, a: Id, at: int)
    requires w in s.tasks && s.tasks[w] == BeginVerify(i, a)
    ensures match Transition(s.db, i, Repairing, VerifyingProduction)
            case Ok(db) => Stands(Go(s, w, at), w, EnqueueVerify(i, a, 0), db)
            case Err(_) => Stands(Go(s, w, at), w, Done(false), s.db)
  {
    hide Transition;
  }

  lemma EscalateSteps(s: Sys, w: Worker, i: IncidentId, at: int)
    requires w in s.tasks && s.tasks[w] == EscalateNow(i)
    ensures match Escalate(s.db, i)
            case Ok(db) => Stands(Go(s, w, at), w, Done(true), db)
            case Err(_) => Stands(Go(s, w, at), w, Done(false), s.db)
  {
    hide Escalate;
  }

  lemma ReportSteps(s: Sys, w: Worker, i: IncidentId, a: Id, r: Result<Restart, HelperError>, at: int)
    requires w in s.tasks && s.tasks[w] == ExecReport(i, a, r)
    ensures Stands(Go(s, w, at), w, if r.Ok? then BeginVerify(i, a) else EscalateNow(i), Mark(s.db, i, a, Verdict(r)))
  {
    hide Mark, Verdict;
  }

  // What happens between sending the request and having its reply, apart from this handler.
  predicate HelperOnly(mid: seq<Event>) {
    forall k | 0 <= k < |mid| :: mid[k].Deliver? || mid[k].HelperStep?
  }

  lemma {:induction false} MidKeeps(s: Sys, mid: seq<Event>)
    requires HelperOnly(mid)
    ensures Run(s, mid).db == s.db && Run(s, mid).tasks == s.tasks
    decreases |mid|
  {
    if mid != [] {
      assert Step(s, mid[0]).db == s.db && Step(s, mid[0]).tasks == s.tasks;
      MidKeeps(Step(s, mid[0]), mid[1..]);
    }
  }

  /** One exchange with the helper as the handler sees it: what the client reports, and all that went over
      the wire or happened at the helper meanwhile. */
  datatype Contact = Contact(client: Option<HelperError>, size: nat, t: Traffic, credential: string, mid: seq<Event>)

  function Exchanged(s: Sys, w: Worker, c: Contact): Sys {
    Step(Run(Step(s, Send(w, c.client, c.size, c.t, c.credential)), c.mid), Receive(w, c.size, c.t))
  }

  /** The exchange is one the system allows: the client fails only as it can before sending, and a reply
      with the right id is the helper's own. */
  predicate Possible(s: Sys, w: Worker, c: Contact) {
    && HelperOnly(c.mid)
    && (c.client.Some? ==> c.client.value in {InvalidSocketPath, CredentialMissing, InvalidTimeout})
    && var s' := Run(Step(s, Send(w, c.client, c.size, c.t, c.credential)), c.mid);
       w in s'.tasks && s'.tasks[w].ExecWait? ==> Genuine(s', s'.tasks[w].a, c.t)
  }

  function Returned(a: Id, target: string, c: Contact): Result<Restart, HelperError> {
    if c.client.Some? then Err(c.client.value) else RequestRestart(a, target, c.size, c.t)
  }

  lemma ExchangeSteps(s: Sys, w: Worker, i: IncidentId, a: Id, target: string, c: Contact)
    requires w in s.tasks && s.tasks[w] == ExecSend(i, a, target) && Possible(s, w, c)
    ensures Stands(Exchanged(s, w, c), w, ExecReport(i, a, Returned(a, target, c)), s.db)
  {
    hide RequestRestart, Genuine, ValidTargetId, Sent, Run;
    MidKeeps(Step(s, Send(w, c.client, c.size, c.t, c.credential)), c.mid);
  }

  lemma NoExchange(s: Sys, w: Worker, c: Contact)
    requires w in s.tasks && !s.tasks[w].ExecSend? && !s.tasks[w].ExecWait? && HelperOnly(c.mid)
    ensures Stands(Exchanged(s, w, c), w, s.tasks[w], s.db)
  {
    hide RequestRestart, Genuine, ValidTargetId, Sent, Run;
    MidKeeps(s, c.mid);
  }

  /** The steps of an executing handler: three statements, the exchange, three more statements. */
  function First(s: Sys, w: Worker, at: int): Sys { Go(Go(Go(s, w, at), w, at), w, at) }

  function Played(s: Sys, w: Worker, c: Contact, at: int): Sys {
    First(Exchanged(First(s, w, at), w, c), w, at)
  }

  /** An execution that ends, or has nothing left to send, within its first statements. */
  lemma EndsEarly(s: Sys, w: Worker, c: Contact, at: int)
    requires var s' := First(s, w, at); w in s'.tasks && s'.tasks[w].Done? && HelperOnly(c.mid)
    ensures Stands(Played(s, w, c, at), w, First(s, w, at).tasks[w], First(s, w, at).db)
  {
    hide Go, Exchanged;
    var s' := First(s, w, at);
    NoExchange(s', w, c);
    StaysDone(Exchanged(s', w, c), w, at);
  }

  lemma StaysDone(s: Sys, w: Worker, at: int)
    requires w in s.tasks && s.tasks[w].Done?
    ensures First(s, w, at) == s && Go(s, w, at) == s
  {
    hide Go;
    DoneStays(s, w, at);
  }

  lemma StartSteps(s: Sys, w: Worker, i: IncidentId, a: Id, at: int)
    requires w in s.tasks && s.tasks[w] == ExecStart(i, a)
    ensures Stands(Go(s, w, at), w,
      if i !in s.db.incidents then Done(false)
      else if !s.db.incidents[i].Repairing? then Done(true)
      else if s.db.paused then ExecHold(i, a) else ExecLoad(i, a), s.db)
  {
  }

  lemma HoldSteps(s: Sys, w: Worker, i: IncidentId, a: Id, at: int)
    requires w in s.tasks && s.tasks[w] == ExecHold(i, a)
    ensures var db := Mark(s.db, i, a, OnHold);
      match Transition(db, i, Repairing, Paused)
      case Ok(db') => Stands(Go(Go(s, w, at), w, at), w, Done(true), db')
      case Err(_) => Stands(Go(Go(s, w, at), w, at), w, Done(false), db)
  {
    hide Go, Transition, Mark;
    HoldMarks(s, w, i, a, at);
    MoveSteps(Go(s, w, at), w, i, Repairing, Paused, at);
  }

  lemma HoldMarks(s: Sys, w: Worker, i: IncidentId, a: Id, at: int)
    requires w in s.tasks && s.tasks[w] == ExecHold(i, a)
    ensures Stands(Go(s, w, at), w, MoveIncident(i, Repairing, Paused), Mark(s.db, i, a, OnHold))
  {
    hide Mark;
  }

  function Loaded(db: Db, i: IncidentId, a: Id): Task {
    if !IsRow(db, i, a) then Done(false)
    else match db.actions[i].status
      case Executed => BeginVerify(i, a)
      case Running => ExecUnclear(i, a)
      case Planned => ExecClaim(i, a, db.actions[i].target)
      case _ => Done(true)
  }

  lemma LoadSteps(s: Sys, w: Worker, i: IncidentId, a: Id, at: int)
    requires w in s.tasks && s.tasks[w] == ExecLoad(i, a)
    ensures Stands(Go(s, w, at), w, Loaded(s.db, i, a), s.db)
  {
  }

  lemma ClaimSteps(s: Sys, w: Worker, i: IncidentId, a: Id, target: string, at: int)
    requires w in s.tasks && s.tasks[w] == ExecClaim(i, a, target)
    ensures if Claimable(s.db, i, a) then Stands(Go(s, w, at), w, ExecSend(i, a, target), Mark(s.db, i, a, Running))
            else Stands(Go(s, w, at), w, Done(true), s.db)
  {
  }

  lemma UnclearSteps(s: Sys, w: Worker, i: IncidentId, a: Id, at: int)
    requires w in s.tasks && s.tasks[w] == ExecUnclear(i, a)
    ensures Stands(Go(s, w, at), w, EscalateNow(i), Mark(s.db, i, a, Unclear))
  {
    hide Mark;
  }

  // Verifying.

  function PlayedCheck(s: Sys, w: Worker, http: bool, container: bool, at: int): Sys {
    CheckedRest(Go(Go(s, w, at), w, at), w, http, container, at)
  }

  function CheckedRest(s: Sys, w: Worker, http: bool, container: bool, at: int): Sys {
    Go(Go(Step(s, Check(w, http, container)), w, at), w, at)
  }

  lemma VerifyStartSteps(s: Sys, w: Worker, i: IncidentId, a: Id, check: nat, at: int)
    requires w in s.tasks && s.tasks[w] == VerifyStart(i, a, check)
    ensures Stands(Go(s, w, at), w,
      if i !in s.db.incidents then Done(false)
      else if s.db.incidents[i].VerifyingProduction? then VerifyLoad(i, a, check) else Done(true), s.db)
  {
  }

  lemma VerifyLoadSteps(s: Sys, w: Worker, i: IncidentId, a: Id, check: nat, at: int)
    requires w in s.tasks && s.tasks[w] == VerifyLoad(i, a, check)
    ensures Stands(Go(s, w, at), w,
      if !IsRow(s.db, i, a) then Done(false)
      else if !s.db.actions[i].status.Executed? then EscalateNow(i)
      else VerifyProbe(i, a, check, Clamp(s.db.actions[i].required)), s.db)
  {
  }

  lemma NoCheck(s: Sys, w: Worker, http: bool, container: bool, at: int)
    requires w in s.tasks && (s.tasks[w].Done? || s.tasks[w].EscalateNow?)
    ensures Step(s, Check(w, http, container)) == s
    ensures CheckedRest(s, w, http, container, at) == Go(Go(s, w, at), w, at)
    ensures s.tasks[w].Done? ==> Go(s, w, at) == s
  {
    if s.tasks[w].Done? { StaysDone(s, w, at); }
  }

  function VerdictOf(db: Db, i: IncidentId, a: Id, check: nat, required: nat, http: bool, container: bool,
    at: int): Result<Db, Db> {
    if !http || !container then
      var marked := Mark(db, i, a, VerificationFailed);
      match Escalate(marked, i) case Ok(db') => Ok(db') case Err(_) => Err(marked)
    else if check + 1 < required then Ok(Enqueue(db, VerifyKey(i, a, check + 1), 1, at))
    else
      var marked := Mark(db, i, a, Verified);
      match Transition(marked, i, VerifyingProduction, Resolved) case Ok(db') => Ok(db') case Err(_) => Err(marked)
  }

  lemma CheckSteps(s: Sys, w: Worker, i: IncidentId, a: Id, check: nat, required: nat, http: bool, container: bool,
    at: int)
    requires w in s.tasks && s.tasks[w] == VerifyProbe(i, a, check, required)
    ensures match VerdictOf(s.db, i, a, check, required, http, container, at)
            case Ok(db) => Stands(CheckedRest(s, w, http, container, at), w, Done(true), db)
            case Err(db) => Stands(CheckedRest(s, w, http, container, at), w, Done(false), db)
  {
    hide Mark, Transition, Escalate, Enqueue, Go;
    var s1 := Step(s, Check(w, http, container));
    if !http || !container {
      FailSteps(s1, w, i, a, at);
      EscalateSteps(Go(s1, w, at), w, i, at);
    } else if check + 1 < required {
      NextCheckSteps(s1, w, i, a, check + 1, at);
      StaysDone(Go(s1, w, at), w, at);
    } else {
      PassSteps(s1, w, i, a, at);
    }
  }

  lemma FailSteps(s: Sys, w: Worker, i: IncidentId, a: Id, at: int)
    requires w in s.tasks && s.tasks[w] == VerifyFailed(i, a)
    ensures Stands(Go(s, w, at), w, EscalateNow(i), Mark(s.db, i, a, VerificationFailed))
  {
    hide Mark;
  }

  lemma NextCheckSteps(s: Sys, w: Worker, i: IncidentId, a: Id, check: nat, at: int)
    requires w in s.tasks && s.tasks[w] == EnqueueVerify(i, a, check)
    ensures Stands(Go(s, w, at), w, Done(true), Enqueue(s.db, VerifyKey(i, a, check), 1, at))
  {
    hide Enqueue;
  }

  lemma VerifiedSteps(s: Sys, w: Worker, i: IncidentId, a: Id, at: int)
    requires w in s.tasks && s.tasks[w] == VerifyPassed(i, a)
    ensures Stands(Go(s, w, at), w, VerifyResolve(i, a), Mark(s.db, i, a, Verified))
  {
    hide Mark;
  }

  lemma ResolveSteps(s: Sys, w: Worker, i: IncidentId, a: Id, at: int)
    requires w in s.tasks && s.tasks[w] == VerifyResolve(i, a)
    ensures match Transition(s.db, i, VerifyingProduction, Resolved)
            case Ok(db) => Stands(Go(s, w, at), w, Done(true), db)
            case Err(_) => Stands(Go(s, w, at), w, Done(false), s.db)
  {
    hide Transition;
  }

  lemma PassSteps(s: Sys, w: Worker, i: IncidentId, a: Id, at: int)
    requires w in s.tasks && s.tasks[w] == VerifyPassed(i, a)
    ensures var marked := Mark(s.db, i, a, Verified);
      match Transition(marked, i, VerifyingProduction, Resolved)
      case Ok(db) => Stands(Go(Go(s, w, at), w, at), w, Done(true), db)
      case Err(_) => Stands(Go(Go(s, w, at), w, at), w, Done(false), marked)
  {
    hide Go, Mark, Transition;
    VerifiedSteps(s, w, i, a, at);
    ResolveSteps(Go(s, w, at), w, i, a, at);
  }

  // Planning.

  function PlayedPlan(s: Sys, w: Worker, d: Operations.Decision, id: Id, enabled: bool, clear: bool, at: int): Sys {
    PlayedFrom(Go(Go(s, w, at), w, at), w, d, id, enabled, clear, at)
  }

  function PlayedFrom(s: Sys, w: Worker, d: Operations.Decision, id: Id, enabled: bool, clear: bool, at: int): Sys {
    Go(Go(Step(Step(s, Decide(w, d, Acked)), PersistAction(w, id, enabled, clear, Acked)), w, at), w, at)
  }

  lemma PlanReadSteps(s: Sys, w: Worker, i: IncidentId, id: Id, at: int)
    requires w in s.tasks && s.tasks[w] == PlanStart(i)
    ensures var s' := Go(s, w, at); var paused, mode := s.db.paused, s.db.mode;
      && (FreshId(s, id) ==> FreshId(s', id))
      && Stands(s', w, if i !in s.db.incidents then Done(false)
                       else if s.db.incidents[i].CollectingContext? then PlanBegin(i, paused, mode)
                       else if s.db.incidents[i].Diagnosing? then PlanDecide(i, paused, mode) else Done(true), s.db)
  {
  }

  lemma PlanBeginSteps(s: Sys, w: Worker, i: IncidentId, paused: bool, mode: SafetyMode, id: Id, at: int)
    requires w in s.tasks && s.tasks[w] == PlanBegin(i, paused, mode)
    ensures var s' := Go(s, w, at);
      && (FreshId(s, id) ==> FreshId(s', id))
      && match Transition(s.db, i, CollectingContext, Diagnosing)
         case Ok(db) => Stands(s', w, PlanDecide(i, paused, mode), db)
         case Err(_) => Stands(s', w, Done(false), s.db)
  {
    hide CanTransition;
  }

  lemma DecidingStays(s: Sys, w: Worker, at: int)
    requires w in s.tasks && s.tasks[w].PlanDecide?
    ensures Go(s, w, at) == s
  {
  }

  lemma NothingStored(s: Sys, w: Worker, id: Id, enabled: bool, clear: bool)
    requires w in s.tasks && !s.tasks[w].PlanPersist?
    ensures Step(s, PersistAction(w, id, enabled, clear, Acked)) == s
  {
  }

  lemma NothingPlanned(s: Sys, w: Worker, d: Operations.Decision, id: Id, enabled: bool, clear: bool, at: int)
    requires w in s.tasks && s.tasks[w].Done?
    ensures PlayedFrom(s, w, d, id, enabled, clear, at) == s
  {
    StaysDone(s, w, at);
  }

  /** No operation and no escalation: the model failed, chose another target, or delegates. */
  predicate GivesUp(d: Operations.Decision) {
    d.ModelFailed? || (d.Delegate? && d.available) || (d.SelectRestart? && d.target != d.configured)
  }

  predicate Escalates(d: Operations.Decision) {
    d.HandOver? || (d.Delegate? && !d.available) || (d.SelectRestart? && !d.httpSelected)
  }

  lemma DecideSteps(s: Sys, w: Worker, i: IncidentId, paused: bool, mode: SafetyMode, d: Operations.Decision, id: Id)
    requires w in s.tasks && s.tasks[w] == PlanDecide(i, paused, mode) && FreshId(s, id)
    ensures var s' := Step(s, Decide(w, d, Acked));
      && FreshId(s', id)
      && if GivesUp(d) then Stands(s', w, Done(d.Delegate?), s.db)
         else if Escalates(d) then Stands(s', w, EscalateNow(i), s.db)
         else match Transition(s.db, i, Diagnosing, Planning)
           case Ok(db) => Stands(s', w, PlanPersist(i, paused, mode, d.target, d.required), db)
           case Err(_) => Stands(s', w, Done(false), s.db)
  {
  }

  lemma PersistSteps(s: Sys, w: Worker, i: IncidentId, paused: bool, mode: SafetyMode, target: string, required: nat,
                     id: Id, enabled: bool, clear: bool)
    requires w in s.tasks && s.tasks[w] == PlanPersist(i, paused, mode, target, required) && FreshId(s, id)
    ensures var context := OperationsContext(mode, paused, true, enabled, true, clear);
      var s' := Step(s, PersistAction(w, id, enabled, clear, Acked));
      match Persist(s.db, i, id, target, required, NameOf(DecideOperations(Low, true, context)))
      case Ok((db, a)) => Stands(s', w, PlanApply(i, a, context), db)
      case Err(_) => Stands(s', w, Done(false), s.db)
  {
    hide Persist, NameOf, DecideOperations;
  }

  function Applied(db: Db, i: IncidentId, a: Id, context: OperationsContext, at: int): Result<Db, Db> {
    match DecideOperations(Low, true, context)
    case Allow =>
      (match Transition(db, i, Planning, Repairing)
       case Ok(db') => Ok(Enqueue(db', ExecuteKey(i, a), 1, at))
       case Err(_) => Err(db))
    case RequireApproval =>
      var marked := Mark(db, i, a, ApprovalRequired);
      (match Transition(marked, i, Planning, WaitingApproval) case Ok(db') => Ok(db') case Err(_) => Err(marked))
    case Block =>
      var marked := Mark(db, i, a, OnHold);
      (match if context.killSwitch then Transition(marked, i, Planning, Paused) else Escalate(marked, i)
       case Ok(db') => Ok(db')
       case Err(_) => Err(marked))
  }

  lemma MoveSteps(s: Sys, w: Worker, i: IncidentId, from: IncidentState, next: IncidentState, at: int)
    requires w in s.tasks && s.tasks[w] == MoveIncident(i, from, next)
    ensures match Transition(s.db, i, from, next)
            case Ok(db) => Stands(Go(s, w, at), w, Done(true), db)
            case Err(_) => Stands(Go(s, w, at), w, Done(false), s.db)
  {
    hide Transition;
  }

  lemma AllowSteps(s: Sys, w: Worker, i: IncidentId, a: Id, context: OperationsContext, at: int)
    requires w in s.tasks && s.tasks[w] == PlanApply(i, a, context) && DecideOperations(Low, true, context).Allow?
    ensures match Transition(s.db, i, Planning, Repairing)
            case Ok(db) => Stands(Go(s, w, at), w, PlanEnqueue(i, a, context), db)
            case Err(_) => Stands(Go(s, w, at), w, Done(false), s.db)
  {
    hide Transition, DecideOperations;
  }

  lemma EnqueueSteps(s: Sys, w: Worker, i: IncidentId, a: Id, context: OperationsContext, at: int)
    requires w in s.tasks && s.tasks[w] == PlanEnqueue(i, a, context)
    ensures Stands(Go(s, w, at), w, Done(true), Enqueue(s.db, ExecuteKey(i, a), 1, at))
  {
    hide Enqueue;
  }

  lemma RefuseSteps(s: Sys, w: Worker, i: IncidentId, a: Id, context: OperationsContext, at: int)
    requires w in s.tasks && s.tasks[w] == PlanApply(i, a, context) && !DecideOperations(Low, true, context).Allow?
    ensures if DecideOperations(Low, true, context).RequireApproval?
            then Stands(Go(s, w, at), w, MoveIncident(i, Planning, WaitingApproval), Mark(s.db, i, a, ApprovalRequired))
            else Stands(Go(s, w, at), w, if context.killSwitch then MoveIncident(i, Planning, Paused) else EscalateNow(i),
                        Mark(s.db, i, a, OnHold))
  {
    hide Mark, DecideOperations;
  }

  lemma ApplySteps(s: Sys, w: Worker, i: IncidentId, a: Id, context: OperationsContext, at: int)
    requires w in s.tasks && s.tasks[w] == PlanApply(i, a, context)
    ensures match Applied(s.db, i, a, context, at)
            case Ok(db) => Stands(Go(Go(s, w, at), w, at), w, Done(true), db)
            case Err(db) => Stands(Go(Go(s, w, at), w, at), w, Done(false), db)
  {
    hide Mark, Transition, Escalate, Enqueue, DecideOperations, Go;
    var s1 := Go(s, w, at);
    var decision := DecideOperations(Low, true, context);
    if decision.Allow? {
      AllowSteps(s, w, i, a, context, at);
      if s1.tasks[w].Done? { StaysDone(s1, w, at); } else { EnqueueSteps(s1, w, i, a, context, at); }
    } else {
      RefuseSteps(s, w, i, a, context, at);
      if decision.RequireApproval? {
        MoveSteps(s1, w, i, Planning, WaitingApproval, at);
      } else if context.killSwitch {
        MoveSteps(s1, w, i, Planning, Paused, at);
      } else {
        EscalateSteps(s1, w, i, at);
      }
    }
  }

  /** Beginning verification is not affected by an exchange this handler takes no part in. */
  lemma BeginAcross(s: Sys, w: Worker, i: IncidentId, a: Id, c: Contact, at: int)
    requires w in s.tasks && s.tasks[w] == BeginVerify(i, a) && HelperOnly(c.mid)
    ensures var s', s'' := Go(Go(s, w, at), w, at), First(Exchanged(Go(s, w, at), w, c), w, at);
      w in s'.tasks && w in s''.tasks && s'.tasks[w].Done? && s''.tasks[w] == s'.tasks[w] && s''.db == s'.db
  {
    hide Exchanged, Transition, Enqueue;
    var s1 := Go(s, w, at);
    NoExchange(s1, w, c);
    var s2 := Exchanged(s1, w, c);
    SameGo(s1, s2, w, at);
    StaysDone(Go(s2, w, at), w, at);
  }

  lemma SameGo(s: Sys, s': Sys, w: Worker, at: int)
    requires w in s.tasks && w in s'.tasks && s'.tasks[w] == s.tasks[w] && s'.db == s.db
    requires s.tasks[w].EnqueueVerify? || s.tasks[w].Done?
    ensures var t, t' := Go(s, w, at), Go(s', w, at);
      w in t.tasks && w in t'.tasks && t.tasks[w].Done? && t'.tasks[w] == t.tasks[w] && t'.db == t.db
  {
    hide Enqueue;
  }

  class OperationsWorker {
    const database: Database

    constructor (database: Database)
      ensures this.database == database
    {
      this.database := database;
    }

    method BeginVerification(i: IncidentId, a: Id, at: int, ghost s: Sys, ghost w: Worker) returns (ok: bool)
      requires database.jobs.Valid() && Stands(s, w, BeginVerify(i, a), database.Value())
      modifies database`incidents, database.jobs
      ensures database.jobs.Valid() && Stands(Go(Go(s, w, at), w, at), w, Done(ok), database.Value())
    {
      hide Go, Transition;
      BeginSteps(s, w, i, a, at);
      var error := database.TransitionIncident(i, Repairing, VerifyingProduction);
      if error.Some? {
        return false;
      }
      database.jobs.Add(VerifyKey(i, a, 0), VerifyKey(i, a, 0), 1, at, database.held);
      return true;
    }

    /** The helper did not report a restart: record what that proves, and escalate. */
    method FailClosedHelperExecution(i: IncidentId, a: Id, error: HelperError, at: int, ghost s: Sys, ghost w: Worker)
        returns (ok: bool)
      requires Stands(s, w, ExecReport(i, a, Err(error)), database.Value())
      modifies database`incidents, database`actions
      ensures Stands(First(s, w, at), w, Done(ok), database.Value())
    {
      hide Go, Mark, Escalate;
      ReportSteps(s, w, i, a, Err(error), at);
      database.MarkStatus(i, a, if MutationDisposition(error).NotStarted? then FailedClosed else Unclear);
      EscalateSteps(Go(s, w, at), w, i, at);
      DoneStays(Go(Go(s, w, at), w, at), w, at);
      var refused := database.EscalateIncident(i);
      return refused.None?;
    }

    /** The claimed action is sent once, and what comes back decides its status. */
    method RunAction(i: IncidentId, a: Id, target: string, c: Contact, at: int, ghost s: Sys,
      ghost w: Worker) returns (ok: bool)
      requires database.jobs.Valid() && Stands(s, w, ExecSend(i, a, target), database.Value()) && Possible(s, w, c)
      modifies database`incidents, database`actions, database.jobs
      ensures database.jobs.Valid() && Stands(First(Exchanged(s, w, c), w, at), w, Done(ok), database.Value())
    {
      hide Go, Mark, Exchanged, RequestRestart, Possible;
      ExchangeSteps(s, w, i, a, target, c);
      ghost var s' := Exchanged(s, w, c);
      if c.client.Some? {
        ok := FailClosedHelperExecution(i, a, c.client.value, at, s', w);
        return;
      }
      var result := RequestRestart(a, target, c.size, c.t);
      if result.Err? {
        ok := FailClosedHelperExecution(i, a, result.error, at, s', w);
        return;
      }
      ReportSteps(s', w, i, a, result, at);
      database.MarkStatus(i, a, Executed);
      ok := BeginVerification(i, a, at, Go(s', w, at), w);
    }

    /** The execution handler: no restart is sent unless protection is active and the row is claimed. */
    method ProcessExecute(i: IncidentId, a: Id, c: Contact, at: int, ghost s: Sys, ghost w: Worker) returns (ok: bool)
      requires database.jobs.Valid() && Stands(s, w, ExecStart(i, a), database.Value())
      requires HelperOnly(c.mid) && Possible(First(s, w, at), w, c)
      modifies database`incidents, database`actions, database.jobs
      ensures database.jobs.Valid() && Stands(Played(s, w, c, at), w, Done(ok), database.Value())
    {
      hide Go, Mark, Exchanged, Possible, Transition, Escalate;
      StartSteps(s, w, i, a, at);
      ghost var s1 := Go(s, w, at);
      if i !in database.incidents || database.incidents[i] != Repairing {
        StaysDone(s1, w, at);
        EndsEarly(s, w, c, at);
        return i in database.incidents;
      }
      if database.paused {
        HoldSteps(s1, w, i, a, at);
        EndsEarly(s, w, c, at);
        database.MarkStatus(i, a, OnHold);
        var refused := database.TransitionIncident(i, Repairing, Paused);
        return refused.None?;
      }
      LoadSteps(s1, w, i, a, at);
      ok := ProcessLoaded(i, a, c, at, s, Go(s1, w, at), w);
    }

    /** The part behind loading the row: resume, give up, or claim and send. */
    method ProcessLoaded(i: IncidentId, a: Id, c: Contact, at: int, ghost s: Sys, ghost s2: Sys, ghost w: Worker)
        returns (ok: bool)
      requires database.jobs.Valid() && s2 == Go(Go(s, w, at), w, at)
      requires Stands(s2, w, Loaded(database.Value(), i, a), database.Value())
      requires HelperOnly(c.mid) && Possible(First(s, w, at), w, c)
      modifies database`incidents, database`actions, database.jobs
      ensures database.jobs.Valid() && Stands(Played(s, w, c, at), w, Done(ok), database.Value())
    {
      hide Go, Mark, Exchanged, Possible, Transition, Escalate;
      ghost var s3 := Go(s2, w, at);
      assert First(s, w, at) == s3 && Played(s, w, c, at) == First(Exchanged(s3, w, c), w, at);
      if !(i in database.actions && database.actions[i].id == a) {
        StaysDone(s2, w, at);
        EndsEarly(s, w, c, at);
        return false;
      }
      match database.actions[i].status
      case Executed =>
        BeginAcross(s2, w, i, a, c, at);
        ok := BeginVerification(i, a, at, s2, w);
      case Running =>
        UnclearSteps(s2, w, i, a, at);
        NoExchange(s3, w, c);
        EscalateSteps(Exchanged(s3, w, c), w, i, at);
        StaysDone(Go(Exchanged(s3, w, c), w, at), w, at);
        database.MarkStatus(i, a, Unclear);
        var refused := database.EscalateIncident(i);
        ok := refused.None?;
      case Planned =>
        var target := database.actions[i].target;
        ClaimSteps(s2, w, i, a, target, at);
        var claimed := database.ClaimAction(i, a);
        if !claimed {
          EndsEarly(s, w, c, at);
          return true;
        }
        ok := RunAction(i, a, target, c, at, s3, w);
      case _ =>
        StaysDone(s2, w, at);
        EndsEarly(s, w, c, at);
        ok := true;
    }

    /** One verification check: stop, fail for good, go on to the next check, or resolve. */
    method ProcessVerify(i: IncidentId, a: Id, check: nat, http: bool, container: bool, at: int, ghost s: Sys,
      ghost w: Worker)
        returns (ok: bool)
      requires database.jobs.Valid() && Stands(s, w, VerifyStart(i, a, check), database.Value())
      modifies database`incidents, database`actions, database.jobs
      ensures database.jobs.Valid() && Stands(PlayedCheck(s, w, http, container, at), w, Done(ok), database.Value())
    {
      hide Go, Mark, Transition, Escalate, CheckStep, Clamp, CheckedRest;
      VerifyStartSteps(s, w, i, a, check, at);
      ghost var s1 := Go(s, w, at);
      if i !in database.incidents || database.incidents[i] != VerifyingProduction {
        NoCheck(s1, w, http, container, at);
        return i in database.incidents;
      }
      ok := CheckLoaded(i, a, check, http, container, at, s1, w);
    }

    method CheckLoaded(i: IncidentId, a: Id, check: nat, http: bool, container: bool, at: int, ghost s: Sys,
      ghost w: Worker)
        returns (ok: bool)
      requires database.jobs.Valid() && Stands(s, w, VerifyLoad(i, a, check), database.Value())
      modifies database`incidents, database`actions, database.jobs
      ensures database.jobs.Valid() && Stands(CheckedRest(Go(s, w, at), w, http, container, at), w, Done(ok), database.Value())
    {
      hide Go, Mark, Transition, Escalate, CheckStep, Clamp, CheckedRest;
      VerifyLoadSteps(s, w, i, a, check, at);
      ghost var s1 := Go(s, w, at);
      if !(i in database.actions && database.actions[i].id == a) {
        NoCheck(s1, w, http, container, at);
        return false;
      }
      if database.actions[i].status != Executed {
        NoCheck(s1, w, http, container, at);
        EscalateSteps(s1, w, i, at);
        StaysDone(Go(s1, w, at), w, at);
        var refused := database.EscalateIncident(i);
        return refused.None?;
      }
      ok := JudgeCheck(i, a, check, Clamp(database.actions[i].required), http, container, at, s1, w);
    }

    method JudgeCheck(i: IncidentId, a: Id, check: nat, required: nat, http: bool, container: bool, at: int,
      ghost s: Sys, ghost w: Worker)
        returns (ok: bool)
      requires database.jobs.Valid() && Stands(s, w, VerifyProbe(i, a, check, required), database.Value())
      modifies database`incidents, database`actions, database.jobs
      ensures database.jobs.Valid() && Stands(CheckedRest(s, w, http, container, at), w, Done(ok), database.Value())
    {
      hide Mark, Transition, Escalate, CheckedRest;
      CheckSteps(s, w, i, a, check, required, http, container, at);
      if !http || !container {
        database.MarkStatus(i, a, VerificationFailed);
        var refused := database.EscalateIncident(i);
        return refused.None?;
      }
      if check + 1 < required {
        database.jobs.Add(VerifyKey(i, a, check + 1), VerifyKey(i, a, check + 1), 1, at, database.held);
        return true;
      }
      database.MarkStatus(i, a, Verified);
      var refused := database.TransitionIncident(i, VerifyingProduction, Resolved);
      return refused.None?;
    }

    /** Planning: decide by policy on what was read first, store the one action, and hand it on. */
    method ProcessPlan(i: IncidentId, d: Operations.Decision, id: Id, enabled: bool, clear: bool, at: int,
      ghost s: Sys, ghost w: Worker)
        returns (ok: bool)
      requires database.jobs.Valid() && Stands(s, w, PlanStart(i), database.Value()) && FreshId(s, id)
      modifies database`incidents, database`actions, database.jobs
      ensures database.jobs.Valid() && Stands(PlayedPlan(s, w, d, id, enabled, clear, at), w, Done(ok), database.Value())
    {
      hide Go, Transition, FreshId, PlayedFrom;
      PlanReadSteps(s, w, i, id, at);
      ghost var s1 := Go(s, w, at);
      var paused, mode := database.paused, database.mode;
      if i !in database.incidents {
        StaysDone(s1, w, at);
        NothingPlanned(s1, w, d, id, enabled, clear, at);
        return false;
      }
      if database.incidents[i] == CollectingContext {
        PlanBeginSteps(s1, w, i, paused, mode, id, at);
        var refused := database.TransitionIncident(i, CollectingContext, Diagnosing);
        if refused.Some? {
          NothingPlanned(Go(s1, w, at), w, d, id, enabled, clear, at);
          return false;
        }
      } else if database.incidents[i] != Diagnosing {
        StaysDone(s1, w, at);
        NothingPlanned(s1, w, d, id, enabled, clear, at);
        return true;
      } else {
        DecidingStays(s1, w, at);
      }
      ok := PlanContainerRestart(i, paused, mode, d, id, enabled, clear, at, Go(s1, w, at), w);
    }

    method PlanContainerRestart(i: IncidentId, paused: bool, mode: SafetyMode, d: Operations.Decision, id: Id,
                                enabled: bool, clear: bool, at: int, ghost s: Sys, ghost w: Worker) returns (ok: bool)
      requires database.jobs.Valid() && Stands(s, w, PlanDecide(i, paused, mode), database.Value()) && FreshId(s, id)
      modifies database`incidents, database`actions, database.jobs
      ensures database.jobs.Valid() && Stands(PlayedFrom(s, w, d, id, enabled, clear, at), w, Done(ok), database.Value())
    {
      hide Go, Transition, Escalate, FreshId, Persist, NameOf, DecideOperations;
      DecideSteps(s, w, i, paused, mode, d, id);
      ghost var s1 := Step(s, Decide(w, d, Acked));
      if GivesUp(d) {
        NothingStored(s1, w, id, enabled, clear);
        StaysDone(s1, w, at);
        return d.Delegate?;
      }
      if Escalates(d) {
        NothingStored(s1, w, id, enabled, clear);
        EscalateSteps(s1, w, i, at);
        StaysDone(Go(s1, w, at), w, at);
        var refused := database.EscalateIncident(i);
        return refused.None?;
      }
      var refused := database.TransitionIncident(i, Diagnosing, Planning);
      if refused.Some? {
        NothingStored(s1, w, id, enabled, clear);
        StaysDone(s1, w, at);
        return false;
      }
      var context := OperationsContext(mode, paused, true, enabled, true, clear);
      PersistSteps(s1, w, i, paused, mode, d.target, d.required, id, enabled, clear);
      var stored := database.PersistAction(i, id, d.target, d.required, NameOf(DecideOperations(Low, true, context)));
      ghost var s2 := Step(s1, PersistAction(w, id, enabled, clear, Acked));
      if stored.Err? {
        StaysDone(s2, w, at);
        return false;
      }
      ok := ApplyPolicy(i, stored.value, context, at, s2, w);
    }

    method ApplyPolicy(i: IncidentId, a: Id, context: OperationsContext, at: int, ghost s: Sys,
      ghost w: Worker) returns (ok: bool)
      requires database.jobs.Valid() && Stands(s, w, PlanApply(i, a, context), database.Value())
      modifies database`incidents, database`actions, database.jobs
      ensures database.jobs.Valid() && Stands(Go(Go(s, w, at), w, at), w, Done(ok), database.Value())
    {
      hide Go, Transition, Escalate, Mark, DecideOperations, NameOf;
      ApplySteps(s, w, i, a, context, at);
      var refused;
      match DecideOperations(Low, true, context) {
        case Allow =>
          refused := database.TransitionIncident(i, Planning, Repairing);
          if refused.None? {
            database.jobs.Add(ExecuteKey(i, a), ExecuteKey(i, a), 1, at, database.held);
          }
        case RequireApproval =>
          refused := Refuse(i, a, ApprovalRequired, Some(WaitingApproval));
        case Block =>
          refused := Refuse(i, a, OnHold, if context.killSwitch then Some(Paused) else None);
      }
      ok := refused.None?;
    }

    /** Mark the action, then move the incident on from planning, or escalate. */
    method Refuse(i: IncidentId, a: Id, status: ActionStatus,
      next: Option<IncidentState>) returns (refused: Option<DbError>)
      modifies database`incidents, database`actions
      ensures var marked := Mark(old(database.Value()), i, a, status);
        var moved := if next.Some? then Transition(marked, i, Planning, next.value) else Escalate(marked, i);
        if refused.None? then moved == Ok(database.Value())
        else moved == Err(refused.value) && database.Value() == marked
    {
      hide Transition, Escalate, Mark;
      database.MarkStatus(i, a, status);
      if next.Some? {
        refused := database.TransitionIncident(i, Planning, next.value);
      } else {
        refused := database.EscalateIncident(i);
      }
    }
  }
}
