/**
  The helper's sequential code: the journal's claim and complete, and the executor that calls them.
  Each method is shown to be one uninterrupted run of the step machine, so every theorem about runs
  holds of it, and its steps are exactly the points where other connections may come in between.
*/
module RuntimeExecutor {
  import opened Wrappers
  import opened RuntimeProtocol
  import opened StateDirectory
  import opened HelperMachine

  /** How one system call ended; `landed` says whether a failed write reached the file whole. */
  datatype Sys = Sys(ok: bool, landed: bool, inode: Inode)

  datatype ClaimCalls = ClaimCalls(open: Sys, writeOrRead: Sys, sync: Sys, syncDir: Sys)

  datatype CompleteCalls = CompleteCalls(open: Sys, write: Sys, sync: Sys, rename: Sys, syncDir: Sys)

  datatype DockerIo = DockerIo(before: Probe, restarted: bool, after: Probe)

  datatype ClaimResult = New | AlreadyStarted | AlreadyCompleted(resp: Response) | ClaimError

  function Sysc(h: Helper, c: CallId, s: Sys): Helper { Step(h, Event.Io(c, s.ok, s.landed, s.inode)) }

  function AfterClaim(h: Helper, c: CallId, io: ClaimCalls): Helper {
    Sysc(Sysc(Sysc(Sysc(h, c, io.open), c, io.writeOrRead), c, io.sync), c, io.syncDir)
  }

  function AfterDocker(h: Helper, c: CallId, io: DockerIo): Helper {
    Step(Step(Step(Step(h, Probed(c, io.before)), Launch(c)), Returned(c, io.restarted)), Probed(c, io.after))
  }

  function AfterComplete(h: Helper, c: CallId, io: CompleteCalls): Helper {
    Sysc(Sysc(Sysc(Sysc(Sysc(h, c, io.open), c, io.write), c, io.sync), c, io.rename), c, io.syncDir)
  }

  /** One connection served without interruption, as a sequence of events. */
  function Script(c: CallId, peer: nat, request: Request, claim: ClaimCalls, docker: DockerIo,
    complete: CompleteCalls): seq<Event> {
    [Arrive(c, peer, request)]
    + IoEvents(c, [claim.open, claim.writeOrRead, claim.sync, claim.syncDir])
    + [Probed(c, docker.before), Launch(c), Returned(c, docker.restarted), Probed(c, docker.after)]
    + IoEvents(c, [complete.open, complete.write, complete.sync, complete.rename, complete.syncDir])
  }

  function IoEvents(c: CallId, calls: seq<Sys>): seq<Event> {
    seq(|calls|, i requires 0 <= i < |calls| => Event.Io(c, calls[i].ok, calls[i].landed, calls[i].inode))
  }

  lemma {:induction false} RunAppend(h: Helper, a: seq<Event>, b: seq<Event>)
    ensures Run(h, a + b) == Run(Run(h, a), b)
    decreases |a|
  {
    if a == [] {
      assert a + b == b;
    } else {
      assert (a + b)[0] == a[0] && (a + b)[1..] == a[1..] + b;
      RunAppend(Step(h, a[0]), a[1..], b);
    }
  }

  lemma {:induction false} RunIo(h: Helper, c: CallId, calls: seq<Sys>)
    requires calls != []
    ensures Run(h, IoEvents(c, calls)) == Run(Sysc(h, c, calls[0]), IoEvents(c, calls[1..]))
  {
    assert IoEvents(c, calls)[1..] == IoEvents(c, calls[1..]);
  }

  lemma ClaimIsRun(h: Helper, c: CallId, io: ClaimCalls)
    ensures Run(h, IoEvents(c, [io.open, io.writeOrRead, io.sync, io.syncDir])) == AfterClaim(h, c, io)
  {
    var s := [io.open, io.writeOrRead, io.sync, io.syncDir];
    RunIo(h, c, s);
    RunIo(Sysc(h, c, s[0]), c, s[1..]);
    RunIo(Sysc(Sysc(h, c, s[0]), c, s[1]), c, s[1..][1..]);
    RunIo(Sysc(Sysc(Sysc(h, c, s[0]), c, s[1]), c, s[2]), c, s[1..][1..][1..]);
  }

  lemma CompleteIsRun(h: Helper, c: CallId, io: CompleteCalls)
    ensures Run(h, IoEvents(c, [io.open, io.write, io.sync, io.rename, io.syncDir])) == AfterComplete(h, c, io)
  {
    var s := [io.open, io.write, io.sync, io.rename, io.syncDir];
    RunIo(h, c, s);
    RunIo(Sysc(h, c, s[0]), c, s[1..]);
    RunIo(Sysc(Sysc(h, c, s[0]), c, s[1]), c, s[1..][1..]);
    RunIo(Sysc(Sysc(Sysc(h, c, s[0]), c, s[1]), c, s[2]), c, s[1..][1..][1..]);
    RunIo(Sysc(Sysc(Sysc(Sysc(h, c, s[0]), c, s[1]), c, s[2]), c, s[3]), c, s[1..][1..][1..][1..]);
  }

  lemma DockerIsRun(h: Helper, c: CallId, io: DockerIo)
    ensures Run(h, [Probed(c, io.before), Launch(c), Returned(c, io.restarted), Probed(c, io.after)]) == AfterDocker(h, c, io)
  {
    var s := [Probed(c, io.before), Launch(c), Returned(c, io.restarted), Probed(c, io.after)];
    var h1 := Step(h, s[0]);
    var h2 := Step(h1, s[1]);
    var h3 := Step(h2, s[2]);
    assert s[1..][0] == s[1] && s[1..][1..][0] == s[2] && s[1..][1..][1..][0] == s[3];
    assert Run(h, s) == Run(h1, s[1..]);
    assert Run(h1, s[1..]) == Run(h2, s[1..][1..]);
    assert Run(h2, s[1..][1..]) == Run(h3, s[1..][1..][1..]);
    assert s[1..][1..][1..][1..] == [];
    assert Run(h3, s[1..][1..][1..]) == Run(Step(h3, s[3]), []);
  }

  /** The script is the four stages of the code, one after the other. */
  lemma ScriptRuns(h: Helper, c: CallId, peer: nat, request: Request, claim: ClaimCalls, docker: DockerIo,
    complete: CompleteCalls)
    ensures Run(h, Script(c, peer, request, claim, docker, complete))
      == AfterComplete(AfterDocker(AfterClaim(Step(h, Arrive(c, peer, request)), c, claim), c, docker), c, complete)
  {
    var a := [Arrive(c, peer, request)];
    var b := IoEvents(c, [claim.open, claim.writeOrRead, claim.sync, claim.syncDir]);
    var d := [Probed(c, docker.before), Launch(c), Returned(c, docker.restarted), Probed(c, docker.after)];
    var e := IoEvents(c, [complete.open, complete.write, complete.sync, complete.rename, complete.syncDir]);
    RunAppend(h, a, b);
    RunAppend(h, a + b, d);
    RunAppend(h, a + b + d, e);
    var h1 := Step(h, Arrive(c, peer, request));
    assert Run(h, a) == h1;
    ClaimIsRun(h1, c, claim);
    DockerIsRun(AfterClaim(h1, c, claim), c, docker);
    CompleteIsRun(AfterDocker(AfterClaim(h1, c, claim), c, docker), c, complete);
  }

  function ClaimPc(call: Call, r: ClaimResult): Pc {
    match r
    case New => Inspecting
    case AlreadyStarted => Answered(Reject(call.id, DuplicateAmbiguous, Ambiguous))
    case AlreadyCompleted(resp) => Answered(resp.(duplicate := true))
    case ClaimError => Answered(ClaimFailed(call.id))
  }

  /** What `claim` makes of the file it could not create. */
  function Existing(id: Id, target: string, content: Content): ClaimResult {
    if content.Torn? then ClaimError
    else
      var existing := content.record;
      if existing.requestId != id || existing.targetId != target then AlreadyStarted
      else if existing.status.Finished? && existing.response.Some? then AlreadyCompleted(existing.response.value)
      else AlreadyStarted
  }

  // One system call seen from the call alone: the disk and the position it leads to.
  function Effect(call: Call, at: (Disk, Pc), s: Sys): (Disk, Pc) {
    if Completing(at.1) then CompleteIo(call.(pc := at.1), at.0, s.ok, s.landed, s.inode)
    else ClaimIo(call.(pc := at.1), at.0, s.ok, s.landed, s.inode)
  }

  function At(h: Helper, c: CallId, at: (Disk, Pc)): Helper
    requires c in h.calls
  {
    Goto(h.(disk := at.0), c, at.1)
  }

  lemma SyscEffect(h: Helper, c: CallId, at: (Disk, Pc), s: Sys)
    requires c in h.calls
    ensures Sysc(At(h, c, at), c, s) == At(h, c, Effect(h.calls[c], at, s))
  {
  }

  function ClaimEnd(call: Call, d: Disk, io: ClaimCalls): (Disk, Pc) {
    Effect(call, Effect(call, Effect(call, Effect(call, (d, Opening), io.open), io.writeOrRead), io.sync), io.syncDir)
  }

  function CompleteEnd(call: Call, d: Disk, resp: Response, io: CompleteCalls): (Disk, Pc) {
    Published(call, Written(call, d, resp, io), io)
  }

  function Written(call: Call, d: Disk, resp: Response, io: CompleteCalls): (Disk, Pc) {
    Effect(call, Effect(call, Effect(call, (d, OpeningTmp(resp)), io.open), io.write), io.sync)
  }

  function Published(call: Call, at: (Disk, Pc), io: CompleteCalls): (Disk, Pc) {
    Effect(call, Effect(call, at, io.rename), io.syncDir)
  }

  lemma ClaimRuns(h: Helper, c: CallId, io: ClaimCalls)
    requires c in h.calls && h.calls[c].pc == Opening
    ensures AfterClaim(h, c, io) == At(h, c, ClaimEnd(h.calls[c], h.disk, io))
  {
    var call := h.calls[c];
    assert At(h, c, (h.disk, Opening)) == h;
    var e1 := Effect(call, (h.disk, Opening), io.open);
    var e2 := Effect(call, e1, io.writeOrRead);
    var e3 := Effect(call, e2, io.sync);
    SyscEffect(h, c, (h.disk, Opening), io.open);
    SyscEffect(h, c, e1, io.writeOrRead);
    SyscEffect(h, c, e2, io.sync);
    SyscEffect(h, c, e3, io.syncDir);
  }

  lemma CompleteRuns(h: Helper, c: CallId, resp: Response, io: CompleteCalls)
    requires c in h.calls && h.calls[c].pc == OpeningTmp(resp)
    ensures AfterComplete(h, c, io) == At(h, c, CompleteEnd(h.calls[c], h.disk, resp, io))
  {
    var call := h.calls[c];
    assert At(h, c, (h.disk, OpeningTmp(resp))) == h;
    var e1 := Effect(call, (h.disk, OpeningTmp(resp)), io.open);
    var e2 := Effect(call, e1, io.write);
    var e3 := Effect(call, e2, io.sync);
    var e4 := Effect(call, e3, io.rename);
    SyscEffect(h, c, (h.disk, OpeningTmp(resp)), io.open);
    SyscEffect(h, c, e1, io.write);
    SyscEffect(h, c, e2, io.sync);
    SyscEffect(h, c, e3, io.rename);
    SyscEffect(h, c, e4, io.syncDir);
  }

  lemma DockerIdle(h: Helper, c: CallId, p: Probe)
    requires c in h.calls && (h.calls[c].pc.OpeningTmp? || h.calls[c].pc.Answered?)
    ensures Step(h, Launch(c)) == h && Step(h, Probed(c, p)) == h
    ensures forall ok :: Step(h, Returned(c, ok)) == h
  {
  }

  lemma AnsweredIdle(h: Helper, c: CallId, s: Sys)
    requires c in h.calls && h.calls[c].pc.Answered?
    ensures Sysc(h, c, s) == h
  {
    assert At(h, c, (h.disk, h.calls[c].pc)) == h;
  }

  lemma AnsweredDone(h: Helper, c: CallId, docker: DockerIo, complete: CompleteCalls)
    requires c in h.calls && h.calls[c].pc.Answered?
    ensures AfterDocker(h, c, docker) == h && AfterComplete(h, c, complete) == h
  {
    DockerIdle(h, c, docker.before);
    DockerIdle(h, c, docker.after);
    AnsweredIdle(h, c, complete.open);
    AnsweredIdle(h, c, complete.write);
    AnsweredIdle(h, c, complete.sync);
    AnsweredIdle(h, c, complete.rename);
    AnsweredIdle(h, c, complete.syncDir);
  }

  lemma AnsweredUnclaimed(h: Helper, c: CallId, io: ClaimCalls)
    requires c in h.calls && (h.calls[c].pc.Answered? || h.calls[c].pc.InspectingOnly?)
    ensures AfterClaim(h, c, io) == h
  {
    assert At(h, c, (h.disk, h.calls[c].pc)) == h;
    assert forall s :: Sysc(h, c, s) == h;
  }

  lemma InspectRuns(h: Helper, c: CallId, docker: DockerIo)
    requires c in h.calls && h.calls[c].pc.InspectingOnly?
    ensures AfterDocker(h, c, docker) == Step(h, Probed(c, docker.before))
  {
    DockerIdle(Step(h, Probed(c, docker.before)), c, docker.after);
  }

  class RequestJournal {
    var disk: Disk

    constructor ()
      ensures disk == EMPTY
    {
      disk := EMPTY;
    }

    method Claim(id: Id, target: string, io: ClaimCalls) returns (r: ClaimResult)
      modifies this
      ensures ClaimEnd(Call(id, target, Opening), old(disk), io) == (disk, ClaimPc(Call(id, target, Opening), r))
    {
      ghost var call := Call(id, target, Opening);
      ghost var at := Effect(call, (disk, Opening), io.open);
      if !Missing(disk, id) {
        var now := Look(disk, Json(id)).now;
        if io.writeOrRead.ok && now.value in disk.files {
          r := Existing(id, target, disk.files[now.value].now);
        } else {
          r := ClaimError;
        }
        assert Effect(call, at, io.writeOrRead) == (disk, ClaimPc(call, r));
        return;
      }
      var f := io.open.inode;
      if !io.open.ok || f in disk.files {
        assert at == (disk, ClaimPc(call, ClaimError));
        return ClaimError;
      }
      disk := Create(disk, Json(id), f);
      assert at == (disk, Writing(f));
      if io.writeOrRead.ok || io.writeOrRead.landed {
        disk := Put(disk, f, Whole(Record(id, target, Started, None)));
      }
      at := Effect(call, at, io.writeOrRead);
      if !io.writeOrRead.ok {
        assert at == (disk, ClaimPc(call, ClaimError));
        return ClaimError;
      }
      assert at == (disk, Syncing(f));
      at := Effect(call, at, io.sync);
      if !io.sync.ok {
        assert at == (disk, ClaimPc(call, ClaimError));
        return ClaimError;
      }
      disk := SyncFile(disk, f);
      assert at == (disk, SyncingClaim);
      if !io.syncDir.ok {
        return ClaimError;
      }
      disk := SyncDirectory(disk);
      return New;
    }

    method Complete(id: Id, target: string, resp: Response, io: CompleteCalls) returns (done: bool)
      modifies this
      ensures CompleteEnd(Call(id, target, OpeningTmp(resp)), old(disk), resp, io)
        == (disk, Answered(if done then resp else CompletionFailed(id, resp)))
    {
      hide Written, Create, Put, SyncFile;
      ghost var call := Call(id, target, OpeningTmp(resp));
      ghost var d := disk;
      var ready, f := WriteTemporary(id, target, resp, io);
      ghost var at := (disk, if ready then Renaming(resp, f) else Answered(CompletionFailed(id, resp)));
      assert CompleteEnd(call, d, resp, io) == Published(call, at, io);
      if !ready || !io.rename.ok {
        return false;
      }
      disk := Rename(disk, id);
      if !io.syncDir.ok {
        return false;
      }
      disk := SyncDirectory(disk);
      return true;
    }

    /** Write the record to the temporary name and sync it. */
    method WriteTemporary(id: Id, target: string, resp: Response, io: CompleteCalls) returns (ready: bool, f: Inode)
      modifies this
      ensures Written(Call(id, target, OpeningTmp(resp)), old(disk), resp, io)
        == (disk, if ready then Renaming(resp, f) else Answered(CompletionFailed(id, resp)))
      ensures ready ==> Look(disk, Tmp(id)).now.Some?
    {
      ghost var call, failed := Call(id, target, OpeningTmp(resp)), Answered(CompletionFailed(id, resp));
      ready, f := OpenTemporary(id, io.open, target, resp);
      ghost var at := (disk, if ready then WritingTmp(resp, f) else failed);
      if !ready {
        return;
      }
      if io.write.ok || io.write.landed {
        disk := Put(disk, f, Whole(Record(id, target, Finished, Some(resp))));
      }
      at := Effect(call, at, io.write);
      if !io.write.ok {
        assert at == (disk, failed);
        return false, f;
      }
      assert at == (disk, SyncingTmp(resp, f));
      if !io.sync.ok {
        return false, f;
      }
      disk := SyncFile(disk, f);
    }

    /** Open the temporary name for writing, creating or truncating it. */
    method OpenTemporary(id: Id, open: Sys, ghost target: string, ghost resp: Response) returns (got: bool, f: Inode)
      modifies this
      ensures got ==> f in disk.files && Look(disk, Tmp(id)).now == Some(f) && disk.files[f].now == Torn
      ensures !got ==> disk == old(disk)
      ensures Effect(Call(id, target, OpeningTmp(resp)), (old(disk), OpeningTmp(resp)), open)
        == (disk, if got then WritingTmp(resp, f) else Answered(CompletionFailed(id, resp)))
    {
      f := open.inode;
      if !open.ok {
        return false, f;
      }
      var now := Look(disk, Tmp(id)).now;
      if now.Some? && now.value in disk.files {
        f := now.value;
        disk := Put(disk, f, Torn);
        return true, f;
      }
      if f in disk.files {
        return false, f;
      }
      disk := Create(disk, Tmp(id), f);
      return true, f;
    }
  }

  /** The executor serves one connection at a time here; `tasks` are the connections of the machine. */
  class Executor {
    const journal: RequestJournal
    var config: HelperConfig
    var issued: seq<Issue>
    ghost var tasks: map<CallId, Call>

    constructor (config: HelperConfig)
      ensures fresh(journal) && State() == Init(config)
    {
      journal := new RequestJournal();
      this.config := config;
      issued := [];
      tasks := map[];
    }

    ghost function State(): Helper
      reads this, journal
    {
      Helper(config, journal.disk, tasks, issued)
    }

    method Handle(c: CallId, peer: nat, request: Request, claim: ClaimCalls, docker: DockerIo, complete: CompleteCalls)
        returns (resp: Response)
      requires c !in tasks
      modifies this, journal
      ensures c in tasks && tasks[c].pc == Answered(resp)
      ensures State() == Run(old(State()), Script(c, peer, request, claim, docker, complete))
      ensures !(request.version == 1 && peer == old(config).allowedPeer && request.credential == old(config).credential
                && request.action.targetId == old(config).target.id) ==>
        && journal.disk == old(journal.disk) && issued == old(issued)
        && resp == Response(1, request.requestId, false, Rejected(
             if request.version != 1 then ProtocolVersionUnsupported
             else if peer != old(config).allowedPeer then PeerNotAllowed
             else if request.credential != old(config).credential then AuthenticationFailed
             else TargetNotEnrolled, NotStarted))
    {
      ghost var start := State();
      ghost var h := Step(start, Arrive(c, peer, request));
      ScriptRuns(start, c, peer, request, claim, docker, complete);
      tasks := h.calls;
      assert State() == h;
      match Gate(config, peer, request) {
        case Some(code) =>
          resp := Reject(request.requestId, code, NotStarted);
          AnsweredUnclaimed(h, c, claim);
          AnsweredDone(h, c, docker, complete);
        case None =>
          if request.action.Inspect? {
            resp := Inspect(c, request.requestId, claim, docker, complete);
          } else {
            resp := Restart(c, request.requestId, request.action.targetId, claim, docker, complete);
          }
      }
    }

    method Inspect(c: CallId, id: Id, ghost claim: ClaimCalls, docker: DockerIo,
      ghost complete: CompleteCalls) returns (resp: Response)
      requires c in tasks && tasks[c].pc == InspectingOnly && tasks[c].id == id
      modifies this
      ensures c in tasks && tasks[c].pc == Answered(resp)
      ensures State() == AfterComplete(AfterDocker(AfterClaim(old(State()), c, claim), c, docker), c, complete)
    {
      ghost var h := State();
      var found := InspectEnrolled(config, docker.before);
      resp := if found.Ok? then Reply(id, Inspected(found.value)) else Reject(id, found.error, NotStarted);
      tasks := tasks[c := tasks[c].(pc := Answered(resp))];
      AnsweredUnclaimed(h, c, claim);
      InspectRuns(h, c, docker);
      assert State() == Step(h, Probed(c, docker.before));
      AnsweredDone(State(), c, docker, complete);
    }

    method Restart(c: CallId, id: Id, target: string, claim: ClaimCalls, docker: DockerIo, complete: CompleteCalls)
        returns (resp: Response)
      requires c in tasks && tasks[c] == Call(id, target, Opening)
      modifies this, journal
      ensures c in tasks && tasks[c].pc == Answered(resp)
      ensures State() == AfterComplete(AfterDocker(AfterClaim(old(State()), c, claim), c, docker), c, complete)
    {
      ghost var h := State();
      var claimed := journal.Claim(id, target, claim);
      ClaimRuns(h, c, claim);
      tasks := tasks[c := Call(id, target, ClaimPc(tasks[c], claimed))];
      assert State() == AfterClaim(h, c, claim);
      match claimed {
        case AlreadyCompleted(recorded) => resp := recorded.(duplicate := true);
        case AlreadyStarted => resp := Reject(id, DuplicateAmbiguous, Ambiguous);
        case ClaimError => resp := Reject(id, InternalError, NotStarted);
        case New =>
          resp := Mutate(c, id, target, docker, complete);
          return;
      }
      AnsweredDone(State(), c, docker, complete);
    }

    /** The part of `restart` after a new claim. */
    method Mutate(c: CallId, id: Id, target: string, docker: DockerIo, complete: CompleteCalls) returns (resp: Response)
      requires c in tasks && tasks[c] == Call(id, target, Inspecting)
      modifies this, journal
      ensures c in tasks && tasks[c].pc == Answered(resp)
      ensures State() == AfterComplete(AfterDocker(old(State()), c, docker), c, complete)
    {
      ghost var h := State();
      var probed := InspectEnrolled(config, docker.before);
      if probed.Err? {
        resp := Reject(id, probed.error, NotStarted);
        tasks := tasks[c := Call(id, target, OpeningTmp(resp))];
        assert State() == Step(h, Probed(c, docker.before));
        DockerIdle(State(), c, docker.after);
        var _ := Persist(c, id, target, resp, complete);
        return;
      }
      issued := issued + [Issue(id, c, target, config)];
      tasks := tasks[c := Call(id, target, Restarting(probed.value))];
      assert State() == Step(Step(h, Probed(c, docker.before)), Launch(c)) by {
        assert Step(h, Probed(c, docker.before)) == Goto(h, c, Launching(probed.value));
      }
      ghost var g := State();
      var verdict := Judge(id, probed.value, docker);
      tasks := tasks[c := Call(id, target, if verdict.outcome.Succeeded? then OpeningTmp(verdict) else Answered(verdict))];
      assert State() == AfterDocker(h, c, docker) by {
        assert Step(g, Returned(c, docker.restarted)) == if docker.restarted then Goto(g, c, Proving(probed.value)) else State();
        if !docker.restarted {
          DockerIdle(State(), c, docker.after);
        }
      }
      if verdict.outcome.Rejected? {
        AnsweredDone(State(), c, docker, complete);
        return verdict;
      }
      var done := Persist(c, id, target, verdict, complete);
      resp := if done then verdict else Reject(id, InternalError, Ambiguous);
    }

    method Judge(id: Id, before: ContainerState, docker: DockerIo) returns (verdict: Response)
      ensures verdict ==
        if !docker.restarted || InspectEnrolled(config, docker.after).Err? then Reject(id, RestartAmbiguous, Ambiguous)
        else if !InspectEnrolled(config, docker.after).value.Running() then Reject(id, RestartDidNotStart, Ambiguous)
        else Reply(id, Restarted(before, InspectEnrolled(config, docker.after).value))
    {
      if !docker.restarted {
        return Reject(id, RestartAmbiguous, Ambiguous);
      }
      var after := InspectEnrolled(config, docker.after);
      if after.Err? {
        return Reject(id, RestartAmbiguous, Ambiguous);
      }
      if !after.value.Running() {
        return Reject(id, RestartDidNotStart, Ambiguous);
      }
      return Reply(id, Restarted(before, after.value));
    }

    method Persist(c: CallId, id: Id, target: string, resp: Response, io: CompleteCalls) returns (done: bool)
      requires c in tasks && tasks[c] == Call(id, target, OpeningTmp(resp))
      modifies this, journal
      ensures c in tasks && tasks[c].pc == Answered(if done then resp else CompletionFailed(id, resp))
      ensures State() == AfterComplete(old(State()), c, io)
    {
      ghost var h := State();
      done := journal.Complete(id, target, resp, io);
      CompleteRuns(h, c, resp, io);
      tasks := tasks[c := Call(id, target, Answered(if done then resp else CompletionFailed(id, resp)))];
      assert State() == At(h, c, (journal.disk, tasks[c].pc));
    }
  }
}
