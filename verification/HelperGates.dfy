/** Who gets through to the journal and to Docker, and what everybody else is told. */
module HelperGates {
  import opened Wrappers
  import opened RuntimeProtocol
  import opened StateDirectory
  import opened HelperMachine
  import HelperTheorems

  /** The helper after the first `n` events. */
  function At(config: HelperConfig, es: seq<Event>, n: nat): Helper
    requires n <= |es|
  {
    Run(Init(config), es[..n])
  }

  /** Event `n` is the arrival of this restart: protocol version, peer, credential and target are those of the
      enrolment in force then. */
  predicate Arrived(config: HelperConfig, es: seq<Event>, n: nat, c: CallId, id: Id, cfg: HelperConfig)
    requires n < |es|
  {
    var h, e := At(config, es, n), es[n];
    && e.Arrive? && e.call == c && c !in h.calls
    && h.config == cfg
    && e.request.version == 1
    && e.peer == cfg.allowedPeer
    && e.request.credential == cfg.credential
    && e.request.action == RestartContainer(cfg.target.id)
    && e.request.requestId == id
  }

  ghost predicate Admitted(config: HelperConfig, es: seq<Event>, c: CallId, id: Id, cfg: HelperConfig) {
    exists n | 0 <= n < |es| :: Arrived(config, es, n, c, id, cfg)
  }

  /** A connection on its way to a restart, or behind one. */
  predicate Mutating(pc: Pc) { !pc.InspectingOnly? && !pc.Answered? && !pc.Dead? }

  lemma {:induction false} RunSnoc(h: Helper, es: seq<Event>, e: Event)
    ensures Run(h, es + [e]) == Step(Run(h, es), e)
    decreases |es|
  {
    if es == [] {
      assert es + [e] == [e];
      assert Run(Step(h, e), []) == Step(h, e);
    } else {
      assert (es + [e])[1..] == es[1..] + [e];
      RunSnoc(Step(h, es[0]), es[1..], e);
    }
  }

  lemma AdmittedLater(config: HelperConfig, es: seq<Event>, e: Event, c: CallId, id: Id, cfg: HelperConfig)
    requires Admitted(config, es, c, id, cfg)
    ensures Admitted(config, es + [e], c, id, cfg)
  {
    var n :| 0 <= n < |es| && Arrived(config, es, n, c, id, cfg);
    assert (es + [e])[..n] == es[..n] && (es + [e])[n] == es[n];
    assert Arrived(config, es + [e], n, c, id, cfg);
  }

  lemma AdmittedNow(config: HelperConfig, es: seq<Event>, e: Event, c: CallId, id: Id, cfg: HelperConfig)
    requires var h := Run(Init(config), es);
      && e.Arrive? && e.call == c && c !in h.calls && e.request.version == 1 && e.peer == h.config.allowedPeer
      && e.request.credential == h.config.credential && e.request.action == RestartContainer(h.config.target.id)
      && e.request.requestId == id && h.config == cfg
    ensures Admitted(config, es + [e], c, id, cfg)
  {
    assert (es + [e])[..|es|] == es;
    assert Arrived(config, es + [e], |es|, c, id, cfg);
  }

  /** One step starts no restart that was not let through: it lets one arrival through, or moves on. */
  lemma StepMutates(h: Helper, e: Event, c: CallId)
    requires c in Step(h, e).calls && Mutating(Step(h, e).calls[c].pc)
    ensures Step(h, e).config == h.config
    ensures var call' := Step(h, e).calls[c];
      || (c in h.calls && Mutating(h.calls[c].pc) && h.calls[c].id == call'.id && h.calls[c].target == call'.target)
      || (&& e.Arrive? && e.call == c && c !in h.calls && e.request.version == 1 && e.peer == h.config.allowedPeer
          && e.request.credential == h.config.credential && e.request.action == RestartContainer(h.config.target.id)
          && e.request.requestId == call'.id && h.config.target.id == call'.target)
  {
    hide InspectEnrolled, Replay, CompletionFailed, Missing, MayRemain, Create, Put, SyncFile, SyncDirectory, Rename, Look;
  }

  lemma StepIssues(h: Helper, e: Event)
    ensures var h' := Step(h, e);
      || h'.issued == h.issued
      || (&& e.Launch? && e.call in h.calls && h.calls[e.call].pc.Launching? && Mutating(h.calls[e.call].pc)
          && h'.issued == h.issued + [Issue(h.calls[e.call].id, e.call, h.calls[e.call].target, h.config)])
  {
    hide InspectEnrolled, Replay, CompletionFailed, Missing, MayRemain, Create, Put, SyncFile, SyncDirectory, Rename, Look;
  }

  ghost predicate AllAdmitted(config: HelperConfig, es: seq<Event>) {
    var h := Run(Init(config), es);
    && (forall c | c in h.calls && Mutating(h.calls[c].pc) ::
          Admitted(config, es, c, h.calls[c].id, h.config) && h.calls[c].target == h.config.target.id)
    && (forall k | 0 <= k < |h.issued| :: var issue := h.issued[k];
          Admitted(config, es, issue.call, issue.id, issue.config) && issue.target == issue.config.target.id)
  }

  lemma AdmittedStep(config: HelperConfig, es: seq<Event>, e: Event)
    requires AllAdmitted(config, es)
    ensures AllAdmitted(config, es + [e])
  {
    hide Run, Step, Admitted, Mutating;
    RunSnoc(Init(config), es, e);
    var h, h' := Run(Init(config), es), Run(Init(config), es + [e]);
    forall c | c in h'.calls && Mutating(h'.calls[c].pc)
      ensures Admitted(config, es + [e], c, h'.calls[c].id, h'.config) && h'.calls[c].target == h'.config.target.id
    {
      StepMutates(h, e, c);
      if c in h.calls && Mutating(h.calls[c].pc) {
        AdmittedLater(config, es, e, c, h'.calls[c].id, h.config);
      } else {
        AdmittedNow(config, es, e, c, h'.calls[c].id, h.config);
      }
    }
    StepIssues(h, e);
    forall k | 0 <= k < |h'.issued|
      ensures var issue := h'.issued[k];
        Admitted(config, es + [e], issue.call, issue.id, issue.config) && issue.target == issue.config.target.id
    {
      AdmittedLater(config, es, e, h'.issued[k].call, h'.issued[k].id, h'.issued[k].config);
    }
  }

  lemma {:induction false} AdmittedRun(config: HelperConfig, es: seq<Event>)
    ensures AllAdmitted(config, es)
    decreases |es|
  {
    if es != [] {
      hide AllAdmitted;
      AdmittedRun(config, es[..|es| - 1]);
      AdmittedStep(config, es[..|es| - 1], es[|es| - 1]);
      assert es[..|es| - 1] + [es[|es| - 1]] == es;
    }
  }

  /** Over every run, each restart handed to Docker belongs to a connection whose request arrived with protocol
      version 1, from the allowed peer, with the credential and for the target enrolled at that moment and
      still enrolled when the restart is issued. */
  lemma IssuedWasAdmitted(config: HelperConfig, es: seq<Event>, k: nat)
    requires k < |Run(Init(config), es).issued|
    ensures var issue := Run(Init(config), es).issued[k];
      exists n | 0 <= n < |es| ::
        var h := Run(Init(config), es[..n]);
        && es[n].Arrive? && es[n].call == issue.call && issue.call !in h.calls
        && es[n].request.version == 1
        && es[n].peer == h.config.allowedPeer
        && es[n].request.credential == h.config.credential
        && es[n].request.action == RestartContainer(h.config.target.id)
        && es[n].request.requestId == issue.id && issue.target == h.config.target.id && issue.config == h.config
  {
    hide Run;
    AdmittedRun(config, es);
    var issue := Run(Init(config), es).issued[k];
    var n :| 0 <= n < |es| && Arrived(config, es, n, issue.call, issue.id, issue.config);
  }

  /** The answer an arrival gets at once, by the first of the four conditions it fails. */
  lemma ArrivalIsJudged(h: Helper, c: CallId, peer: nat, request: Request)
    requires c !in h.calls
    ensures var h' := Step(h, Arrive(c, peer, request));
      && h'.disk == h.disk && h'.issued == h.issued && h'.config == h.config
      && h'.calls == h.calls[c := Call(request.requestId, request.action.targetId, h'.calls[c].pc)]
    ensures var pc := Step(h, Arrive(c, peer, request)).calls[c].pc;
      var refused := (code: ErrorCode) => Answered(Response(1, request.requestId, false, Rejected(code, NotStarted)));
      && (request.version != 1 ==> pc == refused(ProtocolVersionUnsupported))
      && (request.version == 1 && peer != h.config.allowedPeer ==> pc == refused(PeerNotAllowed))
      && (request.version == 1 && peer == h.config.allowedPeer && request.credential != h.config.credential ==>
            pc == refused(AuthenticationFailed))
      && (request.version == 1 && peer == h.config.allowedPeer && request.credential == h.config.credential
          && request.action.targetId != h.config.target.id ==>
            pc == refused(TargetNotEnrolled))
      && (request.version == 1 && peer == h.config.allowedPeer && request.credential == h.config.credential
          && request.action.targetId == h.config.target.id ==>
            pc == if request.action.Inspect? then InspectingOnly else Opening)
  {
  }

  /** An answer once given stands. */
  lemma {:induction false} AnswerStands(h: Helper, es: seq<Event>, c: CallId)
    requires c in h.calls && h.calls[c].pc.Answered?
    ensures c in Run(h, es).calls && Run(h, es).calls[c] == h.calls[c]
    decreases |es|
  {
    if es != [] {
      AnswerStays(h, es[0], c);
      hide Step;
      AnswerStands(Step(h, es[0]), es[1..], c);
    }
  }

  lemma AnswerStays(h: Helper, e: Event, c: CallId)
    requires c in h.calls && h.calls[c].pc.Answered?
    ensures c in Step(h, e).calls && Step(h, e).calls[c] == h.calls[c]
  {
    hide InspectEnrolled, Replay, CompletionFailed, Missing, MayRemain, Create, Put, SyncFile, SyncDirectory, Rename, Look;
  }

  /** So, in every run, a request that fails one of the four conditions is told that nothing was started, which
      is true, with the code of the first it fails, and neither its arrival nor anything later changes that. */
  lemma RefusedForGood(config: HelperConfig, es: seq<Event>, c: CallId, peer: nat, request: Request, more: seq<Event>)
    requires var h := Run(Init(config), es);
      && c !in h.calls
      && !(request.version == 1 && peer == h.config.allowedPeer && request.credential == h.config.credential
           && request.action.targetId == h.config.target.id)
    ensures var h := Run(Init(config), es); var h' := Run(Step(h, Arrive(c, peer, request)), more);
      && c in h'.calls && h'.calls[c].id == request.requestId
      && h'.calls[c].pc == Answered(Response(1, request.requestId, false, Rejected(
           if request.version != 1 then ProtocolVersionUnsupported
           else if peer != h.config.allowedPeer then PeerNotAllowed
           else if request.credential != h.config.credential then AuthenticationFailed
           else TargetNotEnrolled, NotStarted)))
  {
    hide Run, Step;
    var h := Run(Init(config), es);
    ArrivalIsJudged(h, c, peer, request);
    AnswerStands(Step(h, Arrive(c, peer, request)), more, c);
  }

  // And what Docker had said.

  /** Docker runs, and id and name of the enrolled container lead to the very container enrolled, which is no
      part of the control plane. */
  predicate Passing(probe: Probe, cfg: HelperConfig) {
    && probe.daemonUp
    && probe.byName.Ok? && probe.byName.value.id == cfg.target.id
    && probe.byId.Ok?
    && var found := probe.byId.value;
       && found.id == cfg.target.id && found.name == cfg.target.name
       && found.composeProject == cfg.target.composeProject
       && found.composeProject != Some(cfg.controlPlaneProject)
       && !found.controlPlane && found.id !in cfg.denied
  }

  /** Event `m` is Docker's answer to this connection's first inspection, and passes. */
  predicate Passed(config: HelperConfig, es: seq<Event>, m: nat, c: CallId, cfg: HelperConfig)
    requires m < |es|
  {
    var h := At(config, es, m);
    && es[m].Probed? && es[m].call == c && c in h.calls && h.calls[c].pc.Inspecting? && h.config == cfg
    && Passing(es[m].probe, cfg)
  }

  ghost predicate Inspected(config: HelperConfig, es: seq<Event>, c: CallId, cfg: HelperConfig) {
    exists m | 0 <= m < |es| :: Passed(config, es, m, c, cfg)
  }

  lemma InspectedLater(config: HelperConfig, es: seq<Event>, e: Event, c: CallId, cfg: HelperConfig)
    requires Inspected(config, es, c, cfg)
    ensures Inspected(config, es + [e], c, cfg)
  {
    var m :| 0 <= m < |es| && Passed(config, es, m, c, cfg);
    assert (es + [e])[..m] == es[..m] && (es + [e])[m] == es[m];
    assert Passed(config, es + [e], m, c, cfg);
  }

  ghost predicate AllInspected(config: HelperConfig, es: seq<Event>) {
    var h := Run(Init(config), es);
    && (forall c | c in h.calls && h.calls[c].pc.Launching? :: Inspected(config, es, c, h.config))
    && (forall k | 0 <= k < |h.issued| :: Inspected(config, es, h.issued[k].call, h.issued[k].config))
  }

  lemma StepLaunches(h: Helper, e: Event, c: CallId)
    requires c in Step(h, e).calls && Step(h, e).calls[c].pc.Launching?
    ensures Step(h, e).config == h.config
    ensures
      || (c in h.calls && h.calls[c].pc.Launching?)
      || (e.Probed? && e.call == c && c in h.calls && h.calls[c].pc.Inspecting? && Passing(e.probe, h.config))
  {
    hide Replay, CompletionFailed, Missing, MayRemain, Create, Put, SyncFile, SyncDirectory, Rename, Look;
  }

  lemma InspectedStep(config: HelperConfig, es: seq<Event>, e: Event)
    requires AllInspected(config, es)
    ensures AllInspected(config, es + [e])
  {
    hide Run, Step, Inspected;
    RunSnoc(Init(config), es, e);
    var h, h' := Run(Init(config), es), Run(Init(config), es + [e]);
    forall c | c in h'.calls && h'.calls[c].pc.Launching? ensures Inspected(config, es + [e], c, h'.config) {
      StepLaunches(h, e, c);
      if c in h.calls && h.calls[c].pc.Launching? {
        InspectedLater(config, es, e, c, h.config);
      } else {
        InspectedNow(config, es, e, c, h.config);
      }
    }
    StepIssues(h, e);
    forall k | 0 <= k < |h'.issued| ensures Inspected(config, es + [e], h'.issued[k].call, h'.issued[k].config) {
      InspectedLater(config, es, e, h'.issued[k].call, h'.issued[k].config);
    }
  }

  lemma InspectedNow(config: HelperConfig, es: seq<Event>, e: Event, c: CallId, cfg: HelperConfig)
    requires var h := Run(Init(config), es);
      && e.Probed? && e.call == c && c in h.calls && h.calls[c].pc.Inspecting? && h.config == cfg
      && Passing(e.probe, cfg)
    ensures Inspected(config, es + [e], c, cfg)
  {
    assert (es + [e])[..|es|] == es;
    assert Passed(config, es + [e], |es|, c, cfg);
  }

  lemma {:induction false} InspectedRun(config: HelperConfig, es: seq<Event>)
    ensures AllInspected(config, es)
    decreases |es|
  {
    if es != [] {
      hide AllInspected;
      InspectedRun(config, es[..|es| - 1]);
      InspectedStep(config, es[..|es| - 1], es[|es| - 1]);
      assert es[..|es| - 1] + [es[|es| - 1]] == es;
    }
  }

  /** Over every run, each restart was issued after an inspection for the same connection that passed under the
      enrolment in force. */
  lemma IssuedWasInspected(config: HelperConfig, es: seq<Event>, k: nat)
    requires k < |Run(Init(config), es).issued|
    ensures var issue := Run(Init(config), es).issued[k]; var cfg := issue.config;
      exists m | 0 <= m < |es| ::
        var h := Run(Init(config), es[..m]);
        && es[m].Probed? && es[m].call == issue.call && issue.call in h.calls && h.calls[issue.call].pc.Inspecting?
        && h.config == cfg && es[m].probe.daemonUp
        && es[m].probe.byName.Ok? && es[m].probe.byName.value.id == cfg.target.id
        && es[m].probe.byId.Ok?
        && var found := es[m].probe.byId.value;
           && found.id == cfg.target.id && found.name == cfg.target.name
           && found.composeProject == cfg.target.composeProject
           && found.composeProject != Some(cfg.controlPlaneProject)
           && !found.controlPlane && found.id !in cfg.denied
  {
    hide Run;
    InspectedRun(config, es);
    var issue := Run(Init(config), es).issued[k];
    var m :| 0 <= m < |es| && Passed(config, es, m, issue.call, issue.config);
  }

  // What a rejection says.

  /** The code of a failed inspection, by what Docker said first. */
  lemma InspectionIsJudged(config: HelperConfig, probe: Probe)
    ensures var r := InspectEnrolled(config, probe); var byId, byName := probe.byId, probe.byName;
      && (!probe.daemonUp ==> r == Err(DockerDaemonUnavailable))
      && (probe.daemonUp ==>
            && (byId.Err? ==> r == Err(Unanswered(byId.error)))
            && (byId.Ok? && byName.Err? ==> r == Err(Unanswered(byName.error)))
            && (byId.Ok? && byName.Ok? ==>
                  var found, target := byId.value, config.target;
                  var same := found.id == target.id == byName.value.id && found.name == target.name;
                  var ours := found.controlPlane || found.id in config.denied;
                  var beside := found.composeProject == Some(config.controlPlaneProject);
                  && (!same ==> r == Err(TargetReplaced))
                  && (same && ours ==> r == Err(ControlPlaneTarget))
                  && (same && !ours && beside ==> r == Err(SameControlPlaneProject))
                  && (same && !ours && !beside ==>
                        r == if found.composeProject == target.composeProject then Ok(found) else Err(TargetReplaced))))
  {
  }

  /** A container that is gone is one thing, a command that failed another, the rest is Docker not answering. */
  function Unanswered(error: BackendError): ErrorCode {
    if error == NotFound then TargetDisappeared
    else if error in {CommandFailed, InvalidInspectOutput} then InternalError
    else DockerDaemonUnavailable
  }

  /** What a connection that finds its name taken is told, by what it reads. */
  lemma RepeatIsJudged(h: Helper, c: CallId, ok: bool, landed: bool, inode: Inode)
    requires c in h.calls && h.calls[c].pc.Reading?
    ensures var h' := Step(h, Event.Io(c, ok, landed, inode)); var call := h.calls[c];
      var now := Look(h.disk, Json(call.id)).now;
      var unread := Response(1, call.id, false, Rejected(InternalError, NotStarted));
      var unfinished := Response(1, call.id, false, Rejected(DuplicateAmbiguous, Ambiguous));
      && c in h'.calls && h'.disk == h.disk && h'.issued == h.issued
      && h'.calls[c].pc == Answered(
           if !ok || now.None? || now.value !in h.disk.files || h.disk.files[now.value].now.Torn? then unread
           else
             var r := h.disk.files[now.value].now.record;
             if r.requestId == call.id && r.targetId == call.target && r.status == Finished && r.response.Some?
             then Response(r.response.value.version, r.response.value.requestId, true, r.response.value.outcome)
             else unfinished)
  {
  }

  /** When the completion cannot be made durable, a rejection is still what it was, while a restart that was
      made becomes an ambiguity. */
  lemma UnpersistedIsJudged(h: Helper, c: CallId, landed: bool, inode: Inode)
    requires c in h.calls && Completing(h.calls[c].pc)
    requires var pc := h.calls[c].pc;
      && (pc.WritingTmp? ==> pc.f in h.disk.files) && (pc.SyncingTmp? ==> pc.f in h.disk.files)
    ensures var h' := Step(h, Event.Io(c, false, landed, inode)); var resp := h.calls[c].pc.resp;
      c in h'.calls && h'.issued == h.issued && h'.calls[c].pc == Answered(
        if resp.outcome.Rejected? then resp else Response(1, h.calls[c].id, false, Rejected(InternalError, Ambiguous)))
  {
    hide Put, SyncFile, SyncDirectory, Rename, Create;
  }

  /** An answer that claims a restart shows the enrolled container running after it. */
  lemma SuccessMeansRunning(config: HelperConfig, es: seq<Event>, c: CallId)
    requires var h := Run(Init(config), es);
      c in h.calls && h.calls[c].pc.Answered? && h.calls[c].pc.resp.ClaimsRestarted()
    ensures var h := Run(Init(config), es); var success := h.calls[c].pc.resp.outcome.success;
      && success.after.status == "running"
      && success.before.id == success.after.id == h.calls[c].target
  {
    HelperTheorems.AnswersAreSound(config, es, c);
  }
}
