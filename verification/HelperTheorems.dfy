/** The guarantees of the runtime helper over every run from an empty state directory. */
module HelperTheorems {
  import opened Wrappers
  import opened RuntimeProtocol
  import opened StateDirectory
  import opened HelperMachine
  import opened HelperSafety

  lemma InitInv(config: HelperConfig)
    ensures Inv(Init(config))
  {
  }

  lemma {:induction false} RunInv(h: Helper, es: seq<Event>)
    requires Inv(h)
    ensures Inv(Run(h, es))
    decreases |es|
  {
    if es != [] {
      StepInv(h, es[0]);
      RunInv(Step(h, es[0]), es[1..]);
    }
  }

  /** However connections interleave, abort, repeat and crash, and whatever is re-enrolled, no request
      id has its restart command issued twice. */
  lemma AtMostOneRestart(config: HelperConfig, es: seq<Event>, j: nat, k: nat)
    requires j < k < |Run(Init(config), es).issued|
    ensures Run(Init(config), es).issued[j].id != Run(Init(config), es).issued[k].id
  {
    InitInv(config);
    RunInv(Init(config), es);
  }

  /** Whatever a crash may leave in the journal of `id` is torn, a start marker, or a completion whose
      response is true: a success had one restart with both inspections passing and the container
      running after it, and a rejection had none. */
  lemma JournalTruth(config: HelperConfig, es: seq<Event>, id: Id, f: Inode, r: Record)
    requires var d := Run(Init(config), es).disk;
      Some(f) in Look(d, Json(id)).maybe && f in d.files && Whole(r) in d.files[f].maybe
    ensures r.requestId == id
    ensures r.status.Started? ==> r.response.None?
    ensures r.status.Finished? ==> r.response.Some? && Truthful(Run(Init(config), es), id, r.targetId, r.response.value)
  {
    InitInv(config);
    RunInv(Init(config), es);
    var h := Run(Init(config), es);
    assert RecordOk(h, h.disk.files[f].owner, r);
  }

  lemma NeverRestartsStep(h: Helper, e: Event, id: Id)
    requires Inv(h) && NeverRestarts(h, id)
    ensures NeverRestarts(Step(h, e), id)
  {
    StepInv(h, e);
    NeverRestartsLater(h, Step(h, e), id);
  }

  lemma NeverRestartsLater(h: Helper, h': Helper, id: Id)
    requires Later(h, h') && NeverRestarts(h, id)
    ensures NeverRestarts(h', id)
  {
  }

  lemma {:induction false} NeverRestartsLong(h: Helper, es: seq<Event>, id: Id)
    requires Inv(h) && NeverRestarts(h, id)
    ensures NeverRestarts(Run(h, es), id)
    decreases |es|
  {
    if es != [] {
      NeverRestartsStep(h, es[0], id);
      StepInv(h, es[0]);
      NeverRestartsLong(Step(h, es[0]), es[1..], id);
    }
  }

  /** A journalled rejection is final: once any file a crash may leave under the request's name holds one,
      no restart of that id was issued and none is in any later run. */
  lemma RejectionIsFinal(config: HelperConfig, es: seq<Event>, id: Id, f: Inode, r: Record, more: seq<Event>)
    requires var d := Run(Init(config), es).disk;
      Some(f) in Look(d, Json(id)).maybe && f in d.files && Whole(r) in d.files[f].maybe
    requires r.status.Finished? && r.response.Some? && r.response.value.outcome.Rejected?
    ensures forall k | 0 <= k < |Run(Run(Init(config), es), more).issued| ::
      Run(Run(Init(config), es), more).issued[k].id != id
  {
    hide Inv, Run, Step;
    JournalTruth(config, es, id, f, r);
    InitInv(config);
    RunInv(Init(config), es);
    NeverRestartsLong(Run(Init(config), es), more, id);
  }

  /** Once a completion is settled, no interleaving, abort or crash changes what the journal says. */
  lemma {:induction false} SettledForever(h: Helper, es: seq<Event>, id: Id, r: Record)
    requires Inv(h) && Settled(h, id, r)
    ensures Settled(Run(h, es), id, r)
    decreases |es|
  {
    if es != [] {
      StepInv(h, es[0]);
      SettledStays(h, Step(h, es[0]), id, r);
      SettledForever(Step(h, es[0]), es[1..], id, r);
    }
  }

  /** A reply of success survives: after any later run, a repeat of the request that finds the name
      taken and can read it is answered with the same result, marked duplicate. */
  lemma SuccessIsReplayed(config: HelperConfig, es: seq<Event>, c: CallId, more: seq<Event>, c': CallId, landed: bool,
    inode: Inode)
    requires var h := Run(Init(config), es);
      c in h.calls && h.calls[c].pc.Answered? && h.calls[c].pc.resp.ClaimsRestarted() && !h.calls[c].pc.resp.duplicate
    requires var h := Run(Init(config), es); var h' := Run(h, more);
      && c' in h'.calls && h'.calls[c'].pc.Reading?
      && h'.calls[c'].id == h.calls[c].id && h'.calls[c'].target == h.calls[c].target
    ensures var h := Run(Init(config), es);
      var h' := Step(Run(h, more), Event.Io(c', true, landed, inode));
      c' in h'.calls && h'.calls[c'].pc == Answered(h.calls[c].pc.resp.(duplicate := true))
  {
    hide Inv, Run, Settled;
    InitInv(config);
    RunInv(Init(config), es);
    var h := Run(Init(config), es);
    var call, resp := h.calls[c], h.calls[c].pc.resp;
    AnsweredIsSettled(h, c);
    SettledForever(h, more, call.id, FinishedRecord(call, resp));
    RunInv(h, more);
    SettledReads(Run(h, more), c', call.id, FinishedRecord(call, resp), landed, inode);
  }

  lemma AnsweredIsSettled(h: Helper, c: CallId)
    requires Inv(h) && c in h.calls && h.calls[c].pc.Answered?
    requires h.calls[c].pc.resp.ClaimsRestarted() && !h.calls[c].pc.resp.duplicate
    ensures Settled(h, h.calls[c].id, FinishedRecord(h.calls[c], h.calls[c].pc.resp))
  {
    assert PcOk(h, c);
  }

  /** Reading a settled record answers with its response, marked duplicate. */
  lemma SettledReads(h: Helper, c: CallId, id: Id, r: Record, landed: bool, inode: Inode)
    requires Inv(h) && Settled(h, id, r) && r.requestId == id && r.status.Finished? && r.response.Some?
    requires c in h.calls && h.calls[c].pc.Reading? && h.calls[c].id == id && h.calls[c].target == r.targetId
    ensures var h' := Step(h, Event.Io(c, true, landed, inode));
      c in h'.calls && h'.calls[c].pc == Answered(r.response.value.(duplicate := true))
  {
    hide PcsOk, RecordsOk, OwnersOk, IssuesOk;
    var d := h.disk;
    var f := Look(d, Json(id)).now;
    assert f in Look(d, Json(id)).maybe;
    assert Some(f.value) in Look(d, Json(id)).maybe;
    assert d.files[f.value].now in d.files[f.value].maybe;
    assert d.files[f.value].now == Whole(r);
  }

  /** A repeat never restarts: it is answered from the journal with the recorded result marked
      duplicate, with an ambiguity, or, when the record cannot be read, with a refusal. */
  lemma RepeatNeverRestarts(config: HelperConfig, es: seq<Event>, c: CallId, ok: bool, landed: bool, inode: Inode)
    requires c in Run(Init(config), es).calls && Run(Init(config), es).calls[c].pc.Reading?
    ensures var h := Run(Init(config), es); var h' := Step(h, Event.Io(c, ok, landed, inode));
      && h'.issued == h.issued && h'.disk == h.disk && !IssuedBy(h', c) && c in h'.calls && h'.calls[c].pc.Answered?
      && var resp := h'.calls[c].pc.resp;
         && (resp.duplicate ==> ok && Truthful(h, h.calls[c].id, h.calls[c].target, resp.(duplicate := false)))
         && (!resp.duplicate ==>
               resp == ClaimFailed(h.calls[c].id) || resp == Reject(h.calls[c].id, DuplicateAmbiguous, Ambiguous))
  {
    InitInv(config);
    RunInv(Init(config), es);
    var h := Run(Init(config), es);
    NotIssuedYet(h, c);
    var now := Look(h.disk, Json(h.calls[c].id)).now;
    if now.Some? {
      assert Some(now.value) in Look(h.disk, Json(h.calls[c].id)).maybe;
      var x := h.disk.files[now.value].now;
      assert x.Whole? ==> RecordOk(h, h.calls[c].id, x.record);
    }
  }

  /** What an answer proves about its own call: NotStarted means this call issued nothing; a fresh
      success means it issued the one restart of its id; a call that issued one answers success or
      Ambiguous, never NotStarted. */
  lemma AnswersAreSound(config: HelperConfig, es: seq<Event>, c: CallId)
    requires c in Run(Init(config), es).calls && Run(Init(config), es).calls[c].pc.Answered?
    ensures var h := Run(Init(config), es); var call := h.calls[c]; var resp := call.pc.resp;
      && resp.requestId == call.id
      && (resp.ClaimsNotStarted() ==> !IssuedBy(h, c))
      && (resp.ClaimsRestarted() ==> Proven(h, call.id, call.target, resp.outcome.success.before, resp.outcome.success.after))
      && (resp.ClaimsRestarted() && !resp.duplicate ==> IssuedBy(h, c))
      && (IssuedBy(h, c) ==>
            (resp.ClaimsRestarted() && !resp.duplicate) || (resp.outcome.Rejected? && resp.outcome.mutation == Ambiguous))
  {
    InitInv(config);
    RunInv(Init(config), es);
    assert PcOk(Run(Init(config), es), c);
  }
}
