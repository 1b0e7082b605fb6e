/** What every run of the helper keeps: no request id is ever restarted twice. */
module HelperSafety {
  import opened Wrappers
  import opened RuntimeProtocol
  import opened StateDirectory
  import opened HelperMachine

  // A call past its exclusive create that has not sent the restart yet.
  predicate MayRestart(pc: Pc) {
    pc.Writing? || pc.Syncing? || pc.SyncingClaim? || pc.Inspecting? || pc.Launching?
  }

  predicate Claimed(pc: Pc) {
    pc.Inspecting? || pc.Launching? || pc.Restarting? || pc.Proving? || Completing(pc)
  }

  predicate Owns(pc: Pc) { MayRestart(pc) || Claimed(pc) }

  predicate Past(pc: Pc) {
    pc.Restarting? || pc.Proving? || (Completing(pc) && pc.resp.outcome.Succeeded?) || pc.Answered? || pc.Dead?
  }

  /** No crash can make the journal name of `id` disappear any more. */
  predicate Entrenched(d: Disk, id: Id) { None !in Look(d, Json(id)).maybe }

  ghost predicate IssuedBy(h: Helper, c: CallId) {
    exists k :: 0 <= k < |h.issued| && h.issued[k].call == c
  }

  ghost predicate Logged(h: Helper, id: Id) {
    exists k :: 0 <= k < |h.issued| && h.issued[k].id == id
  }

  /** A restart of `target` for `id` was issued, and both inspections passed that call's enrolment. */
  ghost predicate Proven(h: Helper, id: Id, target: string, before: ContainerState, after: ContainerState) {
    exists k :: 0 <= k < |h.issued| && h.issued[k].id == id && h.issued[k].target == target
      && Enrolled(h.issued[k].config, before) && Enrolled(h.issued[k].config, after)
      && before.id == target && after.id == target && after.Running()
  }

  /** No restart of `id` was issued, and none can be from here on. */
  ghost predicate NeverRestarts(h: Helper, id: Id) {
    && Entrenched(h.disk, id)
    && !Logged(h, id)
    && forall c | c in h.calls && h.calls[c].id == id :: !MayRestart(h.calls[c].pc)
  }

  /** What a response written to the journal asserts about the world. */
  ghost predicate Truthful(h: Helper, id: Id, target: string, resp: Response) {
    && resp.requestId == id && !resp.duplicate && resp.version == PROTOCOL_VERSION
    && match resp.outcome
       case Succeeded(Restarted(before, after)) => Proven(h, id, target, before, after)
       case Succeeded(Inspected(_)) => false
       case Rejected(_, mutation) => mutation == NotStarted && NeverRestarts(h, id)
  }

  ghost predicate RecordOk(h: Helper, id: Id, r: Record) {
    && r.requestId == id
    && match r.status
       case Started => r.response.None?
       case Finished => r.response.Some? && Truthful(h, id, r.targetId, r.response.value)
  }

  /** Every crash from here on leaves exactly record `r` under the journal name of `id`. */
  ghost predicate Settled(h: Helper, id: Id, r: Record) {
    && Entrenched(h.disk, id)
    && (forall f :: Some(f) in Look(h.disk, Json(id)).maybe ==>
          f in h.disk.files && h.disk.files[f].maybe == {Whole(r)})
    && NoOwner(h, id)
  }

  ghost predicate NoOwner(h: Helper, id: Id) {
    forall c | c in h.calls && h.calls[c].id == id :: !Owns(h.calls[c].pc)
  }

  ghost predicate DiskOk(d: Disk) {
    && (forall n | n in d.names :: d.names[n].now in d.names[n].maybe)
    && (forall n, f | n in d.names && Some(f) in d.names[n].maybe :: f in d.files && d.files[f].owner == n.id)
    && (forall f | f in d.files :: d.files[f].now in d.files[f].maybe)
  }

  ghost predicate RecordsOk(h: Helper) {
    forall f, x | f in h.disk.files && x in h.disk.files[f].maybe && x.Whole? :: RecordOk(h, h.disk.files[f].owner, x.record)
  }

  ghost predicate OwnersOk(h: Helper) {
    && (forall c | c in h.calls && Owns(h.calls[c].pc) :: !Missing(h.disk, h.calls[c].id))
    && (forall c | c in h.calls && Claimed(h.calls[c].pc) :: Entrenched(h.disk, h.calls[c].id))
    && (forall c, c' | c in h.calls && c' in h.calls && h.calls[c].id == h.calls[c'].id
          && Owns(h.calls[c].pc) && Owns(h.calls[c'].pc) :: c == c')
  }

  ghost predicate IssuesOk(h: Helper) {
    && (forall k | 0 <= k < |h.issued| ::
          var i := h.issued[k];
          && i.call in h.calls && h.calls[i.call].id == i.id && h.calls[i.call].target == i.target
          && Past(h.calls[i.call].pc) && Entrenched(h.disk, i.id))
    && (forall k, c | 0 <= k < |h.issued| && c in h.calls && h.calls[c].id == h.issued[k].id :: !MayRestart(h.calls[c].pc))
    && (forall j, k | 0 <= j < k < |h.issued| :: h.issued[j].id != h.issued[k].id)
  }

  /** The issue of a live call happened under the enrolment that is still in force. */
  ghost predicate IssuedNow(h: Helper, c: CallId) {
    exists k :: 0 <= k < |h.issued| && h.issued[k].call == c && h.issued[k].config == h.config
  }

  ghost predicate Holds(h: Helper, f: Inode, id: Id) {
    f in h.disk.files && h.disk.files[f].owner == id
  }

  ghost predicate PcOk(h: Helper, c: CallId)
    requires c in h.calls
  {
    var call := h.calls[c];
    var d := h.disk;
    match call.pc
    case Opening => call.target == h.config.target.id
    case Writing(f) => call.target == h.config.target.id && Holds(h, f, call.id)
    case Syncing(f) => call.target == h.config.target.id && Holds(h, f, call.id)
    case SyncingClaim => call.target == h.config.target.id
    case Inspecting => call.target == h.config.target.id
    case Launching(before) => call.target == h.config.target.id && Enrolled(h.config, before)
    case Restarting(before) => call.target == h.config.target.id && Enrolled(h.config, before) && IssuedNow(h, c)
    case Proving(before) => call.target == h.config.target.id && Enrolled(h.config, before) && IssuedNow(h, c)
    case OpeningTmp(resp) => Truthful(h, call.id, call.target, resp) && (resp.outcome.Succeeded? ==> IssuedBy(h, c))
    case WritingTmp(resp, f) =>
      && Truthful(h, call.id, call.target, resp) && (resp.outcome.Succeeded? ==> IssuedBy(h, c))
      && Holds(h, f, call.id) && Look(d, Tmp(call.id)).now == Some(f)
    case SyncingTmp(resp, f) =>
      && Truthful(h, call.id, call.target, resp) && (resp.outcome.Succeeded? ==> IssuedBy(h, c))
      && Holds(h, f, call.id) && Look(d, Tmp(call.id)).now == Some(f)
      && d.files[f].now == Whole(FinishedRecord(call, resp))
    case Renaming(resp, f) =>
      && Truthful(h, call.id, call.target, resp) && (resp.outcome.Succeeded? ==> IssuedBy(h, c))
      && Holds(h, f, call.id) && Look(d, Tmp(call.id)).now == Some(f)
      && d.files[f].maybe == {Whole(FinishedRecord(call, resp))}
    case SyncingRename(resp, f) =>
      && Truthful(h, call.id, call.target, resp) && (resp.outcome.Succeeded? ==> IssuedBy(h, c))
      && Holds(h, f, call.id) && Look(d, Json(call.id)).now == Some(f)
      && d.files[f].maybe == {Whole(FinishedRecord(call, resp))}
    case Answered(resp) => AnswerOk(h, c, resp)
    case _ => true
  }

  /** What a reply tells the caller about its own call. */
  ghost predicate AnswerOk(h: Helper, c: CallId, resp: Response)
    requires c in h.calls
  {
    var call := h.calls[c];
    && resp.requestId == call.id
    && (resp.ClaimsNotStarted() ==> !IssuedBy(h, c))
    && (resp.ClaimsRestarted() ==> Proven(h, call.id, call.target, resp.outcome.success.before, resp.outcome.success.after))
    && (resp.ClaimsRestarted() && !resp.duplicate ==> IssuedBy(h, c) && Settled(h, call.id, FinishedRecord(call, resp)))
    && (IssuedBy(h, c) ==>
          (resp.ClaimsRestarted() && !resp.duplicate) || (resp.outcome.Rejected? && resp.outcome.mutation == Ambiguous))
  }

  ghost predicate PcsOk(h: Helper) {
    forall c | c in h.calls :: PcOk(h, c)
  }

  ghost predicate Inv(h: Helper) {
    DiskOk(h.disk) && RecordsOk(h) && OwnersOk(h) && IssuesOk(h) && PcsOk(h)
  }

  /** `d'` came from `d` by calls working on `id` alone; syncing may only narrow what others can lose. */
  ghost predicate DiskLater(d: Disk, d': Disk, id: Id) {
    && DiskOk(d')
    && (forall n: Name | n.id != id :: Look(d', n).now == Look(d, n).now && Look(d', n).maybe <= Look(d, n).maybe)
    && (forall f | f in d.files :: f in d'.files && d'.files[f].owner == d.files[f].owner)
    && (forall f | f in d.files && d.files[f].owner != id :: d'.files[f] == d.files[f])
    && (forall f | f in d'.files && f !in d.files :: d'.files[f].owner == id)
    && (Entrenched(d, id) ==> Entrenched(d', id))
  }

  lemma CreateLater(d: Disk, n: Name, f: Inode)
    requires DiskOk(d) && f !in d.files
    ensures DiskLater(d, Create(d, n, f), n.id)
  {
  }

  lemma PutLater(d: Disk, f: Inode, x: Content)
    requires DiskOk(d) && f in d.files
    ensures DiskLater(d, Put(d, f, x), d.files[f].owner)
  {
  }

  lemma SyncFileLater(d: Disk, f: Inode)
    requires DiskOk(d) && f in d.files
    ensures DiskLater(d, SyncFile(d, f), d.files[f].owner)
  {
  }

  lemma RenameLater(d: Disk, id: Id)
    requires DiskOk(d) && Look(d, Tmp(id)).now.Some?
    ensures DiskLater(d, Rename(d, id), id)
  {
  }

  lemma SyncDirectoryLater(d: Disk, id: Id)
    requires DiskOk(d)
    ensures DiskLater(d, SyncDirectory(d), id)
    ensures !Missing(d, id) ==> Entrenched(SyncDirectory(d), id)
  {
  }

  /** What stays true of the rest of the helper while it moves on. */
  ghost predicate Later(h: Helper, h': Helper) {
    && |h.issued| <= |h'.issued| && (forall k | 0 <= k < |h.issued| :: h'.issued[k] == h.issued[k])
    && (forall k | |h.issued| <= k < |h'.issued| ::
          var i := h'.issued[k]; i.call in h.calls && h.calls[i.call].id == i.id && MayRestart(h.calls[i.call].pc))
    && (forall id | Entrenched(h.disk, id) :: Entrenched(h'.disk, id))
    && (forall c | c in h'.calls && MayRestart(h'.calls[c].pc) && Entrenched(h.disk, h'.calls[c].id) ::
          c in h.calls && h.calls[c].id == h'.calls[c].id && MayRestart(h.calls[c].pc))
  }

  lemma TruthfulStays(h: Helper, h': Helper, id: Id, target: string, resp: Response)
    requires Later(h, h') && Truthful(h, id, target, resp)
    ensures Truthful(h', id, target, resp)
  {
  }

  lemma RecordsStay(h: Helper, h': Helper)
    requires Later(h, h') && RecordsOk(h)
    requires forall f, x | f in h'.disk.files && x in h'.disk.files[f].maybe && x.Whole? ::
      || (f in h.disk.files && h.disk.files[f].owner == h'.disk.files[f].owner && x in h.disk.files[f].maybe)
      || RecordOk(h', h'.disk.files[f].owner, x.record)
    ensures RecordsOk(h')
  {
    forall f, x | f in h'.disk.files && x in h'.disk.files[f].maybe && x.Whole?
      ensures RecordOk(h', h'.disk.files[f].owner, x.record)
    {
      if !RecordOk(h', h'.disk.files[f].owner, x.record) {
        assert RecordOk(h, h.disk.files[f].owner, x.record);
        if x.record.status.Finished? {
          TruthfulStays(h, h', h.disk.files[f].owner, x.record.targetId, x.record.response.value);
        }
      }
    }
  }

  /** Nothing about the files of `id` got less certain. */
  ghost predicate Undisturbed(h: Helper, h': Helper, id: Id) {
    && Look(h'.disk, Json(id)).maybe <= Look(h.disk, Json(id)).maybe
    && (forall f | f in h.disk.files && h.disk.files[f].owner == id ::
          f in h'.disk.files && h'.disk.files[f].now in h'.disk.files[f].maybe
            && h'.disk.files[f].maybe <= h.disk.files[f].maybe)
    && NoOwner(h', id)
  }

  lemma SettledStays(h: Helper, h': Helper, id: Id, r: Record)
    requires DiskOk(h.disk) && Settled(h, id, r) && Later(h, h') && Undisturbed(h, h', id)
    ensures Settled(h', id, r)
  {
    forall f | Some(f) in Look(h'.disk, Json(id)).maybe
      ensures f in h'.disk.files && h'.disk.files[f].maybe == {Whole(r)}
    {
      assert Some(f) in Look(h.disk, Json(id)).maybe;
    }
  }

  lemma AnswerStays(h: Helper, h': Helper, c: CallId, resp: Response)
    requires DiskOk(h.disk) && Later(h, h') && c in h.calls && c in h'.calls && h'.calls[c] == h.calls[c]
    requires h.calls[c].pc.Answered?
    requires AnswerOk(h, c, resp)
    requires Entrenched(h.disk, h.calls[c].id) && NoOwner(h, h.calls[c].id) ==> Undisturbed(h, h', h.calls[c].id)
    ensures AnswerOk(h', c, resp)
  {
    assert !IssuedBy(h, c) ==> !IssuedBy(h', c);
    if resp.ClaimsRestarted() && !resp.duplicate {
      SettledStays(h, h', h.calls[c].id, FinishedRecord(h.calls[c], resp));
    }
  }

  /** A call that did not move keeps its facts when the others' work leaves its own files alone. */
  lemma PcStays(h: Helper, h': Helper, c: CallId)
    requires DiskOk(h.disk) && Later(h, h') && h'.config == h.config
    requires c in h.calls && c in h'.calls && h'.calls[c] == h.calls[c] && PcOk(h, c)
    requires Owns(h.calls[c].pc) ==>
      && Look(h'.disk, Tmp(h.calls[c].id)).now == Look(h.disk, Tmp(h.calls[c].id)).now
      && Look(h'.disk, Json(h.calls[c].id)).now == Look(h.disk, Json(h.calls[c].id)).now
      && (forall f | f in h.disk.files && h.disk.files[f].owner == h.calls[c].id ::
            f in h'.disk.files && h'.disk.files[f] == h.disk.files[f])
    requires Entrenched(h.disk, h.calls[c].id) && NoOwner(h, h.calls[c].id) ==> Undisturbed(h, h', h.calls[c].id)
    ensures PcOk(h', c)
  {
    var call := h.calls[c];
    if Completing(call.pc) {
      TruthfulStays(h, h', call.id, call.target, call.pc.resp);
    } else if call.pc.Answered? {
      AnswerStays(h, h', c, call.pc.resp);
    }
  }

  /** Call `c` moved on, changing the disk only where it may. */
  ghost predicate Moved(h: Helper, h': Helper, c: CallId)
    requires c in h.calls
  {
    var id := h.calls[c].id;
    && h'.config == h.config && h'.issued == h.issued
    && c in h'.calls && h'.calls == h.calls[c := h.calls[c].(pc := h'.calls[c].pc)]
    && DiskLater(h.disk, h'.disk, id)
    && var pc, pc' := h.calls[c].pc, h'.calls[c].pc;
    && (h'.disk != h.disk ==> Owns(pc) || Missing(h.disk, id))
    && (Owns(pc') ==> !Missing(h'.disk, id) && (Owns(pc) || Missing(h.disk, id)))
    && (MayRestart(pc') ==> MayRestart(pc) || Missing(h.disk, id))
    && (Claimed(pc') ==> Owns(pc) && Entrenched(h'.disk, id))
    && (Past(pc) ==> Past(pc'))
  }

  lemma MovedLater(h: Helper, h': Helper, c: CallId)
    requires DiskOk(h.disk) && c in h.calls && Moved(h, h', c)
    ensures Later(h, h')
  {
  }

  lemma MovedOwners(h: Helper, h': Helper, c: CallId)
    requires DiskOk(h.disk) && OwnersOk(h) && c in h.calls && Moved(h, h', c)
    ensures OwnersOk(h')
  {
    forall d | d in h'.calls && Owns(h'.calls[d].pc) ensures !Missing(h'.disk, h'.calls[d].id) {
      assert d != c ==> !Missing(h.disk, h.calls[d].id);
    }
  }

  lemma MovedIssues(h: Helper, h': Helper, c: CallId)
    requires DiskOk(h.disk) && IssuesOk(h) && c in h.calls && Moved(h, h', c)
    ensures IssuesOk(h')
  {
    MovedLater(h, h', c);
    forall k, d | 0 <= k < |h'.issued| && d in h'.calls && h'.calls[d].id == h'.issued[k].id
      ensures !MayRestart(h'.calls[d].pc)
    {
      assert Entrenched(h.disk, h.issued[k].id);
      assert !MayRestart(h.calls[d].pc);
    }
  }

  lemma MovedPcs(h: Helper, h': Helper, c: CallId)
    requires DiskOk(h.disk) && OwnersOk(h) && PcsOk(h) && c in h.calls && Moved(h, h', c)
    requires PcOk(h', c)
    ensures PcsOk(h')
  {
    MovedLater(h, h', c);
    forall d | d in h'.calls ensures PcOk(h', d) {
      if d != c {
        assert PcOk(h, d);
        PcStays(h, h', d);
      }
    }
  }

  /** Others move on without making the files of an ownerless, entrenched id any less certain. */
  ghost predicate Progress(h: Helper, h': Helper) {
    && Later(h, h')
    && forall id | Entrenched(h.disk, id) && NoOwner(h, id) :: Undisturbed(h, h', id)
  }

  lemma MovedProgress(h: Helper, h': Helper, c: CallId)
    requires DiskOk(h.disk) && c in h.calls && Moved(h, h', c)
    ensures Progress(h, h')
  {
    MovedLater(h, h', c);
    forall id | Entrenched(h.disk, id) && NoOwner(h, id) ensures Undisturbed(h, h', id) {
      if id == h.calls[c].id {
        assert !Owns(h.calls[c].pc) && !Missing(h.disk, id);
      }
    }
  }

  lemma MoveInv(h: Helper, h': Helper, c: CallId)
    requires Inv(h) && c in h.calls && Moved(h, h', c) && PcOk(h', c)
    requires forall f, x | f in h'.disk.files && x in h'.disk.files[f].maybe && x.Whole? ::
      || (f in h.disk.files && h.disk.files[f].owner == h'.disk.files[f].owner && x in h.disk.files[f].maybe)
      || RecordOk(h', h'.disk.files[f].owner, x.record)
    ensures Inv(h') && Progress(h, h')
  {
    MovedProgress(h, h', c);
    MovedOwners(h, h', c);
    MovedIssues(h, h', c);
    MovedPcs(h, h', c);
    RecordsStay(h, h');
  }

  lemma PcFact(h: Helper, c: CallId)
    requires Inv(h) && c in h.calls
    ensures PcOk(h, c) && DiskOk(h.disk)
  {
  }

  /** A step that leaves the disk alone. */
  lemma GotoInv(h: Helper, c: CallId, pc: Pc)
    requires Inv(h) && c in h.calls
    requires PcOk(Goto(h, c, pc), c)
    requires MayRestart(pc) ==> MayRestart(h.calls[c].pc)
    requires Claimed(pc) ==> Claimed(h.calls[c].pc)
    requires Past(h.calls[c].pc) ==> Past(pc)
    ensures Inv(Goto(h, c, pc)) && Progress(h, Goto(h, c, pc))
  {
    MoveInv(h, Goto(h, c, pc), c);
  }

  lemma NotIssuedYet(h: Helper, c: CallId)
    requires Inv(h) && c in h.calls && !Past(h.calls[c].pc)
    ensures !IssuedBy(h, c)
    ensures MayRestart(h.calls[c].pc) ==> !Logged(h, h.calls[c].id)
  {
    forall k | 0 <= k < |h.issued|
      ensures h.issued[k].call != c && (MayRestart(h.calls[c].pc) ==> h.issued[k].id != h.calls[c].id)
    {
      assert Past(h.calls[h.issued[k].call].pc);
    }
  }

  lemma AbortInv(h: Helper, c: CallId)
    requires Inv(h) && c in h.calls
    ensures Inv(Step(h, Abort(c))) && Progress(h, Step(h, Abort(c)))
  {
    if h.calls[c].pc.Answered? {
      assert Step(h, Abort(c)) == h;
    } else {
      assert Step(h, Abort(c)) == Goto(h, c, Dead);
      GotoInv(h, c, Dead);
    }
  }

  lemma ReturnInv(h: Helper, c: CallId, ok: bool)
    requires Inv(h) && c in h.calls
    ensures Inv(ReturnStep(h, c, ok)) && Progress(h, ReturnStep(h, c, ok))
  {
    if h.calls[c].pc.Restarting? {
      assert PcOk(h, c);
      GotoInv(h, c, ReturnStep(h, c, ok).calls[c].pc);
    }
  }

  lemma RefuseInv(h: Helper, c: CallId, code: ErrorCode)
    requires Inv(h) && c in h.calls && h.calls[c].pc.Inspecting?
    ensures var h' := Goto(h, c, OpeningTmp(Reject(h.calls[c].id, code, NotStarted)));
      Inv(h') && Progress(h, h')
  {
    NotIssuedYet(h, c);
    var h' := Goto(h, c, OpeningTmp(Reject(h.calls[c].id, code, NotStarted)));
    assert NeverRestarts(h', h.calls[c].id);
    GotoInv(h, c, OpeningTmp(Reject(h.calls[c].id, code, NotStarted)));
  }

  lemma ProveInv(h: Helper, c: CallId, after: ContainerState)
    requires Inv(h) && c in h.calls && h.calls[c].pc.Proving? && Enrolled(h.config, after) && after.Running()
    ensures var h' := Goto(h, c, OpeningTmp(Reply(h.calls[c].id, Restarted(h.calls[c].pc.before, after))));
      Inv(h') && Progress(h, h')
  {
    assert PcOk(h, c);
    var pc := OpeningTmp(Reply(h.calls[c].id, Restarted(h.calls[c].pc.before, after)));
    var h' := Goto(h, c, pc);
    assert Proven(h', h.calls[c].id, h.calls[c].target, h.calls[c].pc.before, after);
    GotoInv(h, c, pc);
  }

  lemma UnprovenInv(h: Helper, c: CallId, resp: Response)
    requires Inv(h) && c in h.calls && h.calls[c].pc.Proving? && resp.requestId == h.calls[c].id
    requires resp.outcome.Rejected? && resp.outcome.mutation == Ambiguous
    ensures Inv(Goto(h, c, Answered(resp))) && Progress(h, Goto(h, c, Answered(resp)))
  {
    GotoInv(h, c, Answered(resp));
  }

  lemma InspectInv(h: Helper, c: CallId, resp: Response)
    requires Inv(h) && c in h.calls && h.calls[c].pc.InspectingOnly? && resp.requestId == h.calls[c].id
    requires !resp.ClaimsRestarted()
    ensures Inv(Goto(h, c, Answered(resp))) && Progress(h, Goto(h, c, Answered(resp)))
  {
    NotIssuedYet(h, c);
    assert !IssuedBy(Goto(h, c, Answered(resp)), c);
    GotoInv(h, c, Answered(resp));
  }

  lemma Idle(h: Helper)
    requires DiskOk(h.disk)
    ensures Progress(h, h)
  {
  }

  lemma ProbeInv(h: Helper, c: CallId, probe: Probe)
    requires Inv(h) && c in h.calls
    ensures Inv(ProbeStep(h, c, probe)) && Progress(h, ProbeStep(h, c, probe))
  {
    var found := InspectEnrolled(h.config, probe);
    match h.calls[c].pc
    case Inspecting =>
      assert PcOk(h, c);
      if found.Ok? { GotoInv(h, c, Launching(found.value)); } else { RefuseInv(h, c, found.error); }
    case Proving(before) =>
      if found.Ok? && found.value.Running() {
        ProveInv(h, c, found.value);
      } else {
        UnprovenInv(h, c, ProbeStep(h, c, probe).calls[c].pc.resp);
      }
    case InspectingOnly => InspectInv(h, c, ProbeStep(h, c, probe).calls[c].pc.resp);
    case _ => Idle(h);
  }

  lemma ArriveProgress(h: Helper, c: CallId, peer: nat, request: Request)
    requires DiskOk(h.disk)
    ensures Progress(h, ArriveStep(h, c, peer, request))
  {
  }

  lemma ArrivePcs(h: Helper, c: CallId, peer: nat, request: Request)
    requires DiskOk(h.disk) && IssuesOk(h) && PcsOk(h) && Progress(h, ArriveStep(h, c, peer, request))
    ensures PcsOk(ArriveStep(h, c, peer, request))
  {
    var h' := ArriveStep(h, c, peer, request);
    if c !in h.calls {
      assert !IssuedBy(h', c) by {
        forall k | 0 <= k < |h.issued| ensures h.issued[k].call != c {}
      }
      forall d | d in h'.calls ensures PcOk(h', d) {
        if d != c {
          assert PcOk(h, d);
          PcStays(h, h', d);
        }
      }
    }
  }

  lemma ArriveInv(h: Helper, c: CallId, peer: nat, request: Request)
    requires Inv(h)
    ensures Inv(ArriveStep(h, c, peer, request)) && Progress(h, ArriveStep(h, c, peer, request))
  {
    hide RecordsOk, PcsOk, RecordOk, Undisturbed;
    ArriveProgress(h, c, peer, request);
    RecordsStay(h, ArriveStep(h, c, peer, request));
    ArrivePcs(h, c, peer, request);
  }

  lemma LaunchProgress(h: Helper, c: CallId)
    requires DiskOk(h.disk) && c in h.calls && h.calls[c].pc.Launching?
    ensures Progress(h, LaunchStep(h, c))
  {
  }

  lemma LaunchInv(h: Helper, c: CallId)
    requires Inv(h) && c in h.calls
    ensures Inv(LaunchStep(h, c)) && Progress(h, LaunchStep(h, c))
  {
    if h.calls[c].pc.Launching? {
      NotIssuedYet(h, c);
      LaunchProgress(h, c);
      RecordsStay(h, LaunchStep(h, c));
      LaunchIssues(h, c);
      LaunchPcs(h, c);
    } else {
      Idle(h);
    }
  }

  lemma LaunchPcs(h: Helper, c: CallId)
    requires DiskOk(h.disk) && PcsOk(h) && c in h.calls && h.calls[c].pc.Launching?
    requires Progress(h, LaunchStep(h, c))
    ensures PcsOk(LaunchStep(h, c))
  {
    var h' := LaunchStep(h, c);
    assert PcOk(h, c);
    assert h'.issued[|h.issued|].call == c;
    forall d | d in h'.calls ensures PcOk(h', d) {
      if d != c {
        assert PcOk(h, d);
        PcStays(h, h', d);
      }
    }
  }

  lemma LaunchIssues(h: Helper, c: CallId)
    requires OwnersOk(h) && IssuesOk(h) && c in h.calls && h.calls[c].pc.Launching?
    requires !Logged(h, h.calls[c].id)
    ensures IssuesOk(LaunchStep(h, c))
  {
    var h' := LaunchStep(h, c);
    forall k, d | 0 <= k < |h'.issued| && d in h'.calls && h'.calls[d].id == h'.issued[k].id
      ensures !MayRestart(h'.calls[d].pc)
    {
      if k == |h.issued| && d != c {
        assert Owns(h.calls[d].pc) ==> d == c;
      }
    }
  }

  lemma ReadInv(h: Helper, c: CallId, f: Inode)
    requires Inv(h) && c in h.calls && h.calls[c].pc.Reading?
    requires f in h.disk.files && h.disk.files[f].owner == h.calls[c].id
    ensures var h' := Goto(h, c, Answered(Replay(h.calls[c], h.disk.files[f].now)));
      Inv(h') && Progress(h, h')
  {
    NotIssuedYet(h, c);
    var x := h.disk.files[f].now;
    assert x.Whole? ==> RecordOk(h, h.calls[c].id, x.record);
    assert !IssuedBy(Goto(h, c, Answered(Replay(h.calls[c], x))), c);
    GotoInv(h, c, Answered(Replay(h.calls[c], x)));
  }

  lemma ClaimFailedInv(h: Helper, c: CallId)
    requires Inv(h) && c in h.calls && !Past(h.calls[c].pc)
    ensures var h' := Goto(h, c, Answered(ClaimFailed(h.calls[c].id)));
      Inv(h') && Progress(h, h')
  {
    NotIssuedYet(h, c);
    assert !IssuedBy(Goto(h, c, Answered(ClaimFailed(h.calls[c].id))), c);
    GotoInv(h, c, Answered(ClaimFailed(h.calls[c].id)));
  }

  lemma OpenInv(h: Helper, c: CallId, inode: Inode)
    requires Inv(h) && c in h.calls && h.calls[c].pc.Opening?
    requires Missing(h.disk, h.calls[c].id) && inode !in h.disk.files
    ensures var h' := Goto(h.(disk := Create(h.disk, Json(h.calls[c].id), inode)), c, Writing(inode));
      Inv(h') && Progress(h, h')
  {
    var h' := Goto(h.(disk := Create(h.disk, Json(h.calls[c].id), inode)), c, Writing(inode));
    CreateLater(h.disk, Json(h.calls[c].id), inode);
    assert PcOk(h, c);
    MoveInv(h, h', c);
  }

  /** The owner of `id` changed one of its own files. */
  lemma FileInv(h: Helper, c: CallId, d: Disk, pc: Pc, f: Inode)
    requires Inv(h) && c in h.calls && Owns(h.calls[c].pc)
    requires d.names == h.disk.names && f in h.disk.files && h.disk.files[f].owner == h.calls[c].id
    requires DiskLater(h.disk, d, h.calls[c].id) && d.files.Keys == h.disk.files.Keys
    requires forall g | g in d.files && g != f :: d.files[g] == h.disk.files[g]
    requires var h' := Goto(h.(disk := d), c, pc);
      && PcOk(h', c)
      && forall x | x in d.files[f].maybe && x.Whole? ::
            x in h.disk.files[f].maybe || RecordOk(h', h.calls[c].id, x.record)
    requires MayRestart(pc) ==> MayRestart(h.calls[c].pc)
    requires Claimed(pc) ==> Claimed(h.calls[c].pc)
    requires Past(h.calls[c].pc) ==> Past(pc)
    ensures Inv(Goto(h.(disk := d), c, pc)) && Progress(h, Goto(h.(disk := d), c, pc))
  {
    MoveInv(h, Goto(h.(disk := d), c, pc), c);
  }

  lemma WriteInv(h: Helper, c: CallId, ok: bool, landed: bool)
    requires Inv(h) && c in h.calls && h.calls[c].pc.Writing?
    ensures Inv(ClaimStep(h, c, ok, landed, 0)) && Progress(h, ClaimStep(h, c, ok, landed, 0))
  {
    var f := h.calls[c].pc.f;
    assert PcOk(h, c);
    NotIssuedYet(h, c);
    if ok || landed {
      var d := Put(h.disk, f, Whole(StartedRecord(h.calls[c])));
      PutLater(h.disk, f, Whole(StartedRecord(h.calls[c])));
      var pc := if ok then Syncing(f) else Answered(ClaimFailed(h.calls[c].id));
      assert !IssuedBy(Goto(h.(disk := d), c, pc), c);
      FileInv(h, c, d, pc, f);
    } else {
      ClaimFailedInv(h, c);
    }
  }

  lemma SyncInv(h: Helper, c: CallId)
    requires Inv(h) && c in h.calls && h.calls[c].pc.Syncing?
    ensures Inv(ClaimStep(h, c, true, true, 0)) && Progress(h, ClaimStep(h, c, true, true, 0))
  {
    var f := h.calls[c].pc.f;
    assert PcOk(h, c);
    SyncFileLater(h.disk, f);
    FileInv(h, c, SyncFile(h.disk, f), SyncingClaim, f);
  }

  lemma SyncClaimInv(h: Helper, c: CallId)
    requires Inv(h) && c in h.calls && h.calls[c].pc.SyncingClaim?
    ensures Inv(ClaimStep(h, c, true, true, 0)) && Progress(h, ClaimStep(h, c, true, true, 0))
  {
    assert PcOk(h, c);
    SyncDirectoryLater(h.disk, h.calls[c].id);
    MoveInv(h, ClaimStep(h, c, true, true, 0), c);
  }

  lemma IdleIo(h: Helper, c: CallId)
    requires Inv(h) && c in h.calls
    ensures Inv(Goto(h.(disk := h.disk), c, h.calls[c].pc)) && Progress(h, Goto(h.(disk := h.disk), c, h.calls[c].pc))
  {
    assert Goto(h.(disk := h.disk), c, h.calls[c].pc) == h;
    Idle(h);
  }

  lemma OpeningInv(h: Helper, c: CallId, ok: bool, inode: Inode)
    requires Inv(h) && c in h.calls && h.calls[c].pc.Opening?
    ensures Inv(ClaimStep(h, c, ok, true, inode)) && Progress(h, ClaimStep(h, c, ok, true, inode))
  {
    assert h.(disk := h.disk) == h;
    if !Missing(h.disk, h.calls[c].id) {
      GotoInv(h, c, Reading);
    } else if !ok || inode in h.disk.files {
      ClaimFailedInv(h, c);
    } else {
      OpenInv(h, c, inode);
    }
  }

  lemma ReadingInv(h: Helper, c: CallId, ok: bool)
    requires Inv(h) && c in h.calls && h.calls[c].pc.Reading?
    ensures Inv(ClaimStep(h, c, ok, true, 0)) && Progress(h, ClaimStep(h, c, ok, true, 0))
  {
    assert h.(disk := h.disk) == h;
    var now := Look(h.disk, Json(h.calls[c].id)).now;
    if ok && now.Some? && now.value in h.disk.files {
      ReadInv(h, c, now.value);
    } else {
      ClaimFailedInv(h, c);
    }
  }

  lemma ClaimInv(h: Helper, c: CallId, ok: bool, landed: bool, inode: Inode)
    requires Inv(h) && c in h.calls && !Completing(h.calls[c].pc)
    ensures Inv(ClaimStep(h, c, ok, landed, inode)) && Progress(h, ClaimStep(h, c, ok, landed, inode))
  {
    assert PcOk(h, c);
    match h.calls[c].pc
    case Opening => OpeningInv(h, c, ok, inode);
    case Writing(f) => WriteInv(h, c, ok, landed);
    case Syncing(f) => if ok { SyncInv(h, c); } else { ClaimFailedInv(h, c); }
    case SyncingClaim => if ok { SyncClaimInv(h, c); } else { ClaimFailedInv(h, c); }
    case Reading => ReadingInv(h, c, ok);
    case _ => IdleIo(h, c);
  }

  lemma CompletionFailedInv(h: Helper, c: CallId)
    requires Inv(h) && c in h.calls && Completing(h.calls[c].pc)
    ensures var h' := Goto(h, c, Answered(CompletionFailed(h.calls[c].id, h.calls[c].pc.resp)));
      Inv(h') && Progress(h, h')
  {
    assert PcOk(h, c);
    var pc := Answered(CompletionFailed(h.calls[c].id, h.calls[c].pc.resp));
    var h' := Goto(h, c, pc);
    RejectedUnissued(h, c);
    assert IssuedBy(h', c) <==> IssuedBy(h, c);
    GotoInv(h, c, pc);
  }

  lemma RejectedUnissued(h: Helper, c: CallId)
    requires Inv(h) && c in h.calls && Completing(h.calls[c].pc)
    ensures h.calls[c].pc.resp.outcome.Rejected? ==> !IssuedBy(h, c)
  {
  }

  lemma StillLater(h: Helper, c: CallId, d: Disk, pc: Pc)
    requires c in h.calls && DiskLater(h.disk, d, h.calls[c].id) && Completing(pc)
    ensures Later(h, Goto(h.(disk := d), c, pc))
  {
  }

  /** `complete` keeps what the response asserts, whatever it does to its own files. */
  lemma TruthfulMove(h: Helper, c: CallId, d: Disk, pc: Pc)
    requires Inv(h) && c in h.calls && Completing(h.calls[c].pc) && DiskLater(h.disk, d, h.calls[c].id)
    requires Completing(pc)
    ensures Truthful(Goto(h.(disk := d), c, pc), h.calls[c].id, h.calls[c].target, h.calls[c].pc.resp)
    ensures h.calls[c].pc.resp.outcome.Succeeded? ==> IssuedBy(Goto(h.(disk := d), c, pc), c)
  {
    assert PcOk(h, c);
    var h' := Goto(h.(disk := d), c, pc);
    StillLater(h, c, d, pc);
    TruthfulStays(h, h', h.calls[c].id, h.calls[c].target, h.calls[c].pc.resp);
  }

  lemma TruncateTmpInv(h: Helper, c: CallId, f: Inode)
    requires Inv(h) && c in h.calls && h.calls[c].pc.OpeningTmp?
    requires f in h.disk.files && Look(h.disk, Tmp(h.calls[c].id)).now == Some(f)
    ensures var h' := Goto(h.(disk := Put(h.disk, f, Torn)), c, WritingTmp(h.calls[c].pc.resp, f));
      Inv(h') && Progress(h, h')
  {
    PutLater(h.disk, f, Torn);
    TruthfulMove(h, c, Put(h.disk, f, Torn), WritingTmp(h.calls[c].pc.resp, f));
    FileInv(h, c, Put(h.disk, f, Torn), WritingTmp(h.calls[c].pc.resp, f), f);
  }

  lemma CreateTmpInv(h: Helper, c: CallId, f: Inode)
    requires Inv(h) && c in h.calls && h.calls[c].pc.OpeningTmp? && f !in h.disk.files
    ensures var h' := Goto(h.(disk := Create(h.disk, Tmp(h.calls[c].id), f)), c, WritingTmp(h.calls[c].pc.resp, f));
      Inv(h') && Progress(h, h')
  {
    var d := Create(h.disk, Tmp(h.calls[c].id), f);
    CreateLater(h.disk, Tmp(h.calls[c].id), f);
    TruthfulMove(h, c, d, WritingTmp(h.calls[c].pc.resp, f));
    MoveInv(h, Goto(h.(disk := d), c, WritingTmp(h.calls[c].pc.resp, f)), c);
  }

  lemma WrittenTmpInv(h: Helper, c: CallId)
    requires Inv(h) && c in h.calls && h.calls[c].pc.WritingTmp?
    ensures Inv(CompleteStep(h, c, true, true, 0)) && Progress(h, CompleteStep(h, c, true, true, 0))
  {
    hide Inv, Progress, DiskLater, DiskOk;
    var call := h.calls[c];
    var f, x := call.pc.f, Whole(FinishedRecord(call, call.pc.resp));
    PcFact(h, c);
    PutLater(h.disk, f, x);
    TruthfulMove(h, c, Put(h.disk, f, x), SyncingTmp(call.pc.resp, f));
    FileInv(h, c, Put(h.disk, f, x), SyncingTmp(call.pc.resp, f), f);
  }

  lemma FailedWriteProgress(h: Helper, c: CallId, f: Inode, x: Content, resp: Response)
    requires DiskOk(h.disk) && c in h.calls && Owns(h.calls[c].pc)
    requires f in h.disk.files && h.disk.files[f].owner == h.calls[c].id
    ensures Progress(h, Goto(h.(disk := Put(h.disk, f, x)), c, Answered(resp)))
  {
    PutLater(h.disk, f, x);
    MovedProgress(h, Goto(h.(disk := Put(h.disk, f, x)), c, Answered(resp)), c);
  }

  lemma FailedWriteInv(h: Helper, h1: Helper, c: CallId)
    requires c in h.calls && h.calls[c].pc.WritingTmp? && h.calls[c].pc.f in h.disk.files
    requires Inv(h1) && h1 == CompleteStep(h, c, true, true, 0)
    ensures Inv(CompleteStep(h, c, false, true, 0))
  {
    CompletionFailedInv(h1, c);
    assert CompleteStep(h, c, false, true, 0)
      == Goto(h1, c, Answered(CompletionFailed(h.calls[c].id, h.calls[c].pc.resp)));
  }

  // A failed write may still have put every byte in place: as if the next call had failed instead.
  lemma WriteTmpInv(h: Helper, c: CallId, ok: bool)
    requires Inv(h) && c in h.calls && h.calls[c].pc.WritingTmp?
    ensures Inv(CompleteStep(h, c, ok, true, 0)) && Progress(h, CompleteStep(h, c, ok, true, 0))
  {
    WrittenTmpInv(h, c);
    if !ok {
      var call := h.calls[c];
      assert PcOk(h, c);
      FailedWriteInv(h, CompleteStep(h, c, true, true, 0), c);
      FailedWriteProgress(h, c, call.pc.f, Whole(FinishedRecord(call, call.pc.resp)), CompletionFailed(call.id, call.pc.resp));
    }
  }

  lemma SyncTmpInv(h: Helper, c: CallId)
    requires Inv(h) && c in h.calls && h.calls[c].pc.SyncingTmp?
    ensures Inv(CompleteStep(h, c, true, true, 0)) && Progress(h, CompleteStep(h, c, true, true, 0))
  {
    hide Inv, Progress, DiskLater, DiskOk;
    var call := h.calls[c];
    PcFact(h, c);
    SyncFileLater(h.disk, call.pc.f);
    TruthfulMove(h, c, SyncFile(h.disk, call.pc.f), Renaming(call.pc.resp, call.pc.f));
    FileInv(h, c, SyncFile(h.disk, call.pc.f), Renaming(call.pc.resp, call.pc.f), call.pc.f);
  }

  lemma RenameInv(h: Helper, c: CallId)
    requires Inv(h) && c in h.calls && h.calls[c].pc.Renaming?
    ensures Inv(CompleteStep(h, c, true, true, 0)) && Progress(h, CompleteStep(h, c, true, true, 0))
  {
    var call := h.calls[c];
    assert PcOk(h, c);
    var d, pc := Rename(h.disk, call.id), SyncingRename(call.pc.resp, call.pc.f);
    RenameLater(h.disk, call.id);
    TruthfulMove(h, c, d, pc);
    RenamePc(h, c, d, pc);
    MoveInv(h, Goto(h.(disk := d), c, pc), c);
  }

  lemma RenamePc(h: Helper, c: CallId, d: Disk, pc: Pc)
    requires c in h.calls && h.calls[c].pc.Renaming? && PcOk(h, c)
    requires d == Rename(h.disk, h.calls[c].id) && pc == SyncingRename(h.calls[c].pc.resp, h.calls[c].pc.f)
    requires Truthful(Goto(h.(disk := d), c, pc), h.calls[c].id, h.calls[c].target, h.calls[c].pc.resp)
    requires h.calls[c].pc.resp.outcome.Succeeded? ==> IssuedBy(Goto(h.(disk := d), c, pc), c)
    ensures PcOk(Goto(h.(disk := d), c, pc), c)
  {
  }

  lemma SyncRenameInv(h: Helper, c: CallId)
    requires Inv(h) && c in h.calls && h.calls[c].pc.SyncingRename?
    ensures Inv(CompleteStep(h, c, true, true, 0)) && Progress(h, CompleteStep(h, c, true, true, 0))
  {
    var call := h.calls[c];
    var h' := CompleteStep(h, c, true, true, 0);
    assert PcOk(h, c);
    SyncDirectoryLater(h.disk, call.id);
    TruthfulMove(h, c, SyncDirectory(h.disk), call.pc);
    RejectedUnissued(h, c);
    assert IssuedBy(h', c) <==> IssuedBy(h, c);
    assert Settled(h', call.id, FinishedRecord(call, call.pc.resp)) by {
      forall e | e in h'.calls && h'.calls[e].id == call.id ensures !Owns(h'.calls[e].pc) {
        assert e != c && Owns(h.calls[e].pc) ==> false by { assert Owns(h.calls[c].pc); }
      }
    }
    assert h'.issued == h.issued;
    MoveInv(h, h', c);
  }

  lemma CompleteInv(h: Helper, c: CallId, ok: bool, landed: bool, inode: Inode)
    requires Inv(h) && c in h.calls && Completing(h.calls[c].pc)
    ensures Inv(CompleteStep(h, c, ok, landed, inode)) && Progress(h, CompleteStep(h, c, ok, landed, inode))
  {
    hide Inv, Progress, Truthful, DiskOk;
    var call, d := h.calls[c], h.disk;
    PcFact(h, c);
    match call.pc
    case OpeningTmp(resp) =>
      var now := Look(d, Tmp(call.id)).now;
      if !ok {
        CompletionFailedInv(h, c);
      } else if now.Some? && now.value in d.files {
        TruncateTmpInv(h, c, now.value);
      } else if inode in d.files {
        CompletionFailedInv(h, c);
      } else {
        CreateTmpInv(h, c, inode);
      }
    case WritingTmp(resp, f) =>
      if ok || landed { WriteTmpInv(h, c, ok); } else { CompletionFailedInv(h, c); }
    case SyncingTmp(resp, f) =>
      if ok { SyncTmpInv(h, c); } else { CompletionFailedInv(h, c); }
    case Renaming(resp, f) =>
      if ok { RenameInv(h, c); } else { CompletionFailedInv(h, c); }
    case SyncingRename(resp, f) =>
      if ok { SyncRenameInv(h, c); } else { CompletionFailedInv(h, c); }
    case _ =>
  }

  lemma CrashDisk(d: Disk, names: map<Name, Option<Inode>>, files: map<Inode, Content>)
    requires DiskOk(d) && MayRemain(d, names, files)
    ensures DiskOk(Crash(d, names, files))
    ensures forall id | Entrenched(d, id) :: Entrenched(Crash(d, names, files), id)
    ensures forall n: Name :: Look(Crash(d, names, files), n).maybe <= Look(d, n).maybe
    ensures forall f | f in d.files ::
      var file := Crash(d, names, files).files[f];
      file.owner == d.files[f].owner && file.now in file.maybe && file.maybe <= d.files[f].maybe
  {
  }

  lemma CrashLater(h: Helper, h': Helper)
    requires h'.issued == h.issued && h'.calls == map c | c in h.calls :: Kill(h.calls[c])
    requires forall id | Entrenched(h.disk, id) :: Entrenched(h'.disk, id)
    ensures Later(h, h')
    ensures forall id :: NoOwner(h', id)
  {
  }

  lemma CrashPcs(h: Helper, h': Helper)
    requires DiskOk(h.disk) && PcsOk(h) && Later(h, h')
    requires h'.calls == map c | c in h.calls :: Kill(h.calls[c])
    requires forall id :: NoOwner(h', id)
    requires forall n: Name :: Look(h'.disk, n).maybe <= Look(h.disk, n).maybe
    requires forall f | f in h.disk.files ::
      && f in h'.disk.files
      && h'.disk.files[f].now in h'.disk.files[f].maybe && h'.disk.files[f].maybe <= h.disk.files[f].maybe
    ensures PcsOk(h')
  {
    forall c | c in h'.calls ensures PcOk(h', c) {
      if h.calls[c].pc.Answered? {
        assert PcOk(h, c);
        AnswerStays(h, h', c, h.calls[c].pc.resp);
      } else {
        assert h'.calls[c].pc == Dead;
      }
    }
  }

  lemma CrashIssues(h: Helper, h': Helper)
    requires IssuesOk(h) && Later(h, h') && h'.issued == h.issued
    requires h'.calls == map c | c in h.calls :: Kill(h.calls[c])
    ensures IssuesOk(h')
  {
  }

  lemma CrashRecords(h: Helper, h': Helper)
    requires RecordsOk(h) && Later(h, h') && h'.disk.files.Keys == h.disk.files.Keys
    requires forall f | f in h.disk.files ::
      h'.disk.files[f].owner == h.disk.files[f].owner && h'.disk.files[f].maybe <= h.disk.files[f].maybe
    ensures RecordsOk(h')
  {
    RecordsStay(h, h');
  }

  lemma CrashOwners(h: Helper)
    requires forall id :: NoOwner(h, id)
    ensures OwnersOk(h)
  {
    forall c | c in h.calls ensures !Owns(h.calls[c].pc) {
      assert NoOwner(h, h.calls[c].id);
    }
  }

  lemma CrashInv(h: Helper, names: map<Name, Option<Inode>>, files: map<Inode, Content>, config: HelperConfig)
    requires Inv(h)
    ensures Inv(CrashStep(h, names, files, config)) && Progress(h, CrashStep(h, names, files, config))
  {
    if MayRemain(h.disk, names, files) {
      var h' := CrashStep(h, names, files, config);
      CrashDisk(h.disk, names, files);
      CrashLater(h, h');
      CrashPcs(h, h');
      CrashIssues(h, h');
      CrashRecords(h, h');
      CrashOwners(h');
    }
  }

  lemma StepInv(h: Helper, e: Event)
    requires Inv(h)
    ensures Inv(Step(h, e)) && Progress(h, Step(h, e))
  {
    match e
    case Arrive(c, peer, request) => ArriveInv(h, c, peer, request);
    case Io(c, ok, landed, inode) =>
      if c in h.calls {
        if Completing(h.calls[c].pc) {
          CompleteInv(h, c, ok, landed, inode);
        } else {
          ClaimInv(h, c, ok, landed, inode);
        }
      }
    case Probed(c, probe) => if c in h.calls { ProbeInv(h, c, probe); }
    case Launch(c) => if c in h.calls { LaunchInv(h, c); }
    case Returned(c, ok) => if c in h.calls { ReturnInv(h, c, ok); }
    case Abort(c) => if c in h.calls { AbortInv(h, c); }
    case CrashAndRestart(names, files, config) => CrashInv(h, names, files, config);
  }
}
