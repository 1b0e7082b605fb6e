/**
  The rollback baseline: which deployments are marked known-good, by the watch jobs of the worker and by
  the database trigger on health checks.
*/
module KnownGood {
  import opened Wrappers
  import opened Policy
  import L = IncidentLifecycle

  type DeploymentId = nat
  type IncidentId = nat

  datatype Deployment = Deployment(production: bool, ready: bool, knownGood: bool)

  /** The two verifications that start a watch, and whose watch may advance the baseline. */
  datatype Kind = Durable | SourceRecovery(revert: L.Revert)

  datatype Start = Start(kind: Kind, i: IncidentId, d: DeploymentId)

  /** One watch job: check number `check` of the deployment. */
  datatype Watch = Watch(kind: Kind, i: IncidentId, d: DeploymentId, check: nat)

  /** The checks that follow each other. */
  datatype Series = Series(durable: bool, i: IncidentId, d: DeploymentId)

  function Of(w: Watch): Series { Series(w.kind.Durable?, w.i, w.d) }

  /** A check that was made. A passed one is recorded when what follows from it was written, a failed one
      when its job completed with it. */
  datatype Outcome = Outcome(series: Series, check: nat, passed: bool, recorded: bool)

  /** Whether the handler of a check reports success; if not, its writes may still have been made. The job
      of a handler that does not is run again. */
  datatype Fate = Finishes | Errs(applied: bool)

  // `starting` and `running` are handlers that have read the incident's state, `queued` the pending watch
  // jobs, and `keys` all watch jobs ever enqueued: their keys stay taken. `setup` and `log` are history:
  // the deployment recorded at setup, and every check in order. `order` is that of first storing.
  datatype Project = Project(
    deployments: map<DeploymentId, Deployment>,
    order: seq<DeploymentId>,
    incidents: map<IncidentId, L.Incident>,
    starting: set<Start>,
    queued: set<Watch>,
    running: set<Watch>,
    keys: set<Watch>,
    setup: DeploymentId,
    log: seq<Outcome>)

  datatype Event =
    | OpenIncident(i: IncidentId, paused: bool)
    | OnIncident(i: IncidentId, change: L.Event)
    | Save(d: DeploymentId, production: bool, ready: bool)
    | BeginStart(start: Start)
    | StartWatch(start: Start, passed: bool)
    | BeginCheck(watch: Watch)
    | Check(watch: Watch, healthy: bool, branchHeadMatches: bool, fate: Fate)
    | Abandon(watch: Watch)
    | HealthUpdate(healthy: bool)

  function SetUp(d: DeploymentId): Project {
    Project(map[d := Deployment(true, true, true)], [d], map[], {}, {}, {}, {}, d, [])
  }

  /** The upsert: every caller passes `false` for the flag, and the flag is only ever or-ed. */
  function Saved(p: Project, d: DeploymentId, production: bool, ready: bool): Project {
    if d in p.deployments
    then p.(deployments := p.deployments[d := Deployment(production, ready, p.deployments[d].knownGood || false)])
    else p.(deployments := p.deployments[d := Deployment(production, ready, false)], order := p.order + [d])
  }

  function MarkKnownGood(p: Project, d: DeploymentId): Project {
    if d !in p.deployments then p
    else
      p.(deployments := map e | e in p.deployments ::
           if e == d then p.deployments[e].(ready := true, knownGood := true)
           else if p.deployments[e].production then p.deployments[e].(knownGood := false)
           else p.deployments[e])
  }

  predicate HasBaseline(p: Project) {
    exists d | d in p.deployments :: p.deployments[d].production && p.deployments[d].knownGood
  }

  /** The state its incident must be in for a handler to do anything. */
  predicate Live(p: Project, kind: Kind, i: IncidentId) {
    i in p.incidents &&
    match kind
    case Durable => p.incidents[i].status.VerifyingProduction?
    case SourceRecovery(revert) => p.incidents[i].status.Escalated? && revert in p.incidents[i].reverts
  }

  // Durable watch jobs are keyed by incident and check, those of source recovery by deployment too.
  predicate SameKey(v: Watch, w: Watch) {
    v.i == w.i && v.check == w.check && v.kind.Durable? == w.kind.Durable? && (w.kind.Durable? || v.d == w.d)
  }

  predicate Taken(p: Project, w: Watch) { exists v | v in p.keys :: SameKey(v, w) }

  function EnqueueWatch(p: Project, w: Watch): Project {
    if Taken(p, w) then p else p.(queued := p.queued + {w}, keys := p.keys + {w})
  }

  /** A failed durable check starts the rollback, or escalates when there is nothing to roll back to; one
      of source recovery only leaves an audit entry. */
  function Fail(p: Project, kind: Kind, i: IncidentId): Project {
    if kind.SourceRecovery? || i !in p.incidents then p
    else
      var change := if HasBaseline(p) then L.Transition(VerifyingProduction, RollingBack) else L.Escalate;
      p.(incidents := p.incidents[i := L.Step(p.incidents[i], change)])
  }

  function StartStep(p: Project, start: Start, passed: bool): Project {
    if start !in p.starting then p
    else
      var p' := p.(starting := p.starting - {start});
      if passed then EnqueueWatch(p', Watch(start.kind, start.i, start.d, 0)) else Fail(p', start.kind, start.i)
  }

  /** A job whose incident has left the state completes without doing anything. */
  function BeginStep(p: Project, w: Watch): Project {
    if w !in p.queued then p
    else p.(queued := p.queued - {w}, running := if Live(p, w.kind, w.i) then p.running + {w} else p.running)
  }

  /** The third check of a source recovery also compares the protected branch's head. */
  predicate Passes(w: Watch, healthy: bool, branchHeadMatches: bool) {
    healthy && (w.check < 2 || w.kind.Durable? || branchHeadMatches)
  }

  /** The database refuses the write: the deployment is not stored, or the incident has moved on. */
  predicate Refused(p: Project, w: Watch, passed: bool) {
    if passed then w.check >= 2 && w.d !in p.deployments
    else w.kind.Durable? && HasBaseline(p) && !Live(p, w.kind, w.i)
  }

  function FateOf(p: Project, w: Watch, passed: bool, fate: Fate): Fate {
    if Refused(p, w, passed) then Errs(false) else fate
  }

  predicate Written(fate: Fate) { fate.Finishes? || fate.applied }

  function Logged(p: Project, w: Watch, passed: bool, fate: Fate): Project {
    var recorded := if passed then Written(fate) else fate.Finishes?;
    p.(log := p.log + [Outcome(Of(w), w.check, passed, recorded)], running := p.running - {w},
       queued := if fate.Finishes? then p.queued else p.queued + {w})
  }

  function Checked(p: Project, w: Watch, passed: bool, fate: Fate): Project {
    var p' := Logged(p, w, passed, fate);
    if !Written(fate) then p'
    else if !passed then Fail(p', w.kind, w.i)
    else if w.check < 2 then EnqueueWatch(p', w.(check := w.check + 1))
    else MarkKnownGood(p', w.d)
  }

  function CheckStep(p: Project, w: Watch, passed: bool, fate: Fate): Project {
    if w !in p.running then p else Checked(p, w, passed, FateOf(p, w, passed, fate))
  }

  function Newest(p: Project, n: nat): Option<DeploymentId>
    requires n <= |p.order|
  {
    if n == 0 then None
    else
      var d := p.order[n - 1];
      if d in p.deployments && p.deployments[d].production && p.deployments[d].ready then Some(d) else Newest(p, n - 1)
  }

  /** An incident that has never been resolved or rolled back. */
  predicate Active(p: Project) { exists i | i in p.incidents :: !p.incidents[i].resolvedAt }

  /** What the trigger would adopt as the baseline when a health check succeeds. */
  function Candidate(p: Project): Option<DeploymentId> {
    if Active(p) then None else Newest(p, |p.order|)
  }

  function HealthStep(p: Project, healthy: bool): Project {
    if !healthy || Candidate(p).None? then p
    else
      var c := Candidate(p).value;
      p.(deployments := map e | e in p.deployments ::
           if p.deployments[e].production && (p.deployments[e].knownGood || e == c)
           then p.deployments[e].(knownGood := e == c) else p.deployments[e])
  }

  function Step(p: Project, e: Event): Project {
    match e
    case OpenIncident(i, paused) => if i in p.incidents then p else p.(incidents := p.incidents[i := L.Opened(paused)])
    case OnIncident(i, change) =>
      if i in p.incidents then p.(incidents := p.incidents[i := L.Step(p.incidents[i], change)]) else p
    case Save(d, production, ready) => Saved(p, d, production, ready)
    case BeginStart(start) => if Live(p, start.kind, start.i) then p.(starting := p.starting + {start}) else p
    case StartWatch(start, passed) => StartStep(p, start, passed)
    case BeginCheck(w) => BeginStep(p, w)
    case Check(w, healthy, matches, fate) => CheckStep(p, w, Passes(w, healthy, matches), fate)
    // its last attempt is spent, or its worker died
    case Abandon(w) => p.(queued := p.queued - {w}, running := p.running - {w})
    case HealthUpdate(healthy) => HealthStep(p, healthy)
  }

  function Run(p: Project, es: seq<Event>): Project
    decreases |es|
  {
    if es == [] then p else Run(Step(p, es[0]), es[1..])
  }

  // What a deployment must have passed.

  /** Which failed checks come between passed ones: recorded ones only, or every one. */
  datatype Failures = RecordedOnly | All

  predicate Breaks(o: Outcome, c: Series, f: Failures) { o.series == c && !o.passed && (f.All? || o.recorded) }

  predicate Unbroken(log: seq<Outcome>, c: Series, f: Failures) { forall o | o in log :: !Breaks(o, c, f) }

  /** The first `n` checks of the series passed one after the other, and none failed from the first on. */
  predicate Clear(log: seq<Outcome>, c: Series, n: nat, f: Failures)
    decreases n
  {
    n == 0 || exists k | 0 <= k < |log| ::
      log[k] == Outcome(c, n - 1, true, true) && Clear(log[..k], c, n - 1, f) && Unbroken(log[k + 1..], c, f)
  }

  /** Recorded at setup, or passed three watch checks in a row. */
  ghost predicate Earned(p: Project, d: DeploymentId, f: Failures) {
    d == p.setup || exists c: Series, m :: 0 <= m <= |p.log| && c.d == d && Clear(p.log[..m], c, 3, f)
  }

  /** Every known-good deployment has earned it. */
  ghost predicate Proven(p: Project, f: Failures) {
    forall d | d in p.deployments && p.deployments[d].knownGood :: Earned(p, d, f)
  }

  /** The trigger adopts a deployment that has not. */
  ghost predicate AdoptsUnproven(p: Project, e: Event, f: Failures) {
    e.HealthUpdate? && e.healthy && Candidate(p).Some? && !Earned(p, Candidate(p).value, f)
  }

  /** A third check passes and marks its deployment. */
  predicate Marks(p: Project, e: Event) {
    && e.Check? && e.watch in p.running && e.watch.check >= 2 && e.watch.d in p.deployments
    && Passes(e.watch, e.healthy, e.branchHeadMatches) && Written(e.fate)
  }

  lemma ClearNext(log: seq<Outcome>, c: Series, n: nat, f: Failures)
    requires Clear(log, c, n, f)
    ensures Clear(log + [Outcome(c, n, true, true)], c, n + 1, f)
  {
    var k, longer := |log|, log + [Outcome(c, n, true, true)];
    assert longer[..k] == log && longer[k + 1..] == [];
  }

  lemma EarnedBefore(p: Project, p': Project, o: Outcome, d: DeploymentId, f: Failures)
    requires p'.log == p.log + [o] && p'.setup == p.setup && Earned(p, d, f)
    ensures Earned(p', d, f)
  {
    if d != p.setup {
      var c: Series, m :| 0 <= m <= |p.log| && c.d == d && Clear(p.log[..m], c, 3, f);
      assert p'.log[..m] == p.log[..m];
    }
  }

  /** A deployment that is earned only now is so by the third check in a row. */
  lemma EarnedJustNow(p: Project, p': Project, o: Outcome, d: DeploymentId, f: Failures)
    requires p'.log == p.log + [o] && p'.setup == p.setup && d != p.setup && Earned(p', d, f)
    ensures
      || Earned(p, d, f)
      || (o == Outcome(Series(o.series.durable, o.series.i, d), 2, true, true) && Clear(p.log, o.series, 2, f))
  {
    hide Clear, Unbroken;
    var c: Series, m :| 0 <= m <= |p'.log| && c.d == d && Clear(p'.log[..m], c, 3, f);
    hide Earned;
    var log := p'.log[..m];
    var k := LastPass(log, c, 3, f);
    if k < |p.log| {
      assert p.log[..k + 1] == log[..k] + [Outcome(c, 2, true, true)];
      ClearNext(log[..k], c, 2, f);
      EarnedBy(p, c, k + 1, f);
    } else {
      assert log[..k] == p.log;
    }
  }

  lemma LastPass(log: seq<Outcome>, c: Series, n: nat, f: Failures) returns (k: nat)
    requires Clear(log, c, n, f) && n > 0
    ensures k < |log| && log[k] == Outcome(c, n - 1, true, true) && Clear(log[..k], c, n - 1, f)
    ensures Unbroken(log[k + 1..], c, f)
  {
    k :| 0 <= k < |log| && log[k] == Outcome(c, n - 1, true, true) && Clear(log[..k], c, n - 1, f)
         && Unbroken(log[k + 1..], c, f);
  }

  lemma EarnedBy(p: Project, c: Series, m: nat, f: Failures)
    requires m <= |p.log| && Clear(p.log[..m], c, 3, f)
    ensures Earned(p, c.d, f)
  {
  }

  lemma SetupIsEarned(p: Project, d: DeploymentId, f: Failures)
    requires d == p.setup
    ensures Earned(p, d, f)
  {
  }

  /** Only the third check in a row earns anything. */
  lemma EarnedNow(p: Project, p': Project, o: Outcome, d: DeploymentId, f: Failures)
    requires p'.log == p.log + [o] && p'.setup == p.setup
    ensures Earned(p', d, f) <==>
      || Earned(p, d, f)
      || (o == Outcome(Series(o.series.durable, o.series.i, d), 2, true, true) && Clear(p.log, o.series, 2, f))
  {
    hide Earned, Clear;
    if d == p.setup {
      SetupIsEarned(p, d, f);
      SetupIsEarned(p', d, f);
    } else if Earned(p, d, f) {
      EarnedBefore(p, p', o, d, f);
    } else if Earned(p', d, f) {
      EarnedJustNow(p, p', o, d, f);
    } else if o == Outcome(Series(o.series.durable, o.series.i, d), 2, true, true) && Clear(p.log, o.series, 2, f) {
      ClearNext(p.log, o.series, 2, f);
      assert p'.log[..|p'.log|] == p'.log;
      EarnedBy(p', o.series, |p'.log|, f);
    }
  }

  lemma SameEarned(p: Project, p': Project, f: Failures)
    requires p'.log == p.log && p'.setup == p.setup
    ensures forall d :: Earned(p', d, f) == Earned(p, d, f)
  {
  }

  lemma NewestIsStored(p: Project, n: nat)
    requires n <= |p.order|
    ensures Newest(p, n).Some? ==> var c := Newest(p, n).value;
      c in p.deployments && p.deployments[c].production && p.deployments[c].ready
  {
  }

  lemma CandidateIsStored(p: Project)
    ensures Candidate(p).Some? ==>
      !Active(p) && Candidate(p).value in p.deployments && p.deployments[Candidate(p).value].production
  {
    NewestIsStored(p, |p.order|);
  }

  lemma HealthProven(p: Project, healthy: bool, f: Failures)
    requires Proven(p, f)
    ensures Proven(HealthStep(p, healthy), f) <==> !AdoptsUnproven(p, HealthUpdate(healthy), f)
  {
    hide Earned, Candidate;
    var p' := HealthStep(p, healthy);
    SameEarned(p, p', f);
    if healthy && Candidate(p).Some? {
      CandidateIsStored(p);
      var c := Candidate(p).value;
      assert p'.deployments[c].knownGood;
    }
  }

  /** Marking with no two passed checks in a row before it. */
  ghost predicate MarksUnproven(p: Project, e: Event, f: Failures) {
    Marks(p, e) && !Clear(p.log, Of(e.watch), 2, f) && !Earned(p, e.watch.d, f)
  }

  lemma CheckProven(p: Project, e: Event, f: Failures)
    requires e.Check? && e.watch in p.running && e.watch.check <= 2 && Proven(p, f)
    ensures Proven(Step(p, e), f) <==> !MarksUnproven(p, e, f)
  {
    hide Earned, Clear;
    var w, passed := e.watch, Passes(e.watch, e.healthy, e.branchHeadMatches);
    var fate := FateOf(p, w, passed, e.fate);
    var p' := Step(p, e);
    var o := Outcome(Of(w), w.check, passed, if passed then Written(fate) else fate.Finishes?);
    assert p'.log == p.log + [o] && p'.setup == p.setup;
    forall d ensures Earned(p', d, f) <==>
      || Earned(p, d, f)
      || (o == Outcome(Series(o.series.durable, o.series.i, d), 2, true, true) && Clear(p.log, o.series, 2, f))
    {
      EarnedNow(p, p', o, d, f);
    }
    if Marks(p, e) {
      assert p'.deployments[w.d].knownGood;
    } else {
      assert p'.deployments == p.deployments;
    }
  }

  /** One step keeps the baseline proven exactly when it is neither the trigger adopting something unproven
      nor a third check marking a deployment without two passed ones in a row before it. */
  lemma ProvenStep(p: Project, e: Event, f: Failures)
    requires Proven(p, f) && forall w | w in p.running :: w.check <= 2
    ensures Proven(Step(p, e), f) <==> !AdoptsUnproven(p, e, f) && !MarksUnproven(p, e, f)
  {
    hide Earned, Clear, Candidate;
    if e.Check? {
      if e.watch in p.running { CheckProven(p, e, f); }
    } else if e.HealthUpdate? {
      HealthProven(p, e.healthy, f);
    } else {
      SameEarned(p, Step(p, e), f);
    }
  }

  // What the queue of watch jobs keeps.

  /** The first `n` checks passed in their order, whatever failed between them. */
  predicate InOrder(log: seq<Outcome>, c: Series, n: nat)
    decreases n
  {
    n == 0 || exists k :: 0 <= k < |log| && log[k] == Outcome(c, n - 1, true, true) && InOrder(log[..k], c, n - 1)
  }

  predicate Alive(p: Project, w: Watch) { w in p.queued || w in p.running }

  /** A failed check whose job completed with it. */
  predicate Final(o: Outcome) { !o.passed && o.recorded }

  predicate SameCheck(o: Outcome, o': Outcome) { o.series == o'.series && o.check == o'.check }

  predicate IsOf(o: Outcome, w: Watch) { o.series == Of(w) && o.check == w.check }

  ghost predicate KeysOk(p: Project) {
    && (forall w | Alive(p, w) :: w in p.keys)
    && (forall w | w in p.running :: w !in p.queued)
    && (forall v, w | v in p.keys && w in p.keys && SameKey(v, w) :: v == w)
    && (forall w | w in p.keys :: w.check <= 2)
  }

  /** Every job follows passed checks with all smaller numbers, and no job is left that failed for good. */
  ghost predicate JobsOk(p: Project) {
    && (forall w | w in p.keys :: InOrder(p.log, Of(w), w.check))
    && (forall w, o | Alive(p, w) && o in p.log :: IsOf(o, w) ==> !Final(o))
  }

  ghost predicate LogOk(p: Project) {
    && (forall o | o in p.log :: exists w | w in p.keys :: IsOf(o, w))
    && (forall j, k | 0 <= j < k < |p.log| && Final(p.log[j]) :: !SameCheck(p.log[j], p.log[k]))
  }

  ghost predicate Inv(p: Project) { KeysOk(p) && JobsOk(p) && LogOk(p) }

  lemma {:induction false} InOrderLater(log: seq<Outcome>, o: Outcome, c: Series, n: nat)
    requires InOrder(log, c, n)
    ensures InOrder(log + [o], c, n)
  {
    if n > 0 {
      var k :| 0 <= k < |log| && log[k] == Outcome(c, n - 1, true, true) && InOrder(log[..k], c, n - 1);
      assert (log + [o])[..k] == log[..k] && (log + [o])[k] == log[k];
    }
  }

  lemma InOrderNext(log: seq<Outcome>, c: Series, n: nat)
    requires InOrder(log, c, n)
    ensures InOrder(log + [Outcome(c, n, true, true)], c, n + 1)
  {
    assert (log + [Outcome(c, n, true, true)])[..|log|] == log;
  }

  lemma LoggedInv(p: Project, w: Watch, passed: bool, fate: Fate)
    requires Inv(p) && w in p.running
    ensures Inv(Logged(p, w, passed, fate))
  {
    hide InOrder;
    var p' := Logged(p, w, passed, fate);
    var o := p'.log[|p.log|];
    assert p'.log == p.log + [o] && IsOf(o, w);
    assert JobsOk(p') by {
      forall v | v in p'.keys ensures InOrder(p'.log, Of(v), v.check) { InOrderLater(p.log, o, Of(v), v.check); }
      forall v, o' | Alive(p', v) && o' in p'.log && IsOf(o', v) ensures !Final(o') {
        assert Alive(p, v);
        if o' !in p.log {
          assert SameKey(v, w);
        }
      }
    }
    assert LogOk(p') by {
      forall j, k | 0 <= j < k < |p'.log| && Final(p'.log[j]) ensures !SameCheck(p'.log[j], p'.log[k]) {
        assert p'.log[j] == p.log[j] && p.log[j] in p.log;
        if k == |p.log| {
          assert Alive(p, w) && !IsOf(p.log[j], w);
        }
      }
    }
  }

  lemma EnqueueInv(p: Project, w: Watch)
    requires Inv(p) && w.check <= 2 && InOrder(p.log, Of(w), w.check)
    ensures Inv(EnqueueWatch(p, w))
  {
    hide InOrder;
    if !Taken(p, w) {
      var p' := EnqueueWatch(p, w);
      forall o | o in p.log ensures !IsOf(o, w) {
        var v :| v in p.keys && IsOf(o, v);
        assert !SameKey(v, w);
      }
      assert LogOk(p') by {
        forall o | o in p'.log ensures exists v | v in p'.keys :: IsOf(o, v) {
          var v :| v in p.keys && IsOf(o, v);
          assert v in p'.keys;
        }
      }
    }
  }

  lemma CheckInv(p: Project, w: Watch, passed: bool, fate: Fate)
    requires Inv(p) && w in p.running
    ensures Inv(Checked(p, w, passed, fate))
  {
    hide Inv, InOrder, Fail, MarkKnownGood;
    LoggedInv(p, w, passed, fate);
    var p' := Logged(p, w, passed, fate);
    assert w.check <= 2 && InOrder(p.log, Of(w), w.check) by { KeyInOrder(p, w); }
    if !Written(fate) {
    } else if !passed {
      FailKeeps(p', w.kind, w.i);
      KeysDisjoint(p');
      SameInv(p', Fail(p', w.kind, w.i));
    } else if w.check < 2 {
      InOrderNext(p.log, Of(w), w.check);
      EnqueueInv(p', w.(check := w.check + 1));
    } else {
      MarkKeeps(p', w.d);
      KeysDisjoint(p');
      SameInv(p', MarkKnownGood(p', w.d));
    }
  }

  lemma KeyInOrder(p: Project, w: Watch)
    requires Inv(p) && w in p.running
    ensures w in p.keys && w.check <= 2 && InOrder(p.log, Of(w), w.check)
  {
    assert Alive(p, w);
  }

  lemma FailKeeps(p: Project, kind: Kind, i: IncidentId)
    ensures var p' := Fail(p, kind, i); p' == p.(incidents := p'.incidents)
  {
  }

  lemma MarkKeeps(p: Project, d: DeploymentId)
    ensures var p' := MarkKnownGood(p, d); p' == p.(deployments := p'.deployments)
  {
  }

  lemma SameInv(p: Project, p': Project)
    requires Inv(p) && p'.log == p.log && p'.keys == p.keys && p'.queued <= p.queued + p.running
    requires p'.running <= p.queued + p.running && p'.queued !! p'.running
    ensures Inv(p')
  {
    hide InOrder;
    forall w | Alive(p', w) ensures Alive(p, w) { }
  }

  lemma StepInv(p: Project, e: Event)
    requires Inv(p)
    ensures Inv(Step(p, e))
  {
    hide InOrder;
    match e
    case Check(w, healthy, matches, fate) =>
      var passed := Passes(w, healthy, matches);
      if w in p.running {
        hide Inv;
        CheckInv(p, w, passed, FateOf(p, w, passed, fate));
      }
    case StartWatch(start, passed) =>
      if start in p.starting {
        var p', w := p.(starting := p.starting - {start}), Watch(start.kind, start.i, start.d, 0);
        SameInv(p, p');
        hide Inv;
        if passed {
          NothingInOrder(p.log, Of(w));
          EnqueueInv(p', w);
        } else {
          FailKeeps(p', start.kind, start.i);
          assert Inv(p'.(incidents := Fail(p', start.kind, start.i).incidents)) by {
            KeysDisjoint(p');
            SameInv(p', p'.(incidents := Fail(p', start.kind, start.i).incidents));
          }
        }
      }
    case _ =>
      KeysDisjoint(p);
      SameInv(p, Step(p, e));
  }

  lemma NothingInOrder(log: seq<Outcome>, c: Series)
    ensures InOrder(log, c, 0)
  {
  }

  lemma KeysDisjoint(p: Project)
    requires Inv(p)
    ensures p.queued !! p.running
  {
  }

  // When a third check is proven.

  /** The log shows the watch failed: with a job that completed, or, where all failures count, at any check
      after the first. */
  predicate Spoiled(log: seq<Outcome>, c: Series, f: Failures) {
    exists o | o in log :: Breaks(o, c, f) && (f.All? ==> o.check >= 1)
  }

  lemma {:induction false} InOrderIsClear(log: seq<Outcome>, c: Series, n: nat, f: Failures)
    requires InOrder(log, c, n) && Unbroken(log, c, f)
    ensures Clear(log, c, n, f)
  {
    if n > 0 {
      var k :| 0 <= k < |log| && log[k] == Outcome(c, n - 1, true, true) && InOrder(log[..k], c, n - 1);
      InOrderIsClear(log[..k], c, n - 1, f);
    }
  }

  /** The positions of two passed checks in a row. */
  lemma TwoClear(log: seq<Outcome>, c: Series, f: Failures) returns (k0: nat, k1: nat)
    requires Clear(log, c, 2, f)
    ensures k0 < k1 < |log| && log[k0] == Outcome(c, 0, true, true) && log[k1] == Outcome(c, 1, true, true)
    ensures forall k | k0 < k < |log| :: !Breaks(log[k], c, f)
  {
    hide Clear;
    k1 := LastPass(log, c, 2, f);
    k0 := LastPass(log[..k1], c, 1, f);
    forall k | k0 < k < |log| ensures !Breaks(log[k], c, f) {
      if k < k1 {
        assert log[..k1][k0 + 1..][k - k0 - 1] == log[k];
      } else if k > k1 {
        assert log[k1 + 1..][k - k1 - 1] == log[k];
      }
    }
  }

  /** A third check follows two in a row exactly if no job of its watch completed with a failure. */
  lemma ClearExactly(p: Project, w: Watch)
    requires Inv(p) && w in p.running && w.check == 2
    ensures Clear(p.log, Of(w), 2, RecordedOnly) <==> !Spoiled(p.log, Of(w), RecordedOnly)
  {
    hide Clear, InOrder;
    var c := Of(w);
    if Spoiled(p.log, c, RecordedOnly) {
      var o :| o in p.log && Breaks(o, c, RecordedOnly);
      var m :| 0 <= m < |p.log| && p.log[m] == o;
      LastIsUnfailed(p, w, o);
      FinalIsNotClear(p, c, m);
    } else {
      KeyInOrder(p, w);
      InOrderIsClear(p.log, c, 2, RecordedOnly);
    }
  }

  lemma FinalIsNotClear(p: Project, c: Series, m: nat)
    requires LogOk(p) && m < |p.log| && Breaks(p.log[m], c, RecordedOnly) && p.log[m].check < 2
    ensures !Clear(p.log, c, 2, RecordedOnly)
  {
    hide Clear;
    if Clear(p.log, c, 2, RecordedOnly) {
      var k0, k1 := TwoClear(p.log, c, RecordedOnly);
      assert false;
    }
  }

  lemma LastIsUnfailed(p: Project, w: Watch, o: Outcome)
    requires Inv(p) && w in p.running && w.check == 2 && o in p.log && o.series == Of(w) && Final(o)
    ensures o.check < 2
  {
    hide InOrder;
    assert Alive(p, w);
    var v :| v in p.keys && IsOf(o, v);
  }

  // Runs in which no handler of a passed check is run again after its writes.

  /** The handler of one of the first two checks passes and enqueues the next, and yet reports an error. */
  predicate Repeats(e: Event) {
    && e.Check? && e.watch.check < 2 && e.fate == Errs(true) && Passes(e.watch, e.healthy, e.branchHeadMatches)
  }

  predicate NoRepeats(es: seq<Event>) { forall e | e in es :: !Repeats(e) }

  /** An outcome after which check `n` of its series may still be made. */
  predicate Before(o: Outcome, n: nat) {
    !Final(o) && o.check <= n && (o.passed && o.recorded && o.check < 2 ==> o.check < n)
  }

  /** Each series has one job at a time, with the largest number so far. */
  ghost predicate OneJob(p: Project) {
    && (forall v, w | Alive(p, v) && Alive(p, w) && Of(v) == Of(w) :: v == w)
    && (forall w, o | Alive(p, w) && o in p.log && o.series == Of(w) :: Before(o, w.check))
  }

  predicate Started(p: Project) { forall w | w in p.keys :: Taken(p, w.(check := 0)) }

  ghost predicate Sequential(p: Project) {
    forall j, k | 0 <= j < k < |p.log| && p.log[j].series == p.log[k].series :: Before(p.log[j], p.log[k].check)
  }

  ghost predicate Tidy(p: Project) { OneJob(p) && Started(p) && Sequential(p) }

  lemma LoggedTidy(p: Project, w: Watch, passed: bool, fate: Fate)
    requires Inv(p) && Tidy(p) && w in p.running && !(passed && w.check < 2 && fate == Errs(true))
    ensures Tidy(Logged(p, w, passed, fate))
  {
    hide InOrder;
    var p' := Logged(p, w, passed, fate);
    assert forall v | Alive(p', v) :: Alive(p, v);
    assert Alive(p, w);
    assert Started(p') by { StillStarted(p, p'); }
    hide Started;
    forall j, k | 0 <= j < k < |p'.log| && p'.log[j].series == p'.log[k].series
      ensures Before(p'.log[j], p'.log[k].check)
    {
      assert p'.log[j] == p.log[j] && p.log[j] in p.log;
    }
  }

  lemma EnqueueTidy(p: Project, w: Watch)
    requires Inv(p) && Tidy(p) && Taken(p.(keys := p.keys + {w}), w.(check := 0))
    requires forall v | Alive(p, v) :: Of(v) != Of(w)
    requires forall o | o in p.log && o.series == Of(w) :: Before(o, w.check)
    ensures Tidy(EnqueueWatch(p, w))
  {
    hide Inv, Started;
    if !Taken(p, w) {
      var p' := EnqueueWatch(p, w);
      hide Taken;
      assert forall v | Alive(p', v) :: Alive(p, v) || v == w;
      StillStarted(p, p');
    }
  }

  lemma StillStarted(p: Project, p': Project)
    requires Started(p) && p.keys <= p'.keys
    requires forall w | w in p'.keys - p.keys :: Taken(p', w.(check := 0))
    ensures Started(p')
  {
    hide Taken;
    forall w | w in p.keys ensures Taken(p', w.(check := 0)) { TakenLater(p, p', w.(check := 0)); }
  }

  lemma TakenLater(p: Project, p': Project, w: Watch)
    requires Taken(p, w) && p.keys <= p'.keys
    ensures Taken(p', w)
  {
    var u :| u in p.keys && SameKey(u, w);
    assert u in p'.keys;
  }

  /** Nothing has been enqueued or checked for a watch that is only now started. */
  lemma NewSeries(p: Project, w: Watch)
    requires Inv(p) && Tidy(p) && w.check == 0 && !Taken(p, w)
    ensures forall v | v in p.keys :: Of(v) != Of(w)
    ensures forall v | Alive(p, v) :: Of(v) != Of(w)
    ensures forall o | o in p.log :: o.series != Of(w)
  {
    hide InOrder;
    forall v | v in p.keys ensures Of(v) != Of(w) {
      var u :| u in p.keys && SameKey(u, v.(check := 0));
      assert !SameKey(u, w);
    }
    forall o | o in p.log ensures o.series != Of(w) {
      var v :| v in p.keys && IsOf(o, v);
    }
  }

  lemma NextTidy(p: Project, w: Watch, fate: Fate)
    requires Inv(p) && Tidy(p) && w in p.running && w.check < 2 && fate.Finishes?
    ensures var p' := Logged(p, w, true, fate); Tidy(EnqueueWatch(p', w.(check := w.check + 1)))
  {
    hide InOrder, Taken, Sequential;
    LoggedTidy(p, w, true, fate);
    LoggedInv(p, w, true, fate);
    var p', next := Logged(p, w, true, fate), w.(check := w.check + 1);
    assert Alive(p, w);
    forall v | Alive(p', v) ensures Of(v) != Of(next) { assert Alive(p, v); }
    TakenLater(p, p'.(keys := p'.keys + {next}), w.(check := 0));
    hide Inv, Started;
    EnqueueTidy(p', next);
  }

  lemma SameTidy(p: Project, p': Project)
    requires Tidy(p) && p'.log == p.log && p'.keys == p.keys
    requires p'.queued <= p.queued + p.running && p'.running <= p.queued + p.running
    ensures Tidy(p')
  {
    assert forall v | Alive(p', v) :: Alive(p, v);
    StillStarted(p, p');
  }

  lemma StepTidy(p: Project, e: Event)
    requires Inv(p) && Tidy(p) && !Repeats(e)
    ensures Tidy(Step(p, e))
  {
    hide InOrder, Tidy, Inv;
    match e
    case Check(w, healthy, matches, f) =>
      if w in p.running {
        var passed := Passes(w, healthy, matches);
        var fate := FateOf(p, w, passed, f);
        var p' := Logged(p, w, passed, fate);
        LoggedTidy(p, w, passed, fate);
        if !Written(fate) {
        } else if !passed {
          FailKeeps(p', w.kind, w.i);
          SameTidy(p', Fail(p', w.kind, w.i));
        } else if w.check < 2 {
          NextTidy(p, w, fate);
        } else {
          MarkKeeps(p', w.d);
          SameTidy(p', MarkKnownGood(p', w.d));
        }
      }
    case StartWatch(start, passed) =>
      if start in p.starting {
        var p', w := p.(starting := p.starting - {start}), Watch(start.kind, start.i, start.d, 0);
        SameTidy(p, p');
        FailKeeps(p', start.kind, start.i);
        if !passed {
          SameTidy(p', Fail(p', start.kind, start.i));
        } else if !Taken(p', w) {
          KeysDisjoint(p);
          SameInv(p, p');
          NewSeries(p', w);
          EnqueueTidy(p', w);
        }
      }
    case _ => SameTidy(p, Step(p, e));
  }

  /** In such runs a third check follows two in a row, with no failed check between, exactly if no check
      after the first failed. */
  lemma ClearTidy(p: Project, w: Watch)
    requires Inv(p) && Tidy(p) && w in p.running && w.check == 2
    ensures Clear(p.log, Of(w), 2, All) <==> !Spoiled(p.log, Of(w), All)
  {
    hide Clear, InOrder;
    var log, c := p.log, Of(w);
    if Spoiled(log, c, All) {
      var o :| o in log && Breaks(o, c, All) && o.check >= 1;
      var m :| 0 <= m < |log| && log[m] == o;
      if Clear(log, c, 2, All) {
        NotClear(p, c, m);
      }
    } else {
      KeyInOrder(p, w);
      ClearInOrder(p, c);
    }
  }

  lemma NotClear(p: Project, c: Series, m: nat)
    requires Sequential(p) && m < |p.log| && Breaks(p.log[m], c, All) && p.log[m].check >= 1
    ensures !Clear(p.log, c, 2, All)
  {
    hide Clear;
    if Clear(p.log, c, 2, All) {
      var k0, k1 := TwoClear(p.log, c, All);
      assert false;
    }
  }

  lemma ClearInOrder(p: Project, c: Series)
    requires Tidy(p) && InOrder(p.log, c, 2) && !Spoiled(p.log, c, All)
    ensures Clear(p.log, c, 2, All)
  {
    var log := p.log;
    var k1 :| 0 <= k1 < |log| && log[k1] == Outcome(c, 1, true, true) && InOrder(log[..k1], c, 1);
    var k0 :| 0 <= k0 < k1 && log[..k1][k0] == Outcome(c, 0, true, true);
    hide InOrder;
    forall k | k0 < k < |log| ensures !Breaks(log[k], c, All) {
      assert log[k] in log;
      assert log[k].series == c ==> Before(log[k0], log[k].check);
    }
    ClearFrom(log, c, k0, k1, All);
  }

  lemma ClearFrom(log: seq<Outcome>, c: Series, k0: nat, k1: nat, f: Failures)
    requires k0 < k1 < |log| && log[k0] == Outcome(c, 0, true, true) && log[k1] == Outcome(c, 1, true, true)
    requires forall k | k0 < k < |log| :: !Breaks(log[k], c, f)
    ensures Clear(log, c, 2, f)
  {
    var first := log[..k1];
    assert Clear(first, c, 1, f) by {
      assert first[k0] == Outcome(c, 0, true, true) && Clear(first[..k0], c, 0, f);
      assert Unbroken(first[k0 + 1..], c, f);
    }
    assert Unbroken(log[k1 + 1..], c, f);
  }

  // Whole runs.

  /** Recorded at setup, or some third check of it passed and was recorded: plainly read off the log. */
  predicate Watched(p: Project, d: DeploymentId) {
    d == p.setup || exists o | o in p.log :: Third(o, d)
  }

  predicate Third(o: Outcome, d: DeploymentId) { o.series.d == d && o.check == 2 && o.passed && o.recorded }

  /** The trigger adopts a deployment that was never watched to the end. */
  predicate AdoptsUnwatched(p: Project, e: Event) {
    e.HealthUpdate? && e.healthy && Candidate(p).Some? && !Watched(p, Candidate(p).value)
  }

  /** A third check marks a deployment for the first time, although its watch had failed. */
  predicate MarksFailed(p: Project, e: Event, f: Failures) {
    Marks(p, e) && Spoiled(p.log, Of(e.watch), f) && !Watched(p, e.watch.d)
  }

  /** A third check marks a deployment for the first time, with no two passed checks in a row before it. */
  predicate MarksOutOfRow(p: Project, e: Event, f: Failures) {
    Marks(p, e) && !Clear(p.log, Of(e.watch), 2, f) && !Watched(p, e.watch.d)
  }

  /** Every deployment watched to the end earned it. */
  ghost predicate WatchesEarn(p: Project, f: Failures) { forall d | Watched(p, d) :: Earned(p, d, f) }

  lemma EarnedIsWatched(p: Project, d: DeploymentId, f: Failures)
    requires Earned(p, d, f)
    ensures Watched(p, d)
  {
    if d != p.setup {
      hide Clear;
      var c: Series, m :| 0 <= m <= |p.log| && c.d == d && Clear(p.log[..m], c, 3, f);
      var k := LastPass(p.log[..m], c, 3, f);
      assert p.log[k] in p.log && Third(p.log[k], d);
    }
  }

  /** Where that is so, earning is what the plain reading says. */
  lemma EarnedIsPlain(p: Project, f: Failures)
    requires WatchesEarn(p, f)
    ensures forall d :: Earned(p, d, f) == Watched(p, d)
  {
    forall d ensures Earned(p, d, f) == Watched(p, d) {
      if Earned(p, d, f) { EarnedIsWatched(p, d, f); }
    }
  }

  /** A step after which the baseline is proven keeps it so: whatever it completes, it marks. */
  lemma WatchesStillEarn(p: Project, e: Event, f: Failures)
    requires Inv(p) && WatchesEarn(p, f) && Proven(Step(p, e), f)
    ensures WatchesEarn(Step(p, e), f)
  {
    hide Earned, Inv;
    var p' := Step(p, e);
    if e.Check? && e.watch in p.running {
      var o := p'.log[|p.log|];
      assert p'.log == p.log + [o] && o.series == Of(e.watch) && o.check == e.watch.check;
      forall d | Watched(p', d) ensures Earned(p', d, f) {
        if Watched(p, d) {
          EarnedBefore(p, p', o, d, f);
        } else {
          assert Third(o, d);
          assert p'.deployments[d].knownGood by { ThirdMarks(p, e); }
        }
      }
    } else {
      SameEarned(p, p', f);
    }
  }

  lemma ThirdMarks(p: Project, e: Event)
    requires e.Check? && e.watch in p.running
    ensures var p' := Step(p, e);
      |p'.log| == |p.log| + 1 && (Third(p'.log[|p.log|], e.watch.d) ==>
        e.watch.d in p'.deployments && p'.deployments[e.watch.d].knownGood)
  {
  }

  lemma StepExactly(p: Project, e: Event, f: Failures)
    requires Inv(p) && Proven(p, f) && WatchesEarn(p, f) && (f.All? ==> Tidy(p))
    ensures Proven(Step(p, e), f) <==> !AdoptsUnwatched(p, e) && !MarksFailed(p, e, f)
  {
    hide Inv, Tidy, Proven, Clear, Earned, Watched, WatchesEarn, Spoiled, Candidate;
    EarnedIsPlain(p, f);
    forall w | w in p.running ensures w.check <= 2 { KeyInOrder(p, w); }
    ProvenStep(p, e, f);
    if Marks(p, e) {
      match f
      case RecordedOnly => ClearExactly(p, e.watch);
      case All => ClearTidy(p, e.watch);
    }
  }

  ghost predicate NeverUnproven(p: Project, es: seq<Event>, f: Failures)
    decreases |es|
  {
    es == [] ||
    (!AdoptsUnwatched(p, es[0]) && !MarksFailed(p, es[0], f) && NeverUnproven(Step(p, es[0]), es[1..], f))
  }

  /** In no step of a run the trigger adopts what was never watched to the end. */
  ghost predicate NeverAdopts(p: Project, es: seq<Event>)
    decreases |es|
  {
    es == [] || (!AdoptsUnwatched(p, es[0]) && NeverAdopts(Step(p, es[0]), es[1..]))
  }

  ghost predicate AlwaysProven(p: Project, es: seq<Event>, f: Failures)
    decreases |es|
  {
    Proven(p, f) && (es == [] || AlwaysProven(Step(p, es[0]), es[1..], f))
  }

  lemma AlwaysProvenNow(p: Project, es: seq<Event>, f: Failures)
    ensures AlwaysProven(p, es, f) ==> Proven(p, f)
  {
  }

  lemma {:induction false} ProvenRun(p: Project, es: seq<Event>, f: Failures)
    requires Inv(p) && Proven(p, f) && WatchesEarn(p, f) && (f.All? ==> Tidy(p) && NoRepeats(es))
    ensures AlwaysProven(p, es, f) <==> NeverUnproven(p, es, f)
    decreases |es|
  {
    if es != [] {
      hide Proven, Inv, Tidy, WatchesEarn, AdoptsUnwatched, MarksFailed, Step, Repeats;
      StepExactly(p, es[0], f);
      StepInv(p, es[0]);
      if AdoptsUnwatched(p, es[0]) || MarksFailed(p, es[0], f) {
        AlwaysProvenNow(Step(p, es[0]), es[1..], f);
      } else {
        WatchesStillEarn(p, es[0], f);
        if f.All? { StepTidy(p, es[0]); }
        ProvenRun(Step(p, es[0]), es[1..], f);
      }
    }
  }

  lemma SetUpOk(d: DeploymentId, f: Failures)
    ensures Inv(SetUp(d)) && Tidy(SetUp(d)) && Proven(SetUp(d), f) && WatchesEarn(SetUp(d), f)
  {
  }

  /** From setup on, at every moment every known-good deployment is the one recorded at setup or passed three
      watch checks in a row, no job of that watch completing with a failure between them, exactly in the runs
      where the trigger adopts only what was watched to the end and no third check marks a deployment for the
      first time whose watch so failed. */
  lemma BaselineProvenExactly(d: DeploymentId, es: seq<Event>)
    ensures AlwaysProven(SetUp(d), es, RecordedOnly) <==> NeverUnproven(SetUp(d), es, RecordedOnly)
  {
    SetUpOk(d, RecordedOnly);
    ProvenRun(SetUp(d), es, RecordedOnly);
  }

  /** The same where no failed check at all may come between, in runs without repeated checks: exactly when
      moreover no third check marks a deployment one of whose later checks failed in a handler that erred. */
  lemma BaselineUnbrokenExactly(d: DeploymentId, es: seq<Event>)
    requires NoRepeats(es)
    ensures AlwaysProven(SetUp(d), es, All) <==> NeverUnproven(SetUp(d), es, All)
  {
    SetUpOk(d, All);
    ProvenRun(SetUp(d), es, All);
  }

  lemma {:induction false} WatchedRun(p: Project, es: seq<Event>, f: Failures)
    requires Inv(p) && WatchesEarn(p, f) && AlwaysProven(p, es, f)
    ensures forall d :: Earned(Run(p, es), d, f) == Watched(Run(p, es), d)
    decreases |es|
  {
    hide Proven, Inv, WatchesEarn, Earned, Watched, Step;
    if es == [] {
      EarnedIsPlain(p, f);
    } else {
      StepInv(p, es[0]);
      AlwaysProvenNow(Step(p, es[0]), es[1..], f);
      WatchesStillEarn(p, es[0], f);
      WatchedRun(Step(p, es[0]), es[1..], f);
    }
  }

  /** In every run in which the baseline stays proven, having been recorded at setup or watched to the end is
      the same as having passed three checks in a row. */
  lemma WatchedIsEarned(setup: DeploymentId, es: seq<Event>, d: DeploymentId, f: Failures)
    requires AlwaysProven(SetUp(setup), es, f)
    ensures Earned(Run(SetUp(setup), es), d, f) <==> Watched(Run(SetUp(setup), es), d)
  {
    hide AlwaysProven, Earned, Watched, Run;
    SetUpOk(setup, f);
    WatchedRun(SetUp(setup), es, f);
  }

  ghost predicate NeverOutOfRow(p: Project, es: seq<Event>, f: Failures)
    decreases |es|
  {
    es == [] ||
    (!AdoptsUnwatched(p, es[0]) && !MarksOutOfRow(p, es[0], f) && NeverOutOfRow(Step(p, es[0]), es[1..], f))
  }

  lemma {:induction false} InARowRun(p: Project, es: seq<Event>, f: Failures)
    requires Inv(p) && Proven(p, f) && WatchesEarn(p, f)
    ensures AlwaysProven(p, es, f) <==> NeverOutOfRow(p, es, f)
    decreases |es|
  {
    if es != [] {
      StepByChecks(p, es[0], f);
      hide Proven, Inv, WatchesEarn, AdoptsUnwatched, MarksOutOfRow, Step;
      StepInv(p, es[0]);
      if AdoptsUnwatched(p, es[0]) || MarksOutOfRow(p, es[0], f) {
        AlwaysProvenNow(Step(p, es[0]), es[1..], f);
      } else {
        WatchesStillEarn(p, es[0], f);
        InARowRun(Step(p, es[0]), es[1..], f);
      }
    }
  }

  lemma StepByChecks(p: Project, e: Event, f: Failures)
    requires Inv(p) && Proven(p, f) && WatchesEarn(p, f)
    ensures Proven(Step(p, e), f) <==> !AdoptsUnwatched(p, e) && !MarksOutOfRow(p, e, f)
  {
    hide Inv, Proven, Clear, Earned, Watched, WatchesEarn, Candidate;
    EarnedIsPlain(p, f);
    forall w | w in p.running ensures w.check <= 2 { KeyInOrder(p, w); }
    ProvenStep(p, e, f);
  }

  /** In every run, repeated checks or not, and whichever failures count: the baseline is always proven exactly
      when the trigger adopts nothing else and each third check that marks a new deployment finds its first two
      passed, in their order and with no such failure since the first. */
  lemma BaselineByChecks(d: DeploymentId, es: seq<Event>, f: Failures)
    ensures AlwaysProven(SetUp(d), es, f) <==> NeverOutOfRow(SetUp(d), es, f)
  {
    SetUpOk(d, f);
    InARowRun(SetUp(d), es, f);
  }

  lemma {:induction false} WatchesNeverFail(p: Project, es: seq<Event>)
    requires Inv(p) && Tidy(p) && NoRepeats(es)
    ensures NeverUnproven(p, es, RecordedOnly) <==> NeverAdopts(p, es)
    decreases |es|
  {
    if es != [] {
      NoneFailed(p, es[0]);
      hide Inv, Tidy, AdoptsUnwatched, MarksFailed, Step, Repeats;
      StepInv(p, es[0]);
      StepTidy(p, es[0]);
      WatchesNeverFail(Step(p, es[0]), es[1..]);
    }
  }

  lemma NoneFailed(p: Project, e: Event)
    requires Tidy(p)
    ensures !MarksFailed(p, e, RecordedOnly)
  {
    if Marks(p, e) { assert Alive(p, e.watch); }
  }

  /** Only a repeated check lets a failed watch go on: without one, the trigger is all that can break it. */
  lemma OnlyTheTriggerBreaksIt(d: DeploymentId, es: seq<Event>)
    requires NoRepeats(es)
    ensures AlwaysProven(SetUp(d), es, RecordedOnly) <==> NeverAdopts(SetUp(d), es)
  {
    SetUpOk(d, RecordedOnly);
    WatchesNeverFail(SetUp(d), es);
    BaselineProvenExactly(d, es);
  }

  /** While an incident is active, only a third passed check moves the baseline; upserts never do. */
  lemma BaselineMovesOnlyByWatch(p: Project, e: Event, d: DeploymentId)
    requires d in p.deployments && (Active(p) || !e.HealthUpdate?)
    ensures d in Step(p, e).deployments
    ensures Step(p, e).deployments[d].knownGood != p.deployments[d].knownGood ==> Marks(p, e)
    ensures Marks(p, e) && e.watch.d == d ==> Step(p, e).deployments[d].knownGood
  {
  }

  /** Whatever advances the baseline replaces it: exactly one production deployment is known-good then. */
  lemma BaselineIsReplaced(p: Project, e: Event, d: DeploymentId)
    requires d in p.deployments && p.deployments[d].production
    requires !p.deployments[d].knownGood && Step(p, e).deployments[d].knownGood
    ensures forall c | c in Step(p, e).deployments && Step(p, e).deployments[c].production ::
      Step(p, e).deployments[c].knownGood <==> c == d
  {
  }

  lemma {:induction false} RunLater(p: Project, es: seq<Event>)
    requires Inv(p)
    ensures Inv(Run(p, es)) && p.log <= Run(p, es).log
    decreases |es|
  {
    if es != [] {
      StepInv(p, es[0]);
      LogGrows(p, es[0]);
      hide Inv, Step;
      RunLater(Step(p, es[0]), es[1..]);
    }
  }

  lemma LogGrows(p: Project, e: Event)
    ensures p.log <= Step(p, e).log
  {
  }

  lemma FailedNow(p: Project, w: Watch, healthy: bool, matches: bool)
    requires w in p.running && !Passes(w, healthy, matches) && !Refused(p, w, false)
    ensures var p' := Step(p, Check(w, healthy, matches, Finishes));
      && p'.deployments == p.deployments && p'.keys == p.keys
      && p'.log == p.log + [Outcome(Of(w), w.check, false, true)]
      && (w.kind.Durable? && Live(p, w.kind, w.i) ==>
            p'.incidents[w.i].status == if HasBaseline(p) then RollingBack else Escalated)
  {
  }

  /** A check whose job completes with a failure is made for the last time, whatever the run goes on with;
      it moves no baseline, and a durable one rolls its incident back, or escalates it without a baseline. */
  lemma FailedCheckEndsWatch(p: Project, w: Watch, healthy: bool, matches: bool, es: seq<Event>)
    requires Inv(p) && w in p.running && !Passes(w, healthy, matches) && !Refused(p, w, false)
    ensures var p' := Step(p, Check(w, healthy, matches, Finishes));
      && p'.deployments == p.deployments && p'.keys == p.keys
      && (w.kind.Durable? && Live(p, w.kind, w.i) ==>
            p'.incidents[w.i].status == if HasBaseline(p) then RollingBack else Escalated)
    ensures var p' := Step(p, Check(w, healthy, matches, Finishes));
      var q := Run(p', es);
      && p'.log <= q.log && !Alive(q, w)
      && forall k | |p'.log| <= k < |q.log| :: !IsOf(q.log[k], w)
  {
    hide Run, Step, Inv, Refused, HasBaseline;
    var e := Check(w, healthy, matches, Finishes);
    FailedNow(p, w, healthy, matches);
    StepInv(p, e);
    RunLater(Step(p, e), es);
    NeverAgain(Run(Step(p, e), es), w, |p.log|);
  }

  lemma NeverAgain(q: Project, w: Watch, n: nat)
    requires Inv(q) && n < |q.log| && Final(q.log[n]) && IsOf(q.log[n], w)
    ensures !Alive(q, w) && forall k | n < k < |q.log| :: !IsOf(q.log[k], w)
  {
    hide InOrder;
    assert q.log[n] in q.log;
  }

  lemma {:induction false} RunSnoc(p: Project, es: seq<Event>, e: Event)
    ensures Run(p, es + [e]) == Step(Run(p, es), e)
    decreases |es|
  {
    if es == [] {
      assert es + [e] == [e];
      assert Run(Step(p, e), []) == Step(p, e);
    } else {
      assert (es + [e])[1..] == es[1..] + [e];
      RunSnoc(Step(p, es[0]), es[1..], e);
    }
  }
}
