/** Runs in which a deployment becomes the rollback baseline that one would not expect there. */
module KnownGoodRuns {
  import opened Wrappers
  import opened Policy
  import opened KnownGood
  import L = IncidentLifecycle

  lemma Then(es: seq<Event>, e: Event) returns (longer: seq<Event>)
    ensures longer == es + [e] && Run(SetUp(1), longer) == Step(Run(SetUp(1), es), e)
  {
    RunSnoc(SetUp(1), es, e);
    longer := es + [e];
  }

  const REVERT := L.Revert(3, "node", "head", "base")

  /** The repair's deployment 2 stored behind the baseline 1, incident 7, and its watch jobs. */
  datatype Scene = Scene(
    status: IncidentState,
    queued: set<Watch>,
    running: set<Watch>,
    keys: set<Watch>,
    log: seq<Outcome>,
    good: DeploymentId)

  predicate At(p: Project, x: Scene) {
    && p.deployments == map[1 := Deployment(true, true, x.good == 1), 2 := Deployment(true, true, x.good == 2)]
    && p.order == [1, 2] && p.incidents.Keys == {7} && p.incidents[7].status == x.status && p.setup == 1
    && (x.status.Escalated? ==> REVERT in p.incidents[7].reverts)
    && p.queued == x.queued && p.running == x.running && p.keys == x.keys && p.log == x.log
  }

  /** The run of a repair up to a state of its incident, before its durable deployment is stored. */
  predicate Reached(p: Project, status: IncidentState) {
    && p.deployments == map[1 := Deployment(true, true, true)] && p.order == [1] && p.setup == 1
    && p.incidents.Keys == {7} && p.incidents[7].status == status
    && p.queued == {} && p.running == {} && p.keys == {} && p.log == []
  }

  lemma Advance(es: seq<Event>, status: IncidentState, next: IncidentState) returns (longer: seq<Event>)
    requires Reached(Run(SetUp(1), es), status) && CanTransition(status, next) && NoRepeats(es)
    ensures Reached(Run(SetUp(1), longer), next) && NoRepeats(longer)
  {
    longer := Then(es, OnIncident(7, L.Transition(status, next)));
  }

  lemma OpenedRun() returns (es: seq<Event>)
    ensures Reached(Run(SetUp(1), es), Open) && NoRepeats(es)
  {
    es := [OpenIncident(7, false)];
    assert es == [] + es && es[1..] == [];
    assert Run(Step(SetUp(1), es[0]), []) == Step(SetUp(1), es[0]);
  }

  lemma RepairDeployed() returns (es: seq<Event>)
    ensures At(Run(SetUp(1), es), Scene(VerifyingProduction, {}, {}, {}, [], 1)) && NoRepeats(es)
  {
    hide Reached, Run, Step, NoRepeats;
    es := OpenedRun();
    es := Advance(es, Open, CollectingContext);
    es := Advance(es, CollectingContext, Diagnosing);
    es := Advance(es, Diagnosing, Planning);
    es := Advance(es, Planning, Repairing);
    es := Advance(es, Repairing, Testing);
    es := Advance(es, Testing, PreviewDeploying);
    es := Advance(es, PreviewDeploying, VerifyingPreview);
    es := Advance(es, VerifyingPreview, ProductionDeploying);
    es := Advance(es, ProductionDeploying, VerifyingProduction);
    es := SavedRun(es);
  }

  lemma SavedRun(es: seq<Event>) returns (longer: seq<Event>)
    requires Reached(Run(SetUp(1), es), VerifyingProduction) && NoRepeats(es)
    ensures At(Run(SetUp(1), longer), Scene(VerifyingProduction, {}, {}, {}, [], 1)) && NoRepeats(longer)
  {
    longer := Then(es, Save(2, true, true));
  }

  // The steps of a watch.

  function Job(kind: Kind, n: nat): Watch { Watch(kind, 7, 2, n) }

  predicate Fits(kind: Kind, x: Scene) {
    && (if kind.Durable? then x.status.VerifyingProduction? else x.status.Escalated? && kind.revert == REVERT)
    && (forall w | w in x.keys :: w == Job(kind, w.check))
  }

  function Begin(x: Scene, w: Watch): Scene { x.(queued := x.queued - {w}, running := x.running + {w}) }

  function Again(x: Scene, w: Watch, fate: Fate): Scene {
    x.(running := x.running - {w}, queued := if fate.Finishes? then x.queued else x.queued + {w})
  }

  function Write(x: Scene, w: Watch, passed: bool, recorded: bool): Scene {
    x.(log := x.log + [Outcome(Of(w), w.check, passed, recorded)])
  }

  function Enqueue(x: Scene, w: Watch): Scene { x.(queued := x.queued + {w}, keys := x.keys + {w}) }

  lemma StartedRun(es: seq<Event>, x: Scene, kind: Kind) returns (longer: seq<Event>)
    requires At(Run(SetUp(1), es), x) && Fits(kind, x) && x.keys == {}
    ensures NoRepeats(es) ==> NoRepeats(longer)
    ensures At(Run(SetUp(1), longer), Enqueue(x, Job(kind, 0)))
  {
    longer := Then(es, BeginStart(Start(kind, 7, 2)));
    assert At(Run(SetUp(1), longer), x);
    longer := Then(longer, StartWatch(Start(kind, 7, 2), true));
  }

  lemma Begun(p: Project, x: Scene, w: Watch)
    requires At(p, x) && Fits(w.kind, x) && w in x.queued && w.i == 7
    ensures At(Step(p, BeginCheck(w)), Begin(x, w))
  {
  }

  lemma Free(p: Project, x: Scene, kind: Kind, n: nat)
    requires At(p, x) && Fits(kind, x) && Job(kind, n) !in x.keys
    ensures !Taken(p, Job(kind, n))
  {
  }

  lemma PassedNow(p: Project, x: Scene, kind: Kind, n: nat, fate: Fate)
    requires At(p, x) && Fits(kind, x) && Job(kind, n) in x.running && n < 2 && Written(fate)
    requires Job(kind, n + 1) !in x.keys
    ensures At(Step(p, Check(Job(kind, n), true, true, fate)),
      Enqueue(Again(Write(x, Job(kind, n), true, true), Job(kind, n), fate), Job(kind, n + 1)))
  {
    var w := Job(kind, n);
    var p' := Logged(p, w, true, fate);
    hide Taken;
    Free(p, x, kind, n + 1);
    SameTaken(p, p', Job(kind, n + 1));
  }

  lemma SameTaken(p: Project, p': Project, w: Watch)
    requires p.keys == p'.keys
    ensures Taken(p', w) == Taken(p, w)
  {
  }

  /** A failed check that leaves the incident as it is: one of source recovery, or one whose handler errs. */
  lemma FailedHere(p: Project, x: Scene, kind: Kind, n: nat, fate: Fate)
    requires At(p, x) && Fits(kind, x) && Job(kind, n) in x.running
    requires fate == Errs(false) || (kind.SourceRecovery? && fate == Finishes)
    ensures At(Step(p, Check(Job(kind, n), false, true, fate)),
      Again(Write(x, Job(kind, n), false, fate.Finishes?), Job(kind, n), fate))
  {
  }

  lemma MarkedNow(p: Project, x: Scene, kind: Kind)
    requires At(p, x) && Fits(kind, x) && Job(kind, 2) in x.running
    ensures At(Step(p, Check(Job(kind, 2), true, true, Finishes)),
      Again(Write(x, Job(kind, 2), true, true), Job(kind, 2), Finishes).(good := 2))
  {
  }

  lemma RolledBackRun(es: seq<Event>) returns (longer: seq<Event>)
    requires At(Run(SetUp(1), es), Scene(VerifyingProduction, {}, {}, {}, [], 1))
    ensures At(Run(SetUp(1), longer), Scene(RolledBack, {}, {}, {}, [], 1))
    ensures Run(SetUp(1), longer).incidents[7].resolvedAt
  {
    longer := Then(es, BeginStart(Start(Durable, 7, 2)));
    var p := Run(SetUp(1), longer);
    assert p.deployments[1].production && p.deployments[1].knownGood;
    longer := Then(longer, StartWatch(Start(Durable, 7, 2), false));
    assert At(Run(SetUp(1), longer), Scene(RollingBack, {}, {}, {}, [], 1));
    longer := Then(longer, OnIncident(7, L.Transition(RollingBack, RolledBack)));
  }

  lemma TriggerAdopts(p: Project)
    requires At(p, Scene(RolledBack, {}, {}, {}, [], 1)) && p.incidents[7].resolvedAt
    ensures var p' := Step(p, HealthUpdate(true));
      && p'.log == [] && p'.setup == 1 && p'.deployments.Keys == {1, 2}
      && p'.deployments[2].knownGood && !p'.deployments[1].knownGood
  {
    assert Candidate(p) == Some(2);
  }

  lemma NothingEarned(p: Project, f: Failures)
    requires p.log == [] && p.setup == 1
    ensures !Earned(p, 2, f)
  {
  }

  /** A repair's durable deployment fails its very first check, production is rolled back, and the next
      successful health check makes the failed deployment the baseline. */
  lemma FailedRepairBecomesBaseline() returns (es: seq<Event>)
    ensures var p := Run(SetUp(1), es);
      && p.log == [] && p.setup == 1 && 2 in p.deployments && p.deployments[2].knownGood && !Earned(p, 2, RecordedOnly)
      && 1 in p.deployments && !p.deployments[1].knownGood
  {
    hide At, Step, Run, Earned;
    es := RepairDeployed();
    es := RolledBackRun(es);
    TriggerAdopts(Run(SetUp(1), es));
    es := Then(es, HealthUpdate(true));
    NothingEarned(Run(SetUp(1), es), RecordedOnly);
  }

  lemma RevertRecorded(es: seq<Event>) returns (longer: seq<Event>)
    requires At(Run(SetUp(1), es), Scene(RolledBack, {}, {}, {}, [], 1))
    ensures At(Run(SetUp(1), longer), Scene(Escalated, {}, {}, {}, [], 1))
  {
    longer := Then(es, OnIncident(7, L.ReadRolledBack(4)));
    assert 4 in Run(SetUp(1), longer).incidents[7].readers;
    longer := Then(longer, OnIncident(7, L.RecordRevert(4, REVERT)));
    longer := Then(longer, OnIncident(7, L.Transition(RolledBack, Escalated)));
  }

  /** Deployment 2 is earned in the end exactly if the first two checks were clear before the third. */
  lemma EarnedByThird(p: Project, x: Scene, kind: Kind, f: Failures)
    requires At(p, x) && kind in {Durable, SourceRecovery(REVERT)}
    requires x.log != [] && x.log[|x.log| - 1] == Outcome(Of(Job(kind, 2)), 2, true, true)
    requires forall k | 0 <= k < |x.log| - 1 :: x.log[k].check < 2
    ensures Earned(p, 2, f) <==> Clear(x.log[..|x.log| - 1], Of(Job(kind, 2)), 2, f)
  {
    hide Clear, Earned;
    var n := |x.log| - 1;
    var before := p.(log := x.log[..n]);
    assert p.log == before.log + [x.log[n]];
    EarnedNow(before, p, x.log[n], 2, f);
    NoThird(before, 2, f);
  }

  lemma NoThird(p: Project, d: DeploymentId, f: Failures)
    requires p.setup != d && forall o | o in p.log :: o.check < 2
    ensures !Earned(p, d, f)
  {
    if Earned(p, d, f) { SomeThird(p, d, f); }
  }

  lemma SomeThird(p: Project, d: DeploymentId, f: Failures)
    requires p.setup != d && Earned(p, d, f)
    ensures exists o :: o in p.log && o.check == 2
  {
    hide Clear;
    var c: Series, m :| 0 <= m <= |p.log| && c.d == d && Clear(p.log[..m], c, 3, f);
    var k := LastPass(p.log[..m], c, 3, f);
    assert p.log[k] in p.log;
  }

  /** The first check passed, was repeated and failed for good; the others passed. */
  function FailedLog(kind: Kind): seq<Outcome> {
    var c := Of(Job(kind, 0));
    [Outcome(c, 0, true, true), Outcome(c, 0, false, true), Outcome(c, 1, true, true)]
  }

  lemma FailedIsNotClear(kind: Kind)
    ensures !Clear(FailedLog(kind), Of(Job(kind, 2)), 2, RecordedOnly)
  {
    hide Clear;
    assert Breaks(FailedLog(kind)[1], Of(Job(kind, 2)), RecordedOnly);
    if Clear(FailedLog(kind), Of(Job(kind, 2)), 2, RecordedOnly) {
      var k0, k1 := TwoClear(FailedLog(kind), Of(Job(kind, 2)), RecordedOnly);
      assert false;
    }
  }

  /** A source recovery whose first check passes and enqueues the second, but reports an error: run again,
      it fails, and the audit log says so. The second and third check pass, and the deployment is marked. */
  lemma RepeatedCheckMarksFailed() returns (es: seq<Event>)
    ensures var p := Run(SetUp(1), es);
      && 2 in p.deployments && p.deployments[2].knownGood && !Earned(p, 2, RecordedOnly)
      && Spoiled(p.log, Series(false, 7, 2), RecordedOnly)
  {
    hide At, Step, Run, Earned, Clear, Spoiled, NoRepeats;
    var kind := SourceRecovery(REVERT);
    es := RepairDeployed();
    es := RolledBackRun(es);
    es := RevertRecorded(es);
    var x;
    es, x := RepeatedCheck(es, kind);
    es, x := LastChecks(es, x, kind);
    FailedIsNotClear(kind);
    assert x.log[..3] == FailedLog(kind);
    RunIsOver(Run(SetUp(1), es), x, kind, RecordedOnly);
  }

  lemma RunIsOver(p: Project, x: Scene, kind: Kind, f: Failures)
    requires At(p, x) && x.good == 2 && kind in {Durable, SourceRecovery(REVERT)}
    requires |x.log| == 4 && x.log[3] == Outcome(Of(Job(kind, 2)), 2, true, true)
    requires (forall k | 0 <= k < 3 :: x.log[k].check < 2) && Breaks(x.log[1], Of(Job(kind, 2)), f)
    requires f.All? ==> x.log[1].check == 1
    ensures 2 in p.deployments && p.deployments[2].knownGood && Spoiled(p.log, Of(Job(kind, 2)), f)
    ensures Earned(p, 2, f) <==> Clear(x.log[..3], Of(Job(kind, 2)), 2, f)
    ensures Earned(p, 2, RecordedOnly) <==> Clear(x.log[..3], Of(Job(kind, 2)), 2, RecordedOnly)
  {
    hide Clear, Earned;
    assert x.log[1] in p.log;
    EarnedByThird(p, x, kind, f);
    EarnedByThird(p, x, kind, RecordedOnly);
  }

  lemma RepeatedCheck(before: seq<Event>, kind: Kind) returns (es: seq<Event>, x: Scene)
    requires At(Run(SetUp(1), before), Scene(Escalated, {}, {}, {}, [], 1)) && kind == SourceRecovery(REVERT)
    ensures x == Scene(Escalated, {Job(kind, 1)}, {}, {Job(kind, 0), Job(kind, 1)}, FailedLog(kind)[..2], 1)
    ensures At(Run(SetUp(1), es), x)
  {
    hide At, Step, Run;
    var first, second := Job(kind, 0), Job(kind, 1);
    es := StartedRun(before, Scene(Escalated, {}, {}, {}, [], 1), kind);
    x := Enqueue(Scene(Escalated, {}, {}, {}, [], 1), first);
    Begun(Run(SetUp(1), es), x, first);
    es := Then(es, BeginCheck(first));
    x := Begin(x, first);
    PassedNow(Run(SetUp(1), es), x, kind, 0, Errs(true));
    es := Then(es, Check(first, true, true, Errs(true)));
    x := Enqueue(Again(Write(x, first, true, true), first, Errs(true)), second);
    Begun(Run(SetUp(1), es), x, first);
    es := Then(es, BeginCheck(first));
    x := Begin(x, first);
    FailedHere(Run(SetUp(1), es), x, kind, 0, Finishes);
    es := Then(es, Check(first, false, true, Finishes));
    x := Again(Write(x, first, false, true), first, Finishes);
    assert x.queued == {second} && x.running == {} && x.keys == {first, second};
  }

  /** The second check is pending; it and the third pass. */
  lemma LastChecks(before: seq<Event>, start: Scene, kind: Kind) returns (es: seq<Event>, x: Scene)
    requires At(Run(SetUp(1), before), start) && Fits(kind, start) && start.good == 1
    requires start.queued == {Job(kind, 1)} && start.running == {} && start.keys == {Job(kind, 0), Job(kind, 1)}
    ensures NoRepeats(before) ==> NoRepeats(es)
    ensures x == Scene(start.status, {}, {}, start.keys + {Job(kind, 2)},
      start.log + [Outcome(Of(Job(kind, 1)), 1, true, true), Outcome(Of(Job(kind, 2)), 2, true, true)], 2)
    ensures At(Run(SetUp(1), es), x)
  {
    hide At, Step, Run;
    var second, third := Job(kind, 1), Job(kind, 2);
    es, x := before, start;
    Begun(Run(SetUp(1), es), x, second);
    es := Then(es, BeginCheck(second));
    x := Begin(x, second);
    PassedNow(Run(SetUp(1), es), x, kind, 1, Finishes);
    es := Then(es, Check(second, true, true, Finishes));
    x := Enqueue(Again(Write(x, second, true, true), second, Finishes), third);
    Begun(Run(SetUp(1), es), x, third);
    es := Then(es, BeginCheck(third));
    x := Begin(x, third);
    MarkedNow(Run(SetUp(1), es), x, kind);
    es := Then(es, Check(third, true, true, Finishes));
    x := Again(Write(x, third, true, true), third, Finishes).(good := 2);
    assert x.queued == {} && x.running == {};
  }

  /** The second check failed in a handler that erred, and was made again. */
  function InterruptedLog(kind: Kind): seq<Outcome> {
    var c := Of(Job(kind, 0));
    [Outcome(c, 0, true, true), Outcome(c, 1, false, false), Outcome(c, 1, true, true)]
  }

  lemma InterruptedIsNotClear(kind: Kind)
    ensures !Clear(InterruptedLog(kind), Of(Job(kind, 2)), 2, All)
    ensures Clear(InterruptedLog(kind), Of(Job(kind, 2)), 2, RecordedOnly)
  {
    hide Clear;
    ClearFrom(InterruptedLog(kind), Of(Job(kind, 2)), 0, 2, RecordedOnly);
    assert Breaks(InterruptedLog(kind)[1], Of(Job(kind, 2)), All);
    if Clear(InterruptedLog(kind), Of(Job(kind, 2)), 2, All) {
      var k0, k1 := TwoClear(InterruptedLog(kind), Of(Job(kind, 2)), All);
      assert false;
    }
  }

  /** A durable watch whose second check fails, and whose handler errs before it has written the failure: run
      again, it passes, the third check passes, and the deployment is marked with a failed check between. */
  lemma UnrecordedFailureIsForgotten() returns (es: seq<Event>)
    ensures NoRepeats(es)
    ensures var p := Run(SetUp(1), es);
      && 2 in p.deployments && p.deployments[2].knownGood && !Earned(p, 2, All) && Earned(p, 2, RecordedOnly)
      && Spoiled(p.log, Series(true, 7, 2), All)
  {
    hide At, Step, Run, Earned, Clear, Spoiled, NoRepeats;
    es := RepairDeployed();
    var x;
    es, x := InterruptedCheck(es, Durable);
    es, x := LastChecks(es, x, Durable);
    InterruptedIsNotClear(Durable);
    assert x.log[..3] == InterruptedLog(Durable);
    RunIsOver(Run(SetUp(1), es), x, Durable, All);
  }

  lemma InterruptedCheck(before: seq<Event>, kind: Kind) returns (es: seq<Event>, x: Scene)
    requires At(Run(SetUp(1), before), Scene(VerifyingProduction, {}, {}, {}, [], 1))
    requires kind.Durable? && NoRepeats(before)
    ensures x ==
      Scene(VerifyingProduction, {Job(kind, 1)}, {}, {Job(kind, 0), Job(kind, 1)}, InterruptedLog(kind)[..2], 1)
    ensures At(Run(SetUp(1), es), x) && NoRepeats(es)
  {
    hide At, Step, Run;
    var first, second := Job(kind, 0), Job(kind, 1);
    es := StartedRun(before, Scene(VerifyingProduction, {}, {}, {}, [], 1), kind);
    x := Enqueue(Scene(VerifyingProduction, {}, {}, {}, [], 1), first);
    Begun(Run(SetUp(1), es), x, first);
    es := Then(es, BeginCheck(first));
    x := Begin(x, first);
    PassedNow(Run(SetUp(1), es), x, kind, 0, Finishes);
    es := Then(es, Check(first, true, true, Finishes));
    x := Enqueue(Again(Write(x, first, true, true), first, Finishes), second);
    Begun(Run(SetUp(1), es), x, second);
    es := Then(es, BeginCheck(second));
    x := Begin(x, second);
    FailedHere(Run(SetUp(1), es), x, kind, 1, Errs(false));
    es := Then(es, Check(second, false, true, Errs(false)));
    x := Again(Write(x, second, false, false), second, Errs(false));
    assert x.queued == {second} && x.running == {} && x.keys == {first, second};
  }
}
