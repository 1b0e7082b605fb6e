/** What each step does to the baseline and to the watch, by its inputs alone. */
module KnownGoodLaws {
  import opened Wrappers
  import opened Policy
  import opened KnownGood

  /** Marking a deployment takes the flag from every other production deployment and touches nothing else. */
  predicate Promotes(before: map<DeploymentId, Deployment>, after: map<DeploymentId, Deployment>, d: DeploymentId) {
    && after.Keys == before.Keys && d in before && after[d] == before[d].(ready := true, knownGood := true)
    && forall e | e in before && e != d ::
         after[e] == if before[e].production then before[e].(knownGood := false) else before[e]
  }

  /** The third check makes its deployment the baseline exactly if it is healthy, and for a source recovery only
      if the protected branch still ends in the commit that was recovered. */
  lemma ThirdCheckExactly(p: Project, w: Watch, healthy: bool, branchHeadMatches: bool)
    requires w in p.running && w.check == 2 && w.d in p.deployments
    ensures var p' := Step(p, Check(w, healthy, branchHeadMatches, Finishes));
      if healthy && (w.kind == Durable || branchHeadMatches)
      then && Promotes(p.deployments, p'.deployments, w.d) && p'.incidents == p.incidents
           && p'.log == p.log + [Outcome(Series(w.kind == Durable, w.i, w.d), 2, true, true)]
      else p'.deployments == p.deployments
           && |p'.log| == |p.log| + 1 && p'.log[..|p.log|] == p.log && !p'.log[|p.log|].passed
  {
  }

  /** A job once had this key: of a durable watch the incident's, of a source recovery the deployment's too. */
  predicate Spent(p: Project, kind: Kind, i: IncidentId, d: DeploymentId, check: nat) {
    exists v | v in p.keys ::
      v.i == i && v.check == check && (if kind == Durable then v.kind == Durable else v.kind != Durable && v.d == d)
  }

  /** The first two checks do not look at the branch: a healthy one enqueues the next, unless its key is spent. */
  lemma EarlyCheckExactly(p: Project, w: Watch, branchHeadMatches: bool)
    requires w in p.running && w.check < 2
    ensures var p' := Step(p, Check(w, true, branchHeadMatches, Finishes));
      var next := Watch(w.kind, w.i, w.d, w.check + 1);
      var spent := Spent(p, w.kind, w.i, w.d, w.check + 1);
      && p'.deployments == p.deployments && p'.incidents == p.incidents
      && p'.log == p.log + [Outcome(Series(w.kind == Durable, w.i, w.d), w.check, true, true)]
      && p'.queued == (if spent then p.queued else p.queued + {next})
      && p'.keys == (if spent then p.keys else p.keys + {next})
  {
    hide MarkKnownGood, Fail;
  }

  /** The verification before the watch starts it the same way, from a handler that had read the right state. */
  lemma StartExactly(p: Project, kind: Kind, i: IncidentId, d: DeploymentId, passed: bool)
    ensures var start := Start(kind, i, d); var p' := Step(p, StartWatch(start, passed));
      var first := Watch(kind, i, d, 0);
      var spent := Spent(p, kind, i, d, 0);
      && p'.deployments == p.deployments
      && (start !in p.starting || !passed || spent ==> p'.queued == p.queued && p'.keys == p.keys)
      && (start in p.starting && passed && !spent ==>
            p'.queued == p.queued + {first} && p'.keys == p.keys + {first} && p'.incidents == p.incidents)
  {
    var start := Start(kind, i, d);
    FailKeeps(p.(starting := p.starting - {start}), kind, i);
    hide Fail;
  }

  /** Handlers act only on an incident in the right state: verifying production for a durable watch, escalated
      with that very revert attested for a source recovery. */
  lemma BeginExactly(p: Project, w: Watch)
    requires w in p.queued && w !in p.running
    ensures var p' := Step(p, BeginCheck(w));
      && w !in p'.queued
      && (w in p'.running <==>
            w.i in p.incidents &&
            if w.kind == Durable then p.incidents[w.i].status == VerifyingProduction
            else p.incidents[w.i].status == Escalated && w.kind.revert in p.incidents[w.i].reverts)
  {
  }

  /** A failed durable check rolls back if there is a production deployment known to be good, and otherwise
      escalates; a failed check of a source recovery leaves the incident alone. */
  lemma FailureExactly(p: Project, w: Watch, branchHeadMatches: bool)
    requires w in p.running && w.i in p.incidents
    ensures var p' := Step(p, Check(w, false, branchHeadMatches, Finishes));
      var baseline := exists d | d in p.deployments :: p.deployments[d].production && p.deployments[d].knownGood;
      var status := p.incidents[w.i].status;
      && p'.deployments == p.deployments
      && (w.kind != Durable ==> p'.incidents == p.incidents && w !in p'.running && p'.queued == p.queued)
      && (w.kind == Durable && baseline && status == VerifyingProduction ==>
            p'.incidents[w.i].status == RollingBack && p'.queued == p.queued)
      && (w.kind == Durable && baseline && status != VerifyingProduction ==>
            p'.incidents == p.incidents && p'.queued == p.queued + {w})
      && (w.kind == Durable && !baseline && status !in {Resolved, RolledBack, Escalated, Failed, Cancelled} ==>
            p'.incidents[w.i].status == Escalated && p'.queued == p.queued)
  {
    hide MarkKnownGood, EnqueueWatch;
  }

  /** Position `n` holds the deployment stored last of those that are in production and ready. */
  predicate Last(p: Project, n: nat) {
    && n < |p.order| && p.order[n] in p.deployments
    && p.deployments[p.order[n]].production && p.deployments[p.order[n]].ready
    && forall m | n < m < |p.order| && p.order[m] in p.deployments ::
         !(p.deployments[p.order[m]].production && p.deployments[p.order[m]].ready)
  }

  lemma {:induction false} NewestIsLast(p: Project, n: nat, k: nat)
    requires Last(p, n) && n < k <= |p.order|
    ensures Newest(p, k) == Some(p.order[n])
    decreases k
  {
    if k > n + 1 { NewestIsLast(p, n, k - 1); }
  }

  lemma {:induction false} NoneIsLast(p: Project, k: nat)
    requires k <= |p.order| && (forall n :: !Last(p, n))
    requires forall m | k <= m < |p.order| && p.order[m] in p.deployments ::
      !(p.deployments[p.order[m]].production && p.deployments[p.order[m]].ready)
    ensures Newest(p, k) == None
    decreases k
  {
    if k > 0 {
      assert !Last(p, k - 1);
      NoneIsLast(p, k - 1);
    }
  }

  /** The trigger: while every incident has been resolved or rolled back, a healthy check moves the flag among the
      production deployments to the last ready one; in any other case it changes nothing. */
  lemma TriggerExactly(p: Project, healthy: bool, n: nat)
    ensures var p' := Step(p, HealthUpdate(healthy));
      var settled := forall i | i in p.incidents :: p.incidents[i].resolvedAt;
      && (healthy && settled && Last(p, n) ==>
            && p' == p.(deployments := p'.deployments) && p'.deployments.Keys == p.deployments.Keys
            && forall d | d in p.deployments ::
                 p'.deployments[d] == if p.deployments[d].production then p.deployments[d].(knownGood := d == p.order[n])
                                      else p.deployments[d])
      && (!healthy || !settled || (forall m :: !Last(p, m)) ==> p' == p)
  {
    hide Newest, Last;
    var settled := forall i | i in p.incidents :: p.incidents[i].resolvedAt;
    assert settled == !Active(p);
    if healthy && settled && Last(p, n) {
      assert n < |p.order| by { LastWithin(p, n); }
      NewestIsLast(p, n, |p.order|);
    }
    if forall m :: !Last(p, m) { NoneIsLast(p, |p.order|); }
  }

  lemma LastWithin(p: Project, n: nat)
    requires Last(p, n)
    ensures n < |p.order|
  {
  }

  /** Storing a deployment again never touches its flag, and a new one has none. */
  lemma SaveExactly(p: Project, d: DeploymentId, production: bool, ready: bool)
    ensures var p' := Step(p, Save(d, production, ready));
      && p' == p.(deployments := p'.deployments, order := p'.order)
      && p'.deployments == p.deployments[d :=
           Deployment(production, ready, d in p.deployments && p.deployments[d].knownGood)]
      && p'.order == if d in p.deployments then p.order else p.order + [d]
  {
  }

  /** A handler that errs is run again: with its writes undone the project is as before but for the log, and with
      its writes made it is as if it had finished. A pass is recorded exactly if its writes were made, a failure
      exactly if its job completed. */
  lemma ErringExactly(p: Project, w: Watch, healthy: bool, matches: bool, applied: bool)
    requires w in p.running && (healthy ==> w.check < 2 || w.d in p.deployments)
    requires !healthy ==> w.kind != Durable || !HasBaseline(p) || Live(p, w.kind, w.i)
    ensures var p' := Step(p, Check(w, healthy, matches, Errs(applied)));
      var done := Step(p, Check(w, healthy, matches, Finishes));
      && w in p'.queued && w !in p'.running
      && |p'.log| == |p.log| + 1 == |done.log| && p'.log[..|p.log|] == p.log == done.log[..|p.log|]
      && p'.log[|p.log|].passed == done.log[|p.log|].passed && done.log[|p.log|].recorded
      && p'.log[|p.log|].recorded == (applied && p'.log[|p.log|].passed)
      && p' == (if applied then done else p).(queued := p'.queued, running := p.running - {w}, log := p'.log)
      && p'.queued == (if applied then done.queued else p.queued) + {w}
  {
    hide HasBaseline, MarkKnownGood;
    var passed := Passes(w, healthy, matches);
    var erring, done := Logged(p, w, passed, Errs(applied)), Logged(p, w, passed, Finishes);
    FailSame(erring, done, w.kind, w.i);
    MarkSame(erring, done, w.d);
  }

  lemma FailSame(a: Project, b: Project, kind: Kind, i: IncidentId)
    requires a.deployments == b.deployments && a.incidents == b.incidents
    ensures Fail(a, kind, i) == a.(incidents := Fail(b, kind, i).incidents)
    ensures Fail(b, kind, i) == b.(incidents := Fail(b, kind, i).incidents)
  {
  }

  lemma MarkSame(a: Project, b: Project, d: DeploymentId)
    requires a.deployments == b.deployments
    ensures MarkKnownGood(a, d) == a.(deployments := MarkKnownGood(b, d).deployments)
    ensures MarkKnownGood(b, d) == b.(deployments := MarkKnownGood(b, d).deployments)
  {
  }
}
