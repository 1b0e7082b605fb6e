/** The durable job table: idempotency keys, worker leases and bounded attempts. */
module JobQueue {
  import opened Wrappers

  type Worker = nat

  datatype Status = Pending | Running | Retry | Completed | Failed

  datatype Job<P> = Job(
    payload: P,
    status: Status,
    attempt: nat,
    maxAttempts: nat,
    availableAt: int,
    lockedBy: Option<Worker>)

  /** The copy of a job that its worker acts on until it reports back. */
  datatype Lease<K> = Lease(key: K, attempt: nat, maxAttempts: nat)

  datatype Queue<K, P> = Queue(jobs: map<K, Job<P>>, held: map<Worker, Lease<K>>)

  datatype Event<K, P> =
    | Enqueue(key: K, payload: P, maxAttempts: nat, availableAt: int)
    | Claim(worker: Worker, key: K, now: int)
    | Complete(worker: Worker)
    | Fail(worker: Worker, now: int)
    | Crash(worker: Worker)

  function Pow2(n: nat): nat { if n == 0 then 1 else 2 * Pow2(n - 1) }

  /** Seconds before a failed attempt may be retried: two to the attempt, clamped to 1..10. */
  function Backoff(attempt: nat): nat {
    Pow2(if attempt < 1 then 1 else if attempt > 10 then 10 else attempt)
  }

  // The delay in seconds after each attempt, from the first to the tenth; it stays as it is from then on.
  const DELAYS: seq<nat> := [2, 4, 8, 16, 32, 64, 128, 256, 512, 1024]

  lemma BackoffExactly(attempt: nat)
    ensures Backoff(attempt) == DELAYS[if attempt < 1 then 0 else if attempt > 10 then 9 else attempt - 1]
  {
    assert Pow2(4) == 16 && Pow2(7) == 8 * Pow2(4) && Pow2(10) == 8 * Pow2(7);
    assert Pow2(5) == 32 && Pow2(6) == 64 && Pow2(8) == 256 && Pow2(9) == 512;
  }

  predicate Ready<P>(job: Job<P>, now: int) {
    (job.status.Pending? || job.status.Retry?) && job.availableAt <= now
  }

  /** Insert unless the key exists; the table refuses a job without attempts. */
  function Enqueued<K, P>(q: Queue<K, P>, key: K, payload: P, maxAttempts: nat, availableAt: int): Queue<K, P> {
    if key in q.jobs || maxAttempts == 0 then q
    else q.(jobs := q.jobs[key := Job(payload, Pending, 0, maxAttempts, availableAt, None)])
  }

  function Claimed<K, P>(q: Queue<K, P>, w: Worker, key: K, now: int): Queue<K, P> {
    if w in q.held || key !in q.jobs || !Ready(q.jobs[key], now) then q
    else
      var job := q.jobs[key];
      Queue(q.jobs[key := job.(status := Running, attempt := job.attempt + 1, lockedBy := Some(w))],
            q.held[w := Lease(key, job.attempt + 1, job.maxAttempts)])
  }

  predicate Holds<K, P>(q: Queue<K, P>, w: Worker, key: K) {
    key in q.jobs && q.jobs[key].status.Running? && q.jobs[key].lockedBy == Some(w)
  }

  function Finished<K, P>(q: Queue<K, P>, w: Worker): Queue<K, P> {
    if w !in q.held then q
    else
      var key := q.held[w].key;
      Queue(if Holds(q, w, key) then q.jobs[key := q.jobs[key].(status := Completed, lockedBy := None)] else q.jobs,
            q.held - {w})
  }

  function FailedJob<P>(job: Job<P>, attempt: nat, maxAttempts: nat, now: int): Job<P> {
    if attempt >= maxAttempts then job.(status := Failed, lockedBy := None)
    else job.(status := Retry, availableAt := now + Backoff(attempt), lockedBy := None)
  }

  function FailedAttempt<K, P>(q: Queue<K, P>, w: Worker, now: int): Queue<K, P> {
    if w !in q.held then q
    else
      var lease := q.held[w];
      Queue(if Holds(q, w, lease.key)
            then q.jobs[lease.key := FailedJob(q.jobs[lease.key], lease.attempt, lease.maxAttempts, now)] else q.jobs,
            q.held - {w})
  }

  // The worker process dies: its row stays RUNNING, nobody reclaims it.
  function Crashed<K, P>(q: Queue<K, P>, w: Worker): Queue<K, P> {
    q.(held := q.held - {w})
  }

  function Step<K, P>(q: Queue<K, P>, e: Event<K, P>): Queue<K, P> {
    match e
    case Enqueue(key, payload, maxAttempts, availableAt) => Enqueued(q, key, payload, maxAttempts, availableAt)
    case Claim(w, key, now) => Claimed(q, w, key, now)
    case Complete(w) => Finished(q, w)
    case Fail(w, now) => FailedAttempt(q, w, now)
    case Crash(w) => Crashed(q, w)
  }

  function Run<K, P>(q: Queue<K, P>, es: seq<Event<K, P>>): Queue<K, P>
    decreases |es|
  {
    if es == [] then q else Run(Step(q, es[0]), es[1..])
  }

  predicate JobOk<P>(job: Job<P>) {
    && 0 < job.maxAttempts && job.attempt <= job.maxAttempts
    && (job.status.Pending? <==> job.attempt == 0)
    && (job.status.Retry? ==> job.attempt < job.maxAttempts)
    && (job.status.Failed? ==> job.attempt == job.maxAttempts)
    && (job.status.Running? <==> job.lockedBy.Some?)
  }

  /** Every row is within its attempts, and a worker's copy agrees with the row it has locked. */
  ghost predicate Inv<K(!new), P(!new)>(q: Queue<K, P>) {
    && (forall k | k in q.jobs :: JobOk(q.jobs[k]))
    && (forall w | w in q.held ::
          var lease := q.held[w];
          && Holds(q, w, lease.key)
          && q.jobs[lease.key].attempt == lease.attempt && q.jobs[lease.key].maxAttempts == lease.maxAttempts)
  }

  lemma StepInv<K(!new), P(!new)>(q: Queue<K, P>, e: Event<K, P>)
    requires Inv(q)
    ensures Inv(Step(q, e))
  {
  }

  lemma {:induction false} RunInv<K(!new), P(!new)>(q: Queue<K, P>, es: seq<Event<K, P>>)
    requires Inv(q)
    ensures Inv(Run(q, es))
    decreases |es|
  {
    if es != [] {
      StepInv(q, es[0]);
      RunInv(Step(q, es[0]), es[1..]);
    }
  }

  /** At most one worker holds a job, and only that worker's report changes the row it holds. */
  lemma LeaseIsExclusive<K(!new), P(!new)>(q: Queue<K, P>, w: Worker, key: K, e: Event<K, P>)
    requires Inv(q) && w in q.held && q.held[w].key == key
    ensures forall w' | w' in q.held && q.held[w'].key == key :: w' == w
    ensures e != Complete(w) && !(e.Fail? && e.worker == w) ==> Step(q, e).jobs[key] == q.jobs[key]
  {
  }

  lemma {:induction false} FinalIsFinal<K(!new), P(!new)>(q: Queue<K, P>, es: seq<Event<K, P>>, key: K)
    requires key in q.jobs && (q.jobs[key].status.Completed? || q.jobs[key].status.Failed?)
    ensures key in Run(q, es).jobs && Run(q, es).jobs[key] == q.jobs[key]
    decreases |es|
  {
    if es != [] {
      FinalIsFinal(Step(q, es[0]), es[1..], key);
    }
  }

  /** However often a key is enqueued again, its job keeps the first payload and attempt limit. */
  lemma {:induction false} FirstEnqueueWins<K(!new), P(!new)>(q: Queue<K, P>, es: seq<Event<K, P>>, key: K)
    requires key in q.jobs
    ensures key in Run(q, es).jobs
    ensures Run(q, es).jobs[key].payload == q.jobs[key].payload
    ensures Run(q, es).jobs[key].maxAttempts == q.jobs[key].maxAttempts
    decreases |es|
  {
    if es != [] {
      FirstEnqueueWins(Step(q, es[0]), es[1..], key);
    }
  }

  /** What a report of failure does to the row the worker holds: another try while attempts are left, later by
      the delay of this attempt, otherwise failure for good; no other row changes. */
  lemma ReportedFailure<K(!new), P(!new)>(q: Queue<K, P>, w: Worker, now: int)
    requires Inv(q) && w in q.held && Holds(q, w, q.held[w].key)
    ensures var key := q.held[w].key; var job := q.jobs[key]; var q' := Step(q, Fail(w, now));
      && w !in q'.held && q'.jobs.Keys == q.jobs.Keys && (forall k | k in q.jobs && k != key :: q'.jobs[k] == q.jobs[k])
      && q'.jobs[key].attempt == job.attempt && q'.jobs[key].maxAttempts == job.maxAttempts
      && q'.jobs[key].payload == job.payload && q'.jobs[key].lockedBy == None
      && (job.attempt == job.maxAttempts ==> q'.jobs[key].status == Failed && q'.jobs[key].availableAt == job.availableAt)
      && (job.attempt < job.maxAttempts ==>
            && q'.jobs[key].status == Retry
            && q'.jobs[key].availableAt == now + DELAYS[if job.attempt > 10 then 9 else job.attempt - 1])
  {
    BackoffExactly(q.held[w].attempt);
  }

  /** In every run from an empty table, a job that failed for good has used up all its attempts, and one to be
      retried has not. */
  lemma FailedMeansSpent<K(!new), P(!new)>(es: seq<Event<K, P>>, key: K)
    requires key in Run(Queue(map[], map[]), es).jobs
    ensures var job := Run(Queue(map[], map[]), es).jobs[key];
      && (job.status == Failed ==> job.attempt == job.maxAttempts)
      && (job.status == Retry ==> 0 < job.attempt < job.maxAttempts)
  {
    RunInv(Queue(map[], map[]), es);
  }

  /** A claim takes a job exactly if the worker holds none and the job is pending or to be retried, and due. */
  lemma TakesExactly<K(!new), P(!new)>(q: Queue<K, P>, w: Worker, key: K, now: int)
    ensures var q' := Step(q, Claim(w, key, now));
      if w !in q.held && key in q.jobs && q.jobs[key].status in {Pending, Retry} && q.jobs[key].availableAt <= now
      then q' == Queue(
             q.jobs[key := q.jobs[key].(status := Running, attempt := q.jobs[key].attempt + 1, lockedBy := Some(w))],
             q.held[w := Lease(key, q.jobs[key].attempt + 1, q.jobs[key].maxAttempts)])
      else q' == q
  {
  }

  predicate Takes<K(==), P>(q: Queue<K, P>, e: Event<K, P>, key: K) {
    e.Claim? && e.key == key && e.worker !in q.held && key in q.jobs && Ready(q.jobs[key], e.now)
  }

  /** How many claims of `key` took effect in a run: how often its handler was started. */
  function Starts<K(==), P>(q: Queue<K, P>, es: seq<Event<K, P>>, key: K): nat
    decreases |es|
  {
    if es == [] then 0
    else (if Takes(q, es[0], key) then 1 else 0) + Starts(Step(q, es[0]), es[1..], key)
  }

  function Attempts<K, P>(q: Queue<K, P>, key: K): nat { if key in q.jobs then q.jobs[key].attempt else 0 }

  /** A job's attempt counts its handler's starts exactly, so a job of n attempts starts at most n times. */
  lemma {:induction false} StartsAreAttempts<K(!new), P(!new)>(q: Queue<K, P>, es: seq<Event<K, P>>, key: K)
    requires Inv(q)
    ensures Attempts(Run(q, es), key) == Attempts(q, key) + Starts(q, es, key)
    ensures key in Run(q, es).jobs ==> Starts(q, es, key) <= Run(q, es).jobs[key].maxAttempts
    decreases |es|
  {
    RunInv(q, es);
    if es != [] {
      StepInv(q, es[0]);
      StartsAreAttempts(Step(q, es[0]), es[1..], key);
    }
  }

  /** The claims the whole table still has to give. */
  ghost function Budget<K, P>(jobs: map<K, Job<P>>): int
    decreases |jobs|
  {
    if jobs == map[] then 0
    else
      var k :| k in jobs;
      assert |jobs - {k}| < |jobs| by { MapShrinks(jobs, k); }
      jobs[k].maxAttempts - jobs[k].attempt + Budget(jobs - {k})
  }

  lemma MapShrinks<K, V>(m: map<K, V>, k: K)
    requires k in m
    ensures |m - {k}| == |m| - 1
  {
    assert (m - {k}).Keys == m.Keys - {k};
    assert |m| == |m.Keys| && |m - {k}| == |(m - {k}).Keys|;
  }

  lemma {:induction false} BudgetSplit<K, P>(jobs: map<K, Job<P>>, k: K)
    requires k in jobs
    ensures Budget(jobs) == jobs[k].maxAttempts - jobs[k].attempt + Budget(jobs - {k})
    decreases |jobs|
  {
    var c :| c in jobs && Budget(jobs) == jobs[c].maxAttempts - jobs[c].attempt + Budget(jobs - {c});
    if c != k {
      MapShrinks(jobs, c);
      MapShrinks(jobs, k);
      BudgetSplit(jobs - {c}, k);
      BudgetSplit(jobs - {k}, c);
      assert jobs - {c} - {k} == jobs - {k} - {c};
    }
  }

  lemma BudgetUpdate<K, P>(jobs: map<K, Job<P>>, k: K, job: Job<P>)
    ensures Budget(jobs[k := job]) == Budget(jobs - {k}) + job.maxAttempts - job.attempt
  {
    BudgetSplit(jobs[k := job], k);
    assert jobs[k := job] - {k} == jobs - {k};
  }

  /** Each claim that takes effect uses up one unit of the budget; only a new job adds to it. */
  lemma ClaimsUseTheBudget<K(!new), P(!new)>(q: Queue<K, P>, e: Event<K, P>)
    requires Inv(q)
    ensures Budget(Step(q, e).jobs) == Budget(q.jobs)
      - (if e.Claim? && Takes(q, e, e.key) then 1 else 0)
      + (if e.Enqueue? && e.key !in q.jobs then e.maxAttempts else 0)
  {
    match e
    case Enqueue(key, payload, maxAttempts, availableAt) =>
      if key !in q.jobs && maxAttempts != 0 {
        BudgetUpdate(q.jobs, key, Job(payload, Pending, 0, maxAttempts, availableAt, None));
        assert q.jobs - {key} == q.jobs;
      }
    case Claim(w, key, now) =>
      if Takes(q, e, key) {
        BudgetUpdate(q.jobs, key, Step(q, e).jobs[key]);
        BudgetSplit(q.jobs, key);
      }
    case Complete(w) => ReportKeepsBudget(q, e, w);
    case Fail(w, now) => ReportKeepsBudget(q, e, w);
    case Crash(w) =>
  }

  lemma ReportKeepsBudget<K(!new), P(!new)>(q: Queue<K, P>, e: Event<K, P>, w: Worker)
    requires Inv(q) && (e == Complete(w) || (e.Fail? && e.worker == w))
    ensures Budget(Step(q, e).jobs) == Budget(q.jobs)
  {
    if w in q.held {
      BudgetUpdate(q.jobs, q.held[w].key, Step(q, e).jobs[q.held[w].key]);
      BudgetSplit(q.jobs, q.held[w].key);
    }
  }

  /** The table as the database keeps it; `order` is the order of creation. */
  class Table<K(==, !new), P(!new)> {
    var jobs: map<K, Job<P>>
    var order: seq<K>

    ghost predicate Valid()
      reads this
    {
      && (forall k :: k in order <==> k in jobs)
      && (forall i, j | 0 <= i < j < |order| :: order[i] != order[j])
    }

    constructor ()
      ensures Valid() && jobs == map[] && order == []
    {
      jobs := map[];
      order := [];
    }

    method Add(key: K, payload: P, maxAttempts: nat, availableAt: int, ghost held: map<Worker, Lease<K>>)
      requires Valid()
      modifies this
      ensures Valid() && Queue(jobs, held) == Enqueued(Queue(old(jobs), held), key, payload, maxAttempts, availableAt)
      ensures order == old(order) || order == old(order) + [key]
    {
      if key !in jobs && maxAttempts != 0 {
        jobs := jobs[key := Job(payload, Pending, 0, maxAttempts, availableAt, None)];
        order := order + [key];
      }
    }

    /** Job `b` comes first among the first `n`: available earliest, and oldest among equals. */
    ghost predicate Leads(n: nat, b: nat, now: int, locked: set<K>)
      requires n <= |order| && b < n && Valid()
      reads this
    {
      forall i | 0 <= i < n && i != b && order[i] !in locked && Ready(jobs[order[i]], now) ::
        var x, y := jobs[order[b]].availableAt, jobs[order[i]].availableAt;
        x < y || (x == y && b < i)
    }

    /** Of the ready jobs no other transaction has locked, the one available first, oldest first. */
    method Pick(now: int, locked: set<K>) returns (best: Option<K>)
      requires Valid()
      ensures best.Some? ==> best.value in jobs && best.value !in locked && Ready(jobs[best.value], now)
      ensures best.None? ==> forall k | k in jobs && k !in locked :: !Ready(jobs[k], now)
      ensures best.Some? ==> exists b :: 0 <= b < |order| && order[b] == best.value && Leads(|order|, b, now, locked)
    {
      best := None;
      ghost var b := 0;
      for n := 0 to |order|
        invariant best.None? ==> forall i | 0 <= i < n && order[i] !in locked :: !Ready(jobs[order[i]], now)
        invariant best.Some? ==>
              0 <= b < n && order[b] == best.value && best.value !in locked && Ready(jobs[best.value], now)
        invariant best.Some? ==> Leads(n, b, now, locked)
      {
        var k := order[n];
        if k !in locked && Ready(jobs[k], now) && (best.None? || jobs[k].availableAt < jobs[best.value].availableAt) {
          best, b := Some(k), n;
        }
      }
    }

    method ClaimNext(w: Worker, now: int, locked: set<K>,
      ghost held: map<Worker, Lease<K>>) returns (lease: Option<Lease<K>>)
      requires Valid() && w !in held
      modifies this
      ensures Valid() && order == old(order)
      ensures lease.None? ==> jobs == old(jobs) && forall k | k in jobs && k !in locked :: !Ready(jobs[k], now)
      ensures lease.Some? ==> exists b :: 0 <= b < |old(order)| && old(order)[b] == lease.value.key
                                            && old(Leads(|order|, b, now, locked))
      ensures lease.Some? ==>
        && lease.value.key !in locked && lease.value.key in old(jobs) && Ready(old(jobs)[lease.value.key], now)
        && Queue(jobs, held[w := lease.value]) == Claimed(Queue(old(jobs), held), w, lease.value.key, now)
    {
      var best := Pick(now, locked);
      if best.None? {
        return None;
      }
      var key, job := best.value, jobs[best.value];
      jobs := jobs[key := job.(status := Running, attempt := job.attempt + 1, lockedBy := Some(w))];
      return Some(Lease(key, job.attempt + 1, job.maxAttempts));
    }

    method CompleteJob(key: K, w: Worker) returns (ok: bool)
      requires Valid()
      modifies this
      ensures Valid() && order == old(order)
      ensures ok == Holds(Queue(old(jobs), map[]), w, key)
      ensures forall held: map<Worker, Lease<K>> :: w in held && held[w].key == key ==>
        Queue(jobs, held - {w}) == Finished(Queue(old(jobs), held), w)
    {
      ok := key in jobs && jobs[key].status.Running? && jobs[key].lockedBy == Some(w);
      if ok {
        jobs := jobs[key := jobs[key].(status := Completed, lockedBy := None)];
      }
    }

    method FailJob(lease: Lease<K>, w: Worker, now: int) returns (ok: bool)
      requires Valid()
      modifies this
      ensures Valid() && order == old(order)
      ensures ok == Holds(Queue(old(jobs), map[]), w, lease.key)
      ensures forall held: map<Worker, Lease<K>> :: w in held && held[w] == lease ==>
        Queue(jobs, held - {w}) == FailedAttempt(Queue(old(jobs), held), w, now)
      ensures !ok ==> jobs == old(jobs)
      ensures ok ==> lease.key in old(jobs) && jobs == old(jobs)[lease.key := jobs[lease.key]]
      ensures ok && lease.attempt >= lease.maxAttempts ==>
        jobs[lease.key] == old(jobs)[lease.key].(status := Failed, lockedBy := None)
      ensures ok && lease.attempt < lease.maxAttempts ==>
        && jobs[lease.key].status == Retry && jobs[lease.key].lockedBy == None
        && jobs[lease.key].availableAt == now + DELAYS[if lease.attempt < 1 then 0 else if lease.attempt > 10 then 9
                                                      else lease.attempt - 1]
    {
      BackoffExactly(lease.attempt);
      var terminal := lease.attempt >= lease.maxAttempts;
      ok := lease.key in jobs && jobs[lease.key].status.Running? && jobs[lease.key].lockedBy == Some(w);
      if ok {
        var job := jobs[lease.key];
        var availableAt := if terminal then job.availableAt else now + Backoff(lease.attempt);
        jobs := jobs[lease.key := job.(status := if terminal then Failed else Retry, availableAt := availableAt, lockedBy := None)];
      }
    }
  }
}
