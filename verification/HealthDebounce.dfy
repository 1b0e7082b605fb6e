/**
  Health debouncing, twice: the in-memory state machine with saturating counters, and the database row
  the workers actually update. A history is the sequence of check results, `true` for a success.
*/
module HealthDebounce {
  datatype Status = Unknown | Healthy | Failing | Down

  datatype Transition = NoChange | BecameHealthy | IncidentRequired | Recovered

  /** How many equal results a history ends with. */
  function Streak(h: seq<bool>): (n: nat)
    ensures n <= |h| && (n == 0 <==> h == [])
  {
    var n := |h|;
    if n == 0 then 0
    else if n == 1 || h[n - 2] != h[n - 1] then 1
    else Streak(h[..n - 1]) + 1
  }

  /** The status after a history, counting without bound. */
  function StatusAfter(h: seq<bool>, failureThreshold: nat, recoveryThreshold: nat): Status {
    if h == [] then Unknown
    else
      var before := StatusAfter(h[..|h| - 1], failureThreshold, recoveryThreshold);
      if h[|h| - 1] then if before.Down? && Streak(h) < recoveryThreshold then Down else Healthy
      else if before.Down? || Streak(h) >= failureThreshold then Down
      else Failing
  }

  function Change(before: Status, after: Status): Transition {
    if before == after || after.Failing? then NoChange
    else if after.Down? then IncidentRequired
    else if before.Down? then Recovered
    else BecameHealthy
  }

  /** The history ends its first `i` results with enough failures in a row to go down. */
  predicate FailedAt(h: seq<bool>, failureThreshold: nat, i: nat) {
    0 < i <= |h| && !h[i - 1] && Streak(h[..i]) >= failureThreshold
  }

  predicate RecoveredAt(h: seq<bool>, recoveryThreshold: nat, j: nat) {
    0 < j <= |h| && h[j - 1] && Streak(h[..j]) >= recoveryThreshold
  }

  predicate DownSince(h: seq<bool>, failureThreshold: nat, recoveryThreshold: nat, i: nat) {
    FailedAt(h, failureThreshold, i) && forall j | i < j <= |h| :: !RecoveredAt(h, recoveryThreshold, j)
  }

  lemma PrefixMarks(h: seq<bool>, failureThreshold: nat, recoveryThreshold: nat, j: nat)
    requires h != [] && j < |h|
    ensures FailedAt(h, failureThreshold, j) == FailedAt(h[..|h| - 1], failureThreshold, j)
    ensures RecoveredAt(h, recoveryThreshold, j) == RecoveredAt(h[..|h| - 1], recoveryThreshold, j)
  {
    assert h[..|h| - 1][..j] == h[..j];
  }

  /** Being down since `i` after one more result: down since then before and not recovered now, or failed now. */
  lemma DownSinceStep(h: seq<bool>, failureThreshold: nat, recoveryThreshold: nat, i: nat)
    requires h != []
    ensures DownSince(h, failureThreshold, recoveryThreshold, i) <==>
      || (i == |h| && FailedAt(h, failureThreshold, |h|))
      || (DownSince(h[..|h| - 1], failureThreshold, recoveryThreshold, i) && !RecoveredAt(h, recoveryThreshold, |h|))
  {
    hide FailedAt, RecoveredAt;
    var before := h[..|h| - 1];
    if i < |h| {
      PrefixMarks(h, failureThreshold, recoveryThreshold, i);
      forall j | i < j < |h| ensures RecoveredAt(h, recoveryThreshold, j) == RecoveredAt(before, recoveryThreshold, j) {
        PrefixMarks(h, failureThreshold, recoveryThreshold, j);
      }
    } else {
      OnlyWithin(h, failureThreshold, i);
      OnlyWithin(before, failureThreshold, i);
    }
  }

  lemma OnlyWithin(h: seq<bool>, failureThreshold: nat, i: nat)
    ensures FailedAt(h, failureThreshold, i) ==> i <= |h|
  {
  }

  /** Down means: enough failures in a row at some point, and since then never enough successes in a row. */
  lemma {:induction false} DownMeans(h: seq<bool>, failureThreshold: nat, recoveryThreshold: nat)
    ensures StatusAfter(h, failureThreshold, recoveryThreshold).Down? <==>
      exists i: nat :: DownSince(h, failureThreshold, recoveryThreshold, i)
  {
    if h != [] {
      hide DownSince;
      var before := h[..|h| - 1];
      DownMeans(before, failureThreshold, recoveryThreshold);
      assert h[..|h|] == h;
      forall i: nat
        ensures DownSince(h, failureThreshold, recoveryThreshold, i) <==>
          || (i == |h| && FailedAt(h, failureThreshold, |h|))
          || (DownSince(before, failureThreshold, recoveryThreshold, i) && !RecoveredAt(h, recoveryThreshold, |h|))
      {
        DownSinceStep(h, failureThreshold, recoveryThreshold, i);
      }
      assert DownSince(h, failureThreshold, recoveryThreshold, |h|) <== FailedAt(h, failureThreshold, |h|);
    }
  }

  /** And otherwise the last result decides. */
  lemma StatusMeans(h: seq<bool>, failureThreshold: nat, recoveryThreshold: nat)
    ensures var status := StatusAfter(h, failureThreshold, recoveryThreshold);
      var down := exists i: nat :: DownSince(h, failureThreshold, recoveryThreshold, i);
      && (status == Down <==> down)
      && (status == Unknown <==> !down && h == [])
      && (status == Healthy <==> !down && h != [] && h[|h| - 1])
      && (status == Failing <==> !down && h != [] && !h[|h| - 1])
  {
    hide DownSince;
    DownMeans(h, failureThreshold, recoveryThreshold);
  }

  const MAX_U16 := 65535
  const MAX_I32 := 2147483647

  function Capped(n: nat, max: nat): nat { if n < max then n else max }

  /** One more result, in terms of the history before it. */
  lemma Appended(h: seq<bool>, success: bool, failureThreshold: nat, recoveryThreshold: nat)
    ensures Streak(h + [success]) == if h != [] && h[|h| - 1] == success then Streak(h) + 1 else 1
    ensures StatusAfter(h + [success], failureThreshold, recoveryThreshold) ==
      var before, streak := StatusAfter(h, failureThreshold, recoveryThreshold), Streak(h + [success]);
      if success then if before.Down? && streak < recoveryThreshold then Down else Healthy
      else if before.Down? || streak >= failureThreshold then Down
      else Failing
  {
    assert (h + [success])[..|h|] == h;
  }

  predicate EndsFailing(h: seq<bool>) { h != [] && !h[|h| - 1] }

  class HealthDebouncer {
    const failureThreshold: nat
    const recoveryThreshold: nat
    var consecutiveFailures: nat
    var consecutiveSuccesses: nat
    var status: Status
    ghost var history: seq<bool>

    /** The counters are the current streak, cut off at the width of the source's integers. */
    ghost predicate Valid()
      reads this
    {
      && failureThreshold <= MAX_U16 && recoveryThreshold <= MAX_U16
      && consecutiveFailures == (if EndsFailing(history) then Capped(Streak(history), MAX_U16) else 0)
      && consecutiveSuccesses == (if EndsFailing(history) then 0 else Capped(Streak(history), MAX_U16))
      && status == StatusAfter(history, failureThreshold, recoveryThreshold)
    }

    constructor (failureThreshold: nat, recoveryThreshold: nat)
      requires failureThreshold <= MAX_U16 && recoveryThreshold <= MAX_U16
      ensures Valid() && history == []
      ensures this.failureThreshold == failureThreshold && this.recoveryThreshold == recoveryThreshold
    {
      this.failureThreshold, this.recoveryThreshold := failureThreshold, recoveryThreshold;
      consecutiveFailures, consecutiveSuccesses := 0, 0;
      status := Unknown;
      history := [];
    }

    /** Saturating counters lose nothing: status and transition are those of unbounded counting. */
    method Observe(success: bool) returns (transition: Transition)
      requires Valid()
      modifies this
      ensures Valid() && history == old(history) + [success]
      ensures consecutiveFailures <= 65535 && consecutiveSuccesses <= 65535
      ensures transition == Change(old(status), status)
      ensures transition.IncidentRequired? <==> !old(status).Down? && status.Down?
      ensures transition.Recovered? <==> old(status).Down? && status.Healthy?
      ensures transition.BecameHealthy? <==> old(status) in {Unknown, Failing} && status.Healthy?
    {
      hide Streak, StatusAfter;
      Appended(history, success, failureThreshold, recoveryThreshold);
      history := history + [success];
      if success {
        consecutiveFailures := 0;
        consecutiveSuccesses := Capped(consecutiveSuccesses + 1, MAX_U16);
        if status.Down? && consecutiveSuccesses >= recoveryThreshold {
          status := Healthy;
          transition := Recovered;
        } else if status.Unknown? || status.Failing? {
          status := Healthy;
          transition := BecameHealthy;
        } else {
          transition := NoChange;
        }
      } else {
        consecutiveSuccesses := 0;
        consecutiveFailures := Capped(consecutiveFailures + 1, MAX_U16);
        if !status.Down? && consecutiveFailures >= failureThreshold {
          status := Down;
          transition := IncidentRequired;
        } else {
          if !status.Down? {
            status := Failing;
          }
          transition := NoChange;
        }
      }
    }
  }

  /** The health columns of one row of `health_checks`. */
  datatype Row = Row(failures: nat, successes: nat, status: Status)

  function RowStep(row: Row, success: bool): Row {
    if success then
      var successes := Capped(row.successes + 1, MAX_I32);
      Row(0, successes, if row.status.Down? && successes < 2 then Down else Healthy)
    else
      var failures := Capped(row.failures + 1, MAX_I32);
      Row(failures, 0, if failures >= 3 then Down else Failing)
  }

  /** The update asks for an incident; one is opened unless the check's last one is still active. */
  predicate Asks(before: Row, after: Row) { after.status.Down? && !before.status.Down? }

  function RowAfter(h: seq<bool>): Row {
    if h == [] then Row(0, 0, Unknown) else RowStep(RowAfter(h[..|h| - 1]), h[|h| - 1])
  }

  /** A check's row, and whether an incident with its deduplication key is active. */
  class HealthChecks {
    var row: Row
    var active: bool

    method RecordObservation(success: bool) returns (isNew: bool)
      modifies this
      ensures row == RowStep(old(row), success)
      ensures row.failures <= 2147483647 && row.successes <= 2147483647
      ensures isNew == (Asks(old(row), row) && !old(active)) && active == (old(active) || isNew)
    {
      var failures, successes, oldStatus := row.failures, row.successes, row.status;
      var status: Status;
      if success {
        failures, successes := 0, Capped(successes + 1, MAX_I32);
        status := if oldStatus.Down? && successes < 2 then Down else Healthy;
      } else {
        failures, successes := Capped(failures + 1, MAX_I32), 0;
        status := if failures >= 3 then Down else Failing;
      }
      row := Row(failures, successes, status);
      isNew := false;
      if status.Down? && !oldStatus.Down? {
        isNew := OpenIncident();
      }
    }

    method OpenIncident() returns (isNew: bool)
      modifies this`active
      ensures active && isNew == !old(active)
    {
      isNew := !active;
      active := true;
    }
  }

  /** Result `n` is a failure right after the first success while down. */
  predicate Blip(h: seq<bool>, n: nat) {
    0 < n < |h| && !h[n] && h[n - 1] && StatusAfter(h[..n], 3, 2).Down?
  }

  predicate Agree(h: seq<bool>) { RowAfter(h).status == StatusAfter(h, 3, 2) }

  /** What the row's counters hold. */
  predicate RowCounts(h: seq<bool>) {
    && RowAfter(h).failures == (if EndsFailing(h) then Capped(Streak(h), MAX_I32) else 0)
    && RowAfter(h).successes == (if EndsFailing(h) then 0 else Capped(Streak(h), MAX_I32))
  }

  lemma {:induction false} RowCountsStreaks(h: seq<bool>)
    ensures RowCounts(h)
  {
    if h != [] {
      RowCountsStreaks(h[..|h| - 1]);
    }
  }

  /** One more result keeps the two in agreement exactly when it is no such failure. */
  lemma AgreementStep(h: seq<bool>)
    requires h != [] && Agree(h[..|h| - 1])
    ensures Agree(h) <==> !Blip(h, |h| - 1)
    ensures Agree(h) ==>
      (Asks(RowAfter(h[..|h| - 1]), RowAfter(h)) <==>
       Change(StatusAfter(h[..|h| - 1], 3, 2), StatusAfter(h, 3, 2)).IncidentRequired?)
  {
    RowCountsStreaks(h);
    LongStreakRecovers(h[..|h| - 1]);
  }

  /** Down after a success means exactly one success since the last failure. */
  lemma LongStreakRecovers(h: seq<bool>)
    ensures StatusAfter(h, 3, 2).Down? && !EndsFailing(h) ==> Streak(h) == 1
    ensures StatusAfter(h, 3, 2).Failing? ==> EndsFailing(h) && Streak(h) < 3
    ensures EndsFailing(h) && Streak(h) >= 3 ==> StatusAfter(h, 3, 2).Down?
  {
  }

  /** The row and the (3, 2) debouncer agree, in status and in when an incident is asked for, after every result
      exactly when no failure comes right after the first success while down. */
  lemma {:induction false} AgreeExactly(h: seq<bool>)
    ensures (forall n | 0 <= n <= |h| :: Agree(h[..n])) <==> (forall n | 0 <= n < |h| :: !Blip(h, n))
    ensures (forall n | 0 <= n <= |h| :: Agree(h[..n])) ==> forall n | 0 <= n < |h| ::
      (Asks(RowAfter(h[..n]), RowAfter(h[..n + 1])) <==>
       Change(StatusAfter(h[..n], 3, 2), StatusAfter(h[..n + 1], 3, 2)).IncidentRequired?)
  {
    if h != [] {
      var m := |h| - 1;
      var before := h[..m];
      AgreeExactly(before);
      assert forall n | 0 <= n <= m :: before[..n] == h[..n];
      assert h[..m + 1] == h;
      assert forall n | 0 <= n < m :: Blip(before, n) <==> Blip(h, n);
      if forall n | 0 <= n <= m :: Agree(h[..n]) {
        AgreementStep(h);
      }
    } else {
      assert h[..0] == h;
    }
  }

  // Incidents are deduplicated, and between two results the active one may be closed or become active again.
  datatype Happening = Result(success: bool) | Closed | Reopened

  function Results(hs: seq<Happening>): seq<bool> {
    if hs == [] then []
    else
      var last := hs[|hs| - 1];
      Results(hs[..|hs| - 1]) + if last.Result? then [last.success] else []
  }

  /** The last result asks for an incident, by the row or by the debouncer. */
  predicate Asked(byRow: bool, h: seq<bool>) {
    h != [] &&
    if byRow then Asks(RowAfter(h[..|h| - 1]), RowAfter(h))
    else Change(StatusAfter(h[..|h| - 1], 3, 2), StatusAfter(h, 3, 2)).IncidentRequired?
  }

  /** How many incidents were opened, and whether the last of them is active. */
  function Opened(byRow: bool, hs: seq<Happening>): (nat, bool) {
    if hs == [] then (0, false)
    else
      var (count, active) := Opened(byRow, hs[..|hs| - 1]);
      match hs[|hs| - 1]
      case Closed => (count, false)
      case Reopened => (count, count > 0)
      case Result(_) => if Asked(byRow, Results(hs)) && !active then (count + 1, true) else (count, active)
  }

  predicate NoBlip(h: seq<bool>) { forall n | 0 <= n < |h| :: !Blip(h, n) }

  /** Without such a failure both versions have opened the same incidents at every moment, whenever
      incidents are closed or reopened in between. */
  lemma {:induction false} SameIncidents(hs: seq<Happening>)
    requires NoBlip(Results(hs))
    ensures Opened(true, hs) == Opened(false, hs)
  {
    if hs != [] {
      var h, before := Results(hs), Results(hs[..|hs| - 1]);
      if h != before {
        assert h[..|h| - 1] == before;
        assert forall n | 0 <= n < |before| :: Blip(before, n) == Blip(h, n) by { BlipsWithin(h); }
        SameAsked(h);
      }
      SameIncidents(hs[..|hs| - 1]);
    }
  }

  lemma BlipsWithin(h: seq<bool>)
    requires h != []
    ensures forall n | 0 <= n < |h| - 1 :: Blip(h[..|h| - 1], n) == Blip(h, n)
  {
    assert forall n | 0 <= n < |h| :: h[..|h| - 1][..n] == h[..n];
  }

  lemma SameAsked(h: seq<bool>)
    requires h != [] && NoBlip(h)
    ensures Asked(true, h) == Asked(false, h)
  {
    AgreeExactly(h);
    assert h[..|h|] == h;
  }

  /** One more happening. */
  lemma Happens(byRow: bool, hs: seq<Happening>, x: Happening)
    ensures Results(hs + [x]) == Results(hs) + if x.Result? then [x.success] else []
    ensures var (count, active) := Opened(byRow, hs);
      Opened(byRow, hs + [x]) ==
        match x
        case Closed => (count, false)
        case Reopened => (count, count > 0)
        case Result(_) => if Asked(byRow, Results(hs + [x])) && !active then (count + 1, true) else (count, active)
  {
    assert (hs + [x])[..|hs|] == hs;
  }

  /** The history up to its `n`th result, with the incident closed after the third result if `close`. */
  function Story(h: seq<bool>, n: nat, close: bool): seq<Happening>
    requires n <= |h|
  {
    if n == 0 then []
    else Story(h, n - 1, close) + [Result(h[n - 1])] + if close && n == 3 then [Closed] else []
  }

  lemma StoryStart(h: seq<bool>, close: bool, byRow: bool)
    ensures Results(Story(h, 0, close)) == h[..0] && Opened(byRow, Story(h, 0, close)) == (0, false)
  {
  }

  lemma StoryStep(h: seq<bool>, n: nat, close: bool)
    requires 0 < n <= |h|
    ensures var longer := Story(h, n - 1, close) + [Result(h[n - 1])];
      Story(h, n, close) == if close && n == 3 then longer + [Closed] else longer
  {
  }

  /** One result of the story, and what follows it. */
  lemma StoryHappens(h: seq<bool>, n: nat, close: bool, byRow: bool)
    requires 0 < n <= |h| && Results(Story(h, n - 1, close)) == h[..n - 1]
    ensures Results(Story(h, n, close)) == h[..n]
    ensures var (count, active) := Opened(byRow, Story(h, n - 1, close));
      var opens := Asked(byRow, h[..n]) && !active;
      Opened(byRow, Story(h, n, close)) ==
        (if opens then count + 1 else count, (active || opens) && !(close && n == 3))
  {
    hide Asked, Opened, Results, Story;
    StoryStep(h, n, close);
    var before, x := Story(h, n - 1, close), Result(h[n - 1]);
    Happens(byRow, before, x);
    assert h[..n] == h[..n - 1] + [h[n - 1]];
    if close && n == 3 { Happens(byRow, before + [x], Closed); }
  }

  lemma {:induction false} StoryOpens(h: seq<bool>, n: nat, close: bool, byRow: bool)
    requires h == [false, false, false, true, false, false, false] && n <= 7
    ensures Results(Story(h, n, close)) == h[..n]
    ensures Opened(byRow, Story(h, n, close)) ==
      if n < 3 then (0, false) else if !close then (1, true) else if n == 7 && byRow then (2, true) else (1, false)
  {
    hide Asked, Opened, Results, Story;
    if n == 0 {
      StoryStart(h, close, byRow);
    } else {
      StoryOpens(h, n - 1, close, byRow);
      StoryHappens(h, n, close, byRow);
      AskedOnWay(h);
    }
  }

  /** They do part: after three failures, one success and three more failures the row has asked for an
      incident twice and the debouncer once. If the first was closed in between, the row has opened two
      incidents and the debouncer one; if not, each has opened one. */
  lemma RowOpensTwice()
    ensures var h := [false, false, false, true, false, false, false];
      && Asked(true, h[..3]) && Asked(true, h) && Asked(false, h[..3]) && !Asked(false, h)
      && Opened(true, Story(h, 7, true)) == (2, true) && Opened(false, Story(h, 7, true)) == (1, false)
      && Opened(true, Story(h, 7, false)) == (1, true) == Opened(false, Story(h, 7, false))
  {
    hide Asked, Opened, Story;
    var h := [false, false, false, true, false, false, false];
    AskedOnWay(h);
    assert h[..7] == h;
    StoryOpens(h, 7, true, true);
    StoryOpens(h, 7, true, false);
    StoryOpens(h, 7, false, true);
    StoryOpens(h, 7, false, false);
  }

  lemma AskedOnWay(h: seq<bool>)
    requires h == [false, false, false, true, false, false, false]
    ensures forall n | 0 < n <= 7 :: Asked(true, h[..n]) == (n == 3 || n == 7) && Asked(false, h[..n]) == (n == 3)
  {
    hide RowAfter, StatusAfter, Streak, Asked;
    Nothing(h);
    Unfold(h, 1); Unfold(h, 2); Unfold(h, 3); Unfold(h, 4); Unfold(h, 5); Unfold(h, 6); Unfold(h, 7);
    forall n | 0 < n <= 7 ensures Asked(true, h[..n]) == (n == 3 || n == 7) && Asked(false, h[..n]) == (n == 3) {
      AskedAt(h, n);
    }
  }

  lemma Nothing(h: seq<bool>)
    ensures RowAfter(h[..0]) == Row(0, 0, Unknown) && StatusAfter(h[..0], 3, 2).Unknown?
  {
  }

  lemma AskedAt(h: seq<bool>, n: nat)
    requires 0 < n <= |h|
    ensures Asked(true, h[..n]) == Asks(RowAfter(h[..n - 1]), RowAfter(h[..n]))
    ensures Asked(false, h[..n]) == Change(StatusAfter(h[..n - 1], 3, 2), StatusAfter(h[..n], 3, 2)).IncidentRequired?
  {
    assert h[..n][..n - 1] == h[..n - 1];
  }

  lemma Unfold(h: seq<bool>, n: nat)
    requires 0 < n <= |h|
    ensures RowAfter(h[..n]) == RowStep(RowAfter(h[..n - 1]), h[n - 1])
    ensures Streak(h[..n]) == if n > 1 && h[n - 2] == h[n - 1] then Streak(h[..n - 1]) + 1 else 1
    ensures StatusAfter(h[..n], 3, 2) ==
      if h[n - 1] then if StatusAfter(h[..n - 1], 3, 2).Down? && Streak(h[..n]) < 2 then Down else Healthy
      else if StatusAfter(h[..n - 1], 3, 2).Down? || Streak(h[..n]) >= 3 then Down
      else Failing
  {
    assert h[..n][..n - 1] == h[..n - 1];
  }
}
