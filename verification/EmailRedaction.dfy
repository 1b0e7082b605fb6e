/** Redacting e-mail addresses: which spans are replaced, and exactly what may be left. */
module EmailRedaction {
  import opened Redaction
  import T = TokenRedaction

  predicate Local(c: char) { Alphanumeric(c) || c in {'.', '_', '%', '+', '-'} }

  predicate Domain(c: char) { Alphanumeric(c) || c in {'.', '-'} }

  /** The labels of a domain, split at its dots. */
  function Labels(d: string): (labels: seq<string>)
    ensures labels != []
    decreases |d|
  {
    if d == [] then [""]
    else
      var rest := Labels(d[1..]);
      if d[0] == '.' then [""] + rest else [[d[0]] + rest[0]] + rest[1..]
  }

  function Joined(labels: seq<string>): string
    requires labels != []
  {
    if |labels| == 1 then labels[0] else labels[0] + "." + Joined(labels[1..])
  }

  /** The labels are the dot-free pieces the domain is made of. */
  lemma {:induction false} LabelsSplit(d: string)
    ensures Joined(Labels(d)) == d
    ensures forall k | 0 <= k < |Labels(d)| :: '.' !in Labels(d)[k]
    decreases |d|
  {
    if d != [] {
      LabelsSplit(d[1..]);
      var rest := Labels(d[1..]);
      if d[0] == '.' {
        assert ([""] + rest)[1..] == rest;
        assert Joined([""] + rest) == "" + "." + d[1..];
      } else {
        assert ([[d[0]] + rest[0]] + rest[1..])[1..] == rest[1..];
      }
    }
  }

  predicate ValidLabel(part: string) {
    && part != "" && part[0] != '-' && part[|part| - 1] != '-'
    && forall k | 0 <= k < |part| :: Alphanumeric(part[k]) || part[k] == '-'
  }

  predicate ValidDomain(d: string) {
    && |d| <= 253 && '.' in d
    && var labels := Labels(d);
       && (forall k | 0 <= k < |labels| :: ValidLabel(labels[k]))
       && var last := labels[|labels| - 1];
          |last| >= 2 && forall k | 0 <= k < |last| :: Alphabetic(last[k])
  }

  /** Where the run of local characters that ends before `at` starts. */
  function LocalStart(v: string, at: nat): (start: nat)
    requires at <= |v|
    ensures start <= at && (forall k | start <= k < at :: Local(v[k])) && (start > 0 ==> !Local(v[start - 1]))
  {
    if at > 0 && Local(v[at - 1]) then LocalStart(v, at - 1) else at
  }

  /** Where the run of domain characters that starts at `from` ends. */
  function DomainEnd(v: string, from: nat): (end: nat)
    requires from <= |v|
    ensures from <= end <= |v| && (forall k | from <= k < end :: Domain(v[k])) && (end < |v| ==> !Domain(v[end]))
    decreases |v| - from
  {
    if from < |v| && Domain(v[from]) then DomainEnd(v, from + 1) else from
  }

  /** An address around the `@` at `at`: a maximal local run, the `@`, and a maximal valid domain. */
  predicate Address(v: string, at: nat) {
    && at < |v| && v[at] == '@' && LocalStart(v, at) < at
    && at + 1 < DomainEnd(v, at + 1) && ValidDomain(v[at + 1..DomainEnd(v, at + 1)])
  }

  function AddressAt(v: string, at: nat): Span
    requires at < |v|
  {
    Span(LocalStart(v, at), DomainEnd(v, at + 1))
  }

  /** The addresses replaced when every `@` from `at` on is tried, the last one so far ending at `from`. */
  function Addresses(v: string, at: nat, from: nat): seq<Span>
    requires at <= |v|
    decreases |v| - at
  {
    if at == |v| then []
    else if Address(v, at) && from <= LocalStart(v, at)
    then [AddressAt(v, at)] + Addresses(v, at + 1, DomainEnd(v, at + 1))
    else Addresses(v, at + 1, from)
  }

  lemma {:induction false} AddressesAreOrdered(v: string, at: nat, from: nat)
    requires at <= |v| && from <= |v|
    ensures Ordered(Addresses(v, at, from), from, |v|)
    decreases |v| - at
  {
    if at < |v| {
      if Address(v, at) && from <= LocalStart(v, at) {
        AddressesAreOrdered(v, at + 1, DomainEnd(v, at + 1));
      } else {
        AddressesAreOrdered(v, at + 1, from);
      }
    }
  }

  function Redacted(v: string): string {
    AddressesAreOrdered(v, 0, 0);
    Splice(v, Addresses(v, 0, 0), T.EMAIL_REDACTED, 0)
  }

  lemma NoAddresses(v: string, from: nat)
    ensures Addresses(v, |v|, from) == []
  {
  }

  lemma AddressesStep(v: string, at: nat, from: nat)
    requires at < |v|
    ensures Addresses(v, at, from) ==
      if Address(v, at) && from <= LocalStart(v, at)
      then [AddressAt(v, at)] + Addresses(v, at + 1, DomainEnd(v, at + 1)) else Addresses(v, at + 1, from)
  {
  }

  lemma LocalStep(v: string, start: nat)
    requires start <= |v|
    ensures LocalStart(v, start) == if start > 0 && Local(v[start - 1]) then LocalStart(v, start - 1) else start
  {
  }

  lemma DomainStep(v: string, end: nat)
    requires end <= |v|
    ensures DomainEnd(v, end) == if end < |v| && Domain(v[end]) then DomainEnd(v, end + 1) else end
  {
  }

  /** The two loops over the text: collect the spans, then copy around them. */
  method RedactEmailAddresses(value: string) returns (output: string)
    ensures output == Redacted(value)
  {
    hide Addresses, LocalStart, DomainEnd, ValidDomain, Local, Domain, Ordered;
    var matches: seq<Span> := [];
    var from: nat := 0;
    for at := 0 to |value|
      invariant from <= |value| && from == if matches == [] then 0 else matches[|matches| - 1].end
      invariant matches + Addresses(value, at, from) == Addresses(value, 0, 0)
    {
      AddressesStep(value, at, from);
      if value[at] == '@' {
        var start := at;
        LocalStep(value, start);
        while start > 0 && Local(value[start - 1])
          invariant start <= at && LocalStart(value, start) == LocalStart(value, at)
        {
          LocalStep(value, start);
          start := start - 1;
        }
        LocalStep(value, start);
        var end := at + 1;
        while end < |value| && Domain(value[end])
          invariant at + 1 <= end <= |value| && DomainEnd(value, end) == DomainEnd(value, at + 1)
        {
          DomainStep(value, end);
          end := end + 1;
        }
        DomainStep(value, end);
        if start < at && end > at + 1 && ValidDomain(value[at + 1..end])
           && (matches == [] || start >= matches[|matches| - 1].end) {
          Regroup(matches, [Span(start, end)], Addresses(value, at + 1, end));
          matches := matches + [Span(start, end)];
          from := end;
        }
      }
    }
    NoAddresses(value, from);
    assert matches == Addresses(value, 0, 0);
    AddressesAreOrdered(value, 0, 0);
    if matches == [] {
      NothingSpliced(value, T.EMAIL_REDACTED);
      return value;
    }
    output := Emit(value, matches, T.EMAIL_REDACTED);
  }

  lemma NothingSpliced(v: string, marker: string)
    ensures Ordered([], 0, |v|) && Splice(v, [], marker, 0) == v
  {
    assert v[0..] == v;
  }

  method Emit(value: string, matches: seq<Span>, marker: string) returns (output: string)
    requires Ordered(matches, 0, |value|)
    ensures output == Splice(value, matches, marker, 0)
  {
    output := "";
    var cursor: nat := 0;
    for k := 0 to |matches|
      invariant Ordered(matches[k..], cursor, |value|)
      invariant output + Splice(value, matches[k..], marker, cursor) == Splice(value, matches, marker, 0)
    {
      assert matches[k..][1..] == matches[k + 1..];
      var piece := value[cursor..matches[k].start] + marker;
      Regroup(output, piece, Splice(value, matches[k + 1..], marker, matches[k].end));
      output := output + piece;
      cursor := matches[k].end;
    }
    output := output + value[cursor..];
  }

  /** Each replaced span is an address as it stands in the text: both runs maximal, the domain valid. */
  lemma {:induction false} SpansAreAddresses(v: string, at: nat, from: nat, span: Span)
    requires at <= |v| && span in Addresses(v, at, from)
    ensures exists a :: at <= a < |v| && Address(v, a) && span == AddressAt(v, a)
    decreases |v| - at
  {
    if Address(v, at) && from <= LocalStart(v, at) {
      if span != AddressAt(v, at) { SpansAreAddresses(v, at + 1, DomainEnd(v, at + 1), span); }
    } else {
      SpansAreAddresses(v, at + 1, from, span);
    }
  }

  /** Every address between `from` and `until` reaches back before `from`: that is why it was passed over. */
  ghost predicate Gap(v: string, from: nat, until: nat) {
    forall a | from <= a < until && Address(v, a) :: LocalStart(v, a) < from
  }

  /** Every gap between the spans is one, and spans start where a local run starts and end where a domain ends. */
  ghost predicate Gaps(v: string, spans: seq<Span>, from: nat)
    requires Ordered(spans, from, |v|)
    decreases |spans|
  {
    if spans == [] then Gap(v, from, |v|)
    else
      OrderedEnd(spans, from, |v|);
      OrderedEnd(spans[1..], spans[0].end, |v|);
      && Gap(v, from, spans[0].start)
      && (spans[0].start > 0 ==> !Local(v[spans[0].start - 1]))
      && (spans[0].end < |v| ==> !Domain(v[spans[0].end]))
      && Gaps(v, spans[1..], spans[0].end)
  }

  lemma {:induction false} AddressesLeaveGaps(v: string, at: nat, from: nat)
    requires at <= |v| && from <= |v|
    requires forall a | from <= a < at && Address(v, a) :: LocalStart(v, a) < from
    ensures Ordered(Addresses(v, at, from), from, |v|) && Gaps(v, Addresses(v, at, from), from)
    decreases |v| - at
  {
    hide ValidDomain, Address, Addresses;
    AddressesAreOrdered(v, at, from);
    if at == |v| {
      assert Addresses(v, at, from) == [] by { NoAddresses(v, from); }
    } else {
      AddressesStep(v, at, from);
      if Address(v, at) && from <= LocalStart(v, at) {
        var rest := Addresses(v, at + 1, DomainEnd(v, at + 1));
        assert ([AddressAt(v, at)] + rest)[1..] == rest;
        AddressesLeaveGaps(v, at + 1, DomainEnd(v, at + 1));
      } else {
        AddressesLeaveGaps(v, at + 1, from);
      }
    }
  }

  /** An address that survives: it starts inside the replaced address before it, which ends at `from`, goes
      on behind that, and its domain is not eaten by the next replaced address, which starts at `until`. */
  predicate Survives(v: string, from: nat, until: nat, a: nat) {
    from < a < until <= |v| && Address(v, a) && LocalStart(v, a) < from && DomainEnd(v, a + 1) <= until
  }

  predicate Left(v: string, spans: seq<Span>, from: nat, a: nat)
    decreases |spans|
  {
    if spans == [] then Survives(v, from, |v|, a)
    else Survives(v, from, spans[0].start, a) || Left(v, spans[1..], spans[0].end, a)
  }

  predicate Barrier(marker: string) {
    && marker != [] && '@' !in marker && !Local(marker[0]) && !Local(marker[|marker| - 1])
  }

  lemma {:induction false} LocalStartWithin(v: string, from: nat, until: nat, k: nat)
    requires from <= until <= |v| && from + k <= until
    ensures LocalStart(v[from..until], k) + from == if LocalStart(v, from + k) < from then from else LocalStart(v, from + k)
  {
    if k > 0 && Local(v[from + k - 1]) {
      LocalStartWithin(v, from, until, k - 1);
    }
  }

  lemma {:induction false} DomainEndWithin(v: string, from: nat, until: nat, k: nat)
    requires from <= until <= |v| && from + k <= until
    ensures DomainEnd(v[from..until], k) + from == if DomainEnd(v, from + k) > until then until else DomainEnd(v, from + k)
    decreases until - k
  {
    if from + k < until && Domain(v[from + k]) {
      DomainEndWithin(v, from, until, k + 1);
    }
  }

  lemma AddressInSlice(v: string, from: nat, until: nat, k: nat)
    requires from <= until <= |v| && from + k < until && DomainEnd(v, from + k + 1) <= until
    ensures Address(v[from..until], k) <==> 0 < k && Address(v, from + k)
  {
    hide ValidDomain, LocalStart, DomainEnd;
    LocalStartWithin(v, from, until, k);
    DomainEndWithin(v, from, until, k + 1);
    var end := DomainEnd(v, from + k + 1);
    SliceOfSlice(v, from, until, k + 1, end - from);
    assert v[from..until][k] == v[from + k];
  }

  /** The addresses of a kept piece are those of the whole text that fit into it. */
  lemma AddressInPiece(v: string, from: nat, until: nat, k: nat)
    requires from <= until <= |v| && (until == |v| || (until > 0 && !Local(v[until - 1]))) && from + k < until
    ensures Address(v[from..until], k) <==> 0 < k && Address(v, from + k) && DomainEnd(v, from + k + 1) <= until
  {
    hide ValidDomain, LocalStart, DomainEnd;
    if DomainEnd(v, from + k + 1) <= until {
      AddressInSlice(v, from, until, k);
    } else {
      DomainEndWithin(v, from, until, k + 1);
    }
  }

  lemma AddressBefore(s: string, n: nat, k: nat)
    requires k < n < |s| && !Domain(s[n])
    ensures (Address(s, k) <==> Address(s[0..n], k)) && LocalStart(s, k) == LocalStart(s[0..n], k)
  {
    hide ValidDomain, LocalStart, DomainEnd;
    AddressInSlice(s, 0, n, k);
    LocalStartWithin(s, 0, n, k);
  }

  lemma AddressBehind(s: string, n: nat, k: nat)
    requires 0 < n <= k < |s| && !Local(s[n - 1])
    ensures (Address(s, k) <==> Address(s[n..|s|], k - n)) && LocalStart(s, k) == n + LocalStart(s[n..|s|], k - n)
  {
    hide ValidDomain, LocalStart, DomainEnd;
    AddressInSlice(s, n, |s|, k - n);
    LocalStartWithin(s, n, |s|, k - n);
  }

  lemma BarrierEdges(a: string, m: string, b: string)
    requires Barrier(m)
    ensures var s, j := a + m + b, |a| + |m|;
      && |a| < j && s[0..|a|] == a && s[j..|s|] == b && !Domain(s[|a|]) && !Local(s[j - 1])
      && forall k | |a| <= k < j :: s[k] != '@'
  {
    var s, j := a + m + b, |a| + |m|;
    assert forall k | |a| <= k < j :: s[k] == m[k - |a|];
  }

  /** In `a + m + b` with a barrier `m`, the addresses are those of `a` and those of `b`. */
  lemma AddressBesideBarrier(a: string, m: string, b: string, k: nat)
    requires Barrier(m) && k < |a + m + b|
    ensures var s := a + m + b; var j := |a| + |m|;
      if k < |a| then (Address(s, k) <==> Address(a, k)) && LocalStart(s, k) == LocalStart(a, k)
      else if k < j then !Address(s, k)
      else (Address(s, k) <==> Address(b, k - j)) && LocalStart(s, k) == j + LocalStart(b, k - j)
  {
    hide ValidDomain, LocalStart, DomainEnd, Address, Barrier, Local, Domain;
    var s, j := a + m + b, |a| + |m|;
    BarrierEdges(a, m, b);
    if k < |a| {
      AddressBefore(s, |a|, k);
    } else if k < j {
      NotAnAddress(s, k);
    } else {
      AddressBehind(s, j, k);
    }
  }

  lemma NotAnAddress(v: string, at: nat)
    requires at < |v| && v[at] != '@'
    ensures !Address(v, at)
  {
  }

  lemma SurvivorInPiece(v: string, from: nat, until: nat, a: nat)
    requires Survives(v, from, until, a) && (0 < until < |v| ==> !Local(v[until - 1]))
    ensures from < a < until && Address(v[from..until], a - from)
  {
    hide Address, LocalStart, DomainEnd;
    AddressInPiece(v, from, until, a - from);
  }

  /** Where a surviving address of the rest of the text ends up in the output. */
  lemma {:induction false} LeftAppears(v: string, spans: seq<Span>, marker: string, from: nat, a: nat) returns (k: nat)
    requires Ordered(spans, from, |v|) && Gaps(v, spans, from) && Barrier(marker) && Left(v, spans, from, a)
    ensures k < |Splice(v, spans, marker, from)| && Address(Splice(v, spans, marker, from), k)
    decreases |spans|
  {
    hide Address, Barrier, LocalStart, DomainEnd, Survives, Gap, Local, Domain;
    OrderedEnd(spans, from, |v|);
    if spans == [] {
      SurvivorInPiece(v, from, |v|, a);
      assert v[from..] == v[from..|v|];
      return a - from;
    }
    OrderedEnd(spans[1..], spans[0].end, |v|);
    var kept, rest := v[from..spans[0].start], Splice(v, spans[1..], marker, spans[0].end);
    if Survives(v, from, spans[0].start, a) {
      SurvivorInPiece(v, from, spans[0].start, a);
      k := a - from;
      AddressBesideBarrier(kept, marker, rest, k);
    } else {
      var r := LeftAppears(v, spans[1..], marker, spans[0].end, a);
      k := |kept| + |marker| + r;
      AddressBesideBarrier(kept, marker, rest, k);
    }
  }

  /** The marker stands right before position `l`, and a character no domain can hold stands at it. */
  predicate FollowsMarker(s: string, marker: string, l: nat) {
    |marker| <= l < |s| && s[l - |marker|..l] == marker && s[l] in {'_', '%', '+'}
  }

  /** The same of a piece that may itself start right behind a marker. */
  predicate StartsPiece(s: string, marker: string, l: nat, first: bool) {
    FollowsMarker(s, marker, l) || (l == 0 && !first && 0 < |s| && s[0] in {'_', '%', '+'})
  }

  lemma PieceSurvivor(v: string, from: nat, until: nat, k: nat)
    requires from <= until <= |v| && (until == |v| || (until > 0 && !Local(v[until - 1]))) && from + k < until
    requires Gap(v, from, until) && (0 < from < |v| ==> !Domain(v[from])) && Address(v[from..until], k)
    ensures Survives(v, from, until, from + k)
    ensures from > 0 && LocalStart(v[from..until], k) == 0 && v[from] in {'_', '%', '+'}
  {
    hide LocalStart, DomainEnd, Address;
    AddressInPiece(v, from, until, k);
    LocalStartWithin(v, from, until, k);
  }

  lemma ShiftedStart(a: string, marker: string, b: string, l: nat)
    requires StartsPiece(b, marker, l, false)
    ensures FollowsMarker(a + marker + b, marker, |a| + |marker| + l)
  {
    var s, j := a + marker + b, |a| + |marker|;
    assert s[j..|s|] == b && s[|a|..j] == marker;
    if l > 0 {
      SliceOfSlice(s, j, |s|, l - |marker|, l);
    }
  }

  /** Every address in the output survived, and its local part starts right behind a marker. */
  lemma {:induction false} AppearedWasLeft(v: string, spans: seq<Span>, marker: string, from: nat,
    k: nat) returns (a: nat)
    requires Ordered(spans, from, |v|) && Gaps(v, spans, from) && Barrier(marker)
    requires 0 < from < |v| ==> !Domain(v[from])
    requires k < |Splice(v, spans, marker, from)| && Address(Splice(v, spans, marker, from), k)
    ensures Left(v, spans, from, a)
    ensures StartsPiece(Splice(v, spans, marker, from), marker, LocalStart(Splice(v, spans, marker, from), k), from == 0)
    decreases |spans|
  {
    hide Address, Barrier, LocalStart, DomainEnd, FollowsMarker, Survives, Gap, Local, Domain;
    OrderedEnd(spans, from, |v|);
    if spans == [] {
      assert v[from..] == v[from..|v|];
      PieceSurvivor(v, from, |v|, k);
      return from + k;
    }
    OrderedEnd(spans[1..], spans[0].end, |v|);
    var kept, rest := v[from..spans[0].start], Splice(v, spans[1..], marker, spans[0].end);
    AddressBesideBarrier(kept, marker, rest, k);
    if k < |kept| {
      PieceSurvivor(v, from, spans[0].start, k);
      assert (kept + marker + rest)[0] == v[from];
      a := from + k;
    } else {
      var r := k - |kept| - |marker|;
      a := AppearedWasLeft(v, spans[1..], marker, spans[0].end, r);
      ShiftedStart(kept, marker, rest, LocalStart(rest, r));
    }
  }

  lemma MarkerIsBarrier()
    ensures Barrier(T.EMAIL_REDACTED)
  {
    assert forall k | 0 <= k < |T.EMAIL_REDACTED| :: T.EMAIL_REDACTED[k] != '@';
  }

  /** Whatever address is still in the output has its local part right behind a redaction marker, starting
      with `_`, `%` or `+`. */
  lemma ResidueFollowsMarker(v: string, k: nat)
    requires Address(Redacted(v), k)
    ensures FollowsMarker(Redacted(v), T.EMAIL_REDACTED, LocalStart(Redacted(v), k))
  {
    hide Address, Barrier, FollowsMarker;
    MarkerIsBarrier();
    AddressesLeaveGaps(v, 0, 0);
    assert k < |Redacted(v)| by { AddressIsInside(Redacted(v), k); }
    var a := AppearedWasLeft(v, Addresses(v, 0, 0), T.EMAIL_REDACTED, 0, k);
  }

  lemma AddressIsInside(v: string, k: nat)
    requires Address(v, k)
    ensures k < |v|
  {
  }

  /** No address is left exactly when none survives being overlapped by the replaced one before it. */
  lemma NothingLeftExactly(v: string)
    ensures (forall k: nat :: !Address(Redacted(v), k)) <==> (forall a: nat :: !Left(v, Addresses(v, 0, 0), 0, a))
  {
    hide Address, Barrier, Left, FollowsMarker;
    MarkerIsBarrier();
    AddressesLeaveGaps(v, 0, 0);
    if k: nat :| Address(Redacted(v), k) {
      AddressIsInside(Redacted(v), k);
      var a := AppearedWasLeft(v, Addresses(v, 0, 0), T.EMAIL_REDACTED, 0, k);
      assert Left(v, Addresses(v, 0, 0), 0, a);
    }
    if a: nat :| Left(v, Addresses(v, 0, 0), 0, a) {
      var k := LeftAppears(v, Addresses(v, 0, 0), T.EMAIL_REDACTED, 0, a);
      assert Address(Redacted(v), k);
    }
  }

  /** The e-mail pass leaves the secret-token passes' work intact. */
  lemma EmailPassKeepsTokensClean(v: string)
    requires T.CleanUpTo(v, |T.PREFIXES|)
    ensures T.CleanUpTo(Redacted(v), |T.PREFIXES|)
  {
    AddressesAreOrdered(v, 0, 0);
    T.EmailFence();
    T.FencedSplicesStayClean(v, Addresses(v, 0, 0), T.EMAIL_REDACTED);
  }

  const OVERLAPPING := "a@b.com_x@c.com"

  lemma LabelsOf(d: string, rest: seq<string>, first: string)
    requires d != [] && d[0] != '.' && rest != [] && Labels(d[1..]) == rest && first == [d[0]] + rest[0]
    ensures Labels(d) == [first] + rest[1..]
  {
  }

  lemma DotCom(d: string)
    requires d == "b.com" || d == "c.com"
    ensures ValidDomain(d)
  {
    assert "m"[1..] == "" && "om"[1..] == "m" && "com"[1..] == "om" && ".com"[1..] == "com" && d[1..] == ".com";
    LabelsOf("m", [""], "m");
    LabelsOf("om", ["m"], "om");
    LabelsOf("com", ["om"], "com");
    assert Labels(".com") == ["", "com"];
    LabelsOf(d, ["", "com"], [d[0]]);
    assert d[1] == '.';
  }

  lemma OverlappingAddresses()
    ensures Address(OVERLAPPING, 1) && AddressAt(OVERLAPPING, 1) == Span(0, 7)
    ensures Address(OVERLAPPING, 9) && AddressAt(OVERLAPPING, 9) == Span(2, 15)
  {
    hide LocalStart, DomainEnd, ValidDomain;
    var v := OVERLAPPING;
    assert v[2..7] == "b.com" && v[10..15] == "c.com";
    DotCom("b.com");
    DotCom("c.com");
    assert Local(v[0]) && !Local(v[1]) && (forall k | 2 <= k < 9 :: Local(v[k]));
    assert (forall k | 2 <= k < 7 :: Domain(v[k])) && !Domain(v[7]) && (forall k | 10 <= k < 15 :: Domain(v[k]));
    assert LocalStart(v, 1) == 0 && LocalStart(v, 9) == 2;
    assert DomainEnd(v, 2) == 7 && DomainEnd(v, 10) == 15;
  }

  /** One pass is not enough: the second address overlaps the first, and survives. */
  lemma OverlapSurvives()
    ensures exists k :: Address(Redacted(OVERLAPPING), k)
  {
    hide Address;
    OverlappingAddresses();
    var v := OVERLAPPING;
    OverlapTail(2);
    assert Addresses(v, 1, 0) == [Span(0, 7)] + Addresses(v, 2, 7);
    NotAnAddress(v, 0);
    assert Addresses(v, 0, 0) == [Span(0, 7)];
    MarkerIsBarrier();
    AddressesLeaveGaps(v, 0, 0);
    assert Left(v, [Span(0, 7)], 0, 9);
    var k := LeftAppears(v, Addresses(v, 0, 0), T.EMAIL_REDACTED, 0, 9);
    assert Address(Redacted(v), k);
  }

  lemma {:induction false} OverlapTail(at: nat)
    requires 2 <= at <= |OVERLAPPING|
    ensures Addresses(OVERLAPPING, at, 7) == []
    decreases |OVERLAPPING| - at
  {
    OverlappingAddresses();
    if at < |OVERLAPPING| { OverlapTail(at + 1); }
  }
}
