/** Which domains count, by their characters alone, and that every address in a text is dealt with. */
module EmailLaws {
  import opened Redaction
  import opened EmailRedaction

  predicate Letter(c: char) { 'a' <= c <= 'z' || 'A' <= c <= 'Z' }

  predicate LetterOrDigit(c: char) { Letter(c) || '0' <= c <= '9' }

  /** Letters, digits, hyphens and dots; neither at either end, no dot beside a dot or a hyphen. */
  predicate Sound(d: string) {
    && d != []
    && (forall k | 0 <= k < |d| :: LetterOrDigit(d[k]) || d[k] == '-' || d[k] == '.')
    && d[0] !in {'.', '-'} && d[|d| - 1] !in {'.', '-'}
    && (forall k | 0 <= k < |d| - 1 :: d[k] == '.' ==> d[k + 1] !in {'.', '-'})
    && (forall k | 0 <= k < |d| - 1 :: d[k] == '-' ==> d[k + 1] != '.')
  }

  /** Such a text of at most 253 characters that ends in a dot and two or more letters. */
  predicate WellFormed(d: string) {
    && Sound(d) && |d| <= 253
    && exists dot :: 0 <= dot < |d| - 2 && d[dot] == '.' && forall k | dot < k < |d| :: Letter(d[k])
  }

  lemma {:induction false} OneLabel(d: string)
    requires '.' !in d
    ensures Labels(d) == [d]
    decreases |d|
  {
    if d != [] {
      assert d[0] in d && forall c | c in d[1..] :: c in d;
      OneLabel(d[1..]);
      assert [d[0]] + d[1..] == d;
    }
  }

  lemma {:induction false} FirstLabel(d: string, dot: nat)
    requires dot < |d| && d[dot] == '.' && '.' !in d[..dot]
    ensures Labels(d) == [d[..dot]] + Labels(d[dot + 1..])
    decreases dot
  {
    if dot > 0 {
      assert d[0] == d[..dot][0];
      assert d[1..][..dot - 1] == d[..dot][1..] && d[1..][dot..] == d[dot + 1..];
      FirstLabel(d[1..], dot - 1);
      assert [d[0]] + d[..dot][1..] == d[..dot];
    }
  }

  lemma {:induction false} FirstDot(d: string) returns (dot: nat)
    requires '.' in d
    ensures dot < |d| && d[dot] == '.' && '.' !in d[..dot]
    decreases |d|
  {
    if d[0] == '.' {
      dot := 0;
    } else {
      dot := FirstDot(d[1..]);
      assert d[..dot + 1] == [d[0]] + d[1..][..dot];
      dot := dot + 1;
    }
  }

  predicate AllValid(labels: seq<string>) { forall k | 0 <= k < |labels| :: ValidLabel(labels[k]) }

  lemma SoundLabel(d: string)
    requires '.' !in d
    ensures Sound(d) <==> ValidLabel(d)
  {
    assert forall k | 0 <= k < |d| :: d[k] in d;
    assert forall k | 0 <= k < |d| :: LetterOrDigit(d[k]) == Alphanumeric(d[k]);
  }

  /** Sound on both sides of a dot is sound. */
  lemma SoundSplit(d: string, dot: nat)
    requires dot < |d| && d[dot] == '.'
    ensures Sound(d) <==> Sound(d[..dot]) && Sound(d[dot + 1..])
  {
    var a, b := d[..dot], d[dot + 1..];
    assert forall k | dot < k < |d| :: d[k] == b[k - dot - 1];
    assert forall k | 0 <= k < dot :: d[k] == a[k];
    if Sound(d) {
      assert dot > 0 && a[dot - 1] == d[dot - 1];
      assert dot < |d| - 1 && b[0] == d[dot + 1];
      assert forall k | 0 <= k < |b| :: b[k] == d[dot + 1 + k];
    } else if Sound(a) && Sound(b) {
      forall k | 0 <= k < |d| - 1 && d[k] == '.' ensures d[k + 1] !in {'.', '-'} {
        if k > dot { assert d[k] == b[k - dot - 1] && d[k + 1] == b[k - dot]; }
      }
      forall k | 0 <= k < |d| - 1 && d[k] == '-' ensures d[k + 1] != '.' {
        if k > dot { assert d[k] == b[k - dot - 1] && d[k + 1] == b[k - dot]; }
      }
      assert Sound(d);
    }
  }

  lemma {:induction false} LabelsAreSound(d: string)
    ensures AllValid(Labels(d)) <==> Sound(d)
    decreases |d|
  {
    hide Sound, ValidLabel, Labels;
    if '.' in d {
      var dot := FirstDot(d);
      FirstLabel(d, dot);
      LabelsAreSound(d[dot + 1..]);
      SoundSplit(d, dot);
      SoundLabel(d[..dot]);
      AllValidSplit(d[..dot], Labels(d[dot + 1..]));
    } else {
      OneLabel(d);
      SoundLabel(d);
      assert [d][0] == d;
      assert AllValid([d]) == ValidLabel(d);
    }
  }

  lemma AllValidSplit(a: string, rest: seq<string>)
    ensures AllValid([a] + rest) <==> ValidLabel(a) && AllValid(rest)
  {
    if AllValid([a] + rest) {
      assert ([a] + rest)[0] == a;
      assert forall k | 0 <= k < |rest| :: ([a] + rest)[k + 1] == rest[k];
    }
  }

  /** The last label is what stands behind the last dot. */
  lemma {:induction false} LastLabel(d: string) returns (from: nat)
    ensures var labels := Labels(d); from <= |d| && labels[|labels| - 1] == d[from..] && '.' !in d[from..]
    ensures from == 0 <==> '.' !in d
    ensures from > 0 ==> d[from - 1] == '.'
    decreases |d|
  {
    if '.' in d {
      var dot := FirstDot(d);
      FirstLabel(d, dot);
      var rest := LastLabel(d[dot + 1..]);
      from := dot + 1 + rest;
      assert d[from..] == d[dot + 1..][rest..];
      if rest > 0 { assert d[from - 1] == d[dot + 1..][rest - 1]; }
    } else {
      OneLabel(d);
      from := 0;
      assert d[0..] == d;
    }
  }

  lemma EndsInLetters(d: string) returns (dot: nat)
    requires WellFormed(d)
    ensures dot < |d| - 2 && d[dot] == '.' && forall k | dot < k < |d| :: Letter(d[k])
  {
    dot :| 0 <= dot < |d| - 2 && d[dot] == '.' && forall k | dot < k < |d| :: Letter(d[k]);
  }

  lemma LastDot(d: string, dot: nat, from: nat)
    requires dot < |d| && d[dot] == '.' && forall k | dot < k < |d| :: Letter(d[k])
    requires from <= |d| && '.' !in d[from..] && (from > 0 ==> d[from - 1] == '.')
    ensures from == dot + 1
  {
    assert forall k | from <= k < |d| :: d[k] in d[from..];
  }

  /** A domain is valid exactly if it is well-formed. */
  lemma ValidDomainExactly(d: string)
    ensures ValidDomain(d) <==> WellFormed(d)
  {
    hide Sound, Labels;
    LabelsAreSound(d);
    var from := LastLabel(d);
    var last := d[from..];
    assert forall k | from <= k < |d| :: d[k] == last[k - from];
    assert forall k | 0 <= k < |last| :: Letter(last[k]) == Alphabetic(last[k]);
    if ValidDomain(d) {
      assert d[from - 1] == '.' && forall k | from - 1 < k < |d| :: Letter(d[k]);
    } else if WellFormed(d) {
      var dot := EndsInLetters(d);
      LastDot(d, dot, from);
    }
  }

  // Addresses in a text.

  predicate LocalChar(c: char) { LetterOrDigit(c) || c in {'.', '_', '%', '+', '-'} }

  predicate DomainChar(c: char) { LetterOrDigit(c) || c in {'.', '-'} }

  /** An `@` with a non-empty maximal local run before it and a maximal, well-formed domain behind it. */
  predicate StandsAt(v: string, start: nat, at: nat, end: nat) {
    && start < at < end <= |v| && v[at] == '@'
    && (forall k | start <= k < at :: LocalChar(v[k])) && (start > 0 ==> !LocalChar(v[start - 1]))
    && (forall k | at < k < end :: DomainChar(v[k])) && (end < |v| ==> !DomainChar(v[end]))
    && WellFormed(v[at + 1..end])
  }

  lemma SameChars(c: char)
    ensures LocalChar(c) == Local(c) && DomainChar(c) == Domain(c)
  {
  }

  lemma RunsAre(v: string, start: nat, at: nat, end: nat)
    requires start <= at < end <= |v|
    requires (forall k | start <= k < at :: Local(v[k])) && (start > 0 ==> !Local(v[start - 1]))
    requires (forall k | at < k < end :: Domain(v[k])) && (end < |v| ==> !Domain(v[end]))
    ensures LocalStart(v, at) == start && DomainEnd(v, at + 1) == end
  {
    hide Local, Domain;
  }

  /** What the program takes for an address is exactly that. */
  lemma AddressExactly(v: string, at: nat, start: nat, end: nat)
    requires at < |v|
    ensures StandsAt(v, start, at, end) <==> Address(v, at) && start == LocalStart(v, at) && end == DomainEnd(v, at + 1)
  {
    hide WellFormed, ValidDomain, LocalStart, DomainEnd, LocalChar, DomainChar, Local, Domain;
    forall c ensures LocalChar(c) == Local(c) && DomainChar(c) == Domain(c) { SameChars(c); }
    if StandsAt(v, start, at, end) {
      RunsAre(v, start, at, end);
      ValidDomainExactly(v[at + 1..end]);
      if end == at + 1 { assert WellFormed(v[at + 1..end]) && v[at + 1..end] == []; NotEmpty(v[at + 1..end]); }
    } else if Address(v, at) && start == LocalStart(v, at) && end == DomainEnd(v, at + 1) {
      ValidDomainExactly(v[at + 1..end]);
    }
  }

  lemma NotEmpty(d: string)
    requires WellFormed(d)
    ensures d != []
  {
  }

  /** Every address in a text is replaced, or reaches into the one replaced before it. */
  lemma {:induction false} AddressIsTouched(v: string, at: nat, from: nat, a: nat)
    requires at <= a < |v| && Address(v, a) && from <= |v|
    ensures LocalStart(v, a) < from ||
      exists span :: span in Addresses(v, at, from) && span.start <= a && LocalStart(v, a) < span.end
    decreases |v| - at
  {
    hide Address, LocalStart, DomainEnd, Addresses;
    AddressesStep(v, at, from);
    if Address(v, at) && from <= LocalStart(v, at) {
      var rest := Addresses(v, at + 1, DomainEnd(v, at + 1));
      assert AddressAt(v, at) in Addresses(v, at, from);
      if a > at {
        AddressIsTouched(v, at + 1, DomainEnd(v, at + 1), a);
        assert forall span | span in rest :: span in Addresses(v, at, from);
        StartsBefore(v, at, a);
      } else {
        StartsBefore(v, at, a);
      }
    } else if a > at {
      AddressIsTouched(v, at + 1, from, a);
    }
  }

  lemma StartsBefore(v: string, at: nat, a: nat)
    requires at <= a < |v|
    ensures LocalStart(v, at) <= at < DomainEnd(v, at + 1) && (at == a ==> LocalStart(v, a) < DomainEnd(v, at + 1))
  {
  }

  /** In every text: each well-formed address overlaps a span that is replaced, and each replaced span is one. */
  lemma AllAddressesAreTouched(v: string)
    ensures forall start: nat, at: nat, end: nat :: StandsAt(v, start, at, end) ==>
      exists span :: span in Addresses(v, 0, 0) && span.start <= at && start < span.end
    ensures forall span | span in Addresses(v, 0, 0) :: exists at: nat :: StandsAt(v, span.start, at, span.end)
  {
    hide StandsAt, Addresses, Address, LocalStart, DomainEnd;
    forall start: nat, at: nat, end: nat | StandsAt(v, start, at, end)
      ensures exists span :: span in Addresses(v, 0, 0) && span.start <= at && start < span.end
    {
      Within(v, start, at, end);
      AddressExactly(v, at, start, end);
      AddressIsTouched(v, 0, 0, at);
    }
    forall span | span in Addresses(v, 0, 0) ensures exists at: nat :: StandsAt(v, span.start, at, span.end) {
      SpansAreAddresses(v, 0, 0, span);
      var a :| 0 <= a < |v| && Address(v, a) && span == AddressAt(v, a);
      AddressExactly(v, a, span.start, span.end);
    }
  }

  lemma Within(v: string, start: nat, at: nat, end: nat)
    requires StandsAt(v, start, at, end)
    ensures at < |v|
  {
  }

  lemma {:induction false} NoOther(v: string, at: nat, from: nat)
    requires at <= |v| && forall k | at <= k < |v| :: v[k] != '@'
    ensures Addresses(v, at, from) == []
    decreases |v| - at
  {
    if at < |v| { NoOther(v, at + 1, from); }
  }

  lemma {:induction false} OnlyOne(v: string, at: nat, a: nat)
    requires at <= a < |v| && forall k | 0 <= k < |v| && k != a :: v[k] != '@'
    ensures Addresses(v, at, 0) == if Address(v, a) then [AddressAt(v, a)] else []
    decreases a - at
  {
    if at < a {
      NotAnAddress(v, at);
      OnlyOne(v, at + 1, a);
    } else {
      NoOther(v, a + 1, DomainEnd(v, a + 1));
      NoOther(v, a + 1, 0);
    }
  }

  /** In a text with a single `@` it is replaced exactly if it stands in a well-formed address. */
  lemma SingleAddressIsReplaced(v: string, start: nat, at: nat, end: nat)
    requires at < |v| && v[at] == '@' && forall k | 0 <= k < |v| && k != at :: v[k] != '@'
    ensures StandsAt(v, start, at, end) ==>
      Redacted(v) == v[..start] + "[EMAIL_REDACTED_BY_NOPAGER]" + v[end..]
    ensures (forall start: nat, end: nat :: !StandsAt(v, start, at, end)) ==> Redacted(v) == v
  {
    hide StandsAt, Addresses, Address, LocalStart, DomainEnd;
    OnlyOne(v, 0, at);
    AddressesAreOrdered(v, 0, 0);
    AddressExactly(v, at, LocalStart(v, at), DomainEnd(v, at + 1));
    if StandsAt(v, start, at, end) {
      AddressExactly(v, at, start, end);
      var spans := [AddressAt(v, at)];
      assert spans[1..] == [] && Splice(v, [], "[EMAIL_REDACTED_BY_NOPAGER]", end) == v[end..];
      assert v[0..start] == v[..start];
    }
    if forall start: nat, end: nat :: !StandsAt(v, start, at, end) {
      NothingSpliced(v, "[EMAIL_REDACTED_BY_NOPAGER]");
    }
  }
}
