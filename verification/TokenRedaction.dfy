/** Redacting prefixed secret tokens: the copying and the in-place scan, and the nine-prefix pass. */
module TokenRedaction {
  import opened Wrappers
  import opened Redaction

  const REDACTED := "[REDACTED_BY_NOPAGER]"
  const TRUNCATED := "[TRUNCATED_BY_NOPAGER]"

  predicate Occurs(s: string, p: string, k: nat) {
    k + |p| <= |s| && p == s[k..k + |p|]
  }

  /** The position of the first occurrence of `p`. */
  function Find(s: string, p: string): (r: Option<nat>)
    ensures r.Some? ==> r.value + |p| <= |s| && Occurs(s, p, r.value) && forall k: nat | k < r.value :: !Occurs(s, p, k)
    ensures r.None? ==> forall k: nat :: !Occurs(s, p, k)
    decreases |s|
  {
    if Occurs(s, p, 0) then Some(0)
    else if s == [] then None
    else
      var r := Find(s[1..], p);
      assert forall k: nat :: Occurs(s[1..], p, k) <==> Occurs(s, p, k + 1) by { OccursBehind(s, p); }
      if r.Some? then assert forall k: nat | k < r.value + 1 :: Occurs(s, p, k) ==> k == 0 || Occurs(s[1..], p, k - 1); Some(r.value + 1)
      else assert forall k: nat :: Occurs(s, p, k) ==> k == 0 || Occurs(s[1..], p, k - 1); None
  }

  lemma OccursBehind(s: string, p: string)
    requires s != []
    ensures forall k: nat :: Occurs(s[1..], p, k) <==> Occurs(s, p, k + 1)
  {
    forall k: nat ensures Occurs(s[1..], p, k) <==> Occurs(s, p, k + 1) { OccursWithin(s, 1, p, k); }
  }

  lemma OccursWithin(s: string, from: nat, p: string, k: nat)
    requires from <= |s|
    ensures Occurs(s[from..], p, k) <==> Occurs(s, p, from + k)
  {
    if from + k + |p| <= |s| {
      assert s[from..][k..k + |p|] == s[from + k..from + k + |p|];
    }
  }

  /** How many token characters a text starts with. */
  function Run(s: string): (n: nat)
    ensures n <= |s| && TokenText(s[..n]) && (n < |s| ==> !TokenChar(s[n]))
    ensures s == [] || !TokenChar(s[0]) ==> n == 0
    decreases |s|
  {
    if s == [] || !TokenChar(s[0]) then 0
    else
      var n := Run(s[1..]);
      assert forall k | 0 < k <= n :: s[k] == s[1..][..n][k - 1];
      n + 1
  }

  /** Where the token that starts with `p` at `start` ends. */
  function TokenEnd(v: string, p: string, start: nat): (end: nat)
    requires start + |p| <= |v|
    ensures start + |p| <= end <= |v|
  {
    start + |p| + Run(v[start + |p|..])
  }

  /** The tokens long enough to be redacted, found from left to right from `from` on. */
  function TokenSpans(v: string, p: string, minimum: nat, from: nat): (spans: seq<Span>)
    requires from <= |v| && p != []
    ensures Ordered(spans, from, |v|)
    decreases |v| - from
  {
    match Find(v[from..], p)
    case None => []
    case Some(relative) =>
      var start := from + relative;
      var end := TokenEnd(v, p, start);
      var rest := TokenSpans(v, p, minimum, end);
      OrderedFrom(rest, from, end, |v|);
      if end - start >= minimum then [Span(start, end)] + rest else rest
  }

  /** What is left to emit from `from` on. */
  function Ahead(v: string, p: string, minimum: nat, marker: string, from: nat): string
    requires from <= |v| && p != []
  {
    Splice(v, TokenSpans(v, p, minimum, from), marker, from)
  }

  /** One token found: the text before it is kept, it is replaced if long enough, the scan goes on behind. */
  lemma ScanStep(v: string, p: string, minimum: nat, marker: string, from: nat)
    requires from <= |v| && p != [] && Find(v[from..], p).Some?
    ensures var start := from + Find(v[from..], p).value;
      var end := TokenEnd(v, p, start);
      Ahead(v, p, minimum, marker, from)
        == (v[from..start] + if end - start >= minimum then marker else v[start..end]) + Ahead(v, p, minimum, marker, end)
  {
    hide Occurs, Find, Run, TokenEnd;
    var start := from + Find(v[from..], p).value;
    var end := TokenEnd(v, p, start);
    if end - start < minimum {
      SpliceFrom(v, TokenSpans(v, p, minimum, end), marker, from, end);
      assert v[from..end] == v[from..start] + v[start..end];
    }
  }

  lemma EndOfScan(v: string, p: string, minimum: nat, marker: string, from: nat)
    requires from <= |v| && p != [] && Find(v[from..], p).None?
    ensures Ahead(v, p, minimum, marker, from) == v[from..]
  {
  }

  lemma RunStep(v: string, end: nat)
    requires end < |v| && TokenChar(v[end])
    ensures Run(v[end..]) == 1 + Run(v[end + 1..])
  {
    assert v[end..][1..] == v[end + 1..];
  }

  lemma TokenEndIs(v: string, p: string, start: nat)
    requires start + |p| <= |v|
    ensures start + |p| + Run(v[start + |p|..]) == TokenEnd(v, p, start)
  {
  }

  /** The byte loop both scans run from a prefix to the end of its token. */
  method ScanToken(text: string, prefix: string, start: nat) returns (end: nat)
    requires start + |prefix| <= |text|
    ensures end == TokenEnd(text, prefix, start)
  {
    hide Run, TokenEnd, TokenText;
    end := start + |prefix|;
    TokenEndIs(text, prefix, start);
    while end < |text| && TokenChar(text[end])
      invariant start + |prefix| <= end <= |text|
      invariant end + Run(text[end..]) == TokenEnd(text, prefix, start)
    {
      RunStep(text, end);
      end := end + 1;
    }
  }

  /** The copying scan: untouched pieces and markers are appended to an output. */
  method CopyRedacted(value: string, prefix: string, minimum: nat, marker: string) returns (output: string)
    requires prefix != []
    ensures output == Ahead(value, prefix, minimum, marker, 0)
  {
    hide Occurs, Find, Run, Ahead, TokenText, TokenEnd;
    output := "";
    var cursor: nat := 0;
    var found := Find(value[cursor..], prefix);
    while found.Some?
      invariant cursor <= |value| && found == Find(value[cursor..], prefix)
      invariant output + Ahead(value, prefix, minimum, marker, cursor) == Ahead(value, prefix, minimum, marker, 0)
      decreases |value| - cursor
    {
      ScanStep(value, prefix, minimum, marker, cursor);
      var start := cursor + found.value;
      var end := ScanToken(value, prefix, start);
      var piece := value[cursor..start] + if end - start >= minimum then marker else value[start..end];
      Regroup(output, piece, Ahead(value, prefix, minimum, marker, end));
      output := output + piece;
      cursor := end;
      found := Find(value[cursor..], prefix);
    }
    EndOfScan(value, prefix, minimum, marker, cursor);
    output := output + value[cursor..];
  }

  /** Inside a token too short to redact, any other occurrence of the prefix ends where the token ends,
      so it is too short as well: scanning on from inside finds what scanning on from the end finds. */
  lemma ShortTokenIsSkipped(v: string, p: string, minimum: nat, start: nat, from: nat)
    requires p != [] && TokenText(p) && Occurs(v, p, start)
    requires TokenEnd(v, p, start) - start < minimum
    requires start < from <= TokenEnd(v, p, start)
    ensures TokenSpans(v, p, minimum, from) == TokenSpans(v, p, minimum, TokenEnd(v, p, start))
  {
    hide Occurs, Find, Run, TokenEnd;
    var end := TokenEnd(v, p, start);
    var found := Find(v[from..], p);
    if found.Some? && from + found.value < end {
      OccursWithin(v, from, p, found.value);
      TokenInside(v, p, start, from + found.value);
    } else {
      FindFrom(v, p, from, end);
    }
  }

  /** Skipping ahead to where nothing is skipped finds the same occurrence. */
  lemma FindFrom(v: string, p: string, from: nat, later: nat)
    requires from <= later <= |v|
    requires Find(v[from..], p).Some? ==> later <= from + Find(v[from..], p).value
    ensures Find(v[later..], p).Some? == Find(v[from..], p).Some?
    ensures Find(v[from..], p).Some? ==> later + Find(v[later..], p).value == from + Find(v[from..], p).value
  {
    hide Occurs, Find;
    var a, b := Find(v[from..], p), Find(v[later..], p);
    if a.Some? {
      OccursWithin(v, from, p, a.value);
      OccursWithin(v, later, p, a.value + from - later);
    }
    if b.Some? {
      OccursWithin(v, later, p, b.value);
      OccursWithin(v, from, p, b.value + later - from);
    }
  }

  /** All of a token, prefix included, is token characters, and the next character is not one. */
  lemma TokenRun(v: string, p: string, start: nat)
    requires TokenText(p) && Occurs(v, p, start)
    ensures var end := TokenEnd(v, p, start);
      TokenText(v[start..end]) && (end < |v| ==> !TokenChar(v[end]))
  {
    var end := TokenEnd(v, p, start);
    forall k | start <= k < end ensures TokenChar(v[k]) {
      if k < start + |p| {
        assert v[k] == v[start..start + |p|][k - start] == p[k - start];
      } else {
        assert v[k] == v[start + |p|..][..Run(v[start + |p|..])][k - start - |p|];
      }
    }
  }

  lemma TokenInside(v: string, p: string, start: nat, next: nat)
    requires p != [] && TokenText(p) && Occurs(v, p, start)
    requires start <= next < TokenEnd(v, p, start) && Occurs(v, p, next)
    ensures TokenEnd(v, p, next) == TokenEnd(v, p, start)
  {
    TokenRun(v, p, start);
    TokenRun(v, p, next);
    var a, b := TokenEnd(v, p, start), TokenEnd(v, p, next);
    assert forall k | start <= k < a :: v[k] == v[start..a][k - start];
    assert forall k | next <= k < b :: v[k] == v[next..b][k - next];
  }

  /** The in-place scan: the buffer being searched is rewritten, and a short token is searched again from
      just behind its prefix. Every round leaves less of the original text ahead. */
  method RedactInPlace(value: string, prefix: string, minimum: nat, marker: string) returns (output: string)
    requires prefix != [] && TokenText(prefix)
    ensures output == Ahead(value, prefix, minimum, marker, 0)
  {
    hide Occurs, Find, Run, Ahead, TokenText, TokenSpans, Splice, TokenEnd;
    output := value;
    var searchFrom: nat := 0;
    ghost var from: nat := 0;  // where the part of `output` still ahead starts in `value`
    while searchFrom < |output|
      invariant searchFrom <= |output| && from <= |value| && output[searchFrom..] == value[from..]
      invariant output[..searchFrom] + Ahead(value, prefix, minimum, marker, from) == Ahead(value, prefix, minimum, marker, 0)
      decreases |output| - searchFrom
    {
      var found := Find(output[searchFrom..], prefix);
      if found.None? {
        break;
      }
      var start := searchFrom + found.value;
      var end := ScanToken(output, prefix, start);
      if end - start < minimum {
        ShortRound(output, searchFrom, value, from, prefix, minimum, marker, found.value);
        searchFrom := start + |prefix|;
        from := from + found.value + |prefix|;
      } else {
        LongRound(output, searchFrom, value, from, prefix, minimum, marker, found.value);
        var rewritten := output[..start] + marker;
        from := from + (end - searchFrom);
        TakeDrop(rewritten, output[end..]);
        output := rewritten + output[end..];
        searchFrom := start + |marker|;
      }
    }
    EndOfScan(value, prefix, minimum, marker, from);
    assert output == output[..searchFrom] + output[searchFrom..];
  }

  lemma TakeDrop(a: string, b: string)
    ensures (a + b)[..|a|] == a && (a + b)[|a|..] == b
  {
  }

  lemma ShortRound(s: string, a: nat, v: string, b: nat, p: string, minimum: nat, marker: string, found: nat)
    requires a <= |s| && b <= |v| && s[a..] == v[b..] && p != [] && TokenText(p)
    requires Find(s[a..], p) == Some(found) && TokenEnd(s, p, a + found) - (a + found) < minimum
    ensures var a', b' := a + found + |p|, b + found + |p|;
      && b' <= |v| && s[a'..] == v[b'..]
      && s[..a'] + Ahead(v, p, minimum, marker, b') == s[..a] + Ahead(v, p, minimum, marker, b)
  {
    hide Occurs, Find, Run, Ahead, TokenText, TokenEnd, TokenSpans, Splice;
    SameToken(s, a, v, b, p, found);
    var behind, stop := b + found + |p|, TokenEnd(v, p, b + found);
    ShortTokenIsSkipped(v, p, minimum, b + found, behind);
    ShortSpans(v, p, minimum, b);
    KeepPrefix(v, p, minimum, marker, b, behind, stop);
    SamePiece(s, a, v, b, found + |p|);
    Regroup(s[..a], v[b..behind], Ahead(v, p, minimum, marker, behind));
  }

  lemma LongRound(s: string, a: nat, v: string, b: nat, p: string, minimum: nat, marker: string, found: nat)
    requires a <= |s| && b <= |v| && s[a..] == v[b..] && p != []
    requires Find(s[a..], p) == Some(found) && TokenEnd(s, p, a + found) - (a + found) >= minimum
    ensures var end := TokenEnd(s, p, a + found); var stop := b + (end - a);
      && stop <= |v| && s[end..] == v[stop..]
      && (s[..a + found] + marker) + Ahead(v, p, minimum, marker, stop) == s[..a] + Ahead(v, p, minimum, marker, b)
  {
    hide Occurs, Find, Run, Ahead, TokenText, TokenEnd, TokenSpans, Splice;
    SameToken(s, a, v, b, p, found);
    ScanStep(v, p, minimum, marker, b);
    var end := TokenEnd(s, p, a + found);
    var stop := b + (end - a);
    SamePiece(s, a, v, b, found);
    SamePiece(s, a, v, b, end - a);
    Regroup(s[..a], v[b..b + found], marker);
    Regroup(s[..a], v[b..b + found] + marker, Ahead(v, p, minimum, marker, stop));
  }

  /** The buffer and the text agree on the next `n` characters and on everything behind them. */
  lemma SamePiece(s: string, a: nat, t: string, b: nat, n: nat)
    requires a + n <= |s| && b <= |t| && s[a..] == t[b..]
    ensures b + n <= |t| && s[..a + n] == s[..a] + t[b..b + n] && s[a + n..] == t[b + n..]
  {
    assert |s[a..]| == |t[b..]|;
    assert s[a + n..] == s[a..][n..];
    assert t[b + n..] == t[b..][n..];
    assert t[b..b + n] == t[b..][..n] == s[a..][..n];
  }

  lemma SameToken(s: string, a: nat, t: string, b: nat, p: string, found: nat)
    requires a <= |s| && b <= |t| && s[a..] == t[b..] && Occurs(s[a..], p, found)
    ensures a + found + |p| <= |s| && Occurs(t, p, b + found)
    ensures TokenEnd(t, p, b + found) - b == TokenEnd(s, p, a + found) - a
  {
    SamePiece(s, a, t, b, found);
    SamePiece(s, a, t, b, found + |p|);
    OccursWithin(t, b, p, found);
  }

  lemma ShortSpans(v: string, p: string, minimum: nat, from: nat)
    requires from <= |v| && p != [] && Find(v[from..], p).Some?
    requires var start := from + Find(v[from..], p).value; TokenEnd(v, p, start) - start < minimum
    ensures TokenSpans(v, p, minimum, from) == TokenSpans(v, p, minimum, TokenEnd(v, p, from + Find(v[from..], p).value))
  {
  }

  lemma KeepPrefix(v: string, p: string, minimum: nat, marker: string, from: nat, behind: nat, stop: nat)
    requires p != [] && from <= behind <= stop <= |v|
    requires TokenSpans(v, p, minimum, behind) == TokenSpans(v, p, minimum, stop)
    requires TokenSpans(v, p, minimum, from) == TokenSpans(v, p, minimum, stop)
    ensures Ahead(v, p, minimum, marker, from) == v[from..behind] + Ahead(v, p, minimum, marker, behind)
  {
    SpliceFrom(v, TokenSpans(v, p, minimum, behind), marker, from, behind);
  }

  /** Between the redacted tokens no hit is left: every hit starts a token or lies inside one. */
  lemma {:induction false} NoHitUntouched(v: string, p: string, minimum: nat, from: nat, j: nat)
    requires p != [] && TokenText(p) && from <= j && Hit(v, p, minimum, j) && |p| <= minimum
    ensures from <= |v| && !Untouched(v, TokenSpans(v, p, minimum, from), from, j, minimum)
    decreases |v| - from
  {
    hide Occurs, Find, Run, TokenEnd, Hit;
    HitOccurs(v, p, minimum, from, j);
    var start := from + Find(v[from..], p).value;
    OccursWithin(v, from, p, start - from);
    var end := TokenEnd(v, p, start);
    var rest := TokenSpans(v, p, minimum, end);
    if j < end {
      HitInToken(v, p, minimum, start, j);
      BeforeAll(v, rest, end, j, minimum);
    } else {
      NoHitUntouched(v, p, minimum, end, j);
      if end - start < minimum {
        SameSpan(v, rest, from, end, j, minimum);
      }
    }
  }

  lemma HitOccurs(v: string, p: string, minimum: nat, from: nat, j: nat)
    requires from <= j && Hit(v, p, minimum, j) && |p| <= minimum && p != []
    ensures from <= |v| && Find(v[from..], p).Some? && from + Find(v[from..], p).value <= j
  {
    hide Find, Run, Hit, Occurs, TokenText;
    HitIsOccurrence(v, p, minimum, j);
    OccursWithin(v, from, p, j - from);
  }

  lemma HitIsOccurrence(v: string, p: string, minimum: nat, j: nat)
    requires Hit(v, p, minimum, j) && |p| <= minimum
    ensures j + minimum <= |v| && Occurs(v, p, j)
  {
    assert v[j..j + minimum][..|p|] == v[j..j + |p|];
  }

  lemma HitInToken(v: string, p: string, minimum: nat, start: nat, j: nat)
    requires p != [] && TokenText(p) && Occurs(v, p, start) && |p| <= minimum
    requires Hit(v, p, minimum, j) && start <= j < TokenEnd(v, p, start)
    ensures j + minimum <= TokenEnd(v, p, start)
  {
    hide Find, Run, TokenEnd;
    TokenRun(v, p, start);
    var end := TokenEnd(v, p, start);
    assert forall k | j <= k < j + minimum :: v[k] == v[j..j + minimum][k - j];
  }

  lemma {:induction false} BeforeAll(v: string, spans: seq<Span>, from: nat, j: nat, n: nat)
    requires Ordered(spans, from, |v|) && j < from
    ensures !Untouched(v, spans, from, j, n)
    decreases |spans|
  {
    if spans != [] { BeforeAll(v, spans[1..], spans[0].end, j, n); }
  }

  lemma SameSpan(v: string, spans: seq<Span>, from: nat, later: nat, j: nat, n: nat)
    requires Ordered(spans, later, |v|) && from <= later <= j
    ensures Untouched(v, spans, from, j, n) == Untouched(v, spans, later, j, n)
  {
  }

  /** After one pass its own prefix has no hit left. */
  lemma RedactedIsClean(v: string, p: string, minimum: nat, marker: string)
    requires p != [] && TokenText(p) && |p| <= minimum && Fence(marker, p, minimum)
    ensures Clean(Ahead(v, p, minimum, marker, 0), p, minimum)
  {
    hide Hit, TokenText, Fence, Find;
    forall j: nat ensures !Hit(Ahead(v, p, minimum, marker, 0), p, minimum, j) {
      if Hit(Ahead(v, p, minimum, marker, 0), p, minimum, j) {
        var origin := SpliceCreatesNothing(v, TokenSpans(v, p, minimum, 0), marker, 0, p, minimum, j);
        NoHitUntouched(v, p, minimum, 0, origin);
      }
    }
  }

  /** Every redacted span is a hit, taken to the end of its run of token characters. */
  lemma {:induction false} SpansAreHits(v: string, p: string, minimum: nat, from: nat, span: Span)
    requires p != [] && TokenText(p) && |p| <= minimum && from <= |v| && span in TokenSpans(v, p, minimum, from)
    ensures Hit(v, p, minimum, span.start) && span.start + minimum <= span.end <= |v|
    ensures TokenText(v[span.start..span.end]) && (span.end < |v| ==> !TokenChar(v[span.end]))
    decreases |v| - from
  {
    hide Occurs, Find, Run, TokenEnd;
    var start := from + Find(v[from..], p).value;
    OccursWithin(v, from, p, start - from);
    var end := TokenEnd(v, p, start);
    if span == Span(start, end) && end - start >= minimum {
      TokenIsHit(v, p, minimum, start);
    } else {
      SpansAreHits(v, p, minimum, end, span);
    }
  }

  lemma TokenIsHit(v: string, p: string, minimum: nat, start: nat)
    requires TokenText(p) && Occurs(v, p, start) && |p| <= minimum && TokenEnd(v, p, start) - start >= minimum
    ensures var end := TokenEnd(v, p, start);
      Hit(v, p, minimum, start) && TokenText(v[start..end]) && (end < |v| ==> !TokenChar(v[end]))
  {
    hide Run, TokenEnd;
    TokenRun(v, p, start);
    var end := TokenEnd(v, p, start);
    var window := v[start..start + minimum];
    assert window[..|p|] == v[start..start + |p|];
    forall k | 0 <= k < minimum ensures TokenChar(window[k]) {
      assert window[k] == v[start..end][k];
    }
  }

  /** A text without a hit is left exactly as it is; so a second pass changes nothing. */
  lemma CleanIsKept(v: string, p: string, minimum: nat, marker: string)
    requires p != [] && TokenText(p) && |p| <= minimum && Clean(v, p, minimum)
    ensures Ahead(v, p, minimum, marker, 0) == v
  {
    var spans := TokenSpans(v, p, minimum, 0);
    if spans != [] {
      SpansAreHits(v, p, minimum, 0, spans[0]);
    }
  }

  // The nine listed prefixes, in the order they are redacted.
  const PREFIXES: seq<(string, nat)> := [
    ("github_pat_", 20), ("ghp_", 16), ("glpat-", 16), ("xoxb-", 16), ("xoxp-", 16),
    ("sk-proj-", 16), ("sk-", 16), ("AIza", 20), ("AKIA", 20)]

  ghost predicate CleanUpTo(s: string, n: nat)
    requires n <= |PREFIXES|
  {
    forall k | 0 <= k < n :: Clean(s, PREFIXES[k].0, PREFIXES[k].1)
  }

  /** A text that no token run can reach across and that holds no listed prefix. */
  ghost predicate Fences(marker: string) {
    forall k | 0 <= k < |PREFIXES| :: Fence(marker, PREFIXES[k].0, PREFIXES[k].1)
  }

  lemma PrefixesAreTokens(k: nat)
    requires k < |PREFIXES|
    ensures var (p, minimum) := PREFIXES[k]; p != [] && TokenText(p) && |p| <= minimum && minimum >= 16
  {
  }

  /** No listed prefix starts inside the brackets, and no window reaches over them. */
  predicate Bracketed(marker: string, open: nat) {
    && open + 16 < |marker| <= open + 30 && !TokenChar(marker[0]) && !TokenChar(marker[|marker| - 1])
    && (forall j | 0 <= j <= open :: !TokenChar(marker[j]))
    && (forall j | open < j < |marker| - 16 :: marker[j] !in {'g', 'x', 's'})
    && (forall j | open < j < |marker| - 20 :: marker[j] == 'A' ==>
          marker[j + 1] !in {'I', 'K'} || marker[j + 2] !in {'z', 'I'})
  }

  lemma HitEnds(s: string, p: string, minimum: nat, j: nat)
    requires 3 <= |p| <= minimum && Hit(s, p, minimum, j)
    ensures s[j] == p[0] && s[j + 1] == p[1] && s[j + 2] == p[2] && TokenChar(s[j]) && TokenChar(s[j + minimum - 1])
  {
    var window := s[j..j + minimum];
    assert window[0] == s[j] && window[1] == s[j + 1] && window[2] == s[j + 2]
      && window[minimum - 1] == s[j + minimum - 1];
  }

  lemma BracketsFence(marker: string, open: nat)
    requires Bracketed(marker, open)
    ensures Fences(marker)
  {
    forall k | 0 <= k < |PREFIXES| ensures Clean(marker, PREFIXES[k].0, PREFIXES[k].1) {
      forall j: nat ensures !Hit(marker, PREFIXES[k].0, PREFIXES[k].1, j) {
        if Hit(marker, PREFIXES[k].0, PREFIXES[k].1, j) { HitEnds(marker, PREFIXES[k].0, PREFIXES[k].1, j); }
      }
    }
  }

  const EMAIL_REDACTED := "[EMAIL_REDACTED_BY_NOPAGER]"

  lemma RedactedFence()
    ensures Fences(REDACTED)
  {
    hide Fences;
    BracketsFence(REDACTED, 0);
  }

  lemma TruncatedFence()
    ensures Fences("\n" + TRUNCATED)
  {
    hide Fences;
    BracketsFence("\n" + TRUNCATED, 1);
  }

  lemma EmailFence()
    ensures Fences(EMAIL_REDACTED)
  {
    hide Fences;
    BracketsFence(EMAIL_REDACTED, 0);
  }

  /** The first `n` passes, each over the result of the one before. */
  function RedactAll(v: string, n: nat): string
    requires n <= |PREFIXES|
  {
    if n == 0 then v
    else
      PrefixesAreTokens(n - 1);
      Ahead(RedactAll(v, n - 1), PREFIXES[n - 1].0, PREFIXES[n - 1].1, REDACTED, 0)
  }

  /** A later pass never recreates what an earlier one removed. */
  lemma {:induction false} LaterPassesKeepClean(v: string, n: nat)
    requires n <= |PREFIXES|
    ensures CleanUpTo(RedactAll(v, n), n)
  {
    hide Ahead, Clean, Fence;
    if n != 0 {
      LaterPassesKeepClean(v, n - 1);
      PrefixesAreTokens(n - 1);
      RedactedFence();
      var before := RedactAll(v, n - 1);
      var (p, minimum) := PREFIXES[n - 1];
      RedactedIsClean(before, p, minimum, REDACTED);
      forall k | 0 <= k < n - 1 ensures Clean(RedactAll(v, n), PREFIXES[k].0, PREFIXES[k].1) {
        PassKeepsClean(before, p, minimum, REDACTED, PREFIXES[k].0, PREFIXES[k].1);
      }
    }
  }

  lemma PassKeepsClean(v: string, p: string, minimum: nat, marker: string, other: string, otherMinimum: nat)
    requires p != [] && Fence(marker, other, otherMinimum) && Clean(v, other, otherMinimum)
    ensures Clean(Ahead(v, p, minimum, marker, 0), other, otherMinimum)
  {
    SpliceKeepsClean(v, TokenSpans(v, p, minimum, 0), marker, other, otherMinimum);
  }

  /** The operations pipeline's loop over the list, with the copying scan. */
  method RedactTokens(value: string) returns (sanitized: string)
    ensures sanitized == RedactAll(value, |PREFIXES|) && CleanUpTo(sanitized, |PREFIXES|)
  {
    hide Ahead, CleanUpTo;
    sanitized := value;
    for n := 0 to |PREFIXES|
      invariant sanitized == RedactAll(value, n)
    {
      PrefixesAreTokens(n);
      sanitized := CopyRedacted(sanitized, PREFIXES[n].0, PREFIXES[n].1, REDACTED);
    }
    LaterPassesKeepClean(value, |PREFIXES|);
  }

  /** The diagnosis pipeline's loop over the same list, with the in-place scan: the same text comes out. */
  method RedactTokensInPlace(value: string) returns (sanitized: string)
    ensures sanitized == RedactAll(value, |PREFIXES|) && CleanUpTo(sanitized, |PREFIXES|)
  {
    hide Ahead, CleanUpTo;
    sanitized := value;
    for n := 0 to |PREFIXES|
      invariant sanitized == RedactAll(value, n)
    {
      PrefixesAreTokens(n);
      sanitized := RedactInPlace(sanitized, PREFIXES[n].0, PREFIXES[n].1, REDACTED);
    }
    LaterPassesKeepClean(value, |PREFIXES|);
  }

  function TruncateChars(value: string, maximum: nat): string {
    if |value| <= maximum then value else value[..maximum] + "\n" + TRUNCATED
  }

  /** Replacing any spans by a fence, as truncation and the e-mail pass do, leaves all nine clean. */
  lemma FencedSplicesStayClean(v: string, spans: seq<Span>, marker: string)
    requires Ordered(spans, 0, |v|) && Fences(marker) && CleanUpTo(v, |PREFIXES|)
    ensures CleanUpTo(Splice(v, spans, marker, 0), |PREFIXES|)
  {
    hide Clean, Fence;
    forall k | 0 <= k < |PREFIXES| ensures Clean(Splice(v, spans, marker, 0), PREFIXES[k].0, PREFIXES[k].1) {
      SpliceKeepsClean(v, spans, marker, PREFIXES[k].0, PREFIXES[k].1);
    }
  }

  /** After the nine passes and truncation no listed prefix has a token reaching its minimum length. */
  lemma TruncationKeepsClean(v: string, maximum: nat)
    requires CleanUpTo(v, |PREFIXES|)
    ensures CleanUpTo(TruncateChars(v, maximum), |PREFIXES|)
    ensures |TruncateChars(v, maximum)| <= maximum + 1 + |TRUNCATED|
  {
    hide CleanUpTo;
    if |v| > maximum {
      var spans := [Span(maximum, |v|)];
      TruncatedFence();
      FencedSplicesStayClean(v, spans, "\n" + TRUNCATED);
      assert Splice(v, spans[1..], "\n" + TRUNCATED, |v|) == "";
      assert Splice(v, spans, "\n" + TRUNCATED, 0) == TruncateChars(v, maximum);
    }
  }
}
