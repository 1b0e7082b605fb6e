/**
  Replacing spans of a text by a marker, and what that does to secret tokens.

  Only ASCII characters are looked at, so byte positions and character positions agree on everything
  these functions compare; a text is a sequence of characters.
*/
module Redaction {
  datatype Span = Span(start: nat, end: nat)

  /** Disjoint, non-empty and increasing between `from` and `n`. */
  predicate Ordered(spans: seq<Span>, from: nat, n: nat) {
    if spans == [] then from <= n
    else from <= spans[0].start < spans[0].end <= n && Ordered(spans[1..], spans[0].end, n)
  }

  lemma {:induction false} OrderedFrom(spans: seq<Span>, from: nat, later: nat, n: nat)
    requires Ordered(spans, later, n) && from <= later
    ensures Ordered(spans, from, n) && from <= n
  {
    OrderedEnd(spans, later, n);
  }

  lemma {:induction false} OrderedEnd(spans: seq<Span>, from: nat, n: nat)
    requires Ordered(spans, from, n)
    ensures from <= n
    decreases |spans|
  {
    if spans != [] { OrderedEnd(spans[1..], spans[0].end, n); }
  }

  /** The text from `from` on, with each span replaced by the marker and everything else kept. */
  function Splice(v: string, spans: seq<Span>, marker: string, from: nat): string
    requires Ordered(spans, from, |v|)
    decreases |spans|
  {
    if spans == [] then v[from..]
    else v[from..spans[0].start] + marker + Splice(v, spans[1..], marker, spans[0].end)
  }

  lemma SpliceFrom(v: string, spans: seq<Span>, marker: string, from: nat, later: nat)
    requires Ordered(spans, later, |v|) && from <= later
    ensures Ordered(spans, from, |v|) && later <= |v|
    ensures Splice(v, spans, marker, from) == v[from..later] + Splice(v, spans, marker, later)
  {
    OrderedFrom(spans, from, later, |v|);
    OrderedEnd(spans, later, |v|);
    if spans != [] {
      var rest := Splice(v, spans[1..], marker, spans[0].end);
      calc {
        v[from..spans[0].start] + marker + rest;
        { assert v[from..spans[0].start] == v[from..later] + v[later..spans[0].start]; }
        (v[from..later] + v[later..spans[0].start]) + marker + rest;
        v[from..later] + (v[later..spans[0].start] + marker + rest);
      }
    }
  }

  lemma Regroup<T>(a: seq<T>, b: seq<T>, c: seq<T>)
    ensures a + (b + c) == (a + b) + c
  {
  }

  predicate Alphabetic(c: char) { 'a' <= c <= 'z' || 'A' <= c <= 'Z' }

  predicate Alphanumeric(c: char) { Alphabetic(c) || '0' <= c <= '9' }

  predicate TokenChar(c: char) { Alphanumeric(c) || c == '_' || c == '-' || c == '.' }

  predicate TokenText(s: string) { forall k | 0 <= k < |s| :: TokenChar(s[k]) }

  /** A listed prefix at `j` whose run of token characters reaches the minimum length. */
  predicate Hit(s: string, prefix: string, minimum: nat, j: nat) {
    j + minimum <= |s| && prefix <= s[j..j + minimum] && TokenText(s[j..j + minimum])
  }

  ghost predicate Clean(s: string, prefix: string, minimum: nat) {
    forall j: nat :: !Hit(s, prefix, minimum, j)
  }

  /** A marker no token run can reach into or out of. */
  ghost predicate Fence(marker: string, prefix: string, minimum: nat) {
    && marker != [] && !TokenChar(marker[0]) && !TokenChar(marker[|marker| - 1])
    && Clean(marker, prefix, minimum)
  }

  /** The text from `j` to `j + n` lies between two neighbouring spans. */
  predicate Untouched(v: string, spans: seq<Span>, from: nat, j: nat, n: nat) {
    if spans == [] then from <= j && j + n <= |v|
    else (from <= j && j + n <= spans[0].start) || Untouched(v, spans[1..], spans[0].end, j, n)
  }

  lemma SliceOfSlice(s: string, a: nat, b: nat, c: nat, d: nat)
    requires a <= b <= |s| && c <= d <= b - a
    ensures s[a..b][c..d] == s[a + c..a + d]
  {
    var x, y := s[a..b][c..d], s[a + c..a + d];
    assert forall k | 0 <= k < |x| :: x[k] == y[k];
  }

  lemma HitWithin(s: string, a: nat, b: nat, prefix: string, minimum: nat, j: nat)
    requires a <= b <= |s| && j + minimum <= b - a
    ensures Hit(s, prefix, minimum, a + j) <==> Hit(s[a..b], prefix, minimum, j)
  {
    SliceOfSlice(s, a, b, j, j + minimum);
  }

  /** In `a + m + b` with a fence `m`, a hit lies in `a` or in `b`. */
  lemma HitBesideFence(a: string, m: string, b: string, prefix: string, minimum: nat, j: nat)
    requires Fence(m, prefix, minimum) && Hit(a + m + b, prefix, minimum, j)
    ensures if j + minimum <= |a| then Hit(a, prefix, minimum, j)
            else |a| + |m| <= j && Hit(b, prefix, minimum, j - |a| - |m|)
  {
    var s, k := a + m + b, |a| + |m|;
    assert s[0..|a|] == a && s[|a|..k] == m && s[k..|s|] == b;
    assert s[|a|] == m[0] && s[k - 1] == m[|m| - 1];
    assert forall i | j <= i < j + minimum :: s[i] == s[j..j + minimum][i - j];
    if j + minimum <= |a| {
      HitWithin(s, 0, |a|, prefix, minimum, j);
    } else if k <= j {
      HitWithin(s, k, |s|, prefix, minimum, j - k);
    } else if |a| < j && j + minimum <= k {
      HitWithin(s, |a|, k, prefix, minimum, j - |a|);
      assert false;
    }
  }

  /** Replacing spans by a fence only cuts token runs: what it leaves was there before, between spans. */
  lemma {:induction false} SpliceCreatesNothing(v: string, spans: seq<Span>, marker: string, from: nat,
                                                prefix: string, minimum: nat, j: nat) returns (origin: nat)
    requires Ordered(spans, from, |v|) && Fence(marker, prefix, minimum)
    requires Hit(Splice(v, spans, marker, from), prefix, minimum, j)
    ensures Hit(v, prefix, minimum, origin) && Untouched(v, spans, from, origin, minimum)
    decreases |spans|
  {
    OrderedEnd(spans, from, |v|);
    if spans == [] {
      assert v[from..] == v[from..|v|];
      HitWithin(v, from, |v|, prefix, minimum, j);
      origin := from + j;
    } else {
      var kept := v[from..spans[0].start];
      var rest := Splice(v, spans[1..], marker, spans[0].end);
      HitBesideFence(kept, marker, rest, prefix, minimum, j);
      if j + minimum <= |kept| {
        HitWithin(v, from, spans[0].start, prefix, minimum, j);
        origin := from + j;
      } else {
        origin := SpliceCreatesNothing(v, spans[1..], marker, spans[0].end, prefix, minimum, j - |kept| - |marker|);
      }
    }
  }

  lemma SpliceKeepsClean(v: string, spans: seq<Span>, marker: string, prefix: string, minimum: nat)
    requires Ordered(spans, 0, |v|) && Fence(marker, prefix, minimum) && Clean(v, prefix, minimum)
    ensures Clean(Splice(v, spans, marker, 0), prefix, minimum)
  {
    forall j: nat ensures !Hit(Splice(v, spans, marker, 0), prefix, minimum, j) {
      if Hit(Splice(v, spans, marker, 0), prefix, minimum, j) {
        var origin := SpliceCreatesNothing(v, spans, marker, 0, prefix, minimum, j);
      }
    }
  }
}
