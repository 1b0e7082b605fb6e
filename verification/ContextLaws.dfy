/** Which values of a context are hidden, by the characters of their keys alone, and what becomes of the rest. */
module ContextLaws {
  import opened TokenRedaction
  import opened TokenLaws
  import opened ContextSanitizer

  predicate LetterOrDigit(c: char) { 'a' <= c <= 'z' || 'A' <= c <= 'Z' || '0' <= c <= '9' }

  /** The same letter in lower case, or the same digit. */
  predicate SameLetter(c: char, lower: char) {
    if 'A' <= c <= 'Z' then lower as int == c as int + 32 else lower == c
  }

  /** `at` lists, in order, the positions of all letters and digits of the key. */
  predicate Positions(key: string, at: seq<nat>) {
    && (forall i, j | 0 <= i < j < |at| :: at[i] < at[j])
    && (forall i | 0 <= i < |at| :: at[i] < |key| && LetterOrDigit(key[at[i]]))
    && Listed(key, at)
  }

  predicate Listed(key: string, at: seq<nat>) { forall k | 0 <= k < |key| && LetterOrDigit(key[k]) :: k in at }

  /** `word` is what is read at these positions, in lower case. */
  predicate ReadAt(key: string, at: seq<nat>, word: string) {
    && |word| == |at|
    && forall i | 0 <= i < |at| :: at[i] < |key| && SameLetter(key[at[i]], word[i])
  }

  /** The letters and digits of the key, in lower case. */
  ghost predicate Spells(key: string, word: string) {
    exists at: seq<nat> :: Positions(key, at) && ReadAt(key, at, word)
  }

  predicate StandsAt(s: string, word: string, k: nat) {
    k + |word| <= |s| && forall j | 0 <= j < |word| :: s[k + j] == word[j]
  }

  predicate Holds(s: string, word: string) { exists k | 0 <= k <= |s| :: StandsAt(s, word, k) }

  /** The words that make a key's value a secret. */
  predicate Secret(word: string) {
    || Holds(word, "password") || Holds(word, "secret") || Holds(word, "apikey") || Holds(word, "privatekey")
    || (|word| >= 5 && word[|word| - 5..] == "token")
    || word == "authorization" || word == "cookie" || word == "setcookie" || word == "databaseurl"
    || word == "connectionstring" || word == "dsn"
  }

  ghost predicate NamesSecret(key: string) { exists word :: Spells(key, word) && Secret(word) }

  function Later(at: seq<nat>): seq<nat> { seq(|at|, i requires 0 <= i < |at| => at[i] + 1) }

  lemma PositionsLater(key: string, at: seq<nat>)
    requires key != [] && Positions(key[1..], at)
    ensures Positions(key, (if LetterOrDigit(key[0]) then [0] else []) + Later(at))
  {
    hide Listed;
    var later := (if LetterOrDigit(key[0]) then [0] else []) + Later(at);
    var n := |later| - |at|;
    assert forall i | 0 <= i < |at| :: later[n + i] == at[i] + 1 && key[at[i] + 1] == key[1..][at[i]];
    assert Listed(key, later) by { ListedLater(key, at, later, n); }
  }

  lemma ListedLater(key: string, at: seq<nat>, later: seq<nat>, n: nat)
    requires key != [] && Listed(key[1..], at) && |later| == n + |at| && n == (if LetterOrDigit(key[0]) then 1 else 0)
    requires (n == 1 ==> later[0] == 0) && forall i | 0 <= i < |at| :: later[n + i] == at[i] + 1
    ensures Listed(key, later)
  {
    forall k | 0 <= k < |key| && LetterOrDigit(key[k]) ensures k in later {
      if k == 0 {
        assert later[0] == 0;
      } else {
        assert key[1..][k - 1] == key[k];
        var i := IndexOf(at, k - 1);
        assert later[n + i] == k;
      }
    }
  }

  lemma IndexOf(at: seq<nat>, k: nat) returns (i: nat)
    requires k in at
    ensures i < |at| && at[i] == k
  {
    i :| 0 <= i < |at| && at[i] == k;
  }

  lemma ReadLater(key: string, at: seq<nat>, word: string)
    requires key != [] && Positions(key[1..], at) && ReadAt(key[1..], at, word)
    ensures var first := LetterOrDigit(key[0]);
      ReadAt(key, (if first then [0] else []) + Later(at), (if first then [Lower(key[0])] else []) + word)
  {
    assert forall i | 0 <= i < |at| :: key[at[i] + 1] == key[1..][at[i]];
  }

  lemma {:induction false} NormalizedSpells(key: string) returns (at: seq<nat>)
    ensures Positions(key, at) && ReadAt(key, at, NormalizeKey(key))
    decreases |key|
  {
    hide Positions, ReadAt;
    if key == [] {
      at := [];
      NothingSpelled();
    } else {
      var rest := NormalizedSpells(key[1..]);
      PositionsLater(key, rest);
      ReadLater(key, rest, NormalizeKey(key[1..]));
      at := (if LetterOrDigit(key[0]) then [0] else []) + Later(rest);
    }
  }

  lemma NothingSpelled()
    ensures Positions("", []) && ReadAt("", [], "")
  {
  }

  lemma {:induction false} OnePosition(key: string, a: seq<nat>, b: seq<nat>, i: nat)
    requires Positions(key, a) && Positions(key, b) && i < |a|
    ensures i < |b| && a[i] == b[i]
    decreases i
  {
    if i > 0 { OnePosition(key, a, b, i - 1); }
    assert a[i] in b;
    var j :| 0 <= j < |b| && b[j] == a[i];
    if j > i {
      assert b[i] in a;
      var m :| 0 <= m < |a| && a[m] == b[i];
      if m < i { OnePosition(key, a, b, m); }
    } else if j < i {
      OnePosition(key, a, b, j);
    }
  }

  /** There is exactly one such word, the normalised key. */
  lemma SpellsNormalized(key: string, word: string)
    ensures Spells(key, word) <==> word == NormalizeKey(key)
  {
    hide NormalizeKey, Positions, ReadAt;
    var at := NormalizedSpells(key);
    if Spells(key, word) {
      var b: seq<nat> :| Positions(key, b) && ReadAt(key, b, word);
      SamePositions(key, at, b);
      SameReading(key, at, word, NormalizeKey(key));
    }
  }

  lemma SamePositions(key: string, a: seq<nat>, b: seq<nat>)
    requires Positions(key, a) && Positions(key, b)
    ensures a == b
  {
    hide Positions;
    if |a| > |b| { OnePosition(key, a, b, |b|); }
    if |b| > |a| { OnePosition(key, b, a, |a|); }
    forall i | 0 <= i < |a| ensures a[i] == b[i] { OnePosition(key, a, b, i); }
  }

  lemma SameReading(key: string, at: seq<nat>, a: string, b: string)
    requires ReadAt(key, at, a) && ReadAt(key, at, b)
    ensures a == b
  {
  }

  lemma StandsWhereOccurs(s: string, word: string, k: nat)
    ensures StandsAt(s, word, k) <==> Occurs(s, word, k)
  {
    if k + |word| <= |s| {
      var piece := s[k..k + |word|];
      assert forall j | 0 <= j < |word| :: piece[j] == s[k + j];
    }
  }

  lemma HoldsFound(s: string, word: string)
    ensures Holds(s, word) <==> Find(s, word).Some?
  {
    hide Find;
    forall k: nat ensures StandsAt(s, word, k) <==> Occurs(s, word, k) { StandsWhereOccurs(s, word, k); }
  }

  /** A key is sensitive exactly if its letters and digits spell one of these words or contain them so. */
  lemma SensitiveExactly(key: string)
    ensures SensitiveKey(key) <==> NamesSecret(key)
  {
    hide NormalizeKey, Find, Spells, Holds;
    var word := NormalizeKey(key);
    HoldsFound(word, "password");
    HoldsFound(word, "secret");
    HoldsFound(word, "apikey");
    HoldsFound(word, "privatekey");
    SpellsNormalized(key, word);
    forall other | Spells(key, other) ensures other == word { SpellsNormalized(key, other); }
  }

  /** Every value under such a key, anywhere in the tree, is the marker. */
  ghost predicate Hidden(v: Json)
    decreases v
  {
    match v
    case Object(entries) =>
      forall k | 0 <= k < |entries| ::
        && Hidden(entries[k].value)
        && (NamesSecret(entries[k].key) ==> entries[k].value == Text("[REDACTED_BY_NOPAGER]"))
    case Array(items) => forall k | 0 <= k < |items| :: Hidden(items[k])
    case _ => true
  }

  lemma {:induction false} HiddenSecrets(v: Json)
    requires SecretsHidden(v)
    ensures Hidden(v)
    decreases v
  {
    hide SensitiveKey, NamesSecret;
    match v
    case Object(entries) =>
      forall k | 0 <= k < |entries|
        ensures Hidden(entries[k].value)
        ensures NamesSecret(entries[k].key) ==> entries[k].value == Text("[REDACTED_BY_NOPAGER]")
      {
        HiddenSecrets(entries[k].value);
        SensitiveExactly(entries[k].key);
      }
    case Array(items) =>
      forall k | 0 <= k < |items| ensures Hidden(items[k]) { HiddenSecrets(items[k]); }
    case _ =>
  }

  lemma SanitizedHidesSecrets(earlier: string -> string, v: Json)
    ensures Hidden(Bounded(earlier, v, 0))
  {
    BoundedHidesSecrets(earlier, v, 0);
    HiddenSecrets(Bounded(earlier, v, 0));
  }

  // What one level of the tree becomes, read off input and output.

  /** The entry that a kept entry becomes: the marker under such a key, otherwise what its value alone becomes. */
  ghost function Kept(earlier: string -> string, entry: Entry, depth: nat): Entry {
    Entry(entry.key, if NamesSecret(entry.key) then Text("[REDACTED_BY_NOPAGER]") else Bounded(earlier, entry.value, depth + 1))
  }

  /** Objects above the eighth level keep their first 64 entries, and say so if there were more. */
  lemma ObjectExactly(earlier: string -> string, entries: seq<Entry>, depth: nat)
    ensures depth >= 8 ==> Bounded(earlier, Object(entries), depth) == Text("[TRUNCATED_BY_NOPAGER]")
    ensures depth < 8 ==> Bounded(earlier, Object(entries), depth).Object?
    ensures depth < 8 ==>
      var out := Bounded(earlier, Object(entries), depth);
      var n := if |entries| < 64 then |entries| else 64;
      && (|entries| <= 64 ==>
            |out.entries| == n && forall k | 0 <= k < n :: out.entries[k] == Kept(earlier, entries[k], depth))
      && (|entries| > 64 ==>
            && Entry("_nopagerContextTruncated", Bool(true)) in out.entries
            && (forall k | 0 <= k < n && entries[k].key != "_nopagerContextTruncated" ::
                  Kept(earlier, entries[k], depth) in out.entries)
            && (forall e | e in out.entries && e != Entry("_nopagerContextTruncated", Bool(true)) ::
                  exists k | 0 <= k < n :: e == Kept(earlier, entries[k], depth)))
  {
    hide SensitiveKey, NamesSecret, SanitizeText, Insert;
    forall key ensures SensitiveKey(key) == NamesSecret(key) { SensitiveExactly(key); }
    if depth < 8 {
      var kept := BoundedEntries(earlier, Object(entries), depth + 1);
      forall k | 0 <= k < |kept| ensures kept[k] == Kept(earlier, entries[k], depth) { }
      if |entries| > 64 {
        InsertKeeps(kept, TRUNCATION_KEY, Bool(true));
        forall k | 0 <= k < 64 && entries[k].key != "_nopagerContextTruncated"
          ensures Kept(earlier, entries[k], depth) in Insert(kept, TRUNCATION_KEY, Bool(true))
        {
          assert kept[k] in kept;
        }
      }
    }
  }

  /** Putting an entry under a key keeps the others. */
  lemma {:induction false} InsertKeeps(entries: seq<Entry>, key: string, value: Json)
    ensures var all := Insert(entries, key, value);
      && Entry(key, value) in all
      && (forall e | e in entries && e.key != key :: e in all)
      && (forall e | e in all && e != Entry(key, value) :: e in entries)
  {
    if entries != [] && entries[0].key != key && !Before(key, entries[0].key) {
      InsertKeeps(entries[1..], key, value);
      forall e | e in entries && e.key != key ensures e in Insert(entries, key, value) {
        if e != entries[0] { assert e in entries[1..]; }
      }
    } else if entries != [] {
      assert entries == [entries[0]] + entries[1..];
    }
  }

  /** The order of keys: by the first character in which they differ, a beginning before its continuations. */
  predicate Less(a: string, b: string) { exists k | 0 <= k <= |a| :: DiffersAt(a, b, k) }

  predicate DiffersAt(a: string, b: string, k: nat) {
    && k <= |a| && k < |b| && (forall j | 0 <= j < k :: a[j] == b[j])
    && (k == |a| || a[k] < b[k])
  }

  predicate InKeyOrder(entries: seq<Entry>) {
    forall i, j | 0 <= i < j < |entries| :: Less(entries[i].key, entries[j].key)
  }

  lemma {:induction false} BeforeIsLess(a: string, b: string)
    ensures Before(a, b) <==> Less(a, b)
    decreases |a|
  {
    if b != [] && a != [] {
      BeforeIsLess(a[1..], b[1..]);
      if a[0] == b[0] && Less(a[1..], b[1..]) {
        var k :| 0 <= k <= |a[1..]| && DiffersAt(a[1..], b[1..], k);
        assert forall j | 0 < j < |a| :: a[j] == a[1..][j - 1];
        assert forall j | 0 < j < |b| :: b[j] == b[1..][j - 1];
        assert DiffersAt(a, b, k + 1);
      } else if a[0] < b[0] {
        assert DiffersAt(a, b, 0);
      }
      if Less(a, b) { LessBehind(a, b); }
    } else if b != [] {
      assert DiffersAt(a, b, 0);
    }
  }

  lemma LessBehind(a: string, b: string)
    requires a != [] && b != [] && Less(a, b)
    ensures a[0] < b[0] || (a[0] == b[0] && Less(a[1..], b[1..]))
  {
    var k :| 0 <= k <= |a| && DiffersAt(a, b, k);
    if k > 0 {
      assert DiffersAt(a[1..], b[1..], k - 1);
    }
  }

  lemma LessOrder(a: string, b: string)
    ensures a == b || Less(a, b) || Less(b, a)
    ensures !(Less(a, b) && Less(b, a)) && !Less(a, a)
  {
    if Less(a, b) {
      var k :| 0 <= k <= |a| && DiffersAt(a, b, k);
      assert forall m :: !DiffersAt(b, a, m);
    }
    FirstDifference(a, b, 0);
  }

  lemma {:induction false} FirstDifference(a: string, b: string, k: nat)
    requires k <= |a| && k <= |b| && forall j | 0 <= j < k :: a[j] == b[j]
    ensures a == b || Less(a, b) || Less(b, a)
    decreases |a| - k
  {
    if k < |a| && k < |b| && a[k] == b[k] {
      FirstDifference(a, b, k + 1);
    } else if k < |b| && (k == |a| || a[k] < b[k]) {
      assert DiffersAt(a, b, k);
    } else if k < |a| {
      assert DiffersAt(b, a, k);
    }
  }

  lemma LessChain(a: string, b: string, c: string)
    requires Less(a, b) && Less(b, c)
    ensures Less(a, c)
  {
    var k :| 0 <= k <= |a| && DiffersAt(a, b, k);
    var m :| 0 <= m <= |b| && DiffersAt(b, c, m);
    assert DiffersAt(a, c, if k < m then k else m);
  }

  /** Entries in key order stay in key order when one more is put among them. */
  lemma {:induction false} InsertKeepsOrder(entries: seq<Entry>, key: string, value: Json)
    requires InKeyOrder(entries)
    ensures InKeyOrder(Insert(entries, key, value))
  {
    hide Less;
    if entries != [] {
      BeforeIsLess(key, entries[0].key);
      LessOrder(key, entries[0].key);
      var all := Insert(entries, key, value);
      if entries[0].key == key {
        assert forall i | 0 < i < |all| :: all[i] == entries[i];
      } else if Less(key, entries[0].key) {
        assert forall i | 0 < i < |all| :: all[i] == entries[i - 1];
        forall j | 0 < j < |all| ensures Less(key, all[j].key) {
          if j > 1 { LessChain(key, entries[0].key, all[j].key); }
        }
      } else {
        InsertKeepsOrder(entries[1..], key, value);
        InsertKeeps(entries[1..], key, value);
        var rest := Insert(entries[1..], key, value);
        forall j | 0 < j < |all| ensures Less(entries[0].key, all[j].key) {
          assert all[j] == rest[j - 1] && rest[j - 1] in rest;
          if all[j] != Entry(key, value) {
            var i :| 0 <= i < |entries[1..]| && entries[1..][i] == all[j];
            assert entries[i + 1] == all[j];
          }
        }
      }
    }
  }

  /** So an object whose keys stand in order comes out in order. */
  lemma OrderIsKept(earlier: string -> string, entries: seq<Entry>, depth: nat)
    requires InKeyOrder(entries) && depth < 8
    ensures var out := Bounded(earlier, Object(entries), depth); out.Object? && InKeyOrder(out.entries)
  {
    hide SensitiveKey, SanitizeText, Less, Insert;
    var kept := BoundedEntries(earlier, Object(entries), depth + 1);
    assert forall k | 0 <= k < |kept| :: kept[k].key == entries[k].key;
    if |entries| > 64 { InsertKeepsOrder(kept, TRUNCATION_KEY, Bool(true)); }
  }

  /** Arrays above the eighth level keep their first 32 items, everything else keeps its value. */
  lemma OthersExactly(earlier: string -> string, v: Json, depth: nat)
    requires !v.Object?
    ensures depth >= 8 ==> Bounded(earlier, v, depth) == Text("[TRUNCATED_BY_NOPAGER]")
    ensures depth < 8 ==>
      && (v.Array? ==>
            var out := Bounded(earlier, v, depth);
            && out.Array? && |out.items| == (if |v.items| < 32 then |v.items| else 32)
            && forall k | 0 <= k < |out.items| :: out.items[k] == Bounded(earlier, v.items[k], depth + 1))
      && (v.Null? || v.Bool? || v.Number? ==> Bounded(earlier, v, depth) == v)
  {
    hide SensitiveKey, SanitizeText;
  }

  /** Texts go through the earlier passes and the token passes, and beyond 12000 characters end in a note. */
  lemma TextExactly(earlier: string -> string, s: string, depth: nat)
    requires depth < 8
    ensures var clean := RedactAll(earlier(s), 9);
      Bounded(earlier, Text(s), depth) ==
        Text(if |clean| <= 12000 then clean else clean[..12000] + "\n[TRUNCATED_BY_NOPAGER]")
  {
    hide RedactAll;
  }

  /** So, for any tree: at most eight levels, 65 entries, 32 items and 12023 characters. */
  ghost predicate Small(v: Json, levels: nat)
    decreases v
  {
    match v
    case Object(entries) =>
      levels > 0 && |entries| <= 65 && forall k | 0 <= k < |entries| :: Small(entries[k].value, levels - 1)
    case Array(items) => levels > 0 && |items| <= 32 && forall k | 0 <= k < |items| :: Small(items[k], levels - 1)
    case Text(s) => |s| <= 12023 && TokenFree(s)
    case _ => true
  }

  lemma {:induction false} FitsIsSmall(v: Json, levels: nat)
    requires FitsIn(v, levels)
    ensures Small(v, levels)
    decreases v
  {
    hide CleanUpTo, TokenFree;
    match v
    case Object(entries) =>
      forall k | 0 <= k < |entries| ensures Small(entries[k].value, levels - 1) { FitsIsSmall(entries[k].value, levels - 1); }
    case Array(items) =>
      forall k | 0 <= k < |items| ensures Small(items[k], levels - 1) { FitsIsSmall(items[k], levels - 1); }
    case Text(s) => CleanExactly(s);
    case _ =>
  }

  lemma SanitizedIsSmall(earlier: string -> string, v: Json)
    ensures Small(Bounded(earlier, v, 0), 8)
  {
    BoundedFits(earlier, v, 0);
    FitsIsSmall(Bounded(earlier, v, 0), 8);
  }
}
