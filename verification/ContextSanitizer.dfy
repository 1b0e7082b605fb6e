/** Bounding and sanitising the JSON context that is sent to an operations model. */
module ContextSanitizer {
  import R = Redaction
  import opened TokenRedaction

  const MAX_CONTEXT_DEPTH := 8
  const MAX_CONTEXT_KEYS := 64
  const MAX_CONTEXT_ITEMS := 32
  const MAX_CONTEXT_STRING_CHARS := 12000
  const TRUNCATION_KEY := "_nopagerContextTruncated"

  datatype Entry = Entry(key: string, value: Json)

  /** A JSON value; the entries of an object have distinct keys and stand in key order. */
  datatype Json =
    | Null
    | Bool(b: bool)
    | Number(digits: string)
    | Text(s: string)
    | Array(items: seq<Json>)
    | Object(entries: seq<Entry>)

  function Lower(c: char): char {
    if 'A' <= c <= 'Z' then c - 'A' + 'a' else c
  }

  function NormalizeKey(key: string): string {
    if key == [] then ""
    else (if R.Alphanumeric(key[0]) then [Lower(key[0])] else "") + NormalizeKey(key[1..])
  }

  predicate EndsWith(s: string, suffix: string) {
    |suffix| <= |s| && s[|s| - |suffix|..] == suffix
  }

  predicate SensitiveKey(key: string) {
    var normalized := NormalizeKey(key);
    || Find(normalized, "password").Some? || Find(normalized, "secret").Some?
    || Find(normalized, "apikey").Some? || Find(normalized, "privatekey").Some?
    || normalized == "authorization" || EndsWith(normalized, "token")
    || normalized in {"cookie", "setcookie", "databaseurl", "connectionstring", "dsn"}
  }

  predicate Before(a: string, b: string) {
    b != [] && (a == [] || a[0] < b[0] || (a[0] == b[0] && Before(a[1..], b[1..])))
  }

  /** Put a value under a key: in place of the one that is there, or in key order. */
  function Insert(entries: seq<Entry>, key: string, value: Json): seq<Entry> {
    if entries == [] then [Entry(key, value)]
    else if entries[0].key == key then [Entry(key, value)] + entries[1..]
    else if Before(key, entries[0].key) then [Entry(key, value)] + entries
    else [entries[0]] + Insert(entries[1..], key, value)
  }

  /** Texts go through the earlier passes, which are a parameter here, the nine token passes and truncation. */
  function SanitizeText(earlier: string -> string, s: string): string {
    TruncateChars(RedactAll(earlier(s), |PREFIXES|), MAX_CONTEXT_STRING_CHARS)
  }

  function Least(a: nat, b: nat): nat { if a < b then a else b }

  /** What becomes of a value at a depth. */
  function Bounded(earlier: string -> string, v: Json, depth: nat): Json
    decreases v
  {
    if depth >= MAX_CONTEXT_DEPTH then Text(TRUNCATED)
    else match v
      case Object(entries) =>
        var kept := BoundedEntries(earlier, v, depth + 1);
        Object(if |entries| > MAX_CONTEXT_KEYS then Insert(kept, TRUNCATION_KEY, Bool(true)) else kept)
      case Array(items) =>
        Array(seq(Least(|items|, MAX_CONTEXT_ITEMS), k requires 0 <= k < |items| => Bounded(earlier, items[k], depth + 1)))
      case Text(s) => Text(SanitizeText(earlier, s))
      case _ => v
  }

  function BoundedEntries(earlier: string -> string, v: Json, depth: nat): seq<Entry>
    requires v.Object?
    decreases v, 0
  {
    seq(Least(|v.entries|, MAX_CONTEXT_KEYS), k requires 0 <= k < |v.entries| =>
      Entry(v.entries[k].key, if SensitiveKey(v.entries[k].key) then Text(REDACTED)
                              else Bounded(earlier, v.entries[k].value, depth)))
  }

  /** The walk over the tree, rewriting each object's and array's children in turn. */
  method SanitizeAndBound(earlier: string -> string, value: Json, depth: nat) returns (result: Json)
    ensures result == Bounded(earlier, value, depth)
    decreases value, 1
  {
    if depth >= MAX_CONTEXT_DEPTH {
      return Text(TRUNCATED);
    }
    match value {
      case Object(entries) => result := SanitizeObject(earlier, value, depth);
      case Array(items) => result := SanitizeArray(earlier, value, depth);
      case Text(s) => result := Text(SanitizeText(earlier, s));
      case _ => result := value;
    }
  }

  method SanitizeObject(earlier: string -> string, value: Json, depth: nat) returns (result: Json)
    requires value.Object? && depth < MAX_CONTEXT_DEPTH
    ensures result == Bounded(earlier, value, depth)
    decreases value, 0
  {
    hide SensitiveKey, SanitizeText, Insert, Before, Bounded, BoundedEntries, Without, Halfway;
    var entries := value.entries;
    var keys := seq(|entries|, k requires 0 <= k < |entries| => entries[k].key);
    var fields, truncated := entries, false;
    ghost var kept := BoundedEntries(earlier, value, depth + 1);
    ObjectParts(earlier, value, depth);
    HalfwayEnds(kept, entries);
    for index := 0 to |keys|
      invariant truncated <==> index > MAX_CONTEXT_KEYS
      invariant fields == Halfway(kept, entries, index)
    {
      if index >= MAX_CONTEXT_KEYS {
        Removed(fields, kept, entries, index);
        fields := Without(fields, MAX_CONTEXT_KEYS);
        truncated := true;
      } else {
        Replaced(fields, kept, entries, index);
        if SensitiveKey(keys[index]) {
          fields := fields[index := Entry(keys[index], Text(REDACTED))];
        } else {
          var child := SanitizeAndBound(earlier, entries[index].value, depth + 1);
          fields := fields[index := Entry(keys[index], child)];
        }
      }
    }
    if truncated {
      fields := Insert(fields, TRUNCATION_KEY, Bool(true));
    }
    result := Object(fields);
  }

  lemma ObjectParts(earlier: string -> string, v: Json, depth: nat)
    requires v.Object? && depth < MAX_CONTEXT_DEPTH
    ensures var kept := BoundedEntries(earlier, v, depth + 1);
      && |kept| == Least(|v.entries|, MAX_CONTEXT_KEYS)
      && (forall k | 0 <= k < |kept| :: kept[k] == Entry(v.entries[k].key,
            if SensitiveKey(v.entries[k].key) then Text(REDACTED) else Bounded(earlier, v.entries[k].value, depth + 1)))
      && Bounded(earlier, v, depth) == Object(if |v.entries| > MAX_CONTEXT_KEYS then Insert(kept, TRUNCATION_KEY, Bool(true)) else kept)
  {
  }

  function Without(fields: seq<Entry>, k: nat): seq<Entry>
    requires k < |fields|
  {
    fields[..k] + fields[k + 1..]
  }

  /** The fields when the loop has come to key `index`: rewritten or removed before it, as they were behind. */
  function Halfway(kept: seq<Entry>, entries: seq<Entry>, index: nat): seq<Entry>
    requires |kept| <= |entries| && index <= |entries|
  {
    kept[..Least(index, |kept|)] + entries[index..]
  }

  lemma HalfwayEnds(kept: seq<Entry>, entries: seq<Entry>)
    requires |kept| <= |entries|
    ensures Halfway(kept, entries, 0) == entries && Halfway(kept, entries, |entries|) == kept
  {
  }

  lemma Removed(fields: seq<Entry>, kept: seq<Entry>, entries: seq<Entry>, index: nat)
    requires |kept| == MAX_CONTEXT_KEYS <= index < |entries| && fields == Halfway(kept, entries, index)
    ensures MAX_CONTEXT_KEYS < |fields| && Without(fields, MAX_CONTEXT_KEYS) == Halfway(kept, entries, index + 1)
  {
  }

  lemma Replaced(fields: seq<Entry>, kept: seq<Entry>, entries: seq<Entry>, index: nat)
    requires index < |kept| <= |entries| && fields == Halfway(kept, entries, index)
    ensures index < |fields| && fields[index := kept[index]] == Halfway(kept, entries, index + 1)
  {
  }

  method SanitizeArray(earlier: string -> string, value: Json, depth: nat) returns (result: Json)
    requires value.Array? && depth < MAX_CONTEXT_DEPTH
    ensures result == Bounded(earlier, value, depth)
    decreases value, 0
  {
    hide SensitiveKey, SanitizeText, Insert;
    var items := value.items;
    var truncated := |items| > MAX_CONTEXT_ITEMS;
    var values := if truncated then items[..MAX_CONTEXT_ITEMS] else items;
    for k := 0 to |values|
      invariant |values| == Least(|items|, MAX_CONTEXT_ITEMS)
      invariant forall j | 0 <= j < k :: values[j] == Bounded(earlier, items[j], depth + 1)
      invariant forall j | k <= j < |values| :: values[j] == items[j]
    {
      var child := SanitizeAndBound(earlier, items[k], depth + 1);
      values := values[k := child];
    }
    if truncated && |values| < MAX_CONTEXT_ITEMS {
      assert false;  // a truncated array is full, so the source never appends its marker
    }
    result := Array(values);
  }

  /** At most `levels` levels below this value, within the width limits, and every text bounded and clean. */
  ghost predicate FitsIn(v: Json, levels: nat)
    decreases v
  {
    match v
    case Object(entries) =>
      levels > 0 && |entries| <= MAX_CONTEXT_KEYS + 1 && forall k | 0 <= k < |entries| :: FitsIn(entries[k].value, levels - 1)
    case Array(items) =>
      levels > 0 && |items| <= MAX_CONTEXT_ITEMS && forall k | 0 <= k < |items| :: FitsIn(items[k], levels - 1)
    case Text(s) => |s| <= MAX_CONTEXT_STRING_CHARS + 1 + |TRUNCATED| && CleanUpTo(s, |PREFIXES|)
    case _ => true
  }

  lemma {:induction false} InsertOnlyAdds(entries: seq<Entry>, key: string, value: Json, k: nat)
    requires k < |Insert(entries, key, value)|
    ensures Insert(entries, key, value)[k] == Entry(key, value) || Insert(entries, key, value)[k] in entries
    ensures |Insert(entries, key, value)| <= |entries| + 1
  {
    if entries != [] && entries[0].key != key && !Before(key, entries[0].key) {
      if k > 0 {
        InsertOnlyAdds(entries[1..], key, value, k - 1);
      } else {
        InsertOnlyAdds(entries[1..], key, value, 0);
      }
    }
  }

  lemma MarkersAreClean()
    ensures CleanUpTo(REDACTED, |PREFIXES|) && CleanUpTo(TRUNCATED, |PREFIXES|)
  {
    RedactedFence();
    BracketsFence(TRUNCATED, 0);
  }

  lemma TextFits(earlier: string -> string, s: string)
    ensures FitsIn(Text(SanitizeText(earlier, s)), 0)
  {
    LaterPassesKeepClean(earlier(s), |PREFIXES|);
    TruncationKeepsClean(RedactAll(earlier(s), |PREFIXES|), MAX_CONTEXT_STRING_CHARS);
  }

  /** Whatever the input tree, the output is at most eight levels deep, at most 65 entries and 32 items wide,
      and every text in it is bounded and holds no listed token. */
  lemma {:induction false} BoundedFits(earlier: string -> string, v: Json, depth: nat)
    requires depth <= MAX_CONTEXT_DEPTH
    ensures FitsIn(Bounded(earlier, v, depth), MAX_CONTEXT_DEPTH - depth)
    decreases v
  {
    hide CleanUpTo, SanitizeText, SensitiveKey;
    MarkersAreClean();
    if depth < MAX_CONTEXT_DEPTH {
      match v
      case Object(entries) =>
        var kept := BoundedEntries(earlier, v, depth + 1);
        forall k | 0 <= k < |kept| ensures FitsIn(kept[k].value, MAX_CONTEXT_DEPTH - depth - 1) {
          BoundedFits(earlier, entries[k].value, depth + 1);
        }
        if |entries| > MAX_CONTEXT_KEYS {
          InsertFits(kept, MAX_CONTEXT_DEPTH - depth - 1);
        }
      case Array(items) =>
        forall k | 0 <= k < Least(|items|, MAX_CONTEXT_ITEMS)
          ensures FitsIn(Bounded(earlier, items[k], depth + 1), MAX_CONTEXT_DEPTH - depth - 1)
        {
          BoundedFits(earlier, items[k], depth + 1);
        }
      case Text(s) => TextFits(earlier, s);
      case _ =>
    }
  }

  lemma InsertFits(kept: seq<Entry>, levels: nat)
    requires |kept| <= MAX_CONTEXT_KEYS && forall k | 0 <= k < |kept| :: FitsIn(kept[k].value, levels)
    ensures FitsIn(Object(Insert(kept, TRUNCATION_KEY, Bool(true))), levels + 1)
  {
    var all := Insert(kept, TRUNCATION_KEY, Bool(true));
    forall k | 0 <= k < |all| ensures FitsIn(all[k].value, levels) {
      InsertOnlyAdds(kept, TRUNCATION_KEY, Bool(true), k);
    }
    if all != [] { InsertOnlyAdds(kept, TRUNCATION_KEY, Bool(true), 0); }
  }

  /** A key of letters and digits keeps its length, each letter in lower case. */
  lemma {:induction false} NormalizedKey(key: string)
    requires forall k | 0 <= k < |key| :: R.Alphanumeric(key[k])
    ensures |NormalizeKey(key)| == |key| && forall k | 0 <= k < |key| :: NormalizeKey(key)[k] == Lower(key[k])
  {
    if key != [] {
      NormalizedKey(key[1..]);
    }
  }

  lemma OccurringLetter(s: string, word: string, at: nat, k: nat)
    requires Occurs(s, word, at) && k < |word|
    ensures word[k] in s
  {
    assert s[at..at + |word|][k] == s[at + k];
  }

  lemma AbsentWord(s: string, word: string, k: nat)
    requires k < |word| && word[k] !in s
    ensures Find(s, word).None? && !EndsWith(s, word)
  {
    hide Find, Occurs;
    if Find(s, word).Some? {
      OccurringLetter(s, word, Find(s, word).value, k);
    }
    if EndsWith(s, word) {
      EndLetter(s, word, k);
    }
  }

  lemma EndLetter(s: string, word: string, k: nat)
    requires EndsWith(s, word) && k < |word|
    ensures word[k] in s
  {
    assert s[|s| - |word|..][k] == s[|s| - |word| + k];
  }

  lemma LeadingMark(key: string)
    ensures NormalizeKey("_" + key) == NormalizeKey(key)
  {
    assert ("_" + key)[1..] == key;
  }

  lemma TruncationKeyLetters()
    ensures var normalized := NormalizeKey(TRUNCATION_KEY);
      |normalized| == 23 && 's' !in normalized && 'i' !in normalized && 'k' !in normalized
  {
    hide NormalizeKey;
    var key := "nopagerContextTruncated";
    assert TRUNCATION_KEY == "_" + key;
    LeadingMark(key);
    NormalizedKey(key);
    assert forall k | 0 <= k < |key| :: key[k] !in {'s', 'i', 'k', 'S', 'I', 'K'};
  }

  /** The key that marks a cut object is not itself a sensitive one. */
  lemma TruncationKeyIsPlain()
    ensures !SensitiveKey(TRUNCATION_KEY)
  {
    hide NormalizeKey, Find, EndsWith;
    var normalized := NormalizeKey(TRUNCATION_KEY);
    TruncationKeyLetters();
    AbsentWord(normalized, "password", 2);
    AbsentWord(normalized, "secret", 0);
    AbsentWord(normalized, "apikey", 2);
    AbsentWord(normalized, "privatekey", 2);
    AbsentWord(normalized, "token", 2);
  }

  /** Every value under a sensitive key, anywhere in the tree, is the redaction marker. */
  ghost predicate SecretsHidden(v: Json)
    decreases v
  {
    match v
    case Object(entries) =>
      forall k | 0 <= k < |entries| ::
        && SecretsHidden(entries[k].value)
        && (SensitiveKey(entries[k].key) ==> entries[k].value == Text(REDACTED))
    case Array(items) => forall k | 0 <= k < |items| :: SecretsHidden(items[k])
    case _ => true
  }

  lemma {:induction false} BoundedHidesSecrets(earlier: string -> string, v: Json, depth: nat)
    ensures SecretsHidden(Bounded(earlier, v, depth))
    decreases v
  {
    hide SanitizeText, SensitiveKey;
    TruncationKeyIsPlain();
    if depth < MAX_CONTEXT_DEPTH {
      match v
      case Object(entries) =>
        var kept := BoundedEntries(earlier, v, depth + 1);
        forall k | 0 <= k < |kept| ensures SecretsHidden(kept[k].value) {
          BoundedHidesSecrets(earlier, entries[k].value, depth + 1);
        }
        var all := Insert(kept, TRUNCATION_KEY, Bool(true));
        forall k | 0 <= k < |all| ensures all[k] == Entry(TRUNCATION_KEY, Bool(true)) || all[k] in kept {
          InsertOnlyAdds(kept, TRUNCATION_KEY, Bool(true), k);
        }
      case Array(items) =>
        forall k | 0 <= k < Least(|items|, MAX_CONTEXT_ITEMS) ensures SecretsHidden(Bounded(earlier, items[k], depth + 1)) {
          BoundedHidesSecrets(earlier, items[k], depth + 1);
        }
      case _ =>
    }
  }

  function Nodes(v: Json): nat
    decreases v
  {
    match v
    case Object(entries) => 1 + EntryNodes(entries)
    case Array(items) => 1 + ItemNodes(items)
    case _ => 1
  }

  function EntryNodes(entries: seq<Entry>): nat
    decreases entries
  {
    if entries == [] then 0 else Nodes(entries[0].value) + EntryNodes(entries[1..])
  }

  function ItemNodes(items: seq<Json>): nat
    decreases items
  {
    if items == [] then 0 else Nodes(items[0]) + ItemNodes(items[1..])
  }

  function MaxNodes(levels: nat): nat {
    if levels == 0 then 1 else 1 + (MAX_CONTEXT_KEYS + 1) * MaxNodes(levels - 1)
  }

  lemma {:induction false} FewNodes(v: Json, levels: nat)
    requires FitsIn(v, levels)
    ensures Nodes(v) <= MaxNodes(levels)
    decreases v, 0
  {
    hide CleanUpTo;
    match v
    case Object(entries) =>
      FewEntryNodes(entries, levels - 1);
      WiderIsMore(|entries|, levels);
    case Array(items) =>
      FewItemNodes(items, levels - 1);
      WiderIsMore(|items|, levels);
    case _ =>
  }

  lemma {:induction false} Scaled(a: nat, b: nat, n: nat)
    requires a <= b
    ensures a * n <= b * n
  {
    assert b * n == a * n + (b - a) * n;
  }

  lemma WiderIsMore(width: nat, levels: nat)
    requires levels > 0 && width <= MAX_CONTEXT_KEYS + 1
    ensures 1 + width * MaxNodes(levels - 1) <= MaxNodes(levels)
  {
    var each := MaxNodes(levels - 1);
    Scaled(width, MAX_CONTEXT_KEYS + 1, each);
  }

  lemma {:induction false} FewEntryNodes(entries: seq<Entry>, levels: nat)
    requires forall k | 0 <= k < |entries| :: FitsIn(entries[k].value, levels)
    ensures EntryNodes(entries) <= |entries| * MaxNodes(levels)
    decreases entries
  {
    hide FitsIn;
    if entries != [] {
      FewNodes(entries[0].value, levels);
      FewEntryNodes(entries[1..], levels);
      assert |entries| * MaxNodes(levels) == MaxNodes(levels) + |entries[1..]| * MaxNodes(levels);
    }
  }

  lemma {:induction false} FewItemNodes(items: seq<Json>, levels: nat)
    requires forall k | 0 <= k < |items| :: FitsIn(items[k], levels)
    ensures ItemNodes(items) <= |items| * MaxNodes(levels)
    decreases items
  {
    hide FitsIn;
    if items != [] {
      FewNodes(items[0], levels);
      FewItemNodes(items[1..], levels);
      assert |items| * MaxNodes(levels) == MaxNodes(levels) + |items[1..]| * MaxNodes(levels);
    }
  }

  /** So the whole context has a fixed bound on its size. */
  lemma ContextIsSmall(earlier: string -> string, v: Json)
    ensures Nodes(Bounded(earlier, v, 0)) <= MaxNodes(MAX_CONTEXT_DEPTH)
  {
    BoundedFits(earlier, v, 0);
    FewNodes(Bounded(earlier, v, 0), MAX_CONTEXT_DEPTH);
  }
}
