/** The tokens the nine passes are about, spelled out. */
module TokenLaws {
  import opened Redaction
  import opened TokenRedaction

  predicate Running(c: char) {
    'a' <= c <= 'z' || 'A' <= c <= 'Z' || '0' <= c <= '9' || c == '_' || c == '-' || c == '.'
  }

  /** At `k` stands the prefix, and from there on at least `minimum` characters of a token. */
  predicate TokenAt(s: string, prefix: string, minimum: nat, k: nat) {
    && |prefix| <= minimum && k + minimum <= |s|
    && (forall j | 0 <= j < |prefix| :: s[k + j] == prefix[j])
    && (forall j | k <= j < k + minimum :: Running(s[j]))
  }

  predicate HoldsToken(s: string, prefix: string, minimum: nat) {
    exists k | 0 <= k <= |s| :: TokenAt(s, prefix, minimum, k)
  }

  /** None of the nine listed kinds of token. */
  predicate TokenFree(s: string) {
    && !HoldsToken(s, "github_pat_", 20) && !HoldsToken(s, "ghp_", 16) && !HoldsToken(s, "glpat-", 16)
    && !HoldsToken(s, "xoxb-", 16) && !HoldsToken(s, "xoxp-", 16) && !HoldsToken(s, "sk-proj-", 16)
    && !HoldsToken(s, "sk-", 16) && !HoldsToken(s, "AIza", 20) && !HoldsToken(s, "AKIA", 20)
  }

  lemma HitExactly(s: string, prefix: string, minimum: nat, k: nat)
    requires |prefix| <= minimum
    ensures Hit(s, prefix, minimum, k) <==> TokenAt(s, prefix, minimum, k)
  {
    if k + minimum <= |s| {
      var window := s[k..k + minimum];
      assert forall j | 0 <= j < minimum :: window[j] == s[k + j];
      assert forall j | k <= j < k + minimum :: s[j] == window[j - k];
      assert prefix <= window <==> forall j | 0 <= j < |prefix| :: window[j] == prefix[j];
    }
  }

  lemma CleanIsWithout(s: string, prefix: string, minimum: nat)
    requires |prefix| <= minimum
    ensures Clean(s, prefix, minimum) <==> !HoldsToken(s, prefix, minimum)
  {
    hide Hit, TokenAt;
    forall k: nat ensures Hit(s, prefix, minimum, k) <==> TokenAt(s, prefix, minimum, k) {
      HitExactly(s, prefix, minimum, k);
    }
    if !Clean(s, prefix, minimum) {
      var k: nat :| Hit(s, prefix, minimum, k);
      assert k <= |s| by { HitWithin(s, prefix, minimum, k); }
    }
  }

  lemma HitWithin(s: string, prefix: string, minimum: nat, k: nat)
    requires Hit(s, prefix, minimum, k)
    ensures k <= |s|
  {
  }

  /** A text is clean exactly if it holds none of the nine. */
  lemma CleanExactly(s: string)
    ensures CleanUpTo(s, |PREFIXES|) <==> TokenFree(s)
  {
    hide Clean, HoldsToken;
    ListedPrefixes();
    forall k | 0 <= k < |PREFIXES|
      ensures Clean(s, PREFIXES[k].0, PREFIXES[k].1) <==> !HoldsToken(s, PREFIXES[k].0, PREFIXES[k].1)
    {
      PrefixesAreTokens(k);
      CleanIsWithout(s, PREFIXES[k].0, PREFIXES[k].1);
    }
    WithoutEach(s);
    if CleanUpTo(s, |PREFIXES|) {
      forall k | 0 <= k < 9 ensures !HoldsToken(s, PREFIXES[k].0, PREFIXES[k].1) {
        assert Clean(s, PREFIXES[k].0, PREFIXES[k].1);
      }
    }
  }

  lemma ListedPrefixes()
    ensures PREFIXES == [("github_pat_", 20), ("ghp_", 16), ("glpat-", 16), ("xoxb-", 16), ("xoxp-", 16),
                         ("sk-proj-", 16), ("sk-", 16), ("AIza", 20), ("AKIA", 20)]
  {
  }

  lemma WithoutEach(s: string)
    ensures (forall k | 0 <= k < 9 :: !HoldsToken(s, PREFIXES[k].0, PREFIXES[k].1)) <==> TokenFree(s)
  {
    hide HoldsToken;
    ListedPrefixes();
    if forall k | 0 <= k < 9 :: !HoldsToken(s, PREFIXES[k].0, PREFIXES[k].1) {
      assert && !HoldsToken(s, PREFIXES[0].0, PREFIXES[0].1) && !HoldsToken(s, PREFIXES[1].0, PREFIXES[1].1)
             && !HoldsToken(s, PREFIXES[2].0, PREFIXES[2].1) && !HoldsToken(s, PREFIXES[3].0, PREFIXES[3].1)
             && !HoldsToken(s, PREFIXES[4].0, PREFIXES[4].1) && !HoldsToken(s, PREFIXES[5].0, PREFIXES[5].1)
             && !HoldsToken(s, PREFIXES[6].0, PREFIXES[6].1) && !HoldsToken(s, PREFIXES[7].0, PREFIXES[7].1)
             && !HoldsToken(s, PREFIXES[8].0, PREFIXES[8].1);
    }
  }
}
