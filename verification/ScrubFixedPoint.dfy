/**
 Why the scrubber's output is a fixed point. A match in the rewritten text cannot touch a bracketed tag, so it
 lies in copied text, where it would have been a match before the rewrite; the two places where that
 needs care are the ends of a replacement, where word boundaries change, and the "Bearer " that the
 seventh rewrite keeps, whose case and white space it changes.
 */
module ScrubFixedPoint {
  import opened Wrappers
  import opened Regex
  import opened Scrub

  // ---------------------------------------------------------------- no match starts inside a replacement

  lemma ReplacementShape(k: nat)
    requires k < RULE_COUNT
    ensures var r := RuleAt(k);
            && r.keep == (if k == 6 then "Bearer " else "")
            && |r.keep| < |r.Replacement()| < 32
            && r.Replacement()[|r.keep|] == '[' && r.Replacement()[|r.Replacement()| - 1] == ']'
  {
  }

  predicate StartsNothing(r: string, x: nat)
    requires x < |r|
  {
    && r[x] != 's'
    && (r[x] == 'e' ==> x + 1 < |r| && r[x + 1] != 'y')
    && (r[x] == 'A' ==> x + 1 < |r| && r[x + 1] != 'K' && r[x + 1] != 'S')
  }

  lemma TagLetters(tag: string, x: nat)
    requires tag in ["[REDACTED_OPENAI_KEY]", "[REDACTED_ANTHROPIC_KEY]", "[REDACTED_OPENROUTER_KEY]",
                     "[REDACTED_AWS_KEY]", "[REDACTED_JWT]", "[REDACTED]", "[REDACTED_TOKEN]"]
    requires x < |tag|
    ensures StartsNothing(tag, x) && ToUpper(tag[x]) != 'B'
  {
  }

  lemma ReplacementLetters(k: nat, x: nat)
    requires k < RULE_COUNT && x < |RuleAt(k).Replacement()|
    ensures var r := RuleAt(k).Replacement();
            StartsNothing(r, x) && (ToUpper(r[x]) == 'B' ==> k == 6 && x == 0)
  {
    var r := RuleAt(k);
    if |r.keep| <= x { TagLetters(r.tag, x - |r.keep|); }
  }

  lemma HeadLetters(q: nat, w: string)
    requires q < 7 && w in RuleAt(q).heads
    ensures |w| >= 2
    ensures q < 4 ==> w[0] == 's'
    ensures q == 4 ==> w[0] == 'A' && (w[1] == 'K' || w[1] == 'S')
    ensures q == 5 ==> w[0] == 'e' && w[1] == 'y'
    ensures q == 6 ==> w == "Bearer"
  {
  }

  /** A text with the replacement of rule k at position u. */
  ghost predicate HasReplacementAt(k: nat, t: string, u: nat)
    requires k < RULE_COUNT
  {
    var r := RuleAt(k).Replacement();
    u + |r| <= |t| && forall x :: 0 <= x < |r| ==> t[u + x] == r[x]
  }

  /** A match of an earlier or the same pattern starts outside the replacement. */
  lemma MatchStartsOutside(q: nat, k: nat, t: string, u: nat, a: nat, b: nat)
    requires q <= k < RULE_COUNT && HasReplacementAt(k, t, u) && Spells(PatternAt(q), t, a, b)
    ensures !(u <= a < u + |RuleAt(k).Replacement()|)
  {
    hide RuleAt, Spells;
    if u <= a < u + |RuleAt(k).Replacement()| {
      if q == 7 {
        StaysInReplacement(q, k, t, u, a, b);
        SplitHex(t, a, b);
      } else {
        HeadStartsOutside(q, k, t, u, a, b);
      }
    }
  }

  lemma StaysInReplacement(q: nat, k: nat, t: string, u: nat, a: nat, b: nat)
    requires q < RULE_COUNT && k < RULE_COUNT && HasReplacementAt(k, t, u) && Spells(PatternAt(q), t, a, b)
    requires u <= a < u + |RuleAt(k).Replacement()|
    ensures b < u + |RuleAt(k).Replacement()| < u + 32
  {
    ReplacementShape(k);
    hide RuleAt, Spells;
    MatchesAreBracketFree(q, t, a, b);
    var r := RuleAt(k).Replacement();
    assert t[u + (|r| - 1)] == r[|r| - 1];
  }

  /** How a match of one of the first seven patterns begins. */
  lemma MatchLetters(q: nat, t: string, a: nat, b: nat)
    requires q < 7 && Spells(PatternAt(q), t, a, b)
    ensures a + 1 < |t|
    ensures q < 4 ==> t[a] == 's'
    ensures q == 4 ==> t[a] == 'A' && (t[a + 1] == 'K' || t[a + 1] == 'S')
    ensures q == 5 ==> t[a] == 'e' && t[a + 1] == 'y'
    ensures q == 6 ==> ToUpper(t[a]) == 'B' && Spells(RuleAt(6).tail, t, a + 6, b)
  {
    RulesAreSafe(q);
    hide RuleAt, Spells;
    var w := SplitHead(RuleAt(q), t, a, b);
    HeadLetters(q, w);
    assert SameChar(q == 6, w[0], t[a + 0]) && SameChar(q == 6, w[1], t[a + 1]);
  }

  lemma HeadStartsOutside(q: nat, k: nat, t: string, u: nat, a: nat, b: nat)
    requires q <= k < RULE_COUNT && q < 7 && HasReplacementAt(k, t, u) && Spells(PatternAt(q), t, a, b)
    ensures !(u <= a < u + |RuleAt(k).Replacement()|)
  {
    hide RuleAt, Spells, PatternAt;
    MatchLetters(q, t, a, b);
    if u <= a < u + |RuleAt(k).Replacement()| {
      ReplacementLetters(k, a - u);
      SameLetters(k, t, u, a - u);
      if q == 6 { BearerNeedsAToken(t, u, b); }
    }
  }

  lemma SameLetters(k: nat, t: string, u: nat, x: nat)
    requires k < RULE_COUNT && HasReplacementAt(k, t, u) && x < |RuleAt(k).Replacement()|
    ensures var r := RuleAt(k).Replacement();
            u + x < |t| && t[u + x] == r[x] && (x + 1 < |r| ==> u + x + 1 < |t| && t[u + x + 1] == r[x + 1])
  {
    hide RuleAt;
    var r := RuleAt(k).Replacement();
    if x + 1 < |r| {
      var y := x + 1;
      assert t[u + y] == r[y];
    }
  }

  /** The kept "Bearer " is followed by a bracket, which is no token. */
  lemma BearerNeedsAToken(t: string, u: nat, b: nat)
    requires Spells(RuleAt(6).tail, t, u + 6, b)
    ensures !HasReplacementAt(6, t, u)
  {
    hide RuleAt, Spells;
    BearerRule();
    BearerTail(RuleAt(6).tail, t, u + 6, b);
    if HasReplacementAt(6, t, u) { KeptText(t, u); KeptBracket(t, u); }
  }

  lemma KeptBracket(t: string, u: nat)
    requires u + 8 <= |t| && t[u..u + 8] == "Bearer ["
    ensures t[u + 7] == '['
  {
    assert t[u + 7] == t[u..u + 8][7];
  }

  /** What the tail of the Bearer pattern describes. */
  lemma BearerTail(p: Pattern, t: string, x: nat, b: nat)
    requires p == [Run(Space, 1, None), Run(BearerChar, 1, None)] && Spells(p, t, x, b)
    ensures x + 2 <= b <= |t| && IsSpace(t[x])
    ensures IsSpace(t[x + 1]) || InClass(BearerChar, t[x + 1])
  {
    var m: nat :| Spans(p[0], t, x, m) && Spells(p[1..], t, m, b);
    var n: nat :| Spans(p[1..][0], t, m, n) && Spells(p[1..][1..], t, n, b);
    SpellsForward(p[1..][1..], t, n, b);
  }

  // ---------------------------------------------------------------- a match in copied text was a match before

  /** From a of t on, the text is that of s from i to n, followed by the end or by the replacement of a match at n. */
  ghost predicate Copied(k: nat, t: string, s: string, a: nat, i: nat, n: nat)
    requires k < RULE_COUNT
  {
    && i < n <= |s|
    && a + (n - i) <= |t|
    && (forall x :: a <= x < a + (n - i) ==> t[x] == s[x + (i - a)])
    && WordCharAt(t, a - 1) == WordCharAt(s, i - 1)
    && (n == |s| ==> |t| == a + (n - i))
    && (n < |s| ==> HasReplacementAt(k, t, a + (n - i)) && MatchAt(PatternAt(k), s, n).Some?)
  }

  lemma PatternsPermit(q: nat)
    requires q < RULE_COUNT
    ensures Permits(PatternAt(q), false, true) && (q == 0 ==> Permits(PatternAt(q), false, false))
    ensures q < 7 && q != 4 ==> Permits(RuleAt(q).tail, true, true)
  {
  }

  lemma CopiedMirrors(k: nat, t: string, s: string, a: nat, i: nat, n: nat, b: nat)
    requires k < RULE_COUNT && Copied(k, t, s, a, i, n) && a <= b <= a + (n - i)
    ensures Mirrors(t, s, a, b, i - a, false, k > 0)
  {
    hide PatternAt, HasReplacementAt, MatchAt;
    if k > 0 {
      forall z | a <= z <= b && AtBoundary(t, z)
        ensures AtBoundary(s, z + (i - a))
      {
        CopiedBoundary(k, t, s, a, i, n, z);
      }
    }
  }

  lemma CopiedBoundary(k: nat, t: string, s: string, a: nat, i: nat, n: nat, z: nat)
    requires 0 < k < RULE_COUNT && Copied(k, t, s, a, i, n) && a <= z <= a + (n - i) && AtBoundary(t, z)
    ensures AtBoundary(s, z + (i - a))
  {
    hide PatternAt, HasReplacementAt, MatchAt, Spells;
    if z == a + (n - i) && n < |s| {
      MatchIsSound(PatternAt(k), s, n);
      MatchesAreBracketFree(k, s, n, MatchAt(PatternAt(k), s, n).value);
    } else {
      assert WordCharAt(t, z - 1) == WordCharAt(s, z - 1 + (i - a));
      assert WordCharAt(t, z) == WordCharAt(s, z + (i - a));
    }
  }

  /** The first bracket of a replacement stops a match. */
  lemma MatchStopsAtTheTag(q: nat, k: nat, t: string, s: string, a: nat, i: nat, n: nat, b: nat)
    requires q < RULE_COUNT && k < RULE_COUNT && Copied(k, t, s, a, i, n) && Spells(PatternAt(q), t, a, b)
    ensures b <= a + (n - i) || (k == 6 && n < |s| && b <= a + (n - i) + 7)
  {
    hide RuleAt, Spells, MatchAt, PatternAt;
    MatchesAreBracketFree(q, t, a, b);
    ReplacementShape(k);
    if n < |s| { SameLetters(k, t, a + (n - i), |RuleAt(k).keep|); }
  }

  // ---------------------------------------------------------------- a match that runs into a kept "Bearer "

  lemma BearerRule()
    ensures RuleAt(6) == Rule(true, ["Bearer"], true, [Run(Space, 1, None), Run(BearerChar, 1, None)], "Bearer ",
        "[REDACTED]")
  {
  }

  lemma BearerMatch(s: string, n: nat)
    requires n <= |s| && MatchAt(PatternAt(6), s, n).Some?
    ensures n + 7 <= |s| && WordAt("Bearer", true, s, n) && IsSpace(s[n + 6]) && AtBoundary(s, n)
  {
    hide RuleAt, Spells, MatchAt;
    MatchIsSound(PatternAt(6), s, n);
    var j := MatchAt(PatternAt(6), s, n).value;
    BearerRule();
    var w := SplitHead(RuleAt(6), s, n, j);
    BearerTail(RuleAt(6).tail, s, n + 6, j);
  }

  lemma KeptText(t: string, u: nat)
    requires HasReplacementAt(6, t, u)
    ensures u + 8 <= |t| && t[u..u + 8] == "Bearer ["
  {
    hide RuleAt;
    BearerRule();
    var r := RuleAt(6).Replacement();
    assert r == "Bearer " + "[REDACTED]";
    assert r[..8] == "Bearer [";
    assert t[u..u + 8] == r[..8];
  }

  lemma KeptIsSimilar(t: string, u: nat, s: string, n: nat, y: nat)
    requires u + 8 <= |t| && t[u..u + 8] == "Bearer ["
    requires n + 7 <= |s| && WordAt("Bearer", true, s, n) && IsSpace(s[n + 6]) && y < 7
    ensures Similar(t[u + y], s[n + y]) && t[u] == 'B' && t[u + 6] == ' ' && t[u + 7] == '['
  {
    assert t[u] == t[u..u + 8][0] && t[u + 6] == t[u..u + 8][6] && t[u + 7] == t[u..u + 8][7];
    assert t[u + y] == "Bearer ["[y];
    if y < 6 { assert SameChar(true, "Bearer"[y], s[n + y]); }
  }

  lemma SimilarWordChars(c: char, d: char)
    requires Similar(c, d)
    ensures IsWordChar(c) == IsWordChar(d)
  {
  }

  /** The texts are similar through the kept text. */
  lemma StraddleIsSimilar(t: string, s: string, a: nat, i: nat, n: nat, z: nat)
    requires Copied(6, t, s, a, i, n) && n < |s| && a <= z < a + (n - i) + 7
    ensures z < |t| && z + (i - a) < |s| && Similar(t[z], s[z + (i - a)])
    ensures WordCharAt(t, z) == WordCharAt(s, z + (i - a))
  {
    hide MatchAt, RuleAt, PatternAt;
    var u := a + (n - i);
    BearerMatch(s, n);
    KeptText(t, u);
    hide HasReplacementAt, WordAt;
    KeptIsSimilar(t, u, s, n, if z < u then 0 else z - u);
    SimilarWordChars(t[z], s[z + (i - a)]);
  }

  lemma StraddleMirrors(t: string, s: string, a: nat, i: nat, n: nat, x: nat, b: nat)
    requires Copied(6, t, s, a, i, n) && n < |s| && a <= x <= b <= a + (n - i) + 7
    ensures Mirrors(t, s, x, b, i - a, true, true)
  {
    hide MatchAt, RuleAt, PatternAt, HasReplacementAt;
    var u, d := a + (n - i), i - a;
    BearerMatch(s, n);
    KeptText(t, u);
    KeptIsSimilar(t, u, s, n, 0);
    forall z | x <= z < b ensures Similar(t[z], s[z + d]) { StraddleIsSimilar(t, s, a, i, n, z); }
    forall z | x <= z <= b && AtBoundary(t, z) ensures AtBoundary(s, z + d) { StraddleBoundary(t, s, a, i, n, z); }
  }

  lemma StraddleBoundary(t: string, s: string, a: nat, i: nat, n: nat, z: nat)
    requires Copied(6, t, s, a, i, n) && n < |s| && a <= z <= a + (n - i) + 7 && AtBoundary(t, z)
    ensures AtBoundary(s, z + (i - a))
  {
    hide MatchAt, RuleAt, PatternAt, HasReplacementAt;
    var u := a + (n - i);
    BearerMatch(s, n);
    KeptText(t, u);
    KeptIsSimilar(t, u, s, n, 0);
    if z < u + 7 { StraddleIsSimilar(t, s, a, i, n, z); }
    if a < z { StraddleIsSimilar(t, s, a, i, n, z - 1); }
  }

  /** An access key id is one word, so it does not run across the boundary in front of "Bearer". */
  lemma AccessKeyIsOneWord(t: string, a: nat, b: nat)
    requires Spells(PatternAt(4), t, a, b)
    ensures b <= |t| && forall z :: a <= z < b ==> IsWordChar(t[z])
  {
    hide RuleAt, Spells;
    AccessKeyRule();
    var w := SplitHead(RuleAt(4), t, a, b);
    AccessKeyTail(RuleAt(4).tail, t, a + |w|, b);
    forall z | a <= z < a + |w| ensures IsWordChar(t[z]) { CharOfWord(w, false, t, a, z - a); }
  }

  lemma AccessKeyRule()
    ensures var r := RuleAt(4);
            r.tail == [Run(UpperOrDigit, 16, Some(16)), Boundary] && r.heads != [] && !r.fold
    ensures forall w, x: nat :: w in RuleAt(4).heads && x < |w| ==> IsWordChar(w[x])
  {
    forall w, x: nat | w in RuleAt(4).heads && x < |w| ensures IsWordChar(w[x]) {
      assert w == "AKIA" || w == "ASIA";
    }
  }

  lemma AccessKeyTail(p: Pattern, t: string, x: nat, b: nat)
    requires p == [Run(UpperOrDigit, 16, Some(16)), Boundary] && Spells(p, t, x, b)
    ensures AllIn(UpperOrDigit, t, x, b)
  {
    var m: nat :| Spans(p[0], t, x, m) && Spells(p[1..], t, m, b);
    assert p[1..] == [Boundary] && [Boundary][1..] == [];
  }

  lemma BearerStraddle(q: nat, t: string, s: string, a: nat, i: nat, n: nat, b: nat)
    requires q <= 6 && Copied(6, t, s, a, i, n) && n < |s| && Spells(PatternAt(q), t, a, b)
    requires a + (n - i) < b <= a + (n - i) + 7
    ensures Spells(PatternAt(q), s, i, i + (b - a))
  {
    hide RuleAt, PatternAt, MatchAt, Spells;
    var u := a + (n - i);
    BearerMatch(s, n);
    KeptText(t, u);
    KeptIsSimilar(t, u, s, n, 0);
    assert AtBoundary(t, u) by { assert WordCharAt(t, u - 1) == WordCharAt(s, n - 1); }
    if q == 4 {
      AccessKeyIsOneWord(t, a, b);
    } else {
      StraddlingHead(q, t, s, a, i, n, b, u);
    }
  }

  lemma StraddlingHead(q: nat, t: string, s: string, a: nat, i: nat, n: nat, b: nat, u: nat)
    requires q <= 6 && q != 4 && Copied(6, t, s, a, i, n) && n < |s| && Spells(PatternAt(q), t, a, b)
    requires u == a + (n - i) && u < b <= u + 7 && u < |t| && t[u] == 'B'
    ensures Spells(PatternAt(q), s, i, i + (b - a))
  {
    hide RuleAt, MatchAt, Spells, HasReplacementAt;
    RulesAreSafe(q);
    PatternsPermit(q);
    var r := RuleAt(q);
    var w := HeadedMatch(r, t, a, b);
    HeadEndsBefore(w, r.fold, t, a, u);
    StraddlingTail(r.tail, t, s, a, i, n, a + |w|, b);
    HeadIsCopied(w, r.fold, t, s, a, i);
    hide SafeHead, Copied, SafeRule, Permits;
    JoinHead(r, s, i, i + (b - a), w);
  }

  lemma StraddlingTail(tail: Pattern, t: string, s: string, a: nat, i: nat, n: nat, x: nat, b: nat)
    requires Permits(tail, true, true) && Copied(6, t, s, a, i, n) && n < |s| && Spells(tail, t, x, b)
    requires a < x <= a + (n - i) < b <= a + (n - i) + 7
    ensures Spells(tail, s, x + (i - a), b + (i - a))
  {
    hide Spells, Copied, Permits;
    SpellsForward(tail, t, x, b);
    StraddleMirrors(t, s, a, i, n, x, b);
    Transfer(tail, t, s, x, b, i - a, true, true);
  }

  lemma HeadIsCopied(w: string, fold: bool, t: string, s: string, a: nat, i: nat)
    requires SafeHead(w, fold) && WordAt(w, fold, t, a) && i + |w| <= |s|
    requires forall x :: a <= x < a + |w| ==> t[x] == s[x + (i - a)]
    requires WordCharAt(t, a - 1) == WordCharAt(s, i - 1)
    ensures WordAt(w, fold, s, i) && (AtBoundary(t, a) ==> AtBoundary(s, i))
  {
    forall z | 0 <= z < |w| ensures SameChar(fold, w[z], s[i + z]) {
      assert SameChar(fold, w[z], t[a + z]);
      assert t[a + z] == s[a + z + (i - a)];
    }
    assert t[a] == s[a + (i - a)];
  }

  lemma HeadEndsBefore(w: string, fold: bool, t: string, a: nat, u: nat)
    requires SafeHead(w, fold) && WordAt(w, fold, t, a) && a < u < |t| && t[u] == 'B'
    ensures a + |w| <= u
  {
    if u < a + |w| { CharOfWord(w, fold, t, a, u - a); }
  }

  lemma CharOfWord(w: string, fold: bool, t: string, a: nat, x: nat)
    requires WordAt(w, fold, t, a) && x < |w|
    ensures a + x < |t| && SameChar(fold, w[x], t[a + x])
  {
  }

  lemma CopiedMatch(q: nat, k: nat, t: string, s: string, a: nat, i: nat, n: nat, b: nat)
    requires q <= k < RULE_COUNT && Copied(k, t, s, a, i, n) && Spells(PatternAt(q), t, a, b)
    ensures a <= b && Spells(PatternAt(q), s, i, i + (b - a))
  {
    hide RuleAt, PatternAt, Spells, MatchAt;
    MatchStopsAtTheTag(q, k, t, s, a, i, n, b);
    SpellsForward(PatternAt(q), t, a, b);
    if b <= a + (n - i) {
      PatternsPermit(q);
      CopiedMirrors(k, t, s, a, i, n, b);
      Transfer(PatternAt(q), t, s, a, b, i - a, false, k > 0);
    } else {
      BearerStraddle(q, t, s, a, i, n, b);
    }
  }

  // ---------------------------------------------------------------- one rewrite

  /** What stands before position i of the rest of the rewritten text. */
  ghost predicate Context(before: string, s: string, i: nat)
    requires i <= |s|
  {
    || WordCharAt(before, |before| - 1) == WordCharAt(s, i - 1)
    || i == |s| || !IsAlnum(s[i])
  }

  /** A match of pattern q in the text rewritten by rule k would have been a match before, at a place the
      rewrite skipped: so it starts before the part of the text that is looked at. */
  lemma {:induction false} RewriteMakesNoMatch(q: nat, k: nat, before: string, s: string, i: nat, a: nat, b: nat)
    requires q <= k < RULE_COUNT && i <= |s| && Context(before, s, i)
    requires q < k ==> Free(PatternAt(q), s)
    requires Spells(PatternAt(q), before + ReplaceFrom(PatternAt(k), RuleAt(k).Replacement(), s, i), a, b)
    ensures a < |before|
    decreases |s| - i
  {
    hide RuleAt, PatternAt, Spells;
    var p, r := PatternAt(k), RuleAt(k).Replacement();
    var t := before + ReplaceFrom(p, r, s, i);
    MatchesAreBracketFree(q, t, a, b);
    PatternsNeverMatchEmpty(k, s);
    ReplacementShape(k);
    if i < |s| && MatchAt(p, s, i).Some? {
      var j := MatchAt(p, s, i).value;
      MatchEndsOutside(k, s, i);
      assert t == (before + r) + ReplaceFrom(p, r, s, j);
      RewriteMakesNoMatch(q, k, before + r, s, j, a, b);
      assert HasReplacementAt(k, t, |before|);
      MatchStartsOutside(q, k, t, |before|, a, b);
    } else if i < |s| {
      assert t == (before + [s[i]]) + ReplaceFrom(p, r, s, i + 1);
      RewriteMakesNoMatch(q, k, before + [s[i]], s, i + 1, a, b);
      if a == |before| { SkippedPlaceHasNoMatch(q, k, before, s, i, b); }
    }
  }

  lemma SkippedPlaceHasNoMatch(q: nat, k: nat, before: string, s: string, i: nat, b: nat)
    requires q <= k < RULE_COUNT && i < |s| && Context(before, s, i) && MatchAt(PatternAt(k), s, i).None?
    requires Spells(PatternAt(q), before + ReplaceFrom(PatternAt(k), RuleAt(k).Replacement(), s, i), |before|, b)
    ensures q < k && !Free(PatternAt(q), s)
  {
    hide RuleAt, PatternAt, Spells, MatchAt;
    var t := before + ReplaceFrom(PatternAt(k), RuleAt(k).Replacement(), s, i);
    MatchesAreBracketFree(q, t, |before|, b);
    var n := SkippedPlaceIsCopied(k, before, s, i, t);
    CopiedMatch(q, k, t, s, |before|, i, n, b);
    if q == k { MatchIsComplete(PatternAt(k), s, i, i + (b - |before|)); }
  }

  lemma SkippedPlaceIsCopied(k: nat, before: string, s: string, i: nat, t: string) returns (n: nat)
    requires k < RULE_COUNT && i < |s| && Context(before, s, i) && MatchAt(PatternAt(k), s, i).None?
    requires t == before + ReplaceFrom(PatternAt(k), RuleAt(k).Replacement(), s, i)
    requires |before| < |t| && IsAlnum(t[|before|])
    ensures Copied(k, t, s, |before|, i, n)
  {
    hide RuleAt, PatternAt, MatchAt;
    PatternsNeverMatchEmpty(k, s);
    n := NextReplacement(PatternAt(k), RuleAt(k).Replacement(), s, i);
    hide ReplaceFrom;
    assert t[|before|] == s[i];
  }

  lemma RewriteKeepsFree(q: nat, k: nat, s: string)
    requires q <= k < RULE_COUNT && (q < k ==> Free(PatternAt(q), s))
    ensures Free(PatternAt(q), Apply(k, s))
  {
    hide RuleAt, PatternAt;
    forall a: nat, b: nat ensures !Spells(PatternAt(q), Apply(k, s), a, b) {
      if Spells(PatternAt(q), Apply(k, s), a, b) {
        assert "" + Apply(k, s) == Apply(k, s);
        RewriteMakesNoMatch(q, k, "", s, 0, a, b);
      }
    }
  }

  // ---------------------------------------------------------------- all eight

  lemma {:induction false} FreeUpTo(n: nat, q: nat, message: string)
    requires q < n <= RULE_COUNT
    ensures Free(PatternAt(q), ScrubUpTo(n, message))
    decreases n
  {
    hide RuleAt, PatternAt, Apply;
    if q < n - 1 { FreeUpTo(n - 1, q, message); }
    RewriteKeepsFree(q, n - 1, ScrubUpTo(n - 1, message));
  }

  /** No span of the scrubbed text matches any of the eight patterns, with word boundaries read in that text. */
  lemma ScrubbedIsFree(message: string, q: nat)
    requires q < RULE_COUNT
    ensures Free(PatternAt(q), Scrubbed(message))
  {
    FreeUpTo(RULE_COUNT, q, message);
  }

  lemma {:induction false} FreeTextIsUntouched(n: nat, message: string)
    requires n <= RULE_COUNT && forall q: nat :: q < RULE_COUNT ==> Free(PatternAt(q), message)
    ensures ScrubUpTo(n, message) == message
    decreases n
  {
    hide RuleAt, PatternAt;
    if n > 0 {
      FreeTextIsUntouched(n - 1, message);
      NothingToReplace(PatternAt(n - 1), RuleAt(n - 1).Replacement(), message, 0);
    }
  }

  /** Scrubbing twice is scrubbing once, and scrubbing changes a message if and only if some pattern matches it. */
  lemma ScrubbingIsIdempotent(message: string)
    ensures Scrubbed(Scrubbed(message)) == Scrubbed(message)
    ensures Scrubbed(message) == message <==> forall q: nat :: q < RULE_COUNT ==> Free(PatternAt(q), message)
  {
    forall q: nat | q < RULE_COUNT ensures Free(PatternAt(q), Scrubbed(message)) { ScrubbedIsFree(message, q); }
    FreeTextIsUntouched(RULE_COUNT, Scrubbed(message));
    if forall q: nat :: q < RULE_COUNT ==> Free(PatternAt(q), message) { FreeTextIsUntouched(RULE_COUNT, message); }
  }

  // ---------------------------------------------------------------- nothing but secrets is lost

  /** From position i on, `out` is the text with the pattern's spans replaced by r and every other character kept;
      a character is kept only where no span starts. */
  ghost predicate Redacts(p: Pattern, r: string, s: string, i: nat, out: string)
    requires i <= |s|
    decreases |s| - i
  {
    if i == |s| then out == ""
    else if exists e: nat :: Spells(p, s, i, e) then
      r <= out && exists j: nat :: i < j <= |s| && Spells(p, s, i, j) && Redacts(p, r, s, j, out[|r|..])
    else out != "" && out[0] == s[i] && Redacts(p, r, s, i + 1, out[1..])
  }

  lemma {:induction false} ReplacingRedacts(p: Pattern, r: string, s: string, i: nat)
    requires i <= |s| && NeverEmpty(p, s)
    ensures Redacts(p, r, s, i, ReplaceFrom(p, r, s, i))
    decreases |s| - i
  {
    hide Spells, MatchAt;
    if i < |s| {
      var out := ReplaceFrom(p, r, s, i);
      match MatchAt(p, s, i)
      case Some(j) =>
        MatchIsSound(p, s, i);
        ReplacingRedacts(p, r, s, j);
        assert out[|r|..] == ReplaceFrom(p, r, s, j);
      case None =>
        forall e: nat ensures !Spells(p, s, i, e) { if Spells(p, s, i, e) { MatchIsComplete(p, s, i, e); } }
        ReplacingRedacts(p, r, s, i + 1);
        assert out[1..] == ReplaceFrom(p, r, s, i + 1);
    }
  }

  /** Each of the eight rewrites replaces spans of its own pattern and leaves every other character in place. */
  lemma RewritesOnlyRedact(k: nat, message: string)
    requires k < RULE_COUNT
    ensures Redacts(PatternAt(k), RuleAt(k).Replacement(), ScrubUpTo(k, message), 0, ScrubUpTo(k + 1, message))
  {
    hide PatternAt, RuleAt, Redacts;
    PatternsNeverMatchEmpty(k, ScrubUpTo(k, message));
    ReplacingRedacts(PatternAt(k), RuleAt(k).Replacement(), ScrubUpTo(k, message), 0);
  }

  /** scrubSecrets: the loop over the patterns. */
  method ScrubSecrets(message: string) returns (out: string)
    ensures out == Scrubbed(message)
    ensures forall q: nat :: q < RULE_COUNT ==> Free(PatternAt(q), out)
  {
    out := message;
    for k := 0 to RULE_COUNT
      invariant out == ScrubUpTo(k, message)
    {
      out := ReplaceAll(RuleAt(k).Pattern(), RuleAt(k).Replacement(), out);
    }
    forall q: nat | q < RULE_COUNT ensures Free(PatternAt(q), out) { ScrubbedIsFree(message, q); }
  }
}
