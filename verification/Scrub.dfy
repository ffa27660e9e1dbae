/**
 The secret scrubber of apps/api/src/config/deployment.ts: eight global rewrites, one after the other.
 The result is a fixed point: no span of it matches any of the eight patterns, although each rewrite changes
 the text and the word boundaries the other patterns look at.
 */
module Scrub {
  import opened Wrappers
  import opened Regex

  /** A pattern is an optional word boundary, an optional literal head, and a tail of class runs and boundaries.
      `keep` is the literal text the replacement starts with before its bracketed tag. */
  datatype Rule = Rule(atBoundary: bool, heads: seq<string>, fold: bool, tail: Pattern, keep: string, tag: string) {
    function Replacement(): string { keep + tag }

    function Head(): Atom { Word(heads, fold) }

    function Pattern(): Pattern {
      (if atBoundary then [Boundary] else []) + (if heads == [] then [] else [Head()]) + tail
    }
  }

  const RULE_COUNT := 8

  /** SECRET_PATTERNS. The alternation inside the first pattern is distributed over its literal prefix and suffix. */
  function RuleAt(k: nat): Rule
    requires k < RULE_COUNT
  {
    match k
    case 0 => Rule(false, ["sk-proj-", "sk-svcacct-"], false, [Run(StarKeyChar, 4, None)], "", "[REDACTED_OPENAI_KEY]")
    case 1 => Rule(true, ["sk-"], false, [Run(Alnum, 20, None)], "", "[REDACTED_OPENAI_KEY]")
    case 2 => Rule(true, ["sk-ant-"], false, [Run(KeyChar, 10, None)], "", "[REDACTED_ANTHROPIC_KEY]")
    case 3 => Rule(true, ["sk-or-"], false, [Run(KeyChar, 10, None)], "", "[REDACTED_OPENROUTER_KEY]")
    case 4 => Rule(true, ["AKIA", "ASIA"], false, [Run(UpperOrDigit, 16, Some(16)), Boundary], "", "[REDACTED_AWS_KEY]")
    case 5 => Rule(true, ["eyJ"], false,
                   [Run(KeyChar, 10, None), Run(Dot, 1, Some(1)), Run(KeyChar, 10, None), Run(Dot, 1, Some(1)),
                    Run(KeyChar, 10, None), Boundary], "", "[REDACTED_JWT]")
    case 6 => Rule(true, ["Bearer"], true, [Run(Space, 1, None), Run(BearerChar, 1, None)], "Bearer ", "[REDACTED]")
    case _ => Rule(true, [], false, [Run(HexAnyCase, 32, None), Boundary], "", "[REDACTED_TOKEN]")
  }

  function PatternAt(k: nat): Pattern
    requires k < RULE_COUNT
  {
    RuleAt(k).Pattern()
  }

  function Apply(k: nat, s: string): string
    requires k < RULE_COUNT
  {
    ReplaceAll(PatternAt(k), RuleAt(k).Replacement(), s)
  }

  /** The text after the first n rewrites. */
  function ScrubUpTo(n: nat, message: string): string
    requires n <= RULE_COUNT
  {
    if n == 0 then message else Apply(n - 1, ScrubUpTo(n - 1, message))
  }

  function Scrubbed(message: string): string {
    ScrubUpTo(RULE_COUNT, message)
  }

  // ---------------------------------------------------------------- the literal heads and the tails of the patterns

  lemma SplitHead(r: Rule, t: string, a: nat, b: nat) returns (w: string)
    requires r.heads != [] && Spells(r.Pattern(), t, a, b)
    ensures w in r.heads && WordAt(w, r.fold, t, a) && Spells(r.tail, t, a + |w|, b)
    ensures r.atBoundary ==> AtBoundary(t, a)
  {
    var q := [r.Head()] + r.tail;
    assert q[1..] == r.tail;
    if r.atBoundary { assert r.Pattern()[1..] == q; } else { assert r.Pattern() == q; }
    assert Spells(q, t, a, b);
    var m: nat :| Spans(q[0], t, a, m) && Spells(q[1..], t, m, b);
    w :| w in r.heads && m == a + |w| && WordAt(w, r.fold, t, a);
  }

  lemma JoinHead(r: Rule, t: string, a: nat, b: nat, w: string)
    requires w in r.heads && WordAt(w, r.fold, t, a) && Spells(r.tail, t, a + |w|, b)
    requires r.atBoundary ==> AtBoundary(t, a)
    ensures Spells(r.Pattern(), t, a, b)
  {
    var q := [r.Head()] + r.tail;
    assert q[1..] == r.tail;
    assert Spans(q[0], t, a, a + |w|);
    assert Spells(q, t, a, b);
    if r.atBoundary {
      assert r.Pattern()[1..] == q;
      assert Spans(Boundary, t, a, a);
    } else {
      assert r.Pattern() == q;
    }
  }

  lemma SplitBounded(p: Pattern, a: Atom, t: string, x: nat, b: nat)
    requires p == [Boundary, a, Boundary] && Spells(p, t, x, b)
    ensures Spans(a, t, x, b) && AtBoundary(t, x) && AtBoundary(t, b)
  {
    assert p[1..] == [a, Boundary] && [a, Boundary][1..] == [Boundary] && [Boundary][1..] == [];
    assert Spells([a, Boundary], t, x, b);
    var m: nat :| Spans(a, t, x, m) && Spells([a, Boundary][1..], t, m, b);
    assert Spells([Boundary], t, m, b);
  }

  lemma HexPattern()
    ensures PatternAt(7) == [Boundary, Run(HexAnyCase, 32, None), Boundary]
  {
  }

  lemma SplitHex(t: string, a: nat, b: nat)
    requires Spells(PatternAt(7), t, a, b)
    ensures a + 32 <= b && AllIn(HexAnyCase, t, a, b) && AtBoundary(t, a) && AtBoundary(t, b)
  {
    HexPattern();
    hide PatternAt;
    SplitBounded(PatternAt(7), Run(HexAnyCase, 32, None), t, a, b);
  }

  // ---------------------------------------------------------------- matches stay inside what was copied

  predicate IsBracket(c: char) { c == '[' || c == ']' }

  ghost predicate NoBracket(t: string, a: nat, b: nat) {
    a <= b <= |t| && forall z :: a <= z < b ==> !IsBracket(t[z])
  }

  lemma ClassesAvoidBrackets(c: Class, t: string, a: nat, b: nat)
    requires AllIn(c, t, a, b)
    ensures NoBracket(t, a, b)
  {
  }

  lemma {:induction false} RunsAvoidBrackets(p: Pattern, t: string, a: nat, b: nat)
    requires Spells(p, t, a, b) && forall x <- p :: !x.Word?
    ensures NoBracket(t, a, b)
    decreases |p|
  {
    if p != [] {
      var m: nat :| Spans(p[0], t, a, m) && Spells(p[1..], t, m, b);
      RunsAvoidBrackets(p[1..], t, m, b);
      if p[0].Run? { ClassesAvoidBrackets(p[0].cls, t, a, m); }
    }
  }

  /** A literal head starts with a letter or digit, and matches neither a bracket nor, after its start, a 'B'. */
  ghost predicate SafeHead(w: string, fold: bool) {
    && |w| >= 3
    && (forall c: char :: SameChar(fold, w[0], c) ==> IsAlnum(c))
    && (forall x: nat, c: char :: x < |w| && SameChar(fold, w[x], c) ==> !IsBracket(c))
    && (forall x: nat :: 0 < x < |w| ==> !SameChar(fold, w[x], 'B'))
  }

  ghost predicate SafeRule(r: Rule) {
    && (forall w <- r.heads :: SafeHead(w, r.fold))
    && (forall x <- r.tail :: !x.Word?)
  }

  lemma RulesAreSafe(k: nat)
    requires k < RULE_COUNT
    ensures RuleAt(k).atBoundary == (k > 0) && RuleAt(k).fold == (k == 6) && (RuleAt(k).heads == [] <==> k == 7)
    ensures SafeRule(RuleAt(k))
  {
    forall w <- RuleAt(k).heads ensures SafeHead(w, RuleAt(k).fold) { HeadIsSafe(k, w); }
  }

  lemma HeadIsSafe(k: nat, w: string)
    requires k < 7 && w in RuleAt(k).heads
    ensures SafeHead(w, k == 6)
  {
    if k < 6 { assert forall x: nat :: x < |w| ==> !IsBracket(w[x]); }
  }

  /** A match is not empty, starts with a letter or digit, at a word boundary except for the first pattern,
      and has no bracket. */
  lemma MatchesAreBracketFree(k: nat, t: string, a: nat, b: nat)
    requires k < RULE_COUNT && Spells(PatternAt(k), t, a, b)
    ensures a < b <= |t| && IsAlnum(t[a]) && NoBracket(t, a, b)
    ensures k > 0 ==> AtBoundary(t, a)
  {
    RulesAreSafe(k);
    hide RuleAt, SafeRule, Spells;
    if k == 7 {
      SplitHex(t, a, b);
      ClassesAvoidBrackets(HexAnyCase, t, a, b);
    } else {
      var _ := HeadedMatch(RuleAt(k), t, a, b);
    }
  }

  lemma HeadedMatch(r: Rule, t: string, a: nat, b: nat) returns (w: string)
    requires r.heads != [] && SafeRule(r) && Spells(r.Pattern(), t, a, b)
    ensures w in r.heads && WordAt(w, r.fold, t, a) && Spells(r.tail, t, a + |w|, b)
    ensures a < b <= |t| && IsAlnum(t[a]) && NoBracket(t, a, b)
    ensures r.atBoundary ==> AtBoundary(t, a)
  {
    w := SplitHead(r, t, a, b);
    RunsAvoidBrackets(r.tail, t, a + |w|, b);
    assert SameChar(r.fold, w[0], t[a + 0]);
    HeadAvoidsBrackets(w, r.fold, t, a);
  }

  lemma HeadAvoidsBrackets(w: string, fold: bool, t: string, a: nat)
    requires SafeHead(w, fold) && WordAt(w, fold, t, a)
    ensures NoBracket(t, a, a + |w|)
  {
    forall z | a <= z < a + |w| ensures !IsBracket(t[z]) {
      assert SameChar(fold, w[z - a], t[a + (z - a)]);
    }
  }

  // ---------------------------------------------------------------- what follows a match

  lemma RunEndsOutside(c: Class, min: nat, s: string, m: nat)
    requires m <= |s| && MatchAt([Run(c, min, None)], s, m).Some?
    ensures var j := MatchAt([Run(c, min, None)], s, m).value; j == |s| || !InClass(c, s[j])
  {
    var p := [Run(c, min, None)];
    var e := RunEnd(c, None, s, m);
    assert p[1..] == [];
    assert MatchRun(p, min, e, s, m) == Some(e);
  }

  /** A run whose match ends at a boundary, if its last character is a word character. */
  lemma WordRunEndsOutside(c: Class, min: nat, max: Option<nat>, s: string, m: nat)
    requires m <= |s| && min > 0 && c in {UpperOrDigit, HexAnyCase}
    requires MatchAt([Run(c, min, max), Boundary], s, m).Some?
    ensures var j := MatchAt([Run(c, min, max), Boundary], s, m).value; j == |s| || !IsWordChar(s[j])
  {
    var p := [Run(c, min, max), Boundary];
    var k := RunLands(p, min, RunEnd(c, max, s, m), s, m);
    assert p[1..] == [Boundary] && [Boundary][1..] == [];
    assert InClass(c, s[k - 1]);
  }

  /** The greedy run of a JWT's last segment stops at the last boundary, where a word ends and none begins. */
  lemma KeyRunEndsOutside(min: nat, s: string, m: nat)
    requires m <= |s| && MatchAt([Run(KeyChar, min, None), Boundary], s, m).Some? && min > 0
    ensures var j := MatchAt([Run(KeyChar, min, None), Boundary], s, m).value; j == |s| || !IsWordChar(s[j])
  {
    var p := [Run(KeyChar, min, None), Boundary];
    var e := RunEnd(KeyChar, None, s, m);
    assert p[1..] == [Boundary] && [Boundary][1..] == [];
    GreedyTakesTheLastBoundary(p, min, e, s, m);
    var j := MatchAt(p, s, m).value;
    if j < |s| && IsWordChar(s[j]) {
      var _ := NextWordEnd(s, j, e);
    }
  }

  lemma {:induction false} GreedyTakesTheLastBoundary(p: Pattern, min: nat, e: nat, s: string, i: nat)
    requires i <= e <= |s| && p != [] && p[1..] == [Boundary] && MatchRun(p, min, e, s, i).Some?
    ensures var j := MatchRun(p, min, e, s, i).value;
            i + min <= j <= e && AtBoundary(s, j) && forall z :: j < z <= e ==> !AtBoundary(s, z)
    decreases e
  {
    assert [Boundary][1..] == [];
    if MatchAt(p[1..], s, e).None? { GreedyTakesTheLastBoundary(p, min, e - 1, s, i); }
  }

  lemma {:induction false} NextWordEnd(s: string, j: nat, e: nat) returns (z: nat)
    requires j < e <= |s| && IsWordChar(s[j]) && !WordCharAt(s, e)
    ensures j < z <= e && AtBoundary(s, z)
    decreases e - j
  {
    z := j + 1;
    if j + 1 < e && IsWordChar(s[j + 1]) { z := NextWordEnd(s, j + 1, e); }
  }

  /** After a match comes the end of the text or something no pattern can start with. */
  lemma MatchEndsOutside(k: nat, s: string, i: nat)
    requires k < RULE_COUNT && i <= |s| && MatchAt(PatternAt(k), s, i).Some?
    ensures var j := MatchAt(PatternAt(k), s, i).value; j == |s| || !IsAlnum(s[j])
  {
    var p := PatternAt(k);
    match k
    case 0 => EndsWithRun(p, StarKeyChar, 4, s, i);
    case 1 => EndsWithRun(p, Alnum, 20, s, i);
    case 2 => EndsWithRun(p, KeyChar, 10, s, i);
    case 3 => EndsWithRun(p, KeyChar, 10, s, i);
    case 4 =>
      var m := MatchEndsWithItsSuffix(p, |p| - 2, s, i);
      assert p[|p| - 2..] == [Run(UpperOrDigit, 16, Some(16)), Boundary];
      WordRunEndsOutside(UpperOrDigit, 16, Some(16), s, m);
    case 5 =>
      var m := MatchEndsWithItsSuffix(p, |p| - 2, s, i);
      assert p[|p| - 2..] == [Run(KeyChar, 10, None), Boundary];
      KeyRunEndsOutside(10, s, m);
    case 6 => EndsWithRun(p, BearerChar, 1, s, i);
    case _ =>
      var m := MatchEndsWithItsSuffix(p, |p| - 2, s, i);
      assert p[|p| - 2..] == [Run(HexAnyCase, 32, None), Boundary];
      WordRunEndsOutside(HexAnyCase, 32, None, s, m);
  }

  lemma EndsWithRun(p: Pattern, c: Class, min: nat, s: string, i: nat)
    requires i <= |s| && p != [] && p[|p| - 1] == Run(c, min, None) && MatchAt(p, s, i).Some?
    ensures var j := MatchAt(p, s, i).value; j == |s| || !InClass(c, s[j])
  {
    var m := MatchEndsWithItsSuffix(p, |p| - 1, s, i);
    assert p[|p| - 1..] == [Run(c, min, None)];
    RunEndsOutside(c, min, s, m);
  }

  // ---------------------------------------------------------------- the rewritten text up to its next replacement

  ghost predicate NeverEmpty(p: Pattern, s: string) {
    forall z: nat :: z <= |s| && MatchAt(p, s, z).Some? ==> z < MatchAt(p, s, z).value
  }

  lemma PatternsNeverMatchEmpty(k: nat, s: string)
    requires k < RULE_COUNT
    ensures NeverEmpty(PatternAt(k), s)
  {
    forall z: nat | z <= |s| && MatchAt(PatternAt(k), s, z).Some? ensures z < MatchAt(PatternAt(k), s, z).value {
      MatchIsSound(PatternAt(k), s, z);
      MatchesAreBracketFree(k, s, z, MatchAt(PatternAt(k), s, z).value);
    }
  }

  lemma Regroup(a: string, b: string, r: string, rest: string)
    ensures a + (b + r + rest) == (a + b) + r + rest
  {
  }

  lemma {:induction false} NextReplacement(p: Pattern, r: string, s: string, i: nat) returns (n: nat)
    requires i <= |s| && NeverEmpty(p, s)
    ensures i <= n <= |s| && (MatchAt(p, s, i).None? && i < |s| ==> i < n)
    ensures n == |s| ==> ReplaceFrom(p, r, s, i) == s[i..]
    ensures n < |s| ==>
              && MatchAt(p, s, n).Some?
              && ReplaceFrom(p, r, s, i) == s[i..n] + r + ReplaceFrom(p, r, s, MatchAt(p, s, n).value)
    decreases |s| - i
  {
    hide MatchAt;
    if i == |s| || MatchAt(p, s, i).Some? {
      n := i;
    } else {
      n := NextReplacement(p, r, s, i + 1);
      assert s[i..n] == [s[i]] + s[i + 1..n];
      if n < |s| { Regroup([s[i]], s[i + 1..n], r, ReplaceFrom(p, r, s, MatchAt(p, s, n).value)); }
    }
  }

  // ---------------------------------------------------------------- carrying a match over from one text to another

  predicate Similar(c: char, d: char) {
    c == d || ToUpper(c) == ToUpper(d) || (IsSpace(c) && IsSpace(d))
  }

  /** The pattern cannot tell similar texts apart (when `blind`) and needs boundaries only if it `looks`. */
  predicate Permits(p: Pattern, blind: bool, looks: bool) {
    forall x <- p :: PermitsAtom(x, blind, looks)
  }

  predicate PermitsAtom(x: Atom, blind: bool, looks: bool) {
    match x
    case Boundary => looks
    case Word(_, _) => !blind
    case Run(c, _, _) => blind ==> c != UpperOrDigit
  }

  lemma ClassesAreCaseBlind(cls: Class, c: char, d: char)
    requires cls != UpperOrDigit && Similar(c, d) && InClass(cls, c)
    ensures InClass(cls, d)
  {
  }

  /** The span [x, b) of t and the span d characters further in s have the same characters, or similar ones
      when `blind`; boundaries of t are boundaries of s unless nobody `looks`. */
  ghost predicate Mirrors(t: string, s: string, x: nat, b: nat, d: int, blind: bool, looks: bool) {
    && 0 <= x + d && x <= b <= |t| && b + d <= |s|
    && (forall z :: x <= z < b ==> if blind then Similar(t[z], s[z + d]) else t[z] == s[z + d])
    && (looks ==> forall z :: x <= z <= b && AtBoundary(t, z) ==> AtBoundary(s, z + d))
  }

  lemma TransferAtom(a: Atom, t: string, s: string, x: nat, m: nat, b: nat, d: int, blind: bool, looks: bool)
    requires Mirrors(t, s, x, b, d, blind, looks) && m <= b && Spans(a, t, x, m) && PermitsAtom(a, blind, looks)
    ensures x <= m && Spans(a, s, x + d, m + d) && Mirrors(t, s, m, b, d, blind, looks)
  {
    match a
    case Boundary =>
    case Word(ws, fold) =>
      var w :| w in ws && m == x + |w| && WordAt(w, fold, t, x);
      forall z | 0 <= z < |w| ensures SameChar(fold, w[z], s[x + d + z]) {
        assert SameChar(fold, w[z], t[x + z]);
        assert t[x + z] == s[x + z + d];
      }
      assert WordAt(w, fold, s, x + d);
    case Run(c, min, max) =>
      forall y: int | x + d <= y < m + d ensures InClass(c, s[y]) {
        assert InClass(c, t[y - d]);
        if blind { ClassesAreCaseBlind(c, t[y - d], s[y - d + d]); }
      }
  }

  lemma {:induction false} Transfer(p: Pattern, t: string, s: string, x: nat, b: nat, d: int, blind: bool, looks: bool)
    requires Spells(p, t, x, b) && Mirrors(t, s, x, b, d, blind, looks)
    requires Permits(p, blind, looks)
    ensures Spells(p, s, x + d, b + d)
    decreases |p|
  {
    if p != [] {
      var m: nat :| Spans(p[0], t, x, m) && Spells(p[1..], t, m, b);
      SpellsForward(p[1..], t, m, b);
      TransferAtom(p[0], t, s, x, m, b, d, blind, looks);
      Transfer(p[1..], t, s, m, b, d, blind, looks);
    }
  }
}
