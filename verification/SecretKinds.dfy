/**
 What the scrubber calls a secret, spelt out: for each of its eight patterns the literal texts and character ranges,
 without the rule table. The table describes exactly these secrets and replaces them by exactly these tags.
 */
module SecretKinds {
  import opened Wrappers
  import opened Regex
  import opened Scrub
  import opened ScrubFixedPoint

  // ---------------------------------------------------------------- characters and edges

  predicate LetterOrDigit(c: char) { 'A' <= c <= 'Z' || 'a' <= c <= 'z' || '0' <= c <= '9' }

  predicate WordCharacter(c: char) { LetterOrDigit(c) || c == '_' }

  predicate WordOrDash(c: char) { WordCharacter(c) || c == '-' }

  predicate WordDashOrStar(c: char) { WordCharacter(c) || c == '-' || c == '*' }

  predicate WordDashOrDot(c: char) { WordCharacter(c) || c == '-' || c == '.' }

  predicate CapitalOrDigit(c: char) { 'A' <= c <= 'Z' || '0' <= c <= '9' }

  predicate HexDigit(c: char) { '0' <= c <= '9' || 'a' <= c <= 'f' || 'A' <= c <= 'F' }

  /** White space and line terminators of ECMA-262, sections 12.2 and 12.3. */
  predicate WhiteSpace(c: char) {
    || c == '\t' || c == '\n' || c == '\U{B}' || c == '\U{C}' || c == '\r' || c == ' ' || c == '\U{A0}'
    || c == '\U{1680}' || '\U{2000}' <= c <= '\U{200A}' || c == '\U{2028}' || c == '\U{2029}' || c == '\U{202F}'
    || c == '\U{205F}' || c == '\U{3000}' || c == '\U{FEFF}'
  }

  /** A word starts or ends at i. */
  predicate WordEdge(s: string, i: nat) {
    (0 < i <= |s| && WordCharacter(s[i - 1])) != (i < |s| && WordCharacter(s[i]))
  }

  predicate Reads(w: string, s: string, i: nat) {
    i + |w| <= |s| && s[i..i + |w|] == w
  }

  predicate ReadsAnyCase(lower: string, upper: string, s: string, i: nat)
    requires |lower| == |upper|
  {
    i + |lower| <= |s| && forall k :: 0 <= k < |lower| ==> s[i + k] == lower[k] || s[i + k] == upper[k]
  }

  ghost predicate Only(f: char -> bool, s: string, i: nat, j: nat) {
    i <= j <= |s| && forall k :: i <= k < j ==> f(s[k])
  }

  // ---------------------------------------------------------------- the eight kinds, as spans [i, j) of a text

  ghost predicate OpenAIProjectKey(s: string, i: nat, j: nat) {
    || (Reads("sk-proj-", s, i) && i + 12 <= j && Only(WordDashOrStar, s, i + 8, j))
    || (Reads("sk-svcacct-", s, i) && i + 15 <= j && Only(WordDashOrStar, s, i + 11, j))
  }

  ghost predicate OpenAIKey(s: string, i: nat, j: nat) {
    WordEdge(s, i) && Reads("sk-", s, i) && i + 23 <= j && Only(LetterOrDigit, s, i + 3, j)
  }

  ghost predicate AnthropicKey(s: string, i: nat, j: nat) {
    WordEdge(s, i) && Reads("sk-ant-", s, i) && i + 17 <= j && Only(WordOrDash, s, i + 7, j)
  }

  ghost predicate OpenRouterKey(s: string, i: nat, j: nat) {
    WordEdge(s, i) && Reads("sk-or-", s, i) && i + 16 <= j && Only(WordOrDash, s, i + 6, j)
  }

  ghost predicate AwsKey(s: string, i: nat, j: nat) {
    && WordEdge(s, i) && (Reads("AKIA", s, i) || Reads("ASIA", s, i))
    && j == i + 20 && Only(CapitalOrDigit, s, i + 4, j) && WordEdge(s, j)
  }

  /** The dots of the token are at p and q. */
  ghost predicate JwtWithDots(s: string, i: nat, p: nat, q: nat, j: nat) {
    && WordEdge(s, i) && Reads("eyJ", s, i)
    && i + 13 <= p && Only(WordOrDash, s, i + 3, p) && p < |s| && s[p] == '.'
    && p + 11 <= q && Only(WordOrDash, s, p + 1, q) && q < |s| && s[q] == '.'
    && q + 11 <= j && Only(WordOrDash, s, q + 1, j) && WordEdge(s, j)
  }

  ghost predicate Jwt(s: string, i: nat, j: nat) {
    exists p: nat, q: nat :: JwtWithDots(s, i, p, q, j)
  }

  /** The token begins at p. */
  ghost predicate BearerWithToken(s: string, i: nat, p: nat, j: nat) {
    && WordEdge(s, i) && ReadsAnyCase("bearer", "BEARER", s, i)
    && i + 7 <= p && Only(WhiteSpace, s, i + 6, p) && p + 1 <= j && Only(WordDashOrDot, s, p, j)
  }

  ghost predicate BearerToken(s: string, i: nat, j: nat) {
    exists p: nat :: BearerWithToken(s, i, p, j)
  }

  ghost predicate HexToken(s: string, i: nat, j: nat) {
    WordEdge(s, i) && i + 32 <= j && Only(HexDigit, s, i, j) && WordEdge(s, j)
  }

  ghost predicate IsSecret(k: nat, s: string, i: nat, j: nat)
    requires k < 8
  {
    match k
    case 0 => OpenAIProjectKey(s, i, j)
    case 1 => OpenAIKey(s, i, j)
    case 2 => AnthropicKey(s, i, j)
    case 3 => OpenRouterKey(s, i, j)
    case 4 => AwsKey(s, i, j)
    case 5 => Jwt(s, i, j)
    case 6 => BearerToken(s, i, j)
    case _ => HexToken(s, i, j)
  }

  function TagOf(k: nat): string
    requires k < 8
  {
    match k
    case 0 => "[REDACTED_OPENAI_KEY]"
    case 1 => "[REDACTED_OPENAI_KEY]"
    case 2 => "[REDACTED_ANTHROPIC_KEY]"
    case 3 => "[REDACTED_OPENROUTER_KEY]"
    case 4 => "[REDACTED_AWS_KEY]"
    case 5 => "[REDACTED_JWT]"
    case 6 => "Bearer [REDACTED]"
    case _ => "[REDACTED_TOKEN]"
  }

  // ---------------------------------------------------------------- the rule table describes these secrets

  /** The range each class of the patterns stands for. */
  function RangeOf(cls: Class): char -> bool {
    match cls
    case Alnum => LetterOrDigit
    case KeyChar => WordOrDash
    case StarKeyChar => WordDashOrStar
    case BearerChar => WordDashOrDot
    case UpperOrDigit => CapitalOrDigit
    case HexAnyCase => HexDigit
    case Dot => c => c == '.'
    case Space => WhiteSpace
  }

  lemma ClassIsRange(cls: Class, s: string, i: nat, j: nat)
    ensures AllIn(cls, s, i, j) <==> Only(RangeOf(cls), s, i, j)
  {
    forall c: char ensures InClass(cls, c) <==> RangeOf(cls)(c) { CharInRange(cls, c); }
    hide InClass, RangeOf;
  }

  lemma CharInRange(cls: Class, c: char)
    ensures InClass(cls, c) <==> RangeOf(cls)(c)
  {
  }

  lemma EdgeIsBoundary(s: string, i: nat)
    ensures AtBoundary(s, i) <==> WordEdge(s, i)
  {
  }

  lemma ReadsIsWordAt(w: string, s: string, i: nat)
    ensures WordAt(w, false, s, i) <==> Reads(w, s, i)
  {
    if i + |w| <= |s| {
      forall k | 0 <= k < |w| ensures SameChar(false, w[k], s[i + k]) <==> s[i..i + |w|][k] == w[k] {}
    }
  }

  lemma BearerInAnyCase(s: string, i: nat)
    ensures WordAt("Bearer", true, s, i) <==> ReadsAnyCase("bearer", "BEARER", s, i)
  {
    var w, lower, upper := "Bearer", "bearer", "BEARER";
    assert |w| == 6 && |lower| == 6 && |upper| == 6;
    if i + 6 <= |s| {
      forall k | 0 <= k < 6 ensures SameChar(true, w[k], s[i + k]) <==> s[i + k] == lower[k] || s[i + k] == upper[k] {
        assert ToUpper(w[k]) == upper[k] && 'A' <= upper[k] <= 'Z' && lower[k] == upper[k] - 'A' + 'a';
      }
    }
  }

  lemma RunSpells(c: Class, min: nat, max: Option<nat>, s: string, x: nat, j: nat)
    ensures Spells([Run(c, min, max)], s, x, j) <==>
            x + min <= j && (max.Some? ==> j <= x + max.value) && AllIn(c, s, x, j)
  {
    var p: Pattern := [Run(c, min, max)];
    assert p[1..] == [];
    if Spans(p[0], s, x, j) && j <= |s| { assert Spells(p[1..], s, j, j); }
  }

  lemma ConsSpells(a: Atom, p: Pattern, s: string, x: nat, m: nat, j: nat)
    requires Spans(a, s, x, m) && Spells(p, s, m, j)
    ensures Spells([a] + p, s, x, j)
  {
    assert ([a] + p)[1..] == p;
  }

  lemma ConsSplits(a: Atom, p: Pattern, s: string, x: nat, j: nat) returns (m: nat)
    requires Spells([a] + p, s, x, j)
    ensures Spans(a, s, x, m) && Spells(p, s, m, j)
  {
    assert ([a] + p)[1..] == p;
    m :| Spans(([a] + p)[0], s, x, m) && Spells(([a] + p)[1..], s, m, j);
  }

  lemma EndSpells(s: string, x: nat, j: nat)
    ensures Spells([Boundary], s, x, j) <==> x == j <= |s| && AtBoundary(s, x)
  {
    var p: Pattern := [Boundary];
    assert p[1..] == [];
    if x == j <= |s| && AtBoundary(s, x) { assert Spans(p[0], s, x, j) && Spells(p[1..], s, j, j); }
  }

  /** One literal head and a run of at least `min` characters. */
  lemma HeadAndRun(r: Rule, w: string, c: Class, min: nat, s: string, i: nat, j: nat)
    requires w in r.heads && r.tail == [Run(c, min, None)] && !r.fold && Reads(w, s, i)
    requires (r.atBoundary ==> AtBoundary(s, i)) && i + |w| + min <= j && AllIn(c, s, i + |w|, j)
    ensures Spells(r.Pattern(), s, i, j)
  {
    ReadsIsWordAt(w, s, i);
    RunSpells(c, min, None, s, i + |w|, j);
    JoinHead(r, s, i, j, w);
  }

  lemma HeadAndRunIs(r: Rule, c: Class, min: nat, s: string, i: nat, j: nat) returns (w: string)
    requires r.heads != [] && r.tail == [Run(c, min, None)] && !r.fold && Spells(r.Pattern(), s, i, j)
    ensures w in r.heads && Reads(w, s, i) && (r.atBoundary ==> AtBoundary(s, i))
    ensures i + |w| + min <= j && AllIn(c, s, i + |w|, j)
  {
    w := SplitHead(r, s, i, j);
    ReadsIsWordAt(w, s, i);
    RunSpells(c, min, None, s, i + |w|, j);
  }

  /** The patterns with one head: the form of the next three kinds. */
  lemma KeySpells(r: Rule, head: string, c: Class, min: nat, s: string, i: nat, j: nat)
    requires r.heads == [head] && r.tail == [Run(c, min, None)] && !r.fold && r.atBoundary
    ensures Spells(r.Pattern(), s, i, j) <==>
            WordEdge(s, i) && Reads(head, s, i) && i + |head| + min <= j && Only(RangeOf(c), s, i + |head|, j)
  {
    ClassIsRange(c, s, i + |head|, j);
    EdgeIsBoundary(s, i);
    hide Spells, AtBoundary, WordEdge, AllIn, Only, RangeOf;
    if Spells(r.Pattern(), s, i, j) {
      var w := HeadAndRunIs(r, c, min, s, i, j);
    }
    if WordEdge(s, i) && Reads(head, s, i) && i + |head| + min <= j && Only(RangeOf(c), s, i + |head|, j) {
      HeadAndRun(r, head, c, min, s, i, j);
    }
  }

  lemma OpenAIKeyIsSpelled(s: string, i: nat, j: nat)
    ensures Spells(PatternAt(1), s, i, j) <==> OpenAIKey(s, i, j)
  {
    hide Spells;
    KeySpells(RuleAt(1), "sk-", Alnum, 20, s, i, j);
  }

  lemma AnthropicKeyIsSpelled(s: string, i: nat, j: nat)
    ensures Spells(PatternAt(2), s, i, j) <==> AnthropicKey(s, i, j)
  {
    hide Spells;
    KeySpells(RuleAt(2), "sk-ant-", KeyChar, 10, s, i, j);
  }

  lemma OpenRouterKeyIsSpelled(s: string, i: nat, j: nat)
    ensures Spells(PatternAt(3), s, i, j) <==> OpenRouterKey(s, i, j)
  {
    hide Spells;
    KeySpells(RuleAt(3), "sk-or-", KeyChar, 10, s, i, j);
  }

  lemma ProjectKeyIsSpelled(s: string, i: nat, j: nat)
    ensures Spells(PatternAt(0), s, i, j) <==> OpenAIProjectKey(s, i, j)
  {
    var r := RuleAt(0);
    assert r.heads == ["sk-proj-", "sk-svcacct-"] && r.tail == [Run(StarKeyChar, 4, None)] && !r.atBoundary && !r.fold;
    ClassIsRange(StarKeyChar, s, i + 8, j);
    ClassIsRange(StarKeyChar, s, i + 11, j);
    hide Spells, AllIn, Only, Reads, RuleAt;
    if Spells(r.Pattern(), s, i, j) {
      var w := HeadAndRunIs(r, StarKeyChar, 4, s, i, j);
    }
    if Reads("sk-proj-", s, i) && i + 12 <= j && AllIn(StarKeyChar, s, i + 8, j) {
      HeadAndRun(r, "sk-proj-", StarKeyChar, 4, s, i, j);
    }
    if Reads("sk-svcacct-", s, i) && i + 15 <= j && AllIn(StarKeyChar, s, i + 11, j) {
      HeadAndRun(r, "sk-svcacct-", StarKeyChar, 4, s, i, j);
    }
  }

  function AwsAtoms(): Pattern {
    [Run(UpperOrDigit, 16, Some(16))] + [Boundary]
  }

  lemma AwsRule()
    ensures var r := RuleAt(4); r.heads == ["AKIA", "ASIA"] && r.tail == AwsAtoms() && r.atBoundary && !r.fold
  {
  }

  lemma AwsTailSpells(s: string, x: nat, j: nat)
    ensures Spells(AwsAtoms(), s, x, j) <==> j == x + 16 && Only(CapitalOrDigit, s, x, j) && WordEdge(s, j)
  {
    var run: Atom := Run(UpperOrDigit, 16, Some(16));
    ClassIsRange(UpperOrDigit, s, x, j);
    EdgeIsBoundary(s, j);
    EndSpells(s, j, j);
    hide Spells, AtBoundary, WordEdge;
    if Spells(AwsAtoms(), s, x, j) {
      var m := ConsSplits(run, [Boundary], s, x, j);
      EndSpells(s, m, j);
    }
    if j == x + 16 && Only(CapitalOrDigit, s, x, j) && WordEdge(s, j) { ConsSpells(run, [Boundary], s, x, j, j); }
  }

  lemma TwoHeads(r: Rule, v: string, w: string, s: string, i: nat, j: nat)
    requires r.heads == [v, w] && |v| == |w| && r.atBoundary && !r.fold
    ensures Spells(r.Pattern(), s, i, j) <==>
            AtBoundary(s, i) && (WordAt(v, false, s, i) || WordAt(w, false, s, i)) && Spells(r.tail, s, i + |v|, j)
  {
    hide Spells, WordAt, AtBoundary;
    if Spells(r.Pattern(), s, i, j) {
      var u := SplitHead(r, s, i, j);
    }
    if AtBoundary(s, i) && Spells(r.tail, s, i + |v|, j) {
      if WordAt(v, false, s, i) {
        JoinHead(r, s, i, j, v);
      } else if WordAt(w, false, s, i) {
        JoinHead(r, s, i, j, w);
      }
    }
  }

  lemma AwsKeyIsSpelled(s: string, i: nat, j: nat)
    ensures Spells(PatternAt(4), s, i, j) <==> AwsKey(s, i, j)
  {
    AwsRule();
    hide Spells, Only, Reads, WordAt, RuleAt, AtBoundary, WordEdge, AwsAtoms;
    TwoHeads(RuleAt(4), "AKIA", "ASIA", s, i, j);
    EdgeIsBoundary(s, i);
    ReadsIsWordAt("AKIA", s, i);
    ReadsIsWordAt("ASIA", s, i);
    AwsTailSpells(s, i + 4, j);
  }

  lemma HexTokenIsSpelled(s: string, i: nat, j: nat)
    ensures Spells(PatternAt(7), s, i, j) <==> HexToken(s, i, j)
  {
    HexPattern();
    var run: Atom := Run(HexAnyCase, 32, None);
    ClassIsRange(HexAnyCase, s, i, j);
    EdgeIsBoundary(s, i);
    EdgeIsBoundary(s, j);
    EndSpells(s, j, j);
    hide Spells, AllIn, Only, AtBoundary, WordEdge, PatternAt;
    if Spells(PatternAt(7), s, i, j) { SplitHex(s, i, j); }
    if HexToken(s, i, j) {
      ConsSpells(run, [Boundary], s, i, j, j);
      ConsSpells(Boundary, [run] + [Boundary], s, i, i, j);
      assert [Boundary] + ([run] + [Boundary]) == [Boundary, run, Boundary];
    }
  }

  function BearerAtoms(): Pattern {
    [Run(Space, 1, None)] + [Run(BearerChar, 1, None)]
  }

  lemma BearerRule()
    ensures var r := RuleAt(6); r.heads == ["Bearer"] && r.tail == BearerAtoms() && r.atBoundary && r.fold
  {
  }

  ghost predicate BearerTail(s: string, x: nat, p: nat, j: nat) {
    x + 1 <= p && Only(WhiteSpace, s, x, p) && p + 1 <= j && Only(WordDashOrDot, s, p, j)
  }

  lemma BearerTailIs(s: string, x: nat, j: nat) returns (p: nat)
    requires Spells(BearerAtoms(), s, x, j)
    ensures BearerTail(s, x, p, j)
  {
    hide Spells;
    p := ConsSplits(Run(Space, 1, None), [Run(BearerChar, 1, None)], s, x, j);
    RunSpells(BearerChar, 1, None, s, p, j);
    ClassIsRange(Space, s, x, p);
    ClassIsRange(BearerChar, s, p, j);
  }

  lemma BearerTailSpells(s: string, x: nat, p: nat, j: nat)
    requires BearerTail(s, x, p, j)
    ensures Spells(BearerAtoms(), s, x, j)
  {
    hide Spells;
    ClassIsRange(Space, s, x, p);
    ClassIsRange(BearerChar, s, p, j);
    RunSpells(BearerChar, 1, None, s, p, j);
    ConsSpells(Run(Space, 1, None), [Run(BearerChar, 1, None)], s, x, p, j);
  }

  lemma BearerTokenIsSpelled(s: string, i: nat, j: nat)
    ensures Spells(PatternAt(6), s, i, j) <==> BearerToken(s, i, j)
  {
    BearerRule();
    var r := RuleAt(6);
    EdgeIsBoundary(s, i);
    BearerInAnyCase(s, i);
    hide Spells, Only, RuleAt, AtBoundary, WordEdge, WordAt, ReadsAnyCase, BearerAtoms;
    if Spells(r.Pattern(), s, i, j) {
      var w := SplitHead(r, s, i, j);
      var p := BearerTailIs(s, i + 6, j);
      assert BearerWithToken(s, i, p, j);
    }
    if BearerToken(s, i, j) {
      var p: nat :| BearerWithToken(s, i, p, j);
      BearerTailSpells(s, i + 6, p, j);
      JoinHead(r, s, i, j, "Bearer");
    }
  }

  /** The tail of a JWT from after "eyJ" at x, with its dots at p and q. */
  ghost predicate JwtTail(s: string, x: nat, p: nat, q: nat, j: nat) {
    && x + 10 <= p && AllIn(KeyChar, s, x, p) && p < |s| && s[p] == '.'
    && p + 11 <= q && AllIn(KeyChar, s, p + 1, q) && q < |s| && s[q] == '.'
    && q + 11 <= j && AllIn(KeyChar, s, q + 1, j) && AtBoundary(s, j)
  }

  function JwtAtoms(): Pattern {
    var run, dot := Run(KeyChar, 10, None), Run(Dot, 1, Some(1));
    [run] + ([dot] + ([run] + ([dot] + ([run] + [Boundary]))))
  }

  lemma JwtTailIs(s: string, x: nat, j: nat) returns (p: nat, q: nat)
    requires Spells(JwtAtoms(), s, x, j)
    ensures JwtTail(s, x, p, q, j)
  {
    hide Spells, AllIn, AtBoundary;
    var run, dot := Run(KeyChar, 10, None), Run(Dot, 1, Some(1));
    p := ConsSplits(run, [dot] + ([run] + ([dot] + ([run] + [Boundary]))), s, x, j);
    var p' := ConsSplits(dot, [run] + ([dot] + ([run] + [Boundary])), s, p, j);
    q := ConsSplits(run, [dot] + ([run] + [Boundary]), s, p', j);
    var q' := ConsSplits(dot, [run] + [Boundary], s, q, j);
    var j' := ConsSplits(run, [Boundary], s, q', j);
    OneDot(s, p, p');
    OneDot(s, q, q');
    EndSpells(s, j', j);
  }

  lemma OneDot(s: string, p: nat, p': nat)
    ensures Spans(Run(Dot, 1, Some(1)), s, p, p') <==> p' == p + 1 <= |s| && s[p] == '.'
  {
  }

  lemma JwtTailSpells(s: string, x: nat, p: nat, q: nat, j: nat)
    requires JwtTail(s, x, p, q, j)
    ensures Spells(JwtAtoms(), s, x, j)
  {
    hide Spells, AtBoundary;
    var run, dot := Run(KeyChar, 10, None), Run(Dot, 1, Some(1));
    EndSpells(s, j, j);
    OneDot(s, p, p + 1);
    OneDot(s, q, q + 1);
    hide AllIn;
    ConsSpells(run, [Boundary], s, q + 1, j, j);
    ConsSpells(dot, [run] + [Boundary], s, q, q + 1, j);
    ConsSpells(run, [dot] + ([run] + [Boundary]), s, p + 1, q, j);
    ConsSpells(dot, [run] + ([dot] + ([run] + [Boundary])), s, p, p + 1, j);
    ConsSpells(run, [dot] + ([run] + ([dot] + ([run] + [Boundary]))), s, x, p, j);
  }

  lemma JwtRule()
    ensures var r := RuleAt(5); r.heads == ["eyJ"] && r.tail == JwtAtoms() && r.atBoundary && !r.fold
  {
  }

  lemma JwtDots(s: string, i: nat, p: nat, q: nat, j: nat)
    ensures JwtWithDots(s, i, p, q, j) <==> WordEdge(s, i) && Reads("eyJ", s, i) && JwtTail(s, i + 3, p, q, j)
  {
    ClassIsRange(KeyChar, s, i + 3, p);
    ClassIsRange(KeyChar, s, p + 1, q);
    ClassIsRange(KeyChar, s, q + 1, j);
    EdgeIsBoundary(s, j);
    hide Only, AllIn, AtBoundary, WordEdge, Reads;
  }

  lemma JwtIsSpelled(s: string, i: nat, j: nat)
    ensures Spells(PatternAt(5), s, i, j) <==> Jwt(s, i, j)
  {
    JwtRule();
    var r := RuleAt(5);
    EdgeIsBoundary(s, i);
    ReadsIsWordAt("eyJ", s, i);
    hide Spells, RuleAt, AtBoundary, WordEdge, WordAt, Reads, JwtAtoms, JwtTail, JwtWithDots;
    if Spells(r.Pattern(), s, i, j) {
      var w := SplitHead(r, s, i, j);
      var p, q := JwtTailIs(s, i + 3, j);
      JwtDots(s, i, p, q, j);
    }
    if Jwt(s, i, j) {
      var p: nat, q: nat :| JwtWithDots(s, i, p, q, j);
      JwtDots(s, i, p, q, j);
      JwtTailSpells(s, i + 3, p, q, j);
      JoinHead(r, s, i, j, "eyJ");
    }
  }

  /** The k-th pattern describes exactly the k-th kind of secret. */
  lemma SecretsAreSpelled(k: nat, s: string, i: nat, j: nat)
    requires k < 8
    ensures Spells(PatternAt(k), s, i, j) <==> IsSecret(k, s, i, j)
  {
    hide Spells, PatternAt;
    match k
    case 0 => ProjectKeyIsSpelled(s, i, j);
    case 1 => OpenAIKeyIsSpelled(s, i, j);
    case 2 => AnthropicKeyIsSpelled(s, i, j);
    case 3 => OpenRouterKeyIsSpelled(s, i, j);
    case 4 => AwsKeyIsSpelled(s, i, j);
    case 5 => JwtIsSpelled(s, i, j);
    case 6 => BearerTokenIsSpelled(s, i, j);
    case _ => HexTokenIsSpelled(s, i, j);
  }

  // ---------------------------------------------------------------- what the scrubber does to them

  /** No secret of any kind is left in the output. */
  lemma NoSecretIsLeft(message: string, i: nat, j: nat)
    ensures var out := Scrubbed(message);
            && !OpenAIProjectKey(out, i, j) && !OpenAIKey(out, i, j) && !AnthropicKey(out, i, j)
            && !OpenRouterKey(out, i, j) && !AwsKey(out, i, j) && !Jwt(out, i, j)
            && !BearerToken(out, i, j) && !HexToken(out, i, j)
  {
    hide OpenAIProjectKey, OpenAIKey, AnthropicKey, OpenRouterKey, AwsKey, Jwt, BearerToken, HexToken, Scrubbed;
    KindIsGone(message, 0, i, j);
    KindIsGone(message, 1, i, j);
    KindIsGone(message, 2, i, j);
    KindIsGone(message, 3, i, j);
    KindIsGone(message, 4, i, j);
    KindIsGone(message, 5, i, j);
    KindIsGone(message, 6, i, j);
    KindIsGone(message, 7, i, j);
  }

  lemma KindIsGone(message: string, k: nat, i: nat, j: nat)
    requires k < 8
    ensures !IsSecret(k, Scrubbed(message), i, j)
  {
    hide PatternAt, Spells, IsSecret, Scrubbed;
    ScrubbedIsFree(message, k);
    SecretsAreSpelled(k, Scrubbed(message), i, j);
  }

  /** A message without secrets of the first n kinds. */
  ghost predicate HoldsNone(n: nat, s: string)
    requires n <= 8
  {
    forall k: nat, i: nat, j: nat :: k < n ==> !IsSecret(k, s, i, j)
  }

  lemma HoldsNoneIsFree(n: nat, s: string)
    requires n <= 8
    ensures HoldsNone(n, s) <==> forall k: nat :: k < n ==> Free(PatternAt(k), s)
  {
    hide PatternAt, Spells, IsSecret;
    forall k: nat, i: nat, j: nat | k < n ensures Spells(PatternAt(k), s, i, j) <==> IsSecret(k, s, i, j) {
      SecretsAreSpelled(k, s, i, j);
    }
  }

  /** The scrubber leaves a message as it is if and only if it holds no secret. */
  lemma UnchangedIffNoSecret(message: string)
    ensures Scrubbed(message) == message <==> HoldsNone(8, message)
  {
    hide Scrubbed, HoldsNone, Free, PatternAt;
    ScrubbingIsIdempotent(message);
    HoldsNoneIsFree(8, message);
  }

  /** From i on, `out` is s with secrets of the k-th kind replaced by the tag of that kind and every other character
      kept; a character is kept only where no such secret starts. */
  ghost predicate Tagged(k: nat, s: string, i: nat, out: string)
    requires k < 8 && i <= |s|
    decreases |s| - i
  {
    if i == |s| then out == ""
    else if exists e: nat :: IsSecret(k, s, i, e) then
      TagOf(k) <= out && exists j: nat :: i < j <= |s| && IsSecret(k, s, i, j) && Tagged(k, s, j, out[|TagOf(k)|..])
    else out != "" && out[0] == s[i] && Tagged(k, s, i + 1, out[1..])
  }

  lemma TagsAreReplacements(k: nat)
    requires k < 8
    ensures RuleAt(k).Replacement() == TagOf(k)
  {
    if k == 6 { assert "Bearer " + "[REDACTED]" == "Bearer [REDACTED]"; }
  }

  lemma {:induction false} RedactedIsTagged(k: nat, s: string, i: nat, out: string)
    requires k < 8 && i <= |s| && Redacts(PatternAt(k), TagOf(k), s, i, out)
    ensures Tagged(k, s, i, out)
    decreases |s| - i
  {
    hide PatternAt, Spells, IsSecret, TagOf;
    if i < |s| {
      forall e: nat ensures Spells(PatternAt(k), s, i, e) <==> IsSecret(k, s, i, e) { SecretsAreSpelled(k, s, i, e); }
      if exists e: nat :: Spells(PatternAt(k), s, i, e) {
        var j: nat :| && i < j <= |s| && Spells(PatternAt(k), s, i, j)
                      && Redacts(PatternAt(k), TagOf(k), s, j, out[|TagOf(k)|..]);
        RedactedIsTagged(k, s, j, out[|TagOf(k)|..]);
      } else {
        RedactedIsTagged(k, s, i + 1, out[1..]);
      }
    }
  }

  /** The eight rewrites, in order: the k-th replaces the secrets of the k-th kind by their tag, and nothing else. */
  lemma EachKindGetsItsTag(k: nat, message: string)
    requires k < 8
    ensures Tagged(k, ScrubUpTo(k, message), 0, ScrubUpTo(k + 1, message))
    ensures ScrubUpTo(0, message) == message && ScrubUpTo(8, message) == Scrubbed(message)
  {
    hide PatternAt, RuleAt, TagOf, Tagged, Redacts;
    RewritesOnlyRedact(k, message);
    TagsAreReplacements(k);
    RedactedIsTagged(k, ScrubUpTo(k, message), 0, ScrubUpTo(k + 1, message));
  }

  // ---------------------------------------------------------------- a message that is one secret

  /** The matcher takes a message that is one secret as a whole. */
  lemma WholeSecretIsMatched(k: nat, m: string)
    requires k < 8 && IsSecret(k, m, 0, |m|)
    ensures MatchAt(PatternAt(k), m, 0) == Some(|m|)
  {
    var j := SomeMatch(k, m);
    if k == 7 { MatchEndsOutside(7, m, 0); }
    hide PatternAt, MatchAt, Jwt, BearerToken, OpenAIProjectKey, OpenAIKey, AnthropicKey, OpenRouterKey, WordEdge;
    if k < 4 {
      WholeKeyIsMatched(k, m, j);
    } else if k == 5 {
      WholeJwtIsMatched(m, j);
    } else if k == 6 {
      WholeBearerIsMatched(m, j);
    }
  }

  lemma WholeKeyIsMatched(k: nat, m: string, j: nat)
    requires k < 4 && IsSecret(k, m, 0, |m|) && IsSecret(k, m, 0, j) && MatchAt(PatternAt(k), m, 0) == Some(j)
    ensures j == |m|
  {
    KeyEndsOutside(k, m, j);
    hide PatternAt, MatchAt;
    match k
    case 0 => WholeKey(m, j, StarKeyChar, 11);
    case 1 => WholeKey(m, j, Alnum, 3);
    case 2 => WholeKey(m, j, KeyChar, 7);
    case _ => WholeKey(m, j, KeyChar, 6);
  }

  function KeyClass(k: nat): Class {
    match k
    case 0 => StarKeyChar
    case 1 => Alnum
    case _ => KeyChar
  }

  lemma KeyEndsOutside(k: nat, m: string, j: nat)
    requires k < 4 && MatchAt(PatternAt(k), m, 0) == Some(j)
    ensures j == |m| || (j < |m| && !InClass(KeyClass(k), m[j]))
  {
    hide MatchAt, InClass;
    RuleEndsOutside(RuleAt(k), KeyClass(k), if k == 0 then 4 else if k == 1 then 20 else 10, m, j);
  }

  lemma RuleEndsOutside(r: Rule, c: Class, min: nat, m: string, j: nat)
    requires r.tail == [Run(c, min, None)] && MatchAt(r.Pattern(), m, 0) == Some(j)
    ensures j == |m| || (j < |m| && !InClass(c, m[j]))
  {
    var p := r.Pattern();
    assert p != [] && p[|p| - 1] == r.tail[0];
    hide MatchAt, InClass;
    EndsWithRun(p, c, min, m, 0);
  }

  lemma WholeBearerIsMatched(m: string, j: nat)
    requires BearerToken(m, 0, |m|) && BearerToken(m, 0, j) && MatchAt(PatternAt(6), m, 0) == Some(j)
    ensures j == |m|
  {
    EndsWithRun(PatternAt(6), BearerChar, 1, m, 0);
    hide PatternAt, MatchAt;
    var p: nat :| BearerWithToken(m, 0, p, |m|);
    var p': nat :| BearerWithToken(m, 0, p', j);
    assert WordDashOrDot(m[p]) && WordDashOrDot(m[p']);
    TokenIsNotBlank();
    hide WhiteSpace, WordDashOrDot;
    FirstOutside(WhiteSpace, m, 6, p, p');
    WholeKey(m, j, BearerChar, p);
  }

  lemma FirstOutside(f: char -> bool, s: string, x: nat, d: nat, e: nat)
    requires d < |s| && e < |s| && !f(s[d]) && !f(s[e]) && Only(f, s, x, d) && Only(f, s, x, e)
    ensures d == e
  {
  }

  lemma TokenIsNotBlank()
    ensures forall c: char :: WhiteSpace(c) ==> !WordDashOrDot(c)
  {
  }

  lemma WholeJwtIsMatched(m: string, j: nat)
    requires Jwt(m, 0, |m|) && MatchAt(PatternAt(5), m, 0) == Some(j)
    ensures j == |m|
  {
    var p: nat, q: nat :| JwtWithDots(m, 0, p, q, |m|);
    JwtDots(m, 0, p, q, |m|);
    JwtStart(m, j);
    hide MatchAt, PatternAt, JwtWithDots, WordEdge, Reads, JwtTail, JwtAtoms;
    WholeJwtTail(m, p, q, j);
  }

  lemma JwtStart(m: string, j: nat)
    requires MatchAt(PatternAt(5), m, 0) == Some(j)
    ensures 3 <= |m| && MatchAt(JwtAtoms(), m, 3) == Some(j)
  {
    JwtRule();
    PatternOf(RuleAt(5));
    hide MatchAt, JwtAtoms, RuleAt;
    var x := FirstLands(Boundary, [RuleAt(5).Head()] + JwtAtoms(), m, 0);
    var y := FirstLands(RuleAt(5).Head(), JwtAtoms(), m, x);
  }

  lemma PatternOf(r: Rule)
    requires r.atBoundary && r.heads != []
    ensures r.Pattern() == [Boundary] + ([r.Head()] + r.tail)
  {
  }

  lemma WholeJwtTail(m: string, p: nat, q: nat, j: nat)
    requires 3 <= |m| && JwtTail(m, 3, p, q, |m|) && MatchAt(JwtAtoms(), m, 3) == Some(j)
    ensures j == |m|
  {
    hide MatchAt, AllIn, AtBoundary;
    var run, dot := Run(KeyChar, 10, None), Run(Dot, 1, Some(1));
    RunThenDot([run] + ([dot] + ([run] + [Boundary])), m, 3, p);
    RunThenDot([run] + [Boundary], m, p + 1, q);
    LastSegment(m, q + 1, j);
  }

  /** A segment and its dot match up to that dot only. */
  lemma RunThenDot(rest: Pattern, s: string, x: nat, e: nat)
    requires x <= e < |s| && AllIn(KeyChar, s, x, e) && s[e] == '.'
    requires MatchAt([Run(KeyChar, 10, None)] + ([Run(Dot, 1, Some(1))] + rest), s, x).Some?
    ensures MatchAt(rest, s, e + 1) == MatchAt([Run(KeyChar, 10, None)] + ([Run(Dot, 1, Some(1))] + rest), s, x)
  {
    hide MatchAt;
    var d := FirstLands(Run(KeyChar, 10, None), [Run(Dot, 1, Some(1))] + rest, s, x);
    var y := FirstLands(Run(Dot, 1, Some(1)), rest, s, d);
    OneDot(s, d, y);
    SameDot(s, x, d, e);
  }

  lemma FirstLands(a: Atom, p: Pattern, s: string, i: nat) returns (x: nat)
    requires i <= |s| && MatchAt([a] + p, s, i).Some?
    ensures i <= x <= |s| && Spans(a, s, i, x) && MatchAt(p, s, x) == MatchAt([a] + p, s, i)
  {
    assert ([a] + p)[1..] == p;
    x := MatchLands([a] + p, s, i);
  }

  /** A run of key characters stops at the first dot. */
  lemma SameDot(s: string, x: nat, d: nat, e: nat)
    requires x <= d < |s| && x <= e < |s| && s[d] == '.' && s[e] == '.'
    requires AllIn(KeyChar, s, x, d) && AllIn(KeyChar, s, x, e)
    ensures d == e
  {
    assert !InClass(KeyChar, '.');
    hide InClass;
  }

  lemma LastSegment(m: string, x: nat, j: nat)
    requires x <= |m| && AllIn(KeyChar, m, x, |m|) && AtBoundary(m, |m|)
    requires MatchAt([Run(KeyChar, 10, None)] + [Boundary], m, x) == Some(j)
    ensures j == |m|
  {
    var p: Pattern := [Run(KeyChar, 10, None)] + [Boundary];
    assert p[1..] == [Boundary];
    WholeRun(m, x);
    GreedyTakesTheLastBoundary(p, 10, |m|, m, x);
  }

  lemma WholeRun(m: string, x: nat)
    requires x <= |m| && AllIn(KeyChar, m, x, |m|)
    ensures RunEnd(KeyChar, None, m, x) == |m|
  {
  }

  lemma SomeMatch(k: nat, m: string) returns (j: nat)
    requires k < 8 && IsSecret(k, m, 0, |m|)
    ensures j <= |m| && MatchAt(PatternAt(k), m, 0) == Some(j) && IsSecret(k, m, 0, j)
  {
    hide PatternAt, Spells, IsSecret;
    SecretsAreSpelled(k, m, 0, |m|);
    MatchIsComplete(PatternAt(k), m, 0, |m|);
    j := MatchAt(PatternAt(k), m, 0).value;
    MatchIsSound(PatternAt(k), m, 0);
    SecretsAreSpelled(k, m, 0, j);
  }

  lemma WholeKey(m: string, j: nat, cls: Class, head: nat)
    requires head <= j <= |m| && (j == |m| || !InClass(cls, m[j])) && Only(RangeOf(cls), m, head, |m|)
    ensures j == |m|
  {
    ClassIsRange(cls, m, head, |m|);
  }

  // ---------------------------------------------------------------- and what becomes of it

  /** No secret starts inside the tag of an earlier kind. */
  lemma LaterKindsMissTheTag(q: nat, k: nat)
    requires k < q < 8
    ensures Free(PatternAt(q), TagOf(k))
  {
    hide PatternAt, Spells, IsSecret, TagOf;
    forall i: nat, j: nat ensures !Spells(PatternAt(q), TagOf(k), i, j) {
      SecretsAreSpelled(q, TagOf(k), i, j);
      TagHoldsNone(q, k, i, j);
    }
  }

  lemma TagHoldsNone(q: nat, k: nat, i: nat, j: nat)
    requires k < q < 8
    ensures !IsSecret(q, TagOf(k), i, j)
  {
    var t := TagOf(k);
    TagsAreReplacements(k);
    ReplacementShape(k);
    KindStarts(q, t, i, j);
    hide TagOf, IsSecret, RuleAt;
    if i < |t| {
      ReplacementLetters(k, i);
      if i + 1 < |t| { ReplacementLetters(k, i + 1); }
    }
  }

  lemma KindStarts(q: nat, t: string, i: nat, j: nat)
    requires 0 < q < 8
    ensures IsSecret(q, t, i, j) ==> i < |t|
    ensures IsSecret(q, t, i, j) && q < 4 ==> t[i] == 's'
    ensures IsSecret(q, t, i, j) && q == 4 ==> i + 1 < |t| && t[i] == 'A' && t[i + 1] in {'K', 'S'}
    ensures IsSecret(q, t, i, j) && q == 5 ==> i + 1 < |t| && t[i] == 'e' && t[i + 1] == 'y'
    ensures IsSecret(q, t, i, j) && q == 6 ==> t[i] == 'b' || t[i] == 'B'
    ensures IsSecret(q, t, i, j) && q == 7 ==> i + 32 <= |t|
  {
    if i < |t| { TextStarts(t, i); }
    hide WordEdge;
  }

  /** The first characters of a literal text at i. */
  lemma TextStarts(t: string, i: nat)
    requires i < |t|
    ensures Reads("sk-", t, i) || Reads("sk-ant-", t, i) || Reads("sk-or-", t, i) ==> t[i] == 's'
    ensures Reads("AKIA", t, i) || Reads("ASIA", t, i) ==> i + 1 < |t| && t[i] == 'A' && t[i + 1] in {'K', 'S'}
    ensures Reads("eyJ", t, i) ==> i + 1 < |t| && t[i] == 'e' && t[i + 1] == 'y'
    ensures ReadsAnyCase("bearer", "BEARER", t, i) ==> t[i] == 'b' || t[i] == 'B'
  {
    if ReadsAnyCase("bearer", "BEARER", t, i) { assert t[i + 0] == "bearer"[0] || t[i + 0] == "BEARER"[0]; }
    if Reads("sk-", t, i) { assert t[i..i + 3][0] == 's'; }
    if Reads("sk-ant-", t, i) { assert t[i..i + 7][0] == 's'; }
    if Reads("sk-or-", t, i) { assert t[i..i + 6][0] == 's'; }
    if Reads("AKIA", t, i) { assert t[i..i + 4][0] == 'A' && t[i..i + 4][1] == 'K'; }
    if Reads("ASIA", t, i) { assert t[i..i + 4][0] == 'A' && t[i..i + 4][1] == 'S'; }
    if Reads("eyJ", t, i) { assert t[i..i + 3][0] == 'e' && t[i..i + 3][1] == 'y'; }
  }

  lemma {:induction false} EarlierKindsPass(n: nat, m: string)
    requires n <= 8 && forall k: nat :: k < n ==> Free(PatternAt(k), m)
    ensures ScrubUpTo(n, m) == m
    decreases n
  {
    hide PatternAt, RuleAt, Free;
    if n > 0 {
      EarlierKindsPass(n - 1, m);
      NothingToReplace(PatternAt(n - 1), RuleAt(n - 1).Replacement(), m, 0);
    }
  }

  lemma {:induction false} TagStays(n: nat, k: nat, m: string)
    requires k < n <= 8 && ScrubUpTo(k + 1, m) == TagOf(k)
    ensures ScrubUpTo(n, m) == TagOf(k)
    decreases n
  {
    hide PatternAt, RuleAt, Free, TagOf;
    if n > k + 1 {
      TagStays(n - 1, k, m);
      LaterKindsMissTheTag(n - 1, k);
      NothingToReplace(PatternAt(n - 1), RuleAt(n - 1).Replacement(), TagOf(k), 0);
    }
  }

  /** A message that is one secret, and holds none of an earlier kind, becomes the tag of its kind. */
  lemma OneSecretBecomesItsTag(k: nat, m: string)
    requires k < 8 && IsSecret(k, m, 0, |m|) && HoldsNone(k, m)
    ensures Scrubbed(m) == TagOf(k)
  {
    HoldsNoneIsFree(k, m);
    WholeSecretIsMatched(k, m);
    SecretIsNotEmpty(k, m);
    TagsAreReplacements(k);
    hide PatternAt, RuleAt, Free, TagOf, IsSecret, HoldsNone, MatchAt;
    EarlierKindsPass(k, m);
    var r := RuleAt(k).Replacement();
    assert ReplaceFrom(PatternAt(k), r, m, |m|) == "";
    assert ReplaceFrom(PatternAt(k), r, m, 0) == r + "";
    TagStays(8, k, m);
  }

  lemma SecretIsNotEmpty(k: nat, m: string)
    requires k < 8 && IsSecret(k, m, 0, |m|)
    ensures m != ""
  {
  }
}
