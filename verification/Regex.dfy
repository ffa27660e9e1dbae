/**
 The part of ECMAScript regular expressions the repository uses (section 22.2 of ECMA-262, no `u`, no `m` flag):
 sequences of word boundaries, ordered literal alternatives, and greedy runs of a character class.
 `Spells` says which spans a pattern describes; `MatchAt` is the backtracking matcher, which commits to one.
 */
module Regex {
  import opened Wrappers

  datatype Class =
    | Alnum           // [A-Za-z0-9]
    | KeyChar         // [A-Za-z0-9_\-]
    | StarKeyChar     // [A-Za-z0-9*_\-]
    | BearerChar      // [A-Za-z0-9_.\-]
    | UpperOrDigit    // [0-9A-Z]
    | HexAnyCase      // [a-f0-9] under the i flag
    | Dot             // \.
    | Space           // \s

  datatype Atom =
    | Boundary                                     // \b
    | Word(alternatives: seq<string>, fold: bool)  // (?:a|b), under the i flag when fold
    | Run(cls: Class, min: nat, max: Option<nat>)  // greedy c{min,max}

  type Pattern = seq<Atom>

  predicate IsUpper(c: char) { 'A' <= c <= 'Z' }

  predicate IsAlnum(c: char) { IsUpper(c) || 'a' <= c <= 'z' || '0' <= c <= '9' }

  predicate IsWordChar(c: char) { IsAlnum(c) || c == '_' }

  predicate IsSpace(c: char) {
    || '\t' <= c <= '\r' || c == ' ' || c == '\U{A0}' || c == '\U{1680}' || '\U{2000}' <= c <= '\U{200A}'
    || c == '\U{2028}' || c == '\U{2029}' || c == '\U{202F}' || c == '\U{205F}' || c == '\U{3000}' || c == '\U{FEFF}'
  }

  predicate InClass(cls: Class, c: char) {
    match cls
    case Alnum => IsAlnum(c)
    case KeyChar => IsWordChar(c) || c == '-'
    case StarKeyChar => IsWordChar(c) || c == '-' || c == '*'
    case BearerChar => IsWordChar(c) || c == '-' || c == '.'
    case UpperOrDigit => IsUpper(c) || '0' <= c <= '9'
    case HexAnyCase => '0' <= c <= '9' || 'a' <= c <= 'f' || 'A' <= c <= 'F'
    case Dot => c == '.'
    case Space => IsSpace(c)
  }

  function ToUpper(c: char): char {
    if 'a' <= c <= 'z' then c - 'a' + 'A' else c
  }

  predicate SameChar(fold: bool, c: char, d: char) {
    c == d || (fold && ToUpper(c) == ToUpper(d))
  }

  predicate WordCharAt(s: string, i: int) {
    0 <= i < |s| && IsWordChar(s[i])
  }

  predicate AtBoundary(s: string, i: int) {
    WordCharAt(s, i - 1) != WordCharAt(s, i)
  }

  predicate WordAt(w: string, fold: bool, s: string, i: nat) {
    i + |w| <= |s| && forall k :: 0 <= k < |w| ==> SameChar(fold, w[k], s[i + k])
  }

  predicate AllIn(cls: Class, s: string, i: nat, j: nat) {
    i <= j <= |s| && forall k :: i <= k < j ==> InClass(cls, s[k])
  }

  // ---------------------------------------------------------------- what a pattern describes

  ghost predicate Spans(a: Atom, s: string, i: nat, m: nat) {
    match a
    case Boundary => i == m <= |s| && AtBoundary(s, i)
    case Word(ws, fold) => i <= m && exists w <- ws :: m == i + |w| && WordAt(w, fold, s, i)
    case Run(c, min, max) => i + min <= m && (max.Some? ==> m <= i + max.value) && AllIn(c, s, i, m)
  }

  ghost predicate Spells(p: Pattern, s: string, i: nat, j: nat)
    decreases |p|
  {
    if p == [] then i == j <= |s|
    else exists m: nat :: Spans(p[0], s, i, m) && Spells(p[1..], s, m, j)
  }

  /** No span of the text matches the pattern. */
  ghost predicate Free(p: Pattern, s: string) {
    forall i: nat, j: nat :: !Spells(p, s, i, j)
  }

  lemma {:induction false} SpellsForward(p: Pattern, s: string, i: nat, j: nat)
    requires Spells(p, s, i, j)
    ensures i <= j <= |s|
    decreases |p|
  {
    if p != [] {
      var m: nat :| Spans(p[0], s, i, m) && Spells(p[1..], s, m, j);
      SpellsForward(p[1..], s, m, j);
    }
  }

  // ---------------------------------------------------------------- the matcher

  /** How far a greedy run can go. */
  function RunEnd(c: Class, max: Option<nat>, s: string, i: nat): (e: nat)
    requires i <= |s|
    ensures AllIn(c, s, i, e) && (max.Some? ==> e <= i + max.value)
    ensures e == |s| || !InClass(c, s[e]) || max == Some(e - i)
    decreases |s| - i
  {
    if i == |s| || max == Some(0) || !InClass(c, s[i]) then i
    else RunEnd(c, if max.Some? then Some(max.value - 1) else None, s, i + 1)
  }

  function MatchAt(p: Pattern, s: string, i: nat): (r: Option<nat>)
    requires i <= |s|
    ensures r.Some? ==> i <= r.value <= |s|
    decreases |p|, 0, 0
  {
    if p == [] then Some(i)
    else match p[0]
      case Boundary => if AtBoundary(s, i) then MatchAt(p[1..], s, i) else None
      case Word(ws, fold) => MatchWord(p, ws, fold, s, i)
      case Run(c, min, max) => MatchRun(p, min, RunEnd(c, max, s, i), s, i)
  }

  /** Tries the alternatives in order. */
  function MatchWord(p: Pattern, ws: seq<string>, fold: bool, s: string, i: nat): (r: Option<nat>)
    requires i <= |s| && p != []
    ensures r.Some? ==> i <= r.value <= |s|
    decreases |p| - 1, 1, |ws|
  {
    if ws == [] then None
    else
      var first := if WordAt(ws[0], fold, s, i) then MatchAt(p[1..], s, i + |ws[0]|) else None;
      if first.Some? then first else MatchWord(p, ws[1..], fold, s, i)
  }

  /** Tries the longest run first and gives characters back one at a time. */
  function MatchRun(p: Pattern, min: nat, e: nat, s: string, i: nat): (r: Option<nat>)
    requires i <= e <= |s| && p != []
    ensures r.Some? ==> i <= r.value <= |s|
    decreases |p| - 1, 1, e
  {
    if e < i + min then None
    else
      var first := MatchAt(p[1..], s, e);
      if first.Some? then first
      else if e == i then None
      else MatchRun(p, min, e - 1, s, i)
  }

  // ---------------------------------------------------------------- the matcher finds exactly the described spans

  lemma {:induction false} MatchIsSound(p: Pattern, s: string, i: nat)
    requires i <= |s| && MatchAt(p, s, i).Some?
    ensures Spells(p, s, i, MatchAt(p, s, i).value)
    decreases |p|
  {
    if p != [] {
      var m := MatchLands(p, s, i);
      MatchIsSound(p[1..], s, m);
    }
  }

  /** Where the first atom of a match ends. */
  lemma MatchLands(p: Pattern, s: string, i: nat) returns (m: nat)
    requires i <= |s| && p != [] && MatchAt(p, s, i).Some?
    ensures i <= m <= |s| && Spans(p[0], s, i, m) && MatchAt(p[1..], s, m) == MatchAt(p, s, i)
  {
    match p[0]
    case Boundary => m := i;
    case Word(ws, fold) =>
      var w := WordLands(p, ws, fold, s, i);
      m := i + |w|;
    case Run(c, min, max) => m := RunLands(p, min, RunEnd(c, max, s, i), s, i);
  }

  lemma {:induction false} WordLands(p: Pattern, ws: seq<string>, fold: bool, s: string, i: nat) returns (w: string)
    requires i <= |s| && p != [] && MatchWord(p, ws, fold, s, i).Some?
    ensures w in ws && WordAt(w, fold, s, i) && MatchAt(p[1..], s, i + |w|) == MatchWord(p, ws, fold, s, i)
    decreases |ws|
  {
    if WordAt(ws[0], fold, s, i) && MatchAt(p[1..], s, i + |ws[0]|).Some? {
      w := ws[0];
    } else {
      w := WordLands(p, ws[1..], fold, s, i);
    }
  }

  lemma {:induction false} RunLands(p: Pattern, min: nat, e: nat, s: string, i: nat) returns (m: nat)
    requires i <= e <= |s| && p != [] && MatchRun(p, min, e, s, i).Some?
    ensures i + min <= m <= e && MatchAt(p[1..], s, m) == MatchRun(p, min, e, s, i)
    decreases e
  {
    if MatchAt(p[1..], s, e).Some? {
      m := e;
    } else {
      m := RunLands(p, min, e - 1, s, i);
    }
  }

  lemma {:induction false} MatchIsComplete(p: Pattern, s: string, i: nat, j: nat)
    requires i <= |s| && Spells(p, s, i, j)
    ensures MatchAt(p, s, i).Some?
    decreases |p|
  {
    if p != [] {
      var m: nat :| Spans(p[0], s, i, m) && Spells(p[1..], s, m, j);
      SpellsForward(p[1..], s, m, j);
      MatchIsComplete(p[1..], s, m, j);
      match p[0]
      case Boundary =>
      case Word(ws, fold) =>
        var w :| w in ws && m == i + |w| && WordAt(w, fold, s, i);
        SomeWordMatches(p, ws, fold, s, i, w);
      case Run(c, min, max) =>
        SomeRunMatches(p, min, RunEnd(c, max, s, i), s, i, m);
    }
  }

  lemma {:induction false} SomeWordMatches(p: Pattern, ws: seq<string>, fold: bool, s: string, i: nat, w: string)
    requires i <= |s| && p != [] && w in ws && WordAt(w, fold, s, i) && MatchAt(p[1..], s, i + |w|).Some?
    ensures MatchWord(p, ws, fold, s, i).Some?
    decreases |ws|
  {
    if ws[0] != w { SomeWordMatches(p, ws[1..], fold, s, i, w); }
  }

  /** The matcher commits to the longest run after which the rest of the pattern matches. */
  lemma {:induction false} SomeRunMatches(p: Pattern, min: nat, e: nat, s: string, i: nat, m: nat)
    requires i + min <= m <= e <= |s| && p != [] && MatchAt(p[1..], s, m).Some?
    ensures MatchRun(p, min, e, s, i).Some?
    ensures exists k :: m <= k <= e && MatchAt(p[1..], s, k) == MatchRun(p, min, e, s, i)
    decreases e
  {
    if MatchAt(p[1..], s, e).None? { SomeRunMatches(p, min, e - 1, s, i, m); }
  }

  /** The last atoms of a pattern decide where a match ends. */
  lemma {:induction false} MatchEndsWithItsSuffix(p: Pattern, n: nat, s: string, i: nat) returns (m: nat)
    requires i <= |s| && n <= |p| && MatchAt(p, s, i).Some?
    ensures i <= m <= |s| && MatchAt(p[n..], s, m) == MatchAt(p, s, i)
    decreases n
  {
    if n == 0 {
      m := i;
      assert p[0..] == p;
    } else {
      assert p[1..][n - 1..] == p[n..];
      var k := MatchLands(p, s, i);
      m := MatchEndsWithItsSuffix(p[1..], n - 1, s, k);
    }
  }

  // ---------------------------------------------------------------- replace with the g flag

  /** String.prototype.replace from position i: every match is looked for in the original text. */
  function ReplaceFrom(p: Pattern, r: string, s: string, i: nat): string
    requires i <= |s|
    decreases |s| - i
  {
    if i == |s| then ""
    else match MatchAt(p, s, i)
      case Some(j) => if j > i then r + ReplaceFrom(p, r, s, j) else r + [s[i]] + ReplaceFrom(p, r, s, i + 1)
      case None => [s[i]] + ReplaceFrom(p, r, s, i + 1)
  }

  function ReplaceAll(p: Pattern, r: string, s: string): string {
    ReplaceFrom(p, r, s, 0)
  }

  lemma {:induction false} NothingToReplace(p: Pattern, r: string, s: string, i: nat)
    requires i <= |s| && Free(p, s)
    ensures ReplaceFrom(p, r, s, i) == s[i..]
    decreases |s| - i
  {
    if i < |s| {
      if MatchAt(p, s, i).Some? { MatchIsSound(p, s, i); }
      NothingToReplace(p, r, s, i + 1);
    }
  }
}
