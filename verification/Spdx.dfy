/**
 Judging SPDX license expressions by flattening them, as scripts/license-check.ts does. The allow list and the
 deny list are parameters.
 */
module Spdx {
  import opened Wrappers
  import opened Regex

  datatype Verdict = Okay | Denied | NotAllowed

  // ---------------------------------------------------------------- strings

  function TrimStart(s: string): string {
    if s != "" && IsSpace(s[0]) then TrimStart(s[1..]) else s
  }

  function TrimEnd(s: string): string {
    if s != "" && IsSpace(s[|s| - 1]) then TrimEnd(s[..|s| - 1]) else s
  }

  function Trim(s: string): string { TrimEnd(TrimStart(s)) }

  function Upper(s: string): string { seq(|s|, i requires 0 <= i < |s| => ToUpper(s[i])) }

  /** Every parenthesis becomes a space. */
  function Blank(s: string): string {
    seq(|s|, i requires 0 <= i < |s| => if s[i] == '(' || s[i] == ')' then ' ' else s[i])
  }

  function Clean(s: string): string { Trim(Blank(s)) }

  /** White space, then AND or OR in any case, then white space. */
  const SEPARATOR: Pattern := [Run(Space, 1, None), Word(["AND", "OR"], true), Run(Space, 1, None)]

  /** The length of the operator at i, or 0. */
  function OperatorAt(s: string, i: nat): nat {
    if WordAt("AND", true, s, i) then 3 else if WordAt("OR", true, s, i) then 2 else 0
  }

  function FirstSeparator(s: string, q: nat): (r: Option<nat>)
    requires q <= |s|
    ensures r.Some? ==> q <= r.value < |s| && MatchAt(SEPARATOR, s, r.value).Some?
    decreases |s| - q
  {
    if q == |s| then None
    else if MatchAt(SEPARATOR, s, q).Some? then Some(q)
    else FirstSeparator(s, q + 1)
  }

  /** What the pattern's group captures when a separator starts at q. */
  function Captured(s: string, q: nat): string
    requires q <= |s|
  {
    var m := RunEnd(Space, None, s, q);
    s[m..m + if m + OperatorAt(s, m) <= |s| then OperatorAt(s, m) else 0]
  }

  /** String.prototype.split with the captured operators kept; the pattern looks at nothing before its start. */
  function Split(s: string): seq<string>
    decreases |s|
  {
    match FirstSeparator(s, 0)
    case None => [s]
    case Some(q) =>
      var e := MatchAt(SEPARATOR, s, q).value;
      SeparatorMatch(s, q);
      [s[..q], Captured(s, q)] + Split(s[e..])
  }

  lemma RunEndIs(s: string, i: nat, e: nat)
    requires AllIn(Space, s, i, e) && (e == |s| || !IsSpace(s[e]))
    ensures RunEnd(Space, None, s, i) == e
  {
  }

  lemma OperatorIsLetters(s: string, m: nat, k: nat)
    requires k < OperatorAt(s, m)
    ensures m + k < |s| && !IsSpace(s[m + k])
  {
    var w := if WordAt("AND", true, s, m) then "AND" else "OR";
    assert WordAt(w, true, s, m) && k < |w|;
    assert SameChar(true, w[k], s[m + k]);
    assert w[k] in ['A', 'N', 'D', 'O', 'R'];
  }

  lemma {:induction false} OnlyTheWholeRun(s: string, i: nat, e: nat)
    requires i <= e < |s| && AllIn(Space, s, i, e + 1)
    ensures MatchRun(SEPARATOR, 1, e, s, i).None?
    decreases e
  {
    if OperatorAt(s, e) > 0 { OperatorIsLetters(s, e, 0); }
    NoOperatorNoMatch(s, e);
    if e > i { OnlyTheWholeRun(s, i, e - 1); }
  }

  lemma NoOperatorNoMatch(s: string, m: nat)
    requires m <= |s|
    ensures MatchAt(SEPARATOR[1..], s, m) ==
              var n := OperatorAt(s, m);
              if n == 0 then None
              else var e := RunEnd(Space, None, s, m + n); if e > m + n then Some(e) else None
  {
    var p := SEPARATOR[1..];
    assert p == [Word(["AND", "OR"], true), Run(Space, 1, None)];
    assert p[1..] == [Run(Space, 1, None)];
    TwoWords(p, "AND", "OR", s, m);
    if WordAt("AND", true, s, m) {
      LastRun(s, m + 3);
      assert SameChar(true, "AND"[0], s[m + 0]);
      assert !SameChar(true, "OR"[0], s[m + 0]);
    } else if WordAt("OR", true, s, m) {
      LastRun(s, m + 2);
    }
  }

  /** One alternative and what follows it. */
  function AfterWord(p: Pattern, w: string, s: string, m: nat): Option<nat>
    requires m <= |s| && p != []
  {
    if WordAt(w, true, s, m) then MatchAt(p[1..], s, m + |w|) else None
  }

  lemma TwoWords(p: Pattern, a: string, b: string, s: string, m: nat)
    requires m <= |s| && p != []
    ensures MatchWord(p, [a, b], true, s, m)
         == if AfterWord(p, a, s, m).Some? then AfterWord(p, a, s, m) else AfterWord(p, b, s, m)
  {
    FirstWord(p, [a, b], s, m);
    FirstWord(p, [b], s, m);
    hide AfterWord;
    assert [a, b][1..] == [b] && [b][1..] == [];
    assert MatchWord(p, [], true, s, m).None?;
  }

  lemma FirstWord(p: Pattern, ws: seq<string>, s: string, m: nat)
    requires m <= |s| && p != [] && ws != []
    ensures MatchWord(p, ws, true, s, m)
         == if AfterWord(p, ws[0], s, m).Some? then AfterWord(p, ws[0], s, m) else MatchWord(p, ws[1..], true, s, m)
  {
  }

  lemma LastRun(s: string, i: nat)
    requires i <= |s|
    ensures MatchAt([Run(Space, 1, None)], s, i) ==
              var e := RunEnd(Space, None, s, i); if e > i then Some(e) else None
  {
    var p: Pattern := [Run(Space, 1, None)];
    assert p[1..] == [];
  }

  /** What the separator matches: all the white space, an operator, and all the white space after it. */
  lemma SeparatorMatch(s: string, q: nat)
    requires q <= |s|
    ensures MatchAt(SEPARATOR, s, q) ==
              var m := RunEnd(Space, None, s, q);
              var n := OperatorAt(s, m);
              if m == q || n == 0 then None
              else var e := RunEnd(Space, None, s, m + n); if e > m + n then Some(e) else None
  {
    var m := RunEnd(Space, None, s, q);
    NoOperatorNoMatch(s, m);
    if m > q { OnlyTheWholeRun(s, q, m - 1); }
  }

  // ---------------------------------------------------------------- judging a text

  /** Tokens at even places are clauses, the others operators. */
  function ClausesOf(tokens: seq<string>, even: bool): seq<string> {
    if tokens == [] then [] else (if even then [Trim(tokens[0])] else []) + ClausesOf(tokens[1..], !even)
  }

  function OperatorsOf(tokens: seq<string>, even: bool): seq<string> {
    if tokens == [] then [] else (if even then [] else [Upper(tokens[0])]) + OperatorsOf(tokens[1..], !even)
  }

  function Judge(clauses: seq<string>, operators: seq<string>, allow: set<string>, deny: set<string>): Verdict {
    if |clauses| == 1 then
      if clauses[0] in deny then Denied else if clauses[0] in allow then Okay else NotAllowed
    else if forall op <- operators :: op == "OR" then
      if exists c <- clauses :: c in allow && c !in deny then Okay
      else if forall c <- clauses :: c in deny then Denied else NotAllowed
    else if exists c <- clauses :: c in deny then Denied
    else if forall c <- clauses :: c in allow then Okay else NotAllowed
  }

  function Evaluate(raw: string, allow: set<string>, deny: set<string>): Verdict {
    var tokens := Split(Clean(raw));
    Judge(ClausesOf(tokens, true), OperatorsOf(tokens, true), allow, deny)
  }

  lemma NextToken(tokens: seq<string>, i: nat, clauses: seq<string>, operators: seq<string>)
    requires i < |tokens|
    ensures i % 2 == 0 ==>
              && clauses + ClausesOf(tokens[i..], true)
                  == clauses + [Trim(tokens[i])] + ClausesOf(tokens[i + 1..], false)
              && OperatorsOf(tokens[i..], true) == OperatorsOf(tokens[i + 1..], false)
    ensures i % 2 == 1 ==>
              && operators + OperatorsOf(tokens[i..], false)
                  == operators + [Upper(tokens[i])] + OperatorsOf(tokens[i + 1..], true)
              && ClausesOf(tokens[i..], false) == ClausesOf(tokens[i + 1..], true)
  {
    hide Trim, Upper;
    assert tokens[i..][1..] == tokens[i + 1..];
  }

  method ReadTokens(tokens: seq<string>) returns (clauses: seq<string>, operators: seq<string>)
    ensures clauses == ClausesOf(tokens, true) && operators == OperatorsOf(tokens, true)
  {
    clauses, operators := [], [];
    var i := 0;
    while i < |tokens|
      invariant 0 <= i <= |tokens|
      invariant clauses + ClausesOf(tokens[i..], i % 2 == 0) == ClausesOf(tokens, true)
      invariant operators + OperatorsOf(tokens[i..], i % 2 == 0) == OperatorsOf(tokens, true)
    {
      NextToken(tokens, i, clauses, operators);
      if i % 2 == 0 {
        clauses := clauses + [Trim(tokens[i])];
      } else {
        operators := operators + [Upper(tokens[i])];
      }
      i := i + 1;
    }
    assert tokens[i..] == [];
  }

  method EvaluateLicense(raw: string, allow: set<string>, deny: set<string>) returns (v: Verdict)
    ensures v == Evaluate(raw, allow, deny)
  {
    var clauses, operators := ReadTokens(Split(Clean(raw)));
    if |clauses| == 1 {
      var c := clauses[0];
      if c in deny { return Denied; }
      if c in allow { return Okay; }
      return NotAllowed;
    }
    var allOr := forall op <- operators :: op == "OR";
    if allOr {
      if exists c <- clauses :: c in allow && c !in deny { return Okay; }
      if forall c <- clauses :: c in deny { return Denied; }
      return NotAllowed;
    }
    if exists c <- clauses :: c in deny { return Denied; }
    if forall c <- clauses :: c in allow { return Okay; }
    return NotAllowed;
  }
}
