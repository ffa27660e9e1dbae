/**
 What the flattening verdict of `Spdx` means for the expression a text stands for. `Tree` is that expression
 with the parentheses and gaps it is printed with; `Layout` is the printed text with its parentheses blanked.
 */
module SpdxMeaning {
  import opened Wrappers
  import opened Regex
  import opened Spdx

  // ---------------------------------------------------------------- expressions and their printed form

  datatype Tree =
    | Leaf(id: string)
    | Paren(open: string, inner: Tree, close: string)
    | Node(left: Tree, before: string, op: string, after: string, right: Tree)

  predicate AllSpace(s: string) { forall i :: 0 <= i < |s| ==> IsSpace(s[i]) }

  predicate IsOperator(op: string) { Upper(op) == "AND" || Upper(op) == "OR" }

  /** An operator as a word of its own, after the start. */
  predicate InnerOperator(s: string, m: nat) {
    && 0 < m < |s| && IsSpace(s[m - 1]) && OperatorAt(s, m) > 0
    && (m + OperatorAt(s, m) < |s| ==> IsSpace(s[m + OperatorAt(s, m)]))
  }

  /** A license name may hold spaces, but no parentheses, no outer space and no operator of its own. */
  ghost predicate IsId(s: string) {
    && s != "" && !IsSpace(s[0]) && !IsSpace(s[|s| - 1]) && '(' !in s && ')' !in s
    && forall m: nat :: !InnerOperator(s, m)
  }

  predicate EndsInParen(t: Tree) {
    match t
    case Leaf(_) => false
    case Paren(_, _, _) => true
    case Node(_, _, _, _, r) => EndsInParen(r)
  }

  predicate StartsInParen(t: Tree) {
    match t
    case Leaf(_) => false
    case Paren(_, _, _) => true
    case Node(l, _, _, _, _) => StartsInParen(l)
  }

  /** An operator is set off by white space or a parenthesis on either side. */
  ghost predicate IsPrintable(t: Tree) {
    match t
    case Leaf(id) => IsId(id)
    case Paren(g, u, h) => AllSpace(g) && AllSpace(h) && IsPrintable(u)
    case Node(l, g, op, h, r) =>
      && IsPrintable(l) && IsPrintable(r) && AllSpace(g) && AllSpace(h) && IsOperator(op)
      && (g != "" || EndsInParen(l)) && (h != "" || StartsInParen(r))
  }

  function Print(t: Tree): string {
    match t
    case Leaf(id) => id
    case Paren(g, u, h) => "(" + g + Print(u) + h + ")"
    case Node(l, g, op, h, r) => Print(l) + g + op + h + Print(r)
  }

  function Leaves(t: Tree): seq<string> {
    match t
    case Leaf(id) => [id]
    case Paren(_, u, _) => Leaves(u)
    case Node(l, _, _, _, r) => Leaves(l) + Leaves(r)
  }

  function Operators(t: Tree): seq<string> {
    match t
    case Leaf(_) => []
    case Paren(_, u, _) => Operators(u)
    case Node(l, _, op, _, r) => Operators(l) + [Upper(op)] + Operators(r)
  }

  predicate Good(c: string, allow: set<string>, deny: set<string>) { c in allow && c !in deny }

  /** The expression with each license read as "allowed and not denied". */
  predicate Holds(t: Tree, allow: set<string>, deny: set<string>) {
    match t
    case Leaf(id) => Good(id, allow, deny)
    case Paren(_, u, _) => Holds(u, allow, deny)
    case Node(l, _, op, _, r) =>
      if Upper(op) == "OR" then Holds(l, allow, deny) || Holds(r, allow, deny)
      else Holds(l, allow, deny) && Holds(r, allow, deny)
  }

  // ---------------------------------------------------------------- the printed form without its parentheses

  /** Names with the operators between them and the white space around each. */
  datatype Layout =
    | Last(pre: string, leaf: string, post: string)
    | More(pre: string, leaf: string, gap: string, op: string, rest: Layout)

  function Render(l: Layout): string {
    match l
    case Last(pre, leaf, post) => pre + leaf + post
    case More(pre, leaf, gap, op, rest) => pre + leaf + gap + op + Render(rest)
  }

  function Post(l: Layout): string {
    if l.Last? then l.post else Post(l.rest)
  }

  function WithPre(l: Layout, g: string): Layout {
    match l
    case Last(_, leaf, post) => Last(g, leaf, post)
    case More(_, leaf, gap, op, rest) => More(g, leaf, gap, op, rest)
  }

  function WithPost(l: Layout, h: string): Layout {
    match l
    case Last(pre, leaf, _) => Last(pre, leaf, h)
    case More(pre, leaf, gap, op, rest) => More(pre, leaf, gap, op, WithPost(rest, h))
  }

  function Joined(l: Layout, g: string, op: string, r: Layout): Layout {
    match l
    case Last(pre, leaf, post) => More(pre, leaf, post + g, op, r)
    case More(pre, leaf, gap, o, rest) => More(pre, leaf, gap, o, Joined(rest, g, op, r))
  }

  function Tokens(l: Layout): seq<string> {
    if l.Last? then [l.leaf] else [l.leaf, l.op] + Tokens(l.rest)
  }

  ghost predicate Proper(l: Layout) {
    && AllSpace(l.pre) && IsId(l.leaf)
    && match l
       case Last(_, _, post) => AllSpace(post)
       case More(_, _, gap, op, rest) => AllSpace(gap) && gap != "" && IsOperator(op) && rest.pre != "" && Proper(rest)
  }

  function LayoutOf(t: Tree): Layout {
    match t
    case Leaf(id) => Last("", id, "")
    case Paren(g, u, h) =>
      var l := LayoutOf(u);
      WithPost(WithPre(l, " " + g + l.pre), Post(l) + h + " ")
    case Node(l, g, op, h, r) =>
      var right := LayoutOf(r);
      Joined(LayoutOf(l), g, op, WithPre(right, h + right.pre))
  }

  lemma BlankOfTwo(s: string, t: string)
    ensures Blank(s + t) == Blank(s) + Blank(t)
  {
  }

  lemma BlankIsSame(s: string)
    requires '(' !in s && ')' !in s
    ensures Blank(s) == s
  {
  }

  lemma SpaceHasNoParens(s: string)
    requires AllSpace(s)
    ensures '(' !in s && ')' !in s
  {
  }

  lemma OperatorHasNoParens(op: string)
    requires IsOperator(op)
    ensures '(' !in op && ')' !in op
  {
    assert |op| == |Upper(op)|;
    forall i | 0 <= i < |op| ensures op[i] != '(' && op[i] != ')' {
      assert Upper(op)[i] == ToUpper(op[i]);
    }
  }

  lemma {:induction false} RenderWithPre(l: Layout, g: string)
    ensures Render(WithPre(l, g + l.pre)) == g + Render(l)
    ensures Proper(l) && AllSpace(g) ==> Proper(WithPre(l, g + l.pre))
    ensures WithPre(l, g + l.pre).pre == g + l.pre && Tokens(WithPre(l, g + l.pre)) == Tokens(l)
        && Post(WithPre(l, g + l.pre)) == Post(l)
  {
    match l
    case Last(pre, leaf, post) =>
      assert (g + pre) + leaf + post == g + (pre + leaf + post);
    case More(pre, leaf, gap, op, rest) =>
      assert (g + pre) + leaf + gap + op + Render(rest) == g + (pre + leaf + gap + op + Render(rest));
  }

  lemma {:induction false} RenderWithPost(l: Layout, h: string)
    ensures Render(WithPost(l, Post(l) + h)) == Render(l) + h
    ensures Proper(l) && AllSpace(h) ==> Proper(WithPost(l, Post(l) + h))
    ensures WithPost(l, Post(l) + h).pre == l.pre && Tokens(WithPost(l, Post(l) + h)) == Tokens(l)
    ensures Post(WithPost(l, Post(l) + h)) == Post(l) + h
  {
    match l
    case Last(pre, leaf, post) =>
      assert pre + leaf + (post + h) == (pre + leaf + post) + h;
    case More(pre, leaf, gap, op, rest) =>
      RenderWithPost(rest, h);
      var front := pre + leaf + gap + op;
      assert front + (Render(rest) + h) == (front + Render(rest)) + h;
  }

  lemma {:induction false} RenderJoined(l: Layout, g: string, op: string, r: Layout)
    ensures Render(Joined(l, g, op, r)) == Render(l) + g + op + Render(r)
    ensures Joined(l, g, op, r).pre == l.pre && Post(Joined(l, g, op, r)) == Post(r)
    ensures Tokens(Joined(l, g, op, r)) == Tokens(l) + [op] + Tokens(r)
  {
    match l
    case Last(pre, leaf, post) =>
      assert pre + leaf + (post + g) + op + Render(r) == (pre + leaf + post) + g + op + Render(r);
    case More(pre, leaf, gap, o, rest) =>
      RenderJoined(rest, g, op, r);
      var front := pre + leaf + gap + o;
      assert front + (Render(rest) + g + op + Render(r)) == (front + Render(rest)) + g + op + Render(r);
  }

  lemma {:induction false} JoinedIsProper(l: Layout, g: string, op: string, r: Layout)
    requires Proper(l) && Proper(r) && AllSpace(g) && IsOperator(op) && Post(l) + g != "" && r.pre != ""
    ensures Proper(Joined(l, g, op, r))
  {
    if l.More? {
      JoinedIsProper(l.rest, g, op, r);
      RenderJoined(l.rest, g, op, r);
    }
  }

  /** A printed expression with its parentheses blanked is its layout, and the layout keeps names and operators
      in order. */
  lemma {:induction false} PrintedIsItsLayout(t: Tree)
    requires IsPrintable(t)
    ensures Blank(Print(t)) == Render(LayoutOf(t)) && Proper(LayoutOf(t))
    ensures StartsInParen(t) ==> LayoutOf(t).pre != ""
    ensures EndsInParen(t) ==> Post(LayoutOf(t)) != ""
  {
    match t
    case Leaf(id) =>
      BlankIsSame(id);
    case Paren(g, u, h) =>
      PrintedIsItsLayout(u);
      ParenIsItsLayout(g, u, h);
    case Node(l, g, op, h, r) =>
      PrintedIsItsLayout(l);
      PrintedIsItsLayout(r);
      NodeIsItsLayout(l, g, op, h, r);
  }

  lemma ParenIsItsLayout(g: string, u: Tree, h: string)
    requires AllSpace(g) && AllSpace(h) && Blank(Print(u)) == Render(LayoutOf(u)) && Proper(LayoutOf(u))
    ensures var t := Paren(g, u, h);
            && Blank(Print(t)) == Render(LayoutOf(t)) && Proper(LayoutOf(t))
            && LayoutOf(t).pre != "" && Post(LayoutOf(t)) != ""
  {
    hide Proper, Blank;
    var l := LayoutOf(u);
    RenderWithPre(l, " " + g);
    RenderWithPost(WithPre(l, " " + g + l.pre), h + " ");
    assert Post(l) + (h + " ") == Post(l) + h + " ";
    SpaceHasNoParens(g); SpaceHasNoParens(h); BlankIsSame(g); BlankIsSame(h);
    BlankOfParens();
    BlankOfTwo("(" + g + Print(u) + h, ")");
    BlankOfTwo("(" + g + Print(u), h);
    BlankOfTwo("(" + g, Print(u));
    BlankOfTwo("(", g);
    assert Blank(Print(Paren(g, u, h))) == " " + g + Render(l) + h + " ";
  }

  lemma BlankOfParens()
    ensures Blank("(") == " " && Blank(")") == " "
  {
  }

  lemma NodeIsItsLayout(l: Tree, g: string, op: string, h: string, r: Tree)
    requires AllSpace(g) && AllSpace(h) && IsOperator(op)
    requires Blank(Print(l)) == Render(LayoutOf(l)) && Proper(LayoutOf(l)) && (g != "" || Post(LayoutOf(l)) != "")
    requires Blank(Print(r)) == Render(LayoutOf(r)) && Proper(LayoutOf(r)) && (h != "" || LayoutOf(r).pre != "")
    ensures var t := Node(l, g, op, h, r);
            && Blank(Print(t)) == Render(LayoutOf(t)) && Proper(LayoutOf(t))
            && LayoutOf(t).pre == LayoutOf(l).pre && Post(LayoutOf(t)) == Post(LayoutOf(r))
  {
    hide Proper, Blank, AllSpace, IsOperator;
    var left, right := LayoutOf(l), LayoutOf(r);
    RenderWithPre(right, h);
    RenderJoined(left, g, op, WithPre(right, h + right.pre));
    JoinedIsProper(left, g, op, WithPre(right, h + right.pre));
    BlankOfNode(Print(l), g, op, h, Print(r));
    Regroup(Render(left) + g + op, h, Render(right));
  }

  lemma Regroup(a: string, b: string, c: string)
    ensures a + (b + c) == a + b + c
  {
  }

  lemma BlankOfNode(l: string, g: string, op: string, h: string, r: string)
    requires AllSpace(g) && AllSpace(h) && IsOperator(op)
    ensures Blank(l + g + op + h + r) == Blank(l) + g + op + h + Blank(r)
  {
    hide Blank;
    SpaceHasNoParens(g); SpaceHasNoParens(h); OperatorHasNoParens(op);
    BlankIsSame(g); BlankIsSame(h); BlankIsSame(op);
    BlankOfTwo(l + g + op + h, r);
    BlankOfTwo(l + g + op, h);
    BlankOfTwo(l + g, op);
    BlankOfTwo(l, g);
  }

  // ---------------------------------------------------------------- trimming

  lemma {:induction false} TrimStartSkips(w: string, s: string)
    requires AllSpace(w)
    ensures TrimStart(w + s) == TrimStart(s)
    decreases |w|
  {
    if w == "" {
      assert w + s == s;
    } else {
      assert (w + s)[1..] == w[1..] + s;
      TrimStartSkips(w[1..], s);
    }
  }

  lemma {:induction false} TrimEndSkips(s: string, w: string)
    requires AllSpace(w)
    ensures TrimEnd(s + w) == TrimEnd(s)
    decreases |w|
  {
    if w == "" {
      assert s + w == s;
    } else {
      assert (s + w)[..|s + w| - 1] == s + w[..|w| - 1];
      TrimEndSkips(s, w[..|w| - 1]);
    }
  }

  lemma {:induction false} TrimSkipsEnd(s: string, w: string)
    requires AllSpace(w)
    ensures Trim(s + w) == Trim(s)
    decreases |s|
  {
    if s == "" {
      assert s + w == w && w + "" == w;
      TrimStartSkips(w, "");
    } else if IsSpace(s[0]) {
      assert (s + w)[1..] == s[1..] + w;
      TrimSkipsEnd(s[1..], w);
    } else {
      TrimEndSkips(s, w);
    }
  }

  lemma TrimSkips(w: string, s: string, w': string)
    requires AllSpace(w) && AllSpace(w')
    ensures Trim(w + s + w') == Trim(s)
  {
    TrimSkipsEnd(w + s, w');
    TrimStartSkips(w, s);
  }

  /** A layout that starts and ends with a name cannot be trimmed. */
  lemma {:induction false} EndsAreNames(l: Layout)
    requires Proper(l) && Post(l) == ""
    ensures Render(l) != "" && !IsSpace(Render(l)[|Render(l)| - 1])
    ensures l.pre == "" ==> Render(l)[0] == l.leaf[0]
  {
    if l.More? { EndsAreNames(l.rest); }
  }

  lemma CleanOfLayout(l: Layout)
    requires Proper(l)
    ensures Trim(Render(l)) == Render(WithPost(WithPre(l, ""), "")) && Proper(WithPost(WithPre(l, ""), ""))
  {
    var bare := WithPost(WithPre(l, ""), "");
    assert l.pre + "" == l.pre;
    Bared(l);
    EndsAreNames(bare);
    TrimSkips(l.pre, Render(bare), Post(l));
  }

  lemma {:induction false} Bared(l: Layout)
    requires Proper(l)
    ensures var bare := WithPost(WithPre(l, ""), "");
            && Render(l) == l.pre + Render(bare) + Post(l) && Proper(bare) && AllSpace(Post(l)) && Post(bare) == ""
                && bare.pre == ""
            && Tokens(bare) == Tokens(l)
  {
    var front := WithPre(l, "");
    RenderWithPre(front, l.pre);
    assert WithPre(front, l.pre + "") == l by { assert l.pre + "" == l.pre; }
    Unposted(front);
    assert Render(l) == l.pre + Render(front);
    assert l.pre + (Render(WithPost(front, "")) + Post(l)) == l.pre + Render(WithPost(front, "")) + Post(l);
  }

  lemma {:induction false} Unposted(l: Layout)
    requires Proper(l)
    ensures var bare := WithPost(l, "");
            && Render(l) == Render(bare) + Post(l) && Proper(bare) && AllSpace(Post(l)) && Post(bare) == ""
                && bare.pre == l.pre
            && Tokens(bare) == Tokens(l)
  {
    if l.More? {
      Unposted(l.rest);
      var front := l.pre + l.leaf + l.gap + l.op;
      assert front + (Render(WithPost(l.rest, "")) + Post(l)) == front + Render(WithPost(l.rest, "")) + Post(l);
    } else {
      assert l.pre + l.leaf + l.post == (l.pre + l.leaf + "") + l.post;
    }
  }

  // ---------------------------------------------------------------- splitting

  /** No separator starts inside a name. */
  lemma NoSeparatorInside(id: string, tail: string, q: nat)
    requires IsId(id) && q < |id| && (tail == "" || IsSpace(tail[0]))
    ensures MatchAt(SEPARATOR, id + tail, q).None?
  {
    var s := id + tail;
    var m := RunEnd(Space, None, s, q);
    SeparatorMatch(s, q);
    if m > q && OperatorAt(s, m) > 0 && RunEnd(Space, None, s, m + OperatorAt(s, m)) > m + OperatorAt(s, m) {
      InsideTheName(id, tail, q, m);
    }
  }

  lemma InsideTheName(id: string, tail: string, q: nat, m: nat)
    requires IsId(id) && q < |id| && (tail == "" || IsSpace(tail[0]))
    requires q < m <= |id + tail| && AllIn(Space, id + tail, q, m)
    requires OperatorAt(id + tail, m) > 0
    requires m + OperatorAt(id + tail, m) < |id + tail| ==> IsSpace((id + tail)[m + OperatorAt(id + tail, m)])
    ensures InnerOperator(id, m)
  {
    var s := id + tail;
    var n := OperatorAt(s, m);
    assert !IsSpace(s[|id| - 1]);
    assert m < |id|;
    if m + n > |id| { OperatorIsLetters(s, m, |id| - m); }
    assert s[m - 1] == id[m - 1];
    SameOperator(id, tail, m);
    if m + n < |id| { assert s[m + n] == id[m + n]; }
  }

  lemma SameOperator(s: string, tail: string, m: nat)
    requires m + OperatorAt(s + tail, m) <= |s|
    ensures OperatorAt(s, m) == OperatorAt(s + tail, m)
  {
    WordInPrefix("AND", s, tail, m);
    WordInPrefix("OR", s, tail, m);
  }

  lemma WordInPrefix(w: string, s: string, tail: string, m: nat)
    ensures WordAt(w, true, s, m) <==> m + |w| <= |s| && WordAt(w, true, s + tail, m)
  {
    if m + |w| <= |s| {
      forall k | 0 <= k < |w| ensures SameChar(true, w[k], s[m + k]) == SameChar(true, w[k], (s + tail)[m + k]) {}
    }
  }

  lemma {:induction false} FirstSeparatorIs(s: string, q: nat, k: nat)
    requires q <= k < |s| && (forall i :: q <= i < k ==> MatchAt(SEPARATOR, s, i).None?)
        && MatchAt(SEPARATOR, s, k).Some?
    ensures FirstSeparator(s, q) == Some(k)
    decreases k - q
  {
    if q < k { FirstSeparatorIs(s, q + 1, k); }
  }

  lemma {:induction false} NoSeparator(s: string, q: nat)
    requires q <= |s| && forall i :: q <= i < |s| ==> MatchAt(SEPARATOR, s, i).None?
    ensures FirstSeparator(s, q).None?
    decreases |s| - q
  {
    if q < |s| { NoSeparator(s, q + 1); }
  }

  lemma {:induction false} SplitOfLayout(l: Layout)
    requires Proper(l) && l.pre == "" && Post(l) == ""
    ensures Split(Render(l)) == Tokens(l)
    decreases |Tokens(l)|
  {
    hide Split, IsId, AllSpace, IsOperator;
    match l
    case Last(pre, leaf, post) =>
      assert "" + leaf + "" == leaf;
      SplitOfName(leaf);
    case More(pre, leaf, gap, op, rest) =>
      RestOfLayout(rest);
      SplitOfLayout(WithPre(rest, ""));
      FirstOfLayout(leaf, gap, op, rest.pre, Render(WithPre(rest, "")));
      assert "" + leaf == leaf;
      Regroup(leaf + gap + op, rest.pre, Render(WithPre(rest, "")));
  }

  lemma SplitOfName(id: string)
    requires IsId(id)
    ensures Split(id) == [id]
  {
    assert id == id + "";
    forall q | 0 <= q < |id| ensures MatchAt(SEPARATOR, id, q).None? { NoSeparatorInside(id, "", q); }
    NoSeparator(id, 0);
  }

  lemma RestOfLayout(l: Layout)
    requires Proper(l) && Post(l) == ""
    ensures var rest := WithPre(l, "");
            && Render(l) == l.pre + Render(rest) && Proper(rest) && rest.pre == "" && Post(rest) == ""
                && Tokens(rest) == Tokens(l)
            && Render(rest) != "" && !IsSpace(Render(rest)[0])
  {
    var rest := WithPre(l, "");
    RenderWithPre(rest, l.pre);
    assert WithPre(rest, l.pre + "") == l by { assert l.pre + "" == l.pre; }
    EndsAreNames(rest);
  }

  lemma FirstOfLayout(id: string, gap: string, op: string, gap': string, rest: string)
    requires IsId(id) && AllSpace(gap) && gap != "" && IsOperator(op) && AllSpace(gap') && gap' != ""
    requires rest != "" && !IsSpace(rest[0])
    ensures var s := id + gap + op + gap' + rest;
            Split(s) == [id, op] + Split(rest)
  {
    hide IsId, IsOperator, IsSpace, MatchAt, Captured;
    var s := id + gap + op + gap' + rest;
    var tail := gap + (op + gap' + rest);
    TailsAreSuffixes(id, gap, op, gap', rest);
    assert tail[0] == gap[0];
    forall q | 0 <= q < |id| ensures MatchAt(SEPARATOR, s, q).None? { NoSeparatorInside(id, tail, q); }
    SeparatorThere(id, gap, op, gap', rest);
    FirstSeparatorIs(s, 0, |id|);
  }

  /** Where the parts of a text begin. */
  lemma TailsAreSuffixes(id: string, gap: string, op: string, gap': string, rest: string)
    ensures var s := id + gap + op + gap' + rest;
            && s == id + (gap + (op + gap' + rest)) && s == (id + gap) + op + (gap' + rest)
            && s[..|id|] == id && s[|id + gap + op + gap'|..] == rest && s[|id + gap|..|id + gap + op|] == op
            && s[|id|..|id + gap|] == gap && s[|id + gap + op|..|id + gap + op + gap'|] == gap'
  {
  }

  lemma SpaceBetween(s: string, i: nat, e: nat)
    requires i <= e <= |s| && AllSpace(s[i..e])
    ensures AllIn(Space, s, i, e)
  {
    forall k | i <= k < e ensures IsSpace(s[k]) { assert s[k] == s[i..e][k - i]; }
  }

  lemma SeparatorThere(id: string, gap: string, op: string, gap': string, rest: string)
    requires AllSpace(gap) && gap != "" && IsOperator(op) && AllSpace(gap') && gap' != ""
    requires rest != "" && !IsSpace(rest[0])
    ensures var s := id + gap + op + gap' + rest;
            && MatchAt(SEPARATOR, s, |id|) == Some(|id + gap + op + gap'|) && Captured(s, |id|) == op
  {
    hide IsSpace, MatchAt, OperatorAt, AllSpace, IsOperator;
    var s := id + gap + op + gap' + rest;
    var m, e := |id + gap|, |id + gap + op + gap'|;
    TailsAreSuffixes(id, gap, op, gap', rest);
    OperatorIsThere(id + gap, op, gap' + rest);
    assert s[m] == op[0] && s[e] == rest[0];
    SpaceBetween(s, |id|, m);
    SpaceBetween(s, m + |op|, e);
    RunEndIs(s, |id|, m);
    RunEndIs(s, m + |op|, e);
    SeparatorMatch(s, |id|);
  }

  lemma OperatorIsThere(front: string, op: string, back: string)
    requires IsOperator(op)
    ensures OperatorAt(front + op + back, |front|) == |op| > 0 && !IsSpace(op[0])
  {
    var s, m := front + op + back, |front|;
    var w := Upper(op);
    assert |w| == |op|;
    forall k | 0 <= k < |w| ensures SameChar(true, w[k], s[m + k]) {
      assert s[m + k] == op[k] && w[k] == ToUpper(op[k]);
    }
    assert WordAt(w, true, s, m);
    if w == "OR" && WordAt("AND", true, s, m) {
      assert SameChar(true, "AND"[0], s[m + 0]) && SameChar(true, "OR"[0], s[m + 0]);
    }
    OperatorIsLetters(s, m, 0);
  }

  // ---------------------------------------------------------------- what the verdict means

  function UpperOperators(l: Layout): seq<string> {
    if l.Last? then [] else [Upper(l.op)] + UpperOperators(l.rest)
  }

  function Names(l: Layout): seq<string> {
    if l.Last? then [l.leaf] else [l.leaf] + Names(l.rest)
  }

  lemma {:induction false} ReadingTokens(l: Layout)
    requires Proper(l)
    ensures ClausesOf(Tokens(l), true) == Names(l) && OperatorsOf(Tokens(l), true) == UpperOperators(l)
  {
    hide IsId, Upper;
    TrimOfId(l.leaf);
    if l.Last? {
      assert Tokens(l)[1..] == [];
    } else {
      ReadingTokens(l.rest);
      assert Tokens(l)[1..] == [l.op] + Tokens(l.rest);
      assert ([l.op] + Tokens(l.rest))[1..] == Tokens(l.rest);
    }
  }

  lemma TrimOfId(id: string)
    requires IsId(id)
    ensures Trim(id) == id
  {
  }

  lemma {:induction false} NamesOfTree(t: Tree)
    ensures Names(LayoutOf(t)) == Leaves(t) && UpperOperators(LayoutOf(t)) == Operators(t)
  {
    match t
    case Leaf(_) =>
    case Paren(g, u, h) =>
      NamesOfTree(u);
      var l := LayoutOf(u);
      NamesOfPadded(l, " " + g + l.pre, Post(l) + h + " ");
    case Node(l, g, op, h, r) =>
      NamesOfTree(l);
      NamesOfTree(r);
      var right := LayoutOf(r);
      NamesOfPadded(right, h + right.pre, Post(right));
      NamesOfJoined(LayoutOf(l), g, op, WithPre(right, h + right.pre));
  }

  lemma {:induction false} NamesOfPadded(l: Layout, g: string, h: string)
    ensures Names(WithPre(l, g)) == Names(l) && UpperOperators(WithPre(l, g)) == UpperOperators(l)
    ensures Names(WithPost(WithPre(l, g), h)) == Names(l)
        && UpperOperators(WithPost(WithPre(l, g), h)) == UpperOperators(l)
    ensures Names(WithPost(l, h)) == Names(l) && UpperOperators(WithPost(l, h)) == UpperOperators(l)
  {
    if l.More? { NamesOfPadded(l.rest, g, h); }
  }

  lemma {:induction false} NamesOfJoined(l: Layout, g: string, op: string, r: Layout)
    ensures Names(Joined(l, g, op, r)) == Names(l) + Names(r)
    ensures UpperOperators(Joined(l, g, op, r)) == UpperOperators(l) + [Upper(op)] + UpperOperators(r)
  {
    if l.More? {
      NamesOfJoined(l.rest, g, op, r);
      assert [l.leaf] + (Names(l.rest) + Names(r)) == ([l.leaf] + Names(l.rest)) + Names(r);
    }
  }

  /** The text is names and operators in turn, once its parentheses are blanked. */
  ghost predicate ReadsAs(s: string, l: Layout) {
    Blank(s) == Render(l) && Proper(l)
  }

  lemma SplittingRecoversTheLayout(s: string, l: Layout)
    requires ReadsAs(s, l)
    ensures var tokens := Split(Clean(s));
            ClausesOf(tokens, true) == Names(l) && OperatorsOf(tokens, true) == UpperOperators(l)
  {
    hide Proper, IsId;
    CleanOfLayout(l);
    Bared(l);
    var bare := WithPost(WithPre(l, ""), "");
    SplitOfLayout(bare);
    ReadingTokens(bare);
    NamesOfPadded(l, "", "");
  }

  /** Splitting a printed expression gives back its names and its operators, in order. */
  lemma SplittingRecoversTheTree(t: Tree)
    requires IsPrintable(t)
    ensures var tokens := Split(Clean(Print(t)));
            ClausesOf(tokens, true) == Leaves(t) && OperatorsOf(tokens, true) == Operators(t)
  {
    hide IsPrintable, Proper, IsId;
    PrintedIsItsLayout(t);
    SplittingRecoversTheLayout(Print(t), LayoutOf(t));
    NamesOfTree(t);
  }

  predicate AllAre(words: seq<string>, w: string) { forall x <- words :: x == w }

  predicate SomeGood(names: seq<string>, allow: set<string>, deny: set<string>) {
    exists c <- names :: Good(c, allow, deny)
  }

  predicate EveryGood(names: seq<string>, allow: set<string>, deny: set<string>) {
    forall c <- names :: Good(c, allow, deny)
  }

  predicate AllOr(t: Tree) { AllAre(Operators(t), "OR") }

  predicate AllAnd(t: Tree) { AllAre(Operators(t), "AND") }

  lemma AllAreInBoth(xs: seq<string>, x: string, ys: seq<string>, w: string)
    ensures AllAre(xs + [x] + ys, w) <==> AllAre(xs, w) && x == w && AllAre(ys, w)
  {
    assert x in xs + [x] + ys;
    assert forall y <- xs :: y in xs + [x] + ys;
    assert forall y <- ys :: y in xs + [x] + ys;
  }

  lemma GoodInBoth(xs: seq<string>, ys: seq<string>, allow: set<string>, deny: set<string>)
    ensures SomeGood(xs + ys, allow, deny) <==> SomeGood(xs, allow, deny) || SomeGood(ys, allow, deny)
    ensures EveryGood(xs + ys, allow, deny) <==> EveryGood(xs, allow, deny) && EveryGood(ys, allow, deny)
  {
    assert forall y <- xs :: y in xs + ys;
    assert forall y <- ys :: y in xs + ys;
  }

  lemma {:induction false} OneNameMoreThanOperators(t: Tree)
    ensures |Leaves(t)| == |Operators(t)| + 1
  {
    match t
    case Leaf(_) =>
    case Paren(_, u, _) => OneNameMoreThanOperators(u);
    case Node(l, _, _, _, r) => OneNameMoreThanOperators(l); OneNameMoreThanOperators(r);
  }

  /** An expression holds when every name is good; with OR alone one good name is enough, with AND alone every
      one is needed. */
  lemma {:induction false} HoldsByNames(t: Tree, allow: set<string>, deny: set<string>)
    ensures EveryGood(Leaves(t), allow, deny) ==> Holds(t, allow, deny)
    ensures AllOr(t) ==> (Holds(t, allow, deny) <==> SomeGood(Leaves(t), allow, deny))
    ensures AllAnd(t) ==> (Holds(t, allow, deny) <==> EveryGood(Leaves(t), allow, deny))
  {
    hide AllAre, SomeGood, EveryGood;
    match t
    case Leaf(id) =>
      OneName(id, allow, deny);
    case Paren(_, u, _) =>
      HoldsByNames(u, allow, deny);
    case Node(l, _, op, _, r) =>
      HoldsByNames(l, allow, deny);
      HoldsByNames(r, allow, deny);
      AllAreInBoth(Operators(l), Upper(op), Operators(r), "OR");
      AllAreInBoth(Operators(l), Upper(op), Operators(r), "AND");
      GoodInBoth(Leaves(l), Leaves(r), allow, deny);
  }

  lemma OneName(id: string, allow: set<string>, deny: set<string>)
    ensures SomeGood([id], allow, deny) == EveryGood([id], allow, deny) == Good(id, allow, deny)
  {
    assert id in [id];
  }

  lemma {:induction false} OneNameMore(l: Layout)
    ensures |Names(l)| == |UpperOperators(l)| + 1
  {
    if l.More? { OneNameMore(l.rest); }
  }

  /** All three verdicts, from the names and the operators of a text. */
  lemma VerdictOnLayout(s: string, l: Layout, allow: set<string>, deny: set<string>)
    requires ReadsAs(s, l)
    ensures var v, names := Evaluate(s, allow, deny), Names(l);
            var allOr := AllAre(UpperOperators(l), "OR");
            && (v == Okay <==> if allOr then SomeGood(names, allow, deny) else EveryGood(names, allow, deny))
            && (v == Denied <==> if allOr then forall c <- names :: c in deny else exists c <- names :: c in deny)
  {
    hide ReadsAs, Split, Clean;
    SplittingRecoversTheLayout(s, l);
    OneNameMore(l);
    if |Names(l)| == 1 {
      assert UpperOperators(l) == [];
      assert Names(l)[0] in Names(l);
      assert forall c <- Names(l) :: c == Names(l)[0];
    }
  }

  /** The verdict on a printed expression, from its names alone. */
  lemma VerdictOnTree(t: Tree, allow: set<string>, deny: set<string>)
    requires IsPrintable(t)
    ensures var v := Evaluate(Print(t), allow, deny);
            && (v == Okay <==> if AllOr(t) then SomeGood(Leaves(t), allow, deny) else EveryGood(Leaves(t), allow, deny))
            && (v == Denied <==>
                  if AllOr(t) then forall c <- Leaves(t) :: c in deny else exists c <- Leaves(t) :: c in deny)
  {
    PrintedIsItsLayout(t);
    NamesOfTree(t);
    hide IsPrintable, Evaluate, Proper, Print, Render;
    VerdictOnLayout(Print(t), LayoutOf(t), allow, deny);
  }

  /** "ok" is sound for every expression, and exact when its operators are all OR or all AND. In a mixed one it
      asks for every license, so it can refuse an expression that holds, never the other way round. */
  lemma OkayMeansItHolds(t: Tree, allow: set<string>, deny: set<string>)
    requires IsPrintable(t)
    ensures Evaluate(Print(t), allow, deny) == Okay ==> Holds(t, allow, deny)
    ensures AllOr(t) || AllAnd(t) ==> (Evaluate(Print(t), allow, deny) == Okay <==> Holds(t, allow, deny))
  {
    hide IsPrintable, Evaluate, Print, AllOr, AllAnd, SomeGood, EveryGood;
    VerdictOnTree(t, allow, deny);
    HoldsByNames(t, allow, deny);
  }

  // ---------------------------------------------------------------- when the verdict is exact

  /** The names without which the expression cannot hold: both sides' for an AND, those common to both for an OR. */
  function Needed(t: Tree): set<string> {
    match t
    case Leaf(id) => {id}
    case Paren(_, u, _) => Needed(u)
    case Node(l, _, op, _, r) => if Upper(op) == "OR" then Needed(l) * Needed(r) else Needed(l) + Needed(r)
  }

  predicate NeedsEveryName(t: Tree) { forall c <- Leaves(t) :: c in Needed(t) }

  lemma {:induction false} NeededIsGood(t: Tree, x: string, allow: set<string>, deny: set<string>)
    requires Holds(t, allow, deny) && x in Needed(t)
    ensures Good(x, allow, deny)
  {
    match t
    case Leaf(_) =>
    case Paren(_, u, _) => NeededIsGood(u, x, allow, deny);
    case Node(l, _, _, _, r) =>
      if Holds(l, allow, deny) && x in Needed(l) {
        NeededIsGood(l, x, allow, deny);
      } else {
        NeededIsGood(r, x, allow, deny);
      }
  }

  lemma {:induction false} HoldsWithoutTheRest(t: Tree, x: string, allow: set<string>)
    requires x !in Needed(t) && forall c <- Leaves(t) :: c == x || c in allow
    ensures Holds(t, allow, {})
  {
    match t
    case Leaf(id) => assert Leaves(t)[0] == id;
    case Paren(_, u, _) => HoldsWithoutTheRest(u, x, allow);
    case Node(l, _, _, _, r) =>
      assert forall c <- Leaves(l) :: c in Leaves(t);
      assert forall c <- Leaves(r) :: c in Leaves(t);
      if x !in Needed(l) { HoldsWithoutTheRest(l, x, allow); }
      if x !in Needed(r) { HoldsWithoutTheRest(r, x, allow); }
  }

  ghost predicate IsExact(t: Tree) {
    forall allow, deny :: Evaluate(Print(t), allow, deny) == Okay <==> Holds(t, allow, deny)
  }

  /** The exact condition, read from the text: the verdict is exact under all lists if and only if the operators are all
      OR or the expression needs every name in it. */
  lemma ExactIff(t: Tree)
    requires IsPrintable(t)
    ensures IsExact(t) <==> AllOr(t) || NeedsEveryName(t)
  {
    hide IsPrintable, Evaluate, Print, Holds, AllOr, Needed;
    if AllOr(t) || NeedsEveryName(t) {
      forall allow, deny ensures Evaluate(Print(t), allow, deny) == Okay <==> Holds(t, allow, deny) {
        OkayMeansItHolds(t, allow, deny);
        VerdictOnTree(t, allow, deny);
        if !AllOr(t) && Holds(t, allow, deny) {
          forall c | c in Leaves(t) ensures Good(c, allow, deny) { NeededIsGood(t, c, allow, deny); }
        }
      }
    } else {
      var x :| x in Leaves(t) && x !in Needed(t);
      var allow := (set c | c in Leaves(t)) - {x};
      HoldsWithoutTheRest(t, x, allow);
      VerdictOnTree(t, allow, {});
      assert !Good(x, allow, {});
      assert Evaluate(Print(t), allow, {}) != Okay && Holds(t, allow, {});
    }
  }

  predicate Distinct(names: seq<string>) {
    forall i, j :: 0 <= i < j < |names| ==> names[i] != names[j]
  }

  lemma {:induction false} NeededAreNames(t: Tree)
    ensures forall c <- Needed(t) :: c in Leaves(t)
  {
    match t
    case Leaf(_) =>
    case Paren(_, u, _) => NeededAreNames(u);
    case Node(l, _, _, _, r) => NeededAreNames(l); NeededAreNames(r);
  }

  lemma DistinctParts(xs: seq<string>, ys: seq<string>)
    requires Distinct(xs + ys)
    ensures Distinct(xs) && Distinct(ys) && forall c :: c in xs ==> c !in ys
  {
    var all := xs + ys;
    assert forall i :: 0 <= i < |ys| ==> all[|xs| + i] == ys[i];
    assert forall i :: 0 <= i < |xs| ==> all[i] == xs[i];
  }

  /** With distinct names every name is needed exactly when the operators are all AND. */
  lemma {:induction false} NeedsEveryNameIff(t: Tree)
    requires IsPrintable(t) && Distinct(Leaves(t))
    ensures NeedsEveryName(t) <==> AllAnd(t)
  {
    match t
    case Leaf(_) =>
    case Paren(_, u, _) => NeedsEveryNameIff(u);
    case Node(l, _, op, _, r) =>
      DistinctParts(Leaves(l), Leaves(r));
      NeededAreNames(l);
      NeededAreNames(r);
      NeedsEveryNameIff(l);
      NeedsEveryNameIff(r);
      AllAreInBoth(Operators(l), Upper(op), Operators(r), "AND");
      OneNameMoreThanOperators(l);
      assert Leaves(l)[0] in Leaves(l);
      hide AllAre, IsId, Distinct;
      assert forall c :: c in Leaves(t) <==> c in Leaves(l) || c in Leaves(r);
  }

  /** With distinct names the verdict is exact under all lists if and only if the text has only OR or only AND. */
  lemma ExactIffNotMixed(t: Tree)
    requires IsPrintable(t) && Distinct(Leaves(t))
    ensures IsExact(t) <==> AllOr(t) || AllAnd(t)
  {
    ExactIff(t);
    NeedsEveryNameIff(t);
  }

  /** (MIT OR GPL-3.0-only) AND ISC */
  function MixedExample(): Tree {
    Node(Paren("", Node(Leaf("MIT"), " ", "OR", " ", Leaf("GPL-3.0-only")), ""), " ", "AND", " ", Leaf("ISC"))
  }

  lemma MixedExampleIsPrintable()
    ensures IsPrintable(MixedExample())
  {
    assert Upper("OR") == "OR" && Upper("AND") == "AND";
    PlainName("MIT");
    PlainName("GPL-3.0-only");
    PlainName("ISC");
    hide IsId, Upper;
  }

  lemma MixedExamplePrints()
    ensures Print(MixedExample()) == "(MIT OR GPL-3.0-only) AND ISC"
  {
    assert "MIT" + " " + "OR" + " " + "GPL-3.0-only" == "MIT OR GPL-3.0-only";
    assert "(" + "" + "MIT OR GPL-3.0-only" + "" + ")" == "(MIT OR GPL-3.0-only)";
    assert "(MIT OR GPL-3.0-only)" + " " + "AND" + " " + "ISC" == "(MIT OR GPL-3.0-only) AND ISC";
  }

  /** An expression that holds and is refused: MIT and ISC are allowed, which is all it takes. */
  lemma MixedExpressionIsRefused()
    ensures Evaluate("(MIT OR GPL-3.0-only) AND ISC", {"MIT", "ISC"}, {"GPL-3.0-only"}) == Denied
    ensures Holds(MixedExample(), {"MIT", "ISC"}, {"GPL-3.0-only"})
  {
    MixedExampleIsPrintable();
    MixedExamplePrints();
    MixedExampleIsMixed();
    MixedExampleHolds();
    hide Evaluate, Print, IsPrintable, Leaves, AllOr, MixedExample, Holds;
    VerdictOnTree(MixedExample(), {"MIT", "ISC"}, {"GPL-3.0-only"});
  }

  lemma MixedExampleIsMixed()
    ensures "GPL-3.0-only" in Leaves(MixedExample()) && !AllOr(MixedExample())
  {
    var either := Paren("", Node(Leaf("MIT"), " ", "OR", " ", Leaf("GPL-3.0-only")), "");
    assert Upper("AND") == "AND";
    assert Leaves(either)[1] == "GPL-3.0-only";
    AllAreInBoth(Operators(either), "AND", Operators(Leaf("ISC")), "OR");
  }

  lemma MixedExampleHolds()
    ensures Holds(MixedExample(), {"MIT", "ISC"}, {"GPL-3.0-only"})
  {
    assert Upper("OR") == "OR" && Upper("AND") == "AND";
    var allow, deny := {"MIT", "ISC"}, {"GPL-3.0-only"};
    assert |"MIT"| == 3 && |"ISC"| == 3 && |"GPL-3.0-only"| == 12;
    assert "MIT" != "GPL-3.0-only" && "ISC" != "GPL-3.0-only";
    assert Good("MIT", allow, deny) && Good("ISC", allow, deny);
  }

  lemma PlainName(s: string)
    requires s != "" && forall c <- s :: IsAlnum(c) || c == '-' || c == '.'
    ensures IsId(s)
  {
    assert s[0] in s && s[|s| - 1] in s;
    forall m: nat ensures !InnerOperator(s, m) { if 0 < m < |s| { assert s[m - 1] in s; } }
  }

  // ---------------------------------------------------------------- the license field of a package

  datatype LicenseField = Absent | Text(s: string) | Object(typ: Option<string>, license: Option<string>) | Other

  /** A leading and a trailing parenthesis are dropped, whether or not they belong together. */
  function WithoutOuterParens(s: string): string {
    if s == "" then s
    else
      var a := if s[0] == '(' then 1 else 0;
      var b := if s[|s| - 1] == ')' then |s| - 1 else |s|;
      s[a..b]
  }

  function NormaliseLicense(raw: LicenseField): string {
    match raw
    case Absent => "UNKNOWN"
    case Text(s) => if s == "" then "UNKNOWN" else Trim(WithoutOuterParens(s))
    case Object(typ, license) => if typ.Some? then typ.value else if license.Some? then license.value else "UNKNOWN"
    case Other => "UNKNOWN"
  }

  lemma {:induction false} CleanIgnoresOuterSpace(s: string)
    ensures Clean(Trim(s)) == Clean(s)
  {
    var t := TrimStart(s);
    var w := TrimStartTakes(s);
    var w' := TrimEndTakes(t);
    BlankOfTwo(w, t);
    BlankOfTwo(TrimEnd(t), w');
    SpaceHasNoParens(w); BlankIsSame(w);
    SpaceHasNoParens(w'); BlankIsSame(w');
    TrimStartSkips(w, Blank(t));
    TrimSkipsEnd(Blank(TrimEnd(t)), w');
  }

  lemma {:induction false} TrimStartTakes(s: string) returns (w: string)
    ensures AllSpace(w) && s == w + TrimStart(s)
    decreases |s|
  {
    hide IsSpace;
    if s != "" && IsSpace(s[0]) {
      var rest := TrimStartTakes(s[1..]);
      w := [s[0]] + rest;
      assert s == [s[0]] + s[1..];
    } else {
      w := "";
    }
  }

  lemma {:induction false} TrimEndTakes(s: string) returns (w: string)
    ensures AllSpace(w) && s == TrimEnd(s) + w
    decreases |s|
  {
    hide IsSpace;
    if s != "" && IsSpace(s[|s| - 1]) {
      var rest := TrimEndTakes(s[..|s| - 1]);
      w := rest + [s[|s| - 1]];
      assert s == s[..|s| - 1] + [s[|s| - 1]];
    } else {
      w := "";
    }
  }

  /** White space around a text never changes the verdict. */
  lemma OuterSpaceDoesNotMatter(w: string, s: string, w': string, allow: set<string>, deny: set<string>)
    requires AllSpace(w) && AllSpace(w')
    ensures Evaluate(w + s + w', allow, deny) == Evaluate(s, allow, deny)
  {
    hide Blank, IsSpace;
    BlankOfTwo(w + s, w');
    BlankOfTwo(w, s);
    SpaceHasNoParens(w); BlankIsSame(w);
    SpaceHasNoParens(w'); BlankIsSame(w');
    TrimSkips(w, Blank(s), w');
  }

  /** Stripping the outer parentheses never changes the verdict; the empty text, which counts as no license, is judged
      as UNKNOWN. */
  lemma StrippingKeepsTheVerdict(s: string, allow: set<string>, deny: set<string>)
    ensures Evaluate(NormaliseLicense(Text(s)), allow, deny) == Evaluate(if s == "" then "UNKNOWN" else s, allow, deny)
  {
    if s != "" {
      var a := if s[0] == '(' then 1 else 0;
      var b := if s[|s| - 1] == ')' then |s| - 1 else |s|;
      CleanIgnoresOuterSpace(s[a..b]);
      StrippedIsBlanked(s, a, b);
      TrimSkips(Blank(s[..a]), Blank(s[a..b]), Blank(s[b..]));
    }
  }

  lemma StrippedIsBlanked(s: string, a: nat, b: nat)
    requires a <= b <= |s| && Blank(s[..a]) <= " " && Blank(s[b..]) <= " "
    ensures Blank(s) == Blank(s[..a]) + Blank(s[a..b]) + Blank(s[b..]) && AllSpace(Blank(s[..a]))
        && AllSpace(Blank(s[b..]))
  {
    assert s == s[..a] + s[a..b] + s[b..];
    BlankOfTwo(s[..a] + s[a..b], s[b..]);
    BlankOfTwo(s[..a], s[a..b]);
  }

  /** What a license field that is not a text counts as. */
  lemma FieldsThatAreNoTexts(typ: string, license: string)
    ensures NormaliseLicense(Object(Some(typ), Some(license))) == typ
    ensures NormaliseLicense(Object(Some(typ), None)) == typ
    ensures NormaliseLicense(Object(None, Some(license))) == license
    ensures NormaliseLicense(Object(None, None)) == "UNKNOWN" && NormaliseLicense(Absent) == "UNKNOWN"
    ensures NormaliseLicense(Other) == "UNKNOWN"
  {
  }

  /** The old licenses array: the entries that carry a type, as alternatives. */
  function ReadLegacyLicenses(types: seq<Option<string>>): Option<string> {
    var found := Present(types);
    if found == [] then None else Some(JoinedByOr(found))
  }

  function Present(types: seq<Option<string>>): seq<string> {
    if types == [] then [] else if types[0].Some? then [types[0].value] + Present(types[1..]) else Present(types[1..])
  }

  function JoinedByOr(names: seq<string>): string
    requires names != []
  {
    if |names| == 1 then names[0] else names[0] + " OR " + JoinedByOr(names[1..])
  }

  /** No entry with a type is no license text. */
  lemma NoLegacyEntries(types: seq<Option<string>>)
    ensures ReadLegacyLicenses(types).None? <==> forall t <- types :: t.None?
  {
    NonePresent(types);
  }

  lemma {:induction false} NonePresent(types: seq<Option<string>>)
    ensures Present(types) == [] <==> forall t <- types :: t.None?
    decreases |types|
  {
    if types != [] {
      NonePresent(types[1..]);
      assert types[0] in types && (types[0].Some? ==> |Present(types)| > 0);
      assert forall t :: t in types <==> t == types[0] || t in types[1..];
    }
  }

  /** The entries read as the layouts, one by one. */
  ghost predicate AllRead(texts: seq<string>, ls: seq<Layout>) {
    |texts| == |ls| && forall i :: 0 <= i < |ls| ==> ReadsAs(texts[i], ls[i])
  }

  /** The entries side by side. */
  function Alternatives(ls: seq<Layout>): Layout
    requires ls != []
  {
    if |ls| == 1 then ls[0]
    else
      var rest := Alternatives(ls[1..]);
      Joined(ls[0], " ", "OR", WithPre(rest, " " + rest.pre))
  }

  lemma OneMoreAlternative(s: string, l: Layout, t: string, r: Layout)
    requires ReadsAs(s, l) && ReadsAs(t, r)
    ensures var all := Joined(l, " ", "OR", WithPre(r, " " + r.pre));
            && ReadsAs(s + " OR " + t, all) && Names(all) == Names(l) + Names(r)
            && UpperOperators(all) == UpperOperators(l) + ["OR"] + UpperOperators(r)
  {
    assert Upper("OR") == "OR" && AllSpace(" ");
    hide Proper, Blank, AllSpace, Upper, Render, Joined, WithPre, Names, UpperOperators;
    var r' := WithPre(r, " " + r.pre);
    RenderWithPre(r, " ");
    JoinedIsProper(l, " ", "OR", r');
    RenderJoined(l, " ", "OR", r');
    NamesOfJoined(l, " ", "OR", r');
    NamesOfPadded(r, " " + r.pre, "");
    SpelledOr(s, t);
    BlankOfNode(s, " ", "OR", " ", t);
    Regroup(Render(l) + " " + "OR", " ", Render(r));
  }

  lemma SpelledOr(s: string, t: string)
    ensures s + " OR " + t == s + " " + "OR" + " " + t
  {
    assert " OR " == " " + "OR" + " ";
  }

  ghost predicate SomeOkay(texts: seq<string>, allow: set<string>, deny: set<string>) {
    exists s <- texts :: Evaluate(s, allow, deny) == Okay
  }

  predicate NoAnd(ls: seq<Layout>) { forall l <- ls :: AllAre(UpperOperators(l), "OR") }

  ghost predicate SomeName(ls: seq<Layout>, allow: set<string>, deny: set<string>) {
    exists l <- ls :: SomeGood(Names(l), allow, deny)
  }

  ghost predicate EveryName(ls: seq<Layout>, allow: set<string>, deny: set<string>) {
    forall l <- ls :: EveryGood(Names(l), allow, deny)
  }

  lemma {:induction false} AlternativesRead(texts: seq<string>, ls: seq<Layout>, allow: set<string>, deny: set<string>)
    requires ls != [] && AllRead(texts, ls)
    ensures var all := Alternatives(ls);
            && ReadsAs(JoinedByOr(texts), all) && (AllAre(UpperOperators(all), "OR") <==> NoAnd(ls))
            && (SomeGood(Names(all), allow, deny) <==> SomeName(ls, allow, deny))
            && (EveryGood(Names(all), allow, deny) <==> EveryName(ls, allow, deny))
    decreases |ls|
  {
    hide ReadsAs, AllAre, SomeGood, EveryGood;
    if |ls| == 1 {
      assert forall l <- ls :: l == ls[0];
    } else {
      AlternativesRead(texts[1..], ls[1..], allow, deny);
      var rest := Alternatives(ls[1..]);
      OneMoreAlternative(texts[0], ls[0], JoinedByOr(texts[1..]), rest);
      AllAreInBoth(UpperOperators(ls[0]), "OR", UpperOperators(rest), "OR");
      GoodInBoth(Names(ls[0]), Names(rest), allow, deny);
      assert forall l :: l in ls <==> l == ls[0] || l in ls[1..];
    }
  }

  /** A package with legacy entries passes only if one of them would pass on its own, and exactly then when no entry has
      an AND. The entries are any texts of names and operators in turn, with parentheses anywhere. */
  lemma LegacyEntriesAreAlternatives(types: seq<Option<string>>, ls: seq<Layout>, allow: set<string>, deny: set<string>)
    requires ls != [] && AllRead(Present(types), ls)
    ensures var text := ReadLegacyLicenses(types);
            && text.Some?
            && (Evaluate(text.value, allow, deny) == Okay ==> SomeOkay(Present(types), allow, deny))
            && (NoAnd(ls) ==> (Evaluate(text.value, allow, deny) == Okay <==> SomeOkay(Present(types), allow, deny)))
  {
    var texts := Present(types);
    AlternativesRead(texts, ls, allow, deny);
    hide ReadsAs, Evaluate, AllAre, SomeGood, EveryGood, Alternatives;
    VerdictOnLayout(JoinedByOr(texts), Alternatives(ls), allow, deny);
    forall i | 0 <= i < |ls|
      ensures Evaluate(texts[i], allow, deny) == Okay <==>
              if AllAre(UpperOperators(ls[i]), "OR") then SomeGood(Names(ls[i]), allow, deny)
              else EveryGood(Names(ls[i]), allow, deny)
    {
      VerdictOnLayout(texts[i], ls[i], allow, deny);
    }
  }
}
