/**
 The language of the line scanner: a line is accepted exactly when it derives
 from a grammar of nested quotes, backticks, `$( )`, `( )`, `{ }` and `${ }`, has
 no here-document and does not end in an operator or a backslash.
 */
module ScannerGrammar {
  import opened LineTypes
  import opened Scanner

  /** A piece of a line. */
  datatype Item =
    | Plain(c: char)
    | Escaped(c: char)
    | SingleQuoted(body: string)
    | AnsiQuoted(body: string)
    | Group(opener: Opener, items: seq<Item>)

  function Render(x: Item): string
    decreases x
  {
    match x
    case Plain(c) => [c]
    case Escaped(c) => ['\\', c]
    case SingleQuoted(body) => "'" + body + "'"
    case AnsiQuoted(body) => "$'" + body + "'"
    case Group(o, items) => OpenText(o) + RenderAll(items) + [Closer(KindOf(o))]
  }

  function RenderAll(items: seq<Item>): string
    decreases items
  {
    if items == [] then "" else Render(items[0]) + RenderAll(items[1..])
  }

  /** What a group looks like; `{` and `${` close alike, and so do `(` and `$(`. */
  lemma GroupText(items: seq<Item>)
    ensures Render(Group(OpenQuote, items)) == "\"" + RenderAll(items) + "\""
    ensures Render(Group(OpenBacktick, items)) == "`" + RenderAll(items) + "`"
    ensures Render(Group(OpenSub, items)) == "$(" + RenderAll(items) + ")"
    ensures Render(Group(OpenParen, items)) == "(" + RenderAll(items) + ")"
    ensures Render(Group(OpenBrace, items)) == "{" + RenderAll(items) + "}"
    ensures Render(Group(OpenDollarBrace, items)) == "${" + RenderAll(items) + "}"
  {
  }

  // ----- the grammar -----

  predicate Starts(s: string, c: char) {
    s != "" && s[0] == c
  }

  /** Backslashes come in pairs with the byte behind, and no quote stands alone. */
  predicate AnsiBody(body: string)
    decreases |body|
  {
    || body == ""
    || (body[0] == '\\' && |body| >= 2 && AnsiBody(body[2..]))
    || (body[0] != '\\' && body[0] != '\'' && AnsiBody(body[1..]))
  }

  /** Double quotes hold only substitutions, and a backtick inside backticks closes. */
  predicate MayOpen(o: Opener, ctx: Option<Kind>) {
    && (ctx == Some(DoubleQuote) ==> o == OpenBacktick || o == OpenSub || o == OpenDollarBrace)
    && !(o == OpenBacktick && ctx == Some(Backtick))
  }

  /** `x` may stand directly in context `ctx` (None is the top level). */
  predicate LegalItem(x: Item, ctx: Option<Kind>)
    decreases x, 0
  {
    match x
    case Plain(c) =>
      if ctx == Some(DoubleQuote) then c != '\\' && c != '"' && c != '`'
      else c != '\\' && c != '\'' && c != '"' && c != '`' && c != '(' && c != ')' && c != '{' && c != '}'
    case Escaped(c) => true
    case SingleQuoted(body) => ctx != Some(DoubleQuote) && '\'' !in body
    case AnsiQuoted(body) => ctx != Some(DoubleQuote) && AnsiBody(body)
    case Group(o, items) =>
      MayOpen(o, ctx) && Legal(items, Some(KindOf(o)))
  }

  /** A plain `$` does not open anything with what follows, and two plain `<` do
      not follow each other: no here-document. */
  predicate Apart(x: Item, follows: string, ctx: Option<Kind>) {
    && (x == Plain('$') ==>
          && !Starts(follows, '(') && !Starts(follows, '{')
          && (ctx == Some(DoubleQuote) || !Starts(follows, '\'')))
    && (x == Plain('<') && ctx != Some(DoubleQuote) ==> !Starts(follows, '<'))
  }

  predicate Legal(items: seq<Item>, ctx: Option<Kind>)
    decreases items, 1
  {
    items == [] ||
    (LegalItem(items[0], ctx) && Apart(items[0], RenderAll(items[1..]), ctx) && Legal(items[1..], ctx))
  }

  /** Without the plain blanks at the end. */
  function Core(items: seq<Item>): seq<Item> {
    if items != [] && items[|items| - 1].Plain? && Blank(items[|items| - 1].c) then Core(items[..|items| - 1])
    else items
  }

  /** How many plain `&` stand at the end. */
  function Ampersands(items: seq<Item>): nat {
    if items != [] && items[|items| - 1] == Plain('&') then Ampersands(items[..|items| - 1]) + 1 else 0
  }

  /** The line ends in `|`, `||` or `&&`, read from the left. */
  predicate TrailingOperator(items: seq<Item>) {
    OperatorLast(Core(items))
  }

  predicate OperatorLast(core: seq<Item>) {
    || (core != [] && core[|core| - 1] == Plain('|'))
    || (Ampersands(core) > 0 && Ampersands(core) % 2 == 0)
  }

  ghost predicate Derives(line: string, items: seq<Item>) {
    RenderAll(items) == line && Legal(items, None) && !TrailingOperator(items)
  }

  // ----- what is accepted derives -----

  function Context(stack: seq<Kind>, i: nat): Option<Kind>
    requires i <= |stack|
  {
    if i == 0 then None else Some(stack[i - 1])
  }

  /** The rest of a line inside the open contexts `stack`: the last list, its
      closing byte, the list before, and so on. */
  function Unwind(stack: seq<Kind>, lists: seq<seq<Item>>): string
    requires |lists| == |stack| + 1
  {
    var n := |stack|;
    RenderAll(lists[n]) + (if n == 0 then "" else [Closer(stack[n - 1])] + Unwind(stack[..n - 1], lists[..n]))
  }

  ghost predicate Completes(s: string, stack: seq<Kind>, lists: seq<seq<Item>>) {
    && |lists| == |stack| + 1
    && Unwind(stack, lists) == s
    && (forall i :: 0 <= i < |lists| ==> Legal(lists[i], Context(stack, i)))
  }

  lemma Extend(s: string, stack: seq<Kind>, lists: seq<seq<Item>>, x: Item) returns (more: seq<seq<Item>>)
    requires Completes(s, stack, lists)
    requires LegalItem(x, Top(stack)) && Apart(x, s, Top(stack))
    ensures Completes(Render(x) + s, stack, more)
  {
    var n := |stack|;
    more := lists[n := [x] + lists[n]];
    ExtendUnwinds(stack, lists, x);
    assert Legal(lists[n], Context(stack, n));
    UnwindFirst(stack, lists);
    ExtendIsLegal(x, lists[n], s, Context(stack, n));
    forall i | 0 <= i < |more| ensures Legal(more[i], Context(stack, i)) {
      assert Legal(lists[i], Context(stack, i));
    }
  }

  /** The last list is at the front of the rest. */
  lemma UnwindFirst(stack: seq<Kind>, lists: seq<seq<Item>>)
    requires |lists| == |stack| + 1
    ensures RenderAll(lists[|stack|]) <= Unwind(stack, lists)
  {
  }

  lemma ExtendUnwinds(stack: seq<Kind>, lists: seq<seq<Item>>, x: Item)
    requires |lists| == |stack| + 1
    ensures Unwind(stack, lists[|stack| := [x] + lists[|stack|]]) == Render(x) + Unwind(stack, lists)
  {
    var n := |stack|;
    var longer := [x] + lists[n];
    assert longer[1..] == lists[n];
    assert lists[n := longer][..n] == lists[..n];
    var below := if n == 0 then "" else [Closer(stack[n - 1])] + Unwind(stack[..n - 1], lists[..n]);
    assert Unwind(stack, lists) == RenderAll(lists[n]) + below;
    GroupAssoc3(Render(x), RenderAll(lists[n]), below);
  }

  lemma GroupAssoc3(a: string, b: string, c: string)
    ensures (a + b) + c == a + (b + c)
  {
  }

  lemma ExtendIsLegal(x: Item, items: seq<Item>, s: string, ctx: Option<Kind>)
    requires LegalItem(x, ctx) && Apart(x, s, ctx) && Legal(items, ctx) && RenderAll(items) <= s
    ensures Legal([x] + items, ctx)
  {
    assert ([x] + items)[1..] == items;
    assert RenderAll(items) != "" ==> RenderAll(items)[0] == s[0];
  }

  lemma Close(s: string, stack: seq<Kind>, lists: seq<seq<Item>>) returns (more: seq<seq<Item>>)
    requires stack != [] && Completes(s, stack[..|stack| - 1], lists)
    ensures Completes([Closer(stack[|stack| - 1])] + s, stack, more)
  {
    var n := |stack|;
    more := lists + [[]];
    assert more[..n] == lists;
    forall i | 0 <= i < |more| ensures Legal(more[i], Context(stack, i)) {
      if i < n {
        assert Legal(lists[i], Context(stack[..n - 1], i));
      }
    }
  }

  lemma Open(s: string, stack: seq<Kind>, o: Opener, lists: seq<seq<Item>>) returns (more: seq<seq<Item>>)
    requires Completes(s, stack + [KindOf(o)], lists)
    requires MayOpen(o, Top(stack))
    ensures Completes(OpenText(o) + s, stack, more)
  {
    var n := |stack|;
    var inner, outer := stack + [KindOf(o)], lists[..n + 1];
    var x := Group(o, lists[n + 1]);
    assert inner[..n] == stack;
    assert Completes(Unwind(stack, outer), stack, outer) by {
      forall i | 0 <= i < |outer| ensures Legal(outer[i], Context(stack, i)) {
        assert Legal(lists[i], Context(inner, i));
      }
    }
    assert Legal(lists[n + 1], Context(inner, n + 1));
    more := Extend(Unwind(stack, outer), stack, outer, x);
    assert Render(x) + Unwind(stack, outer) == OpenText(o) + s by {
      assert s == RenderAll(lists[n + 1]) + ([Closer(KindOf(o))] + Unwind(stack, outer));
    }
  }

  lemma {:induction false} SingleEndBody(s: string)
    requires SingleEnd(s) > 0
    ensures var n := SingleEnd(s); s[n - 1] == '\'' && '\'' !in s[..n - 1]
  {
    if s[0] != '\'' {
      SingleEndBody(s[1..]);
      var n := SingleEnd(s);
      assert s[..n - 1] == [s[0]] + s[1..][..n - 2];
    }
  }

  lemma {:induction false} AnsiEndBody(s: string)
    requires AnsiEnd(s) > 0
    ensures var n := AnsiEnd(s); s[n - 1] == '\'' && AnsiBody(s[..n - 1])
    decreases |s|
  {
    var n := AnsiEnd(s);
    if s[0] != '\'' {
      var step := if s[0] == '\\' then 2 else 1;
      AnsiEndBody(s[step..]);
      assert s[..n - 1][step..] == s[step..][..n - 1 - step];
    }
  }

  lemma TakenQuote(s: string, ctx: Option<Kind>) returns (x: Item)
    requires s != "" && s[0] == '\'' && ctx != Some(DoubleQuote) && SingleEnd(s[1..]) > 0
    ensures var n := SingleEnd(s[1..]) + 1;
            n <= |s| && Render(x) == s[..n] && LegalItem(x, ctx) && x.SingleQuoted?
  {
    var n := SingleEnd(s[1..]) + 1;
    SingleEndBody(s[1..]);
    x := SingleQuoted(s[1..][..n - 2]);
    assert s[..n] == [s[0]] + s[1..][..n - 2] + [s[1..][n - 2]];
  }

  lemma TakenAnsi(s: string, ctx: Option<Kind>) returns (x: Item)
    requires s != "" && s[0] == '$' && NextIs(s, '\'') && ctx != Some(DoubleQuote) && AnsiEnd(s[2..]) > 0
    ensures var n := AnsiEnd(s[2..]) + 2;
            n <= |s| && Render(x) == s[..n] && LegalItem(x, ctx) && x.AnsiQuoted?
  {
    var n := AnsiEnd(s[2..]) + 2;
    AnsiEndBody(s[2..]);
    x := AnsiQuoted(s[2..][..n - 3]);
    assert s[..n] == [s[0], s[1]] + s[2..][..n - 3] + [s[2..][n - 3]];
  }

  /** The item that a plain step of the scanner consumes. */
  lemma TakenItem(s: string, ctx: Option<Kind>) returns (x: Item)
    requires s != "" && Lex(s, ctx).Take?
    ensures var n := Lex(s, ctx).n;
            && n <= |s| && Render(x) == s[..n]
            && !x.Group? && LegalItem(x, ctx) && Apart(x, s[n..], ctx)
  {
    if s[0] == '\\' {
      x := Escaped(s[1]);
    } else if ctx != Some(DoubleQuote) && s[0] == '\'' {
      x := TakenQuote(s, ctx);
    } else if ctx != Some(DoubleQuote) && s[0] == '$' && NextIs(s, '\'') {
      x := TakenAnsi(s, ctx);
    } else {
      x := Plain(s[0]);
      assert s[..1] == [s[0]];
    }
  }

  /** One lexeme in front of a completed rest. */
  lemma Prepend(s: string, stack: seq<Kind>, rest: seq<seq<Item>>) returns (lists: seq<seq<Item>>)
    requires s != "" && !Lex(s, Top(stack)).Bad?
    requires var l := Lex(s, Top(stack));
             Width(l) <= |s| && (l.Pop? ==> stack != []) && Completes(s[Width(l)..], StackAfter(stack, l), rest)
    ensures Completes(s, stack, lists)
  {
    LexFits(s, Top(stack));
    var l := Lex(s, Top(stack));
    var n := Width(l);
    assert s == s[..n] + s[n..];
    if l.Take? {
      var x := TakenItem(s, Top(stack));
      lists := Extend(s[n..], stack, rest, x);
    } else if l.Push? {
      OpensLegally(s, Top(stack));
      lists := Open(s[n..], stack, l.opener, rest);
    } else if l.Pop? {
      lists := Close(s[n..], stack, rest);
      assert s[..1] == [s[0]];
    } else {
      lists := TakenOperator(s, stack, n, rest);
    }
  }

  lemma OpensLegally(s: string, ctx: Option<Kind>)
    requires s != "" && Lex(s, ctx).Push?
    ensures MayOpen(Lex(s, ctx).opener, ctx)
  {
  }

  lemma TakenOperator(s: string, stack: seq<Kind>, n: nat, rest: seq<seq<Item>>) returns (lists: seq<seq<Item>>)
    requires s != "" && Lex(s, Top(stack)) == Operator(n) && 1 <= n <= |s|
    requires Completes(s[n..], stack, rest)
    ensures Completes(s, stack, lists)
  {
    if n == 1 {
      lists := Extend(s[1..], stack, rest, Plain(s[0]));
    } else {
      var one := Extend(s[2..], stack, rest, Plain(s[1]));
      assert s[1..] == [s[1]] + s[2..];
      lists := Extend(s[1..], stack, one, Plain(s[0]));
    }
    assert s == [s[0]] + s[1..];
  }

  lemma {:induction false} AcceptedCompletes(s: string, stack: seq<Kind>, pos: nat, opEnd: int)
    returns (lists: seq<seq<Item>>)
    requires ScanFrom(s, stack, pos, opEnd).Done?
    ensures Completes(s, stack, lists)
    decreases |s|
  {
    if s == "" {
      lists := [[]];
    } else {
      LexFits(s, Top(stack));
      var l := Lex(s, Top(stack));
      var next := pos + Width(l);
      var rest := AcceptedCompletes(s[Width(l)..], StackAfter(stack, l), next, if l.Operator? then next else opEnd);
      lists := Prepend(s, stack, rest);
    }
  }

  // ----- what derives is accepted -----

  /** Text that cannot make the byte before it open anything. */
  predicate Harmless(tail: string) {
    !Starts(tail, '(') && !Starts(tail, '{') && !Starts(tail, '\'') && !Starts(tail, '<') && !Starts(tail, '&')
  }

  lemma {:induction false} SingleEndOf(body: string, rest: string)
    requires '\'' !in body
    ensures SingleEnd(body + "'" + rest) == |body| + 1
  {
    var s := body + "'" + rest;
    if body != "" {
      SingleEndOf(body[1..], rest);
      assert s[1..] == body[1..] + "'" + rest;
    }
  }

  lemma {:induction false} AnsiEndOf(body: string, rest: string)
    requires AnsiBody(body)
    ensures AnsiEnd(body + "'" + rest) == |body| + 1
    decreases |body|
  {
    var s := body + "'" + rest;
    if body != "" {
      var step := if body[0] == '\\' then 2 else 1;
      AnsiEndOf(body[step..], rest);
      assert s[step..] == body[step..] + "'" + rest;
    }
  }

  lemma SingleLexes(body: string, rest: string, ctx: Option<Kind>)
    requires ctx != Some(DoubleQuote) && '\'' !in body
    ensures Lex("'" + body + "'" + rest, ctx) == Take(|body| + 2)
  {
    var s := "'" + body + "'" + rest;
    SingleEndOf(body, rest);
    assert s[0] == '\'' && s[1..] == body + "'" + rest;
  }

  lemma {:induction false} AnsiLexes(s: string, body: string, rest: string, ctx: Option<Kind>)
    requires ctx != Some(DoubleQuote) && AnsiBody(body)
    requires |s| >= 2 && s[0] == '$' && s[1] == '\'' && s[2..] == body + "'" + rest
    ensures Lex(s, ctx) == Take(|body| + 3)
  {
    AnsiEndOf(body, rest);
  }

  lemma PlainLexes(c: char, rest: string, ctx: Option<Kind>)
    requires MayStand(Plain(c), rest, ctx)
    ensures Lex([c] + rest, ctx) == Take(1)
  {
    assert rest != "" ==> ([c] + rest)[1] == rest[0];
  }

  lemma EscapedLexes(c: char, rest: string, ctx: Option<Kind>)
    ensures Lex(['\\', c] + rest, ctx) == Take(2)
  {
  }

  /** An item that is no group is one lexeme. */
  lemma LeafLexes(x: Item, rest: string, ctx: Option<Kind>)
    requires !x.Group? && MayStand(x, rest, ctx)
    ensures Lex(Render(x) + rest, ctx) == Take(|Render(x)|)
  {
    match x
    case SingleQuoted(body) => SingleLexes(body, rest, ctx);
    case AnsiQuoted(body) =>
      GroupAssoc("$'", body, "'", rest);
      GroupAssoc3(body, "'", rest);
      AnsiLexes(Render(x) + rest, body, rest, ctx);
    case Escaped(c) => EscapedLexes(c, rest, ctx);
    case Plain(c) => PlainLexes(c, rest, ctx);
  }

  lemma OpenLexes(o: Opener, rest: string, ctx: Option<Kind>)
    requires MayOpen(o, ctx)
    ensures Lex(OpenText(o) + rest, ctx) == Push(o)
  {
  }

  lemma CloseLexes(k: Kind, rest: string)
    ensures Lex([Closer(k)] + rest, Some(k)) == Pop
  {
  }

  // The next lemmas are about any scanner `f` of the same shape: they use only
  // that it enters and leaves groups and takes leaves as it should.

  type Scanning = (string, seq<Kind>, nat, int) -> Scan

  ghost predicate Enters(f: Scanning) {
    forall o: Opener, rest: string, stack: seq<Kind>, pos: nat, opEnd: int :: MayOpen(o, Top(stack)) ==>
      f(OpenText(o) + rest, stack, pos, opEnd) == f(rest, stack + [KindOf(o)], pos + |OpenText(o)|, opEnd)
  }

  ghost predicate Leaves(f: Scanning) {
    forall k: Kind, rest: string, stack: seq<Kind>, pos: nat, opEnd: int ::
      f([Closer(k)] + rest, stack + [k], pos, opEnd) == f(rest, stack, pos + 1, opEnd)
  }

  /** An item in front of `follows` that is not an operator. */
  predicate MayStand(x: Item, follows: string, ctx: Option<Kind>) {
    && LegalItem(x, ctx) && Apart(x, follows, ctx)
    && (ctx == None ==> x != Plain('|') && (x == Plain('&') ==> !Starts(follows, '&')))
  }

  ghost predicate TakesLeaves(f: Scanning) {
    forall x: Item, rest: string, stack: seq<Kind>, pos: nat, opEnd: int ::
      !x.Group? && MayStand(x, rest, Top(stack)) ==>
        f(Render(x) + rest, stack, pos, opEnd) == f(rest, stack, pos + |Render(x)|, opEnd)
  }

  ghost predicate Regular(f: Scanning) {
    Enters(f) && Leaves(f) && TakesLeaves(f)
  }

  /** Inside the context `ctx`, and in front of `follows` and then any harmless
      text, the scanner takes `text` and comes back to the same stack. */
  ghost predicate Skips(f: Scanning, text: string, follows: string, ctx: Option<Kind>) {
    forall stack: seq<Kind>, tail: string, pos: nat, opEnd: int :: Top(stack) == ctx && Harmless(tail) ==>
      f(text + (follows + tail), stack, pos, opEnd) == f(follows + tail, stack, pos + |text|, opEnd)
  }

  lemma SkipsLeaf(f: Scanning, x: Item, follows: string, ctx: Option<Kind>)
    requires TakesLeaves(f) && !x.Group? && MayStand(x, follows, ctx)
    ensures Skips(f, Render(x), follows, ctx)
  {
    forall stack: seq<Kind>, tail: string, pos: nat, opEnd: int | Top(stack) == ctx && Harmless(tail)
      ensures f(Render(x) + (follows + tail), stack, pos, opEnd) == f(follows + tail, stack, pos + |Render(x)|, opEnd)
    {
      ApartAppend(x, follows, tail, ctx);
      StartsAppend(follows, tail, '&');
      assert MayStand(x, follows + tail, Top(stack));
    }
  }

  lemma StartsAppend(s: string, t: string, c: char)
    ensures Starts(s + t, c) ==> Starts(s, c) || Starts(t, c)
  {
    assert s == "" ==> s + t == t;
  }

  /** The case that nothing follows. */
  lemma UseSkips(f: Scanning, text: string, stack: seq<Kind>, tail: string, pos: nat, opEnd: int)
    requires Skips(f, text, "", Top(stack)) && Harmless(tail)
    ensures f(text + tail, stack, pos, opEnd) == f(tail, stack, pos + |text|, opEnd)
  {
    assert f(text + ("" + tail), stack, pos, opEnd) == f("" + tail, stack, pos + |text|, opEnd);
    assert "" + tail == tail;
  }

  lemma SkipsEmpty(f: Scanning, ctx: Option<Kind>)
    ensures Skips(f, "", "", ctx)
  {
    forall stack: seq<Kind>, tail: string, pos: nat, opEnd: int | Top(stack) == ctx && Harmless(tail)
      ensures f("" + ("" + tail), stack, pos, opEnd) == f("" + tail, stack, pos + |""|, opEnd)
    {
      assert "" + ("" + tail) == "" + tail;
    }
  }

  lemma SkipsConcat(f: Scanning, a: string, b: string, ctx: Option<Kind>)
    requires Skips(f, a, b, ctx) && Skips(f, b, "", ctx)
    ensures Skips(f, a + b, "", ctx)
  {
    forall stack: seq<Kind>, tail: string, pos: nat, opEnd: int | Top(stack) == ctx && Harmless(tail)
      ensures f((a + b) + ("" + tail), stack, pos, opEnd) == f("" + tail, stack, pos + |a + b|, opEnd)
    {
      assert "" + tail == tail;
      TextAssoc(a, b, tail);
      UseSkips(f, b, stack, tail, pos + |a|, opEnd);
    }
  }

  lemma ThroughGroup(f: Scanning, o: Opener, inside: string, rest: string, stack: seq<Kind>, pos: nat, opEnd: int)
    requires Enters(f) && Leaves(f) && Skips(f, inside, "", Some(KindOf(o))) && MayOpen(o, Top(stack))
    ensures f(OpenText(o) + (inside + ([Closer(KindOf(o))] + rest)), stack, pos, opEnd)
            == f(rest, stack, pos + |OpenText(o)| + |inside| + 1, opEnd)
  {
    var after, n := [Closer(KindOf(o))] + rest, pos + |OpenText(o)|;
    UseSkips(f, inside, stack + [KindOf(o)], after, n, opEnd);
  }

  lemma SkipsGroup(f: Scanning, o: Opener, inside: string, follows: string, ctx: Option<Kind>)
    requires Enters(f) && Leaves(f) && Skips(f, inside, "", Some(KindOf(o))) && MayOpen(o, ctx)
    ensures Skips(f, OpenText(o) + inside + [Closer(KindOf(o))], follows, ctx)
  {
    var text := OpenText(o) + inside + [Closer(KindOf(o))];
    forall stack: seq<Kind>, tail: string, pos: nat, opEnd: int | Top(stack) == ctx && Harmless(tail)
      ensures f(text + (follows + tail), stack, pos, opEnd) == f(follows + tail, stack, pos + |text|, opEnd)
    {
      ThroughGroup(f, o, inside, follows + tail, stack, pos, opEnd);
      GroupAssoc(OpenText(o), inside, [Closer(KindOf(o))], follows + tail);
    }
  }

  lemma GroupAssoc(a: string, b: string, c: string, d: string)
    ensures a + b + c + d == a + (b + (c + d))
  {
  }

  /** A legal item is skipped, at any depth. */
  lemma {:induction false} LegalItemSkips(f: Scanning, x: Item, follows: string, ctx: Option<Kind>)
    requires Regular(f) && MayStand(x, follows, ctx)
    ensures Skips(f, Render(x), follows, ctx)
    decreases x, 0
  {
    if x.Group? {
      LegalSkips(f, x.items, KindOf(x.opener));
      SkipsGroup(f, x.opener, RenderAll(x.items), follows, ctx);
    } else {
      SkipsLeaf(f, x, follows, ctx);
    }
  }

  lemma {:induction false} LegalSkips(f: Scanning, items: seq<Item>, k: Kind)
    requires Regular(f) && Legal(items, Some(k))
    ensures Skips(f, RenderAll(items), "", Some(k))
    decreases items, 1
  {
    if items == [] {
      SkipsEmpty(f, Some(k));
    } else {
      LegalItemSkips(f, items[0], RenderAll(items[1..]), Some(k));
      LegalSkips(f, items[1..], k);
      SkipsConcat(f, Render(items[0]), RenderAll(items[1..]), Some(k));
    }
  }

  /** One turn of `f` takes what the lexer says. */
  ghost predicate Turn(f: Scanning, s: string, stack: seq<Kind>, pos: nat, opEnd: int) {
    s != "" && !Lex(s, Top(stack)).Bad? ==>
      var l := Lex(s, Top(stack));
      && Width(l) <= |s| && (l.Pop? ==> stack != [])
      && f(s, stack, pos, opEnd)
         == f(s[Width(l)..], StackAfter(stack, l), pos + Width(l), if l.Operator? then pos + Width(l) else opEnd)
  }

  ghost predicate TakesTurns(f: Scanning) {
    forall s: string, stack: seq<Kind>, pos: nat, opEnd: int :: Turn(f, s, stack, pos, opEnd)
  }

  lemma ScanTakesTurns()
    ensures TakesTurns(ScanFrom)
  {
    forall s: string, stack: seq<Kind>, pos: nat, opEnd: int ensures Turn(ScanFrom, s, stack, pos, opEnd) {
      if s != "" && !Lex(s, Top(stack)).Bad? {
        ScanStep(s, stack, pos, opEnd);
      }
    }
  }

  lemma TurnTo(f: Scanning, s: string, l: Lexeme, rest: string, stack: seq<Kind>, pos: nat, opEnd: int)
    requires TakesTurns(f) && s != "" && Lex(s, Top(stack)) == l && !l.Bad? && (l.Pop? ==> stack != [])
    requires Width(l) <= |s| && s[Width(l)..] == rest
    ensures f(s, stack, pos, opEnd)
            == f(rest, StackAfter(stack, l), pos + Width(l), if l.Operator? then pos + Width(l) else opEnd)
  {
    assert Turn(f, s, stack, pos, opEnd);
  }

  lemma TurnEnters(f: Scanning, o: Opener, rest: string, stack: seq<Kind>, pos: nat, opEnd: int)
    requires TakesTurns(f) && MayOpen(o, Top(stack))
    ensures f(OpenText(o) + rest, stack, pos, opEnd) == f(rest, stack + [KindOf(o)], pos + |OpenText(o)|, opEnd)
  {
    OpenLexes(o, rest, Top(stack));
    assert (OpenText(o) + rest)[|OpenText(o)|..] == rest;
    TurnTo(f, OpenText(o) + rest, Push(o), rest, stack, pos, opEnd);
  }

  lemma TurnLeaves(f: Scanning, k: Kind, rest: string, stack: seq<Kind>, pos: nat, opEnd: int)
    requires TakesTurns(f)
    ensures f([Closer(k)] + rest, stack + [k], pos, opEnd) == f(rest, stack, pos + 1, opEnd)
  {
    CloseLexes(k, rest);
    assert ([Closer(k)] + rest)[1..] == rest && (stack + [k])[..|stack|] == stack;
    TurnTo(f, [Closer(k)] + rest, Pop, rest, stack + [k], pos, opEnd);
  }

  lemma TurnTakesLeaf(f: Scanning, x: Item, rest: string, stack: seq<Kind>, pos: nat, opEnd: int)
    requires TakesTurns(f) && !x.Group? && MayStand(x, rest, Top(stack))
    ensures f(Render(x) + rest, stack, pos, opEnd) == f(rest, stack, pos + |Render(x)|, opEnd)
  {
    LeafLexes(x, rest, Top(stack));
    assert (Render(x) + rest)[|Render(x)|..] == rest;
    TurnTo(f, Render(x) + rest, Lex(Render(x) + rest, Top(stack)), rest, stack, pos, opEnd);
  }

  lemma TurnsAreRegular(f: Scanning)
    requires TakesTurns(f)
    ensures Regular(f)
  {
    forall o: Opener, rest: string, stack: seq<Kind>, pos: nat, opEnd: int | MayOpen(o, Top(stack))
      ensures f(OpenText(o) + rest, stack, pos, opEnd) == f(rest, stack + [KindOf(o)], pos + |OpenText(o)|, opEnd)
    {
      TurnEnters(f, o, rest, stack, pos, opEnd);
    }
    forall k: Kind, rest: string, stack: seq<Kind>, pos: nat, opEnd: int
      ensures f([Closer(k)] + rest, stack + [k], pos, opEnd) == f(rest, stack, pos + 1, opEnd)
    {
      TurnLeaves(f, k, rest, stack, pos, opEnd);
    }
    forall x: Item, rest: string, stack: seq<Kind>, pos: nat, opEnd: int | !x.Group? && MayStand(x, rest, Top(stack))
      ensures f(Render(x) + rest, stack, pos, opEnd) == f(rest, stack, pos + |Render(x)|, opEnd)
    {
      TurnTakesLeaf(f, x, rest, stack, pos, opEnd);
    }
  }

  lemma ApartAppend(x: Item, rest: string, tail: string, ctx: Option<Kind>)
    requires Apart(x, rest, ctx) && Harmless(tail)
    ensures Apart(x, rest + tail, ctx)
  {
    if rest == "" {
      assert rest + tail == tail;
    }
  }

  // ----- operators at the top level -----

  /** How many plain items the operator at the head takes; 0 when there is none. */
  function HeadOperator(items: seq<Item>): (n: nat)
    ensures n <= 2 && n <= |items|
  {
    if items == [] then 0
    else
      var double := |items| > 1 && items[1] == items[0];
      if items[0] == Plain('|') then (if double then 2 else 1)
      else if items[0] == Plain('&') && double then 2
      else 0
  }

  /** The end of the last operator, for items that begin at `pos`. */
  function OpAfter(items: seq<Item>, pos: nat, opEnd: int): int
    decreases |items|
  {
    if items == [] then opEnd
    else
      var n := HeadOperator(items);
      if n > 0 then OpAfter(items[n..], pos + n, pos + n)
      else OpAfter(items[1..], pos + |Render(items[0])|, opEnd)
  }

  lemma FirstByte(items: seq<Item>, ctx: Option<Kind>, c: char)
    requires Legal(items, ctx) && (c == '|' || c == '&')
    ensures Starts(RenderAll(items), c) <==> items != [] && items[0] == Plain(c)
  {
  }

  lemma OperatorText(items: seq<Item>)
    requires Legal(items, None) && HeadOperator(items) > 0
    ensures var n := HeadOperator(items);
            && |RenderAll(items)| == n + |RenderAll(items[n..])|
            && RenderAll(items)[n..] == RenderAll(items[n..])
            && Lex(RenderAll(items), None) == Operator(n)
            && Legal(items[n..], None)
            && !Blank(RenderAll(items)[n - 1])
  {
    var rest := items[1..];
    FirstByte(rest, None, '|');
    FirstByte(rest, None, '&');
    assert RenderAll(items) == Render(items[0]) + RenderAll(rest);
    if HeadOperator(items) == 2 {
      assert rest[1..] == items[2..];
      assert RenderAll(rest) == Render(rest[0]) + RenderAll(items[2..]);
    }
  }

  /** The same for operators at the top level, and at the end of the line. */
  ghost predicate TakesOperators(f: Scanning) {
    forall items: seq<Item>, pos: nat, opEnd: int :: Legal(items, None) && HeadOperator(items) > 0 ==>
      f(RenderAll(items), [], pos, opEnd)
      == f(RenderAll(items[HeadOperator(items)..]), [], pos + HeadOperator(items), pos + HeadOperator(items))
  }

  ghost predicate Ends(f: Scanning) {
    forall pos: nat, opEnd: int :: f("", [], pos, opEnd) == Done(opEnd)
  }

  lemma TurnTakesOperator(f: Scanning, items: seq<Item>, pos: nat, opEnd: int)
    requires TakesTurns(f) && Legal(items, None) && HeadOperator(items) > 0
    ensures var n := HeadOperator(items);
            f(RenderAll(items), [], pos, opEnd) == f(RenderAll(items[n..]), [], pos + n, pos + n)
  {
    var n := HeadOperator(items);
    OperatorText(items);
    TurnTo(f, RenderAll(items), Operator(n), RenderAll(items[n..]), [], pos, opEnd);
  }

  lemma TurnsTakeOperators(f: Scanning)
    requires TakesTurns(f)
    ensures TakesOperators(f)
  {
    forall items: seq<Item>, pos: nat, opEnd: int | Legal(items, None) && HeadOperator(items) > 0
      ensures f(RenderAll(items), [], pos, opEnd)
              == f(RenderAll(items[HeadOperator(items)..]), [], pos + HeadOperator(items), pos + HeadOperator(items))
    {
      TurnTakesOperator(f, items, pos, opEnd);
    }
  }

  lemma SkipHead(f: Scanning, items: seq<Item>, pos: nat, opEnd: int)
    requires Regular(f) && items != [] && Legal(items, None) && HeadOperator(items) == 0
    ensures f(RenderAll(items), [], pos, opEnd) == f(RenderAll(items[1..]), [], pos + |Render(items[0])|, opEnd)
  {
    var x, follows := items[0], RenderAll(items[1..]);
    FirstByte(items[1..], None, '&');
    LegalItemSkips(f, x, follows, None);
    assert follows + "" == follows;
    assert f(Render(x) + (follows + ""), [], pos, opEnd) == f(follows + "", [], pos + |Render(x)|, opEnd);
  }

  lemma {:induction false} TopLevel(f: Scanning, items: seq<Item>, pos: nat, opEnd: int)
    requires Regular(f) && TakesOperators(f) && Ends(f) && Legal(items, None)
    ensures f(RenderAll(items), [], pos, opEnd) == Done(OpAfter(items, pos, opEnd))
    decreases |items|
  {
    if items != [] {
      var n := HeadOperator(items);
      if n > 0 {
        OperatorText(items);
        TopLevel(f, items[n..], pos + n, pos + n);
      } else {
        SkipHead(f, items, pos, opEnd);
        TopLevel(f, items[1..], pos + |Render(items[0])|, opEnd);
      }
    }
  }

  lemma TopLevelScan(items: seq<Item>, pos: nat, opEnd: int)
    requires Legal(items, None)
    ensures ScanFrom(RenderAll(items), [], pos, opEnd) == Done(OpAfter(items, pos, opEnd))
  {
    ScanTakesTurns();
    TurnsAreRegular(ScanFrom);
    TurnsTakeOperators(ScanFrom);
    TopLevel(ScanFrom, items, pos, opEnd);
  }

  // ----- an operator at the end -----

  predicate PlainBlank(x: Item) {
    x.Plain? && Blank(x.c)
  }

  /** Read from the left: whether only blanks follow the last operator. `after` says
      that this is so before the items. */
  predicate EndsWithOperator(items: seq<Item>, after: bool)
    decreases |items|
  {
    if items == [] then after
    else
      var n := HeadOperator(items);
      if n > 0 then EndsWithOperator(items[n..], true)
      else EndsWithOperator(items[1..], after && PlainBlank(items[0]))
  }

  lemma TrimBlank(s: string, c: char)
    requires Blank(c)
    ensures TrimRight(s + [c]) == TrimRight(s)
  {
    assert (s + [c])[..|s|] == s;
  }

  lemma {:induction false} TrimKeeps(s: string, t: string)
    requires t != "" && !Blank(t[0])
    ensures |TrimRight(s + t)| > |s|
    decreases |t|
  {
    var st := s + t;
    if Blank(st[|st| - 1]) {
      assert st[..|st| - 1] == s + t[..|t| - 1];
      TrimKeeps(s, t[..|t| - 1]);
    }
  }

  lemma NotBlank(x: Item, ctx: Option<Kind>)
    requires LegalItem(x, ctx) && !PlainBlank(x)
    ensures Render(x) != "" && !Blank(Render(x)[0])
  {
  }

  /** The scanner's comparison of positions sees exactly the operator at the end. */
  lemma {:induction false} OpAtTheEnd(items: seq<Item>, before: string, opEnd: int, after: bool)
    requires Legal(items, None) && opEnd <= |before|
    requires after <==> opEnd >= 0 && opEnd == |TrimRight(before)|
    ensures var op := OpAfter(items, |before|, opEnd);
            (op >= 0 && op == |TrimRight(before + RenderAll(items))|) <==> EndsWithOperator(items, after)
    decreases |items|
  {
    if items == [] {
      assert before + RenderAll(items) == before;
    } else {
      var n := HeadOperator(items);
      if n > 0 {
        OperatorText(items);
        OperatorStep(RenderAll(items), before, n);
        OpAtTheEnd(items[n..], before + RenderAll(items)[..n], |before| + n, true);
      } else {
        ItemStep(items[0], before, opEnd, after);
        OpAtTheEnd(items[1..], before + Render(items[0]), opEnd, after && PlainBlank(items[0]));
        TextAssoc(before, Render(items[0]), RenderAll(items[1..]));
      }
    }
  }

  lemma OperatorStep(text: string, before: string, n: nat)
    requires 0 < n <= |text| && !Blank(text[n - 1])
    ensures var s := before + text[..n];
            |s| == |before| + n && TrimRight(s) == s && before + text == s + text[n..]
  {
    assert (before + text[..n])[|before| + n - 1] == text[n - 1];
    assert before + text == before + text[..n] + text[n..];
  }

  lemma ItemStep(x: Item, before: string, opEnd: int, after: bool)
    requires LegalItem(x, None) && opEnd <= |before|
    requires after <==> opEnd >= 0 && opEnd == |TrimRight(before)|
    ensures (after && PlainBlank(x)) <==> opEnd >= 0 && opEnd == |TrimRight(before + Render(x))|
  {
    if PlainBlank(x) {
      TrimBlank(before, x.c);
    } else {
      NotBlank(x, None);
      TrimKeeps(before, Render(x));
    }
  }

  /** Only blanks and tabs at the end are trimmed, and all of them. */
  lemma {:induction false} TrimmedText(s: string)
    ensures var t := TrimRight(s);
            && t <= s && (forall i :: |t| <= i < |s| ==> s[i] == ' ' || s[i] == '\t')
            && (t != "" ==> t[|t| - 1] != ' ' && t[|t| - 1] != '\t')
  {
    if s != "" && Blank(s[|s| - 1]) {
      TrimmedText(s[..|s| - 1]);
    }
  }

  // ----- read from the left and from the right -----

  lemma CoreOfCons(x: Item, rest: seq<Item>)
    ensures Core(rest) != [] ==> Core([x] + rest) == [x] + Core(rest)
    ensures Core(rest) == [] ==> Core([x] + rest) == if PlainBlank(x) then [] else [x]
    decreases |rest|
  {
    var all := [x] + rest;
    if rest != [] && PlainBlank(rest[|rest| - 1]) {
      assert all[..|all| - 1] == [x] + rest[..|rest| - 1];
      CoreOfCons(x, rest[..|rest| - 1]);
    } else if rest == [] {
      assert all == [x] && all[..0] == [];
      assert Core(all[..0]) == [];
    }
  }

  lemma {:induction false} AmpersandsOfCons(x: Item, rest: seq<Item>)
    ensures Ampersands([x] + rest) == Ampersands(rest) + (if x == Plain('&') && Ampersands(rest) == |rest| then 1 else 0)
    ensures Ampersands(rest) <= |rest|
    decreases |rest|
  {
    var all := [x] + rest;
    if rest == [] {
      assert all == [x] && all[..0] == [];
      assert Ampersands(all[..0]) == 0;
    } else {
      assert all[..|all| - 1] == [x] + rest[..|rest| - 1];
      AmpersandsOfCons(x, rest[..|rest| - 1]);
    }
  }

  lemma {:induction false} CorePrefix(items: seq<Item>)
    ensures Core(items) <= items
  {
    if items != [] && PlainBlank(items[|items| - 1]) {
      CorePrefix(items[..|items| - 1]);
    }
  }

  lemma {:induction false} AllAmpersands(items: seq<Item>)
    requires items != [] && Ampersands(items) == |items|
    ensures items[0] == Plain('&')
  {
    AmpersandsOfCons(items[0], items[1..]);
    assert items == [items[0]] + items[1..];
  }

  /** One item in front changes nothing once something other than blanks follows,
      unless it begins or lengthens a run of ampersands. */
  lemma TrailingOfCons(x: Item, rest: seq<Item>)
    requires x == Plain('&') ==> rest == [] || rest[0] != Plain('&')
    ensures TrailingOperator([x] + rest) <==> (if Core(rest) == [] then x == Plain('|') else TrailingOperator(rest))
  {
    CoreOfCons(x, rest);
    if Core(rest) != [] {
      CorePrefix(rest);
      OperatorOfCons(x, Core(rest));
    } else {
      LoneItem(x);
    }
  }

  lemma OperatorOfCons(x: Item, core: seq<Item>)
    requires core != [] && (x == Plain('&') ==> core[0] != Plain('&'))
    ensures OperatorLast([x] + core) <==> OperatorLast(core)
  {
    AmpersandsOfCons(x, core);
    if Ampersands(core) == |core| {
      AllAmpersands(core);
    }
    assert ([x] + core)[|core|] == core[|core| - 1];
  }

  lemma LoneItem(x: Item)
    ensures OperatorLast([x]) <==> x == Plain('|')
    ensures !OperatorLast([])
  {
    AmpersandsOfCons(x, []);
    assert [x] + [] == [x];
  }

  lemma TrailingOfPair(x: Item, rest: seq<Item>)
    requires x == Plain('|') || x == Plain('&')
    ensures TrailingOperator([x, x] + rest) <==> Core(rest) == [] || TrailingOperator(rest)
    ensures Core([x, x] + rest) != []
  {
    var core := Core(rest);
    assert [x, x] + rest == [x] + ([x] + rest);
    CoreOfCons(x, rest);
    CoreOfCons(x, [x] + rest);
    AmpersandsOfCons(x, core);
    AmpersandsOfCons(x, [x] + core);
    if core == [] {
      AmpersandsOfCons(x, []);
      AmpersandsOfCons(x, [x]);
      assert [x] + [] == [x];
    }
  }

  /** Both readings of "ends in an operator" agree. */
  lemma {:induction false} BothReadingsAgree(items: seq<Item>, after: bool)
    ensures EndsWithOperator(items, after) <==> (if Core(items) == [] then after else TrailingOperator(items))
    decreases |items|
  {
    if items != [] {
      var x, rest := items[0], items[1..];
      assert items == [x] + rest;
      CoreOfCons(x, rest);
      if HeadOperator(items) == 2 {
        assert items == [x, x] + items[2..];
        TrailingOfPair(x, items[2..]);
        BothReadingsAgree(items[2..], true);
      } else {
        TrailingOfCons(x, rest);
        BothReadingsAgree(rest, HeadOperator(items) == 1 || (after && PlainBlank(x)));
      }
    }
  }

  // ----- the theorem -----

  /** The scanner accepts exactly the lines that derive. */
  lemma AcceptsExactlyTheGrammar(line: string)
    ensures Accepts(line) <==> exists items :: Derives(line, items)
  {
    if Accepts(line) {
      var items := AcceptedDerives(line);
    }
    if items :| Derives(line, items) {
      DerivedIsAccepted(line, items);
    }
  }

  lemma ScanOfItems(items: seq<Item>)
    requires Legal(items, None)
    ensures Accepts(RenderAll(items)) <==> !TrailingOperator(items)
  {
    TopLevelScan(items, 0, -1);
    OpAtTheEnd(items, "", -1, false);
    assert "" + RenderAll(items) == RenderAll(items);
    BothReadingsAgree(items, false);
    if Core(items) == [] {
      assert Ampersands(Core(items)) == 0;
    }
  }

  lemma AcceptedDerives(line: string) returns (items: seq<Item>)
    requires Accepts(line)
    ensures Derives(line, items)
  {
    var lists := AcceptedCompletes(line, [], 0, -1);
    items := lists[0];
    assert Legal(lists[0], Context([], 0));
    ScanOfItems(items);
  }

  lemma DerivedIsAccepted(line: string, items: seq<Item>)
    requires Derives(line, items)
    ensures Accepts(line)
  {
    ScanOfItems(items);
  }

  const JOINT := [Plain(' '), Plain(';'), Plain(' ')]

  lemma {:induction false} RenderAppend(a: seq<Item>, b: seq<Item>)
    ensures RenderAll(a + b) == RenderAll(a) + RenderAll(b)
  {
    if a == [] {
      assert a + b == b;
    } else {
      RenderAppend(a[1..], b);
      ConsText(a[0], a[1..] + b);
      ConsText(a[0], a[1..]);
      TextAssoc(Render(a[0]), RenderAll(a[1..]), RenderAll(b));
      assert a == [a[0]] + a[1..] && a + b == [a[0]] + (a[1..] + b);
    }
  }

  lemma TextAssoc(a: string, b: string, c: string)
    ensures a + (b + c) == (a + b) + c
  {
  }

  lemma ConsText(x: Item, rest: seq<Item>)
    ensures RenderAll([x] + rest) == Render(x) + RenderAll(rest)
  {
    assert ([x] + rest)[1..] == rest;
  }

  lemma LegalCons(x: Item, rest: seq<Item>, ctx: Option<Kind>)
    requires LegalItem(x, ctx) && Apart(x, RenderAll(rest), ctx) && Legal(rest, ctx)
    ensures Legal([x] + rest, ctx)
  {
    assert ([x] + rest)[1..] == rest;
  }

  lemma {:induction false} LegalAppend(a: seq<Item>, b: seq<Item>, ctx: Option<Kind>)
    requires Legal(a, ctx) && Legal(b, ctx) && Harmless(RenderAll(b))
    ensures Legal(a + b, ctx)
  {
    if a == [] {
      assert a + b == b;
    } else {
      LegalAppend(a[1..], b, ctx);
      assert (a + b)[1..] == a[1..] + b;
      RenderAppend(a[1..], b);
      ApartAppend(a[0], RenderAll(a[1..]), RenderAll(b), ctx);
    }
  }

  lemma {:induction false} CoreOfAppend(a: seq<Item>, b: seq<Item>)
    requires Core(b) != []
    ensures Core(a + b) == a + Core(b)
  {
    if a == [] {
      assert a + b == b;
    } else {
      assert a + b == [a[0]] + (a[1..] + b);
      CoreOfAppend(a[1..], b);
      CoreOfCons(a[0], a[1..] + b);
      assert [a[0]] + (a[1..] + Core(b)) == a + Core(b);
    }
  }

  lemma {:induction false} AmpersandsOfAppend(a: seq<Item>, b: seq<Item>)
    requires b != [] && b[0] != Plain('&')
    ensures Ampersands(a + b) == Ampersands(b) < |b|
  {
    AmpersandsOfCons(b[0], b[1..]);
    assert b == [b[0]] + b[1..];
    if a == [] {
      assert a + b == b;
    } else {
      assert a + b == [a[0]] + (a[1..] + b);
      AmpersandsOfAppend(a[1..], b);
      AmpersandsOfCons(a[0], a[1..] + b);
    }
  }

  lemma TrailingOfAppend(a: seq<Item>, b: seq<Item>)
    requires b != [] && b[0] != Plain('&') && Core(b) != []
    ensures TrailingOperator(a + b) <==> TrailingOperator(b)
  {
    CoreOfAppend(a, b);
    CorePrefix(b);
    AmpersandsOfAppend(a, Core(b));
  }

  lemma JointIsSafe(b: seq<Item>)
    requires !TrailingOperator(b)
    ensures !TrailingOperator(JOINT + b) && Core(JOINT + b) != []
  {
    var b1 := [Plain(' ')] + b;
    var b2 := [Plain(';')] + b1;
    assert JOINT + b == [Plain(' ')] + b2;
    TrailingOfCons(Plain(' '), b);
    TrailingOfCons(Plain(';'), b1);
    TrailingOfCons(Plain(' '), b2);
    CoreOfCons(Plain(';'), b1);
    CoreOfCons(Plain(' '), b2);
  }

  lemma JointIsLegal(b: seq<Item>)
    requires Legal(b, None)
    ensures Legal(JOINT + b, None) && RenderAll(JOINT + b) == " ; " + RenderAll(b)
  {
    var b1 := [Plain(' ')] + b;
    var b2 := [Plain(';')] + b1;
    assert JOINT + b == [Plain(' ')] + b2;
    LegalCons(Plain(' '), b, None);
    LegalCons(Plain(';'), b1, None);
    LegalCons(Plain(' '), b2, None);
    ConsText(Plain(' '), b);
    ConsText(Plain(';'), b1);
    ConsText(Plain(' '), b2);
  }

  lemma JoinedText(a: seq<Item>, b: seq<Item>)
    requires Legal(b, None)
    ensures RenderAll(a + (JOINT + b)) == RenderAll(a) + " ; " + RenderAll(b)
  {
    JointIsLegal(b);
    RenderAppend(a, JOINT + b);
    TextAssoc(RenderAll(a), " ; ", RenderAll(b));
  }

  lemma JoinedIsLegal(a: seq<Item>, b: seq<Item>)
    requires Legal(a, None) && Legal(b, None)
    ensures Legal(a + (JOINT + b), None)
  {
    JointIsLegal(b);
    assert RenderAll(JOINT + b)[0] == ' ';
    LegalAppend(a, JOINT + b, None);
  }

  lemma JoinedIsSafe(a: seq<Item>, b: seq<Item>)
    requires !TrailingOperator(b)
    ensures !TrailingOperator(a + (JOINT + b))
  {
    JointIsSafe(b);
    TrailingOfAppend(a, JOINT + b);
  }

  /** Two accepted lines joined with " ; " are one accepted line. */
  lemma JoiningKeepsAcceptance(line1: string, line2: string)
    requires Accepts(line1) && Accepts(line2)
    ensures Accepts(line1 + " ; " + line2)
  {
    var a := AcceptedDerives(line1);
    var b := AcceptedDerives(line2);
    JoinedIsLegal(a, b);
    JoinedIsSafe(a, b);
    JoinedText(a, b);
    ScanOfItems(a + (JOINT + b));
  }
}
