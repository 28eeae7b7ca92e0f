/**
 The scanner behind the here-document, continuation and balance checks of a
 session line (`scanSessionLine`, ai_session_approval.go). Every `char` of the
 model stands for one byte of the line.
 */
module Scanner {
  import opened LineTypes

  const UNBALANCED := "unbalanced_quote"
  const CONTINUATION := "line_continuation"
  const HEREDOC := "heredoc"

  // ----- one lexeme -----

  /** What the stack holds: an open double quote, backtick, `$(`, `(` or `{`. */
  datatype Kind = DoubleQuote | Backtick | Dollar | Paren | Brace

  /** The six ways to open a context; `{` and `${` open the same one. */
  datatype Opener = OpenQuote | OpenBacktick | OpenSub | OpenParen | OpenBrace | OpenDollarBrace

  function KindOf(o: Opener): Kind {
    match o
    case OpenQuote => DoubleQuote
    case OpenBacktick => Backtick
    case OpenSub => Dollar
    case OpenParen => Paren
    case OpenBrace => Brace
    case OpenDollarBrace => Brace
  }

  function OpenText(o: Opener): string {
    match o
    case OpenQuote => "\""
    case OpenBacktick => "`"
    case OpenSub => "$("
    case OpenParen => "("
    case OpenBrace => "{"
    case OpenDollarBrace => "${"
  }

  function Closer(k: Kind): char {
    match k
    case DoubleQuote => '"'
    case Backtick => '`'
    case Dollar => ')'
    case Paren => ')'
    case Brace => '}'
  }

  datatype Lexeme = Bad(reason: string) | Take(n: nat) | Push(opener: Opener) | Pop | Operator(n: nat)

  predicate NextIs(s: string, c: char) {
    |s| > 1 && s[1] == c
  }

  /** Length of the prefix of `s` that ends with the next single quote, or 0. */
  function SingleEnd(s: string): (n: nat)
    ensures n <= |s|
  {
    if s == "" then 0
    else if s[0] == '\'' then 1
    else
      var n := SingleEnd(s[1..]);
      if n == 0 then 0 else n + 1
  }

  /** The same, but a backslash takes the byte behind it along. */
  function AnsiEnd(s: string): (n: nat)
    ensures n <= |s|
    decreases |s|
  {
    if s == "" then 0
    else if s[0] == '\'' then 1
    else
      var step := if s[0] == '\\' then 2 else 1;
      if |s| < step then 0
      else
        var n := AnsiEnd(s[step..]);
        if n == 0 then 0 else n + step
  }

  function LexQuoted(s: string): Lexeme
    requires s != ""
  {
    if s[0] == '\\' then (if |s| == 1 then Bad(CONTINUATION) else Take(2))
    else if s[0] == '"' then Pop
    else if s[0] == '`' then Push(OpenBacktick)
    else if s[0] == '$' && NextIs(s, '(') then Push(OpenSub)
    else if s[0] == '$' && NextIs(s, '{') then Push(OpenDollarBrace)
    else Take(1)
  }

  function LexDollar(s: string): Lexeme
    requires s != "" && s[0] == '$'
  {
    if NextIs(s, '(') then Push(OpenSub)
    else if NextIs(s, '{') then Push(OpenDollarBrace)
    else if NextIs(s, '\'') then
      var n := AnsiEnd(s[2..]);
      if n == 0 then Bad(UNBALANCED) else Take(n + 2)
    else Take(1)
  }

  function LexClose(ctx: Option<Kind>, c: char): Lexeme {
    if ctx.Some? && Closer(ctx.value) == c then Pop else Bad(UNBALANCED)
  }

  function LexCode(s: string, ctx: Option<Kind>): Lexeme
    requires s != ""
  {
    var c := s[0];
    if c == '\\' then (if |s| == 1 then Bad(CONTINUATION) else Take(2))
    else if c == '\'' then
      var n := SingleEnd(s[1..]);
      if n == 0 then Bad(UNBALANCED) else Take(n + 1)
    else if c == '"' then Push(OpenQuote)
    else if c == '`' then (if ctx == Some(Backtick) then Pop else Push(OpenBacktick))
    else if c == '$' then LexDollar(s)
    else if c == '(' then Push(OpenParen)
    else if c == ')' then LexClose(ctx, c)
    else if c == '{' then Push(OpenBrace)
    else if c == '}' then LexClose(ctx, c)
    else if c == '<' then (if NextIs(s, '<') then Bad(HEREDOC) else Take(1))
    else if c == '|' && ctx == None then Operator(if NextIs(s, '|') then 2 else 1)
    else if c == '&' && ctx == None && NextIs(s, '&') then Operator(2)
    else Take(1)
  }

  /** What the scanner does at the first byte of `s`. */
  function Lex(s: string, ctx: Option<Kind>): Lexeme
    requires s != ""
  {
    if ctx == Some(DoubleQuote) then LexQuoted(s) else LexCode(s, ctx)
  }

  lemma LexFits(s: string, ctx: Option<Kind>)
    requires s != ""
    ensures var l := Lex(s, ctx);
            && (!l.Bad? ==> 1 <= Width(l) <= |s|)
            && (l.Operator? ==> ctx == None)
            && (l.Push? ==> s[..Width(l)] == OpenText(l.opener))
            && (l.Pop? ==> ctx.Some? && s[0] == Closer(ctx.value))
  {
  }

  // ----- the whole line -----

  function Top(stack: seq<Kind>): Option<Kind> {
    if stack == [] then None else Some(stack[|stack| - 1])
  }

  datatype Scan = Reject(reason: string) | Done(opEnd: int)

  function Width(l: Lexeme): nat
    requires !l.Bad?
  {
    match l
    case Take(n) => n
    case Push(o) => |OpenText(o)|
    case Pop => 1
    case Operator(n) => n
  }

  function StackAfter(stack: seq<Kind>, l: Lexeme): seq<Kind>
    requires l.Pop? ==> stack != []
  {
    if l.Push? then stack + [KindOf(l.opener)] else if l.Pop? then stack[..|stack| - 1] else stack
  }

  /** The loop from position `pos` on, with the rest `s` of the line. */
  function ScanFrom(s: string, stack: seq<Kind>, pos: nat, opEnd: int): Scan
    decreases |s|
  {
    if s == "" then (if stack == [] then Done(opEnd) else Reject(UNBALANCED))
    else
      var l := Lex(s, Top(stack));
      LexFits(s, Top(stack));
      if l.Bad? then Reject(l.reason)
      else
        var next := pos + Width(l);
        ScanFrom(s[Width(l)..], StackAfter(stack, l), next, if l.Operator? then next else opEnd)
  }

  predicate Blank(c: char) {
    c == ' ' || c == '\t'
  }

  /** `strings.TrimRight(s, " \t")`. */
  function TrimRight(s: string): (t: string)
    ensures t <= s
  {
    if s != "" && Blank(s[|s| - 1]) then TrimRight(s[..|s| - 1]) else s
  }

  /** The reject reason, or None when the line is accepted. */
  function ScanLine(line: string): Option<string> {
    match ScanFrom(line, [], 0, -1)
    case Reject(reason) => Some(reason)
    case Done(opEnd) => if opEnd >= 0 && opEnd == |TrimRight(line)| then Some(CONTINUATION) else None
  }

  predicate Accepts(line: string) {
    ScanLine(line).None?
  }

  // ----- the scanner's loop -----

  method IndexQuote(line: string, from: nat) returns (n: nat)
    requires from <= |line|
    ensures n == SingleEnd(line[from..])
  {
    var i := from;
    while i < |line|
      invariant from <= i <= |line|
      invariant SingleEnd(line[from..]) == (if SingleEnd(line[i..]) == 0 then 0 else SingleEnd(line[i..]) + (i - from))
    {
      if line[i] == '\'' {
        return i - from + 1;
      }
      assert line[i..][1..] == line[i + 1..];
      i := i + 1;
    }
    n := 0;
  }

  method SkipAnsi(line: string, from: nat) returns (n: nat)
    requires from <= |line|
    ensures n == AnsiEnd(line[from..])
  {
    var j := from;
    while j < |line|
      invariant from <= j <= |line| + 1
      invariant j <= |line| ==>
                  AnsiEnd(line[from..]) == (if AnsiEnd(line[j..]) == 0 then 0 else AnsiEnd(line[j..]) + (j - from))
      invariant j > |line| ==> AnsiEnd(line[from..]) == 0
    {
      if line[j] == '\\' {
        assert j + 2 <= |line| ==> line[j..][2..] == line[j + 2..];
        j := j + 2;
        continue;
      }
      if line[j] == '\'' {
        return j - from + 1;
      }
      assert line[j..][1..] == line[j + 1..];
      j := j + 1;
    }
    n := 0;
  }

  /** The lexeme at position `i`. */
  method NextLexeme(line: string, i: nat, ctx: Option<Kind>) returns (l: Lexeme)
    requires i < |line|
    ensures l == Lex(line[i..], ctx)
  {
    var s := line[i..];
    if ctx != Some(DoubleQuote) && s[0] == '\'' {
      var n := IndexQuote(line, i + 1);
      assert s[1..] == line[i + 1..];
      l := if n == 0 then Bad(UNBALANCED) else Take(n + 1);
    } else if ctx != Some(DoubleQuote) && s[0] == '$' && NextIs(s, '\'') {
      var n := SkipAnsi(line, i + 2);
      assert s[2..] == line[i + 2..];
      l := if n == 0 then Bad(UNBALANCED) else Take(n + 2);
    } else {
      l := Lex(s, ctx);
    }
  }

  lemma ScanStep(s: string, stack: seq<Kind>, pos: nat, opEnd: int)
    requires s != "" && !Lex(s, Top(stack)).Bad?
    ensures var l := Lex(s, Top(stack));
            && 1 <= Width(l) <= |s| && (l.Pop? ==> stack != [])
            && ScanFrom(s, stack, pos, opEnd)
               == ScanFrom(s[Width(l)..], StackAfter(stack, l), pos + Width(l), if l.Operator? then pos + Width(l) else opEnd)
  {
    LexFits(s, Top(stack));
  }

  method Consume(i: nat, stack: seq<Kind>, opEnd: int, l: Lexeme) returns (i': nat, stack': seq<Kind>, opEnd': int)
    requires !l.Bad? && (l.Pop? ==> stack != [])
    ensures i' == i + Width(l) && stack' == StackAfter(stack, l)
    ensures opEnd' == if l.Operator? then i' else opEnd
  {
    i', stack', opEnd' := i + 1, stack, opEnd;
    if l.Take? {
      i' := i + l.n;
    } else if l.Push? {
      stack' := stack + [KindOf(l.opener)];
      i' := i + |OpenText(l.opener)|;
    } else if l.Pop? {
      stack' := stack[..|stack| - 1];
    } else {
      i' := i + l.n;
      opEnd' := i';
    }
  }

  method ScanSessionLine(line: string) returns (reason: Option<string>)
    ensures reason == ScanLine(line)
  {
    var stack: seq<Kind> := [];
    var i, opEnd := 0, -1;
    assert line[0..] == line;
    while i < |line|
      invariant 0 <= i <= |line|
      invariant ScanFrom(line[i..], stack, i, opEnd) == ScanFrom(line, [], 0, -1)
    {
      var l := NextLexeme(line, i, Top(stack));
      if l.Bad? {
        return Some(l.reason);
      }
      ScanStep(line[i..], stack, i, opEnd);
      assert line[i..][Width(l)..] == line[i + Width(l)..];
      i, stack, opEnd := Consume(i, stack, opEnd, l);
    }
    if stack != [] {
      return Some(UNBALANCED);
    }
    reason := if opEnd >= 0 && opEnd == |TrimRight(line)| then Some(CONTINUATION) else None;
  }
}
