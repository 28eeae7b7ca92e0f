/**
 Why the line scanner refuses a line: where it stops, and what it finds there.
 The way to that place is told in pieces of the grammar.
 */
module ScannerReasons {
  import opened LineTypes
  import opened Scanner
  import opened ScannerGrammar

  // ----- the way to a place in the line -----

  /** A piece of a line that may end inside open groups. */
  datatype Piece = Leaf(item: Item) | Opens(opener: Opener) | Closes(kind: Kind)

  function Text(p: Piece): string {
    match p
    case Leaf(x) => Render(x)
    case Opens(o) => OpenText(o)
    case Closes(k) => [Closer(k)]
  }

  /** `p` may stand inside the open contexts `stack` and in front of `follows`. */
  predicate Fits(p: Piece, stack: seq<Kind>, follows: string) {
    match p
    case Leaf(x) => !x.Group? && LegalItem(x, Top(stack)) && Apart(x, follows, Top(stack))
    case Opens(o) => MayOpen(o, Top(stack))
    case Closes(k) => Top(stack) == Some(k)
  }

  function Under(stack: seq<Kind>, p: Piece): seq<Kind>
    requires p.Closes? ==> stack != []
  {
    match p
    case Leaf(_) => stack
    case Opens(o) => stack + [KindOf(o)]
    case Closes(_) => stack[..|stack| - 1]
  }

  /** The pieces lead from the front of `s`, inside `stack`, to `tail`, inside `inner`. */
  ghost predicate Leads(pieces: seq<Piece>, s: string, stack: seq<Kind>, tail: string, inner: seq<Kind>)
    decreases |pieces|
  {
    if pieces == [] then s == tail && stack == inner
    else
      var n := |Text(pieces[0])|;
      && Text(pieces[0]) <= s && Fits(pieces[0], stack, s[n..])
      && Leads(pieces[1..], s[n..], Under(stack, pieces[0]), tail, inner)
  }

  // ----- what is found there -----

  predicate InCode(stack: seq<Kind>) {
    stack == [] || stack[|stack| - 1] != DoubleQuote
  }

  /** `<<` outside double quotes. */
  predicate HereDocument(tail: string, stack: seq<Kind>) {
    InCode(stack) && "<<" <= tail
  }

  /** Where the body of a quote would end: `n` bytes of it, then the closing quote. */
  predicate AnsiQuoteEnds(s: string, n: nat) {
    n < |s| && s[n] == '\'' && AnsiBody(s[..n])
  }

  /** The line ends inside a context, or, outside double quotes, at a closing byte of
      another context or at a quote without end. */
  ghost predicate NeverCloses(tail: string, stack: seq<Kind>) {
    || (tail == "" && stack != [])
    || (InCode(stack) && Starts(tail, ')') && (stack == [] || stack[|stack| - 1] !in [Dollar, Paren]))
    || (InCode(stack) && Starts(tail, '}') && (stack == [] || stack[|stack| - 1] != Brace))
    || (InCode(stack) && Starts(tail, '\'') && '\'' !in tail[1..])
    || (InCode(stack) && "$'" <= tail && forall n: nat :: !AnsiQuoteEnds(tail[2..], n))
  }

  // ----- the scanner's reason at one place -----

  /** The reason that the scanner gives at once, if any. */
  function Halts(s: string, stack: seq<Kind>): Option<string> {
    if s == "" then (if stack == [] then None else Some(UNBALANCED))
    else
      var l := Lex(s, Top(stack));
      if l.Bad? then Some(l.reason) else None
  }

  lemma {:induction false} SingleEndMissing(s: string)
    ensures SingleEnd(s) == 0 <==> '\'' !in s
  {
    if s != "" {
      SingleEndMissing(s[1..]);
      assert s == [s[0]] + s[1..];
    }
  }

  lemma AnsiEndMissing(s: string)
    ensures AnsiEnd(s) == 0 <==> forall n: nat :: !AnsiQuoteEnds(s, n)
  {
    if AnsiEnd(s) > 0 {
      AnsiEndBody(s);
      assert AnsiQuoteEnds(s, AnsiEnd(s) - 1);
    }
    if n: nat :| AnsiQuoteEnds(s, n) {
      AnsiEndOf(s[..n], s[n + 1..]);
      assert s == s[..n] + "'" + s[n + 1..];
    }
  }

  lemma HaltsInQuotes(s: string, stack: seq<Kind>)
    requires s != "" && !InCode(stack)
    ensures Halts(s, stack) == if s == "\\" then Some("line_continuation") else None
    ensures !HereDocument(s, stack) && !NeverCloses(s, stack)
  {
  }

  lemma HaltsAtDollar(s: string, stack: seq<Kind>)
    requires s != "" && s[0] == '$' && InCode(stack)
    ensures Halts(s, stack) == if NeverCloses(s, stack) then Some("unbalanced_quote") else None
  {
    if |s| > 1 {
      AnsiEndMissing(s[2..]);
    }
  }

  lemma HaltsAtQuote(s: string, stack: seq<Kind>)
    requires s != "" && s[0] == '\'' && InCode(stack)
    ensures Halts(s, stack) == if NeverCloses(s, stack) then Some("unbalanced_quote") else None
  {
    SingleEndMissing(s[1..]);
  }

  lemma HaltsInCode(s: string, stack: seq<Kind>)
    requires s != "" && InCode(stack) && s[0] != '$' && s[0] != '\''
    ensures Halts(s, stack) == if HereDocument(s, stack) then Some("heredoc")
                               else if s == "\\" then Some("line_continuation")
                               else if NeverCloses(s, stack) then Some("unbalanced_quote")
                               else None
  {
  }

  lemma HaltsMeans(s: string, stack: seq<Kind>)
    ensures Halts(s, stack) == Some("heredoc") <==> HereDocument(s, stack)
    ensures Halts(s, stack) == Some("line_continuation") <==> s == "\\"
    ensures Halts(s, stack) == Some("unbalanced_quote") <==> NeverCloses(s, stack)
  {
    if s != "" {
      if !InCode(stack) {
        HaltsInQuotes(s, stack);
      } else if s[0] == '$' {
        HaltsAtDollar(s, stack);
      } else if s[0] == '\'' {
        HaltsAtQuote(s, stack);
      } else {
        HaltsInCode(s, stack);
      }
    }
  }

  // ----- one piece -----

  function ReasonOf(scan: Scan): Option<string> {
    if scan.Reject? then Some(scan.reason) else None
  }

  /** The reason for stopping before the end of the scan, if any. */
  function Stops(s: string, stack: seq<Kind>): Option<string> {
    ReasonOf(ScanFrom(s, stack, 0, -1))
  }

  ghost predicate HaltsWith(f: Scanning) {
    forall s: string, stack: seq<Kind>, pos: nat, opEnd: int :: s == "" || Lex(s, Top(stack)).Bad? ==>
      ReasonOf(f(s, stack, pos, opEnd)) == Halts(s, stack)
  }

  /** Positions do not matter for the reason. */
  lemma {:induction false} SameReason(f: Scanning, s: string, stack: seq<Kind>, pos: nat, opEnd: int, pos': nat, opEnd': int)
    requires TakesTurns(f) && HaltsWith(f)
    ensures ReasonOf(f(s, stack, pos, opEnd)) == ReasonOf(f(s, stack, pos', opEnd'))
    decreases |s|
  {
    var l := if s == "" then Bad("") else Lex(s, Top(stack));
    if !l.Bad? {
      assert Turn(f, s, stack, pos, opEnd) && Turn(f, s, stack, pos', opEnd');
      LexFits(s, Top(stack));
      var next, next' := pos + Width(l), pos' + Width(l);
      SameReason(f, s[Width(l)..], StackAfter(stack, l),
                 next, if l.Operator? then next else opEnd, next', if l.Operator? then next' else opEnd');
    }
  }

  lemma StopsAnywhere(s: string, stack: seq<Kind>, pos: nat, opEnd: int)
    ensures ReasonOf(ScanFrom(s, stack, pos, opEnd)) == Stops(s, stack)
  {
    ScanTakesTurns();
    assert HaltsWith(ScanFrom) by {
      forall s: string, stack: seq<Kind>, pos: nat, opEnd: int | s == "" || Lex(s, Top(stack)).Bad?
        ensures ReasonOf(ScanFrom(s, stack, pos, opEnd)) == Halts(s, stack)
      {
      }
    }
    SameReason(ScanFrom, s, stack, pos, opEnd, 0, -1);
  }

  lemma StopsTurn(s: string, stack: seq<Kind>)
    requires s != "" && !Lex(s, Top(stack)).Bad?
    ensures var l := Lex(s, Top(stack));
            && 1 <= Width(l) <= |s| && (l.Pop? ==> stack != [])
            && Stops(s, stack) == Stops(s[Width(l)..], StackAfter(stack, l))
  {
    var l := Lex(s, Top(stack));
    ScanStep(s, stack, 0, -1);
    StopsAnywhere(s[Width(l)..], StackAfter(stack, l), Width(l), if l.Operator? then Width(l) else -1);
  }

  /** An operator of two bytes is as good as its bytes one by one. */
  lemma {:induction false} OperatorByte(c: char, rest: string)
    requires c == '|' || c == '&'
    ensures Stops([c] + rest, []) == Stops(rest, [])
    decreases |rest|
  {
    var s := [c] + rest;
    StopsTurn(s, []);
    if Starts(rest, c) {
      assert s[2..] == rest[1..] && rest == [c] + rest[1..];
      OperatorByte(c, rest[1..]);
    } else {
      assert s[1..] == rest;
    }
  }

  lemma PieceStep(p: Piece, rest: string, stack: seq<Kind>)
    requires Fits(p, stack, rest)
    ensures Stops(Text(p) + rest, stack) == Stops(rest, Under(stack, p))
  {
    var s, n := Text(p) + rest, |Text(p)|;
    assert s[n..] == rest;
    match p
    case Leaf(x) =>
      if MayStand(x, rest, Top(stack)) {
        LeafLexes(x, rest, Top(stack));
        StopsTurn(s, stack);
      } else {
        OperatorByte(x.c, rest);
      }
    case Opens(o) =>
      OpenLexes(o, rest, Top(stack));
      StopsTurn(s, stack);
    case Closes(k) =>
      CloseLexes(k, rest);
      StopsTurn(s, stack);
  }

  /** Where the scanner does not stop, a piece fits. */
  lemma PieceAt(s: string, stack: seq<Kind>) returns (p: Piece)
    requires s != "" && !Lex(s, Top(stack)).Bad?
    ensures Text(p) <= s && Text(p) != "" && Fits(p, stack, s[|Text(p)|..])
  {
    var l := Lex(s, Top(stack));
    LexFits(s, Top(stack));
    if l.Take? {
      var x := TakenItem(s, Top(stack));
      p := Leaf(x);
    } else if l.Push? {
      OpensLegally(s, Top(stack));
      p := Opens(l.opener);
    } else if l.Pop? {
      p := Closes(Top(stack).value);
    } else {
      p := Leaf(Plain(s[0]));
    }
  }

  // ----- the whole line -----

  type Stopping = (string, seq<Kind>) -> Option<string>

  ghost predicate TakesPieces(f: Stopping) {
    forall p: Piece, rest: string, stack: seq<Kind> :: Fits(p, stack, rest) ==>
      f(Text(p) + rest, stack) == f(rest, Under(stack, p))
  }

  lemma StopsTakesPieces()
    ensures TakesPieces(Stops)
  {
    forall p: Piece, rest: string, stack: seq<Kind> | Fits(p, stack, rest)
      ensures Stops(Text(p) + rest, stack) == Stops(rest, Under(stack, p))
    {
      PieceStep(p, rest, stack);
    }
  }

  lemma {:induction false} LedIsStopped(f: Stopping, pieces: seq<Piece>, s: string, stack: seq<Kind>, tail: string,
                                        inner: seq<Kind>)
    requires TakesPieces(f) && Leads(pieces, s, stack, tail, inner)
    ensures f(s, stack) == f(tail, inner)
    decreases |pieces|
  {
    if pieces != [] {
      var p := pieces[0];
      var rest := s[|Text(p)|..];
      assert s == Text(p) + rest;
      LedIsStopped(f, pieces[1..], rest, Under(stack, p), tail, inner);
    }
  }

  lemma {:induction false} StoppedIsLed(s: string, stack: seq<Kind>)
    returns (pieces: seq<Piece>, tail: string, inner: seq<Kind>)
    requires Stops(s, stack).Some?
    ensures Leads(pieces, s, stack, tail, inner) && Halts(tail, inner) == Stops(s, stack)
    decreases |s|
  {
    if Halts(s, stack).Some? {
      pieces, tail, inner := [], s, stack;
    } else {
      var p := PieceAt(s, stack);
      var rest := s[|Text(p)|..];
      assert s == Text(p) + rest;
      PieceStep(p, rest, stack);
      pieces, tail, inner := StoppedIsLed(rest, Under(stack, p));
      pieces := [p] + pieces;
    }
  }

  lemma Led(line: string, pieces: seq<Piece>, tail: string, inner: seq<Kind>)
    requires Leads(pieces, line, [], tail, inner)
    ensures HereDocument(tail, inner) ==> Stops(line, []) == Some("heredoc")
    ensures tail == "\\" ==> Stops(line, []) == Some("line_continuation")
    ensures NeverCloses(tail, inner) ==> Stops(line, []) == Some("unbalanced_quote")
  {
    StopsTakesPieces();
    LedIsStopped(Stops, pieces, line, [], tail, inner);
    HaltsMeans(tail, inner);
    if Halts(tail, inner).Some? {
      HaltIsStop(tail, inner);
    }
  }

  lemma HaltIsStop(s: string, stack: seq<Kind>)
    requires Halts(s, stack).Some?
    ensures Stops(s, stack) == Halts(s, stack)
  {
  }

  ghost predicate HasHereDocument(line: string) {
    exists pieces, tail, inner :: Leads(pieces, line, [], tail, inner) && HereDocument(tail, inner)
  }

  ghost predicate EndsInBackslash(line: string) {
    exists pieces, inner :: Leads(pieces, line, [], "\\", inner)
  }

  ghost predicate StaysOpen(line: string) {
    exists pieces, tail, inner :: Leads(pieces, line, [], tail, inner) && NeverCloses(tail, inner)
  }

  ghost predicate EndsInOperator(line: string) {
    exists items :: RenderAll(items) == line && Legal(items, None) && TrailingOperator(items)
  }

  /** The scan stops early exactly at one of the three places. */
  lemma StopsExactlyFor(line: string)
    ensures Stops(line, []) == Some("heredoc") <==> HasHereDocument(line)
    ensures Stops(line, []) == Some("line_continuation") <==> EndsInBackslash(line)
    ensures Stops(line, []) == Some("unbalanced_quote") <==> StaysOpen(line)
  {
    if pieces, tail, inner :| Leads(pieces, line, [], tail, inner) && HereDocument(tail, inner) {
      Led(line, pieces, tail, inner);
    }
    if pieces, inner :| Leads(pieces, line, [], "\\", inner) {
      Led(line, pieces, "\\", inner);
    }
    if pieces, tail, inner :| Leads(pieces, line, [], tail, inner) && NeverCloses(tail, inner) {
      Led(line, pieces, tail, inner);
    }
    if Stops(line, []).Some? {
      var pieces, tail, inner := StoppedIsLed(line, []);
      HaltsMeans(tail, inner);
    }
  }

  /** A scan that reaches the end has read legal items, and refuses only a last operator. */
  lemma FinishedScan(line: string)
    ensures EndsInOperator(line) <==> Stops(line, []).None? && ScanLine(line) == Some("line_continuation")
    ensures Stops(line, []).None? && ScanLine(line).Some? ==> ScanLine(line) == Some("line_continuation")
    ensures Stops(line, []).Some? ==> ScanLine(line) == Stops(line, [])
  {
    if items :| RenderAll(items) == line && Legal(items, None) && TrailingOperator(items) {
      TopLevelScan(items, 0, -1);
      ScanOfItems(items);
    }
    if Stops(line, []).None? && !Accepts(line) {
      var lists := AcceptedCompletes(line, [], 0, -1);
      assert Legal(lists[0], Context([], 0));
      ScanOfItems(lists[0]);
      assert RenderAll(lists[0]) == line;
    }
  }

  /** A line is refused as a here-document exactly when legal pieces lead to `<<` outside
      double quotes; as a continuation exactly when they lead to a lone backslash at the end
      or the line is legal and ends in an operator; as unbalanced exactly when they lead to
      the end inside a context, to a closing byte of none, or to a quote without end. */
  lemma RefusedExactlyFor(line: string)
    ensures ScanLine(line) == Some("heredoc") <==> HasHereDocument(line)
    ensures ScanLine(line) == Some("line_continuation") <==> EndsInBackslash(line) || EndsInOperator(line)
    ensures ScanLine(line) == Some("unbalanced_quote") <==> StaysOpen(line)
  {
    StopsExactlyFor(line);
    FinishedScan(line);
  }
}
