/**
 The script of one exec-mode line (`buildExecScript`, ai_session_exec.go): the
 directory, the environment overlay, and exactly the agent's line.
 */
module ExecScript {
  import opened LineTypes
  import opened LineGate
  import opened ExecReplay

  const CD_REPORT := "\\036SGERR:" + "%s:cwd\\036"
  const CD_FAILS := " 2>/dev/null" + (" || { printf " + ("'" + CD_REPORT + "'" + " "))
  const CD_EXITS := " >&2; exit " + "201; }\n"
  const CD_PROBE := "\\036SGCWD:" + "%s:%s\\036"
  const PWD := " \"$(pwd -P)\""

  /** What follows the directory: a failed `cd` is reported and ends the script. */
  function CdGuard(nonce: string): string {
    CD_FAILS + Quote(nonce) + CD_EXITS
  }

  function CdLine(cwd: string, nonce: string): string {
    if cwd == "" then "" else "cd -- " + Quote(cwd) + CdGuard(nonce)
  }

  /** A standalone `cd` reports the new directory. */
  function Probe(nonce: string, cdProbe: bool): string {
    if cdProbe then " && printf " + ("'" + CD_PROBE + "'" + (" " + (Quote(nonce) + PWD))) else ""
  }

  ghost predicate IsHistory(history: seq<seq<string>>) {
    forall i :: 0 <= i < |history| ==> IsEnvLine(history[i])
  }

  /** The environment lines have, in every base environment, the effect of every
      history of successful export and unset lines that led to this overlay. */
  ghost predicate Replays(prefix: string, env: Environment, unset: set<string>) {
    forall history, base :: IsHistory(history) && OverlayOf(history) == Overlay(env, unset) ==>
      ShellEnv(prefix, base) == Some(RunHistory(history, base))
  }

  /** `prefix` is the environment part. */
  method BuildExecScript(cwd: string, env: Environment, unset: seq<string>, line: string, nonce: string, cdProbe: bool)
    returns (script: string, prefix: string)
    ensures script == CdLine(cwd, nonce) + prefix + line + Probe(nonce, cdProbe) + "\n"
    ensures Replays(prefix, env, Names(unset))
  {
    script := "";
    if cwd != "" {
      script := "cd -- " + Quote(cwd) + CdGuard(nonce);
    }
    var names;
    prefix, names := BuildEnvPrefix(env, unset);
    PrefixReplays(env, names, unset);
    script := script + prefix + line;
    if cdProbe {
      script := script + Probe(nonce, true);
    } else {
      assert script + Probe(nonce, false) == script;
    }
    script := script + "\n";
  }

  lemma PrefixReplays(env: Environment, names: seq<string>, unset: seq<string>)
    requires Names(names) == (set n | n in env && ValidEnvName(n))
    requires forall i :: 0 <= i < |names| ==> names[i] in env
    ensures Replays(Exports(names, env) + Unsets(unset, env), env, Names(unset))
  {
    forall history, base | IsHistory(history) && OverlayOf(history) == Overlay(env, Names(unset))
      ensures ShellEnv(Exports(names, env) + Unsets(unset, env), base) == Some(RunHistory(history, base))
    {
      ReplayRefinesHistory(history, names, unset, base);
    }
  }

  // ----- what a shell does with the first line and the probe -----

  /** The text behind `lit`, if the text begins with it. */
  function After(s: string, lit: string): Option<string> {
    if lit <= s then Some(s[|lit|..]) else None
  }

  predicate IsOctal(c: char) {
    '0' <= c <= '7'
  }

  function Octal(c: char): nat
    requires IsOctal(c)
  {
    (c as int - '0' as int) as nat
  }

  /** The printf utility (section "printf" of POSIX.1-2017): three octal digits behind a
      backslash name a byte, `%s` stands for the next argument. None for a format that
      needs a rule not listed here. */
  function Printf(format: string, args: seq<string>): Option<string>
    decreases |format|
  {
    if format == "" then Some("")
    else if format[0] == '\\' then
      if |format| >= 4 && IsOctal(format[1]) && IsOctal(format[2]) && IsOctal(format[3]) && format[1] < '4' then
        Before([(64 * Octal(format[1]) + 8 * Octal(format[2]) + Octal(format[3])) as char], Printf(format[4..], args))
      else None
    else if format[0] == '%' then
      if |format| >= 2 && format[1] == 's' && args != [] then Before(args[0], Printf(format[2..], args[1..])) else None
    else Before([format[0]], Printf(format[1..], args))
  }

  function Before(p: string, r: Option<string>): Option<string> {
    if r.None? then None else Some(p + r.value)
  }

  /** The shell is in `dir` and goes on with `rest`, or ends with `code` after `report`
      on standard error. */
  datatype Went = GoesOn(dir: string, rest: string) | Ends(code: nat, report: string) | Unclear

  /** A number in front of `; }` and the end of the line. */
  function EndCode(s: string): Option<(nat, string)> {
    if |s| >= 7 && s[0] in "123456789" && s[1] in "0123456789" && s[2] in "0123456789" && "; }\n" <= s[3..] then
      Some(((100 * (s[0] as int - '0' as int) + 10 * (s[1] as int - '0' as int) + (s[2] as int - '0' as int)) as nat, s[7..]))
    else None
  }

  /** `cd -- DIR 2>/dev/null || { printf FORMAT ARG >&2; exit CODE; }`: the second part
      happens exactly when the first fails. */
  function RunCd(s: string, enters: string -> bool): Went {
    var dir := Word(After(s, "cd -- "));
    if dir.None? then Unclear else RunGuard(dir.value.1, dir.value.0, enters(dir.value.0))
  }

  function RunGuard(s: string, dir: string, entered: bool): Went {
    var format := Word(FailPart(s));
    var arg := Word(if format.None? then None else After(format.value.1, " "));
    var code := if arg.None? then None else ExitPart(arg.value.1);
    if code.None? then Unclear
    else if entered then GoesOn(dir, code.value.1)
    else
      var report := Printf(format.value.0, [arg.value.0]);
      if report.None? then Unclear else Ends(code.value.0, report.value)
  }

  function Word(s: Option<string>): Option<(string, string)> {
    if s.None? then None else ReadWord(s.value, false)
  }

  function FailPart(s: string): Option<string> {
    var quiet := After(s, " 2>/dev/null");
    if quiet.None? then None else After(quiet.value, " || { printf ")
  }

  function ExitPart(s: string): Option<(nat, string)> {
    var exit := After(s, " >&2; exit ");
    if exit.None? then None else EndCode(exit.value)
  }

  /** What ` && printf FORMAT ARG "$(pwd -P)"` prints behind a successful line. */
  function RunProbe(s: string, pwd: string): Option<string> {
    var format := Word(After(s, " && printf "));
    var arg := Word(if format.None? then None else After(format.value.1, " "));
    if arg.None? || arg.value.1 != " \"$(pwd -P)\"" then None else Printf(format.value.0, [arg.value.0, pwd])
  }

  // ----- reading the pieces -----

  lemma AfterIts(lit: string, s: string)
    ensures After(lit + s, lit) == Some(s)
  {
    assert (lit + s)[|lit|..] == s;
  }

  lemma {:induction false} NothingToEscape(s: string)
    requires '\'' !in s
    ensures EscapeQuotes(s) == s
    decreases |s|
  {
    if s != "" {
      NothingToEscape(s[1..]);
      assert s == [s[0]] + s[1..];
    }
  }

  lemma ReadLiteral(s: string, rest: string)
    requires '\'' !in s && EndsWord(rest)
    ensures ReadWord("'" + s + "'" + rest, false) == Some((s, rest))
  {
    NothingToEscape(s);
    QuoteRoundTrip(s, rest);
  }

  lemma {:induction false} PrintsItself(p: string, format: string, args: seq<string>)
    requires '\\' !in p && '%' !in p
    ensures Printf(p + format, args) == Before(p, Printf(format, args))
    decreases |p|
  {
    if p == "" {
      assert p + format == format;
      assert Printf(format, args).Some? ==> "" + Printf(format, args).value == Printf(format, args).value;
    } else {
      PrintsItself(p[1..], format, args);
      assert (p + format)[1..] == p[1..] + format;
      var r := Printf(format, args);
      if r.Some? {
        assert [p[0]] + (p[1..] + r.value) == p + r.value;
      }
    }
  }

  lemma PrintsOctal036(format: string, args: seq<string>)
    ensures Printf("\\036" + format, args) == Before("\U{1e}", Printf(format, args))
  {
    assert ("\\036" + format)[4..] == format;
  }

  lemma PrintsArg(arg: string, format: string, args: seq<string>)
    ensures Printf("%s" + format, [arg] + args) == Before(arg, Printf(format, args))
  {
    assert ("%s" + format)[2..] == format && ([arg] + args)[1..] == args;
  }

  lemma PrintsEnd(format: string)
    requires format == "\\036"
    ensures Printf(format, []) == Some("\U{1e}")
  {
    PrintsOctal036("", []);
    assert "\\036" + "" == "\\036" && "\U{1e}" + "" == "\U{1e}";
  }

  lemma ReportPrints(nonce: string)
    ensures Printf(CD_REPORT, [nonce]) == Some("\U{1e}" + ("SGERR:" + (nonce + (":cwd" + "\U{1e}"))))
  {
    assert CD_REPORT == "\\036" + ("SGERR:" + ("%s" + (":cwd" + "\\036")));
    PrintsEnd("\\036");
    PrintsItself(":cwd", "\\036", []);
    PrintsArg(nonce, ":cwd" + "\\036", []);
    assert [nonce] + [] == [nonce];
    PrintsItself("SGERR:", "%s" + (":cwd" + "\\036"), [nonce]);
    PrintsOctal036("SGERR:" + ("%s" + (":cwd" + "\\036")), [nonce]);
  }

  lemma ProbePrints(nonce: string, pwd: string)
    ensures Printf(CD_PROBE, [nonce, pwd]) == Some("\U{1e}" + ("SGCWD:" + (nonce + (":" + (pwd + "\U{1e}")))))
  {
    assert CD_PROBE == "\\036" + ("SGCWD:" + ("%s" + (":" + ("%s" + "\\036"))));
    PrintsEnd("\\036");
    PrintsArg(pwd, "\\036", []);
    assert [pwd] + [] == [pwd];
    PrintsItself(":", "%s" + "\\036", [pwd]);
    PrintsArg(nonce, ":" + ("%s" + "\\036"), [pwd]);
    assert [nonce] + [pwd] == [nonce, pwd];
    PrintsItself("SGCWD:", "%s" + (":" + ("%s" + "\\036")), [nonce, pwd]);
    PrintsOctal036("SGCWD:" + ("%s" + (":" + ("%s" + "\\036"))), [nonce, pwd]);
  }

  lemma NoQuotes()
    ensures '\'' !in CD_REPORT && '\'' !in CD_PROBE
  {
    assert '\'' !in "\\036SGERR:" && '\'' !in "%s:cwd\\036";
    assert '\'' !in "\\036SGCWD:" && '\'' !in "%s:%s\\036";
  }

  // ----- the first line and the probe mean what they are for -----

  lemma ExitPartReads(rest: string)
    ensures ExitPart(CD_EXITS + rest) == Some((201, rest))
  {
    AfterIts(" >&2; exit ", "201; }\n" + rest);
    assert CD_EXITS + rest == " >&2; exit " + ("201; }\n" + rest);
    var s := "201; }\n" + rest;
    assert s[3..] == "; }\n" + rest && s[7..] == rest;
  }

  lemma FailPartReads(s: string)
    ensures FailPart(CD_FAILS + s) == Some("'" + CD_REPORT + "'" + (" " + s))
  {
    var format := "'" + CD_REPORT + "'" + (" " + s);
    assert CD_FAILS + s == " 2>/dev/null" + (" || { printf " + format);
    AfterIts(" 2>/dev/null", " || { printf " + format);
    AfterIts(" || { printf ", format);
  }

  lemma GuardReads(dir: string, nonce: string, rest: string, entered: bool)
    ensures RunGuard(CdGuard(nonce) + rest, dir, entered)
         == if entered then GoesOn(dir, rest)
            else Ends(201, "\U{1e}" + ("SGERR:" + (nonce + (":cwd" + "\U{1e}"))))
  {
    var behind := CD_EXITS + rest;
    assert CdGuard(nonce) + rest == CD_FAILS + (Quote(nonce) + behind);
    FailPartReads(Quote(nonce) + behind);
    NoQuotes();
    BlankEndsWord(" " + (Quote(nonce) + behind));
    ReadLiteral(CD_REPORT, " " + (Quote(nonce) + behind));
    AfterIts(" ", Quote(nonce) + behind);
    BlankEndsWord(behind);
    QuoteRoundTrip(nonce, behind);
    ExitPartReads(rest);
    ReportPrints(nonce);
  }

  /** The first line of a script: the shell enters exactly the gate's directory, whatever
      characters it has, and goes on; when it cannot, the script ends there with code 201
      and the report that carries the nonce, and nothing behind is run. An empty
      directory leaves the shell where it starts. */
  lemma FirstLineEntersOrEnds(cwd: string, nonce: string, rest: string, enters: string -> bool)
    ensures cwd == "" ==> CdLine(cwd, nonce) == ""
    ensures cwd != "" && enters(cwd) ==> RunCd(CdLine(cwd, nonce) + rest, enters) == GoesOn(cwd, rest)
    ensures cwd != "" && !enters(cwd) ==>
              RunCd(CdLine(cwd, nonce) + rest, enters)
              == Ends(201, "\U{1e}" + ("SGERR:" + (nonce + (":cwd" + "\U{1e}"))))
  {
    if cwd != "" {
      var guard := CdGuard(nonce) + rest;
      AssocText("cd -- ", Quote(cwd), CdGuard(nonce), rest);
      AfterIts("cd -- ", Quote(cwd) + guard);
      BlankEndsWord(guard);
      QuoteRoundTrip(cwd, guard);
      GuardReads(cwd, nonce, rest, enters(cwd));
    }
  }

  lemma AssocText(a: string, b: string, c: string, d: string)
    ensures a + b + c + d == a + (b + (c + d))
  {
  }

  lemma BlankEndsWord(s: string)
    requires s != "" && s[0] == ' '
    ensures EndsWord(s)
  {
  }

  /** The probe behind a successful `cd` prints the marker with the nonce and the new
      directory; without one nothing is added to the line. */
  lemma ProbeReportsTheDirectory(nonce: string, pwd: string)
    ensures Probe(nonce, false) == ""
    ensures RunProbe(Probe(nonce, true), pwd)
         == Some("\U{1e}" + ("SGCWD:" + (nonce + (":" + (pwd + "\U{1e}")))))
  {
    var arg := Quote(nonce) + PWD;
    AfterIts(" && printf ", "'" + CD_PROBE + "'" + (" " + arg));
    NoQuotes();
    ReadLiteral(CD_PROBE, " " + arg);
    AfterIts(" ", arg);
    BlankEndsWord(PWD);
    QuoteRoundTrip(nonce, PWD);
    ProbePrints(nonce, pwd);
  }
}
