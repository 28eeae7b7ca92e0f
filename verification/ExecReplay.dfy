/**
 Exec-mode replay (`standaloneEnv`, `parseAssignments`, ai_session_approval.go;
 `aiShQuote`, `buildExecScript`, ai_session_exec.go).

 Every exec-mode line runs in a fresh shell, so the gateway keeps the effect of
 all earlier `export` / `unset` lines as an overlay and prints it as shell text
 in front of the next line. `ShellEnv` reads such text back by the quoting rules
 of section 2.2 of the POSIX.1-2017 Shell Command Language, which gives the
 printed text a meaning of its own.
 */
module ExecReplay {
  import opened LineTypes
  import opened LineGate

  type Environment = map<string, string>

  // ----- names and assignments -----

  predicate NameChar(c: char, first: bool) {
    c == '_' || 'A' <= c <= 'Z' || 'a' <= c <= 'z' || (!first && '0' <= c <= '9')
  }

  predicate ValidEnvName(name: string) {
    name != "" && forall i :: 0 <= i < |name| ==> NameChar(name[i], i == 0)
  }

  predicate PlainEnvValue(v: string) {
    forall i :: 0 <= i < |v| ==> v[i] !in "~*?[]"
  }

  /** Position of the first '=' in `w`, or |w|. */
  function FirstEq(w: string): (n: nat)
    ensures n <= |w|
    ensures forall i :: 0 <= i < n ==> w[i] != '='
    ensures n < |w| ==> w[n] == '='
  {
    if w == "" || w[0] == '=' then 0 else 1 + FirstEq(w[1..])
  }

  predicate IsAssignment(w: string) {
    var eq := FirstEq(w);
    0 < eq < |w| && ValidEnvName(w[..eq]) && PlainEnvValue(w[eq + 1..])
  }

  function NameOf(w: string): string
    requires IsAssignment(w)
  {
    w[..FirstEq(w)]
  }

  function ValueOf(w: string): string
    requires IsAssignment(w)
  {
    w[FirstEq(w) + 1..]
  }

  predicate AllAssignments(words: seq<string>) {
    forall i :: 0 <= i < |words| ==> IsAssignment(words[i])
  }

  predicate AllNames(words: seq<string>) {
    forall i :: 0 <= i < |words| ==> ValidEnvName(words[i])
  }

  // ----- what names and assignments mean -----

  /** Letters, digits and underscores, no digit in front. */
  lemma NameMeans(name: string)
    ensures ValidEnvName(name) <==>
              && name != ""
              && (forall c :: c in name ==> c == '_' || 'A' <= c <= 'Z' || 'a' <= c <= 'z' || '0' <= c <= '9')
              && !('0' <= name[0] <= '9')
  {
    if forall c :: c in name ==> c == '_' || 'A' <= c <= 'Z' || 'a' <= c <= 'z' || '0' <= c <= '9' {
      assert forall i :: 0 <= i < |name| ==> name[i] in name;
    }
  }

  lemma PlainValueMeans(v: string)
    ensures PlainEnvValue(v) <==> '~' !in v && '*' !in v && '?' !in v && '[' !in v && ']' !in v
  {
    assert forall c :: c in "~*?[]" <==> c == '~' || c == '*' || c == '?' || c == '[' || c == ']';
    if '~' !in v && '*' !in v && '?' !in v && '[' !in v && ']' !in v {
      assert forall i :: 0 <= i < |v| ==> v[i] in v;
    }
  }

  lemma FirstEqAfterName(name: string, v: string)
    requires forall i :: 0 <= i < |name| ==> name[i] != '='
    ensures FirstEq(name + "=" + v) == |name|
  {
    var w := name + "=" + v;
    assert w[|name|] == '=';
    assert forall i :: 0 <= i < |name| ==> w[i] == name[i];
  }

  /** `name=value` is an assignment exactly when the name is valid and the value has none
      of the five characters that a shell would expand, and it assigns exactly this. */
  lemma AssignmentMeans(name: string, value: string)
    requires '=' !in name
    ensures IsAssignment(name + "=" + value) <==>
              && ValidEnvName(name)
              && '~' !in value && '*' !in value && '?' !in value && '[' !in value && ']' !in value
    ensures IsAssignment(name + "=" + value) ==>
              NameOf(name + "=" + value) == name && ValueOf(name + "=" + value) == value
  {
    var w := name + "=" + value;
    FirstEqAfterName(name, value);
    PlainValueMeans(value);
    assert w[..|name|] == name && w[|name| + 1..] == value;
  }

  /** Every assignment has this form. */
  lemma AssignmentForm(w: string)
    requires IsAssignment(w)
    ensures w == NameOf(w) + "=" + ValueOf(w) && ValidEnvName(NameOf(w))
  {
    var eq := FirstEq(w);
    assert w == w[..eq] + [w[eq]] + w[eq + 1..];
  }

  // ----- what a shell does with an environment line, word by word -----

  /** Assign the words to `env` from left to right. */
  function AssignAll(words: seq<string>, env: Environment): Environment
    requires AllAssignments(words)
  {
    if words == [] then env
    else AssignAll(words[1..], env[NameOf(words[0]) := ValueOf(words[0])])
  }

  /** The names assigned are those of the words, and the last word of a name decides. */
  lemma {:induction false} AssignedMeans(words: seq<string>, env: Environment, n: string)
    requires AllAssignments(words)
    ensures n in AssignAll(words, env) <==> n in env || exists i :: 0 <= i < |words| && NameOf(words[i]) == n
    ensures (forall i :: 0 <= i < |words| ==> NameOf(words[i]) != n) && n in env ==> AssignAll(words, env)[n] == env[n]
    ensures forall i :: 0 <= i < |words| && NameOf(words[i]) == n && (forall j :: i < j < |words| ==> NameOf(words[j]) != n) ==>
              AssignAll(words, env)[n] == ValueOf(words[i])
  {
    if words != [] {
      var rest, after := words[1..], env[NameOf(words[0]) := ValueOf(words[0])];
      AssignedMeans(rest, after, n);
      assert forall i :: 0 <= i < |rest| ==> rest[i] == words[i + 1];
      assert forall i :: 1 <= i < |words| ==> words[i] == rest[i - 1];
    }
  }

  function UnsetAll(words: seq<string>, env: Environment): Environment {
    if words == [] then env else UnsetAll(words[1..], env - {words[0]})
  }

  /** "export N=v ...", "N=v ..." or "unset N ...". */
  predicate IsEnvLine(words: seq<string>) {
    && words != []
    && if words[0] == "export" then |words| > 1 && AllAssignments(words[1..])
       else if words[0] == "unset" then |words| > 1 && AllNames(words[1..])
       else AllAssignments(words)
  }

  /** The three forms. */
  lemma EnvLineMeans(words: seq<string>)
    ensures IsEnvLine(words) <==>
              || (|words| > 1 && words[0] == "export" && forall i :: 1 <= i < |words| ==> IsAssignment(words[i]))
              || (|words| > 1 && words[0] == "unset" && forall i :: 1 <= i < |words| ==> ValidEnvName(words[i]))
              || (|words| > 0 && words[0] != "export" && words[0] != "unset"
                  && forall i :: 0 <= i < |words| ==> IsAssignment(words[i]))
  {
    if words != [] {
      assert forall i :: 1 <= i < |words| ==> words[i] == words[1..][i - 1];
    }
  }

  /** The gateway's reading of an environment line: a bare `N=v` line counts like
      `export N=v`, although a shell would set it without exporting it. */
  function RunEnvLine(words: seq<string>, env: Environment): Environment
    requires IsEnvLine(words)
  {
    if words[0] == "export" then AssignAll(words[1..], env)
    else if words[0] == "unset" then UnsetAll(words[1..], env)
    else AssignAll(words, env)
  }

  /** The history, line by line, as the gateway reads it. */
  function RunHistory(history: seq<seq<string>>, env: Environment): Environment
    requires forall i :: 0 <= i < |history| ==> IsEnvLine(history[i])
  {
    if history == [] then env
    else RunEnvLine(history[|history| - 1], RunHistory(history[..|history| - 1], env))
  }

  // ----- how the gateway reads an environment line -----

  method ParseAssignments(words: seq<string>) returns (sets: Option<Environment>)
    ensures sets.Some? <==> AllAssignments(words)
    ensures sets.Some? ==> sets.value == AssignAll(words, map[])
  {
    var acc: Environment := map[];
    for i := 0 to |words|
      invariant AllAssignments(words[..i])
      invariant acc == AssignAll(words[..i], map[])
    {
      var w := words[i];
      var eq := FirstEq(w);
      if eq == |w| || eq <= 0 || !ValidEnvName(w[..eq]) || !PlainEnvValue(w[eq + 1..]) {
        assert !IsAssignment(words[i]);
        return None;
      }
      AssignSnoc(words[..i], w, map[]);
      assert words[..i + 1] == words[..i] + [w];
      acc := acc[w[..eq] := w[eq + 1..]];
    }
    assert words[..|words|] == words;
    sets := Some(acc);
  }

  lemma {:induction false} AssignSnoc(words: seq<string>, w: string, env: Environment)
    requires AllAssignments(words) && IsAssignment(w)
    ensures AllAssignments(words + [w])
    ensures AssignAll(words + [w], env) == AssignAll(words, env)[NameOf(w) := ValueOf(w)]
  {
    if words == [] {
      assert ([] + [w])[1..] == [];
      assert [] + [w] == [w];
    } else {
      AssignSnoc(words[1..], w, env[NameOf(words[0]) := ValueOf(words[0])]);
      assert (words + [w])[1..] == words[1..] + [w];
    }
  }

  /** The set and unset parts of an environment line; `Some` exactly for one. */
  method StandaloneEnv(words: seq<string>) returns (parts: Option<(Environment, seq<string>)>)
    ensures parts.Some? <==> IsEnvLine(words)
    ensures parts.Some? ==> parts.value == (SetPart(words), UnsetPart(words))
    ensures parts.Some? && words[0] == "unset" ==> parts.value.0 == map[] && parts.value.1 == words[1..]
    ensures parts.Some? && words[0] == "export" ==>
              parts.value.0 == AssignAll(words[1..], map[]) && parts.value.1 == []
    ensures parts.Some? && words[0] != "unset" && words[0] != "export" ==>
              parts.value.0 == AssignAll(words, map[]) && parts.value.1 == []
  {
    if |words| == 0 {
      return None;
    }
    if words[0] == "export" {
      if |words| < 2 {
        return None;
      }
      var sets := ParseAssignments(words[1..]);
      return if sets.Some? then Some((sets.value, [])) else None;
    }
    if words[0] == "unset" {
      if |words| < 2 {
        return None;
      }
      var names: seq<string> := [];
      for i := 1 to |words|
        invariant names == words[1..i] && AllNames(names)
      {
        if !ValidEnvName(words[i]) {
          assert words[1..][i - 1] == words[i];
          return None;
        }
        names := names + [words[i]];
      }
      assert words[1..|words|] == words[1..];
      return Some((map[], names));
    }
    var sets := ParseAssignments(words);
    return if sets.Some? then Some((sets.value, [])) else None;
  }

  function SetPart(words: seq<string>): Environment
    requires IsEnvLine(words)
  {
    if words[0] == "unset" then map[]
    else AssignAll(if words[0] == "export" then words[1..] else words, map[])
  }

  function UnsetPart(words: seq<string>): seq<string>
    requires IsEnvLine(words)
  {
    if words[0] == "unset" then words[1..] else []
  }

  function EnvClass(words: seq<string>): LineClass
    requires IsEnvLine(words)
  {
    LineClass(Low, Env, SetPart(words), UnsetPart(words))
  }

  /** The gate's overlay after the history: `finishLine` applied line by line. */
  datatype Overlay = Overlay(env: Environment, unset: set<string>)

  function OverlayOf(history: seq<seq<string>>): Overlay
    requires forall i :: 0 <= i < |history| ==> IsEnvLine(history[i])
  {
    if history == [] then Overlay(map[], {})
    else
      var before, cls := OverlayOf(history[..|history| - 1]), EnvClass(history[|history| - 1]);
      Overlay(OverlayEnv(before.env, cls), OverlayUnset(before.unset, cls))
  }

  // ----- the overlay means the history -----

  function ApplyOverlay(o: Overlay, env: Environment): Environment {
    (env - o.unset) + o.env
  }

  lemma {:induction false} AssignIsMerge(words: seq<string>, env: Environment, acc: Environment)
    requires AllAssignments(words)
    ensures AssignAll(words, env + acc) == env + AssignAll(words, acc)
  {
    if words != [] {
      var n, v := NameOf(words[0]), ValueOf(words[0]);
      assert (env + acc)[n := v] == env + acc[n := v];
      AssignIsMerge(words[1..], env, acc[n := v]);
    }
  }

  lemma {:induction false} UnsetIsRemoval(words: seq<string>, env: Environment)
    ensures UnsetAll(words, env) == env - Names(words)
  {
    if words == [] {
      assert env - Names(words) == env;
    } else {
      UnsetIsRemoval(words[1..], env - {words[0]});
      assert Names(words) == {words[0]} + Names(words[1..]);
    }
  }

  lemma EnvLineMeaning(words: seq<string>, env: Environment)
    requires IsEnvLine(words)
    ensures RunEnvLine(words, env) == (env + SetPart(words)) - Names(UnsetPart(words))
  {
    if words[0] == "unset" {
      UnsetIsRemoval(words[1..], env);
      assert env + SetPart(words) == env;
    } else {
      var assigns := if words[0] == "export" then words[1..] else words;
      AssignIsMerge(assigns, env, map[]);
      assert env + map[] == env;
      assert Names(UnsetPart(words)) == {};
      assert (env + SetPart(words)) - {} == env + SetPart(words);
    }
  }

  /** The overlay never both sets and unsets a name. */
  lemma {:induction false} OverlayIsDisjoint(history: seq<seq<string>>)
    requires forall i :: 0 <= i < |history| ==> IsEnvLine(history[i])
    ensures OverlayOf(history).env.Keys !! OverlayOf(history).unset
  {
    if history != [] {
      OverlayIsDisjoint(history[..|history| - 1]);
    }
  }

  lemma {:induction false} AssignedNamesAreValid(words: seq<string>, env: Environment)
    requires AllAssignments(words) && forall n :: n in env ==> ValidEnvName(n)
    ensures forall n :: n in AssignAll(words, env) ==> ValidEnvName(n)
  {
    if words != [] {
      AssignedNamesAreValid(words[1..], env[NameOf(words[0]) := ValueOf(words[0])]);
    }
  }

  lemma {:induction false} OverlayNamesAreValid(history: seq<seq<string>>)
    requires forall i :: 0 <= i < |history| ==> IsEnvLine(history[i])
    ensures forall n :: n in OverlayOf(history).env || n in OverlayOf(history).unset ==> ValidEnvName(n)
  {
    if history != [] {
      OverlayNamesAreValid(history[..|history| - 1]);
      var words := history[|history| - 1];
      if words[0] != "unset" {
        AssignedNamesAreValid(if words[0] == "export" then words[1..] else words, map[]);
      }
    }
  }

  lemma OverlayStep(o: Overlay, words: seq<string>, env: Environment)
    requires IsEnvLine(words) && o.env.Keys !! o.unset
    ensures ApplyOverlay(Overlay(OverlayEnv(o.env, EnvClass(words)), OverlayUnset(o.unset, EnvClass(words))), env)
         == RunEnvLine(words, ApplyOverlay(o, env))
  {
    EnvLineMeaning(words, ApplyOverlay(o, env));
  }

  lemma {:induction false} OverlayMeansHistory(history: seq<seq<string>>, env: Environment)
    requires forall i :: 0 <= i < |history| ==> IsEnvLine(history[i])
    ensures ApplyOverlay(OverlayOf(history), env) == RunHistory(history, env)
  {
    if history == [] {
      assert ApplyOverlay(Overlay(map[], {}), env) == env;
    } else {
      var before := history[..|history| - 1];
      OverlayMeansHistory(before, env);
      OverlayIsDisjoint(before);
      OverlayStep(OverlayOf(before), history[|history| - 1], env);
    }
  }

  // ----- printing -----

  function EscapeQuotes(s: string): string {
    if s == "" then "" else (if s[0] == '\'' then "'\\''" else [s[0]]) + EscapeQuotes(s[1..])
  }

  /** `aiShQuote`. */
  function Quote(s: string): string {
    "'" + EscapeQuotes(s) + "'"
  }

  function ExportLine(name: string, value: string): string {
    "export " + name + "=" + Quote(value) + "\n"
  }

  function UnsetLine(name: string): string {
    "unset " + name + "\n"
  }

  function Exports(names: seq<string>, env: Environment): string
    requires forall i :: 0 <= i < |names| ==> names[i] in env
  {
    if names == [] then ""
    else Exports(names[..|names| - 1], env) + ExportLine(names[|names| - 1], env[names[|names| - 1]])
  }

  /** The unset names that are valid and that the overlay does not set. */
  function Unsets(names: seq<string>, env: Environment): string {
    if names == [] then ""
    else
      var n := names[|names| - 1];
      Unsets(names[..|names| - 1], env) + (if ValidEnvName(n) && n !in env then UnsetLine(n) else "")
  }

  predicate LexLe(a: string, b: string) {
    a == "" || (b != "" && (a[0] < b[0] || (a[0] == b[0] && LexLe(a[1..], b[1..]))))
  }

  lemma {:induction false} LexTotal(a: string, b: string)
    ensures LexLe(a, b) || LexLe(b, a)
  {
    if a != "" && b != "" && a[0] == b[0] {
      LexTotal(a[1..], b[1..]);
    }
  }

  /** `a` and `b` first differ at `k`, where `a` has the smaller character. */
  predicate LessAt(a: string, b: string, k: nat) {
    k < |a| && k < |b| && a[..k] == b[..k] && a[k] < b[k]
  }

  /** The order of strings: a beginning comes first, else the first difference decides. */
  lemma {:induction false} LexLeMeans(a: string, b: string)
    ensures LexLe(a, b) <==> a <= b || exists k: nat :: LessAt(a, b, k)
  {
    if a != "" && b != "" && a[0] == b[0] {
      LexLeMeans(a[1..], b[1..]);
      if k: nat :| LessAt(a[1..], b[1..], k) {
        assert a[..k + 1] == [a[0]] + a[1..][..k] && b[..k + 1] == [b[0]] + b[1..][..k];
        assert LessAt(a, b, k + 1);
      }
      if k: nat :| LessAt(a, b, k) {
        assert a[1..][..k - 1] == a[..k][1..] && b[1..][..k - 1] == b[..k][1..];
        assert LessAt(a[1..], b[1..], k - 1);
      }
      assert a == [a[0]] + a[1..] && b == [b[0]] + b[1..];
    } else if a != "" && b != "" {
      if a[0] < b[0] {
        assert LessAt(a, b, 0);
      }
      if k: nat :| LessAt(a, b, k) {
        assert k > 0 ==> a[..k][0] == b[..k][0];
      }
    }
  }

  ghost predicate Sorted(names: seq<string>) {
    forall i :: 0 < i < |names| ==> LexLe(names[i - 1], names[i])
  }

  method InsertSorted(names: seq<string>, n: string) returns (r: seq<string>)
    requires Sorted(names)
    ensures Sorted(r) && Names(r) == Names(names) + {n} && |r| == |names| + 1
  {
    var i := 0;
    while i < |names| && LexLe(names[i], n)
      invariant 0 <= i <= |names|
      invariant i > 0 ==> LexLe(names[i - 1], n)
    {
      i := i + 1;
    }
    if i < |names| {
      LexTotal(names[i], n);
    }
    r := names[..i] + [n] + names[i..];
    forall x ensures x in Names(r) <==> x in Names(names) + {n} {
      if x in Names(names) {
        var k :| 0 <= k < |names| && names[k] == x;
        assert r[if k < i then k else k + 1] == x;
      }
      assert r[i] == n;
    }
  }

  method SortedValidNames(env: Environment) returns (sorted: seq<string>)
    ensures Sorted(sorted) && Names(sorted) == (set n | n in env && ValidEnvName(n))
    ensures forall i :: 0 <= i < |sorted| ==> sorted[i] in env && ValidEnvName(sorted[i])
  {
    sorted := [];
    var todo := env.Keys;
    while todo != {}
      invariant todo <= env.Keys && Sorted(sorted)
      invariant Names(sorted) == (set n | n in env && n !in todo && ValidEnvName(n))
      decreases todo
    {
      var n :| n in todo;
      todo := todo - {n};
      if ValidEnvName(n) {
        sorted := InsertSorted(sorted, n);
      }
    }
    assert forall i :: 0 <= i < |sorted| ==> sorted[i] in Names(sorted);
  }

  /** The environment part of `buildExecScript`; `names` are the exported names in order. */
  method BuildEnvPrefix(env: Environment, unset: seq<string>) returns (text: string, names: seq<string>)
    ensures Sorted(names) && Names(names) == (set n | n in env && ValidEnvName(n))
    ensures forall i :: 0 <= i < |names| ==> names[i] in env && ValidEnvName(names[i])
    ensures text == Exports(names, env) + Unsets(unset, env)
  {
    var sorted := SortedValidNames(env);
    names := sorted;
    var exports := ExportLines(sorted, env);
    var unsets := UnsetLines(unset, env);
    text := exports + unsets;
  }

  method ExportLines(sorted: seq<string>, env: Environment) returns (text: string)
    requires forall i :: 0 <= i < |sorted| ==> sorted[i] in env
    ensures text == Exports(sorted, env)
  {
    text := "";
    for i := 0 to |sorted|
      invariant text == Exports(sorted[..i], env)
    {
      assert sorted[..i + 1][..i] == sorted[..i];
      text := text + ExportLine(sorted[i], env[sorted[i]]);
    }
    assert sorted[..|sorted|] == sorted;
  }

  method UnsetLines(unset: seq<string>, env: Environment) returns (text: string)
    ensures text == Unsets(unset, env)
  {
    text := "";
    for i := 0 to |unset|
      invariant text == Unsets(unset[..i], env)
    {
      assert unset[..i + 1][..i] == unset[..i];
      if ValidEnvName(unset[i]) && unset[i] !in env {
        text := text + UnsetLine(unset[i]);
      }
    }
    assert unset[..|unset|] == unset;
  }

  // ----- reading the text back -----

  /** Characters that the shell takes literally outside quotes. */
  predicate PlainChar(c: char) {
    c !in "|&;<>()$`\\\"' \t\n*?[#~%!{}" && ' ' < c
  }

  predicate EndsWord(s: string) {
    s == "" || s[0] == ' ' || s[0] == '\t' || s[0] == '\n'
  }

  function Cons(c: char, r: Option<(string, string)>): Option<(string, string)> {
    match r
    case None => None
    case Some((w, rest)) => Some(([c] + w, rest))
  }

  /** One word and the rest of the text: single quotes keep everything literal
      (section 2.2.2), a backslash keeps the next character (section 2.2.1). None
      for text that needs a rule not listed here. */
  function ReadWord(s: string, quoted: bool): Option<(string, string)>
    decreases |s|
  {
    if quoted then
      if s == "" then None
      else if s[0] == '\'' then ReadWord(s[1..], false)
      else Cons(s[0], ReadWord(s[1..], true))
    else if EndsWord(s) then Some(("", s))
    else if s[0] == '\'' then ReadWord(s[1..], true)
    else if s[0] == '\\' then
      if |s| < 2 || s[1] == '\n' then None else Cons(s[1], ReadWord(s[2..], false))
    else if PlainChar(s[0]) then Cons(s[0], ReadWord(s[1..], false))
    else None
  }

  lemma {:induction false} ReadWordShrinks(s: string, quoted: bool)
    ensures ReadWord(s, quoted).Some? ==> |ReadWord(s, quoted).value.1| <= |s|
    decreases |s|
  {
    if s != "" {
      ReadWordShrinks(s[1..], true);
      ReadWordShrinks(s[1..], false);
      if |s| >= 2 {
        ReadWordShrinks(s[2..], false);
      }
    }
  }

  /** Run "export N=v" and "unset N" lines, nothing else. */
  function ShellEnv(s: string, env: Environment): Option<Environment>
    decreases |s|
  {
    if s == "" then Some(env)
    else
      match ReadWord(s, false)
      case None => None
      case Some((cmd, rest)) =>
        ReadWordShrinks(s, false);
        if rest == "" || rest[0] != ' ' then None
        else
          ReadWordShrinks(rest[1..], false);
          match ReadWord(rest[1..], false)
          case None => None
          case Some((arg, rest2)) =>
            if rest2 == "" || rest2[0] != '\n' then None
            else if cmd == "export" then
              var eq := FirstEq(arg);
              if eq < |arg| && ValidEnvName(arg[..eq]) then ShellEnv(rest2[1..], env[arg[..eq] := arg[eq + 1..]])
              else None
            else if cmd == "unset" && ValidEnvName(arg) then ShellEnv(rest2[1..], env - {arg})
            else None
  }

  // ----- quoting round trip -----

  /** The four characters that stand for a quote inside a quoted string. */
  lemma ReadEscapedQuote(tail: string)
    ensures ReadWord("'\\''" + tail, true) == Cons('\'', ReadWord(tail, true))
  {
    var t1, t2, t3 := "'\\''" + tail, "\\''" + tail, "'" + tail;
    assert t1[1..] == t2 && t2[2..] == t3 && t3[1..] == tail;
    assert ReadWord(t3, false) == ReadWord(tail, true);
    assert ReadWord(t2, false) == Cons('\'', ReadWord(t3, false));
  }

  lemma {:induction false} ReadInsideQuotes(s: string, rest: string)
    requires EndsWord(rest)
    ensures ReadWord(EscapeQuotes(s) + "'" + rest, true) == Some((s, rest))
    decreases |s|
  {
    var text := EscapeQuotes(s) + "'" + rest;
    if s == "" {
      assert text == "'" + rest;
      assert text[1..] == rest;
    } else {
      var tail := EscapeQuotes(s[1..]) + "'" + rest;
      ReadInsideQuotes(s[1..], rest);
      assert s == [s[0]] + s[1..];
      if s[0] == '\'' {
        assert text == "'\\''" + tail;
        ReadEscapedQuote(tail);
      } else {
        assert text == [s[0]] + tail;
        assert text[1..] == tail;
      }
    }
  }

  /** Reading a quoted string as a shell word gives exactly the string, for every string. */
  lemma QuoteRoundTrip(s: string, rest: string)
    requires EndsWord(rest)
    ensures ReadWord(Quote(s) + rest, false) == Some((s, rest))
  {
    ReadInsideQuotes(s, rest);
    assert (Quote(s) + rest)[1..] == EscapeQuotes(s) + "'" + rest;
  }

  /** Two strings with the same quoted form are the same string. */
  lemma QuoteIsInjective(s: string, t: string)
    requires Quote(s) == Quote(t)
    ensures s == t
  {
    QuoteRoundTrip(s, "");
    QuoteRoundTrip(t, "");
  }

  // ----- the printed prefix means the overlay -----

  lemma {:induction false} ReadPlainPrefix(p: string, s: string)
    requires forall i :: 0 <= i < |p| ==> PlainChar(p[i])
    ensures var r := ReadWord(s, false);
            ReadWord(p + s, false) == if r.None? then None else Some((p + r.value.0, r.value.1))
    decreases |p|
  {
    if p == "" {
      assert p + s == s;
      if ReadWord(s, false).Some? {
        assert p + ReadWord(s, false).value.0 == ReadWord(s, false).value.0;
      }
    } else {
      ReadPlainPrefix(p[1..], s);
      assert (p + s)[1..] == p[1..] + s;
      var r := ReadWord(s, false);
      if r.Some? {
        assert [p[0]] + (p[1..] + r.value.0) == p + r.value.0;
      }
    }
  }

  lemma NamesArePlain(name: string)
    requires ValidEnvName(name)
    ensures forall i :: 0 <= i < |name| ==> PlainChar(name[i]) && name[i] != '='
  {
  }

  lemma ReadCommand(cmd: string, s: string)
    requires forall i :: 0 <= i < |cmd| ==> PlainChar(cmd[i])
    ensures ReadWord(cmd + " " + s, false) == Some((cmd, " " + s))
  {
    ReadPlainPrefix(cmd, " " + s);
    assert cmd + (" " + s) == cmd + " " + s;
    assert ReadWord(" " + s, false) == Some(("", " " + s));
    assert cmd + "" == cmd;
  }

  lemma ReadExportArg(name: string, value: string, rest: string)
    requires ValidEnvName(name)
    ensures ReadWord(name + "=" + Quote(value) + "\n" + rest, false)
         == Some((name + "=" + value, "\n" + rest))
  {
    NamesArePlain(name);
    QuoteRoundTrip(value, "\n" + rest);
    assert Quote(value) + ("\n" + rest) == Quote(value) + "\n" + rest;
    ReadPlainPrefix(name + "=", Quote(value) + "\n" + rest);
    assert (name + "=") + (Quote(value) + "\n" + rest) == name + "=" + Quote(value) + "\n" + rest;
  }

  lemma RunExport(name: string, value: string, rest: string, env: Environment)
    requires ValidEnvName(name)
    ensures ShellEnv(ExportLine(name, value) + rest, env) == ShellEnv(rest, env[name := value])
  {
    var arg := name + "=" + Quote(value) + "\n" + rest;
    var text := ExportLine(name, value) + rest;
    assert text == "export" + " " + arg;
    ReadCommand("export", arg);
    assert (" " + arg)[1..] == arg;
    ReadExportArg(name, value, rest);
    var word := name + "=" + value;
    NamesArePlain(name);
    FirstEqAfterName(name, value);
    assert word[..|name|] == name && word[|name| + 1..] == value;
    assert ("\n" + rest)[1..] == rest;
  }

  lemma RunUnset(name: string, rest: string, env: Environment)
    requires ValidEnvName(name)
    ensures ShellEnv(UnsetLine(name) + rest, env) == ShellEnv(rest, env - {name})
  {
    var arg := name + "\n" + rest;
    assert UnsetLine(name) + rest == "unset" + " " + arg;
    ReadCommand("unset", arg);
    assert (" " + arg)[1..] == arg;
    ReadUnsetArg(name, rest);
    assert ("\n" + rest)[1..] == rest;
  }

  lemma ReadUnsetArg(name: string, rest: string)
    requires ValidEnvName(name)
    ensures ReadWord(name + "\n" + rest, false) == Some((name, "\n" + rest))
  {
    NamesArePlain(name);
    ReadPlainPrefix(name, "\n" + rest);
    assert name + ("\n" + rest) == name + "\n" + rest;
    assert ReadWord("\n" + rest, false) == Some(("", "\n" + rest));
    assert name + "" == name;
  }

  function Sets(names: seq<string>, env: Environment): Environment {
    map n | n in Names(names) && n in env :: env[n]
  }

  lemma {:induction false} RunExports(names: seq<string>, env: Environment, rest: string, base: Environment)
    requires forall i :: 0 <= i < |names| ==> names[i] in env && ValidEnvName(names[i])
    ensures ShellEnv(Exports(names, env) + rest, base) == ShellEnv(rest, base + Sets(names, env))
    decreases |names|
  {
    if names == [] {
      assert Exports(names, env) + rest == rest;
      assert base + Sets(names, env) == base;
    } else {
      var init, n := names[..|names| - 1], names[|names| - 1];
      SplitExports(names, env, rest);
      RunExports(init, env, ExportLine(n, env[n]) + rest, base);
      RunExport(n, env[n], rest, base + Sets(init, env));
      SetsStep(names, env, base);
    }
  }

  lemma SplitExports(names: seq<string>, env: Environment, rest: string)
    requires names != [] && forall i :: 0 <= i < |names| ==> names[i] in env
    ensures var n := names[|names| - 1];
            Exports(names, env) + rest == Exports(names[..|names| - 1], env) + (ExportLine(n, env[n]) + rest)
  {
  }

  lemma SetsStep(names: seq<string>, env: Environment, base: Environment)
    requires names != [] && forall i :: 0 <= i < |names| ==> names[i] in env
    ensures var init, n := names[..|names| - 1], names[|names| - 1];
            (base + Sets(init, env))[n := env[n]] == base + Sets(names, env)
  {
    assert Names(names) == Names(names[..|names| - 1]) + {names[|names| - 1]};
  }

  lemma {:induction false} RunUnsets(names: seq<string>, env: Environment, rest: string, base: Environment)
    requires forall i :: 0 <= i < |names| ==> ValidEnvName(names[i])
    ensures ShellEnv(Unsets(names, env) + rest, base) == ShellEnv(rest, base - (Names(names) - env.Keys))
    decreases |names|
  {
    if names == [] {
      assert Unsets(names, env) + rest == rest;
      assert base - (Names(names) - env.Keys) == base;
    } else {
      var init, n := names[..|names| - 1], names[|names| - 1];
      SplitUnsets(names, env, rest);
      UnsetsStep(names, env, base);
      if n !in env {
        RunUnsets(init, env, UnsetLine(n) + rest, base);
        RunUnset(n, rest, base - (Names(init) - env.Keys));
      } else {
        RunUnsets(init, env, rest, base);
      }
    }
  }

  lemma SplitUnsets(names: seq<string>, env: Environment, rest: string)
    requires names != [] && ValidEnvName(names[|names| - 1])
    ensures var init, n := names[..|names| - 1], names[|names| - 1];
            Unsets(names, env) + rest == Unsets(init, env) + (if n in env then rest else UnsetLine(n) + rest)
  {
  }

  lemma UnsetsStep(names: seq<string>, env: Environment, base: Environment)
    requires names != []
    ensures var init, n := names[..|names| - 1], names[|names| - 1];
            base - (Names(names) - env.Keys)
            == if n in env then base - (Names(init) - env.Keys) else (base - (Names(init) - env.Keys)) - {n}
  {
    var init, n := names[..|names| - 1], names[|names| - 1];
    assert Names(names) == Names(init) + {n};
    if n in env {
      assert Names(names) - env.Keys == Names(init) - env.Keys;
    } else {
      assert Names(names) - env.Keys == (Names(init) - env.Keys) + {n};
    }
  }

  /** The printed prefix, run in any base environment, applies the overlay. */
  lemma PrefixAppliesOverlay(o: Overlay, names: seq<string>, unset: seq<string>, base: Environment)
    requires o.env.Keys !! o.unset
    requires forall n :: n in o.env || n in o.unset ==> ValidEnvName(n)
    requires Names(names) == o.env.Keys && forall i :: 0 <= i < |names| ==> names[i] in o.env
    requires Names(unset) == o.unset
    ensures ShellEnv(Exports(names, o.env) + Unsets(unset, o.env), base) == Some(ApplyOverlay(o, base))
  {
    forall i | 0 <= i < |unset| ensures ValidEnvName(unset[i]) {
      assert unset[i] in Names(unset);
    }
    var unsets := Unsets(unset, o.env);
    RunExports(names, o.env, unsets, base);
    assert Sets(names, o.env) == o.env;
    RunUnsets(unset, o.env, "", base + o.env);
    assert unsets + "" == unsets;
    OverlayLeft(o, unset, base);
  }

  lemma OverlayLeft(o: Overlay, unset: seq<string>, base: Environment)
    requires o.env.Keys !! o.unset && Names(unset) == o.unset
    ensures base + o.env - (Names(unset) - o.env.Keys) == ApplyOverlay(o, base)
  {
    assert Names(unset) - o.env.Keys == o.unset;
  }

  /** The printed prefix, run by a shell in any base environment, has exactly the
      effect of all successful export and unset lines of the session in order;
      `names` and `unset` may list the overlay's names in any order. */
  lemma ReplayRefinesHistory(history: seq<seq<string>>, names: seq<string>, unset: seq<string>, base: Environment)
    requires forall i :: 0 <= i < |history| ==> IsEnvLine(history[i])
    requires Names(names) == (set n | n in OverlayOf(history).env && ValidEnvName(n))
    requires Names(unset) == OverlayOf(history).unset
    requires forall i :: 0 <= i < |names| ==> names[i] in OverlayOf(history).env
    ensures ShellEnv(Exports(names, OverlayOf(history).env) + Unsets(unset, OverlayOf(history).env), base)
         == Some(RunHistory(history, base))
  {
    OverlayNamesAreValid(history);
    OverlayIsDisjoint(history);
    assert Names(names) == OverlayOf(history).env.Keys;
    PrefixAppliesOverlay(OverlayOf(history), names, unset, base);
    OverlayMeansHistory(history, base);
  }
}
