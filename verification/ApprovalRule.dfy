/**
 When a classified line may run without a human (`sessionNeedsApproval`,
 `sessionEnvNameClass` and `normalizeSessionBypassMaxRisk`,
 ai_session_approval.go).
 */
module ApprovalRule {
  import opened LineTypes

  datatype NameClass = Safe | Dangerous | Other

  function SafeNames(): seq<string> {
    ["LANG", "TZ", "NO_COLOR", "COLUMNS", "LINES", "TERM"]
  }

  function DangerousNames(): seq<string> {
    ["PATH", "BASH_ENV", "ENV", "PROMPT_COMMAND", "IFS", "CDPATH", "SHELLOPTS", "BASHOPTS", "HISTFILE",
     "PAGER", "MANPAGER", "EDITOR", "VISUAL", "LESSOPEN", "LESSCLOSE", "RUBYOPT", "NODE_OPTIONS",
     "SSH_ASKPASS", "SUDO_ASKPASS", "TMPDIR", "HOME", "XDG_CONFIG_HOME", "ZDOTDIR", "GCONV_PATH",
     "LOCPATH", "NLSPATH", "TERMINFO", "TERMINFO_DIRS", "INPUTRC"]
  }

  function DangerousPrefixes(): seq<string> {
    ["LD_", "DYLD_", "GIT_", "PYTHON", "PERL5", "BASH_FUNC_", "LESS"]
  }

  predicate Listed(names: seq<string>, s: string) {
    names != [] && (names[0] == s || Listed(names[1..], s))
  }

  predicate HasPrefix(prefixes: seq<string>, s: string) {
    prefixes != [] && (prefixes[0] <= s || HasPrefix(prefixes[1..], s))
  }

  function UpperChar(c: char): char {
    if 'a' <= c <= 'z' then (c as int - 32) as char else c
  }

  function Upper(s: string): (r: string)
    ensures |r| == |s|
  {
    seq(|s|, i requires 0 <= i < |s| => UpperChar(s[i]))
  }

  predicate DangerousName(upper: string) {
    || Listed(DangerousNames(), upper)
    || HasPrefix(DangerousPrefixes(), upper)
    || (|upper| == 3 && "PS" <= upper && '0' <= upper[2] <= '4')
  }

  function EnvNameClass(name: string): NameClass {
    if DangerousName(Upper(name)) then Dangerous
    else if Listed(SafeNames(), name) || "LC_" <= name then Safe
    else Other
  }

  /** The bypass limit is Low or Medium whatever the stored setting says. */
  function ClampBypass(setting: Risk): Risk {
    if setting == Medium then Medium else Low
  }

  predicate TouchesUnsafeName(cls: LineClass) {
    || (exists name :: name in cls.envSet && EnvNameClass(name) != Safe)
    || (exists i :: 0 <= i < |cls.envUnset| && EnvNameClass(cls.envUnset[i]) != Safe)
  }

  predicate SessionNeedsApproval(tainted: bool, cls: LineClass, setting: Risk) {
    || cls.risk == High
    || cls.effect == StateChange
    || Rank(cls.risk) > Rank(ClampBypass(setting))
    || tainted
    || (cls.effect == Env && TouchesUnsafeName(cls))
  }
}
