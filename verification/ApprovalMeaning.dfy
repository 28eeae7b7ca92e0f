/**
 What the approval rule means, name by name and risk by risk, without the helpers
 that compute it.
 */
module ApprovalMeaning {
  import opened LineTypes
  import opened ApprovalRule

  /** `capitals` is the name with its small ASCII letters made capital. */
  predicate InCapitals(name: string, capitals: string) {
    && |capitals| == |name|
    && (forall i :: 0 <= i < |name| ==>
          && !('a' <= capitals[i] <= 'z')
          && (capitals[i] == name[i]
              || ('A' <= capitals[i] <= 'Z' && capitals[i] as int + 32 == name[i] as int)))
  }

  /** Names that a line without a human may set or unset. */
  predicate NamedSafe(name: string) {
    name in ["LANG", "TZ", "NO_COLOR", "COLUMNS", "LINES", "TERM"] || "LC_" <= name
  }

  function SafeWords(): seq<string> {
    ["LANG", "TZ", "NO_COLOR", "COLUMNS", "LINES", "TERM"]
  }

  /** Names that make later commands load or run other code, in capitals. */
  predicate DangerousCapitals(u: string) {
    DangerousWord(u) || DangerousStart(u) || u == "PS0" || u == "PS1" || u == "PS2" || u == "PS3" || u == "PS4"
  }

  predicate DangerousWord(u: string) {
    u in ["PATH", "BASH_ENV", "ENV", "PROMPT_COMMAND", "IFS", "CDPATH", "SHELLOPTS", "BASHOPTS", "HISTFILE",
          "PAGER", "MANPAGER", "EDITOR", "VISUAL", "LESSOPEN", "LESSCLOSE", "RUBYOPT", "NODE_OPTIONS",
          "SSH_ASKPASS", "SUDO_ASKPASS", "TMPDIR", "HOME", "XDG_CONFIG_HOME", "ZDOTDIR", "GCONV_PATH",
          "LOCPATH", "NLSPATH", "TERMINFO", "TERMINFO_DIRS", "INPUTRC"]
  }

  predicate DangerousStart(u: string) {
    || "LD_" <= u || "DYLD_" <= u || "GIT_" <= u || "PYTHON" <= u || "PERL5" <= u || "BASH_FUNC_" <= u || "LESS" <= u
  }

  /** In any mix of small and capital letters. */
  ghost predicate NamedDangerous(name: string) {
    exists u :: InCapitals(name, u) && DangerousCapitals(u)
  }

  /** What the documentation promises of a line that no human saw: risk Low, or
      Medium when the setting is Medium; no change of the shell's state, no tainted
      session, and only safe names. */
  ghost predicate MayRunUnseen(tainted: bool, cls: LineClass, setting: Risk) {
    && !tainted
    && cls.effect != StateChange
    && (cls.risk == Low || (cls.risk == Medium && setting == Medium))
    && (cls.effect == Env ==>
          && (forall name :: name in cls.envSet ==> NamedSafe(name) && !NamedDangerous(name))
          && (forall i :: 0 <= i < |cls.envUnset| ==> NamedSafe(cls.envUnset[i]) && !NamedDangerous(cls.envUnset[i])))
  }

  // ----- the rule means this -----

  lemma {:induction false} ListedMeans(names: seq<string>, s: string)
    ensures Listed(names, s) <==> s in names
  {
    if names != [] {
      ListedMeans(names[1..], s);
    }
  }

  lemma CapitalsAreUpper(name: string, u: string)
    ensures InCapitals(name, u) <==> u == Upper(name)
  {
    if InCapitals(name, u) {
      assert forall i :: 0 <= i < |name| ==> u[i] == Upper(name)[i];
    }
  }

  lemma DangerousWordsMean(u: string)
    ensures Listed(DangerousNames(), u) <==> DangerousWord(u)
  {
    ListedMeans(DangerousNames(), u);
  }

  lemma DangerousNameMeans(u: string)
    ensures DangerousName(u) <==> DangerousCapitals(u)
  {
    DangerousWordsMean(u);
    PrefixesMean(u);
    PromptsMean(u);
  }

  lemma PrefixesMean(u: string)
    ensures HasPrefix(DangerousPrefixes(), u) <==> DangerousStart(u)
  {
    PrefixMeans(DangerousPrefixes(), u);
    var p := DangerousPrefixes();
    assert p[0] == "LD_" && p[1] == "DYLD_" && p[2] == "GIT_" && p[3] == "PYTHON" && p[4] == "PERL5"
        && p[5] == "BASH_FUNC_" && p[6] == "LESS";
  }

  lemma {:induction false} PrefixMeans(prefixes: seq<string>, s: string)
    ensures HasPrefix(prefixes, s) <==> exists i :: 0 <= i < |prefixes| && prefixes[i] <= s
  {
    if prefixes != [] {
      PrefixMeans(prefixes[1..], s);
      if i :| 0 <= i < |prefixes| && prefixes[i] <= s {
        assert i > 0 ==> prefixes[1..][i - 1] == prefixes[i];
      }
      if i :| 0 <= i < |prefixes[1..]| && prefixes[1..][i] <= s {
        assert prefixes[i + 1] <= s;
      }
    }
  }

  lemma PromptsMean(u: string)
    ensures (|u| == 3 && "PS" <= u && '0' <= u[2] <= '4') <==>
              u == "PS0" || u == "PS1" || u == "PS2" || u == "PS3" || u == "PS4"
  {
    if |u| == 3 && "PS" <= u {
      assert u == ['P', 'S', u[2]];
    }
  }

  lemma SafeListMeans(name: string)
    ensures Listed(SafeNames(), name) || "LC_" <= name <==> NamedSafe(name)
  {
    ListedMeans(SafeNames(), name);
  }

  /** No dangerous name begins with "LC". */
  lemma NothingBeginsWithLC(u: string)
    requires |u| >= 2 && u[0] == 'L' && u[1] == 'C'
    ensures !DangerousCapitals(u)
  {
    NoWordBeginsWithLC(u);
  }

  lemma NoWordBeginsWithLC(u: string)
    requires |u| >= 2 && u[0] == 'L' && u[1] == 'C'
    ensures !DangerousWord(u)
  {
  }

  /** Length and first letters tell the safe words from the dangerous ones. */
  lemma SafeWordShape(u: string)
    requires u in SafeWords()
    ensures || (|u| == 4 && u[0] == 'L' && u[1] == 'A') || |u| == 2 || (|u| == 8 && u[0] == 'N')
            || (|u| == 7 && u[0] == 'C') || (|u| == 5 && u[0] == 'L' && u[1] == 'I')
            || (|u| == 4 && u[0] == 'T' && u[1] == 'E')
  {
  }

  lemma DangerousWordShape(u: string)
    requires DangerousWord(u)
    ensures |u| > 2 && (|u| == 4 ==> u[0] == 'H' || u[0] == 'P') && (|u| == 8 ==> u[0] != 'N')
    ensures (|u| == 7 ==> u[0] != 'C') && (|u| == 5 ==> u[0] != 'L')
  {
  }

  lemma SafeWordIsHarmless(u: string)
    requires u in SafeWords()
    ensures !DangerousCapitals(u)
  {
    SafeWordShape(u);
    if DangerousWord(u) {
      DangerousWordShape(u);
    }
  }

  lemma SafeWordInCapitals(name: string, u: string)
    requires name in SafeWords() && InCapitals(name, u)
    ensures u == name
  {
    forall i | 0 <= i < |name| ensures u[i] == name[i] {
      SafeWordHasNoSmallLetter(name, i);
    }
  }

  lemma SafeWordHasNoSmallLetter(name: string, i: nat)
    requires name in SafeWords() && i < |name|
    ensures !('a' <= name[i] <= 'z')
  {
  }

  /** A safe name is dangerous in no mix of small and capital letters. */
  lemma SafeIsNotDangerous(name: string)
    requires NamedSafe(name)
    ensures !NamedDangerous(name)
  {
    forall u | InCapitals(name, u) ensures !DangerousCapitals(u) {
      if name in SafeWords() {
        SafeWordInCapitals(name, u);
        SafeWordIsHarmless(u);
      } else {
        assert name[0] == 'L' && name[1] == 'C';
        NothingBeginsWithLC(u);
      }
    }
  }

  lemma NameClassMeans(name: string)
    ensures EnvNameClass(name) == Dangerous <==> NamedDangerous(name)
    ensures EnvNameClass(name) == Safe <==> NamedSafe(name)
  {
    CapitalsAreUpper(name, Upper(name));
    forall u | InCapitals(name, u) ensures u == Upper(name) {
      CapitalsAreUpper(name, u);
    }
    DangerousNameMeans(Upper(name));
    SafeListMeans(name);
    if NamedSafe(name) {
      SafeIsNotDangerous(name);
    }
  }

  /** The session's rule asks a human exactly outside these conditions. */
  lemma AskedExactlyWhen(tainted: bool, cls: LineClass, setting: Risk)
    ensures !SessionNeedsApproval(tainted, cls, setting) <==> MayRunUnseen(tainted, cls, setting)
  {
    forall name ensures EnvNameClass(name) == Safe <==> NamedSafe(name) && !NamedDangerous(name) {
      NameClassMeans(name);
    }
  }
}
