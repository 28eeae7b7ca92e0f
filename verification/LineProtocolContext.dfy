/**
 The session's context in every run: directory, overlay and taint are what the
 delivered lines that are finished made of them, and the next script replays
 exactly these.
 */
module LineProtocolContext {
  import opened LineTypes
  import opened LineGate
  import opened LineProtocol
  import opened LineProtocolRuns
  import opened LineProtocolTheorems
  import E = ExecReplay
  import S = ExecScript

  // ----- the context, by what was finished -----

  /** The line set or unset the name. */
  predicate Mentions(e: Ending, name: string) {
    e.rec.cls.effect == Env && e.outcome.ok && (name in e.rec.cls.envSet || name in e.rec.cls.envUnset)
  }

  predicate MentionsAt(finished: seq<Ending>, k: nat, name: string)
    requires k < |finished|
  {
    Mentions(finished[k], name)
  }

  /** How a line leaves a name that it mentions: what it unsets it unsets last. */
  predicate LeftBy(e: Ending, name: string, g: Gate) {
    if name in e.rec.cls.envUnset then name !in g.env && name in g.unset
    else name in e.rec.cls.envSet && name in g.env && g.env[name] == e.rec.cls.envSet[name] && name !in g.unset
  }

  ghost predicate NeverMentioned(finished: seq<Ending>, name: string) {
    forall k :: 0 <= k < |finished| ==> !MentionsAt(finished, k, name)
  }

  ghost predicate LastMention(finished: seq<Ending>, k: nat, name: string)
    requires k < |finished|
  {
    MentionsAt(finished, k, name) && forall j :: k < j < |finished| ==> !MentionsAt(finished, j, name)
  }

  /** Each name is as the last successful environment line that mentions it left it. */
  ghost predicate NameOk(finished: seq<Ending>, name: string, g: Gate) {
    && (NeverMentioned(finished, name) ==> name !in g.env && name !in g.unset)
    && (forall k :: 0 <= k < |finished| && LastMention(finished, k, name) ==> LeftBy(finished[k], name, g))
  }

  predicate MovesAt(mode: Mode, finished: seq<Ending>, k: nat)
    requires k < |finished|
  {
    MovesTo(mode, finished[k].rec, true, finished[k].outcome)
  }

  ghost predicate NeverMoved(mode: Mode, finished: seq<Ending>) {
    forall k :: 0 <= k < |finished| ==> !MovesAt(mode, finished, k)
  }

  ghost predicate LastMove(mode: Mode, finished: seq<Ending>, k: nat)
    requires k < |finished|
  {
    MovesAt(mode, finished, k) && forall j :: k < j < |finished| ==> !MovesAt(mode, finished, j)
  }

  /** The directory is the one where the last line that moved the session left it. */
  ghost predicate DirectoryOk(start: string, finished: seq<Ending>, g: Gate) {
    && (NeverMoved(g.mode, finished) ==> g.cwd == start)
    && (forall k :: 0 <= k < |finished| && LastMove(g.mode, finished, k) ==> g.cwd == finished[k].outcome.newCwd)
  }

  ghost predicate TaintedBy(finished: seq<Ending>) {
    exists k :: 0 <= k < |finished| && finished[k].rec.cls.effect == StateChange
  }

  ghost predicate ContextOk(start: string, finished: seq<Ending>, g: Gate) {
    && (forall name: string :: NameOk(finished, name, g))
    && DirectoryOk(start, finished, g)
    && (g.tainted <==> g.mode == Shell && TaintedBy(finished))
  }

  // ----- one more line -----

  lemma NameAfter(finished: seq<Ending>, e: Ending, name: string, g: Gate, g': Gate)
    requires NameOk(finished, name, g)
    requires if e.rec.cls.effect == Env && e.outcome.ok
             then NamesUpdated(e.rec.cls, g.env, g.unset, g'.env, g'.unset)
             else g'.env == g.env && g'.unset == g.unset
    ensures NameOk(finished + [e], name, g')
  {
    var more, n := finished + [e], |finished|;
    assert forall k :: 0 <= k < n ==> (MentionsAt(more, k, name) <==> MentionsAt(finished, k, name));
    assert MentionsAt(more, n, name) <==> Mentions(e, name);
    forall k | 0 <= k < |more| && LastMention(more, k, name) ensures LeftBy(more[k], name, g') {
      if k < n {
        assert LastMention(finished, k, name);
      }
    }
    if NeverMentioned(more, name) {
      assert NeverMentioned(finished, name);
    }
  }

  lemma DirectoryAfter(start: string, finished: seq<Ending>, e: Ending, g: Gate, g': Gate)
    requires DirectoryOk(start, finished, g) && g'.mode == g.mode
    requires g'.cwd == if MovesTo(g.mode, e.rec, true, e.outcome) then e.outcome.newCwd else g.cwd
    ensures DirectoryOk(start, finished + [e], g')
  {
    var more, n := finished + [e], |finished|;
    assert forall k :: 0 <= k < n ==> (MovesAt(g.mode, more, k) <==> MovesAt(g.mode, finished, k));
    assert MovesAt(g.mode, more, n) <==> MovesTo(g.mode, e.rec, true, e.outcome);
    forall k | 0 <= k < |more| && LastMove(g.mode, more, k) ensures g'.cwd == more[k].outcome.newCwd {
      if k < n {
        assert LastMove(g.mode, finished, k);
      }
    }
    if NeverMoved(g.mode, more) {
      assert NeverMoved(g.mode, finished);
    }
  }

  lemma TaintAfter(finished: seq<Ending>, e: Ending)
    ensures TaintedBy(finished + [e]) <==> TaintedBy(finished) || e.rec.cls.effect == StateChange
  {
    var more := finished + [e];
    if TaintedBy(finished) {
      var k :| 0 <= k < |finished| && finished[k].rec.cls.effect == StateChange;
      assert more[k].rec.cls.effect == StateChange;
    }
    assert more[|finished|] == e;
    if TaintedBy(more) && e.rec.cls.effect != StateChange {
      var k :| 0 <= k < |more| && more[k].rec.cls.effect == StateChange;
      assert finished[k].rec.cls.effect == StateChange;
    }
  }

  lemma FreeContext(w: World, t: nat, start: string)
    requires LineEnabled(w, DoFree(t)) && ContextOk(start, w.finished, w.gate)
    ensures ContextOk(start, StepFree(w, t).finished, StepFree(w, t).gate)
  {
    var pc, w' := w.threads[t], StepFree(w, t);
    var e := Ending(pc.rec, pc.outcome);
    FinishMeans(w.gate, pc.rec, true, pc.outcome, pc.final);
    FinishLogs(w.gate, pc.rec, true, pc.outcome, pc.final);
    LogFrees(ApplyEffect(w.gate, pc.rec, pc.outcome), Finished(pc.rec, pc.outcome, pc.final));
    forall name: string ensures NameOk(w'.finished, name, w'.gate) {
      NameAfter(w.finished, e, name, w.gate, w'.gate);
    }
    DirectoryAfter(start, w.finished, e, w.gate, w'.gate);
    TaintAfter(w.finished, e);
  }

  lemma SendKeepsEndings(w: World, s: SendStep)
    requires SendEnabled(w, s)
    ensures SendStepped(w, s).finished == w.finished && SendStepped(w, s).gate.mode == w.gate.mode
  {
  }

  lemma LineKeepsEndings(w: World, s: LineStep)
    requires LineEnabled(w, s) && !s.DoFree?
    ensures LineStepped(w, s).finished == w.finished && LineStepped(w, s).gate.mode == w.gate.mode
  {
  }

  lemma DecideKeepsEndings(w: World, s: DecideStep)
    requires DecideEnabled(w, s)
    ensures DecideStepped(w, s).finished == w.finished && DecideStepped(w, s).gate.mode == w.gate.mode
  {
  }

  lemma CloseKeepsEndings(w: World, s: CloseStep)
    requires CloseEnabled(w, s)
    ensures CloseStepped(w, s).finished == w.finished && CloseStepped(w, s).gate.mode == w.gate.mode
  {
  }

  lemma SameContextOk(start: string, finished: seq<Ending>, g: Gate, g': Gate)
    requires ContextOk(start, finished, g) && SameContext(g, g') && g'.mode == g.mode
    ensures ContextOk(start, finished, g')
  {
    forall name: string ensures NameOk(finished, name, g') {
      assert NameOk(finished, name, g);
    }
  }

  /** A step that finishes no delivered line. */
  lemma StepKeepsEndings(w: World, s: Step)
    requires Enabled(w, s) && !(s.LineDo? && s.line.DoFree?)
    ensures Do(w, s).finished == w.finished && Do(w, s).gate.mode == w.gate.mode
    ensures SameContext(w.gate, Do(w, s).gate)
  {
    match s
    case SendDo(x) =>
      SendKeepsEndings(w, x);
      SendKeepsContext(w, x);
    case LineDo(x) =>
      LineKeepsEndings(w, x);
      LineKeepsContext(w, x);
    case DecideDo(x) =>
      DecideKeepsEndings(w, x);
      DecideKeepsContext(w, x);
    case CloseDo(x) =>
      CloseKeepsEndings(w, x);
      CloseKeepsContext(w, x);
  }

  lemma StepContext(w: World, s: Step, start: string)
    requires Enabled(w, s) && ContextOk(start, w.finished, w.gate)
    ensures ContextOk(start, Do(w, s).finished, Do(w, s).gate)
  {
    if s.LineDo? && s.line.DoFree? {
      FreeContext(w, s.line.t, start);
    } else {
      StepKeepsEndings(w, s);
      SameContextOk(start, w.finished, w.gate, Do(w, s).gate);
    }
  }

  /** In every run: each name of the overlay is as the last finished environment line that
      succeeded and mentions it left it, the directory as the last line that moved the
      session left it, and a shell session is tainted exactly when a finished line may have
      changed the shell. */
  lemma {:induction false} ContextIsItsHistory(run: seq<World>, i: nat, mode: Mode, start: string)
    requires IsRun(run) && i < |run| && run[0] == Init(mode, start)
    ensures ContextOk(start, run[i].finished, run[i].gate)
  {
    if i > 0 {
      ContextIsItsHistory(run, i - 1, mode, start);
      var s := StepTaken(run, i);
      StepContext(run[i - 1], s, start);
    }
  }

  // ----- the script of the next line -----

  /** The classes of the successful environment lines that are finished, in order. */
  function EnvLines(finished: seq<Ending>): seq<LineClass> {
    if finished == [] then []
    else
      var e := finished[|finished| - 1];
      EnvLines(finished[..|finished| - 1]) + (if e.rec.cls.effect == Env && e.outcome.ok then [e.rec.cls] else [])
  }

  /** `words` are those lines, word by word, and were classified as such. */
  ghost predicate WordsOf(classes: seq<LineClass>, words: seq<seq<string>>) {
    && |words| == |classes|
    && (forall k :: 0 <= k < |words| ==> E.IsEnvLine(words[k]))
    && (forall k :: 0 <= k < |words| ==>
          classes[k].envSet == E.SetPart(words[k]) && classes[k].envUnset == E.UnsetPart(words[k]))
  }

  ghost predicate Replayed(finished: seq<Ending>, o: E.Overlay) {
    forall words :: WordsOf(EnvLines(finished), words) ==> E.OverlayOf(words) == o
  }

  function OverlayAt(g: Gate): E.Overlay {
    E.Overlay(g.env, g.unset)
  }

  lemma FewerWords(classes: seq<LineClass>, cls: LineClass, words: seq<seq<string>>)
    requires WordsOf(classes + [cls], words)
    ensures |words| == |classes| + 1 && WordsOf(classes, words[..|classes|])
    ensures E.IsEnvLine(words[|classes|])
    ensures cls.envSet == E.SetPart(words[|classes|]) && cls.envUnset == E.UnsetPart(words[|classes|])
  {
    var n := |classes|;
    assert forall k :: 0 <= k < n ==> (classes + [cls])[k] == classes[k] && words[..n][k] == words[k];
    assert (classes + [cls])[n] == cls;
  }

  lemma OneMoreWord(words: seq<seq<string>>, cls: LineClass)
    requires words != [] && forall k :: 0 <= k < |words| ==> E.IsEnvLine(words[k])
    requires var last := words[|words| - 1]; cls.envSet == E.SetPart(last) && cls.envUnset == E.UnsetPart(last)
    ensures var before := E.OverlayOf(words[..|words| - 1]);
            E.OverlayOf(words) == E.Overlay(OverlayEnv(before.env, cls), OverlayUnset(before.unset, cls))
  {
    var before, last := E.OverlayOf(words[..|words| - 1]), E.EnvClass(words[|words| - 1]);
    SameParts(before.env, before.unset, cls, last);
  }

  lemma SameParts(env: map<string, string>, unset: set<string>, c: LineClass, d: LineClass)
    requires c.envSet == d.envSet && c.envUnset == d.envUnset
    ensures OverlayEnv(env, c) == OverlayEnv(env, d) && OverlayUnset(unset, c) == OverlayUnset(unset, d)
  {
  }

  lemma ReplayedAfter(finished: seq<Ending>, e: Ending, o: E.Overlay, o': E.Overlay)
    requires Replayed(finished, o)
    requires o' == if e.rec.cls.effect == Env && e.outcome.ok
                   then E.Overlay(OverlayEnv(o.env, e.rec.cls), OverlayUnset(o.unset, e.rec.cls)) else o
    ensures Replayed(finished + [e], o')
  {
    var more := finished + [e];
    assert more[..|finished|] == finished;
    forall words | WordsOf(EnvLines(more), words) ensures E.OverlayOf(words) == o' {
      if e.rec.cls.effect == Env && e.outcome.ok {
        FewerWords(EnvLines(finished), e.rec.cls, words);
        OneMoreWord(words, e.rec.cls);
      } else {
        assert EnvLines(finished) + [] == EnvLines(finished);
      }
    }
  }

  lemma FreeReplayed(w: World, t: nat)
    requires LineEnabled(w, DoFree(t)) && Replayed(w.finished, OverlayAt(w.gate))
    ensures Replayed(StepFree(w, t).finished, OverlayAt(StepFree(w, t).gate))
  {
    var pc, w' := w.threads[t], StepFree(w, t);
    FinishOverlay(w.gate, pc.rec, pc.outcome, pc.final);
    ReplayedAfter(w.finished, Ending(pc.rec, pc.outcome), OverlayAt(w.gate), OverlayAt(w'.gate));
  }

  lemma FinishOverlay(g: Gate, rec: LineRecord, o: Outcome, final: Status)
    ensures var g' := FinishLine(g, rec, true, o, final);
            if rec.cls.effect == Env && o.ok
            then g'.env == OverlayEnv(g.env, rec.cls) && g'.unset == OverlayUnset(g.unset, rec.cls)
            else g'.env == g.env && g'.unset == g.unset
  {
    FinishLogs(g, rec, true, o, final);
    EffectOverlay(g, rec, o);
    LogFrees(ApplyEffect(g, rec, o), Finished(rec, o, final));
  }

  lemma EffectOverlay(g: Gate, rec: LineRecord, o: Outcome)
    ensures var g' := ApplyEffect(g, rec, o);
            if rec.cls.effect == Env && o.ok
            then g'.env == OverlayEnv(g.env, rec.cls) && g'.unset == OverlayUnset(g.unset, rec.cls)
            else g'.env == g.env && g'.unset == g.unset
  {
  }

  lemma StepReplayed(w: World, s: Step)
    requires Enabled(w, s) && Replayed(w.finished, OverlayAt(w.gate))
    ensures Replayed(Do(w, s).finished, OverlayAt(Do(w, s).gate))
  {
    if s.LineDo? && s.line.DoFree? {
      FreeReplayed(w, s.line.t);
    } else {
      StepKeepsEndings(w, s);
    }
  }

  lemma InitReplayed(mode: Mode, cwd: string)
    ensures Replayed([], OverlayAt(NewGate(mode, cwd)))
  {
  }

  lemma StartReplayed(run: seq<World>)
    requires IsRun(run)
    ensures Replayed(run[0].finished, OverlayAt(run[0].gate))
  {
    var mode, cwd :| run[0] == Init(mode, cwd);
    InitReplayed(mode, cwd);
  }

  lemma NextReplayed(run: seq<World>, i: nat)
    requires IsRun(run) && 0 < i < |run| && Replayed(run[i - 1].finished, OverlayAt(run[i - 1].gate))
    ensures Replayed(run[i].finished, OverlayAt(run[i].gate))
  {
    var s := StepTaken(run, i);
    StepReplayed(run[i - 1], s);
  }

  lemma {:induction false} OverlayIsItsHistory(run: seq<World>, i: nat)
    requires IsRun(run) && i < |run|
    ensures Replayed(run[i].finished, OverlayAt(run[i].gate))
  {
    if i == 0 {
      StartReplayed(run);
    } else {
      OverlayIsItsHistory(run, i - 1);
      NextReplayed(run, i);
    }
  }

  /** The environment part of a line's script has, in every base environment, exactly the
      effect of the environment lines of the session that are finished and succeeded, in
      order, whatever else happened in between. */
  lemma ScriptReplaysTheSession(run: seq<World>, i: nat, t: nat, words: seq<seq<string>>, prefix: string,
                                base: E.Environment)
    requires IsRun(run) && i < |run| && t in run[i].threads && OnItsWay(run[i].threads[t])
    requires WordsOf(EnvLines(run[i].finished), words)
    requires S.Replays(prefix, run[i].threads[t].rec.env, run[i].threads[t].rec.unset)
    ensures E.ShellEnv(prefix, base) == Some(E.RunHistory(words, base))
  {
    OneLineAtTheRunner(run, i, t, t);
    OverlayIsItsHistory(run, i);
    assert S.IsHistory(words);
  }
}
