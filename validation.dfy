/**
 * Validating a candidate lesson: a syntax check, then `ruff format`,
 * `ruff check`, `mypy` and (unless doctests are skipped) `pytest
 * --doctest-modules`, run one after another on the file.  The external
 * programs are abstract: a `Toolchain` says what each of them does on a
 * given file text.  `Validation` is the reference definition, a fold of
 * the configured steps; `ValidateInTemp` is the step-by-step procedure
 * with its early returns, proved equal to it.
 */
module Validation {
  import opened Wrappers
  import opened Text
  import opened Models

  /** A checker invocation, with the options the configuration selects. */
  datatype Tool = RuffCheck | Mypy(strict: bool) | Pytest(ellipsis: bool)

  /** How a subprocess run ended: its exit code and captured output, or the 120-second timeout. */
  datatype ToolOutcome = Completed(returnCode: int, stdout: string, stderr: string) | TimedOut

  /**
   * The outside world of the validation:
   * `syntaxError(code)` is the message of the `SyntaxError` that compiling
   * `code` raises, if any; `format(code)` is the file text after `ruff
   * format` ran on it, or `None` on a timeout; `run(tool, text)` is the
   * outcome of running `tool` on a file holding `text`.
   */
  datatype Toolchain = Toolchain(
    syntaxError: string -> Option<string>,
    format: string -> Option<string>,
    run: (Tool, string) -> ToolOutcome)

  // ----- the reference definition -----

  datatype Step = Format | Check(tool: Tool)

  /** The name a step records in `tools_run`. */
  function Label(step: Step): string {
    match step
    case Format => "ruff_format"
    case Check(RuffCheck) => "ruff"
    case Check(Mypy(_)) => "mypy"
    case Check(Pytest(_)) => "pytest"
  }

  /** What a step's error messages start with. */
  function ErrorPrefix(step: Step): string {
    match step
    case Format => "ruff format: "
    case Check(RuffCheck) => "ruff: "
    case Check(Mypy(_)) => "mypy: "
    case Check(Pytest(_)) => "pytest: "
  }

  /** Whether an exit code counts as passing: 0 for `ruff` and `mypy`; 0 or 5 (no tests collected) for `pytest`. */
  predicate Accepts(tool: Tool, returnCode: int) {
    if tool.Pytest? then returnCode == 0 || returnCode == 5 else returnCode == 0
  }

  /** The report of a failing checker: its stripped output, then its stripped error output when there is any. */
  function Message(stdout: string, stderr: string): string {
    Strip(stdout) + (if Strip(stderr) != "" then "\nstderr: " + Strip(stderr) else "")
  }

  /** The error a step's timeout reports; it starts with the step's prefix. */
  function TimeoutMessage(step: Step): (m: string)
    ensures ErrorPrefix(step) <= m
  {
    match step
    case Format => "ruff format: timed out after 120s"
    case Check(RuffCheck) => "ruff: timed out after 120s"
    case Check(Mypy(_)) => "mypy: timed out after 120s"
    case Check(Pytest(_)) => "pytest: timed out after 120s"
  }

  /** The steps `validate_in_temp` runs after the syntax check, for a configuration. */
  function Steps(config: DomainConfig): (s: seq<Step>)
    ensures |s| == if config.doctestStrategy == "skip" then 3 else 4
    ensures s[0] == Format && s[1] == Check(RuffCheck) && s[2] == Check(Mypy(config.strictMypy))
    ensures |s| == 4 ==> s[3] == Check(Pytest(config.doctestStrategy == "ellipsis"))
  {
    [Format, Check(RuffCheck), Check(Mypy(config.strictMypy))]
    + (if config.doctestStrategy != "skip" then [Check(Pytest(config.doctestStrategy == "ellipsis"))] else [])
  }

  /** Part-way through: the current file text and what has been collected, or the result a timeout returned. */
  datatype Progress = Running(text: string, errors: seq<string>, toolsRun: seq<string>) | Stopped(result: ValidationResult)

  /** Run one step. */
  function Apply(step: Step, st: Progress, tc: Toolchain): Progress
    requires st.Running?
  {
    match step
    case Format =>
      (match tc.format(st.text)
       case None => Stopped(ValidationResult(false, st.errors + [TimeoutMessage(step)], st.toolsRun + [Label(step)]))
       case Some(t) => Running(t, st.errors, st.toolsRun + [Label(step)]))
    case Check(tool) =>
      (match tc.run(tool, st.text)
       case TimedOut => Stopped(ValidationResult(false, st.errors + [TimeoutMessage(step)], st.toolsRun + [Label(step)]))
       case Completed(code, out, err) =>
         var found := if Accepts(tool, code) then [] else [ErrorPrefix(step) + Message(out, err)];
         Running(st.text, st.errors + found, st.toolsRun + [Label(step)]))
  }

  /** Run the steps in order, stopping at the first timeout. */
  function Fold(steps: seq<Step>, st: Progress, tc: Toolchain): Progress {
    if steps == [] || st.Stopped? then st else Fold(steps[1..], Apply(steps[0], st, tc), tc)
  }

  function Start(code: string): Progress {
    Running(code, [], ["compile"])
  }

  /** The result once the steps are done: valid exactly when nothing was reported. */
  function Outcome(p: Progress): ValidationResult {
    match p
    case Stopped(r) => r
    case Running(_, errors, toolsRun) => ValidationResult(errors == [], errors, toolsRun)
  }

  /** What `validate_in_temp(code, config)` returns with the given toolchain. */
  function Validation(code: string, config: DomainConfig, tc: Toolchain): ValidationResult {
    match tc.syntaxError(code)
    case Some(msg) => ValidationResult(false, ["Syntax error: " + msg], ["compile"])
    case None => Outcome(Fold(Steps(config), Start(code), tc))
  }

  /** One step of the fold. */
  lemma Advance(steps: seq<Step>, k: nat, st: Progress, tc: Toolchain)
    requires k < |steps| && st.Running?
    ensures Fold(steps[k..], st, tc) == Fold(steps[k + 1..], Apply(steps[k], st, tc), tc)
  {
    assert steps[k..][1..] == steps[k + 1..];
  }

  /** After a timeout the remaining steps do nothing. */
  lemma FoldStopped(steps: seq<Step>, r: ValidationResult, tc: Toolchain)
    ensures Fold(steps, Stopped(r), tc) == Stopped(r)
  {
  }

  /** A checker that finishes adds its report when its exit code does not pass, and its name. */
  /** One step records its name and keeps the earlier errors; a timeout stops with an invalid result. */
  lemma ApplyShape(step: Step, st: Progress, tc: Toolchain)
    requires st.Running?
    ensures var next := Apply(step, st, tc);
      && (next.Running? ==> next.toolsRun == st.toolsRun + [Label(step)] && st.errors <= next.errors)
      && (next.Stopped? ==>
            && next.result.toolsRun == st.toolsRun + [Label(step)]
            && next.result.errors == st.errors + [TimeoutMessage(step)] && !next.result.isValid)
  {
  }

  // ----- properties of the reference definition -----

  /** The names each step records, in order. */
  function Labels(s: seq<Step>): (r: seq<string>)
    ensures |r| == |s| && forall i :: 0 <= i < |s| ==> r[i] == Label(s[i])
  {
    seq(|s|, i requires 0 <= i < |s| => Label(s[i]))
  }

  /** Every tool `validate_in_temp` can run, in the order it runs them. */
  const AllTools: seq<string> := ["compile", "ruff_format", "ruff", "mypy", "pytest"]

  /** The errors collected so far, or those of the result a timeout returned. */
  function ErrorsOf(p: Progress): seq<string> {
    if p.Running? then p.errors else p.result.errors
  }

  /** The progress just before step `k` of a file that compiles. */
  function Before(code: string, config: DomainConfig, tc: Toolchain, k: nat): Progress
    requires k <= |Steps(config)|
  {
    Fold(Steps(config)[..k], Start(code), tc)
  }

  /** Whether a step times out on a file holding `text`. */
  predicate TimesOut(step: Step, text: string, tc: Toolchain) {
    match step
    case Format => tc.format(text).None?
    case Check(tool) => tc.run(tool, text).TimedOut?
  }

  /** What an error reported under a recorded tool name starts with. */
  function ToolPrefix(name: string): string {
    if name == "compile" then "Syntax error: "
    else if name == "ruff_format" then "ruff format: "
    else if name == "ruff" then "ruff: "
    else if name == "mypy" then "mypy: "
    else if name == "pytest" then "pytest: "
    else ""
  }

  /** Every error starts with the prefix of one of the tools run. */
  ghost predicate Labelled(errors: seq<string>, toolsRun: seq<string>) {
    forall i :: 0 <= i < |errors| ==> exists j :: 0 <= j < |toolsRun| && ToolPrefix(toolsRun[j]) <= errors[i]
  }

  ghost predicate Avoids(errors: seq<string>, p: string) {
    forall i :: 0 <= i < |errors| ==> !(p <= errors[i])
  }

  /** Neither string is a prefix of the other, so no string starts with both. */
  predicate Apart(a: string, b: string) {
    !(a <= b) && !(b <= a)
  }

  lemma PrefixOfConcat(a: string, b: string)
    ensures a <= a + b
  {
    assert (a + b)[..|a|] == a;
  }

  lemma PrefixesComparable(a: string, b: string, e: string)
    requires a <= e && b <= e
    ensures !Apart(a, b)
  {
    if |a| <= |b| {
      assert a == b[..|a|];
    } else {
      assert b == a[..|b|];
    }
  }

  lemma {:induction false} FoldSplit(s: seq<Step>, k: nat, st: Progress, tc: Toolchain)
    requires k <= |s|
    ensures Fold(s, st, tc) == Fold(s[k..], Fold(s[..k], st, tc), tc)
  {
    if k == 0 {
      assert s[0..] == s;
    } else if st.Stopped? {
      FoldStopped(s[..k], st.result, tc);
      FoldStopped(s[k..], st.result, tc);
    } else {
      var next := Apply(s[0], st, tc);
      FoldSplit(s[1..], k - 1, next, tc);
      assert s[1..][k - 1..] == s[k..];
      assert s[..k][1..] == s[1..][..k - 1];
    }
  }

  /**
   * Running steps from a running state either gets through all of them,
   * recording each name, or stops at a timeout with an invalid result
   * that records the names up to the one that timed out; either way the
   * earlier errors are kept as they were, at the front.
   */
  lemma FoldShape(s: seq<Step>, st: Progress, tc: Toolchain)
    requires st.Running?
    ensures var f := Fold(s, st, tc);
      && (f.Running? ==> f.toolsRun == st.toolsRun + Labels(s) && st.errors <= f.errors)
      && (f.Stopped? ==>
            && !f.result.isValid && f.result.errors != [] && st.errors <= f.result.errors
            && |st.toolsRun| < |f.result.toolsRun| && f.result.toolsRun <= st.toolsRun + Labels(s))
  {
    FoldRuns(s, st, tc);
    FoldStops(s, st, tc);
  }

  /** Getting through the steps records every name and keeps the earlier errors at the front. */
  lemma {:induction false} FoldRuns(s: seq<Step>, st: Progress, tc: Toolchain)
    requires st.Running?
    ensures var f := Fold(s, st, tc);
      f.Running? ==> f.toolsRun == st.toolsRun + Labels(s) && st.errors <= f.errors
  {
    if s != [] {
      var next := Apply(s[0], st, tc);
      ApplyShape(s[0], st, tc);
      assert Fold(s, st, tc) == Fold(s[1..], next, tc);
      if next.Running? {
        FoldRuns(s[1..], next, tc);
        NamesCons(st.toolsRun, s);
        var f := Fold(s[1..], next, tc);
        if f.Running? {
          PrefixTransitive(st.errors, next.errors, f.errors);
        }
      }
    }
  }

  /** Stopping at a timeout gives an invalid result that keeps the earlier errors and records the names up to the timeout. */
  lemma {:induction false} FoldStops(s: seq<Step>, st: Progress, tc: Toolchain)
    requires st.Running?
    ensures var f := Fold(s, st, tc);
      f.Stopped? ==>
        && !f.result.isValid && f.result.errors != [] && st.errors <= f.result.errors
        && |st.toolsRun| < |f.result.toolsRun| && f.result.toolsRun <= st.toolsRun + Labels(s)
  {
    if s != [] {
      var next := Apply(s[0], st, tc);
      ApplyShape(s[0], st, tc);
      assert Fold(s, st, tc) == Fold(s[1..], next, tc);
      NamesCons(st.toolsRun, s);
      if next.Stopped? {
        FoldStopped(s[1..], next.result, tc);
        assert (st.toolsRun + [Label(s[0])] + Labels(s[1..]))[..|st.toolsRun| + 1] == st.toolsRun + [Label(s[0])];
      } else {
        FoldStops(s[1..], next, tc);
        var f := Fold(s[1..], next, tc);
        if f.Stopped? {
          PrefixTransitive(st.errors, next.errors, f.result.errors);
        }
      }
    }
  }

  lemma LabelsCons(s: seq<Step>)
    requires s != []
    ensures Labels(s) == [Label(s[0])] + Labels(s[1..])
  {
  }

  lemma NamesCons(t: seq<string>, s: seq<Step>)
    requires s != []
    ensures t + [Label(s[0])] + Labels(s[1..]) == t + Labels(s)
  {
    LabelsCons(s);
  }

  lemma PrefixTransitive(a: seq<string>, b: seq<string>, c: seq<string>)
    requires a <= b && b <= c
    ensures a <= c
  {
    assert c[..|a|] == b[..|a|];
  }

  lemma ErrorPrefixOfLabel(step: Step)
    ensures ToolPrefix(Label(step)) == ErrorPrefix(step)
  {
  }

  /** The errors a step adds come after the earlier ones, and each starts with the step's prefix. */
  lemma ApplyErrors(step: Step, st: Progress, tc: Toolchain)
    requires st.Running?
    ensures var e := ErrorsOf(Apply(step, st, tc));
      && st.errors <= e
      && forall i :: |st.errors| <= i < |e| ==> ErrorPrefix(step) <= e[i]
  {
    if step.Check? && tc.run(step.tool, st.text).Completed? {
      var o := tc.run(step.tool, st.text);
      PrefixOfConcat(ErrorPrefix(step), Message(o.stdout, o.stderr));
    }
  }

  lemma {:induction false} FoldLabelled(s: seq<Step>, st: Progress, tc: Toolchain)
    requires st.Running? && Labelled(st.errors, st.toolsRun)
    ensures var f := Fold(s, st, tc);
      f.Running? ==> Labelled(f.errors, f.toolsRun)
    ensures var f := Fold(s, st, tc);
      f.Stopped? ==> Labelled(f.result.errors, f.result.toolsRun)
  {
    if s != [] {
      var step := s[0];
      var next := Apply(step, st, tc);
      var names := st.toolsRun + [Label(step)];
      ApplyShape(step, st, tc);
      ApplyErrors(step, st, tc);
      ErrorPrefixOfLabel(step);
      var clue := ErrorsOf(next);
      forall i | 0 <= i < |clue| ensures exists j :: 0 <= j < |names| && ToolPrefix(names[j]) <= clue[i] {
        if i < |st.errors| {
          assert clue[i] == st.errors[i];
          var j :| 0 <= j < |st.toolsRun| && ToolPrefix(st.toolsRun[j]) <= st.errors[i];
          assert names[j] == st.toolsRun[j];
        } else {
          assert names[|names| - 1] == Label(step);
        }
      }
      assert Fold(s, st, tc) == Fold(s[1..], next, tc);
      if next.Stopped? {
        FoldStopped(s[1..], next.result, tc);
      } else {
        FoldLabelled(s[1..], next, tc);
      }
    }
  }

  lemma {:induction false} FoldAvoids(s: seq<Step>, st: Progress, tc: Toolchain, p: string)
    requires st.Running? && Avoids(st.errors, p)
    requires forall i :: 0 <= i < |s| ==> Apart(ErrorPrefix(s[i]), p)
    ensures Avoids(ErrorsOf(Fold(s, st, tc)), p)
  {
    if s != [] {
      var step := s[0];
      var next := Apply(step, st, tc);
      var clue := ErrorsOf(next);
      forall i | 0 <= i < |clue| ensures !(p <= clue[i]) {
        if i >= |st.errors| && p <= clue[i] {
          if clue[i] == TimeoutMessage(step) {
            PrefixesComparable(ErrorPrefix(step), p, clue[i]);
          } else {
            var o := tc.run(step.tool, st.text);
            PrefixOfConcat(ErrorPrefix(step), Message(o.stdout, o.stderr));
            PrefixesComparable(ErrorPrefix(step), p, clue[i]);
          }
        }
      }
      if next.Stopped? {
        FoldStopped(s[1..], next.result, tc);
      } else {
        FoldAvoids(s[1..], next, tc, p);
      }
    }
  }

  /** Checkers do not change the file; only formatting does. */
  lemma {:induction false} ChecksKeepText(s: seq<Step>, st: Progress, tc: Toolchain)
    requires st.Running? && forall i :: 0 <= i < |s| ==> s[i].Check?
    ensures Fold(s, st, tc).Running? ==> Fold(s, st, tc).text == st.text
  {
    if s != [] {
      var next := Apply(s[0], st, tc);
      if next.Running? {
        ChecksKeepText(s[1..], next, tc);
      }
    }
  }

  /** The error prefixes of different steps are apart from one another. */
  lemma StepPrefixApart(step: Step)
    ensures step != Format ==> Apart(ErrorPrefix(step), "ruff format: ")
    ensures !(step.Check? && step.tool.Pytest?) ==> Apart(ErrorPrefix(step), "pytest: ")
  {
    var p := ErrorPrefix(step);
    assert p[0] != 'p' || p[1] != 'a';
    if step == Check(RuffCheck) {
      assert p[4] == ':';
    }
  }

  /** `is_valid` holds exactly when no error was collected. */
  lemma ValidIffNoErrors(code: string, config: DomainConfig, tc: Toolchain)
    ensures var r := Validation(code, config, tc); r.isValid <==> r.errors == []
  {
    if tc.syntaxError(code).None? {
      FoldShape(Steps(config), Start(code), tc);
    }
  }

  /**
   * `tools_run` is always an in-order prefix of
   * compile, ruff_format, ruff, mypy, pytest; `pytest` never appears when
   * doctests are skipped; a valid result ran every configured tool.
   */
  lemma ToolsRunOrder(code: string, config: DomainConfig, tc: Toolchain)
    ensures var r := Validation(code, config, tc);
      && r.toolsRun != [] && r.toolsRun <= AllTools
      && (config.doctestStrategy == "skip" ==> "pytest" !in r.toolsRun)
      && (r.isValid ==> r.toolsRun == if config.doctestStrategy == "skip" then AllTools[..4] else AllTools)
  {
    StepLabels(config);
    if tc.syntaxError(code).None? {
      var s := Steps(config);
      FoldShape(s, Start(code), tc);
      var t := Outcome(Fold(s, Start(code), tc)).toolsRun;
      assert t <= ["compile"] + Labels(s);
      if config.doctestStrategy == "skip" {
        PrefixTransitive(t, AllTools[..4], AllTools);
        NoPytestBeforeIt(t);
      }
    }
  }

  lemma NoPytestBeforeIt(t: seq<string>)
    requires t <= AllTools[..4]
    ensures "pytest" !in t
  {
    forall i | 0 <= i < |t| ensures t[i] != "pytest" {
      assert t[i] == AllTools[i];
    }
  }

  /** `compile` followed by the configured steps names the tools in their order, `pytest` only when doctests run. */
  lemma StepLabels(config: DomainConfig)
    ensures ["compile"] + Labels(Steps(config)) == if config.doctestStrategy == "skip" then AllTools[..4] else AllTools
  {
  }

  /** A file that does not compile is rejected at once, with only `compile` run; nothing else leaves `compile` alone. */
  lemma SyntaxErrorShortCircuits(code: string, config: DomainConfig, tc: Toolchain)
    ensures tc.syntaxError(code).Some? ==>
      Validation(code, config, tc) == ValidationResult(false, ["Syntax error: " + tc.syntaxError(code).value], ["compile"])
    ensures Validation(code, config, tc).toolsRun == ["compile"] <==> tc.syntaxError(code).Some?
  {
    if tc.syntaxError(code).None? {
      var s := Steps(config);
      FoldShape(s, Start(code), tc);
    }
  }

  /**
   * A timeout ends the validation: the result is invalid, keeps the
   * errors collected before it, adds the timeout report, and records the
   * tools run before it followed by the one that timed out.
   */
  lemma TimeoutIsTerminal(code: string, config: DomainConfig, tc: Toolchain, k: nat)
    requires tc.syntaxError(code).None? && k < |Steps(config)|
    requires Before(code, config, tc, k).Running?
    requires TimesOut(Steps(config)[k], Before(code, config, tc, k).text, tc)
    ensures var b := Before(code, config, tc, k); var step := Steps(config)[k];
      && b.toolsRun == ["compile"] + Labels(Steps(config)[..k])
      && Validation(code, config, tc) == ValidationResult(false, b.errors + [TimeoutMessage(step)], b.toolsRun + [Label(step)])
  {
    var s := Steps(config);
    var b := Before(code, config, tc, k);
    FoldShape(s[..k], Start(code), tc);
    FoldSplit(s, k, Start(code), tc);
    Advance(s, k, b, tc);
    FoldStopped(s[k + 1..], Apply(s[k], b, tc).result, tc);
  }

  /** A checker that finishes with an exit code that does not pass has its report among the errors, and the result is invalid. */
  lemma RejectedCheckReported(code: string, config: DomainConfig, tc: Toolchain, k: nat)
    requires tc.syntaxError(code).None? && k < |Steps(config)| && Steps(config)[k].Check?
    requires Before(code, config, tc, k).Running?
    requires var o := tc.run(Steps(config)[k].tool, Before(code, config, tc, k).text);
      o.Completed? && !Accepts(Steps(config)[k].tool, o.returnCode)
    ensures var o := tc.run(Steps(config)[k].tool, Before(code, config, tc, k).text);
      && ErrorPrefix(Steps(config)[k]) + Message(o.stdout, o.stderr) in Validation(code, config, tc).errors
      && !Validation(code, config, tc).isValid
  {
    var s := Steps(config);
    var b := Before(code, config, tc, k);
    var o := tc.run(s[k].tool, b.text);
    var report := ErrorPrefix(s[k]) + Message(o.stdout, o.stderr);
    FoldSplit(s, k, Start(code), tc);
    Advance(s, k, b, tc);
    var next := Apply(s[k], b, tc);
    assert next.errors == b.errors + [report];
    FoldShape(s[k + 1..], next, tc);
    var r := Validation(code, config, tc);
    assert next.errors <= r.errors;
    assert r.errors[|b.errors|] == report;
    ValidIffNoErrors(code, config, tc);
  }

  /** Every error starts with the prefix of a tool that ran: `Syntax error: `, `ruff format: `, `ruff: `, `mypy: ` or `pytest: `. */
  lemma ErrorsAreLabelled(code: string, config: DomainConfig, tc: Toolchain)
    ensures var r := Validation(code, config, tc);
      forall i :: 0 <= i < |r.errors| ==> exists j :: 0 <= j < |r.toolsRun| && ToolPrefix(r.toolsRun[j]) <= r.errors[i]
  {
    var r := Validation(code, config, tc);
    match tc.syntaxError(code)
    case Some(m) =>
      PrefixOfConcat("Syntax error: ", m);
      assert ToolPrefix(r.toolsRun[0]) <= r.errors[0];
    case None =>
      FoldLabelled(Steps(config), Start(code), tc);
  }

  /** Formatting reports an error only when it times out. */
  lemma FormatReportsOnlyTimeout(code: string, config: DomainConfig, tc: Toolchain)
    ensures var r := Validation(code, config, tc);
      (exists i :: 0 <= i < |r.errors| && "ruff format: " <= r.errors[i]) <==> tc.syntaxError(code).None? && tc.format(code).None?
  {
    var r := Validation(code, config, tc);
    var s := Steps(config);
    match tc.syntaxError(code)
    case Some(m) =>
      assert r.errors == ["Syntax error: " + m];
      assert ("Syntax error: " + m)[0] == 'S';
    case None =>
      Advance(s, 0, Start(code), tc);
      assert s[0..] == s;
      var next := Apply(Format, Start(code), tc);
      if next.Stopped? {
        FoldStopped(s[1..], next.result, tc);
        assert "ruff format: " <= r.errors[0];
      } else {
        forall i | 0 <= i < |s[1..]| ensures Apart(ErrorPrefix(s[1..][i]), "ruff format: ") {
          assert s[1..][i] == s[i + 1];
          StepPrefixApart(s[i + 1]);
        }
        FoldAvoids(s[1..], next, tc, "ruff format: ");
      }
  }

  /** `pytest` exiting with 0 or 5 (no tests collected) adds no `pytest` error. */
  lemma AcceptedPytestAddsNothing(code: string, config: DomainConfig, tc: Toolchain, t: string)
    requires tc.syntaxError(code).None? && tc.format(code) == Some(t)
    requires var o := tc.run(Pytest(config.doctestStrategy == "ellipsis"), t);
      o.Completed? && (o.returnCode == 0 || o.returnCode == 5)
    ensures var r := Validation(code, config, tc);
      forall i :: 0 <= i < |r.errors| ==> !("pytest: " <= r.errors[i])
  {
    var s := Steps(config);
    var k := 3;
    forall i | 0 <= i < k ensures Apart(ErrorPrefix(s[..k][i]), "pytest: ") {
      assert s[..k][i] == s[i];
      StepPrefixApart(s[i]);
    }
    FoldAvoids(s[..k], Start(code), tc, "pytest: ");
    var b := Fold(s[..k], Start(code), tc);
    FoldSplit(s, k, Start(code), tc);
    if |s| == 4 && b.Running? {
      assert s[..k][0] == Format;
      Advance(s[..k], 0, Start(code), tc);
      assert s[..k][0..] == s[..k];
      ChecksKeepText(s[..k][1..], Apply(Format, Start(code), tc), tc);
      Advance(s, 3, b, tc);
      assert s[4..] == [];
    } else if b.Stopped? {
      FoldStopped(s[k..], b.result, tc);
    } else {
      assert s[k..] == [];
    }
  }

  // ----- the procedure -----

  /**
   * One checker block of `validate_in_temp`: run the checker on the file;
   * on a timeout, the result to return at once; otherwise its name added
   * to the tools run and, when its exit code does not pass, its report
   * added to the errors.
   */
  method RunChecker(tool: Tool, text: string, errors: seq<string>, toolsRun: seq<string>, tc: Toolchain) returns (next: Progress)
    ensures next == Apply(Check(tool), Running(text, errors, toolsRun), tc)
  {
    var name := Label(Check(tool));
    var outcome := tc.run(tool, text);
    if outcome.TimedOut? {
      return Stopped(ValidationResult(false, errors + [TimeoutMessage(Check(tool))], toolsRun + [name]));
    }
    var found := errors;
    if !Accepts(tool, outcome.returnCode) {
      found := found + [ErrorPrefix(Check(tool)) + Message(outcome.stdout, outcome.stderr)];
    }
    return Running(text, found, toolsRun + [name]);
  }

  /** `validate_in_temp(code, config)` */
  method ValidateInTemp(code: string, config: DomainConfig, tc: Toolchain) returns (r: ValidationResult)
    ensures r == Validation(code, config, tc)
  {
    ghost var steps := Steps(config);
    var syntax := tc.syntaxError(code);
    if syntax.Some? {
      return ValidationResult(false, ["Syntax error: " + syntax.value], ["compile"]);
    }
    var toolsRun := ["compile"];
    assert steps[0..] == steps;
    Advance(steps, 0, Start(code), tc);

    var formatted := tc.format(code);
    if formatted.None? {
      r := ValidationResult(false, ["ruff format: timed out after 120s"], toolsRun + ["ruff_format"]);
      FoldStopped(steps[1..], r, tc);
      return r;
    }
    var text := formatted.value;
    var st := Running(text, [], toolsRun + ["ruff_format"]);
    assert Fold(steps, Start(code), tc) == Fold(steps[1..], st, tc);

    Advance(steps, 1, st, tc);
    st := RunChecker(RuffCheck, st.text, st.errors, st.toolsRun, tc);
    if st.Stopped? {
      FoldStopped(steps[2..], st.result, tc);
      return st.result;
    }

    Advance(steps, 2, st, tc);
    st := RunChecker(Mypy(config.strictMypy), st.text, st.errors, st.toolsRun, tc);
    if st.Stopped? {
      FoldStopped(steps[3..], st.result, tc);
      return st.result;
    }

    if config.doctestStrategy != "skip" {
      Advance(steps, 3, st, tc);
      st := RunChecker(Pytest(config.doctestStrategy == "ellipsis"), st.text, st.errors, st.toolsRun, tc);
      if st.Stopped? {
        FoldStopped(steps[4..], st.result, tc);
        return st.result;
      }
    }
    return ValidationResult(|st.errors| == 0, st.errors, st.toolsRun);
  }
}
