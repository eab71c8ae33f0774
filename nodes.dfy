/**
 * The nodes of the lesson pipeline.  Each node reads the pipeline state
 * and returns a partial update: a state record in which only the keys the
 * node sets are present.  A missing required key (`state["..."]`) or an
 * unknown domain raises, which the model returns as a `Failure`.  The
 * language model is a function from the prompt's inputs to its reply.
 */
module Nodes {
  import opened Wrappers
  import opened Text
  import opened FileSystem
  import opened Models
  import opened Naming
  import opened Tools
  import opened MetadataJson
  import opened Domains
  import Validation

  /** The values the pipeline writes to `status`. */
  datatype Status = Pending | Generated | Committed | Failed | DryRun {
    function Value(): string {
      match this
      case Pending => "pending"
      case Generated => "generated"
      case Committed => "committed"
      case Failed => "failed"
      case DryRun => "dry_run"
    }
  }

  /** The pipeline state, every key optional; also the shape of a node's partial update. */
  datatype State = State(
    topic: Option<string>,
    domainName: Option<string>,
    targetDir: Option<Path>,
    templateContent: Option<string>,
    existingLessons: Option<seq<string>>,
    renderedCode: Option<string>,
    metadataJson: Option<string>,
    validationOk: Option<bool>,
    validationErrors: Option<seq<string>>,
    iteration: Option<int>,
    maxIterations: Option<int>,
    dryRun: Option<bool>,
    force: Option<bool>,
    outputPath: Option<string>,
    status: Option<Status>)

  /** The update that sets nothing. */
  const NoUpdate := State(None, None, None, None, None, None, None, None, None, None, None, None, None, None, None)

  /** The keys present in a state or update. */
  function Keys(s: State): set<string> {
    (if s.topic.Some? then {"topic"} else {})
    + (if s.domainName.Some? then {"domain_name"} else {})
    + (if s.targetDir.Some? then {"target_dir"} else {})
    + (if s.templateContent.Some? then {"template_content"} else {})
    + (if s.existingLessons.Some? then {"existing_lessons"} else {})
    + (if s.renderedCode.Some? then {"rendered_code"} else {})
    + (if s.metadataJson.Some? then {"metadata_json"} else {})
    + (if s.validationOk.Some? then {"validation_ok"} else {})
    + (if s.validationErrors.Some? then {"validation_errors"} else {})
    + (if s.iteration.Some? then {"iteration"} else {})
    + (if s.maxIterations.Some? then {"max_iterations"} else {})
    + (if s.dryRun.Some? then {"dry_run"} else {})
    + (if s.force.Some? then {"force"} else {})
    + (if s.outputPath.Some? then {"output_path"} else {})
    + (if s.status.Some? then {"status"} else {})
  }

  function Over<T>(u: Option<T>, s: Option<T>): Option<T> {
    if u.Some? then u else s
  }

  /** Applying a node's update: every key the update holds replaces the state's. */
  function Merge(s: State, u: State): State {
    State(Over(u.topic, s.topic), Over(u.domainName, s.domainName), Over(u.targetDir, s.targetDir),
      Over(u.templateContent, s.templateContent), Over(u.existingLessons, s.existingLessons),
      Over(u.renderedCode, s.renderedCode), Over(u.metadataJson, s.metadataJson),
      Over(u.validationOk, s.validationOk), Over(u.validationErrors, s.validationErrors),
      Over(u.iteration, s.iteration), Over(u.maxIterations, s.maxIterations), Over(u.dryRun, s.dryRun),
      Over(u.force, s.force), Over(u.outputPath, s.outputPath), Over(u.status, s.status))
  }

  /** Merging the same update twice changes nothing more; the empty update changes nothing. */
  lemma MergeSpec(s: State, u: State)
    ensures Merge(Merge(s, u), u) == Merge(s, u)
    ensures Keys(u) == {} ==> Merge(s, u) == s
  {
    if Keys(u) == {} {
      assert u.topic.None? && u.domainName.None? && u.targetDir.None? && u.templateContent.None?;
      assert u.existingLessons.None? && u.renderedCode.None? && u.metadataJson.None? && u.validationOk.None?;
      assert u.validationErrors.None? && u.iteration.None? && u.maxIterations.None? && u.dryRun.None?;
      assert u.force.None? && u.outputPath.None? && u.status.None?;
    }
  }

  /** `KeyError(key)` for a missing required key. */
  function Missing(key: string): Exception {
    KeyError(Repr(key))
  }

  // ----- load_context -----

  /** The update `load_context` returns. */
  function LoadUpdate(template: string, existing: seq<string>): (u: State)
    ensures Keys(u) == {"template_content", "existing_lessons", "iteration", "status"}
  {
    NoUpdate.(templateContent := Some(template), existingLessons := Some(existing), iteration := Some(0), status := Some(Pending))
  }

  /**
   * `load_context(state)`: the domain's template and the lessons already
   * in the target directory (the state's `target_dir` when given), with
   * the retry counter reset and the status pending.
   */
  method LoadContext(fs: FileSystem, registry: Registry, builtin: PedagogyStyle -> string, state: State)
    returns (r: Result<State, Exception>)
    ensures state.domainName.None? ==> r == Failure(Missing("domain_name"))
    ensures state.domainName.Some? ==>
      match Lookup(registry.entries, state.domainName.value)
      case Failure(e) => r == Failure(e)
      case Success(config) =>
        r == Success(LoadUpdate(ReadTemplate(fs, config, builtin), Listing(fs.files, fs.dirs, LessonDirFor(config, state.targetDir))))
  {
    if state.domainName.None? {
      return Failure(Missing("domain_name"));
    }
    var found := registry.GetDomain(state.domainName.value);
    if found.Failure? {
      return Failure(found.error);
    }
    var config := found.value;
    var template := ReadTemplate(fs, config, builtin);
    var existing := ListExistingLessons(fs, config, state.targetDir);
    return Success(LoadUpdate(template, existing));
  }

  // ----- generate_lesson -----

  /** The inputs each language-model prompt is filled with. */
  datatype Prompt =
    | GeneratePrompt(template: string, existingLessons: string, number: nat, filename: string, topic: string, domainName: string)
    | FixPrompt(code: string, errors: string)

  /** The language model: the reply to a filled-in prompt. */
  type Model = Prompt -> string

  /** `"\n".join(existing) or "(none)"` */
  function ExistingText(existing: seq<string>): string {
    var joined := Join("\n", existing);
    if joined == "" then "(none)" else joined
  }

  /** The listing is `(none)` exactly when there is no lesson or only one with an empty name; otherwise it is the names joined by newlines. */
  lemma ExistingTextSpec(existing: seq<string>)
    ensures ExistingText(existing) == "(none)" <== existing == [] || existing == [""]
    ensures |existing| >= 2 || (|existing| == 1 && existing[0] != "") ==> ExistingText(existing) == Join("\n", existing)
  {
    if |existing| >= 2 {
      assert Join("\n", existing) == existing[0] + "\n" + Join("\n", existing[1..]);
      assert |Join("\n", existing)| >= 1;
    }
  }

  /** The update `generate_lesson` returns for lesson `number`. */
  function GenerateUpdate(model: Model, state: State, name: string, topic: string, number: nat): (u: State)
    ensures Keys(u) == {"rendered_code", "metadata_json", "status"}
  {
    var filename := LessonFileName(number, topic);
    var prompt := GeneratePrompt(state.templateContent.GetOr(""), ExistingText(state.existingLessons.GetOr([])),
      number, filename, topic, name);
    NoUpdate.(renderedCode := Some(Strip(model(prompt))),
      metadataJson := Some(Encode(NewLessonMetadata(number, topic, filename))),
      status := Some(Generated))
  }

  /**
   * What a generated lesson carries: status `generated`, code that is the
   * stripped reply to the generation request (the template, the existing
   * lessons, the number, the file name, the topic and the domain), and
   * metadata that reads back as the lesson's number, the topic as title,
   * and a file name that is one plain path component whose leading digits
   * are the number.
   */
  lemma GeneratedLesson(model: Model, state: State, name: string, topic: string, number: nat)
    ensures var u := GenerateUpdate(model, state, name, topic, number);
      && u.status == Some(Generated)
      && u.renderedCode == Some(Strip(model(GeneratePrompt(state.templateContent.GetOr(""),
           ExistingText(state.existingLessons.GetOr([])), number, LessonFileName(number, topic), topic, name))))
      && Strip(u.renderedCode.value) == u.renderedCode.value
      && u.metadataJson.Some? && Decode(u.metadataJson.value) == Some(NewLessonMetadata(number, topic, LessonFileName(number, topic)))
      && PlainComponent(LessonFileName(number, topic))
      && LeadingNumber(LessonFileName(number, topic)) == Some(number)
  {
    var f := LessonFileName(number, topic);
    var reply := model(GeneratePrompt(state.templateContent.GetOr(""), ExistingText(state.existingLessons.GetOr([])),
      number, f, topic, name));
    StripSpec(reply);
    RoundTrip(NewLessonMetadata(number, topic, f));
    FileNameIsComponent(number, topic);
    GeneratedNumber(number, topic);
  }

  /**
   * `generate_lesson(state)`: numbers the lesson after those in the target
   * directory, names its file after the topic, asks the model for the code
   * and records the metadata.
   */
  method GenerateLesson(fs: FileSystem, registry: Registry, model: Model, state: State)
    returns (r: Result<State, Exception>)
    ensures state.domainName.None? ==> r == Failure(Missing("domain_name"))
    ensures state.domainName.Some? ==>
      match Lookup(registry.entries, state.domainName.value)
      case Failure(e) => r == Failure(e)
      case Success(config) =>
        && (state.topic.None? ==> r == Failure(Missing("topic")))
        && (state.topic.Some? ==>
              var number := NextNumber(Listing(fs.files, fs.dirs, LessonDirFor(config, state.targetDir)));
              number >= 1 && r == Success(GenerateUpdate(model, state, state.domainName.value, state.topic.value, number)))
  {
    if state.domainName.None? {
      return Failure(Missing("domain_name"));
    }
    var name := state.domainName.value;
    var found := registry.GetDomain(name);
    if found.Failure? {
      return Failure(found.error);
    }
    var config := found.value;
    var number := NextLessonNumber(fs, config, state.targetDir);
    NextNumberSpec(Listing(fs.files, fs.dirs, LessonDirFor(config, state.targetDir)));
    if state.topic.None? {
      return Failure(Missing("topic"));
    }
    return Success(GenerateUpdate(model, state, name, state.topic.value, number));
  }

  // ----- validate_lesson -----

  /** The update `validate_lesson` returns for a validation result. */
  function ValidateUpdate(v: ValidationResult): (u: State)
    ensures Keys(u) == {"validation_ok", "validation_errors"}
  {
    NoUpdate.(validationOk := Some(v.isValid), validationErrors := Some(v.errors))
  }

  /**
   * `validate_lesson(state)`: runs the validation of the current code and
   * copies its verdict and its errors into the state; the verdict is
   * `true` exactly when the error list is empty.
   */
  method ValidateLesson(registry: Registry, tc: Validation.Toolchain, state: State) returns (r: Result<State, Exception>)
    ensures state.domainName.None? ==> r == Failure(Missing("domain_name"))
    ensures state.domainName.Some? ==>
      match Lookup(registry.entries, state.domainName.value)
      case Failure(e) => r == Failure(e)
      case Success(config) =>
        && (state.renderedCode.None? ==> r == Failure(Missing("rendered_code")))
        && (state.renderedCode.Some? ==>
              r == Success(ValidateUpdate(Validation.Validation(state.renderedCode.value, config, tc))))
    ensures r.Success? ==> (r.value.validationOk == Some(true) <==> r.value.validationErrors == Some([]))
  {
    if state.domainName.None? {
      return Failure(Missing("domain_name"));
    }
    var found := registry.GetDomain(state.domainName.value);
    if found.Failure? {
      return Failure(found.error);
    }
    if state.renderedCode.None? {
      return Failure(Missing("rendered_code"));
    }
    var result := Validation.ValidateInTemp(state.renderedCode.value, found.value, tc);
    Validation.ValidIffNoErrors(state.renderedCode.value, found.value, tc);
    return Success(ValidateUpdate(result));
  }

  // ----- fix_lesson -----

  /**
   * `fix_lesson(state)`: asks the model to repair the code given the
   * errors, and counts one more attempt (a missing count is 0).  Only
   * `rendered_code` and `iteration` change.
   */
  function FixLesson(model: Model, state: State): (r: Result<State, Exception>)
    ensures r.Failure? <==> state.renderedCode.None?
    ensures r.Failure? ==> r.error == Missing("rendered_code")
    ensures r.Success? ==> Keys(r.value) == {"rendered_code", "iteration"}
    ensures r.Success? ==> r.value.iteration == Some(state.iteration.GetOr(0) + 1)
    ensures r.Success? ==>
      r.value.renderedCode == Some(Strip(model(FixPrompt(state.renderedCode.value, Join("\n", state.validationErrors.GetOr([]))))))
    ensures r.Success? ==> Merge(state, r.value) == state.(renderedCode := r.value.renderedCode, iteration := r.value.iteration)
  {
    if state.renderedCode.None? then Failure(Missing("rendered_code"))
    else
      var errors := Join("\n", state.validationErrors.GetOr([]));
      var code := Strip(model(FixPrompt(state.renderedCode.value, errors)));
      Success(NoUpdate.(renderedCode := Some(code), iteration := Some(state.iteration.GetOr(0) + 1)))
  }

  // ----- write_output -----

  /** `(target_dir.resolve() / filename).resolve()` */
  function TargetOf(targetDir: Path, filename: string): Path {
    Resolve(JoinPath(Resolve(targetDir), filename))
  }

  /** `not target.is_relative_to(target_dir)`: the target lies outside the resolved target directory. */
  predicate Escapes(targetDir: Path, filename: string) {
    !(Resolve(targetDir) <= TargetOf(targetDir, filename))
  }

  function StatusUpdate(s: Status): State {
    NoUpdate.(status := Some(s))
  }

  function RejectUpdate(message: string): State {
    NoUpdate.(status := Some(Failed), validationErrors := Some([message]))
  }

  function CommitUpdate(target: Path): State {
    NoUpdate.(outputPath := Some(PathString(target)), status := Some(Committed))
  }

  /**
   * A generated file name lands directly inside the target directory, so
   * the traversal check never rejects it.
   */
  lemma GeneratedNameStaysInside(targetDir: Path, number: nat, topic: string)
    ensures TargetOf(targetDir, LessonFileName(number, topic)) == Resolve(targetDir) + [LessonFileName(number, topic)]
    ensures !Escapes(targetDir, LessonFileName(number, topic))
  {
    FileNameIsComponent(number, topic);
    ComponentStaysInside(targetDir, LessonFileName(number, topic));
  }

  /** A single component other than `.` and `..` is joined below the target directory. */
  lemma ComponentStaysInside(targetDir: Path, f: Name)
    requires f != "" && f != "." && f != ".."
    ensures TargetOf(targetDir, f) == Resolve(targetDir) + [f]
    ensures !Escapes(targetDir, f)
  {
    var base := Resolve(targetDir);
    ResolveSpec(targetDir);
    PartsOfJoin([f]);
    assert f[0] != '/';
    assert JoinPath(base, f) == base + [f];
    assert Normal(base + [f]);
    ResolveSpec(base + [f]);
  }

  /** A file name `../g` lands beside the target directory `/dir`, outside it. */
  lemma ClimbingNameEscapes(dir: Name, g: Name)
    requires dir != "" && dir != "." && dir != ".." && g != "" && g != "." && g != ".." && dir != g
    ensures Escapes([dir], ".." + "/" + g)
  {
    var up: Name := "..";
    var name := up + "/" + g;
    SplitSlashConcat(up, g);
    SplitSlashName(g);
    var parts: seq<Name> := [up, g];
    assert SplitSlash(name) == parts;
    assert Keep(parts) == parts by {
      assert parts[1..] == [g] && [g][1..] == [];
      assert Keep([g]) == [g] + Keep([]);
      assert up != "" && up != ".";
      assert Keep(parts) == [up] + Keep([g]);
    }
    assert name[0] == '.';
    var joined: Path := [dir, up, g];
    assert [dir] + parts == joined;
    assert Resolve([dir]) == [dir] by {
      assert Normal([dir]);
      ResolveSpec([dir]);
    }
    assert JoinPath([dir], name) == joined;
    assert Resolve(joined) == [g] by {
      assert joined[1..] == parts && parts[1..] == [g] && [g][1..] == [];
      assert ResolveFrom([], joined) == ResolveFrom([dir], parts);
      assert [dir][..0] == [];
      assert ResolveFrom([dir], parts) == ResolveFrom([], [g]);
      assert ResolveFrom([], [g]) == ResolveFrom([g], []);
    }
  }

  /**
   * `write_output(state)`, checked in this order: a candidate that failed
   * validation is marked failed, a dry run writes nothing, a target that
   * escapes the target directory is refused, an existing file is kept
   * unless forced, and otherwise the lesson is written and committed.
   */
  method WriteOutput(fs: FileSystem, state: State) returns (r: Result<State, Exception>)
    requires fs.Valid()
    modifies fs
    ensures fs.Valid()
    ensures !state.validationOk.GetOr(false) ==> r == Success(StatusUpdate(Failed)) && unchanged(fs)
    ensures state.validationOk.GetOr(false) && state.dryRun.GetOr(false) ==> r == Success(StatusUpdate(DryRun)) && unchanged(fs)
    ensures state.validationOk.GetOr(false) && !state.dryRun.GetOr(false) ==>
      if state.metadataJson.None? then r == Failure(Missing("metadata_json")) && unchanged(fs)
      else if Decode(state.metadataJson.value).None? then r == Failure(ValidationError("LessonMetadata")) && unchanged(fs)
      else if state.targetDir.None? then r == Failure(Missing("target_dir")) && unchanged(fs)
      else
        var filename := Decode(state.metadataJson.value).value.filename;
        var target := TargetOf(state.targetDir.value, filename);
        if Escapes(state.targetDir.value, filename) then r == Success(RejectUpdate("Path traversal detected")) && unchanged(fs)
        else if state.renderedCode.None? then r == Failure(Missing("rendered_code")) && unchanged(fs)
        else
          WriteCommits(old(fs.files), old(fs.dirs), fs.files, fs.dirs, target, state.renderedCode.value, state.force.GetOr(false), r)
  {
    if !state.validationOk.GetOr(false) {
      return Success(StatusUpdate(Failed));
    }
    if state.dryRun.GetOr(false) {
      return Success(StatusUpdate(DryRun));
    }
    r := WriteValidated(fs, state);
  }

  /** `write_output` for a validated candidate outside a dry run. */
  method WriteValidated(fs: FileSystem, state: State) returns (r: Result<State, Exception>)
    requires fs.Valid()
    modifies fs
    ensures fs.Valid()
    ensures
      if state.metadataJson.None? then r == Failure(Missing("metadata_json")) && unchanged(fs)
      else if Decode(state.metadataJson.value).None? then r == Failure(ValidationError("LessonMetadata")) && unchanged(fs)
      else if state.targetDir.None? then r == Failure(Missing("target_dir")) && unchanged(fs)
      else
        var filename := Decode(state.metadataJson.value).value.filename;
        var target := TargetOf(state.targetDir.value, filename);
        if Escapes(state.targetDir.value, filename) then r == Success(RejectUpdate("Path traversal detected")) && unchanged(fs)
        else if state.renderedCode.None? then r == Failure(Missing("rendered_code")) && unchanged(fs)
        else
          WriteCommits(old(fs.files), old(fs.dirs), fs.files, fs.dirs, target, state.renderedCode.value, state.force.GetOr(false), r)
  {
    if state.metadataJson.None? {
      return Failure(Missing("metadata_json"));
    }
    var metadata := Decode(state.metadataJson.value);
    if metadata.None? {
      return Failure(ValidationError("LessonMetadata"));
    }
    if state.targetDir.None? {
      return Failure(Missing("target_dir"));
    }
    var targetDir := Resolve(state.targetDir.value);
    var target := Resolve(JoinPath(targetDir, metadata.value.filename));
    if !(targetDir <= target) {
      return Success(RejectUpdate("Path traversal detected"));
    }
    if state.renderedCode.None? {
      return Failure(Missing("rendered_code"));
    }
    ResolveSpec(JoinPath(targetDir, metadata.value.filename));
    r := Commit(fs, target, state.renderedCode.value, state.force.GetOr(false));
  }

  /**
   * The last step of `write_output`: an existing file is kept unless
   * forced (and so is one whose parent is a file, as `mkdir` reports it the
   * same way), other write errors propagate, and a write commits the
   * lesson at `target`, changing no other file.
   */
  ghost predicate WriteCommits(files0: map<Path, string>, dirs0: set<Path>, files: map<Path, string>, dirs: set<Path>,
                            target: Path, code: string, force: bool, r: Result<State, Exception>)
  {
    && (r == Success(RejectUpdate("File exists: " + PathString(target))) <==>
          ((target in files0 || target in dirs0) && !force) || (target != [] && target[..|target| - 1] in files0))
    && (r == Success(CommitUpdate(target)) <==>
          target !in dirs0 && (force || target !in files0) && NoFileAncestor(files0, target))
    && (r == Success(CommitUpdate(target)) ==> files == files0[target := code] && dirs == dirs0 + Ancestors(target))
    && (r != Success(CommitUpdate(target)) ==> files == files0 && dirs == dirs0)
    && (r.Success? ==> r == Success(RejectUpdate("File exists: " + PathString(target))) || r == Success(CommitUpdate(target)))
  }

  method Commit(fs: FileSystem, target: Path, code: string, force: bool) returns (r: Result<State, Exception>)
    requires fs.Valid() && Normal(target)
    modifies fs
    ensures fs.Valid()
    ensures WriteCommits(old(fs.files), old(fs.dirs), fs.files, fs.dirs, target, code, force, r)
  {
    var written := fs.WriteLesson(target, code, force);
    if written.Failure? {
      if written.error.FileExistsError? {
        return Success(RejectUpdate("File exists: " + PathString(target)));
      }
      return Failure(written.error);
    }
    return Success(CommitUpdate(target));
  }
}
