# lesson_generator in Dafny

A model of the lesson-generation pipeline of `lesson_generator`. The pipeline is a small LangGraph
state machine with five nodes:

- `load_context` reads the domain's template and the lessons already written.
- `generate_lesson` asks a language model for a new numbered lesson.
- `validate_lesson` runs the lesson through a syntax check, `ruff format`, `ruff check`, `mypy` and
  `pytest --doctest-modules`.
- `fix_lesson` asks the model to repair the code. It can run several times, up to a budget of
  `max_iterations`.
- `write_output` writes the lesson into the target directory. It refuses path traversal, and it
  refuses to overwrite a file unless `force` is set.

Around the graph sit:

- a registry of domain configurations;
- the lesson numbering;
- the file naming;
- the validation aggregation;
- an overwrite-protected file writer.

The modules follow the program's files:

| module | file | models |
|---|---|---|
| `Models` | `models.dfy` | the `PedagogyStyle` and `ProjectType` enumerations and the `DomainConfig`, `LessonMetadata` and `ValidationResult` records with their defaults |
| `MetadataJson` | `metadata_json.dfy` | `model_dump_json` / `model_validate_json` of `LessonMetadata` as an encoder/decoder pair with a proved round trip |
| `Domains` | `domains.dfy` | the mutable `_REGISTRY` as a class (`_register`, `get_domain`, `list_domains`), the two built-in domains, `validate_environment` |
| `FileSystem` | `filesystem.dfy` | paths as component lists, lexical `Path.resolve()`, and a file tree class with `write_lesson` |
| `Naming` | `naming.dfy` | the `safe_topic` sanitisation and the `NNN_safe_topic.py` file name |
| `Tools` | `tools.dfy` | `read_template`, `list_existing_lessons` and `next_lesson_number` (both loops kept as methods) |
| `Validation` | `validation.dfy` | `validate_in_temp`: a reference fold over the configured steps, and the step-by-step procedure proved equal to it |
| `Nodes` | `nodes.dfy` | the state record and its partial updates, and each node |
| `Graph` | `graph.dfy` | `_should_retry`, the graph builder, and the run of the compiled graph as a `while` loop |

`Text`, `Order` and `Wrappers` hold helpers: `str.strip`, `str.join`, decimals and `f"{n:03d}"`;
Python's string order and `sorted` on a set; and `Option`, `Result` and the exception kinds.

The outside world is passed in as parameters:

- The language model is a `Model`, a function from a filled-in prompt to a reply. In a run, the k-th
  model call is answered by `llm(k)`.
- The built-in templates are a function `builtin` from `PedagogyStyle` to text.
- The validation tools are a `Toolchain`. It gives the compiler's syntax error, if any, the text
  after `ruff format` (or a timeout), and the outcome of each checker: an exit code with its output,
  or a timeout.
- The study root and the home directory are path parameters of the initial registry.
- The file system is a `FileSystem` object, which holds a map from paths to contents and the set of
  directories.

### Where the model follows the code rather than its docstrings and comments

- `doctest_strategy` is a plain string, compared with `"skip"` and `"ellipsis"`, as in the code.
- `LessonGeneratorInput` is imported by `graph.py` but not defined in `state.py`. The run's input is
  therefore a full state record.
- The `"validated"` status that `state.py` documents is never set, so it is not a `Status`.

## Model

| member | source | states |
|---|---|---|
| Models.PedagogyRoundTrip | lesson_generator/models.py:11-24 | every style is found again from its string value, and no two styles share a value |
| Models.PedagogyMembers | lesson_generator/models.py:17-24 | lookup by value succeeds exactly on `concept_first`, `integration_first`, `application_first`; the enumeration has exactly these three members |
| Models.ProjectTypeRoundTrip | lesson_generator/models.py:27-34 | every project type is found again from its value, and the values are distinct |
| Models.ProjectTypeMembers | lesson_generator/models.py:30-34 | lookup by value succeeds exactly on `lesson_based` and `app_based`; exactly two members |
| Models.NewDomainConfig | lesson_generator/models.py:63-71 | a configuration built from name, pedagogy and project type has no project path, lesson dir `src/`, no template path, no source refs, strict mypy and `deterministic` doctests |
| Models.NewLessonMetadata | lesson_generator/models.py:91-95 | metadata built from number, title and file name has no prerequisites and an empty narrative |
| Models.NewValidationResult | lesson_generator/models.py:111-113 | a result built from the validity flag alone has empty error and tool lists |
| MetadataJson.RoundTrip | lesson_generator/nodes.py:98-106 | validating the JSON dump of any metadata record gives back an equal record |
| Domains.Registry.constructor | lesson_generator/domains.py:10 | the registry starts empty |
| Domains.Registry.Initial | lesson_generator/domains.py:88-118 | the module's registry holds exactly `dsa` and `asyncio` with their configurations |
| Domains.Registry.Register | lesson_generator/domains.py:18-20 | the table is the old one with `config.name` mapped to `config`; entries stay keyed by their own name |
| Domains.Registry.GetDomain | lesson_generator/domains.py:41-45 | the entry when the name is registered, else a `KeyError` naming the domain and the sorted known names; success exactly when registered |
| Domains.Registry.ListDomains | lesson_generator/domains.py:56 | exactly the registered names, each once, strictly increasing |
| Domains.RegisterThenLookup | lesson_generator/domains.py:18-20 | after registering a configuration, looking up its name gives it |
| Domains.RegisterKeepsOthers | lesson_generator/domains.py:20 | registering leaves every other name's presence and entry unchanged |
| Domains.ReRegisterOverwrites | lesson_generator/domains.py:18-20 | registering the same name twice keeps only the second configuration |
| Domains.UnknownDomainLists | lesson_generator/domains.py:41-44 | for an unknown name the `KeyError` message lists exactly the registered names, sorted, joined by `, ` |
| Domains.InitialRegistry | lesson_generator/domains.py:88-118 | the built-in table is keyed by name, lists as `asyncio, dsa`, and has `dsa` strict/`deterministic` and `asyncio` strict/`ellipsis` |
| Domains.StudyRootSpec | lesson_generator/domains.py:13-15 | with `LESSON_STUDY_ROOT` unset the study root is `~/study/python`; set to the text of an absolute path, it is that path |
| Domains.ValidateEnvironment | lesson_generator/domains.py:73-81 | the check passes exactly when no project path is set or the path is a directory; the message is `OK` exactly in the second case; a failure says `not found` |
| Order.Sort | lesson_generator/domains.py:56 | `sorted()` of a set: the set's elements once each, in increasing order |
| FileSystem.ResolveSpec | lesson_generator/nodes.py:190-191 | a resolved path has no empty, `.` or `..` component, and a path without them resolves to itself |
| FileSystem.FileSystem.WriteLesson | lesson_generator/tools.py:295-299 | an existing path without `force` raises `FileExistsError` mentioning `--force` and changes nothing; on success the path holds exactly the content, no other file changes, and the parents exist as directories |
| FileSystem.WriteRefusal | lesson_generator/tools.py:295-299 | the error a write raises before changing anything: `FileExistsError` mentioning `--force` for an existing path without `force`, a `FileExistsError` exactly when that refusal applies or the parent is a file, and no error exactly when the path is no directory, is new or forced, and has no file above it |
| FileSystem.AddAncestorsKeepsWellFormed | lesson_generator/tools.py:298-299 | creating the parents and writing the file keeps the tree well formed |
| Text.StripSpec | lesson_generator/nodes.py:95 | the stripped reply is a contiguous part of the reply with only whitespace cut off at each end, has no whitespace at either end, and is unchanged by a second strip |
| Text.Pad3Spec | lesson_generator/nodes.py:81 | the `:03d` form of a number is at least three digits, reads back as the number, and pads only up to three |
| Naming.SafeTopicShape | lesson_generator/nodes.py:79-80 | the safe topic uses only `[a-z0-9_]`, has no `__`, and has no `_` at either end |
| Naming.SafeTopicLetters | lesson_generator/nodes.py:79-80 | the safe topic keeps every non-underscore character of the lower-cased, substituted topic, in order |
| Naming.SafeTopicIdempotent | lesson_generator/nodes.py:79-80 | sanitising a safe topic again changes nothing |
| Naming.FileNameIsComponent | lesson_generator/nodes.py:81 | for any number and topic the file name has no `/`, `\` or `..`, ends in `.py`, and is neither `.` nor `..` |
| Naming.FileNameNumber | lesson_generator/nodes.py:81 | the file name starts with at least three digits that read back as the number |
| Tools.TemplateFile | lesson_generator/tools.py:31-32 | there is a project template file exactly when project path and a non-empty template path are both set |
| Tools.ReadTemplate | lesson_generator/tools.py:31-35 | the project's template file when it exists, otherwise the built-in template for the domain's pedagogy |
| Tools.LessonDirFor | lesson_generator/tools.py:59-64 | the directory scanned: the override if given, else project path joined with the lesson dir, else none |
| Tools.ListExistingLessons | lesson_generator/tools.py:59-73 | the result is the listing of the chosen directory |
| Tools.RenderVisible | lesson_generator/tools.py:67-73 | the loop keeps the scanned entries not starting with `__`, in scan order, rendered relative to the directory |
| Tools.ListingSpec | lesson_generator/tools.py:59-73 | no directory, or a missing one, lists nothing; otherwise the listing renders exactly the visible `*.py` entries below it in sorted order; no listed base name starts with `__` |
| Tools.LeadingNumber | lesson_generator/tools.py:102-104 | an entry has a number exactly when its base name starts with a digit |
| Tools.NextLessonNumber | lesson_generator/tools.py:98-106 | the result is the next number after the listing of the chosen directory |
| Tools.MaxLeadingNumber | lesson_generator/tools.py:99-106 | the loop computes the largest leading number among the entries, 0 when none has one |
| Tools.NextNumberSpec | lesson_generator/tools.py:98-106 | the next number is at least 1, greater than every leading number, 1 when there is none, and otherwise one past a leading number that occurs |
| Tools.GeneratedNumber | lesson_generator/nodes.py:81 | the leading number of a generated file name is the number it was made from |
| Tools.NumberingAdvances | lesson_generator/tools.py:106 | once a generated lesson is listed, the next number is past its number |
| Tools.NextNumberExamples | lesson_generator/tools.py:98-106 | `001_a.py` and `005_b.py` give 6; no lessons give 1 |
| Validation.Steps | lesson_generator/tools.py:151-261 | after the syntax check come `ruff format`, `ruff check` and `mypy` with the configured strictness, and then `pytest` (with the ellipsis flags when configured) unless doctests are skipped |
| Validation.RunChecker | lesson_generator/tools.py:170-190 | one checker block is one step of the reference fold |
| Validation.ValidateInTemp | lesson_generator/tools.py:132-268 | the step-by-step procedure with its early returns gives the result of the reference definition |
| Validation.ValidIffNoErrors | lesson_generator/tools.py:263-268 | a result is valid exactly when its error list is empty |
| Validation.ToolsRunOrder | lesson_generator/tools.py:149-255 | `tools_run` is a non-empty prefix of compile, ruff_format, ruff, mypy, pytest; it never contains pytest when doctests are skipped; a valid result ran every configured tool |
| Validation.SyntaxErrorShortCircuits | lesson_generator/tools.py:141-148 | a syntax error gives an invalid result with one `Syntax error:` message and only `compile` run, and only a syntax error leaves `compile` alone |
| Validation.TimeoutIsTerminal | lesson_generator/tools.py:159-254 | a timeout at step k ends validation at once: invalid, the earlier errors plus the timeout report, the earlier tools plus the one that timed out |
| Validation.RejectedCheckReported | lesson_generator/tools.py:186-261 | a checker finishing with a failing code has its prefixed report among the errors, and the result is invalid |
| Validation.ErrorsAreLabelled | lesson_generator/tools.py:146-261 | every error starts with the prefix of a tool that ran |
| Validation.FormatReportsOnlyTimeout | lesson_generator/tools.py:151-168 | a `ruff format:` error appears exactly when the code compiled and formatting timed out |
| Validation.AcceptedPytestAddsNothing | lesson_generator/tools.py:256-261 | pytest ending with 0 or 5 adds no `pytest:` error |
| Nodes.MergeSpec | lesson_generator/nodes.py:3-5 | applying the same partial update twice is the same as once, and an empty update changes nothing |
| Nodes.LoadUpdate | lesson_generator/nodes.py:49-54 | the update sets exactly template, existing lessons, iteration and status |
| Nodes.LoadContext | lesson_generator/nodes.py:44-54 | a missing domain name or unknown domain fails with a `KeyError`; otherwise the template and the listing of the override or configured directory, iteration 0, status `pending` |
| Nodes.ExistingTextSpec | lesson_generator/nodes.py:82 | the listing for the prompt is `(none)` when there are no lessons, otherwise the names joined by newlines |
| Nodes.GenerateUpdate | lesson_generator/nodes.py:104-108 | the update sets exactly the rendered code, the metadata and the status |
| Nodes.GeneratedLesson | lesson_generator/nodes.py:95-108 | status `generated`; the code is the stripped reply to the generation request, which carries the template, the existing lessons (or `(none)`), the number, the file name, the topic and the domain; the metadata reads back with the number, the topic as title and the file name; the file name is one plain component carrying the number |
| Nodes.GenerateLesson | lesson_generator/nodes.py:75-108 | the domain and topic `KeyError` paths; otherwise the lesson numbered one past the listing of the chosen directory, at least 1 |
| Nodes.ValidateUpdate | lesson_generator/nodes.py:128-131 | the update sets exactly `validation_ok` and `validation_errors` |
| Nodes.ValidateLesson | lesson_generator/nodes.py:126-131 | the domain and code `KeyError` paths; otherwise the validation result copied into the update, with ok exactly when there are no errors |
| Nodes.FixLesson | lesson_generator/nodes.py:152-165 | fails exactly when there is no code; otherwise sets exactly the code and iteration, the code being the stripped reply to the repair request made of the old code and the newline-joined errors, the iteration one past the old one (0 when unset), all other keys unchanged |
| Nodes.GeneratedNameStaysInside | lesson_generator/nodes.py:190-193 | a generated file name resolves to a direct child of the resolved target directory, so the traversal check never rejects it |
| Nodes.ComponentStaysInside | lesson_generator/nodes.py:190-192 | any single component other than `.` and `..` is joined directly below the target directory |
| Nodes.ClimbingNameEscapes | lesson_generator/nodes.py:190-193 | a file name `../g` for the directory `/dir` resolves outside it, so the traversal check does reject it |
| Nodes.WriteOutput | lesson_generator/nodes.py:183-201 | the decision chain in order: not valid, then dry run, then the metadata, then the traversal check, then the write; existing without `force` (or a file where a parent should be) reports `File exists:`, success reports `committed` with the path; nothing is written except on commit |
| Nodes.WriteValidated | lesson_generator/nodes.py:189-201 | for a validated candidate outside a dry run: a missing or undecodable metadata, a missing target directory, a traversal and a missing rendered code are reported in that order without writing, and otherwise the write step decides |
| Nodes.Commit | lesson_generator/nodes.py:194-201 | the write step: `File exists:` exactly on the overwrite refusals, commit exactly when the write can happen, files changed only on commit |
| Graph.ShouldRetry | lesson_generator/graph.py:37-41 | valid goes to `write_output`; the route is `fix_lesson` exactly when not valid and the iteration is below the budget |
| Graph.RetryDefaults | lesson_generator/graph.py:39 | an unset iteration routes as 0, an unset budget as 3, an unset verdict as invalid |
| Graph.StateGraph.constructor | lesson_generator/graph.py:62 | a new graph has no nodes, edges or routers |
| Graph.StateGraph.AddNode | lesson_generator/graph.py:63-67 | adds one node at the end and nothing else |
| Graph.StateGraph.AddEdge | lesson_generator/graph.py:69-74 | adds one edge and nothing else |
| Graph.StateGraph.AddConditionalEdges | lesson_generator/graph.py:72 | marks one node as left through the router and nothing else |
| Graph.BuildGraph | lesson_generator/graph.py:62-74 | the five nodes in order, the five fixed edges, and the router after validation |
| Graph.NextFollowsGraph | lesson_generator/graph.py:69-74 | each step takes the only edge leaving a node; after validation only the router decides, between `write_output` and `fix_lesson` |
| Graph.WalkShape | lesson_generator/graph.py:69-74 | a run with k repairs starts at START, ends at END, takes only graph steps, visits `fix_lesson` k times and `write_output` once, right after a validation |
| Graph.FirstCandidate | lesson_generator/graph.py:69-71 | load, generate and the first validation give a candidate at iteration 0 with status `generated`, the input's domain, topic and settings, the metadata of the lesson numbered one past the listing of the chosen directory; its code is the stripped reply of the model to the generation prompt for that lesson (`FirstCode`), and its verdict and errors are those of the reference validation of that code |
| Graph.Round | lesson_generator/nodes.py:150-165 | one repair and revalidation keeps the candidate's settings and topic and advances the iteration by one; the new code is the stripped reply of the model to the repair prompt built from the old code and its errors joined by newlines, and the new verdict and errors are those of the reference validation of the new code |
| Graph.Repair | lesson_generator/graph.py:37-41 | the loop stops with the router choosing `write_output`, records the walk of the run from the rounds it ran and that exit choice, after at most `max(0, max_iterations)` repairs, each after a failed validation, and ends valid or with the budget spent; it returns the candidates it validated, the first one being the generated code and each later one the model's repair of the one before, with each verdict the reference validation of its candidate and the final state holding the last candidate and its verdict |
| Graph.NextCandidate | lesson_generator/graph.py:72-73 | one pass around the loop after failed candidates: the run's candidates grow by the repaired code and its verdict, each still the validation of its candidate and the repair of the one before |
| Graph.Finish | lesson_generator/nodes.py:170-199 | the written status: `failed` with no write for an invalid candidate, `dry_run` with no write; otherwise `committed` exactly when nothing is in the way at `<target_dir>/<lesson file name>` (no directory there, no file unless forced, no file among its ancestors), in which case the files map gains the code at that path, the ancestors become directories and the output path is the target; else `failed` with the `File exists: <target>` report and the file system unchanged |
| Graph.Conclude | lesson_generator/graph.py:72-76 | from a validated first candidate, the repair loop then `write_output`: the same walk, bound, candidate-chain and write guarantees as `Graph.Run` |
| Graph.Run | lesson_generator/graph.py:62-76 | a completed run walks `Walk(fixes)`, as the repair loop recorded it, repairs at most `max(0, max_iterations)` times, stops at the first valid candidate or when the budget is spent, ends `failed` without writing when every candidate failed, and with no repair when the first is valid; its candidates start with the model's first reply to the generation prompt for the next lesson number, each later one being the repair of the one before, each verdict the validation of its candidate; a valid candidate outside a dry run is written as `Graph.Finish` states, with the last candidate as the file content |
| Graph.NoTraversal | lesson_generator/nodes.py:189-193 | the metadata a generated lesson carries reads back as generated, and its file name never escapes the target directory |

## Left out

- The language model. `chain.invoke` and `ChatAnthropic` are an abstract function of the filled-in prompt, so prompt wording is not modelled. The prompt texts in `prompts.py` are not part of this model.
- The subprocesses, the temporary directory and `compile`. They are a `Toolchain` that is deterministic in the file text it is given.
- `mypy` arguments. They are reduced to the strictness flag; the pytest arguments to the ellipsis flag.
- `normalized_code`. `validate_in_temp` computes it, but `ValidationResult` has no such field, so it is dropped. The model has no counterpart.
- Case folding and `\d`. Both cover ASCII only; Python's Unicode-aware `str.lower()` and `\d` are not modelled.
- `str.strip()`. It uses the ASCII whitespace characters only.
- `repr(name)` in the unknown-domain message. It is rendered as the name between single quotes, with no escaping.
- The JSON of `model_dump_json`. It is modelled as pydantic's compact form: short escapes for quote, backslash, `\n`, `\r`, `\t`, `\b` and `\f`, and `\u00XX` for the other control characters. Surrogate escapes are rejected when decoding. A decoding failure is `ValidationError("LessonMetadata")` without pydantic's message text.
- MetadataJson.Decode: accepts only the form the encoder makes. `model_validate_json` also accepts whitespace, keys in any order, missing defaulted keys, extra keys and numbers written as strings, and rejects leading zeros, which the decoder accepts. Inside a run the metadata always comes from the encoder, so the round trip covers the graph. For metadata written by a caller, Nodes.WriteOutput reports `ValidationError("LessonMetadata")` on some inputs pydantic accepts.
- Paths. Symlinks and the current directory are not modelled: `resolve()` is lexical on absolute paths, and `target_dir` is taken as absolute.
- `LESSON_STUDY_ROOT`. The environment variable and the home directory are given to the initial registry as parameters.
- LangGraph's runtime. An exception a node raises ends the run as a `Failure`. The input schema filtering, checkpoints and concurrency are not modelled. The driver follows the constant `Edges` and the router; it does not take the `StateGraph` object that `BuildGraph` returns, whose edges its ensures equates with `Edges`. `create_lesson_graph` and its model construction are not part of this model.
- Graph.Run: does not model LangGraph's recursion limit. `graph.invoke` is called without a config, so the default limit of 25 steps applies, and a run takes 4 + 2k node steps with k repairs. A run that reaches 11 or more repairs (a budget of 11 or more and no valid candidate before) raises `GraphRecursionError` in the source, while the model still promises the `failed` status. LangGraph's step counting is not part of this model.
- `__main__.py`, `prompts.py`, `templates/` and `react_agent/`. They are not part of this model. The built-in template is a function of the pedagogy style.
- Code-fence stripping is not modelled: the nodes only `strip()` the reply.
- Nodes.MergeSpec: does not state that a merged state's keys are the union of both key sets. It only states idempotence and the empty update.
- Graph.Run: the repair count, the candidates, the verdicts, the lesson number and the walk are ghost outputs, which tie the run to the model's replies without being returned by the graph. A run that stops with an exception promises only that the file system stays well formed.
