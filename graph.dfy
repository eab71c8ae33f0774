/**
 * The lesson pipeline as a graph: load the context, generate a candidate,
 * validate it, then either repair it and validate again or write the
 * output.  The retry router, the graph the builder assembles, and a driver
 * that runs the nodes in the order the compiled graph visits them.
 */
module Graph {
  import opened Wrappers
  import opened FileSystem
  import opened Models
  import opened Naming
  import opened MetadataJson
  import opened Domains
  import opened Nodes
  import Text
  import Validation

  /** The graph's vertices: its entry and exit points and the five nodes. */
  datatype Node = Start | Load | Generate | Validate | Fix | Write | End {
    function Name(): string {
      match this
      case Start => "__start__"
      case Load => "load_context"
      case Generate => "generate_lesson"
      case Validate => "validate_lesson"
      case Fix => "fix_lesson"
      case Write => "write_output"
      case End => "__end__"
    }
  }

  // ----- _should_retry -----

  /** The retry budget: `max_iterations`, 3 when unset. */
  function Budget(state: State): int {
    state.maxIterations.GetOr(3)
  }

  /**
   * `_should_retry(state)`: a valid candidate is written; an invalid one
   * is repaired while the attempts so far (0 when unset) are below the
   * budget, and written (as failed) once they reach it.
   */
  function ShouldRetry(state: State): (next: Node)
    ensures next == Write || next == Fix
    ensures state.validationOk == Some(true) ==> next == Write
    ensures next == Fix <==> !state.validationOk.GetOr(false) && state.iteration.GetOr(0) < Budget(state)
  {
    if state.validationOk.GetOr(false) then Write
    else if state.iteration.GetOr(0) >= state.maxIterations.GetOr(3) then Write
    else Fix
  }

  /** An unset counter routes as 0 and an unset budget as 3. */
  lemma RetryDefaults(state: State)
    ensures state.iteration.None? ==> ShouldRetry(state) == ShouldRetry(state.(iteration := Some(0)))
    ensures state.maxIterations.None? ==> ShouldRetry(state) == ShouldRetry(state.(maxIterations := Some(3)))
    ensures state.validationOk.None? ==> ShouldRetry(state) == ShouldRetry(state.(validationOk := Some(false)))
  {
  }

  // ----- _build_graph -----

  /** The fixed edges; `validate_lesson` is left by the router instead. */
  const Edges: set<(Node, Node)> := {(Start, Load), (Load, Generate), (Generate, Validate), (Fix, Validate), (Write, End)}

  /** A `StateGraph` under construction: its nodes in the order added, its edges, and the nodes left through a router. */
  class StateGraph {
    var nodes: seq<Node>
    var edges: set<(Node, Node)>
    var routed: set<Node>

    constructor ()
      ensures nodes == [] && edges == {} && routed == {}
    {
      nodes, edges, routed := [], {}, {};
    }

    /** `graph.add_node(name, fn)` */
    method AddNode(n: Node)
      modifies this
      ensures nodes == old(nodes) + [n] && edges == old(edges) && routed == old(routed)
    {
      nodes := nodes + [n];
    }

    /** `graph.add_edge(a, b)` */
    method AddEdge(a: Node, b: Node)
      modifies this
      ensures edges == old(edges) + {(a, b)} && nodes == old(nodes) && routed == old(routed)
    {
      edges := edges + {(a, b)};
    }

    /** `graph.add_conditional_edges(n, _should_retry)` */
    method AddConditionalEdges(n: Node)
      modifies this
      ensures routed == old(routed) + {n} && nodes == old(nodes) && edges == old(edges)
    {
      routed := routed + {n};
    }
  }

  /** `_build_graph(model)`: the five nodes, the fixed edges, and the router after validation. */
  method BuildGraph() returns (g: StateGraph)
    ensures fresh(g)
    ensures g.nodes == [Load, Generate, Validate, Fix, Write]
    ensures g.edges == Edges && g.routed == {Validate}
  {
    g := new StateGraph();
    g.AddNode(Load);
    g.AddNode(Generate);
    g.AddNode(Validate);
    g.AddNode(Fix);
    g.AddNode(Write);
    g.AddEdge(Start, Load);
    g.AddEdge(Load, Generate);
    g.AddEdge(Generate, Validate);
    g.AddConditionalEdges(Validate);
    g.AddEdge(Fix, Validate);
    g.AddEdge(Write, End);
  }

  /** The node the compiled graph runs after `n`, in state `state`. */
  function Next(n: Node, state: State): Node
    requires n != End
  {
    match n
    case Validate => ShouldRetry(state)
    case Start => Load
    case Load => Generate
    case Generate => Validate
    case Fix => Validate
    case Write => End
  }

  /** Each step follows the one edge leaving a node, or the router after validation. */
  lemma NextFollowsGraph(n: Node, state: State)
    requires n != End
    ensures n != Validate ==> (n, Next(n, state)) in Edges && forall m :: (n, m) in Edges ==> m == Next(n, state)
    ensures n == Validate ==> Next(n, state) in {Write, Fix} && forall m :: (n, m) !in Edges
  {
  }

  // ----- the walk through the graph -----

  /** `k` rounds of repair and re-validation. */
  function Rounds(k: nat): seq<Node> {
    if k == 0 then [] else Rounds(k - 1) + [Fix, Validate]
  }

  /** The vertices a run with `k` repairs visits. */
  function Walk(k: nat): seq<Node> {
    [Start, Load, Generate, Validate] + Rounds(k) + [Write, End]
  }

  /** A step the compiled graph can take: a fixed edge, or the router's choice after validation. */
  predicate CanStep(a: Node, b: Node) {
    (a, b) in Edges || (a == Validate && (b == Write || b == Fix))
  }

  lemma {:induction false} RoundsShape(k: nat)
    ensures |Rounds(k)| == 2 * k
    ensures forall i :: 0 <= i < |Rounds(k)| ==> Rounds(k)[i] == if i % 2 == 0 then Fix else Validate
  {
    if k > 0 {
      RoundsShape(k - 1);
    }
  }

  /**
   * A run with `k` repairs walks along the graph from start to end,
   * repairs exactly `k` times, writes exactly once, and writes right
   * after a validation.
   */
  lemma WalkShape(k: nat)
    ensures var w := Walk(k);
      && w[0] == Start && w[|w| - 1] == End
      && (forall i :: 0 <= i < |w| - 1 ==> CanStep(w[i], w[i + 1]))
      && multiset(w)[Fix] == k
      && (forall i :: 0 <= i < |w| && w[i] == Write ==> i == |w| - 2)
      && w[|w| - 3] == Validate
  {
    WalkAt(k);
    WalkSteps(k);
    WalkCounts(k);
  }

  /** The vertex at position `i` of `Walk(k)`: the four opening vertices, the rounds, then `write_output` and the end. */
  function WalkNode(k: nat, i: nat): Node {
    if i < 4 then [Start, Load, Generate, Validate][i]
    else if i < 2 * k + 4 then (if i % 2 == 0 then Fix else Validate)
    else if i == 2 * k + 4 then Write
    else End
  }

  lemma WalkAt(k: nat)
    ensures |Walk(k)| == 2 * k + 6
    ensures forall i :: 0 <= i < |Walk(k)| ==> Walk(k)[i] == WalkNode(k, i)
  {
    RoundsShape(k);
    var head: seq<Node> := [Start, Load, Generate, Validate];
    var tail: seq<Node> := [Write, End];
    var w := Walk(k);
    assert w == head + Rounds(k) + tail;
    forall i | 0 <= i < |w| ensures w[i] == WalkNode(k, i) {
      if 4 <= i < 2 * k + 4 {
        assert w[i] == Rounds(k)[i - 4];
        assert (i - 4) % 2 == i % 2;
      }
    }
  }

  lemma WalkSteps(k: nat)
    ensures forall i :: 0 <= i < |Walk(k)| - 1 ==> CanStep(Walk(k)[i], Walk(k)[i + 1])
  {
    WalkAt(k);
  }

  lemma WalkCounts(k: nat)
    ensures multiset(Walk(k))[Fix] == k
    ensures forall i :: 0 <= i < |Walk(k)| && Walk(k)[i] == Write ==> i == |Walk(k)| - 2
  {
    WalkAt(k);
    RoundsFixes(k);
    var head: seq<Node> := [Start, Load, Generate, Validate];
    var tail: seq<Node> := [Write, End];
    assert Walk(k) == head + Rounds(k) + tail;
    assert multiset(Walk(k)) == multiset(head) + multiset(Rounds(k)) + multiset(tail);
  }

  lemma {:induction false} RoundsFixes(k: nat)
    ensures multiset(Rounds(k))[Fix] == k && multiset(Rounds(k))[Write] == 0
  {
    if k > 0 {
      RoundsFixes(k - 1);
      assert multiset(Rounds(k)) == multiset(Rounds(k - 1)) + multiset([Fix, Validate]);
    }
  }

  // ----- running the pipeline -----

  function Max0(n: int): nat {
    if n > 0 then n else 0
  }

  /**
   * What holds between the nodes once a candidate exists: the domain is
   * known, the code and the verdict are set, the metadata is that of the
   * generated lesson, and the caller's settings are those of `input`.
   */
  ghost predicate Ready(state: State, input: State, entries: map<string, DomainConfig>, json: string) {
    && state.domainName.Some? && state.domainName.value in entries
    && state.topic.Some? && state.renderedCode.Some? && state.validationOk.Some?
    && state.metadataJson == Some(json)
    && state.maxIterations == input.maxIterations && state.dryRun == input.dryRun
    && state.targetDir == input.targetDir && state.force == input.force
  }

  /** The code `fix_lesson` asks `model` for in place of `code`, given the errors the validation of `code` reports. */
  function Repaired(model: Model, code: string, config: DomainConfig, tc: Validation.Toolchain): string {
    Text.Strip(model(FixPrompt(code, Text.Join("\n", Validation.Validation(code, config, tc).errors))))
  }

  /** The state's verdict and errors are those of validating its own code. */
  ghost predicate Checked(state: State, config: DomainConfig, tc: Validation.Toolchain) {
    && state.renderedCode.Some?
    && state.validationOk == Some(Validation.Validation(state.renderedCode.value, config, tc).isValid)
    && state.validationErrors == Some(Validation.Validation(state.renderedCode.value, config, tc).errors)
  }

  /**
   * The candidates of a run and their verdicts: each verdict is that of
   * validating its candidate, and each candidate after the first is the
   * repair the `i`-th model reply makes of the one before.
   */
  ghost predicate Candidates(llm: nat -> Model, config: DomainConfig, tc: Validation.Toolchain, codes: seq<string>, verdicts: seq<bool>) {
    && |codes| == |verdicts|
    && (forall i :: 0 <= i < |codes| ==> Judged(config, tc, codes, verdicts, i))
    && (forall i :: 0 < i < |codes| ==> Follows(llm, config, tc, codes, i))
  }

  /** The `i`-th verdict is that of validating the `i`-th candidate. */
  ghost predicate Judged(config: DomainConfig, tc: Validation.Toolchain, codes: seq<string>, verdicts: seq<bool>, i: nat)
    requires i < |codes| == |verdicts|
  {
    verdicts[i] == Validation.Validation(codes[i], config, tc).isValid
  }

  /** The `i`-th candidate is the repair the `i`-th model reply makes of the one before. */
  ghost predicate Follows(llm: nat -> Model, config: DomainConfig, tc: Validation.Toolchain, codes: seq<string>, i: nat)
    requires 0 < i < |codes|
  {
    codes[i] == Repaired(llm(i), codes[i - 1], config, tc)
  }

  /** The metadata `generate_lesson` records for lesson `number` on `topic`. */
  function GeneratedJson(number: nat, topic: string): string {
    Encode(NewLessonMetadata(number, topic, LessonFileName(number, topic)))
  }

  /**
   * The first candidate of a run on `input`: the code `generate_lesson`
   * gets from `model` for lesson `number`, prompted with the template and
   * the listing `load_context` reads.
   */
  ghost function FirstCode(fs: FileSystem, config: DomainConfig, builtin: PedagogyStyle -> string, model: Model,
                           input: State, number: nat): string
    requires input.domainName.Some? && input.topic.Some?
    reads fs
  {
    var listing := Tools.Listing(fs.files, fs.dirs, Tools.LessonDirFor(config, input.targetDir));
    var topic := input.topic.value;
    Text.Strip(model(GeneratePrompt(Tools.ReadTemplate(fs, config, builtin), ExistingText(listing), number,
      LessonFileName(number, topic), topic, input.domainName.value)))
  }

  /** `load_context`, `generate_lesson` and the first `validate_lesson`. */
  method FirstCandidate(fs: FileSystem, registry: Registry, builtin: PedagogyStyle -> string, model: Model,
                        tc: Validation.Toolchain, input: State)
    returns (r: Result<State, Exception>, ghost number: nat, ghost json: string)
    ensures r.Success? ==> Ready(r.value, input, registry.entries, json) && r.value.iteration == Some(0)
    ensures r.Success? ==> json == GeneratedJson(number, r.value.topic.value)
    ensures r.Success? ==> r.value.domainName == input.domainName && r.value.topic == input.topic
    ensures r.Success? ==> r.value.status == Some(Generated)
    ensures r.Success? ==> number == Tools.NextNumber(Tools.Listing(fs.files, fs.dirs,
      Tools.LessonDirFor(registry.entries[input.domainName.value], input.targetDir)))
    ensures r.Success? ==> Checked(r.value, registry.entries[input.domainName.value], tc)
    ensures r.Success? ==> r.value.renderedCode == Some(FirstCode(fs, registry.entries[input.domainName.value], builtin, model, input, number))
  {
    var loaded := LoadContext(fs, registry, builtin, input);
    if loaded.Failure? {
      return Failure(loaded.error), 0, "";
    }
    var state := Merge(input, loaded.value);
    var generated := GenerateLesson(fs, registry, model, state);
    if generated.Failure? {
      return Failure(generated.error), 0, "";
    }
    number := Tools.NextNumber(Tools.Listing(fs.files, fs.dirs, Tools.LessonDirFor(registry.entries[state.domainName.value], state.targetDir))) as nat;
    json := GeneratedJson(number, state.topic.value);
    state := Merge(state, generated.value);
    var checked := ValidateLesson(registry, tc, state);
    state := Merge(state, checked.value);
    r := Success(state);
  }

  /**
   * The repair loop: while the router says so, repair the code and
   * validate it again.  It records the walk of the run: the router's
   * choice of `fix_lesson` on each pass and of `write_output` on leaving;
   * the opening nodes, the `validate_lesson` after each repair and the end
   * after writing are fixed by the graph's edges.
   */
  method Repair(registry: Registry, llm: nat -> Model, tc: Validation.Toolchain, first: State, input: State, ghost json: string)
    returns (state: State, ghost fixes: nat, ghost codes: seq<string>, ghost verdicts: seq<bool>, ghost walk: seq<Node>)
    requires Ready(first, input, registry.entries, json) && first.iteration == Some(0)
    requires Checked(first, registry.entries[first.domainName.value], tc)
    ensures walk == Walk(fixes)
    ensures Ready(state, input, registry.entries, json) && ShouldRetry(state) == Write
    ensures state.iteration == Some(fixes) && fixes <= Max0(Budget(input))
    ensures Candidates(llm, registry.entries[first.domainName.value], tc, codes, verdicts)
    ensures |verdicts| == fixes + 1 && codes[0] == first.renderedCode.value && codes[fixes] == state.renderedCode.value
    ensures verdicts[fixes] == state.validationOk.value
    ensures forall i :: 0 <= i < fixes ==> !verdicts[i]
    ensures state.topic == first.topic && state.domainName == first.domainName
    ensures verdicts[fixes] || fixes == Max0(Budget(input))
    ensures verdicts[0] ==> fixes == 0
  {
    ghost var config := registry.entries[first.domainName.value];
    state, fixes, codes, verdicts := first, 0, [first.renderedCode.value], [first.validationOk.value];
    assert Judged(config, tc, codes, verdicts, 0);
    ghost var rounds: seq<Node> := [];
    var attempts: nat := 0;
    while ShouldRetry(state) == Fix
      invariant attempts == fixes
      invariant rounds == Rounds(fixes)
      invariant Ready(state, input, registry.entries, json)
      invariant state.iteration == Some(fixes) && fixes <= Max0(Budget(input))
      invariant Tracked(llm, config, tc, state, codes, verdicts)
      invariant |verdicts| == fixes + 1 && codes[0] == first.renderedCode.value
      invariant true !in verdicts[..fixes]
      invariant state.topic == first.topic && state.domainName == first.domainName
      decreases Budget(input) - fixes
    {
      rounds := rounds + [ShouldRetry(state)];
      state, codes, verdicts := NextCandidate(registry, llm, attempts + 1, tc, state, input, json, config, codes, verdicts);
      rounds := rounds + [Next(Fix, state)];
      attempts := attempts + 1;
      fixes := fixes + 1;
    }
    assert forall i :: 0 <= i < fixes ==> verdicts[i] == verdicts[..fixes][i];
    walk := Recorded(rounds, fixes, ShouldRetry(state), Next(Write, state));
  }

  /**
   * One pass around the repair loop after `attempt - 1` failed repairs:
   * `Round` with the model's `attempt`-th reply, the run's candidates
   * extended by the repaired code and its verdict.
   */
  method NextCandidate(registry: Registry, llm: nat -> Model, attempt: nat, tc: Validation.Toolchain, state: State, input: State,
                       ghost json: string, ghost config: DomainConfig, ghost codes: seq<string>, ghost verdicts: seq<bool>)
    returns (next: State, ghost codes': seq<string>, ghost verdicts': seq<bool>)
    requires Ready(state, input, registry.entries, json) && config == registry.entries[state.domainName.value]
    requires Tracked(llm, config, tc, state, codes, verdicts) && attempt == |codes|
    requires true !in verdicts[..attempt - 1] && !verdicts[attempt - 1]
    ensures Ready(next, input, registry.entries, json)
    ensures next.iteration == Some(state.iteration.GetOr(0) + 1)
    ensures next.topic == state.topic && next.domainName == state.domainName
    ensures codes' == codes + [next.renderedCode.value] && verdicts' == verdicts + [next.validationOk.value]
    ensures Tracked(llm, config, tc, next, codes', verdicts') && true !in verdicts'[..attempt]
  {
    next := Round(registry, llm(attempt), tc, state, input, json);
    TrackRound(llm, config, tc, state, next, codes, verdicts);
    FailedGrow(verdicts, attempt - 1, next.validationOk.value);
    codes', verdicts' := codes + [next.renderedCode.value], verdicts + [next.validationOk.value];
  }

  /** A failed verdict after `n` failed ones gives `n + 1` failed ones. */
  lemma FailedGrow(verdicts: seq<bool>, n: nat, next: bool)
    requires |verdicts| == n + 1 && true !in verdicts[..n] && !verdicts[n]
    ensures true !in (verdicts + [next])[..n + 1]
  {
    assert (verdicts + [next])[..n + 1] == verdicts[..n] + [verdicts[n]];
  }

  /** The run's candidates so far, the last of them and its verdict being those the state holds. */
  ghost predicate Tracked(llm: nat -> Model, config: DomainConfig, tc: Validation.Toolchain, state: State,
                          codes: seq<string>, verdicts: seq<bool>) {
    && |codes| > 0
    && Candidates(llm, config, tc, codes, verdicts)
    && Checked(state, config, tc)
    && state.renderedCode == Some(codes[|codes| - 1])
    && state.validationOk == Some(verdicts[|verdicts| - 1])
  }

  /** A round that repairs the state's code with the next reply and validates the result extends the run's candidates. */
  lemma TrackRound(llm: nat -> Model, config: DomainConfig, tc: Validation.Toolchain, state: State, next: State,
                   codes: seq<string>, verdicts: seq<bool>)
    requires Tracked(llm, config, tc, state, codes, verdicts)
    requires Checked(next, config, tc)
    requires next.renderedCode == Some(Repaired(llm(|codes|), state.renderedCode.value, config, tc))
    ensures Tracked(llm, config, tc, next, codes + [next.renderedCode.value], verdicts + [next.validationOk.value])
  {
    CandidatesGrow(llm, config, tc, codes, verdicts, next.renderedCode.value, next.validationOk.value);
  }

  /** One more candidate, the repair of the last, keeps the run's candidates in step with their verdicts. */
  lemma CandidatesGrow(llm: nat -> Model, config: DomainConfig, tc: Validation.Toolchain, codes: seq<string>, verdicts: seq<bool>,
                       code: string, verdict: bool)
    requires Candidates(llm, config, tc, codes, verdicts) && |codes| > 0
    requires code == Repaired(llm(|codes|), codes[|codes| - 1], config, tc)
    requires verdict == Validation.Validation(code, config, tc).isValid
    ensures Candidates(llm, config, tc, codes + [code], verdicts + [verdict])
  {
    var codes', verdicts' := codes + [code], verdicts + [verdict];
    forall i | 0 <= i < |codes'| ensures Judged(config, tc, codes', verdicts', i) {
      if i < |codes| {
        assert Judged(config, tc, codes, verdicts, i);
      }
    }
    forall i | 0 < i < |codes'| ensures Follows(llm, config, tc, codes', i) {
      if i < |codes| {
        assert Follows(llm, config, tc, codes, i);
      }
    }
  }

  /** One pass around the loop: `fix_lesson`, then `validate_lesson` on the repaired code. */
  method Round(registry: Registry, model: Model, tc: Validation.Toolchain, state: State, input: State, ghost json: string)
    returns (next: State)
    requires Ready(state, input, registry.entries, json)
    ensures Ready(next, input, registry.entries, json)
    ensures next.iteration == Some(state.iteration.GetOr(0) + 1)
    ensures next.topic == state.topic && next.domainName == state.domainName
    ensures next.renderedCode ==
      Some(Text.Strip(model(FixPrompt(state.renderedCode.value, Text.Join("\n", state.validationErrors.GetOr([]))))))
    ensures Checked(next, registry.entries[state.domainName.value], tc)
    ensures Checked(state, registry.entries[state.domainName.value], tc) ==>
      next.renderedCode == Some(Repaired(model, state.renderedCode.value, registry.entries[state.domainName.value], tc))
  {
    var repaired := FixLesson(model, state).value;
    next := Merge(state, repaired);
    var checked := ValidateLesson(registry, tc, next);
    next := Merge(next, checked.value);
  }

  /**
   * One run of the compiled graph on `input`.  It follows `Edges` and the
   * router, the graph `BuildGraph` assembles, rather than a `StateGraph`
   * object passed in.  The model's `k`-th reply in the run comes from
   * `llm(k)`.  A run that completes has repaired at
   * most `max(0, max_iterations)` times, each time after a failed
   * validation; it stops at the first valid candidate or when the budget
   * is spent; it walks the graph as `Walk(fixes)`, writing once, right
   * after a validation; and it commits only a valid candidate.
   */
  method Run(fs: FileSystem, registry: Registry, builtin: PedagogyStyle -> string, llm: nat -> Model,
             tc: Validation.Toolchain, input: State)
    returns (r: Result<State, Exception>, ghost fixes: nat, ghost number: nat, ghost codes: seq<string>, ghost verdicts: seq<bool>,
             ghost walk: seq<Node>)
    requires fs.Valid()
    modifies fs
    ensures fs.Valid()
    ensures r.Success? ==>
      && input.domainName.Some? && input.domainName.value in old(registry.entries) && input.topic.Some?
      && number == Tools.NextNumber(old(Tools.Listing(fs.files, fs.dirs, Tools.LessonDirFor(registry.entries[input.domainName.value], input.targetDir))))
      && |codes| == fixes + 1
      && codes[0] == old(FirstCode(fs, registry.entries[input.domainName.value], builtin, llm(0), input, number))
      && Candidates(llm, old(registry.entries)[input.domainName.value], tc, codes, verdicts)
    ensures r.Success? ==>
      && walk == Walk(fixes)
      && |verdicts| == fixes + 1
      && fixes <= Max0(Budget(input))
      && r.value.iteration == Some(fixes)
      && (forall i :: 0 <= i < fixes ==> !verdicts[i])
      && (verdicts[fixes] || fixes == Max0(Budget(input)))
      && (!verdicts[fixes] ==> r.value.status == Some(Failed) && unchanged(fs))
      && (verdicts[0] ==> fixes == 0)
      && (verdicts[fixes] && input.dryRun.GetOr(false) ==> r.value.status == Some(DryRun) && unchanged(fs))
    ensures r.Success? && verdicts[fixes] && !input.dryRun.GetOr(false) ==>
      && input.targetDir.Some?
      && Written(old(fs.files), old(fs.dirs), fs.files, fs.dirs, TargetOf(input.targetDir.value, LessonFileName(number, input.topic.value)),
           codes[fixes], input.force.GetOr(false), r.value)
  {
    fixes, number, codes, verdicts := 0, 0, [], [];
    ghost var json: string;
    var first;
    walk := [];
    first, number, json := FirstCandidate(fs, registry, builtin, llm(0), tc, input);
    if first.Failure? {
      return Failure(first.error), fixes, number, codes, verdicts, walk;
    }
    r, fixes, codes, verdicts, walk := Conclude(fs, registry, llm, tc, first.value, input, json, number, registry.entries[input.domainName.value]);
  }

  /** The rest of a run once the first candidate is validated: the repair loop, then `write_output`. */
  method Conclude(fs: FileSystem, registry: Registry, llm: nat -> Model, tc: Validation.Toolchain, first: State, input: State,
                  ghost json: string, ghost number: nat, ghost config: DomainConfig)
    returns (r: Result<State, Exception>, ghost fixes: nat, ghost codes: seq<string>, ghost verdicts: seq<bool>, ghost walk: seq<Node>)
    requires fs.Valid()
    requires Ready(first, input, registry.entries, json) && first.iteration == Some(0) && first.topic == input.topic
    requires Checked(first, registry.entries[first.domainName.value], tc)
    requires json == GeneratedJson(number, first.topic.value)
    requires config == registry.entries[first.domainName.value]
    modifies fs
    ensures fs.Valid()
    ensures r.Success? ==>
      && |codes| == fixes + 1 && codes[0] == first.renderedCode.value
      && Candidates(llm, config, tc, codes, verdicts)
    ensures r.Success? ==>
      && walk == Walk(fixes)
      && |verdicts| == fixes + 1
      && fixes <= Max0(Budget(input))
      && r.value.iteration == Some(fixes)
      && (forall i :: 0 <= i < fixes ==> !verdicts[i])
      && (verdicts[fixes] || fixes == Max0(Budget(input)))
      && (!verdicts[fixes] ==> r.value.status == Some(Failed) && unchanged(fs))
      && (verdicts[0] ==> fixes == 0)
      && (verdicts[fixes] && input.dryRun.GetOr(false) ==> r.value.status == Some(DryRun) && unchanged(fs))
    ensures r.Success? && verdicts[fixes] && !input.dryRun.GetOr(false) ==>
      && input.targetDir.Some?
      && Written(old(fs.files), old(fs.dirs), fs.files, fs.dirs, TargetOf(input.targetDir.value, LessonFileName(number, input.topic.value)),
           codes[fixes], input.force.GetOr(false), r.value)
  {
    var state;
    state, fixes, codes, verdicts, walk := Repair(registry, llm, tc, first, input, json);
    var finished := Finish(fs, state, number);
    if finished.Failure? {
      return Failure(finished.error), fixes, codes, verdicts, walk;
    }
    r := finished;
  }

  /**
   * The walk of a run: the opening nodes the fixed edges lead through,
   * the rounds the repair loop recorded, the router's exit choice after
   * the last validation, and the node the edge from `write_output` leads to.
   */
  ghost method Recorded(rounds: seq<Node>, k: nat, exit: Node, after: Node) returns (walk: seq<Node>)
    requires rounds == Rounds(k) && exit == Write && after == End
    ensures walk == Walk(k)
  {
    walk := [Start, Load, Generate, Validate] + rounds + [exit, after];
  }

  /**
   * The outcome of writing `code` at `target` once merged into the state:
   * the lesson is committed exactly when nothing is in the way (no
   * directory there, no file there unless forced, no file above it), and
   * then the file system holds the code at `target` and nothing else
   * changed; otherwise the run failed with `File exists` and the file
   * system is untouched.
   */
  ghost predicate Written(files0: map<Path, string>, dirs0: set<Path>, files: map<Path, string>, dirs: set<Path>,
                          target: Path, code: string, force: bool, s: State) {
    && (s.status == Some(Committed) <==> target !in dirs0 && (force || target !in files0) && NoFileAncestor(files0, target))
    && (s.status == Some(Committed) ==>
          files == files0[target := code] && dirs == dirs0 + Ancestors(target) && s.outputPath == Some(PathString(target)))
    && (s.status != Some(Committed) ==>
          s.status == Some(Failed) && s.validationErrors == Some(["File exists: " + PathString(target)]) && files == files0 && dirs == dirs0)
  }

  /** `write_output` on a validated candidate, its update merged into the state. */
  method Finish(fs: FileSystem, state: State, ghost number: nat) returns (r: Result<State, Exception>)
    requires fs.Valid()
    requires state.topic.Some? && state.renderedCode.Some? && state.validationOk.Some?
    requires state.metadataJson == Some(GeneratedJson(number, state.topic.value))
    modifies fs
    ensures fs.Valid()
    ensures r.Success? ==> r.value.iteration == state.iteration
    ensures r.Success? && !state.validationOk.value ==> r.value.status == Some(Failed) && unchanged(fs)
    ensures r.Success? && state.validationOk.value && state.dryRun.GetOr(false) ==> r.value.status == Some(DryRun) && unchanged(fs)
    ensures r.Success? && state.validationOk.value && !state.dryRun.GetOr(false) ==>
      && state.targetDir.Some?
      && Written(old(fs.files), old(fs.dirs), fs.files, fs.dirs, TargetOf(state.targetDir.value, LessonFileName(number, state.topic.value)),
           state.renderedCode.value, state.force.GetOr(false), r.value)
  {
    if state.validationOk.value && !state.dryRun.GetOr(false) && state.targetDir.Some? {
      NoTraversal(state, number);
    }
    var written := WriteOutput(fs, state);
    if written.Failure? {
      return Failure(written.error);
    }
    if state.validationOk.value && !state.dryRun.GetOr(false) {
      CommitsWritten(old(fs.files), old(fs.dirs), fs.files, fs.dirs, TargetOf(state.targetDir.value, LessonFileName(number, state.topic.value)),
        state.renderedCode.value, state.force.GetOr(false), state, written.value);
    }
    r := Success(Merge(state, written.value));
  }

  /** A write that `Commit` reports as committed or refused, merged into the state, is `Written`. */
  lemma CommitsWritten(files0: map<Path, string>, dirs0: set<Path>, files: map<Path, string>, dirs: set<Path>,
                       target: Path, code: string, force: bool, state: State, u: State)
    requires WriteCommits(files0, dirs0, files, dirs, target, code, force, Success(u))
    ensures Written(files0, dirs0, files, dirs, target, code, force, Merge(state, u))
  {
  }

  /** The target of a generated lesson never escapes the target directory. */
  lemma NoTraversal(state: State, number: nat)
    requires state.topic.Some? && state.targetDir.Some?
    requires state.metadataJson == Some(GeneratedJson(number, state.topic.value))
    ensures Decode(state.metadataJson.value) == Some(NewLessonMetadata(number, state.topic.value, LessonFileName(number, state.topic.value)))
    ensures !Escapes(state.targetDir.value, LessonFileName(number, state.topic.value))
  {
    RoundTrip(NewLessonMetadata(number, state.topic.value, LessonFileName(number, state.topic.value)));
    GeneratedNameStaysInside(state.targetDir.value, number, state.topic.value);
  }
}
