/**
 * The domain registry: a mutable table from domain name to its
 * configuration, filled with the two built-in domains when the module is
 * loaded, read by lookup and by the sorted listing, plus the check that a
 * domain's project directory exists.
 */
module Domains {
  import opened Wrappers
  import opened Text
  import opened Order
  import opened FileSystem
  import opened Models

  /** Every entry is filed under its own name, as registering does. */
  ghost predicate KeyedByName(entries: map<string, DomainConfig>) {
    forall k :: k in entries ==> entries[k].name == k
  }

  /** `repr(name)` for a string without quotes or escapes in it. */
  function Repr(s: string): string {
    "'" + s + "'"
  }

  function UnknownDomainMessage(name: string, available: seq<string>): string {
    "Unknown domain " + Repr(name) + ". Available: " + Join(", ", available)
  }

  /** `sorted(_REGISTRY)`: the registered names in increasing order. */
  ghost function SortedNames(entries: map<string, DomainConfig>): seq<string> {
    StrLtIsStrictTotal();
    SortedSet(StrLt, entries.Keys)
  }

  /** `get_domain(name)` over a registry table: the entry, or a `KeyError` listing the known names in sorted order. */
  ghost function Lookup(entries: map<string, DomainConfig>, name: string): Result<DomainConfig, Exception> {
    if name in entries then Success(entries[name])
    else Failure(KeyError(UnknownDomainMessage(name, SortedNames(entries))))
  }

  /** After registering `c`, looking up its name gives `c`. */
  lemma RegisterThenLookup(entries: map<string, DomainConfig>, c: DomainConfig)
    ensures Lookup(entries[c.name := c], c.name) == Success(c)
  {
  }

  /** Registering `c` leaves every other name's entry as it was. */
  lemma RegisterKeepsOthers(entries: map<string, DomainConfig>, c: DomainConfig, n: string)
    requires n != c.name
    ensures n in entries[c.name := c] <==> n in entries
    ensures n in entries ==> Lookup(entries[c.name := c], n) == Lookup(entries, n)
  {
  }

  /** Registering a second configuration under the same name replaces the first. */
  lemma ReRegisterOverwrites(entries: map<string, DomainConfig>, c1: DomainConfig, c2: DomainConfig)
    requires c1.name == c2.name
    ensures entries[c1.name := c1][c2.name := c2] == entries[c2.name := c2]
    ensures Lookup(entries[c1.name := c1][c2.name := c2], c1.name) == Success(c2)
  {
  }

  /** An unknown name fails with a `KeyError` whose message lists exactly the registered names, sorted. */
  lemma UnknownDomainLists(entries: map<string, DomainConfig>, name: string)
    requires name !in entries
    ensures exists available: seq<string> ::
      && StrictlySorted(StrLt, available)
      && (forall x :: x in available <==> x in entries)
      && Lookup(entries, name) == Failure(KeyError(UnknownDomainMessage(name, available)))
  {
    StrLtIsStrictTotal();
    var available := SortedNames(entries);
    assert Lookup(entries, name) == Failure(KeyError(UnknownDomainMessage(name, available)));
  }

  /** The registry table `_REGISTRY`. */
  class Registry {
    var entries: map<string, DomainConfig>

    ghost predicate Valid()
      reads this
    {
      KeyedByName(entries)
    }

    /** An empty table. */
    constructor ()
      ensures Valid() && entries == map[]
    {
      entries := map[];
    }

    /**
     * The table as the module leaves it once loaded: `dsa` and `asyncio`
     * registered, project paths below `studyRoot`, CPython sources below
     * `home`.
     */
    constructor Initial(studyRoot: Path, home: Path)
      ensures Valid()
      ensures entries == map["dsa" := DsaConfig(studyRoot, home), "asyncio" := AsyncioConfig(studyRoot, home)]
    {
      entries := map[];
      new;
      Register(DsaConfig(studyRoot, home));
      Register(AsyncioConfig(studyRoot, home));
    }

    /** `_register(config)` */
    method Register(c: DomainConfig)
      requires Valid()
      modifies this
      ensures Valid()
      ensures entries == old(entries)[c.name := c]
    {
      entries := entries[c.name := c];
    }

    /** `get_domain(name)` */
    method GetDomain(name: string) returns (r: Result<DomainConfig, Exception>)
      ensures r == Lookup(entries, name)
      ensures r.Success? <==> name in entries
      ensures Valid() && r.Success? ==> r.value.name == name
    {
      if name !in entries {
        StrLtIsStrictTotal();
        var available := Sort(StrLt, entries.Keys);
        return Failure(KeyError(UnknownDomainMessage(name, available)));
      }
      return Success(entries[name]);
    }

    /** `list_domains()`: the registered names, each once, in increasing order. */
    method ListDomains() returns (names: seq<string>)
      ensures names == SortedNames(entries)
      ensures StrictlySorted(StrLt, names)
      ensures forall x :: x in names <==> x in entries
    {
      StrLtIsStrictTotal();
      names := Sort(StrLt, entries.Keys);
    }
  }

  /** The default study root: `LESSON_STUDY_ROOT` when set (relative to `cwd` unless absolute), else `~/study/python`. */
  function StudyRoot(env: Option<string>, home: Path, cwd: Path): Path {
    match env
    case Some(s) => JoinPath(cwd, s)
    case None => home + ["study", "python"]
  }

  /**
   * Unset, the study root is `~/study/python`; set to the text of an
   * absolute path, it is that path.
   */
  lemma StudyRootSpec(p: Path, home: Path, cwd: Path)
    requires Normal(p)
    ensures StudyRoot(None, home, cwd) == home + ["study", "python"]
    ensures StudyRoot(Some(PathString(p)), home, cwd) == p
  {
    var s := PathString(p);
    assert s[0] == '/' && s[1..] == Join("/", p);
    assert SplitSlash(s) == [[]] + SplitSlash(s[1..]);
    assert Keep([[]] + SplitSlash(s[1..])) == Keep(SplitSlash(s[1..])) by {
      assert ([[]] + SplitSlash(s[1..]))[1..] == SplitSlash(s[1..]);
    }
    PartsOfJoin(p);
  }

  function CpythonRefs(home: Path): map<string, string> {
    map["cpython" := PathString(home + ["study", "c", "cpython"])]
  }

  /** The built-in `dsa` domain. */
  function DsaConfig(studyRoot: Path, home: Path): DomainConfig {
    DomainConfig("dsa", ConceptFirst, LessonBased, Some(studyRoot + ["learning-dsa"]), "src/algorithms",
      Some("notes/lesson_template.py"), CpythonRefs(home), true, "deterministic")
  }

  /** The built-in `asyncio` domain. */
  function AsyncioConfig(studyRoot: Path, home: Path): DomainConfig {
    DomainConfig("asyncio", ConceptFirst, LessonBased, Some(studyRoot + ["learning-asyncio"]), "src",
      Some("notes/lesson_template.py"), CpythonRefs(home), true, "ellipsis")
  }

  /**
   * The initial table is keyed by name, lists as `["asyncio", "dsa"]`, and
   * both domains validate with strict mypy; `dsa` runs doctests as
   * written, `asyncio` with ellipsis matching.
   */
  lemma InitialRegistry(studyRoot: Path, home: Path)
    ensures var entries := map["dsa" := DsaConfig(studyRoot, home), "asyncio" := AsyncioConfig(studyRoot, home)];
      && KeyedByName(entries)
      && SortedNames(entries) == ["asyncio", "dsa"]
      && Lookup(entries, "dsa").Success? && Lookup(entries, "dsa").value.strictMypy
      && Lookup(entries, "dsa").value.doctestStrategy == "deterministic"
      && Lookup(entries, "asyncio").Success? && Lookup(entries, "asyncio").value.strictMypy
      && Lookup(entries, "asyncio").value.doctestStrategy == "ellipsis"
  {
    var entries := map["dsa" := DsaConfig(studyRoot, home), "asyncio" := AsyncioConfig(studyRoot, home)];
    assert entries.Keys == {"asyncio", "dsa"};
    StrLtExamples();
    SortedPair(entries, "asyncio", "dsa");
  }

  /** A table with two names lists them in their order. */
  lemma SortedPair(entries: map<string, DomainConfig>, a: string, b: string)
    requires entries.Keys == {a, b} && StrLt(a, b)
    ensures SortedNames(entries) == [a, b]
  {
    StrLtIsStrictTotal();
    var listing := [a, b];
    assert StrictlySorted(StrLt, listing);
    SortedUnique(StrLt, listing, SortedSet(StrLt, entries.Keys));
  }

  /**
   * `validate_environment(config)`: fine when no project path is
   * configured; otherwise fine exactly when the path is a directory, and
   * the complaint says it was not found.
   */
  function ValidateEnvironment(config: DomainConfig, fs: FileSystem): (r: (bool, string))
    reads fs
    ensures r.0 <==> config.projectPath.None? || fs.IsDir(config.projectPath.value)
    ensures r.1 == "OK" <==> config.projectPath.Some? && fs.IsDir(config.projectPath.value)
    ensures !r.0 ==> Contains(r.1, "not found")
  {
    match config.projectPath
    case None => (true, "No project path configured; --out required.")
    case Some(p) =>
      if !fs.IsDir(p) then
        var msg := "Target project " + "not found" + (" at " + PathString(p) + ". Use --out to specify an explicit output path.");
        ContainsMiddle("Target project ", "not found", " at " + PathString(p) + ". Use --out to specify an explicit output path.");
        (false, msg)
      else (true, "OK")
  }

  lemma ContainsMiddle(a: string, b: string, c: string)
    ensures Contains(a + b + c, b)
  {
    assert (a + b + c)[|a|..][..|b|] == b;
  }

  /** `needle in haystack` */
  predicate Contains(haystack: string, needle: string) {
    exists i :: 0 <= i <= |haystack| && needle <= haystack[i..]
  }
}
