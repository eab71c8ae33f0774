/**
 * The filesystem side of the lesson tools: choosing the template, listing
 * the lessons already in a directory, and numbering the next one.
 * Writing a lesson is `FileSystem.WriteLesson`; running the checkers is
 * module `Validation`.
 */
module Tools {
  import opened Wrappers
  import opened Text
  import opened Order
  import opened FileSystem
  import opened Models
  import opened Naming

  // ----- read_template -----

  /** The project's own template file, when the configuration names both a project and a (non-empty) template path. */
  function TemplateFile(config: DomainConfig): (f: Option<Path>)
    ensures f.Some? <==> config.projectPath.Some? && config.templatePath.Some? && config.templatePath.value != ""
  {
    if config.projectPath.Some? && config.templatePath.Some? && config.templatePath.value != "" then
      Some(JoinPath(config.projectPath.value, config.templatePath.value))
    else None
  }

  /**
   * `read_template(config)`: the project's template when it names one and
   * that file exists, otherwise the built-in template for the domain's
   * teaching style.
   */
  function ReadTemplate(fs: FileSystem, config: DomainConfig, builtin: PedagogyStyle -> string): (t: string)
    reads fs
    ensures TemplateFile(config).Some? && fs.IsFile(TemplateFile(config).value) ==> t == fs.ReadText(TemplateFile(config).value)
    ensures TemplateFile(config).None? || !fs.IsFile(TemplateFile(config).value) ==> t == builtin(config.pedagogy)
  {
    match TemplateFile(config)
    case Some(f) => if fs.IsFile(f) then fs.ReadText(f) else builtin(config.pedagogy)
    case None => builtin(config.pedagogy)
  }

  // ----- list_existing_lessons -----

  /** The directory to scan: the override if given, else the project's lesson directory, else none. */
  function LessonDirFor(config: DomainConfig, targetDir: Option<Path>): (d: Option<Path>)
    ensures targetDir.Some? ==> d == targetDir
    ensures targetDir.None? && config.projectPath.Some? ==> d == Some(JoinPath(config.projectPath.value, config.lessonDir))
    ensures targetDir.None? && config.projectPath.None? ==> d.None?
  {
    if targetDir.Some? then targetDir
    else if config.projectPath.Some? then Some(JoinPath(config.projectPath.value, config.lessonDir))
    else None
  }

  predicate IsPyName(name: string) {
    |name| >= 3 && name[|name| - 3..] == ".py"
  }

  /** A scanned entry whose name starts with `__` is skipped. */
  predicate Hidden(q: Path)
    requires q != []
  {
    "__" <= q[|q| - 1]
  }

  /** `base.rglob("*.py")`: every file or directory strictly below `base` whose name ends in `.py`, relative to `base`. */
  function PyEntries(files: map<Path, string>, dirs: set<Path>, base: Path): (r: set<Path>)
    ensures forall q :: q in r ==> q != [] && IsPyName(q[|q| - 1]) && (base + q in files || base + q in dirs)
  {
    assert forall p: Path :: base < p ==> base + p[|base|..] == p;
    set p | p in files.Keys + dirs && base < p && IsPyName(p[|p| - 1]) :: p[|base|..]
  }

  /** The entries that are not hidden, in the order given. */
  function Visible(ps: seq<Path>): (r: seq<Path>)
    requires forall i :: 0 <= i < |ps| ==> ps[i] != []
    ensures forall i :: 0 <= i < |r| ==> r[i] != [] && r[i] in ps && !Hidden(r[i])
  {
    if ps == [] then []
    else
      var last := ps[|ps| - 1];
      Visible(ps[..|ps| - 1]) + (if Hidden(last) then [] else [last])
  }

  /** `str(p.relative_to(lesson_dir))` for each entry. */
  function Render(ps: seq<Path>): (r: seq<string>)
    ensures |r| == |ps| && forall i :: 0 <= i < |ps| ==> r[i] == Join("/", ps[i])
  {
    seq(|ps|, i requires 0 <= i < |ps| => Join("/", ps[i]))
  }

  /** What `list_existing_lessons` returns for the directory `dir` (none: no directory configured). */
  ghost function Listing(files: map<Path, string>, dirs: set<Path>, dir: Option<Path>): seq<string> {
    if dir.None? || Resolve(dir.value) !in dirs then []
    else
      PathLtIsStrictTotal();
      Render(Visible(SortedSet(PathLt, PyEntries(files, dirs, Resolve(dir.value)))))
  }

  /** `list_existing_lessons(config, target_dir=targetDir)` */
  method ListExistingLessons(fs: FileSystem, config: DomainConfig, targetDir: Option<Path>) returns (lessons: seq<string>)
    ensures lessons == Listing(fs.files, fs.dirs, LessonDirFor(config, targetDir))
  {
    var dir := LessonDirFor(config, targetDir);
    if dir.None? || !fs.IsDir(dir.value) {
      return [];
    }
    var base := Resolve(dir.value);
    PathLtIsStrictTotal();
    var scan := Sort(PathLt, PyEntries(fs.files, fs.dirs, base));
    lessons := RenderVisible(scan);
  }

  /** The loop of `list_existing_lessons`: skip hidden entries, render the rest in order. */
  method RenderVisible(scan: seq<Path>) returns (lessons: seq<string>)
    requires forall k :: 0 <= k < |scan| ==> scan[k] != []
    ensures lessons == Render(Visible(scan))
  {
    lessons := [];
    for i := 0 to |scan|
      invariant lessons == Render(Visible(scan[..i]))
    {
      var p := scan[i];
      VisibleStep(scan, i);
      if !Hidden(p) {
        lessons := lessons + [Join("/", p)];
      }
    }
    assert scan[..|scan|] == scan;
  }

  /** One more scanned entry adds its rendering, unless it is hidden. */
  lemma VisibleStep(ps: seq<Path>, i: nat)
    requires i < |ps| && forall k :: 0 <= k < |ps| ==> ps[k] != []
    ensures Render(Visible(ps[..i + 1])) == Render(Visible(ps[..i])) + (if Hidden(ps[i]) then [] else [Join("/", ps[i])])
  {
    assert ps[..i + 1][..i] == ps[..i];
    var v := Visible(ps[..i]);
    var w := if Hidden(ps[i]) then [] else [ps[i]];
    assert Visible(ps[..i + 1]) == v + w;
    RenderConcat(v, w);
  }

  lemma RenderConcat(a: seq<Path>, b: seq<Path>)
    ensures Render(a + b) == Render(a) + Render(b)
  {
  }

  lemma {:induction false} VisibleSorted(ps: seq<Path>)
    requires forall i :: 0 <= i < |ps| ==> ps[i] != []
    requires StrictTotalOrder(PathLt) && StrictlySorted(PathLt, ps)
    ensures StrictlySorted(PathLt, Visible(ps))
    ensures forall q :: q in Visible(ps) <==> q in ps && !Hidden(q)
  {
    if ps != [] {
      var init := ps[..|ps| - 1];
      var last := ps[|ps| - 1];
      VisibleSorted(init);
      forall q | q in init ensures PathLt(q, last) {
        var j :| 0 <= j < |init| && init[j] == q;
      }
    }
  }

  /**
   * The listing is the scan of a real directory, sorted as `sorted()`
   * sorts paths, with every entry whose name starts with `__` left out;
   * each entry's base name ends in `.py` and does not start with `__`.
   * A missing or unset directory lists nothing.
   */
  lemma ListingSpec(files: map<Path, string>, dirs: set<Path>, dir: Option<Path>)
    requires WellFormed(files, dirs)
    ensures dir.None? || Resolve(dir.value) !in dirs ==> Listing(files, dirs, dir) == []
    ensures dir.Some? && Resolve(dir.value) in dirs ==>
      exists kept: seq<Path> ::
        && StrictlySorted(PathLt, kept)
        && (forall q :: q in kept <==> q in PyEntries(files, dirs, Resolve(dir.value)) && !Hidden(q))
        && Listing(files, dirs, dir) == Render(kept)
    ensures forall i :: 0 <= i < |Listing(files, dirs, dir)| ==>
      var name := Basename(Listing(files, dirs, dir)[i]); IsPyName(name) && !("__" <= name)
  {
    if dir.Some? && Resolve(dir.value) in dirs {
      var kept := ListingKept(files, dirs, dir);
      ListingNames(files, dirs, dir, kept);
    }
  }

  /** The entries a listing renders: sorted, and exactly the visible scanned ones. */
  lemma ListingKept(files: map<Path, string>, dirs: set<Path>, dir: Option<Path>) returns (kept: seq<Path>)
    requires dir.Some? && Resolve(dir.value) in dirs
    ensures StrictlySorted(PathLt, kept)
    ensures forall q :: q in kept <==> q in PyEntries(files, dirs, Resolve(dir.value)) && !Hidden(q)
    ensures Listing(files, dirs, dir) == Render(kept)
  {
    PathLtIsStrictTotal();
    kept := VisibleOfSet(PyEntries(files, dirs, Resolve(dir.value)));
  }

  /** The visible entries of a set, in sorted order. */
  lemma VisibleOfSet(entries: set<Path>) returns (kept: seq<Path>)
    requires StrictTotalOrder(PathLt) && forall q :: q in entries ==> q != []
    ensures forall i :: 0 <= i < |SortedSet(PathLt, entries)| ==> SortedSet(PathLt, entries)[i] != []
    ensures kept == Visible(SortedSet(PathLt, entries))
    ensures StrictlySorted(PathLt, kept)
    ensures forall q :: q in kept <==> q in entries && !Hidden(q)
  {
    var sorted := SortedSet(PathLt, entries);
    assert forall i :: 0 <= i < |sorted| ==> sorted[i] in entries;
    kept := Visible(sorted);
    VisibleSorted(sorted);
  }

  lemma ListingNames(files: map<Path, string>, dirs: set<Path>, dir: Option<Path>, kept: seq<Path>)
    requires WellFormed(files, dirs) && dir.Some?
    requires forall q :: q in kept ==> q in PyEntries(files, dirs, Resolve(dir.value)) && !Hidden(q)
    requires Listing(files, dirs, dir) == Render(kept)
    ensures forall i :: 0 <= i < |Listing(files, dirs, dir)| ==>
      var name := Basename(Listing(files, dirs, dir)[i]); IsPyName(name) && !("__" <= name)
  {
    var r := Render(kept);
    forall i | 0 <= i < |r| ensures IsPyName(Basename(r[i])) && !("__" <= Basename(r[i])) {
      EntryName(files, dirs, Resolve(dir.value), kept[i]);
    }
  }

  /** A listed entry renders to a string whose base name is the entry's own last component. */
  lemma EntryName(files: map<Path, string>, dirs: set<Path>, base: Path, q: Path)
    requires WellFormed(files, dirs) && q in PyEntries(files, dirs, base) && !Hidden(q)
    ensures IsPyName(Basename(Join("/", q))) && !("__" <= Basename(Join("/", q)))
  {
    var p :| p in files.Keys + dirs && base < p && IsPyName(p[|p| - 1]) && q == p[|base|..];
    NormalSuffix(p, |base|);
    PartsOfJoin(q);
  }

  // ----- next_lesson_number -----

  /** The number the pattern `^(\d+)` reads at the start of the entry's base name, if any. */
  function LeadingNumber(entry: string): (n: Option<nat>)
    ensures n.Some? <==> LeadingDigits(Basename(entry)) != []
  {
    var d := LeadingDigits(Basename(entry));
    if d == [] then None else Some(DecimalValue(d))
  }

  /** The leading number of each entry, in order. */
  function Numbers(entries: seq<string>): (ns: seq<Option<nat>>)
    ensures |ns| == |entries| && forall i :: 0 <= i < |entries| ==> ns[i] == LeadingNumber(entries[i])
  {
    seq(|entries|, i requires 0 <= i < |entries| => LeadingNumber(entries[i]))
  }

  /** The largest of the numbers present, or 0 when there is none. */
  function MaxOf(ns: seq<Option<nat>>): nat {
    if ns == [] then 0
    else
      var m := MaxOf(ns[..|ns| - 1]);
      match ns[|ns| - 1]
      case Some(n) => if n > m then n else m
      case None => m
  }

  /** The number `next_lesson_number` gives after the listed entries. */
  function NextNumber(entries: seq<string>): int {
    MaxOf(Numbers(entries)) + 1
  }

  lemma {:induction false} MaxOfSpec(ns: seq<Option<nat>>)
    ensures forall i :: 0 <= i < |ns| && ns[i].Some? ==> ns[i].value <= MaxOf(ns)
    ensures MaxOf(ns) == 0 || exists i :: 0 <= i < |ns| && ns[i] == Some(MaxOf(ns))
  {
    if ns != [] {
      var init := ns[..|ns| - 1];
      MaxOfSpec(init);
      assert forall i :: 0 <= i < |init| ==> init[i] == ns[i];
      if MaxOf(ns) != MaxOf(init) {
        assert ns[|ns| - 1] == Some(MaxOf(ns));
      } else if MaxOf(init) != 0 {
        var i :| 0 <= i < |init| && init[i] == Some(MaxOf(init));
        assert ns[i] == Some(MaxOf(ns));
      }
    }
  }

  /**
   * The next number is at least 1 and above every leading number; it is
   * 1 when no entry has a leading number, and otherwise one past the
   * largest of them.
   */
  lemma NextNumberSpec(entries: seq<string>)
    ensures NextNumber(entries) >= 1
    ensures forall i :: 0 <= i < |entries| && LeadingNumber(entries[i]).Some? ==> LeadingNumber(entries[i]).value < NextNumber(entries)
    ensures (forall i :: 0 <= i < |entries| ==> LeadingNumber(entries[i]).None?) ==> NextNumber(entries) == 1
    ensures NextNumber(entries) == 1 || exists i :: 0 <= i < |entries| && LeadingNumber(entries[i]) == Some(NextNumber(entries) - 1)
  {
    var ns := Numbers(entries);
    MaxOfSpec(ns);
    assert NextNumber(entries) == MaxOf(ns) + 1;
    forall i | 0 <= i < |entries| && LeadingNumber(entries[i]).Some?
      ensures LeadingNumber(entries[i]).value < NextNumber(entries)
    {
      assert ns[i] == LeadingNumber(entries[i]);
    }
    if MaxOf(ns) != 0 {
      var i :| 0 <= i < |ns| && ns[i] == Some(MaxOf(ns));
      assert ns[i] == LeadingNumber(entries[i]);
    }
  }

  /** A generated file name's leading number is the lesson number it was made from. */
  lemma GeneratedNumber(number: nat, topic: string)
    ensures LeadingNumber(LessonFileName(number, topic)) == Some(number)
  {
    var f := LessonFileName(number, topic);
    FileNameIsComponent(number, topic);
    FileNameNumber(number, topic);
    NameOfPlain(f);
    assert Basename(f) == f;
  }

  /** Once a generated lesson file is listed, the next number is past its number. */
  lemma NumberingAdvances(entries: seq<string>, number: nat, topic: string)
    requires LessonFileName(number, topic) in entries
    ensures NextNumber(entries) > number
  {
    GeneratedNumber(number, topic);
    NextNumberSpec(entries);
    var i :| 0 <= i < |entries| && entries[i] == LessonFileName(number, topic);
  }

  /** `["001_a.py", "005_b.py"]` gives 6; a directory without lessons gives 1. */
  lemma NextNumberExamples()
    ensures NextNumber(["001_a.py", "005_b.py"]) == 6
    ensures NextNumber([]) == 1
  {
    ExampleLeadingNumbers();
    NextNumberOfPair("001_a.py", "005_b.py", 1, 5);
    assert Numbers([]) == [];
  }

  lemma ExampleLeadingNumbers()
    ensures LeadingNumber("001_a.py") == Some(1) && LeadingNumber("005_b.py") == Some(5)
  {
    FirstExample();
    SecondExample();
  }

  lemma FirstExample()
    ensures LeadingNumber("001_a.py") == Some(1)
  {
    DecimalExamples();
    ExampleLeadingNumber("001_a.py", "001", "_a.py");
  }

  lemma SecondExample()
    ensures LeadingNumber("005_b.py") == Some(5)
  {
    DecimalExamples();
    ExampleLeadingNumber("005_b.py", "005", "_b.py");
  }

  lemma ExampleLeadingNumber(f: string, digits: string, rest: string)
    requires f == digits + rest && |digits| == 3 && AllDigits(digits) && rest != [] && rest[0] == '_' && '/' !in rest
    ensures LeadingNumber(f) == Some(DecimalValue(digits))
  {
    assert f[0] == digits[0];
    LeadingNumberOf(f, digits, rest);
  }

  lemma NextNumberOfPair(a: string, b: string, m: nat, n: nat)
    requires LeadingNumber(a) == Some(m) && LeadingNumber(b) == Some(n) && m <= n
    ensures NextNumber([a, b]) == n + 1
  {
    var ns: seq<Option<nat>> := Numbers([a, b]);
    assert ns == [Some(m), Some(n)];
    assert ns[..1] == [Some(m)] && |ns[..1][..0]| == 0;
    assert MaxOf(ns[..1]) == m;
  }

  lemma DecimalExamples()
    ensures DecimalValue("001") == 1 && DecimalValue("005") == 5
  {
    assert "001"[..2] == "00" && "00"[..1] == "0" && "0"[..0] == [];
    assert "005"[..2] == "00";
  }

  /** A plain file name's leading number is read from its digit prefix. */
  lemma LeadingNumberOf(f: Name, digits: string, rest: string)
    requires f != "" && f != "." && f != ".."
    requires f == digits + rest && digits != [] && AllDigits(digits) && rest != [] && !IsDigit(rest[0])
    ensures LeadingNumber(f) == Some(DecimalValue(digits))
  {
    NameOfPlain(f);
    LeadingDigitsOfConcat(digits, rest);
  }

  lemma NameOfPlain(f: Name)
    requires f != "" && f != "." && f != ".."
    ensures Basename(f) == f
  {
    PartsOfJoin([f]);
    assert Join("/", [f]) == f;
  }

  /** `next_lesson_number(config, target_dir=targetDir)` */
  method NextLessonNumber(fs: FileSystem, config: DomainConfig, targetDir: Option<Path>) returns (n: int)
    ensures n == NextNumber(Listing(fs.files, fs.dirs, LessonDirFor(config, targetDir)))
  {
    var entries := ListExistingLessons(fs, config, targetDir);
    var maxNum := MaxLeadingNumber(entries);
    n := maxNum + 1;
  }

  /** The loop of `next_lesson_number`: the largest leading number among the entries, 0 when none has one. */
  method MaxLeadingNumber(entries: seq<string>) returns (maxNum: nat)
    ensures maxNum == MaxOf(Numbers(entries))
  {
    ghost var ns := Numbers(entries);
    maxNum := 0;
    for i := 0 to |entries|
      invariant maxNum == MaxOf(ns[..i])
    {
      var basename := Basename(entries[i]);
      var digits := LeadingDigits(basename);
      assert ns[i] == LeadingNumber(entries[i]);
      if digits != [] {
        var v := DecimalValue(digits);
        if v > maxNum {
          maxNum := v;
        }
      }
      assert ns[..i + 1][..i] == ns[..i];
    }
    assert ns[..|entries|] == ns;
  }
}
