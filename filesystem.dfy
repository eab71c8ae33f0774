/**
 * The filesystem the lesson generator reads and writes, as an abstract
 * tree: a path is the list of its components below the root, and the
 * filesystem object holds the text of every file and the set of
 * directories.  `pathlib` joining and `Path.resolve()` are modelled
 * lexically (no symbolic links, no current directory).
 */
module FileSystem {
  import opened Wrappers
  import opened Text
  import opened Order

  /** One path component: any string without a separator. */
  type Name = s: string | '/' !in s

  /** An absolute path as its components below `/`; `[]` is the root. */
  type Path = seq<Name>

  /** The order `sorted()` gives `pathlib` paths: component lists compared lexicographically. */
  predicate PathLt(a: Path, b: Path) {
    LexLt<string>(StrLt, a, b)
  }

  lemma PathLtIsStrictTotal()
    ensures StrictTotalOrder(PathLt)
  {
    StrLtIsStrictTotal();
    forall a: Path ensures !PathLt(a, a) {
      LexIrreflexive<string>(StrLt, a);
    }
    forall a: Path, b: Path, c: Path | PathLt(a, b) && PathLt(b, c) ensures PathLt(a, c) {
      LexTransitive<string>(StrLt, a, b, c);
    }
    forall a: Path, b: Path | a != b ensures PathLt(a, b) || PathLt(b, a) {
      LexTotal<string>(StrLt, a, b);
    }
  }

  /** `s.split("/")` */
  function SplitSlash(s: string): (parts: seq<Name>)
    ensures |parts| >= 1
  {
    if s == [] then [[]]
    else
      var tail := SplitSlash(s[1..]);
      if s[0] == '/' then [[]] + tail else [[s[0]] + tail[0]] + tail[1..]
  }

  /** The parts `pathlib` keeps of a relative path string: empty and `.` components are dropped. */
  function Parts(s: string): (parts: Path)
    ensures forall k :: 0 <= k < |parts| ==> parts[k] != "" && parts[k] != "."
  {
    Keep(SplitSlash(s))
  }

  function Keep(cs: seq<Name>): (parts: Path)
    ensures forall k :: 0 <= k < |parts| ==> parts[k] != "" && parts[k] != "."
  {
    if cs == [] then []
    else if cs[0] == "" || cs[0] == "." then Keep(cs[1..])
    else [cs[0]] + Keep(cs[1..])
  }

  /** `base / name`: a name starting with `/` replaces the base, as in `pathlib`. */
  function JoinPath(base: Path, name: string): Path {
    if |name| > 0 && name[0] == '/' then Parts(name) else base + Parts(name)
  }

  /** A path whose components are real names: none empty, `.` or `..`. */
  predicate Normal(p: Path) {
    forall k :: 0 <= k < |p| ==> p[k] != "" && p[k] != "." && p[k] != ".."
  }

  lemma NormalSuffix(p: Path, k: nat)
    requires Normal(p) && k <= |p|
    ensures Normal(p[k..])
  {
    forall i | 0 <= i < |p| - k ensures p[k..][i] == p[k + i] {
    }
  }

  /** `Path.resolve()` without links: `..` climbs one level (not above the root), empty and `.` components vanish. */
  function Resolve(p: Path): (r: Path) {
    ResolveFrom([], p)
  }

  function ResolveFrom(acc: Path, rest: Path): (r: Path)
    decreases |rest|
  {
    if rest == [] then acc
    else if rest[0] == "" || rest[0] == "." then ResolveFrom(acc, rest[1..])
    else if rest[0] == ".." then ResolveFrom(if acc == [] then [] else acc[..|acc| - 1], rest[1..])
    else ResolveFrom(acc + [rest[0]], rest[1..])
  }

  lemma {:induction false} ResolveFromNormal(acc: Path, rest: Path)
    requires Normal(acc)
    ensures Normal(ResolveFrom(acc, rest))
    decreases |rest|
  {
    if rest != [] {
      if rest[0] == "" || rest[0] == "." {
        ResolveFromNormal(acc, rest[1..]);
      } else if rest[0] == ".." {
        ResolveFromNormal(if acc == [] then [] else acc[..|acc| - 1], rest[1..]);
      } else {
        ResolveFromNormal(acc + [rest[0]], rest[1..]);
      }
    }
  }

  lemma {:induction false} ResolveFromOfNormal(acc: Path, rest: Path)
    requires Normal(rest)
    ensures ResolveFrom(acc, rest) == acc + rest
    decreases |rest|
  {
    if rest != [] {
      ResolveFromOfNormal(acc + [rest[0]], rest[1..]);
      assert acc + [rest[0]] + rest[1..] == acc + rest;
    }
  }

  /** Resolving yields a normal path, and a normal path resolves to itself. */
  lemma ResolveSpec(p: Path)
    ensures Normal(Resolve(p))
    ensures Normal(p) ==> Resolve(p) == p
  {
    ResolveFromNormal([], p);
    if Normal(p) {
      ResolveFromOfNormal([], p);
    }
  }

  /** `str(path)` for an absolute path. */
  function PathString(p: Path): string {
    "/" + Join("/", p)
  }

  /** `PurePosixPath(s).name`: the last kept component, or empty. */
  function Basename(s: string): Name {
    var ps := Parts(s);
    if ps == [] then "" else ps[|ps| - 1]
  }

  lemma {:induction false} SplitSlashName(a: Name)
    ensures SplitSlash(a) == [a]
  {
    if a != [] {
      SplitSlashName(a[1..]);
      assert [a[0]] + a[1..] == a;
    }
  }

  lemma {:induction false} SplitSlashConcat(a: Name, rest: string)
    ensures SplitSlash(a + "/" + rest) == [a] + SplitSlash(rest)
  {
    var s := a + "/" + rest;
    if a == [] {
      assert s == "/" + rest && s[1..] == rest;
    } else {
      assert s[1..] == a[1..] + "/" + rest;
      SplitSlashConcat(a[1..], rest);
      assert [a[0]] + a[1..] == a;
    }
  }

  lemma {:induction false} SplitJoin(q: Path)
    requires q != []
    ensures SplitSlash(Join("/", q)) == q
  {
    if |q| == 1 {
      SplitSlashName(q[0]);
    } else {
      SplitSlashConcat(q[0], Join("/", q[1..]));
      SplitJoin(q[1..]);
    }
  }

  lemma {:induction false} KeepNormal(q: Path)
    requires Normal(q)
    ensures Keep(q) == q
  {
    if q != [] {
      KeepNormal(q[1..]);
    }
  }

  /** `str(PurePosixPath(*q))` splits back into `q`, so its name is the last component. */
  lemma PartsOfJoin(q: Path)
    requires Normal(q)
    ensures Parts(Join("/", q)) == q
    ensures q != [] ==> Basename(Join("/", q)) == q[|q| - 1]
  {
    if q == [] {
      assert SplitSlash(Join("/", q)) == [[]];
    } else {
      SplitJoin(q);
      KeepNormal(q);
      assert Parts(Join("/", q)) == q;
    }
  }

  /** A well-formed tree: the root is a directory, nothing is both a file and a directory, every entry's parent is a directory. */
  ghost predicate WellFormed(files: map<Path, string>, dirs: set<Path>) {
    && [] in dirs
    && (forall p :: p in files ==> p !in dirs && p != [] && Normal(p) && p[..|p| - 1] in dirs)
    && (forall p :: p in dirs && p != [] ==> Normal(p) && p[..|p| - 1] in dirs)
  }

  lemma {:induction false} AncestorsAreDirs(files: map<Path, string>, dirs: set<Path>, p: Path, i: nat)
    requires WellFormed(files, dirs) && (p in files || p in dirs) && i < |p|
    ensures p[..i] in dirs
    decreases |p| - i
  {
    var parent := p[..|p| - 1];
    assert parent in dirs;
    if i < |parent| {
      AncestorsAreDirs(files, dirs, parent, i);
      assert parent[..i] == p[..i];
    }
  }

  class FileSystem {
    var files: map<Path, string>
    var dirs: set<Path>

    ghost predicate Valid()
      reads this
    {
      WellFormed(files, dirs)
    }

    constructor (files0: map<Path, string>, dirs0: set<Path>)
      requires WellFormed(files0, dirs0)
      ensures Valid() && files == files0 && dirs == dirs0
    {
      files, dirs := files0, dirs0;
    }

    /** `path.is_dir()` */
    predicate IsDir(p: Path)
      reads this
    {
      Resolve(p) in dirs
    }

    /** `path.is_file()` */
    predicate IsFile(p: Path)
      reads this
    {
      Resolve(p) in files
    }

    /** `path.read_text()` of an existing file. */
    function ReadText(p: Path): string
      requires IsFile(p)
      reads this
    {
      files[Resolve(p)]
    }

    /**
     * `write_lesson(path, content, force=force)`: refuses an existing path
     * unless forced, creates the missing parent directories
     * (`mkdir(parents=True, exist_ok=True)`), then writes the file.  The
     * errors `mkdir` and `write_text` raise are returned as `Failure`.
     */
    method WriteLesson(path: Path, content: string, force: bool) returns (r: Result<(), Exception>)
      requires Valid() && Normal(path)
      modifies this
      ensures Valid()
      ensures (path in old(files) || path in old(dirs)) && !force ==>
                r == Failure(FileExistsError("File already exists: " + PathString(path) + ". Use --force to overwrite."))
      ensures r.Failure? ==> files == old(files) && dirs == old(dirs)
      ensures r.Failure? && r.error.FileExistsError? <==>
                ((path in old(files) || path in old(dirs)) && !force) || (path != [] && path[..|path| - 1] in old(files))
      ensures r.Success? <==> path !in old(dirs) && (force || path !in old(files)) && NoFileAncestor(old(files), path)
      ensures r.Success? ==> files == old(files)[path := content]
      ensures r.Success? ==> dirs == old(dirs) + Ancestors(path)
    {
      var refusal := WriteRefusal(files, dirs, path, force);
      if refusal.Some? {
        return Failure(refusal.value);
      }
      AddAncestorsKeepsWellFormed(files, dirs, path, content);
      dirs := dirs + Ancestors(path);
      files := files[path := content];
      r := Success(());
    }
  }

  /**
   * The error `write_lesson` raises before it changes anything: the
   * existing-path refusal, then what `mkdir(parents=True, exist_ok=True)`
   * and `write_text` raise for a path whose parent is a file, whose
   * ancestors hold a file, or that is itself a directory.
   */
  function WriteRefusal(files: map<Path, string>, dirs: set<Path>, path: Path, force: bool): (e: Option<Exception>)
    requires WellFormed(files, dirs) && Normal(path)
    ensures (path in files || path in dirs) && !force ==>
              e == Some(FileExistsError("File already exists: " + PathString(path) + ". Use --force to overwrite."))
    ensures e.Some? && e.value.FileExistsError? <==>
              ((path in files || path in dirs) && !force) || (path != [] && path[..|path| - 1] in files)
    ensures e.None? <==> path !in dirs && (force || path !in files) && NoFileAncestor(files, path)
  {
    if (path in files || path in dirs) && !force then
      Some(FileExistsError("File already exists: " + PathString(path) + ". Use --force to overwrite."))
    else if path == [] then
      Some(IsADirectoryError("[Errno 21] Is a directory: '" + PathString(path) + "'"))
    else
      var parent := path[..|path| - 1];
      NoFileAncestorOfChild(files, path);
      if parent in files then
        Some(FileExistsError("[Errno 17] File exists: '" + PathString(parent) + "'"))
      else if !NoFileAncestor(files, parent) then
        Some(NotADirectoryError("[Errno 20] Not a directory: '" + PathString(parent) + "'"))
      else if path in dirs then
        Some(IsADirectoryError("[Errno 21] Is a directory: '" + PathString(path) + "'"))
      else
        None
  }

  /** The proper prefixes of `p`: the directories that must exist for `p` to be written. */
  function Ancestors(p: Path): set<Path> {
    set i | 0 <= i < |p| :: p[..i]
  }

  predicate NoFileAncestor(files: map<Path, string>, p: Path) {
    forall i :: 0 <= i < |p| ==> p[..i] !in files
  }

  /** A path has no file above it exactly when its parent is no file and has none above it. */
  lemma NoFileAncestorOfChild(files: map<Path, string>, path: Path)
    requires path != []
    ensures NoFileAncestor(files, path) <==> NoFileAncestor(files, path[..|path| - 1]) && path[..|path| - 1] !in files
  {
    var parent := path[..|path| - 1];
    forall i | 0 <= i < |parent| ensures path[..i] == parent[..i] { }
    assert path[..|parent|] == parent;
  }

  lemma AddAncestorsKeepsWellFormed(files: map<Path, string>, dirs: set<Path>, path: Path, content: string)
    requires WellFormed(files, dirs) && Normal(path) && path != [] && path !in dirs
    requires NoFileAncestor(files, path)
    ensures WellFormed(files[path := content], dirs + Ancestors(path))
  {
    var d := dirs + Ancestors(path);
    var f := files[path := content];
    assert path[..|path| - 1] in Ancestors(path);
    forall p | p in d && p != [] ensures Normal(p) && p[..|p| - 1] in d {
      if p in Ancestors(path) {
        var i :| 0 <= i < |path| && p == path[..i];
        assert p[..|p| - 1] == path[..i - 1];
      }
    }
    forall p | p in f ensures p !in d {
      if p != path {
        assert p in files;
      }
    }
  }
}
