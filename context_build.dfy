/**
 * `build_context` of `context.py`: the scope name decides where the files come from (the
 * structure view, a dynamic `@` scope, or a static scope of the registry); the common tail
 * drops excluded extensions and formats what is left.
 */
module ContextBuild {
  import opened Wrappers
  import opened Strings
  import opened Sorting
  import opened Paths
  import opened Files
  import opened Discovery
  import opened ContextFormat
  import opened ScopeConfig
  import opened DynamicScopes
  import opened Structure
  import opened SourceTree

  /**
   * What the model takes from outside the file system: glob expansion, the output lines of the
   * git command a query runs (none when it fails), the files below the base most recently
   * modified first, URL fetching, `GIT_BASE_BRANCH`, the working directory and the patterns of
   * `LANGUAGE_PATTERNS`.
   */
  datatype Oracles = Oracles(
    glob: Glob,
    git: GitQuery -> seq<string>,
    byTime: seq<Path>,
    fetch: UrlFetcher,
    envBranch: Option<string>,
    cwd: Path,
    langs: seq<Language>)

  /** A call returns a context or `None`, or raises (`with_suffix` on the root, for `@related:`). */
  datatype Outcome = Returned(context: Option<ContextObject>) | RaisedValueError

  // ---------------------------------------------------------------- sources of files

  /** `[base_path / f for f in lines if f]` */
  function GitPaths(base: Path, lines: seq<string>): (r: seq<Path>)
    ensures |r| <= |lines|
    decreases |lines|
  {
    if lines == [] then []
    else if lines[0] == "" then GitPaths(base, lines[1..])
    else [Resolve(base, lines[0])] + GitPaths(base, lines[1..])
  }

  /** The paths are those of the non-empty lines, each below the base unless absolute. */
  lemma {:induction false} GitPathsMembers(base: Path, lines: seq<string>, p: Path)
    ensures p in GitPaths(base, lines) <==> exists j :: 0 <= j < |lines| && lines[j] != "" && p == Resolve(base, lines[j])
    decreases |lines|
  {
    if lines != [] {
      GitPathsMembers(base, lines[1..], p);
      assert forall j :: 0 < j < |lines| ==> lines[j] == lines[1..][j - 1];
      if exists j :: 0 <= j < |lines| && lines[j] != "" && p == Resolve(base, lines[j]) {
        var j :| 0 <= j < |lines| && lines[j] != "" && p == Resolve(base, lines[j]);
        if j > 0 {
          assert lines[1..][j - 1] == lines[j];
        }
      }
    }
  }

  const RecentCount := 5

  /** `sorted_files[:count]`: the five most recently modified files, or all of them when fewer. */
  function RecentFiles(byTime: seq<Path>): (r: seq<Path>)
    ensures |r| == if |byTime| < RecentCount then |byTime| else RecentCount
    ensures r == byTime[..|r|]
  {
    if |byTime| <= RecentCount then byTime else byTime[..RecentCount]
  }

  /** The files `find_files` returns: matched by an include and by no exclude, sorted. */
  ghost function FoundFiles(fs: FileSystem, glob: Glob, base: Path, includes: seq<string>, excludes: seq<string>): seq<Path> {
    SortSet(set p | p in fs.files && Matched(fs, glob, base, includes, p) && !Matched(fs, glob, base, excludes, p), true)
  }

  /** The sorted, duplicate-free list of the files `@related:` finds for an existing start. */
  ghost function RelatedSet(fs: FileSystem, base: Path, start: Path): set<Path> {
    {start} + Somes(SiblingCandidates(start)) + (set p | p in TestVariations(base, start) && fs.Exists(p))
  }

  /** The files a dynamic scope resolves to; `None` where the resolver raises. */
  ghost function DynamicFiles(fs: FileSystem, o: Oracles, base: Path, d: Dynamic): Option<seq<Path>> {
    match d
    case Traceback(text) => Some(SortSet(set p | p in TracebackCandidates(base, text) && fs.Exists(p), true))
    case Search(term) => Some(Filter(FoundFiles(fs, o.glob, base, ["**/*"], []), KeywordTest(fs, [term])))
    case Related(s) =>
      var start := Resolve(base, s);
      if !fs.Exists(start) then Some([])
      else if Name(start) == "" then None
      else Some(SortSet(RelatedSet(fs, base, start), true))
    case Dir(s) => Some(DirectoryFiles(fs, base, s))
    case Git(q) => Some(GitPaths(base, o.git(q)))
    case Recent => Some(RecentFiles(o.byTime))
  }

  lemma FoundFilesIs(fs: FileSystem, glob: Glob, base: Path, includes: seq<string>, excludes: seq<string>, r: seq<Path>)
    requires StrictlySorted(r, true)
    requires forall p :: p in r <==> Matched(fs, glob, base, includes, p) && !Matched(fs, glob, base, excludes, p)
    ensures r == FoundFiles(fs, glob, base, includes, excludes)
  {
    StrictlySortedUnique(r, FoundFiles(fs, glob, base, includes, excludes), true);
  }

  lemma RelatedIs(fs: FileSystem, base: Path, start: Path, r: seq<Path>)
    requires StrictlySorted(r, true)
    requires forall p :: p in r <==> (p == start || IsSibling(start, p) || (p in TestVariations(base, start) && fs.Exists(p)))
    ensures r == SortSet(RelatedSet(fs, base, start), true)
  {
    var present := set p | p in TestVariations(base, start) && fs.Exists(p);
    RelatedMembers(start, present, RelatedSet(fs, base, start));
    StrictlySortedUnique(r, SortSet(RelatedSet(fs, base, start), true), true);
  }

  lemma TracebackIs(fs: FileSystem, base: Path, text: string, r: seq<Path>)
    requires StrictlySorted(r, true)
    requires forall p :: p in r <==> fs.Exists(p) && p in TracebackCandidates(base, text)
    ensures r == SortSet(set p | p in TracebackCandidates(base, text) && fs.Exists(p), true)
  {
    StrictlySortedUnique(r, SortSet(set p | p in TracebackCandidates(base, text) && fs.Exists(p), true), true);
  }

  /** The `@` branch of `build_context` once the expression is recognised. */
  method ResolveDynamic(fs: FileSystem, o: Oracles, base: Path, d: Dynamic) returns (r: Option<seq<Path>>)
    ensures r == DynamicFiles(fs, o, base, d)
  {
    match d
    case Traceback(text) =>
      var files := TracebackFiles(fs, base, text);
      TracebackIs(fs, base, text, files);
      r := Some(files);
    case Search(term) =>
      var all := FindFiles(fs, o.glob, base, ["**/*"], None);
      FoundFilesIs(fs, o.glob, base, ["**/*"], [], all);
      var files := FilterByKeyword(fs, all, [term]);
      r := Some(files);
    case Related(s) =>
      r := RelatedFiles(fs, base, s);
      var start := Resolve(base, s);
      if r.Some? && fs.Exists(start) {
        RelatedIs(fs, base, start, r.value);
      }
    case Dir(s) =>
      r := Some(DirectoryFiles(fs, base, s));
    case Git(q) =>
      r := Some(GitPaths(base, o.git(q)));
    case Recent =>
      r := Some(RecentFiles(o.byTime));
  }

  // ---------------------------------------------------------------- static scopes

  /** The static scope's own directory: `Path(scope.get("path", ".")).resolve()`. */
  function ScopePath(o: Oracles, scope: Scope): Path {
    Resolve(o.cwd, TextSetting(scope, "path", "."))
  }

  /** A registry entry that is missing or empty (`if not scope`). */
  predicate NoScope(scopes: Scopes, name: string) {
    name !in scopes || scopes[name] == map[]
  }

  /** The files of a static scope: `find_files` in its own directory, then the keyword filter. */
  ghost function StaticFiles(fs: FileSystem, o: Oracles, scope: Scope): seq<Path> {
    var found := FoundFiles(fs, o.glob, ScopePath(o, scope), ListSetting(scope, "include_patterns"), ListSetting(scope, "exclude_patterns"));
    var words := ListSetting(scope, "search_words");
    if words != [] then Filter(found, KeywordTest(fs, words)) else found
  }

  method ResolveStatic(fs: FileSystem, o: Oracles, scope: Scope) returns (files: seq<Path>)
    ensures files == StaticFiles(fs, o, scope)
  {
    var base := ScopePath(o, scope);
    var includes := ListSetting(scope, "include_patterns");
    var excludes := ListSetting(scope, "exclude_patterns");
    var words := ListSetting(scope, "search_words");
    files := FindFiles(fs, o.glob, base, includes, Some(excludes));
    FoundFilesIs(fs, o.glob, base, includes, excludes, files);
    if words != [] {
      files := FilterByKeyword(fs, files, words);
    }
  }

  // ---------------------------------------------------------------- the common tail

  /**
   * The two emptiness checks around the extension filter: `None` exactly when no file passes
   * the filter and there are no URLs (so the first check never decides the outcome on its own);
   * otherwise the formatted context of the files that pass.
   */
  function Finished(fs: FileSystem, fetch: UrlFetcher, exts: seq<string>, files: seq<Path>, urls: seq<string>, base: Path)
    : (r: Option<ContextObject>)
    ensures r.None? <==> ExtensionFilter(files, exts) == [] && urls == []
    ensures r.Some? ==> r.value == ContextOf(fs, fetch, ExtensionFilter(files, exts), urls, base)
  {
    if files == [] && urls == [] then None
    else
      var kept := ExtensionFilter(files, exts);
      if kept == [] && urls == [] then None else Some(ContextOf(fs, fetch, kept, urls, base))
  }

  method FilterAndFormat(fs: FileSystem, fetch: UrlFetcher, exts: seq<string>, files: seq<Path>, urls: seq<string>, base: Path)
    returns (r: Option<ContextObject>)
    ensures r == Finished(fs, fetch, exts, files, urls, base)
  {
    if files == [] && urls == [] {
      return None;
    }
    var kept := ExtensionFilter(files, exts);
    if kept == [] && urls == [] {
      return None;
    }
    var c := FormatContext(fs, fetch, kept, urls, base);
    r := Some(c);
  }

  // ---------------------------------------------------------------- build_context

  /** What `build_context(name, scopes, base_path)` gives. */
  ghost function BuildSpec(fs: FileSystem, o: Oracles, scopes: Scopes, name: string, base: Path): Outcome {
    var exts := ExcludeExtensions(scopes, name);
    match Dispatch(name, o.envBranch)
    case StructureView => Returned(StructureObject(Outlines(fs, o.langs, base, SelectedFiles(fs, base, true))))
    case UnknownDynamic => Returned(None)
    case DynamicScope(d) =>
      (match DynamicFiles(fs, o, base, d)
       case None => RaisedValueError
       case Some(files) => Returned(Finished(fs, o.fetch, exts, files, [], base)))
    case StaticScope =>
      if NoScope(scopes, name) then Returned(None)
      else
        var scope := scopes[name];
        Returned(Finished(fs, o.fetch, exts, StaticFiles(fs, o, scope), ListSetting(scope, "urls"), ScopePath(o, scope)))
  }

  /** `build_context` in `context.py`. */
  method BuildContext(fs: FileSystem, o: Oracles, scopes: Scopes, name: string, base: Path) returns (r: Outcome)
    ensures r == BuildSpec(fs, o, scopes, name, base)
  {
    var exts := ExcludeExtensions(scopes, name);
    var kind := Dispatch(name, o.envBranch);
    match kind
    case StructureView =>
      var c := StructureContext(fs, o.langs, base, true);
      r := Returned(c);
    case UnknownDynamic =>
      r := Returned(None);
    case DynamicScope(d) =>
      var files := ResolveDynamic(fs, o, base, d);
      if files.None? {
        return RaisedValueError;
      }
      var c := FilterAndFormat(fs, o.fetch, exts, files.value, [], base);
      r := Returned(c);
    case StaticScope =>
      if NoScope(scopes, name) {
        return Returned(None);
      }
      var scope := scopes[name];
      var files := ResolveStatic(fs, o, scope);
      var c := FilterAndFormat(fs, o.fetch, exts, files, ListSetting(scope, "urls"), ScopePath(o, scope));
      r := Returned(c);
  }

  // ---------------------------------------------------------------- properties

  /** An `@` expression that names no dynamic scope yields `None`. */
  lemma UnknownDynamicNone(fs: FileSystem, o: Oracles, scopes: Scopes, name: string, base: Path)
    requires StartsWith(name, "@") && !StartsWith(name, "@git:branch") && SearchTerm(name).None?
    requires Argument(name, "@related:").None? && Argument(name, "@dir:").None?
    requires !(StartsWith(name, "@error:\"") && EndsWith(name, "\""))
    requires name !in ["@structure", "@git", "@git:staged", "@git:unstaged", "@git:lastcommit", "@git:conflicts", "@recent"]
    ensures BuildSpec(fs, o, scopes, name, base) == Returned(None)
  {
    UnknownDispatch(name, o.envBranch);
  }

  lemma UnknownDispatch(name: string, envBranch: Option<string>)
    requires StartsWith(name, "@") && !StartsWith(name, "@git:branch") && SearchTerm(name).None?
    requires Argument(name, "@related:").None? && Argument(name, "@dir:").None?
    requires !(StartsWith(name, "@error:\"") && EndsWith(name, "\""))
    requires name !in ["@structure", "@git", "@git:staged", "@git:unstaged", "@git:lastcommit", "@git:conflicts", "@recent"]
    ensures Dispatch(name, envBranch) == UnknownDynamic
  {
  }

  /** A static name missing from the registry, or naming an empty entry, yields `None`. */
  lemma UnknownStaticNone(fs: FileSystem, o: Oracles, scopes: Scopes, name: string, base: Path)
    requires !StartsWith(name, "@") && NoScope(scopes, name)
    ensures BuildSpec(fs, o, scopes, name, base) == Returned(None)
  {
    assert Dispatch(name, o.envBranch) == StaticScope;
  }

  /**
   * A static scope works in its own directory: `base_path` is rebound, so the argument makes no
   * difference to the outcome.
   */
  lemma StaticIgnoresBase(fs: FileSystem, o: Oracles, scopes: Scopes, name: string, b1: Path, b2: Path)
    requires !StartsWith(name, "@")
    ensures BuildSpec(fs, o, scopes, name, b1) == BuildSpec(fs, o, scopes, name, b2)
  {
    assert Dispatch(name, o.envBranch) == StaticScope;
  }

  /** Only `@related:` on the root directory raises. */
  lemma RaisesOnlyForRoot(fs: FileSystem, o: Oracles, scopes: Scopes, name: string, base: Path)
    ensures BuildSpec(fs, o, scopes, name, base) == RaisedValueError <==>
      (Dispatch(name, o.envBranch).DynamicScope? && Dispatch(name, o.envBranch).dynamic.Related? &&
       var start := Resolve(base, Dispatch(name, o.envBranch).dynamic.path);
       fs.Exists(start) && Name(start) == "")
  {
  }

  /**
   * Whatever the source of the files, a built context shows only files that pass the scope's
   * extension filter, and it is built only when some file passes or some URL is given.
   */
  lemma BuiltFromFiltered(fs: FileSystem, fetch: UrlFetcher, exts: seq<string>, files: seq<Path>, urls: seq<string>, base: Path)
    requires Finished(fs, fetch, exts, files, urls, base).Some?
    ensures var kept := ExtensionFilter(files, exts);
      (kept != [] || urls != []) &&
      (forall k, e :: 0 <= k < |kept| && 0 <= e < |exts| ==> Lower(PathSuffix(kept[k])) != Lower(exts[e])) &&
      Finished(fs, fetch, exts, files, urls, base).value.tree == SourceTreeText(base, kept)
  {
  }

  /** With the default extension list, a ".log" file never reaches the context. */
  lemma DynamicDropsLog(fs: FileSystem, fetch: UrlFetcher, scopes: Scopes, name: string, p: Path, base: Path)
    requires name !in scopes || "exclude_extensions" !in scopes[name]
    requires PathSuffix(p) == ".LOG"
    ensures Finished(fs, fetch, ExcludeExtensions(scopes, name), [p], [], base).None?
  {
    DefaultDropsLog(scopes, name, p);
  }
}
