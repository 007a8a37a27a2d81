/**
 * `build_context` and `build_context_from_files` of `scopes/builder.py`. Unlike the version in
 * `context.py`, a static scope's patterns may name dynamic scopes (`@...`) beside globs; globs
 * are expanded in the scope's own directory, dynamic references and the output against the
 * `base_path` argument.
 */
module Builder {
  import opened Wrappers
  import opened Strings
  import opened Sorting
  import opened Paths
  import opened Files
  import opened Discovery
  import opened ContextFormat
  import opened ScopeConfig
  import opened ContextBuild
  import opened SourceTree

  /**
   * What the builder takes from modules outside this model: glob expansion,
   * `resolvers.resolve_dynamic_scope(name, base)`, `structure._build_structure_context(base)`,
   * URL fetching and the working directory.
   */
  datatype BuilderOracles = BuilderOracles(
    glob: Glob,
    resolve: (string, Path) -> seq<Path>,
    structure: Path -> Option<ContextObject>,
    fetch: UrlFetcher,
    cwd: Path)

  // ---------------------------------------------------------------- pattern partition

  predicate IsReference(pattern: string) {
    StartsWith(pattern, "@")
  }

  function ReferenceTest(): string -> bool {
    p => IsReference(p)
  }

  function GlobTest(): string -> bool {
    p => !IsReference(p)
  }

  /** `[p for p in patterns if not p.startswith('@')]` */
  function Globs(patterns: seq<string>): seq<string> {
    Filter(patterns, GlobTest())
  }

  /** `[p for p in patterns if p.startswith('@')]` */
  function References(patterns: seq<string>): seq<string> {
    Filter(patterns, ReferenceTest())
  }

  /** `a` is `b` with some elements left out, the rest in their order. */
  predicate Subsequence<T(==)>(a: seq<T>, b: seq<T>)
    decreases |b|
  {
    if a == [] then true
    else if b == [] then false
    else if a[0] == b[0] then Subsequence(a[1..], b[1..])
    else Subsequence(a, b[1..])
  }

  lemma {:induction false} FilterIsSubsequence<T>(s: seq<T>, f: T -> bool)
    ensures Subsequence(Filter(s, f), s)
    decreases |s|
  {
    if s != [] {
      FilterIsSubsequence(s[1..], f);
      if f(s[0]) {
        assert ([s[0]] + Filter(s[1..], f))[1..] == Filter(s[1..], f);
      }
    }
  }

  lemma {:induction false} FilterSplitsCount(s: seq<string>)
    ensures |Globs(s)| + |References(s)| == |s|
    decreases |s|
  {
    if s != [] {
      FilterSplitsCount(s[1..]);
    }
  }

  /**
   * The two buckets keep the patterns' order, share no pattern, and together hold every
   * pattern exactly as often as the list does.
   */
  lemma Partition(patterns: seq<string>)
    ensures Subsequence(Globs(patterns), patterns) && Subsequence(References(patterns), patterns)
    ensures forall x :: x in Globs(patterns) ==> x !in References(patterns)
    ensures forall x :: x in patterns <==> x in Globs(patterns) || x in References(patterns)
    ensures |Globs(patterns)| + |References(patterns)| == |patterns|
  {
    FilterIsSubsequence(patterns, GlobTest());
    FilterIsSubsequence(patterns, ReferenceTest());
    FilterSplitsCount(patterns);
    forall x | x in patterns ensures x in Globs(patterns) || x in References(patterns) {
      var k :| 0 <= k < |patterns| && patterns[k] == x;
      if IsReference(x) {
        assert ReferenceTest()(patterns[k]);
      } else {
        assert GlobTest()(patterns[k]);
      }
    }
  }

  // ---------------------------------------------------------------- union minus excludes

  /** The files the references resolve to, all together. */
  function Resolved(o: BuilderOracles, refs: seq<string>, base: Path): set<Path>
    decreases |refs|
  {
    if refs == [] then {}
    else
      var last := o.resolve(refs[|refs| - 1], base);
      Resolved(o, refs[..|refs| - 1], base) + (set p | p in last)
  }

  lemma {:induction false} ResolvedMembers(o: BuilderOracles, refs: seq<string>, base: Path, p: Path)
    ensures p in Resolved(o, refs, base) <==> exists k :: 0 <= k < |refs| && p in o.resolve(refs[k], base)
    decreases |refs|
  {
    if refs != [] {
      var init := refs[..|refs| - 1];
      ResolvedMembers(o, init, base, p);
      assert forall k :: 0 <= k < |init| ==> init[k] == refs[k];
      if exists k :: 0 <= k < |refs| && p in o.resolve(refs[k], base) {
        var k :| 0 <= k < |refs| && p in o.resolve(refs[k], base);
        if k < |init| {
          assert init[k] == refs[k];
        }
      }
    }
  }

  /** The files the globs match in `dir`, or none without globs. */
  ghost function Globbed(fs: FileSystem, o: BuilderOracles, globs: seq<string>, dir: Path): set<Path> {
    if globs == [] then {} else set p | p in fs.files && Matched(fs, o.glob, dir, globs, p)
  }

  /** Step 1 or 3: `set(find_files(scope_path, globs))` when there are globs. */
  method GlobFiles(fs: FileSystem, o: BuilderOracles, globs: seq<string>, dir: Path) returns (files: set<Path>)
    ensures files == Globbed(fs, o, globs, dir)
  {
    if globs == [] {
      return {};
    }
    var found := FindFiles(fs, o.glob, dir, globs, None);
    files := set p | p in found;
    assert files == Globbed(fs, o, globs, dir);
  }

  /** Step 2 or 4: the loop adding what each reference resolves to. */
  method AddResolved(o: BuilderOracles, refs: seq<string>, base: Path, start: set<Path>) returns (files: set<Path>)
    ensures files == start + Resolved(o, refs, base)
  {
    files := start;
    for k := 0 to |refs|
      invariant files == start + Resolved(o, refs[..k], base)
    {
      assert refs[..k + 1][..k] == refs[..k];
      var found := o.resolve(refs[k], base);
      files := files + (set p | p in found);
    }
    assert refs[..|refs|] == refs;
  }

  /** The side of the difference one pattern list gives. */
  ghost function Side(fs: FileSystem, o: BuilderOracles, patterns: seq<string>, dir: Path, base: Path): set<Path> {
    Globbed(fs, o, Globs(patterns), dir) + Resolved(o, References(patterns), base)
  }

  /** `sorted(list(included_files - excluded_files))` */
  ghost function Candidates(fs: FileSystem, o: BuilderOracles, includes: seq<string>, excludes: seq<string>, dir: Path, base: Path)
    : seq<Path>
  {
    SortSet(Side(fs, o, includes, dir, base) - Side(fs, o, excludes, dir, base), true)
  }

  /** A side holds the files a glob of it matches in `dir` and those a reference of it resolves to against `base`. */
  lemma SideMembers(fs: FileSystem, o: BuilderOracles, patterns: seq<string>, dir: Path, base: Path, p: Path)
    ensures p in Side(fs, o, patterns, dir, base) <==>
      Matched(fs, o.glob, dir, Globs(patterns), p) ||
      exists k :: 0 <= k < |References(patterns)| && p in o.resolve(References(patterns)[k], base)
  {
    ResolvedMembers(o, References(patterns), base, p);
  }

  /**
   * Sorted, each once, and the union of the includes minus the union of the excludes: globs
   * match in the scope's directory, references resolve against `base_path`.
   */
  lemma CandidatesAre(fs: FileSystem, o: BuilderOracles, includes: seq<string>, excludes: seq<string>, dir: Path, base: Path, p: Path)
    ensures StrictlySorted(Candidates(fs, o, includes, excludes, dir, base), true)
    ensures p in Candidates(fs, o, includes, excludes, dir, base) <==>
      (Matched(fs, o.glob, dir, Globs(includes), p) ||
       exists k :: 0 <= k < |References(includes)| && p in o.resolve(References(includes)[k], base)) &&
      !(Matched(fs, o.glob, dir, Globs(excludes), p) ||
        exists k :: 0 <= k < |References(excludes)| && p in o.resolve(References(excludes)[k], base))
  {
    SideMembers(fs, o, includes, dir, base, p);
    SideMembers(fs, o, excludes, dir, base, p);
  }

  /** Without references, the files do not depend on `base_path`: only the scope's directory counts. */
  lemma GlobsOnlyUseScopePath(fs: FileSystem, o: BuilderOracles, includes: seq<string>, excludes: seq<string>, dir: Path, b1: Path, b2: Path)
    requires References(includes) == [] && References(excludes) == []
    ensures Candidates(fs, o, includes, excludes, dir, b1) == Candidates(fs, o, includes, excludes, dir, b2)
  {
  }

  /** Without globs, the files do not depend on the scope's directory: references resolve against `base_path`. */
  lemma ReferencesOnlyUseBase(fs: FileSystem, o: BuilderOracles, includes: seq<string>, excludes: seq<string>, d1: Path, d2: Path, base: Path)
    requires Globs(includes) == [] && Globs(excludes) == []
    ensures Candidates(fs, o, includes, excludes, d1, base) == Candidates(fs, o, includes, excludes, d2, base)
  {
  }

  /** The candidates of a static scope, then the keyword filter. */
  ghost function ScopeFiles(fs: FileSystem, o: BuilderOracles, scope: Scope, base: Path): seq<Path> {
    var dir := Resolve(o.cwd, TextSetting(scope, "path", "."));
    var files := Candidates(fs, o, ListSetting(scope, "include_patterns"), ListSetting(scope, "exclude_patterns"), dir, base);
    var words := ListSetting(scope, "search_words");
    if words != [] then Filter(files, KeywordTest(fs, words)) else files
  }

  method ResolveScope(fs: FileSystem, o: BuilderOracles, scope: Scope, base: Path) returns (files: seq<Path>)
    ensures files == ScopeFiles(fs, o, scope, base)
  {
    var dir := Resolve(o.cwd, TextSetting(scope, "path", "."));
    var includes := ListSetting(scope, "include_patterns");
    var excludes := ListSetting(scope, "exclude_patterns");
    var words := ListSetting(scope, "search_words");
    var included := GlobFiles(fs, o, Globs(includes), dir);
    included := AddResolved(o, References(includes), base, included);
    var excluded := GlobFiles(fs, o, Globs(excludes), dir);
    excluded := AddResolved(o, References(excludes), base, excluded);
    files := SortSet(included - excluded, true);
    if words != [] {
      files := FilterByKeyword(fs, files, words);
    }
  }

  // ---------------------------------------------------------------- build_context

  /** The result dictionary with its "files" entry: the files of the context. */
  function WithFiles(c: Option<ContextObject>, files: seq<Path>): (r: Option<ContextObject>)
    ensures r.Some? <==> c.Some?
    ensures r.Some? ==> r.value.tree == c.value.tree && r.value.context == c.value.context && r.value.files == Some(files)
  {
    match c
    case None => None
    case Some(x) => Some(x.(files := Some(files)))
  }

  /** What `build_context(name, scopes, base_path)` of the builder gives. */
  ghost function BuildSpec(fs: FileSystem, o: BuilderOracles, scopes: Scopes, name: string, base: Path): Option<ContextObject> {
    var exts := ExcludeExtensions(scopes, name);
    if name == "@structure" then o.structure(base)
    else if StartsWith(name, "@") then
      var files := o.resolve(name, base);
      WithFiles(Finished(fs, o.fetch, exts, files, [], base), ExtensionFilter(files, exts))
    else if NoScope(scopes, name) then None
    else
      var scope := scopes[name];
      var files := ScopeFiles(fs, o, scope, base);
      WithFiles(Finished(fs, o.fetch, exts, files, ListSetting(scope, "urls"), base), ExtensionFilter(files, exts))
  }

  /** `build_context` in `scopes/builder.py`. */
  method BuildContext(fs: FileSystem, o: BuilderOracles, scopes: Scopes, name: string, base: Path) returns (r: Option<ContextObject>)
    ensures r == BuildSpec(fs, o, scopes, name, base)
  {
    if name == "@structure" {
      return o.structure(base);
    }
    var exts := ExcludeExtensions(scopes, name);
    var files: seq<Path>;
    var urls: seq<string> := [];
    if StartsWith(name, "@") {
      files := o.resolve(name, base);
    } else {
      if NoScope(scopes, name) {
        return None;
      }
      var scope := scopes[name];
      files := ResolveScope(fs, o, scope, base);
      urls := ListSetting(scope, "urls");
    }
    var c := FilterAndFormat(fs, o.fetch, exts, files, urls, base);
    r := WithFiles(c, ExtensionFilter(files, exts));
  }

  /** What `build_context_from_files(file_paths, base_path)` gives: nothing for an empty list. */
  function FromFiles(fs: FileSystem, fetch: UrlFetcher, paths: seq<Path>, base: Path): (r: Option<ContextObject>)
    ensures r.None? <==> paths == []
    ensures r.Some? ==> r.value.files == Some(paths) && r.value.tree == SourceTreeText(base, paths)
  {
    if paths == [] then None else Some(ContextOf(fs, fetch, paths, [], base).(files := Some(paths)))
  }

  /** `build_context_from_files(file_paths, base_path)`. */
  method BuildContextFromFiles(fs: FileSystem, fetch: UrlFetcher, paths: seq<Path>, base: Path) returns (r: Option<ContextObject>)
    ensures r == FromFiles(fs, fetch, paths, base)
  {
    if paths == [] {
      return None;
    }
    var c := FormatContext(fs, fetch, paths, [], base);
    r := Some(c.(files := Some(paths)));
  }

  // ---------------------------------------------------------------- properties

  /** "@structure" is handed to the structure view before anything else. */
  lemma StructureFirst(fs: FileSystem, o: BuilderOracles, scopes: Scopes, base: Path)
    ensures BuildSpec(fs, o, scopes, "@structure", base) == o.structure(base)
  {
  }

  /** A static name missing from the registry, or naming an empty entry, yields `None`. */
  lemma UnknownStaticNone(fs: FileSystem, o: BuilderOracles, scopes: Scopes, name: string, base: Path)
    requires !StartsWith(name, "@") && NoScope(scopes, name)
    ensures BuildSpec(fs, o, scopes, name, base) == None
  {
    assert name != "@structure";
  }

  /**
   * A context that is built lists as its files exactly those that passed the extension filter,
   * none of them with an excluded suffix, and its tree is drawn from `base_path`.
   */
  lemma BuiltFiles(fs: FileSystem, o: BuilderOracles, scopes: Scopes, name: string, base: Path)
    requires name != "@structure" && BuildSpec(fs, o, scopes, name, base).Some?
    ensures var r := BuildSpec(fs, o, scopes, name, base).value;
      var exts := ExcludeExtensions(scopes, name);
      r.files.Some? && r.tree == SourceTreeText(base, r.files.value) &&
      forall k, e :: 0 <= k < |r.files.value| && 0 <= e < |exts| ==> Lower(PathSuffix(r.files.value[k])) != Lower(exts[e])
  {
  }
}
