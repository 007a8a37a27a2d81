/**
 * The dynamic scopes of `context.py`: how an `@` expression is recognised, and the three
 * resolvers that work on the file system itself (tracebacks, directories, related files).
 * Git and modification-time scopes come from outside as lists of paths.
 */
module DynamicScopes {
  import opened Wrappers
  import opened Strings
  import opened Sorting
  import opened Paths
  import opened Files

  /** The git command a git scope runs. */
  datatype GitQuery = Staged | Unstaged | LastCommit | Conflicts | BranchDiff(baseBranch: string)

  datatype Dynamic =
    | Traceback(text: string)   // @error:"..."
    | Search(term: string)      // @search:"..."
    | Related(path: string)     // @related:...
    | Dir(path: string)         // @dir:...
    | Git(query: GitQuery)      // @git, @git:staged, ..., @git:branch[:...]
    | Recent                    // @recent

  datatype ScopeKind = StructureView | DynamicScope(dynamic: Dynamic) | UnknownDynamic | StaticScope

  /** What `(.+)` captures from index `i`: the rest of the line (`.` does not match "\n"). */
  function RestOfLine(s: string, i: nat): (r: string)
    requires i <= |s|
    ensures StartsWith(s[i..], r) && '\n' !in r
    ensures i + |r| == |s| || s[i + |r|] == '\n'
    decreases |s| - i
  {
    if i == |s| || s[i] == '\n' then ""
    else
      var rest := RestOfLine(s, i + 1);
      assert s[i..][..1 + |rest|] == [s[i]] + s[i + 1..][..|rest|];
      [s[i]] + rest
  }

  /** `re.match(r'@search:"([^"]+)"', s).group(1)` */
  function SearchTerm(s: string): (r: Option<string>)
    ensures r.Some? ==> r.value != "" && '"' !in r.value && StartsWith(s, "@search:\"" + r.value + "\"")
  {
    if !StartsWith(s, "@search:\"") then None
    else match Find(s, "\"", 9)
      case None => None
      case Some(q) =>
        if q == 9 then None
        else
          FindIsFirst(s, "\"", 9);
          var t := s[9..q];
          assert '"' !in t by {
            forall k | 0 <= k < |t| ensures t[k] != '"' {
              assert !OccursAt(s, "\"", 9 + k);
              assert s[9 + k..9 + k + 1] == [t[k]];
            }
          }
          assert s[..9] == "@search:\"" && s[q..q + 1] == "\"";
          assert s[..|"@search:\"" + t + "\""|] == s[..9] + s[9..q] + s[q..q + 1];
          Some(t)
  }

  /** The group of `@related:(.+)` or `@dir:(.+)` after a prefix of length `n`, when it matches. */
  function Argument(s: string, prefix: string): Option<string> {
    if StartsWith(s, prefix) && RestOfLine(s, |prefix|) != "" then Some(RestOfLine(s, |prefix|)) else None
  }

  /** The branch of `@git:branch(?::(.+))?`, falling back to `GIT_BASE_BRANCH` and then "main". */
  function BaseBranch(s: string, envBranch: Option<string>): string
    requires StartsWith(s, "@git:branch")
  {
    if |s| > 12 && s[11] == ':' && RestOfLine(s, 12) != "" then RestOfLine(s, 12) else envBranch.GetOr("main")
  }

  /** The tests `build_context` in `context.py` applies to a scope name, in its order. */
  function Dispatch(s: string, envBranch: Option<string>): (r: ScopeKind)
    ensures r == StructureView <==> s == "@structure"
    ensures r == StaticScope <==> !StartsWith(s, "@")
    ensures r.DynamicScope? && r.dynamic.Search? ==> StartsWith(s, "@search:\"" + r.dynamic.term + "\"")
    ensures r.DynamicScope? && r.dynamic.Traceback? ==> StartsWith(s, "@error:\"") && EndsWith(s, "\"")
    ensures r == UnknownDynamic ==>
      (StartsWith(s, "@") && !StartsWith(s, "@git:branch") && SearchTerm(s).None? &&
       s !in ["@structure", "@git", "@git:staged", "@git:unstaged", "@git:lastcommit", "@git:conflicts", "@recent"])
  {
    if s == "@structure" then StructureView
    else if !StartsWith(s, "@") then StaticScope
    else if StartsWith(s, "@error:\"") && EndsWith(s, "\"") then
      DynamicScope(Traceback(if |s| >= 9 then s[8..|s| - 1] else ""))
    else if SearchTerm(s).Some? then DynamicScope(Search(SearchTerm(s).value))
    else if Argument(s, "@related:").Some? then DynamicScope(Related(Strip(Argument(s, "@related:").value)))
    else if Argument(s, "@dir:").Some? then DynamicScope(Dir(Strip(Argument(s, "@dir:").value)))
    else if StartsWith(s, "@git:branch") then DynamicScope(Git(BranchDiff(BaseBranch(s, envBranch))))
    else if s == "@git" || s == "@git:staged" then DynamicScope(Git(Staged))
    else if s == "@git:unstaged" then DynamicScope(Git(Unstaged))
    else if s == "@git:lastcommit" then DynamicScope(Git(LastCommit))
    else if s == "@git:conflicts" then DynamicScope(Git(Conflicts))
    else if s == "@recent" then DynamicScope(Recent)
    else UnknownDynamic
  }

  // ---------------------------------------------------------------- tracebacks

  const FileMarker := "File \""

  /** Where `File "([^"]+)"` ends when it matches at the start of `s`: the closing quote. */
  function QuoteEnd(s: string): (r: Option<nat>)
    ensures r.Some? ==> StartsWith(s, FileMarker) && 6 < r.value < |s| && s[r.value] == '"'
    ensures r.Some? ==> forall k :: 6 <= k < r.value ==> s[k] != '"'
  {
    if !StartsWith(s, FileMarker) then None
    else match Find(s, "\"", 6)
      case None => None
      case Some(q) =>
        if q == 6 then None
        else
          FindIsFirst(s, "\"", 6);
          assert s[q..q + 1] == [s[q]];
          forall k | 6 <= k < q ensures s[k] != '"' {
            assert !OccursAt(s, "\"", k);
            assert s[k..k + 1] == [s[k]];
          }
          Some(q)
  }

  /** `re.findall(r'File "([^"]+)"', s)`: every quoted file name, left to right. */
  function TracebackMatches(s: string): (r: seq<string>)
    ensures forall k :: 0 <= k < |r| ==> r[k] != "" && '"' !in r[k]
    decreases |s|
  {
    if s == [] then []
    else match QuoteEnd(s)
      case Some(q) =>
        assert forall k :: 0 <= k < q - 6 ==> s[6..q][k] == s[6 + k];
        [s[6..q]] + TracebackMatches(s[q + 1..])
      case None => TracebackMatches(s[1..])
  }

  /** One line of a Python traceback naming file `p`. */
  function Frame(p: string): string {
    "  File \"" + p + "\", line 1\n"
  }

  function Frames(ps: seq<string>): string {
    if ps == [] then "" else Frame(ps[0]) + Frames(ps[1..])
  }

  /** Text without a capital 'F' holds no match and hides none of what follows it. */
  lemma {:induction false} SkipText(t: string, rest: string)
    requires 'F' !in t
    ensures TracebackMatches(t + rest) == TracebackMatches(rest)
    decreases |t|
  {
    if t == [] {
      assert t + rest == rest;
    } else {
      assert t[0] in t;
      assert !StartsWith(t + rest, FileMarker) by {
        if |t + rest| >= 6 {
          assert (t + rest)[..6][0] == t[0];
        }
      }
      assert QuoteEnd(t + rest).None?;
      assert TracebackMatches(t + rest) == TracebackMatches((t + rest)[1..]);
      assert (t + rest)[1..] == t[1..] + rest;
      SkipText(t[1..], rest);
    }
  }

  /** A quoted name yields itself and the scan goes on right after the closing quote. */
  lemma QuotedMatch(p: string, rest: string)
    requires p != "" && '"' !in p
    ensures TracebackMatches(FileMarker + p + "\"" + rest) == [p] + TracebackMatches(rest)
  {
    var s := FileMarker + p + "\"" + rest;
    var q := 6 + |p|;
    assert s[..6] == FileMarker;
    assert s[6..q] == p;
    assert s[q] == '"';
    assert s[q + 1..] == rest;
    assert OccursAt(s, "\"", q) by { assert s[q..q + 1] == [s[q]]; }
    forall k | 6 <= k < q ensures !OccursAt(s, "\"", k) {
      assert s[k] == p[k - 6];
      assert s[k..k + 1] == [s[k]];
    }
    FindFirst(s, "\"", 6, q);
    assert QuoteEnd(s) == Some(q);
  }

  /** A frame yields its file name and the scan goes on with the next line. */
  lemma FrameMatch(p: string, rest: string)
    requires p != "" && '"' !in p
    ensures TracebackMatches(Frame(p) + rest) == [p] + TracebackMatches(rest)
  {
    var tail := ", line 1\n";
    assert Frame(p) + rest == "  " + (FileMarker + p + "\"" + (tail + rest));
    SkipText("  ", FileMarker + p + "\"" + (tail + rest));
    QuotedMatch(p, tail + rest);
    SkipText(tail, rest);
  }

  /** The extractor reads back every file a traceback names, in order. */
  lemma {:induction false} FramesMatch(ps: seq<string>)
    requires forall k :: 0 <= k < |ps| ==> ps[k] != "" && '"' !in ps[k]
    ensures TracebackMatches(Frames(ps)) == ps
    decreases |ps|
  {
    if ps != [] {
      FrameMatch(ps[0], Frames(ps[1..]));
      FramesMatch(ps[1..]);
    }
  }

  /** `Path(m)` when absolute, otherwise `(base_path / m).resolve()`. */
  function TracebackPath(base: Path, m: string): Path {
    if IsAbsolute(m) then FromParts(Components(m)) else Resolve(base, m)
  }

  /** The path each extracted name stands for, in the order of the traceback. */
  function TracebackCandidates(base: Path, text: string): (r: seq<Path>)
    ensures forall m :: m in TracebackMatches(text) ==> TracebackPath(base, m) in r
    ensures forall k :: 0 <= k < |r| ==> exists m :: m in TracebackMatches(text) && r[k] == TracebackPath(base, m)
  {
    var ms := TracebackMatches(text);
    var r := seq(|ms|, k requires 0 <= k < |ms| => TracebackPath(base, ms[k]));
    assert forall k :: 0 <= k < |ms| ==> r[k] == TracebackPath(base, ms[k]);
    r
  }

  /**
   * `_resolve_error_traceback_files(text, base_path)`: the named files, absolute ones as written
   * and relative ones resolved against the base, that exist, each once, sorted.
   */
  method TracebackFiles(fs: FileSystem, base: Path, text: string) returns (r: seq<Path>)
    ensures StrictlySorted(r, true)
    ensures forall p :: p in r <==> fs.Exists(p) && p in TracebackCandidates(base, text)
  {
    var cands := TracebackCandidates(base, text);
    r := ExistingSorted(fs, cands);
  }

  /** The loop that adds each candidate to a set, then the sorted list of those that exist. */
  method ExistingSorted(fs: FileSystem, cands: seq<Path>) returns (r: seq<Path>)
    ensures StrictlySorted(r, true)
    ensures forall p :: p in r <==> fs.Exists(p) && p in cands
  {
    var files: set<Path> := {};
    for i := 0 to |cands|
      invariant files == set p | p in cands[..i]
    {
      assert cands[..i + 1] == cands[..i] + [cands[i]];
      files := files + {cands[i]};
    }
    assert cands[..|cands|] == cands;
    assert files == set p | p in cands;
    var existing := set f | f in files && fs.Exists(f);
    r := SortSet(existing, true);
  }

  // ---------------------------------------------------------------- directories

  /** `_resolve_directory_files(s, base_path)`: the files directly inside the directory, sorted. */
  function DirectoryFiles(fs: FileSystem, base: Path, s: string): (r: seq<Path>)
    ensures StrictlySorted(r, true)
    ensures forall p :: p in r <==> Resolve(base, s) in fs.dirs && p in fs.files && Parent(p) == Resolve(base, s)
  {
    var d := Resolve(base, s);
    if d !in fs.dirs then [] else SortSet(set p | p in fs.files && Parent(p) == d, true)
  }

  // ---------------------------------------------------------------- related files

  const SiblingExts: seq<string> := [".css", ".js", ".html", ".scss", ".py", ".md"]

  /** The three places a test for `start` may live. */
  function TestVariations(base: Path, start: Path): seq<Path> {
    var testName := "test_" + Stem(Name(start)) + PathSuffix(start);
    [ Child(Parent(start), testName),
      Child(Child(base, "tests"), testName),
      Child(Child(Child(Parent(Parent(start)), "tests"), Name(Parent(start))), testName) ]
  }

  /** A sibling candidate: `start` with another extension of the list. */
  predicate IsSibling(start: Path, p: Path) {
    exists k :: 0 <= k < |SiblingExts| && SiblingExts[k] != PathSuffix(start) && WithSuffix(start, SiblingExts[k]) == Some(p)
  }

  /** What each extension of the list gives for `start`: a sibling, or nothing for its own suffix. */
  function SiblingCandidates(start: Path): seq<Option<Path>> {
    seq(|SiblingExts|, k requires 0 <= k < |SiblingExts| =>
      if SiblingExts[k] != PathSuffix(start) then WithSuffix(start, SiblingExts[k]) else None)
  }

  /** The values present among `xs`. */
  function Somes(xs: seq<Option<Path>>): set<Path>
    decreases |xs|
  {
    if xs == [] then {}
    else
      var last := xs[|xs| - 1];
      Somes(xs[..|xs| - 1]) + (if last.Some? then {last.value} else {})
  }

  lemma {:induction false} SomesAre(xs: seq<Option<Path>>, p: Path)
    ensures p in Somes(xs) <==> exists j :: 0 <= j < |xs| && xs[j] == Some(p)
    decreases |xs|
  {
    if xs != [] {
      var init := xs[..|xs| - 1];
      SomesAre(init, p);
      assert forall j :: 0 <= j < |init| ==> init[j] == xs[j];
      if exists j :: 0 <= j < |xs| && xs[j] == Some(p) {
        var j :| 0 <= j < |xs| && xs[j] == Some(p);
        if j < |init| {
          assert init[j] == Some(p);
        }
      }
    }
  }

  lemma CandidateAt(start: Path, k: nat)
    requires k < |SiblingExts|
    ensures SiblingCandidates(start)[k] ==
      if SiblingExts[k] != PathSuffix(start) then WithSuffix(start, SiblingExts[k]) else None
  {
  }

  lemma SomesGrow(xs: seq<Option<Path>>, k: nat, start: Path, related: set<Path>)
    requires k < |xs| && related == {start} + Somes(xs[..k])
    ensures xs[k].Some? ==> related + {xs[k].value} == {start} + Somes(xs[..k + 1])
    ensures xs[k].None? ==> related == {start} + Somes(xs[..k + 1])
  {
    assert xs[..k + 1][..k] == xs[..k];
  }

  /** The set `RelatedFrom` sorts, member by member. */
  lemma RelatedMembers(start: Path, present: set<Path>, related: set<Path>)
    requires related == {start} + Somes(SiblingCandidates(start)) + present
    ensures forall p :: p in related <==> (p == start || IsSibling(start, p) || p in present)
  {
    var xs := SiblingCandidates(start);
    forall p ensures p in Somes(xs) <==> IsSibling(start, p) {
      SomesAre(xs, p);
      if IsSibling(start, p) {
        var k :| 0 <= k < |SiblingExts| && SiblingExts[k] != PathSuffix(start) && WithSuffix(start, SiblingExts[k]) == Some(p);
        assert xs[k] == Some(p);
      }
    }
  }

  /**
   * The loop of `find_related_files` over the extension list: `start` and its siblings, or `None`
   * where `with_suffix` raises because `start` is the root.
   */
  method CollectSiblings(start: Path) returns (r: Option<set<Path>>)
    ensures r.None? <==> Name(start) == ""
    ensures r.Some? ==> r.value == {start} + Somes(SiblingCandidates(start))
  {
    var related := {start};
    var suffix := PathSuffix(start);
    ghost var xs := SiblingCandidates(start);
    assert Name(start) == "" ==> suffix == "";
    for k := 0 to |SiblingExts|
      invariant Name(start) == "" ==> k == 0 && suffix == ""
      invariant related == {start} + Somes(xs[..k])
    {
      SomesGrow(xs, k, start, related);
      CandidateAt(start, k);
      if SiblingExts[k] != suffix {
        var w := WithSuffix(start, SiblingExts[k]);
        if w.None? {
          return None;
        }
        related := related + {w.value};
      }
    }
    assert xs[..|SiblingExts|] == xs;
    r := Some(related);
  }

  /** The files related to an existing `start`; `None` when `start` is the root. */
  method RelatedFrom(start: Path, present: set<Path>) returns (r: Option<seq<Path>>)
    ensures r.None? <==> Name(start) == ""
    ensures r.Some? ==> StrictlySorted(r.value, true)
    ensures r.Some? ==> forall p :: p in r.value <==> (p == start || IsSibling(start, p) || p in present)
  {
    var siblings := CollectSiblings(start);
    if siblings.None? {
      return None;
    }
    var related := siblings.value + present;
    RelatedMembers(start, present, related);
    r := Some(SortSet(related, true));
  }

  /** `[p for p in candidates if p.exists()]`, as a set. */
  method Present(fs: FileSystem, candidates: seq<Path>) returns (present: set<Path>)
    ensures present == set p | p in candidates && fs.Exists(p)
  {
    present := {};
    for k := 0 to |candidates|
      invariant present == set p | p in candidates[..k] && fs.Exists(p)
    {
      if fs.Exists(candidates[k]) {
        present := present + {candidates[k]};
      }
      assert candidates[..k + 1] == candidates[..k] + [candidates[k]];
    }
    assert candidates[..|candidates|] == candidates;
  }

  /**
   * `_resolve_related_files(s, base_path)`: nothing when the start file does not exist; otherwise
   * the start, its sibling-extension names whether they exist or not, and the test files that
   * exist. `None` is the `ValueError` `with_suffix` raises when the start is the root directory.
   */
  method RelatedFiles(fs: FileSystem, base: Path, s: string) returns (r: Option<seq<Path>>)
    ensures var start := Resolve(base, s);
      && (!fs.Exists(start) ==> r == Some([]))
      && (r.None? <==> fs.Exists(start) && Name(start) == "")
      && (r.Some? ==> StrictlySorted(r.value, true))
      && (r.Some? && fs.Exists(start) ==> forall p :: p in r.value <==>
           (p == start || IsSibling(start, p) || (p in TestVariations(base, start) && fs.Exists(p))))
  {
    var start := Resolve(base, s);
    if !fs.Exists(start) {
      return Some([]);
    }
    var present := Present(fs, TestVariations(base, start));
    r := RelatedFrom(start, present);
  }
}
