/**
 * File discovery in `context.py`: `find_files` (glob include patterns minus glob exclude
 * patterns, sorted) and `filter_files_by_keyword`.
 */
module Discovery {
  import opened Wrappers
  import opened Strings
  import opened Sorting
  import opened Paths
  import opened Files

  /**
   * `[Path(m).resolve() for m in glob.glob(pattern, recursive=True)]`: the paths the file system
   * gives for a pattern, in its order.
   */
  type Glob = string -> seq<Path>

  /** `p` is a file some pattern's glob reports (after `Path(match).resolve()`). */
  ghost predicate Matched(fs: FileSystem, glob: Glob, base: Path, patterns: seq<string>, p: Path) {
    fs.IsFile(p) &&
    exists k :: 0 <= k < |patterns| && p in glob(JoinPattern(base, patterns[k]))
  }

  /** `_get_files_from_patterns`: the set of files matched by any of the patterns. */
  method FilesFromPatterns(fs: FileSystem, glob: Glob, base: Path, patterns: seq<string>) returns (files: set<Path>)
    ensures forall p :: p in files <==> Matched(fs, glob, base, patterns, p)
  {
    files := {};
    for k := 0 to |patterns|
      invariant forall p :: p in files <==> Matched(fs, glob, base, patterns[..k], p)
    {
      var matches := glob(JoinPattern(base, patterns[k]));
      ghost var before := files;
      for j := 0 to |matches|
        invariant forall p :: p in files <==>
          p in before || (fs.IsFile(p) && p in matches[..j])
      {
        var p := matches[j];
        if fs.IsFile(p) {
          files := files + {p};
        }
      }
      assert matches[..|matches|] == matches;
      PatternStep(fs, glob, base, patterns, k, before, files);
    }
    assert patterns[..|patterns|] == patterns;
  }

  lemma PatternStep(fs: FileSystem, glob: Glob, base: Path, patterns: seq<string>, k: nat, before: set<Path>, files: set<Path>)
    requires k < |patterns|
    requires forall p :: p in before <==> Matched(fs, glob, base, patterns[..k], p)
    requires forall p :: p in files <==> p in before || (fs.IsFile(p) && p in glob(JoinPattern(base, patterns[k])))
    ensures forall p :: p in files <==> Matched(fs, glob, base, patterns[..k + 1], p)
  {
    forall p ensures p in files <==> Matched(fs, glob, base, patterns[..k + 1], p) {
      assert patterns[..k + 1][k] == patterns[k];
      if Matched(fs, glob, base, patterns[..k + 1], p) {
        var k' :| 0 <= k' < k + 1 && p in glob(JoinPattern(base, patterns[..k + 1][k']));
        if k' < k {
          assert patterns[..k + 1][k'] == patterns[..k][k'];
          assert Matched(fs, glob, base, patterns[..k], p);
        }
      }
      if p in before {
        var k' :| 0 <= k' < k && p in glob(JoinPattern(base, patterns[..k][k']));
        assert patterns[..k + 1][k'] == patterns[..k][k'];
      }
    }
  }

  /**
   * `find_files(base_path, include_patterns, exclude_patterns)`: the files some include
   * pattern matches and no exclude pattern matches, each once, in path order; no exclude
   * patterns (`None`) means none are excluded.
   */
  method FindFiles(fs: FileSystem, glob: Glob, base: Path, includes: seq<string>, excludes: Option<seq<string>>)
    returns (r: seq<Path>)
    ensures StrictlySorted(r, true)
    ensures forall p :: p in r <==>
      Matched(fs, glob, base, includes, p) && !Matched(fs, glob, base, excludes.GetOr([]), p)
  {
    var excludePatterns := if excludes.None? then [] else excludes.value;
    var included := FilesFromPatterns(fs, glob, base, includes);
    var excluded := FilesFromPatterns(fs, glob, base, excludePatterns);
    r := SortSet(included - excluded, true);
  }

  /** `any(word in text for word in words)` */
  predicate MentionsAny(text: string, words: seq<string>) {
    exists k :: 0 <= k < |words| && Contains(text, words[k])
  }

  /** The file can be read (ignoring undecodable bytes) and contains one of the words. */
  predicate HasKeyword(fs: FileSystem, p: Path, words: seq<string>) {
    var text := ReadTextLenient(fs, p);
    text.Some? && MentionsAny(text.value, words)
  }

  function KeywordTest(fs: FileSystem, words: seq<string>): Path -> bool {
    p => HasKeyword(fs, p, words)
  }

  /**
   * `filter_files_by_keyword`: without search words, the list itself; otherwise the listed
   * files that contain a word, in their order (a file that cannot be read is dropped).
   */
  method FilterByKeyword(fs: FileSystem, paths: seq<Path>, words: seq<string>) returns (r: seq<Path>)
    ensures words == [] ==> r == paths
    ensures words != [] ==> r == Filter(paths, KeywordTest(fs, words))
  {
    if words == [] {
      return paths;
    }
    r := [];
    for i := 0 to |paths|
      invariant r == Filter(paths[..i], KeywordTest(fs, words))
    {
      FilterAppend(paths[..i], paths[i], KeywordTest(fs, words));
      assert paths[..i + 1] == paths[..i] + [paths[i]];
      var text := ReadTextLenient(fs, paths[i]);
      if text.Some? {
        var hit := false;
        for k := 0 to |words|
          invariant hit <==> exists k' :: 0 <= k' < k && Contains(text.value, words[k'])
        {
          if !hit && Contains(text.value, words[k]) {
            hit := true;
          }
        }
        if hit {
          r := r + [paths[i]];
        }
      }
    }
    assert paths[..|paths|] == paths;
  }
}
