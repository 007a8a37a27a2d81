/**
 * The `@structure` scope of `context.py` (`_extract_symbols_by_regex` and
 * `_build_structure_context`): which files it looks at, which symbol kind each line is recorded
 * under, and the outline it writes for every file with symbols.
 */
module Structure {
  import opened Wrappers
  import opened Strings
  import opened Sorting
  import opened Paths
  import opened Files
  import opened ScopeConfig
  import opened ContextFormat

  datatype Kind = Imports | Class | Function

  /** `pattern.match(line) is not None` for one compiled pattern of `LANGUAGE_PATTERNS`. */
  type LineTest = string -> bool

  /** A language's `(symbol_type, pattern)` pairs, in list order. */
  type Patterns = seq<(Kind, LineTest)>

  /** The three patterns of one language. */
  datatype Tests = Tests(imports: LineTest, classes: LineTest, functions: LineTest)

  /** The pattern list of a language: imports, then classes, then functions. */
  function PatternsOf(t: Tests): Patterns {
    [(Imports, t.imports), (Class, t.classes), (Function, t.functions)]
  }

  datatype Language = Language(name: string, extensions: seq<string>, patterns: Patterns)

  /** `LANGUAGE_PATTERNS`, in its order; the regular expressions themselves are parameters. */
  function Languages(python: Tests, javascript: Tests): seq<Language> {
    [ Language("python", [".py"], PatternsOf(python)),
      Language("javascript", [".js", ".jsx", ".ts", ".tsx"], PatternsOf(javascript)) ]
  }

  const StructureTree := "Project structure view"

  /** `STRUCTURE_TEMPLATE` after `textwrap.dedent`. */
  const StructureTemplate := "\nProject Structure Outline:\n--------------------------\n{{structure_content}}\n"

  // ---------------------------------------------------------------- lines

  /** The characters `str.splitlines` breaks at. */
  predicate IsLineBreak(c: char) {
    c == '\n' || c == '\r' || c == '\U{0B}' || c == '\U{0C}' || c == '\U{1C}' || c == '\U{1D}'
    || c == '\U{1E}' || c == '\U{85}' || c == '\U{2028}' || c == '\U{2029}'
  }

  predicate NoBreak(line: string) {
    forall k :: 0 <= k < |line| ==> !IsLineBreak(line[k])
  }

  /** The length of the first line of `s`: the index of its first line break, or `|s|`. */
  function LineLength(s: string): (n: nat)
    ensures n <= |s| && (n < |s| ==> IsLineBreak(s[n]))
  {
    if s == [] || IsLineBreak(s[0]) then 0 else 1 + LineLength(s[1..])
  }

  lemma {:induction false} LineLengthNoBreak(s: string)
    ensures NoBreak(s[..LineLength(s)])
  {
    if s != [] && !IsLineBreak(s[0]) {
      LineLengthNoBreak(s[1..]);
      assert s[..LineLength(s)] == [s[0]] + s[1..][..LineLength(s[1..])];
    }
  }

  /** Where the next line starts after a break at `n`; "\r\n" is one break. */
  function NextLine(s: string, n: nat): (m: nat)
    requires n < |s|
    ensures n < m <= |s|
  {
    if s[n] == '\r' && n + 1 < |s| && s[n + 1] == '\n' then n + 2 else n + 1
  }

  /** `s.splitlines()`: the lines of `s` without their breaks; no empty line after a final break. */
  function SplitLines(s: string): seq<string>
    decreases |s|
  {
    if s == [] then []
    else
      var n := LineLength(s);
      if n == |s| then [s] else [s[..n]] + SplitLines(s[NextLine(s, n)..])
  }

  /** No line contains a break. */
  lemma {:induction false} LinesHaveNoBreak(s: string)
    ensures forall k :: 0 <= k < |SplitLines(s)| ==> NoBreak(SplitLines(s)[k])
    decreases |s|
  {
    if s != [] {
      var n := LineLength(s);
      LineLengthNoBreak(s);
      if n < |s| {
        var rest := s[NextLine(s, n)..];
        LinesHaveNoBreak(rest);
        assert SplitLines(s) == [s[..n]] + SplitLines(rest);
      }
    }
  }

  /** A text whose only breaks are "\n" is its lines joined by "\n", plus a final "\n" if it has one. */
  lemma {:induction false} SplitJoin(s: string)
    requires OnlyNewlines(s)
    ensures JoinWith("\n", SplitLines(s)) + FinalBreak(s) == s
    decreases |s|
  {
    if s != [] {
      var n := LineLength(s);
      if n == |s| {
        SingleLine(s);
      } else {
        var rest := s[n + 1..];
        FirstLineSplit(s, n);
        SplitJoin(rest);
        SplitJoinStep(s, s[..n], rest);
      }
    }
  }

  predicate OnlyNewlines(s: string) {
    forall k :: 0 <= k < |s| ==> (IsLineBreak(s[k]) ==> s[k] == '\n')
  }

  lemma SingleLine(s: string)
    requires s != [] && LineLength(s) == |s|
    ensures JoinWith("\n", SplitLines(s)) + FinalBreak(s) == s
  {
    LineLengthNoBreak(s);
    assert s[..|s|] == s;
    assert !IsLineBreak(s[|s| - 1]);
  }

  lemma FirstLineSplit(s: string, n: nat)
    requires OnlyNewlines(s) && s != [] && n == LineLength(s) < |s|
    ensures s == s[..n] + "\n" + s[n + 1..]
    ensures SplitLines(s) == [s[..n]] + SplitLines(s[n + 1..])
    ensures OnlyNewlines(s[n + 1..])
  {
    assert s[n] == '\n' && NextLine(s, n) == n + 1;
    SplitAround(s, n);
    OnlyNewlinesTail(s, n + 1);
  }

  lemma SplitAround(s: string, n: nat)
    requires n < |s|
    ensures s == s[..n] + [s[n]] + s[n + 1..]
  {
    assert s[..n + 1] == s[..n] + [s[n]];
    assert s == s[..n + 1] + s[n + 1..];
  }

  lemma OnlyNewlinesTail(s: string, m: nat)
    requires OnlyNewlines(s) && m <= |s|
    ensures OnlyNewlines(s[m..])
  {
    var rest := s[m..];
    forall k | 0 <= k < |rest| ensures IsLineBreak(rest[k]) ==> rest[k] == '\n' {
      assert rest[k] == s[m + k];
    }
  }

  /** "\n" when the text ends in one, "" otherwise. */
  function FinalBreak(s: string): string {
    if s != [] && s[|s| - 1] == '\n' then "\n" else ""
  }

  lemma SplitJoinStep(s: string, head: string, rest: string)
    requires s == head + "\n" + rest
    requires JoinWith("\n", SplitLines(rest)) + FinalBreak(rest) == rest
    ensures JoinWith("\n", [head] + SplitLines(rest)) + FinalBreak(s) == s
  {
    var lines := SplitLines(rest);
    if rest == [] {
      assert lines == [];
      assert [head] + lines == [head];
    } else {
      assert lines != [];
      assert ([head] + lines)[1..] == lines;
      assert FinalBreak(s) == FinalBreak(rest);
    }
  }

  // ---------------------------------------------------------------- symbols

  /** The index of the first pattern from `j` on that matches the line. */
  function FirstMatch(line: string, pats: Patterns, j: nat): (r: Option<nat>)
    ensures r.Some? ==> j <= r.value < |pats| && pats[r.value].1(line)
    decreases |pats| - j
  {
    if j >= |pats| then None else if pats[j].1(line) then Some(j) else FirstMatch(line, pats, j + 1)
  }

  /** No pattern before the one `FirstMatch` finds matches; none at all when it finds none. */
  lemma {:induction false} FirstMatchIsFirst(line: string, pats: Patterns, j: nat)
    ensures FirstMatch(line, pats, j).Some? ==>
      forall i :: j <= i < FirstMatch(line, pats, j).value ==> !pats[i].1(line)
    ensures FirstMatch(line, pats, j).None? ==> forall i :: j <= i < |pats| ==> !pats[i].1(line)
    decreases |pats| - j
  {
    if j < |pats| && !pats[j].1(line) {
      FirstMatchIsFirst(line, pats, j + 1);
    }
  }

  /** The kind a line is recorded under: that of the first pattern that matches it. */
  function KindOf(line: string, pats: Patterns): Option<Kind> {
    match FirstMatch(line, pats, 0)
    case Some(j) => Some(pats[j].0)
    case None => None
  }

  /** A line has kind `k` exactly when some pattern of kind `k` matches it and no earlier one does. */
  lemma KindOfFirst(line: string, pats: Patterns, k: Kind)
    ensures KindOf(line, pats) == Some(k) <==>
      exists j :: 0 <= j < |pats| && pats[j].0 == k && pats[j].1(line) && forall i :: 0 <= i < j ==> !pats[i].1(line)
  {
    FirstMatchIsFirst(line, pats, 0);
    if exists j :: 0 <= j < |pats| && pats[j].0 == k && pats[j].1(line) && forall i :: 0 <= i < j ==> !pats[i].1(line) {
      var j :| 0 <= j < |pats| && pats[j].0 == k && pats[j].1(line) && forall i :: 0 <= i < j ==> !pats[i].1(line);
      var f := FirstMatch(line, pats, 0);
      assert f.Some?;
      assert !(f.value < j) && !(j < f.value);
    }
  }

  /** With its own patterns, a language records an import line as an import, whatever else it matches. */
  lemma ImportsFirst(t: Tests, line: string)
    requires t.imports(line)
    ensures KindOf(line, PatternsOf(t)) == Some(Imports)
  {
  }

  datatype Symbols = Symbols(imports: seq<string>, classes: seq<string>, functions: seq<string>)

  function Add(s: Symbols, k: Kind, x: string): Symbols {
    match k
    case Imports => s.(imports := s.imports + [x])
    case Class => s.(classes := s.classes + [x])
    case Function => s.(functions := s.functions + [x])
  }

  /** The stripped lines recorded under `k`, in line order. */
  function Bucket(lines: seq<string>, pats: Patterns, k: Kind): seq<string>
    decreases |lines|
  {
    if lines == [] then []
    else
      var last := lines[|lines| - 1];
      Bucket(lines[..|lines| - 1], pats, k) + (if KindOf(last, pats) == Some(k) then [Strip(last)] else [])
  }

  function Collected(lines: seq<string>, pats: Patterns): Symbols {
    Symbols(Bucket(lines, pats, Imports), Bucket(lines, pats, Class), Bucket(lines, pats, Function))
  }

  lemma CollectedSnoc(lines: seq<string>, line: string, pats: Patterns)
    ensures Collected(lines + [line], pats) ==
      match KindOf(line, pats) case Some(k) => Add(Collected(lines, pats), k, Strip(line)) case None => Collected(lines, pats)
  {
    assert (lines + [line])[..|lines|] == lines;
  }

  /** `_extract_symbols_by_regex(content, patterns)` */
  method ExtractSymbols(content: string, pats: Patterns) returns (syms: Symbols)
    ensures syms == Collected(SplitLines(content), pats)
  {
    syms := Symbols([], [], []);
    var lines := SplitLines(content);
    for i := 0 to |lines|
      invariant syms == Collected(lines[..i], pats)
    {
      var line := lines[i];
      CollectedSnoc(lines[..i], line, pats);
      assert lines[..i + 1] == lines[..i] + [line];
      var j := 0;
      while j < |pats|
        invariant j <= |pats|
        invariant FirstMatch(line, pats, 0) == FirstMatch(line, pats, j)
        invariant syms == Collected(lines[..i], pats)
        decreases |pats| - j
      {
        if pats[j].1(line) {
          syms := Add(syms, pats[j].0, Strip(line));
          break;
        }
        j := j + 1;
      }
    }
    assert lines[..|lines|] == lines;
  }

  function Total(s: Symbols): nat {
    |s.imports| + |s.classes| + |s.functions|
  }

  /** Every line some pattern matches is recorded once, and no other line is recorded. */
  lemma {:induction false} CollectedCount(lines: seq<string>, pats: Patterns)
    ensures Total(Collected(lines, pats)) == |Filter(lines, l => KindOf(l, pats).Some?)|
    decreases |lines|
  {
    if lines != [] {
      var init, last := lines[..|lines| - 1], lines[|lines| - 1];
      CollectedCount(init, pats);
      CollectedSnoc(init, last, pats);
      FilterAppend(init, last, l => KindOf(l, pats).Some?);
      assert init + [last] == lines;
    }
  }

  predicate HasSymbols(s: Symbols) {
    s.imports != [] || s.classes != [] || s.functions != []
  }

  // ---------------------------------------------------------------- file selection

  /** `any(part in STRUCTURE_EXCLUDE_DIRS for part in parts)` */
  predicate HasExcludedPart(parts: seq<string>) {
    exists k :: 0 <= k < |parts| && parts[k] in StructureExcludeDirs
  }

  /**
   * The parts the exclusion test looks at. As written (`belowOnly == false`) it is all of
   * `p.parts`, the directories above `base_path` included (the root "/" is never in the list);
   * `belowOnly` looks only at the parts below `base_path`.
   */
  function CheckedParts(p: Path, base: Path, belowOnly: bool): seq<string> {
    if belowOnly then (match RelativeParts(p, base) case Some(r) => r case None => Parts(p)) else Parts(p)
  }

  /** A path the first loop keeps: no excluded part, a file, its lower-cased suffix not in the default list. */
  predicate Kept(fs: FileSystem, base: Path, p: Path, belowOnly: bool) {
    KeptBy(fs, base, p, belowOnly, DefaultExcludeExtensions)
  }

  /** `Kept`, for any list of extensions in place of the default one. */
  predicate KeptBy(fs: FileSystem, base: Path, p: Path, belowOnly: bool, exts: seq<string>) {
    !HasExcludedPart(CheckedParts(p, base, belowOnly)) && fs.IsFile(p) && Lower(PathSuffix(p)) !in exts
  }

  /** The files the `@structure` scope reads, in path order. */
  function SelectedFiles(fs: FileSystem, base: Path, belowOnly: bool): (r: seq<Path>)
    ensures StrictlySorted(r, true)
    ensures forall p :: p in r <==> p in fs.files && Below(p, base) && Kept(fs, base, p, belowOnly)
  {
    SortSet(set p | p in fs.files && Below(p, base) && Kept(fs, base, p, belowOnly), true)
  }

  /**
   * `base_path.rglob('*')`: every file and directory strictly below `base`. The listing order
   * of the file system is not modelled; the kept files are sorted afterwards.
   */
  function Walk(fs: FileSystem, base: Path): seq<Path> {
    SortSet(set p | p in fs.files.Keys + fs.dirs && Below(p, base), true)
  }

  /** The walked paths the first loop keeps, in walk order. */
  function KeptIn(fs: FileSystem, base: Path, belowOnly: bool, exts: seq<string>, walk: seq<Path>): seq<Path>
    decreases |walk|
  {
    if walk == [] then []
    else
      var last := walk[|walk| - 1];
      KeptIn(fs, base, belowOnly, exts, walk[..|walk| - 1]) + (if KeptBy(fs, base, last, belowOnly, exts) then [last] else [])
  }

  /** A path is kept exactly when it was walked and passes the tests. */
  lemma {:induction false} KeptInMembers(fs: FileSystem, base: Path, belowOnly: bool, exts: seq<string>, walk: seq<Path>, p: Path)
    ensures p in KeptIn(fs, base, belowOnly, exts, walk) <==> p in walk && KeptBy(fs, base, p, belowOnly, exts)
    decreases |walk|
  {
    if walk != [] {
      var init := walk[..|walk| - 1];
      KeptInMembers(fs, base, belowOnly, exts, init, p);
      assert walk == init + [walk[|walk| - 1]];
    }
  }

  lemma KeptInStep(fs: FileSystem, base: Path, belowOnly: bool, exts: seq<string>, walk: seq<Path>, i: nat)
    requires i < |walk|
    ensures KeptIn(fs, base, belowOnly, exts, walk[..i + 1]) ==
      KeptIn(fs, base, belowOnly, exts, walk[..i]) + (if KeptBy(fs, base, walk[i], belowOnly, exts) then [walk[i]] else [])
  {
    assert walk[..i + 1][..i] == walk[..i];
  }

  /** The first loop of `_build_structure_context`. */
  method KeepFiles(fs: FileSystem, base: Path, belowOnly: bool, exts: seq<string>, walk: seq<Path>) returns (all: seq<Path>)
    ensures all == KeptIn(fs, base, belowOnly, exts, walk)
  {
    all := [];
    for i := 0 to |walk|
      invariant all == KeptIn(fs, base, belowOnly, exts, walk[..i])
    {
      var p := walk[i];
      KeptInStep(fs, base, belowOnly, exts, walk, i);
      if HasExcludedPart(CheckedParts(p, base, belowOnly)) {
        continue;
      }
      if fs.IsFile(p) && Lower(PathSuffix(p)) !in exts {
        all := all + [p];
      }
    }
    assert walk[..|walk|] == walk;
  }

  /** The walk, the first loop, and the `sorted(all_files)` after it. */
  method StructureFiles(fs: FileSystem, base: Path, belowOnly: bool) returns (files: seq<Path>)
    ensures files == SelectedFiles(fs, base, belowOnly)
  {
    var walk := Walk(fs, base);
    var all := KeepFiles(fs, base, belowOnly, DefaultExcludeExtensions, walk);
    files := SortSet(set p | p in all, true);
    SameSelection(fs, base, belowOnly, walk, all);
  }

  lemma SameSelection(fs: FileSystem, base: Path, belowOnly: bool, walk: seq<Path>, all: seq<Path>)
    requires walk == Walk(fs, base) && all == KeptIn(fs, base, belowOnly, DefaultExcludeExtensions, walk)
    ensures SortSet(set p | p in all, true) == SelectedFiles(fs, base, belowOnly)
  {
    var chosen := set p | p in fs.files && Below(p, base) && Kept(fs, base, p, belowOnly);
    assert (set p | p in all) == chosen by {
      forall p ensures p in all <==> p in chosen {
        KeptInMembers(fs, base, belowOnly, DefaultExcludeExtensions, walk, p);
        if p in chosen {
          assert p in walk;
        }
      }
    }
  }

  /**
   * As written, the exclusion test sees the directories above `base_path` too: below a
   * directory named "build" (or any other excluded name) no file is ever selected.
   */
  lemma ExcludedAncestorHidesAll(fs: FileSystem, base: Path, k: nat)
    requires k < |Parts(base)| && Parts(base)[k] in StructureExcludeDirs
    ensures SelectedFiles(fs, base, false) == []
  {
    forall p | Below(p, base) ensures HasExcludedPart(Parts(p)) {
      assert Parts(p)[k] == Parts(base)[k];
    }
  }

  /** Looking only below `base_path`, what lies above it makes no difference. */
  lemma BelowOnlyIgnoresAncestors(fs: FileSystem, base: Path, p: Path)
    requires p in fs.files && Below(p, base) && Lower(PathSuffix(p)) !in DefaultExcludeExtensions
    requires forall k :: |Parts(base)| <= k < |Parts(p)| ==> Parts(p)[k] !in StructureExcludeDirs
    ensures p in SelectedFiles(fs, base, true)
  {
    var rel := RelativeParts(p, base);
    assert rel.Some?;
    assert Parts(base) + rel.value == Parts(p);
    forall k | 0 <= k < |rel.value| ensures rel.value[k] !in StructureExcludeDirs {
      assert rel.value[k] == Parts(p)[|Parts(base)| + k];
    }
  }

  // ---------------------------------------------------------------- outline

  /** The patterns of the first language whose extensions list the suffix (case-sensitive). */
  function LanguageOf(suffix: string, langs: seq<Language>): (r: Option<Patterns>)
    ensures r.Some? ==> exists k :: 0 <= k < |langs| && suffix in langs[k].extensions && r.value == langs[k].patterns
    ensures r.None? ==> forall k :: 0 <= k < |langs| ==> suffix !in langs[k].extensions
    decreases |langs|
  {
    if langs == [] then None
    else if suffix in langs[0].extensions then Some(langs[0].patterns)
    else
      var r := LanguageOf(suffix, langs[1..]);
      assert forall k :: 0 < k < |langs| ==> langs[k] == langs[1..][k - 1];
      r
  }

  /** The loop over `LANGUAGE_PATTERNS.items()` that picks a file's language. */
  method DetectLanguage(suffix: string, langs: seq<Language>) returns (r: Option<Patterns>)
    ensures r == LanguageOf(suffix, langs)
  {
    var k := 0;
    while k < |langs|
      invariant k <= |langs|
      invariant LanguageOf(suffix, langs) == LanguageOf(suffix, langs[k..])
      decreases |langs| - k
    {
      assert langs[k..][1..] == langs[k + 1..];
      if suffix in langs[k].extensions {
        return Some(langs[k].patterns);
      }
      k := k + 1;
    }
    return None;
  }

  function Bullets(xs: seq<string>): (r: seq<string>)
    ensures |r| == |xs| && forall k :: 0 <= k < |xs| ==> r[k] == "- " + xs[k]
  {
    seq(|xs|, k requires 0 <= k < |xs| => "- " + xs[k])
  }

  /** The lines written for one file: its path, then "[imports]" and "[symbols]" sections when not empty. */
  function OutlineLines(rel: string, s: Symbols): seq<string> {
    ["<file_path:" + rel + ">"]
    + (if s.imports != [] then ["[imports]"] + Bullets(s.imports) else [])
    + (if s.classes != [] || s.functions != [] then ["[symbols]"] + Bullets(s.classes) + Bullets(s.functions) else [])
  }

  /** Keeps the outline that was made, if any. */
  function Made(o: Option<string>): seq<string> {
    match o case Some(x) => [x] case None => []
  }

  /**
   * The outline of one selected file, or `None` when it has no language, cannot be read or has
   * no symbols; also `None` outside `base` (`relative_to` raises, the handler skips the file).
   */
  function FileOutline(fs: FileSystem, langs: seq<Language>, base: Path, p: Path): Option<string> {
    match LanguageOf(PathSuffix(p), langs)
    case None => None
    case Some(pats) =>
      match ReadTextLenient(fs, p)
      case None => None
      case Some(content) =>
        var syms := Collected(SplitLines(content), pats);
        if !HasSymbols(syms) then None
        else
          match RelativeParts(p, base)
          case None => None
          case Some(rel) => Some(JoinWith("\n", OutlineLines(JoinWith("/", rel), syms)))
  }

  /** The body of the second loop for one file. */
  method OutlineFile(fs: FileSystem, langs: seq<Language>, base: Path, p: Path) returns (o: Option<string>)
    ensures o == FileOutline(fs, langs, base, p)
  {
    var lang := DetectLanguage(PathSuffix(p), langs);
    if lang.None? {
      return None;
    }
    var content := ReadTextLenient(fs, p);
    if content.None? {
      return None;
    }
    var syms := ExtractSymbols(content.value, lang.value);
    if !HasSymbols(syms) {
      return None;
    }
    var rel := RelativeParts(p, base);
    if rel.None? {
      return None;
    }
    o := Some(JoinWith("\n", OutlineLines(JoinWith("/", rel.value), syms)));
  }

  function OutlineOf(fs: FileSystem, langs: seq<Language>, base: Path): Path -> Option<string> {
    p => FileOutline(fs, langs, base, p)
  }

  /** The outlines `outline` makes for the files, in file order. */
  function Gather(outline: Path -> Option<string>, files: seq<Path>): seq<string>
    decreases |files|
  {
    if files == [] then []
    else Gather(outline, files[..|files| - 1]) + Made(outline(files[|files| - 1]))
  }

  /** The outlines of the selected files that have one, in file order. */
  function Outlines(fs: FileSystem, langs: seq<Language>, base: Path, files: seq<Path>): seq<string> {
    Gather(OutlineOf(fs, langs, base), files)
  }

  /** At most one outline per file, and none exactly when no file has one. */
  lemma {:induction false} GatherFewer(outline: Path -> Option<string>, files: seq<Path>)
    ensures |Gather(outline, files)| <= |files|
    ensures Gather(outline, files) == [] <==> forall k :: 0 <= k < |files| ==> outline(files[k]).None?
    decreases |files|
  {
    if files != [] {
      var init := files[..|files| - 1];
      GatherFewer(outline, init);
      assert forall k :: 0 <= k < |init| ==> init[k] == files[k];
    }
  }

  /** Every outline made belongs to one of the files, in the order of the files. */
  lemma {:induction false} GatherOrder(outline: Path -> Option<string>, files: seq<Path>, i: nat, j: nat)
    requires i < j < |files| && outline(files[i]).Some? && outline(files[j]).Some?
    ensures exists a, b ::
      0 <= a < b < |Gather(outline, files)| &&
      Gather(outline, files)[a] == outline(files[i]).value &&
      Gather(outline, files)[b] == outline(files[j]).value
    decreases |files|
  {
    var init := files[..|files| - 1];
    assert forall k :: 0 <= k < |init| ==> init[k] == files[k];
    var g := Gather(outline, init);
    assert Gather(outline, files) == g + Made(outline(files[|files| - 1]));
    if j < |files| - 1 {
      assert init[i] == files[i] && init[j] == files[j];
      GatherOrder(outline, init, i, j);
      var a, b :| 0 <= a < b < |g| && g[a] == outline(files[i]).value && g[b] == outline(files[j]).value;
      assert Gather(outline, files)[a] == g[a] && Gather(outline, files)[b] == g[b];
    } else {
      assert init[i] == files[i];
      GatherHas(outline, init, i);
      var a :| 0 <= a < |g| && g[a] == outline(files[i]).value;
      assert Gather(outline, files)[a] == g[a] && Gather(outline, files)[|g|] == outline(files[j]).value;
    }
  }

  lemma {:induction false} GatherHas(outline: Path -> Option<string>, files: seq<Path>, i: nat)
    requires i < |files| && outline(files[i]).Some?
    ensures exists a :: 0 <= a < |Gather(outline, files)| && Gather(outline, files)[a] == outline(files[i]).value
    decreases |files|
  {
    var init := files[..|files| - 1];
    if i < |files| - 1 {
      assert init[i] == files[i];
      GatherHas(outline, init, i);
      var a :| 0 <= a < |Gather(outline, init)| && Gather(outline, init)[a] == outline(files[i]).value;
      assert Gather(outline, files)[a] == Gather(outline, init)[a];
    } else {
      assert Gather(outline, files)[|Gather(outline, files)| - 1] == outline(files[i]).value;
    }
  }

  /** The context `_build_structure_context` returns for the outlines it made. */
  function StructureObject(outlines: seq<string>): (r: Option<ContextObject>)
    ensures r.None? <==> outlines == []
    ensures r.Some? ==> r.value.tree == StructureTree && r.value.files.None?
  {
    if outlines == [] then None
    else Some(ContextObject(StructureTree, Replace(StructureTemplate, "{{structure_content}}", JoinWith("\n\n", outlines)), None))
  }

  /**
   * `_build_structure_context(base_path)`: the outlines of the selected files that have
   * symbols, in path order, in the structure template; `None` when there are none.
   */
  method StructureContext(fs: FileSystem, langs: seq<Language>, base: Path, belowOnly: bool)
    returns (r: Option<ContextObject>)
    ensures r == StructureObject(Outlines(fs, langs, base, SelectedFiles(fs, base, belowOnly)))
  {
    var files := StructureFiles(fs, base, belowOnly);
    var outputs := CollectOutlines(fs, langs, base, files);
    if outputs == [] {
      return None;
    }
    r := Some(ContextObject(StructureTree, Replace(StructureTemplate, "{{structure_content}}", JoinWith("\n\n", outputs)), None));
  }

  /** The second loop of `_build_structure_context`. */
  method CollectOutlines(fs: FileSystem, langs: seq<Language>, base: Path, files: seq<Path>) returns (outputs: seq<string>)
    ensures outputs == Outlines(fs, langs, base, files)
  {
    ghost var outline := OutlineOf(fs, langs, base);
    outputs := [];
    for i := 0 to |files|
      invariant outputs == Gather(outline, files[..i])
    {
      var o := OutlineFile(fs, langs, base, files[i]);
      GatherStep(outline, files, i);
      if o.Some? {
        outputs := outputs + [o.value];
      }
    }
    assert files[..|files|] == files;
  }

  lemma GatherStep(outline: Path -> Option<string>, files: seq<Path>, i: nat)
    requires i < |files|
    ensures Gather(outline, files[..i + 1]) == Gather(outline, files[..i]) + Made(outline(files[i]))
  {
    assert files[..i + 1][..i] == files[..i];
  }

  /** With no file selected, the structure scope gives nothing. */
  lemma NothingSelected(fs: FileSystem, langs: seq<Language>, base: Path, belowOnly: bool)
    requires SelectedFiles(fs, base, belowOnly) == []
    ensures StructureObject(Outlines(fs, langs, base, SelectedFiles(fs, base, belowOnly))).None?
  {
  }
}
