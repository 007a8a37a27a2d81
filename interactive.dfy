/**
 * The interactive file picker of `interactive.py`: the checklist tree it draws
 * (`_build_choices_recursively`) and the expansion of the ticked lines into a sorted list of
 * files (`select_files_interactively`). The prompt itself is a parameter: its answer is the list
 * of ticked lines.
 */
module Interactive {
  import opened Wrappers
  import opened Strings
  import opened Sorting
  import opened Paths
  import opened Files
  import opened ScopeConfig
  import opened ChoiceTree
  import Structure

  /** Every file and directory of the file system. */
  function Entries(fs: FileSystem): set<Path> {
    fs.files.Keys + fs.dirs
  }

  /** Everything strictly below `d`: the measure the tree walk shrinks. */
  function Under(fs: FileSystem, d: Path): set<Path> {
    set p | p in Entries(fs) && Below(p, d)
  }

  /** `p` is `d` or lies below it, so that `p.relative_to(d)` succeeds. */
  predicate Within(p: Path, d: Path) {
    |Parts(d)| <= |Parts(p)| && Parts(p)[..|Parts(d)|] == Parts(d)
  }

  /** `p` is an entry of `d.iterdir()`. */
  predicate IsChild(p: Path, d: Path) {
    Below(p, d) && |Parts(p)| == |Parts(d)| + 1
  }

  lemma BelowTransitive(p: Path, c: Path, d: Path)
    requires Below(p, c) && Below(c, d)
    ensures Below(p, d)
  {
    var ps, cs, ds := Parts(p), Parts(c), Parts(d);
    assert ps[..|ds|] == ps[..|cs|][..|ds|];
  }

  lemma WithinBelow(p: Path, d: Path, base: Path)
    requires Below(p, d) && Within(d, base)
    ensures Within(p, base)
  {
    var ps, ds, bs := Parts(p), Parts(d), Parts(base);
    assert ps[..|bs|] == ps[..|ds|][..|bs|];
  }

  lemma WithinSelf(p: Path)
    ensures Within(p, p)
  {
    assert Parts(p)[..|Parts(p)|] == Parts(p);
  }

  /** A child has strictly fewer entries below it than its parent. */
  lemma UnderShrinks(fs: FileSystem, c: Path, d: Path)
    requires c in Entries(fs) && Below(c, d)
    ensures Under(fs, c) < Under(fs, d)
  {
    forall p | p in Under(fs, c) ensures p in Under(fs, d) {
      BelowTransitive(p, c, d);
    }
    assert c in Under(fs, d) && c !in Under(fs, c);
  }

  /** `item.relative_to(base_path)`, printed with '/' between the parts. */
  function Rel(p: Path, base: Path): string
    requires Within(p, base)
  {
    JoinWith("/", RelativeParts(p, base).value)
  }

  /** A file whose lower-cased suffix is in `DEFAULT_EXCLUDE_EXTENSIONS`. */
  predicate Hidden(p: Path) {
    Lower(PathSuffix(p)) in DefaultExcludeExtensions
  }

  /** The children `iterdir` yields and the comprehension keeps. */
  predicate Listed(fs: FileSystem, d: Path, p: Path) {
    p in Entries(fs) && IsChild(p, d) && Name(p) !in StructureExcludeDirs
  }

  /** The sort key `(p.is_file(), p.name.lower())`, with `False < True` as "0" < "1". */
  function KeyOf(fs: FileSystem, p: Path): string {
    (if fs.IsFile(p) then "1" else "0") + Lower(Name(p))
  }

  function ChoiceKey(fs: FileSystem): Path -> string {
    p => KeyOf(fs, p)
  }

  /**
   * `sorted_items`. `iterdir` lists in an order the file system chooses; the model takes path
   * order, which only matters for names that are equal once lower-cased (the sort is stable).
   */
  function Listing(fs: FileSystem, d: Path): (r: seq<Path>)
    ensures forall p :: p in r <==> Listed(fs, d, p)
  {
    var s := SortSet(set p | p in Entries(fs) && Listed(fs, d, p), true);
    var r := SortByKey(s, ChoiceKey(fs));
    SameMembers(r, s);
    r
  }

  /** The listing is ordered by `ChoiceKey`: directories first, then by lower-cased name. */
  lemma ListingSorted(fs: FileSystem, d: Path)
    ensures SortedByKey(Listing(fs, d), ChoiceKey(fs))
  {
    SortByKeySorted(SortSet(set p | p in Entries(fs) && Listed(fs, d, p), true), ChoiceKey(fs));
  }

  lemma SameMembers(r: seq<Path>, s: seq<Path>)
    requires multiset(r) == multiset(s)
    ensures forall p :: p in r <==> p in s
  {
    assert forall p :: p in r <==> p in multiset(r);
    assert forall p :: p in s <==> p in multiset(s);
  }

  /** The branch the loop body takes for an item. */
  function KindOf(fs: FileSystem, p: Path): Kind {
    if fs.IsDir(p) then Folder
    else if fs.IsFile(p) && !Hidden(p) then Shown
    else Skipped
  }

  /**
   * The sorted entries `_build_choices_recursively(d, base, indent)` visits, each with the
   * entries of its own subtree. A path that is not a directory has none; within the walk that
   * is only the missing-directory case.
   */
  function Tree(fs: FileSystem, d: Path, base: Path): seq<Entry>
    requires Within(d, base)
    decreases Under(fs, d), 1, 0
  {
    if !fs.IsDir(d) then []
    else
      var items := Listing(fs, d);
      ListingInside(fs, d);
      Level(fs, d, base, items, |items|)
  }

  /** Every item is an entry below `d`: what the recursion into a subdirectory needs. */
  predicate Inside(fs: FileSystem, d: Path, items: seq<Path>) {
    forall k :: 0 <= k < |items| ==> items[k] in Entries(fs) && Below(items[k], d)
  }

  lemma ListingInside(fs: FileSystem, d: Path)
    ensures Inside(fs, d, Listing(fs, d))
  {
    var items := Listing(fs, d);
    forall k | 0 <= k < |items| ensures items[k] in Entries(fs) && Below(items[k], d) {
      assert Listed(fs, d, items[k]);
    }
  }

  /** The entries of the first `n` of the sorted `items` of `d`. */
  function Level(fs: FileSystem, d: Path, base: Path, items: seq<Path>, n: nat): (r: seq<Entry>)
    requires Within(d, base) && Inside(fs, d, items) && n <= |items|
    ensures |r| == n
    decreases Under(fs, d), 0, n
  {
    if n == 0 then [] else Level(fs, d, base, items, n - 1) + [EntryAt(fs, d, base, items, n - 1)]
  }

  /** The entry of the `i`-th of the sorted `items` of `d`. */
  function EntryAt(fs: FileSystem, d: Path, base: Path, items: seq<Path>, i: nat): Entry
    requires Within(d, base) && Inside(fs, d, items) && i < |items|
    decreases Under(fs, d), 0, i, 1
  {
    Node(fs, d, base, items[i])
  }

  /** The entry of one item of `d`: its path relative to the base, its kind, its subtree. */
  function Node(fs: FileSystem, d: Path, base: Path, item: Path): Entry
    requires Within(d, base) && item in Entries(fs) && Below(item, d)
    decreases Under(fs, d), 0, 0, 0
  {
    WithinBelow(item, d, base);
    var children := if fs.IsDir(item) then UnderShrinks(fs, item, d); Tree(fs, item, base) else [];
    Entry(Rel(item, base), KindOf(fs, item), children)
  }

  /** Extending a level leaves its earlier entries alone. */
  lemma {:induction false} LevelPrefix(fs: FileSystem, d: Path, base: Path, items: seq<Path>, n: nat, i: nat)
    requires Within(d, base) && Inside(fs, d, items) && i < n <= |items|
    ensures Level(fs, d, base, items, n)[i] == Level(fs, d, base, items, i + 1)[i]
  {
    if i < n - 1 {
      LevelPrefix(fs, d, base, items, n - 1, i);
    }
  }

  /**
   * Entry `i` of a directory's tree is its `i`-th sorted item: the item's path relative to the
   * base, the branch the loop takes for it, and for a directory the tree below it.
   */
  lemma TreeAt(fs: FileSystem, d: Path, base: Path, i: nat)
    requires Within(d, base) && fs.IsDir(d) && i < |Listing(fs, d)|
    ensures |Tree(fs, d, base)| == |Listing(fs, d)|
    ensures Within(Listing(fs, d)[i], base)
    ensures Tree(fs, d, base)[i].rel == Rel(Listing(fs, d)[i], base)
    ensures Tree(fs, d, base)[i].kind == KindOf(fs, Listing(fs, d)[i])
    ensures fs.IsDir(Listing(fs, d)[i]) ==> Tree(fs, d, base)[i].children == Tree(fs, Listing(fs, d)[i], base)
  {
    var items := Listing(fs, d);
    ListingInside(fs, d);
    WithinBelow(items[i], d, base);
    LevelPrefix(fs, d, base, items, |items|, i);
    assert Tree(fs, d, base)[i] == EntryAt(fs, d, base, items, i);
    assert EntryAt(fs, d, base, items, i) == Node(fs, d, base, items[i]);
  }

  /** `_build_choices_recursively(d, base, indent)` */
  function Choices(fs: FileSystem, d: Path, base: Path, indent: string): seq<string>
    requires Within(d, base)
  {
    Lines(Tree(fs, d, base), indent)
  }

  method BuildChoicesRecursively(fs: FileSystem, d: Path, base: Path, indent: string)
    returns (choices: seq<string>)
    requires Within(d, base)
    ensures choices == Choices(fs, d, base, indent)
    decreases Under(fs, d), 1
  {
    if !fs.IsDir(d) {
      return [];
    }
    choices := LevelChoices(fs, d, base, indent);
  }

  /** The loop over the sorted items of an existing directory. */
  method LevelChoices(fs: FileSystem, d: Path, base: Path, indent: string)
    returns (choices: seq<string>)
    requires Within(d, base) && fs.IsDir(d)
    ensures choices == Lines(Tree(fs, d, base), indent)
    decreases Under(fs, d), 0, 1
  {
    var sortedItems := Listing(fs, d);
    ghost var tree := Tree(fs, d, base);
    choices := [];
    var i := 0;
    while i < |sortedItems|
      invariant 0 <= i <= |sortedItems|
      invariant choices == LinesUpTo(tree, indent, i)
    {
      var lines := ItemChoices(fs, d, base, indent, i);
      choices := choices + lines;
      i := i + 1;
    }
  }

  /** One pass of the loop: the lines of the `i`-th sorted item, its subtree included. */
  method ItemChoices(fs: FileSystem, d: Path, base: Path, indent: string, i: nat)
    returns (lines: seq<string>)
    requires Within(d, base) && fs.IsDir(d) && i < |Listing(fs, d)|
    ensures lines == EntryLines(Tree(fs, d, base), indent, i)
    decreases Under(fs, d), 0, 0
  {
    var sortedItems := Listing(fs, d);
    var item := sortedItems[i];
    var isLast := i == |sortedItems| - 1;
    TreeAt(fs, d, base, i);
    var relativeItemPath := Rel(item, base);
    if fs.IsDir(item) {
      assert Listed(fs, d, item);
      UnderShrinks(fs, item, d);
      var inner := BuildChoicesRecursively(fs, item, base, Deeper(indent, isLast));
      lines := [DirLine(indent, isLast, relativeItemPath)] + inner;
    } else if fs.IsFile(item) {
      lines := [];
      if !Hidden(item) {
        lines := [FileLine(indent, isLast, relativeItemPath)];
      }
    } else {
      lines := [];
    }
  }

  /**
   * The call `_build_choices_recursively(base_path, base_path)`: `None` where `iterdir` raises
   * `NotADirectoryError` (which only the caller's `except Exception` catches), no lines where
   * the directory is missing.
   */
  function TreeChoices(fs: FileSystem, base: Path): (r: Option<seq<string>>)
    ensures r.None? <==> fs.IsFile(base) && !fs.IsDir(base)
    ensures !fs.IsDir(base) ==> r.None? || r == Some([])
  {
    WithinSelf(base);
    if fs.IsDir(base) then Some(Choices(fs, base, base, ""))
    else if fs.IsFile(base) then None
    else Some([])
  }

  /** Directories come first; within a kind, names are in case-insensitive order. */
  lemma ListingOrder(fs: FileSystem, d: Path, i: nat, j: nat)
    requires fs.Valid()
    requires i < j < |Listing(fs, d)|
    ensures fs.IsDir(Listing(fs, d)[j]) ==> fs.IsDir(Listing(fs, d)[i])
    ensures fs.IsDir(Listing(fs, d)[i]) == fs.IsDir(Listing(fs, d)[j]) ==>
      !Less(Lower(Name(Listing(fs, d)[j])), Lower(Name(Listing(fs, d)[i])), false)
  {
    var items := Listing(fs, d);
    var a, b := items[i], items[j];
    assert Listed(fs, d, a) && Listed(fs, d, b);
    ListingSorted(fs, d);
    var ka, kb := KeyOf(fs, a), KeyOf(fs, b);
    assert !Less(kb, ka, false);
    if fs.IsDir(b) && !fs.IsDir(a) {
      assert false;
    }
    if fs.IsDir(a) == fs.IsDir(b) {
      assert ka[0] == kb[0];
      assert ka[1..] == Lower(Name(a)) && kb[1..] == Lower(Name(b));
    }
  }

  /**
   * When the last sorted item is a file with an excluded extension, it draws nothing, and no
   * line of the level gets the closing "└── ": the one before it still shows "├── ".
   */
  lemma HiddenLastFile(fs: FileSystem, d: Path, base: Path, indent: string)
    requires Within(d, base) && fs.IsDir(d) && |Listing(fs, d)| > 0
    requires var last := Listing(fs, d)[|Listing(fs, d)| - 1]; !fs.IsDir(last) && Hidden(last)
    ensures forall line :: line in Choices(fs, d, base, indent) ==> !StartsWith(line, indent + Corner)
  {
    var items := Listing(fs, d);
    var last := items[|items| - 1];
    assert KindOf(fs, last) == Skipped;
    TreeAt(fs, d, base, |items| - 1);
    var tree := Tree(fs, d, base);
    assert tree[|tree| - 1].kind == Skipped;
    SkippedLast(tree, indent);
  }

  /**
   * What one picked path adds to `final_files`: every file below a directory whose extension is
   * not excluded (`rglob` skips no directory), or the file itself whatever its extension.
   */
  function Expansion(fs: FileSystem, full: Path): set<Path> {
    if fs.IsDir(full) then set p | p in fs.files && Below(p, full) && !Hidden(p)
    else if fs.IsFile(full) then {full}
    else {}
  }

  /** The union of `f(x)` over the elements of `xs`. */
  function Union(xs: seq<string>, f: string -> set<Path>): set<Path>
    decreases |xs|
  {
    if xs == [] then {}
    else Union(xs[..|xs| - 1], f) + f(xs[|xs| - 1])
  }

  lemma {:induction false} UnionMembers(xs: seq<string>, f: string -> set<Path>, p: Path)
    ensures p in Union(xs, f) <==> exists i :: 0 <= i < |xs| && p in f(xs[i])
    decreases |xs|
  {
    if xs != [] {
      var n := |xs| - 1;
      var init := xs[..n];
      UnionMembers(init, f, p);
      if p in Union(init, f) {
        var i :| 0 <= i < n && p in f(init[i]);
        assert init[i] == xs[i];
      }
      if exists i :: 0 <= i < |xs| && p in f(xs[i]) {
        var i :| 0 <= i < |xs| && p in f(xs[i]);
        if i < n {
          assert init[i] == xs[i];
        }
      }
    }
  }

  lemma UnionStep(xs: seq<string>, f: string -> set<Path>, i: nat)
    requires i < |xs|
    ensures Union(xs[..i + 1], f) == Union(xs[..i], f) + f(xs[i])
  {
    assert xs[..i + 1][..i] == xs[..i];
  }

  /** The values `f` finds in the elements of `xs`, in order. */
  function Found(xs: seq<string>, f: string -> Option<string>): seq<string>
    decreases |xs|
  {
    if xs == [] then []
    else
      var n := |xs| - 1;
      Found(xs[..n], f) + (match f(xs[n]) case Some(x) => [x] case None => [])
  }

  lemma {:induction false} FoundMembers(xs: seq<string>, f: string -> Option<string>, x: string)
    ensures x in Found(xs, f) <==> exists i :: 0 <= i < |xs| && f(xs[i]) == Some(x)
    decreases |xs|
  {
    if xs != [] {
      var n := |xs| - 1;
      var init := xs[..n];
      FoundMembers(init, f, x);
      if x in Found(init, f) {
        var i :| 0 <= i < n && f(init[i]) == Some(x);
        assert init[i] == xs[i];
      }
      if exists i :: 0 <= i < |xs| && f(xs[i]) == Some(x) {
        var i :| 0 <= i < |xs| && f(xs[i]) == Some(x);
        if i < n {
          assert init[i] == xs[i];
        }
      }
    }
  }

  lemma FoundStep(xs: seq<string>, f: string -> Option<string>, i: nat)
    requires i < |xs|
    ensures Found(xs[..i + 1], f) == Found(xs[..i], f) + (match f(xs[i]) case Some(x) => [x] case None => [])
  {
    assert xs[..i + 1][..i] == xs[..i];
  }

  /** The expansion of a picked path, taken below `base` (`(base_path / path_str).resolve()`). */
  function Picked(fs: FileSystem, base: Path, s: string): set<Path> {
    Expansion(fs, Resolve(base, s))
  }

  function Picks(fs: FileSystem, base: Path): string -> set<Path> {
    s => Picked(fs, base, s)
  }

  /** The walked path itself when it is a kept file. */
  function KeptOne(fs: FileSystem, p: Path): set<Path> {
    if fs.IsFile(p) && !Hidden(p) then {p} else {}
  }

  function KeptFile(fs: FileSystem): Path -> set<Path> {
    p => KeptOne(fs, p)
  }

  /**
   * `sorted(list(final_files))`, where `final_files` gathers the expansions of the paths read from
   * the ticked lines (`selected_paths_str`).
   */
  function Expanded(fs: FileSystem, base: Path, selections: seq<string>): seq<Path> {
    SortSet(Union(Found(selections, ExtractPath), Picks(fs, base)), true)
  }

  /** The `i`-th ticked line names `p`, or a directory that `p` lies in. */
  predicate BringsIn(fs: FileSystem, base: Path, selections: seq<string>, i: nat, p: Path) {
    i < |selections| && ExtractPath(selections[i]).Some? &&
    p in Expansion(fs, Resolve(base, ExtractPath(selections[i]).value))
  }

  lemma ExpandedIn(fs: FileSystem, base: Path, selections: seq<string>, i: nat, p: Path)
    requires BringsIn(fs, base, selections, i, p)
    ensures p in Union(Found(selections, ExtractPath), Picks(fs, base))
  {
    var paths := Found(selections, ExtractPath);
    var x := ExtractPath(selections[i]).value;
    FoundMembers(selections, ExtractPath, x);
    var j :| 0 <= j < |paths| && paths[j] == x;
    assert p in Picked(fs, base, paths[j]);
    UnionMembers(paths, Picks(fs, base), p);
  }

  lemma ExpandedOut(fs: FileSystem, base: Path, selections: seq<string>, p: Path)
    requires p in Union(Found(selections, ExtractPath), Picks(fs, base))
    ensures exists i :: BringsIn(fs, base, selections, i, p)
  {
    var paths := Found(selections, ExtractPath);
    UnionMembers(paths, Picks(fs, base), p);
    var j :| 0 <= j < |paths| && p in Picks(fs, base)(paths[j]);
    assert p in Picked(fs, base, paths[j]);
    FoundMembers(selections, ExtractPath, paths[j]);
    var i :| 0 <= i < |selections| && ExtractPath(selections[i]) == Some(paths[j]);
    assert BringsIn(fs, base, selections, i, p);
  }

  /** A file is in the expansion exactly when some ticked line brings it in. */
  lemma ExpandedMembers(fs: FileSystem, base: Path, selections: seq<string>, p: Path)
    ensures p in Expanded(fs, base, selections) <==> exists i :: BringsIn(fs, base, selections, i, p)
  {
    if p in Expanded(fs, base, selections) {
      ExpandedOut(fs, base, selections, p);
    }
    if exists i :: BringsIn(fs, base, selections, i, p) {
      var i :| BringsIn(fs, base, selections, i, p);
      ExpandedIn(fs, base, selections, i, p);
    }
  }

  lemma ExpandedHoldsFile(fs: FileSystem, base: Path, selections: seq<string>, p: Path)
    requires p in Expanded(fs, base, selections)
    ensures p in fs.files
  {
    ExpandedOut(fs, base, selections, p);
    var i: nat :| BringsIn(fs, base, selections, i, p);
    var full := Resolve(base, ExtractPath(selections[i]).value);
    assert p in Expansion(fs, full);
    if fs.IsDir(full) {
      assert p in fs.files;
    } else {
      assert p == full;
    }
  }

  /** The expansion is sorted, free of duplicates, and holds only files. */
  lemma ExpandedFiles(fs: FileSystem, base: Path, selections: seq<string>)
    ensures StrictlySorted(Expanded(fs, base, selections), true)
    ensures forall p :: p in Expanded(fs, base, selections) ==> p in fs.files
  {
    forall p | p in Expanded(fs, base, selections) ensures p in fs.files {
      ExpandedHoldsFile(fs, base, selections, p);
    }
  }

  /** A ticked folder brings in every kept file below it, however deep. */
  lemma FolderExpands(fs: FileSystem, base: Path, selections: seq<string>, i: nat, p: Path)
    requires i < |selections| && ExtractPath(selections[i]).Some?
    requires fs.IsDir(Resolve(base, ExtractPath(selections[i]).value))
    requires p in fs.files && Below(p, Resolve(base, ExtractPath(selections[i]).value)) && !Hidden(p)
    ensures p in Expanded(fs, base, selections)
  {
    assert BringsIn(fs, base, selections, i, p);
    ExpandedIn(fs, base, selections, i, p);
  }

  /** The files of a walk that the inner loop keeps are those of the expansion. */
  lemma WalkKeepsIn(fs: FileSystem, full: Path, walk: seq<Path>, p: Path)
    requires fs.IsDir(full) && walk == Structure.Walk(fs, full)
    requires p in Expansion(fs, full)
    ensures p in Union(walk, KeptFile(fs))
  {
    UnionMembers(walk, KeptFile(fs), p);
    assert p in walk;
    var i :| 0 <= i < |walk| && walk[i] == p;
    assert p in KeptOne(fs, walk[i]);
  }

  lemma WalkKeepsOut(fs: FileSystem, full: Path, walk: seq<Path>, p: Path)
    requires fs.IsDir(full) && walk == Structure.Walk(fs, full)
    requires p in Union(walk, KeptFile(fs))
    ensures p in Expansion(fs, full)
  {
    UnionMembers(walk, KeptFile(fs), p);
    var i :| 0 <= i < |walk| && p in KeptFile(fs)(walk[i]);
    assert p in KeptOne(fs, walk[i]);
    assert p == walk[i] && p in walk;
  }

  /** The files of a walk that the inner loop keeps are those of the expansion. */
  lemma WalkKeeps(fs: FileSystem, full: Path, walk: seq<Path>)
    requires fs.IsDir(full) && walk == Structure.Walk(fs, full)
    ensures Union(walk, KeptFile(fs)) == Expansion(fs, full)
  {
    forall p ensures p in Union(walk, KeptFile(fs)) <==> p in Expansion(fs, full) {
      if p in Expansion(fs, full) {
        WalkKeepsIn(fs, full, walk, p);
      }
      if p in Union(walk, KeptFile(fs)) {
        WalkKeepsOut(fs, full, walk, p);
      }
    }
  }

  /** The body of the inner loop, over the walked paths in order. */
  method KeepWalked(fs: FileSystem, walk: seq<Path>, start: set<Path>) returns (final: set<Path>)
    ensures final == start + Union(walk, KeptFile(fs))
  {
    final := start;
    for j := 0 to |walk|
      invariant final == start + Union(walk[..j], KeptFile(fs))
    {
      var f := walk[j];
      UnionStep(walk, KeptFile(fs), j);
      assert KeptFile(fs)(f) == KeptOne(fs, f);
      if fs.IsFile(f) && !Hidden(f) {
        final := final + {f};
      }
    }
    assert walk[..|walk|] == walk;
  }

  /** The inner loop over `full_path.rglob('*')`. */
  method AddFilesBelow(fs: FileSystem, full: Path, start: set<Path>) returns (final: set<Path>)
    requires fs.IsDir(full)
    ensures final == start + Expansion(fs, full)
  {
    var walk := Structure.Walk(fs, full);
    final := KeepWalked(fs, walk, start);
    WalkKeeps(fs, full, walk);
  }

  /** The first loop: the paths read from the ticked lines that match. */
  method ReadSelection(selections: seq<string>) returns (selectedPaths: seq<string>)
    ensures selectedPaths == Found(selections, ExtractPath)
  {
    selectedPaths := [];
    for i := 0 to |selections|
      invariant selectedPaths == Found(selections[..i], ExtractPath)
    {
      FoundStep(selections, ExtractPath, i);
      match ExtractPath(selections[i]) {
        case Some(x) => selectedPaths := selectedPaths + [x];
        case None =>
      }
    }
    assert selections[..|selections|] == selections;
  }

  /** The second loop: `final_files` filled from each picked path. */
  method GatherFiles(fs: FileSystem, base: Path, selectedPaths: seq<string>) returns (finalFiles: set<Path>)
    ensures finalFiles == Union(selectedPaths, Picks(fs, base))
  {
    finalFiles := {};
    for i := 0 to |selectedPaths|
      invariant finalFiles == Union(selectedPaths[..i], Picks(fs, base))
    {
      UnionStep(selectedPaths, Picks(fs, base), i);
      var full := Resolve(base, selectedPaths[i]);
      assert Picks(fs, base)(selectedPaths[i]) == Expansion(fs, full);
      if fs.IsDir(full) {
        finalFiles := AddFilesBelow(fs, full, finalFiles);
      } else if fs.IsFile(full) {
        finalFiles := finalFiles + {full};
      }
    }
    assert selectedPaths[..|selectedPaths|] == selectedPaths;
  }

  /** The two loops of `select_files_interactively` after the prompt, and the final sort. */
  method ExpandSelection(fs: FileSystem, base: Path, selections: seq<string>) returns (files: seq<Path>)
    ensures files == Expanded(fs, base, selections)
  {
    var selectedPaths := ReadSelection(selections);
    var finalFiles := GatherFiles(fs, base, selectedPaths);
    files := SortSet(finalFiles, true);
  }

  /**
   * `select_files_interactively`, with the prompt's answer as a parameter (`None` when it is
   * cancelled): `None` where the `NotADirectoryError` of a file base escapes (the tree is drawn
   * before the `try`), nothing without a tree to pick from or without a ticked line.
   */
  function SelectFiles(fs: FileSystem, base: Path, answer: Option<seq<string>>): Option<seq<Path>> {
    match TreeChoices(fs, base)
    case None => None
    case Some(choices) =>
      if choices == [] || answer.None? || answer.value == [] then Some([])
      else Some(Expanded(fs, base, answer.value))
  }

  /**
   * The picker raises exactly for a file base; otherwise it returns a sorted list of distinct
   * files, empty when the base is missing or the prompt is cancelled.
   */
  lemma SelectionIsFiles(fs: FileSystem, base: Path, answer: Option<seq<string>>)
    ensures SelectFiles(fs, base, answer).None? <==> fs.IsFile(base) && !fs.IsDir(base)
    ensures SelectFiles(fs, base, answer).Some? ==> StrictlySorted(SelectFiles(fs, base, answer).value, true)
    ensures SelectFiles(fs, base, answer).Some? ==> forall p :: p in SelectFiles(fs, base, answer).value ==> p in fs.files
    ensures !fs.IsDir(base) && !fs.IsFile(base) ==> SelectFiles(fs, base, answer) == Some([])
    ensures answer.None? && SelectFiles(fs, base, answer).Some? ==> SelectFiles(fs, base, answer) == Some([])
  {
    if TreeChoices(fs, base).Some? && TreeChoices(fs, base).value != [] && answer.Some? && answer.value != [] {
      ExpandedFiles(fs, base, answer.value);
    }
  }
}
