/**
 * `generate_source_tree` in `context.py`: the listed paths, relative to the base directory,
 * folded into a tree of names and drawn with box characters, directories before files.
 */
module SourceTree {
  import opened Wrappers
  import opened Strings
  import opened Sorting
  import opened Paths

  /** A nested dictionary: a name with no children is `{}` (a file, or an empty entry). */
  datatype Tree = Node(children: map<string, Tree>)

  const NoFilesMessage := "No files found matching the criteria."
  const LastBranch := "└── "
  const MidBranch := "├── "
  const LastIndent := "    "
  const MidIndent := "│   "

  /** `q` is the list of names on the way from the root of `t` to some node. */
  ghost predicate HasPath(t: Tree, q: seq<string>)
    decreases |q|
  {
    q == [] || (q[0] in t.children && HasPath(t.children[q[0]], q[1..]))
  }

  predicate IsPrefix(q: seq<string>, ps: seq<string>) {
    |q| <= |ps| && ps[..|q|] == q
  }

  /** `level = tree; for part in parts: level = level.setdefault(part, {})` */
  function Insert(t: Tree, parts: seq<string>): Tree
    decreases |parts|
  {
    if parts == [] then t
    else
      var child := if parts[0] in t.children then t.children[parts[0]] else Node(map[]);
      Node(t.children[parts[0] := Insert(child, parts[1..])])
  }

  /** Inserting a name list adds exactly its prefixes as paths of the tree. */
  lemma {:induction false} InsertPaths(t: Tree, parts: seq<string>, q: seq<string>)
    ensures HasPath(Insert(t, parts), q) <==> HasPath(t, q) || IsPrefix(q, parts)
    decreases |parts|
  {
    if parts != [] && q != [] {
      var child := if parts[0] in t.children then t.children[parts[0]] else Node(map[]);
      if q[0] == parts[0] {
        InsertPaths(child, parts[1..], q[1..]);
        assert IsPrefix(q, parts) <==> IsPrefix(q[1..], parts[1..]) by {
          assert |q| <= |parts| ==> (parts[..|q|] == q <==> parts[1..][..|q| - 1] == q[1..]) by {
            if |q| <= |parts| {
              assert parts[..|q|] == [parts[0]] + parts[1..][..|q| - 1];
              assert q == [q[0]] + q[1..];
            }
          }
        }
        if parts[0] !in t.children {
          EmptyPaths(q[1..]);
        }
      }
    }
  }

  lemma EmptyPaths(q: seq<string>)
    ensures HasPath(Node(map[]), q) <==> q == []
  {
  }

  /** `path.relative_to(base).parts`, or `path.parts` (root first) when it is not below `base`. */
  function RelParts(base: Path, p: Path): seq<string> {
    match RelativeParts(p, base)
    case Some(ps) => ps
    case None => ["/"] + Parts(p)
  }

  /** The tree after the loop has seen `paths`. */
  function TreeOf(base: Path, paths: seq<Path>): Tree
    decreases |paths|
  {
    if paths == [] then Node(map[])
    else Insert(TreeOf(base, paths[..|paths| - 1]), RelParts(base, paths[|paths| - 1]))
  }

  /** The tree holds exactly the prefixes of the listed name lists. */
  lemma {:induction false} TreeOfPaths(base: Path, paths: seq<Path>, q: seq<string>)
    ensures HasPath(TreeOf(base, paths), q) <==>
      q == [] || exists i :: 0 <= i < |paths| && IsPrefix(q, RelParts(base, paths[i]))
    decreases |paths|
  {
    if paths == [] {
      EmptyPaths(q);
    } else {
      var n := |paths| - 1;
      TreeOfPaths(base, paths[..n], q);
      InsertPaths(TreeOf(base, paths[..n]), RelParts(base, paths[n]), q);
      if exists i :: 0 <= i < |paths| && IsPrefix(q, RelParts(base, paths[i])) {
        var i :| 0 <= i < |paths| && IsPrefix(q, RelParts(base, paths[i]));
        if i < n {
          assert paths[..n][i] == paths[i];
        }
      }
      if exists i :: 0 <= i < n && IsPrefix(q, RelParts(base, paths[..n][i])) {
        var i :| 0 <= i < n && IsPrefix(q, RelParts(base, paths[..n][i]));
        assert paths[..n][i] == paths[i];
      }
    }
  }

  /** The loop of `generate_source_tree` that builds the nested dictionary. */
  method BuildTree(base: Path, paths: seq<Path>) returns (t: Tree)
    ensures t == TreeOf(base, paths)
  {
    t := Node(map[]);
    for i := 0 to |paths|
      invariant t == TreeOf(base, paths[..i])
    {
      assert paths[..i + 1][..i] == paths[..i];
      t := Insert(t, RelParts(base, paths[i]));
    }
    assert paths[..|paths|] == paths;
  }

  /** The names whose entry has children of its own. */
  function Inner(t: Tree): set<string> {
    set x | x in t.children && t.children[x].children != map[]
  }

  /** The names whose entry is empty. */
  function Leaves(t: Tree): set<string> {
    set x | x in t.children && t.children[x].children == map[]
  }

  /** `sorted(tree_dict.items(), key=lambda i: (not i[1], i[0]))`: names with children first. */
  function Items(t: Tree): (r: seq<string>)
    ensures forall k :: 0 <= k < |r| ==> r[k] in t.children
    ensures forall x :: x in t.children ==> x in r
  {
    var a, b := SortSet(Inner(t), false), SortSet(Leaves(t), false);
    ItemsCover(t, a, b);
    a + b
  }

  lemma ItemsCover(t: Tree, a: seq<string>, b: seq<string>)
    requires forall x :: x in a <==> x in Inner(t)
    requires forall x :: x in b <==> x in Leaves(t)
    ensures forall k :: 0 <= k < |a + b| ==> (a + b)[k] in t.children
    ensures forall x :: x in t.children ==> x in a + b
  {
    forall k | 0 <= k < |a + b| ensures (a + b)[k] in t.children {
      if k < |a| {
        assert a[k] in a;
      } else {
        assert b[k - |a|] in b;
      }
    }
  }

  predicate HasChildren(t: Tree, x: string)
    requires x in t.children
  {
    t.children[x].children != map[]
  }

  /**
   * The order of `Items`: every name with children comes before every name without, and names
   * of the same kind are in increasing string order.
   */
  lemma ItemsOrder(t: Tree)
    ensures forall i, j :: 0 <= i < j < |Items(t)| ==>
      (HasChildren(t, Items(t)[i]) && !HasChildren(t, Items(t)[j]))
      || (HasChildren(t, Items(t)[i]) == HasChildren(t, Items(t)[j]) && Less(Items(t)[i], Items(t)[j], false))
  {
    var a, b := SortSet(Inner(t), false), SortSet(Leaves(t), false);
    assert Items(t) == a + b;
    forall i, j | 0 <= i < j < |a + b|
      ensures (HasChildren(t, (a + b)[i]) && !HasChildren(t, (a + b)[j]))
        || (HasChildren(t, (a + b)[i]) == HasChildren(t, (a + b)[j]) && Less((a + b)[i], (a + b)[j], false))
    {
      if j < |a| {
        assert a[i] in Inner(t) && a[j] in Inner(t);
      } else if i >= |a| {
        assert b[i - |a|] in Leaves(t) && b[j - |a|] in Leaves(t);
      } else {
        assert a[i] in Inner(t) && b[j - |a|] in Leaves(t);
      }
    }
  }

  function Connector(last: bool): string {
    if last then LastBranch else MidBranch
  }

  /** `_format_tree(tree_dict, indent)` */
  function FormatTree(t: Tree, indent: string): seq<string>
    decreases t, 1
  {
    FormatItems(t, Items(t), 0, indent)
  }

  /** The lines for `items[i..]`, each item followed by the lines of its children. */
  function FormatItems(t: Tree, items: seq<string>, i: nat, indent: string): seq<string>
    requires forall k :: 0 <= k < |items| ==> items[k] in t.children
    decreases t, 0, |items| - i
  {
    if i >= |items| then []
    else
      var last := i == |items| - 1;
      var node := t.children[items[i]];
      var below := if node.children != map[] then FormatTree(node, indent + (if last then LastIndent else MidIndent)) else [];
      [indent + Connector(last) + items[i]] + below + FormatItems(t, items, i + 1, indent)
  }

  /** The line is drawn at the level of `indent` (not a descendant's line). */
  predicate AtLevel(indent: string, line: string) {
    |line| > |indent| && (line[|indent|] == '└' || line[|indent|] == '├')
  }

  function ItemLines(items: seq<string>, i: nat, indent: string): seq<string>
    decreases |items| - i
  {
    if i >= |items| then [] else [indent + Connector(i == |items| - 1) + items[i]] + ItemLines(items, i + 1, indent)
  }

  lemma {:induction false} FormatLinesStart(t: Tree, indent: string)
    ensures forall k :: 0 <= k < |FormatTree(t, indent)| ==> StartsWith(FormatTree(t, indent)[k], indent)
    decreases t, 1
  {
    FormatItemsStart(t, Items(t), 0, indent);
  }

  lemma {:induction false} FormatItemsStart(t: Tree, items: seq<string>, i: nat, indent: string)
    requires forall k :: 0 <= k < |items| ==> items[k] in t.children
    ensures forall k :: 0 <= k < |FormatItems(t, items, i, indent)| ==> StartsWith(FormatItems(t, items, i, indent)[k], indent)
    decreases t, 0, |items| - i
  {
    if i < |items| {
      var last := i == |items| - 1;
      var node := t.children[items[i]];
      var ext := indent + (if last then LastIndent else MidIndent);
      var below := if node.children != map[] then FormatTree(node, ext) else [];
      var rest := FormatItems(t, items, i + 1, indent);
      var line := indent + Connector(last) + items[i];
      if node.children != map[] {
        FormatLinesStart(node, ext);
        forall k | 0 <= k < |below| ensures StartsWith(below[k], indent) {
          PrefixOfPrefix(below[k], ext, indent);
        }
      }
      FormatItemsStart(t, items, i + 1, indent);
      assert line[..|indent|] == indent;
      AllStartConcat([line], below, rest, indent);
    }
  }

  lemma PrefixOfPrefix(line: string, ext: string, indent: string)
    requires StartsWith(line, ext) && StartsWith(ext, indent)
    ensures StartsWith(line, indent)
  {
    assert line[..|indent|] == ext[..|indent|];
  }

  lemma AllStartConcat(a: seq<string>, b: seq<string>, c: seq<string>, indent: string)
    requires forall k :: 0 <= k < |a| ==> StartsWith(a[k], indent)
    requires forall k :: 0 <= k < |b| ==> StartsWith(b[k], indent)
    requires forall k :: 0 <= k < |c| ==> StartsWith(c[k], indent)
    ensures forall k :: 0 <= k < |a + b + c| ==> StartsWith((a + b + c)[k], indent)
  {
    forall k | 0 <= k < |a + b + c| ensures StartsWith((a + b + c)[k], indent) {
      if k < |a| {
        assert (a + b + c)[k] == a[k];
      } else if k < |a| + |b| {
        assert (a + b + c)[k] == b[k - |a|];
      } else {
        assert (a + b + c)[k] == c[k - |a| - |b|];
      }
    }
  }

  /**
   * Read at the level of `indent`, the drawing is one line per item, in `Items` order, the last
   * with "└── " and every other with "├── "; the lines of children are indented further.
   */
  lemma {:induction false} FormatTopLevel(t: Tree, indent: string)
    ensures Filter(FormatTree(t, indent), l => AtLevel(indent, l)) == ItemLines(Items(t), 0, indent)
  {
    FormatItemsTopLevel(t, Items(t), 0, indent);
  }

  lemma {:induction false} FormatItemsTopLevel(t: Tree, items: seq<string>, i: nat, indent: string)
    requires forall k :: 0 <= k < |items| ==> items[k] in t.children
    ensures Filter(FormatItems(t, items, i, indent), l => AtLevel(indent, l)) == ItemLines(items, i, indent)
    decreases |items| - i
  {
    var f := (l: string) => AtLevel(indent, l);
    if i < |items| {
      var last := i == |items| - 1;
      var node := t.children[items[i]];
      var ext := indent + (if last then LastIndent else MidIndent);
      var below := if node.children != map[] then FormatTree(node, ext) else [];
      var line := indent + Connector(last) + items[i];
      assert line[|indent|] == Connector(last)[0];
      assert AtLevel(indent, line);
      var single: seq<string> := [line];
      assert Filter(single, f) == single by {
        assert single[1..] == [];
      }
      if node.children != map[] {
        FormatLinesStart(node, ext);
        forall k | 0 <= k < |below| ensures !AtLevel(indent, below[k]) {
          assert StartsWith(below[k], ext);
          assert below[k][|indent|] == ext[|indent|];
        }
      }
      NoneKept(below, f);
      FormatItemsTopLevel(t, items, i + 1, indent);
      FilterConcat([line] + below, FormatItems(t, items, i + 1, indent), f);
      FilterConcat([line], below, f);
    }
  }

  lemma {:induction false} NoneKept(s: seq<string>, f: string -> bool)
    requires forall k :: 0 <= k < |s| ==> !f(s[k])
    ensures Filter(s, f) == []
    decreases |s|
  {
    if s != [] {
      NoneKept(s[1..], f);
    }
  }

  /** `generate_source_tree(base_path, file_paths)` */
  method GenerateSourceTree(base: Path, paths: seq<Path>) returns (r: string)
    ensures paths == [] ==> r == NoFilesMessage
    ensures paths != [] ==> r == Name(base) + "\n" + JoinWith("\n", FormatTree(TreeOf(base, paths), ""))
  {
    if paths == [] {
      return NoFilesMessage;
    }
    var t := BuildTree(base, paths);
    r := Name(base) + "\n" + JoinWith("\n", FormatTree(t, ""));
  }

  /** The text `generate_source_tree` returns. */
  function SourceTreeText(base: Path, paths: seq<Path>): string {
    if paths == [] then NoFilesMessage else Name(base) + "\n" + JoinWith("\n", FormatTree(TreeOf(base, paths), ""))
  }
}
