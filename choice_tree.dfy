/**
 * The checklist lines `_build_choices_recursively` of `interactive.py` draws, given the sorted
 * entries of each level: a line per directory ("📁 rel/") followed by its own subtree, a line
 * per shown file ("📄 rel"), each led by the indent of its level and by "├── ", or by "└── "
 * for the last entry. Reading a path back from a ticked line (the `[📁📄]\s(.*)` search) is
 * here too.
 */
module ChoiceTree {
  import opened Wrappers
  import opened Strings

  const Tee := "\U{251C}\U{2500}\U{2500} "     // "├── "
  const Corner := "\U{2514}\U{2500}\U{2500} "  // "└── "
  const Pipe := "\U{2502}   "                  // "│   "
  const Blank := "    "
  const FolderIcon := '\U{1F4C1}'
  const FileIcon := '\U{1F4C4}'

  /** What the walk does with an entry: recurse into it, draw it, or skip it (an excluded file). */
  datatype Kind = Folder | Shown | Skipped

  /** One sorted entry of a level: its path relative to the base, and its own sorted entries. */
  datatype Entry = Entry(rel: string, kind: Kind, children: seq<Entry>)

  function Connector(last: bool): string {
    if last then Corner else Tee
  }

  function DirLine(indent: string, last: bool, rel: string): string {
    indent + Connector(last) + [FolderIcon, ' '] + rel + "/"
  }

  function FileLine(indent: string, last: bool, rel: string): string {
    indent + Connector(last) + [FileIcon, ' '] + rel
  }

  /** The indent the children of an entry are drawn with. */
  function Deeper(indent: string, last: bool): string {
    indent + (if last then Blank else Pipe)
  }

  /** The lines of a level. "Last" is decided over all entries, skipped ones too. */
  function Lines(es: seq<Entry>, indent: string): seq<string>
    decreases es, 1, 0
  {
    LinesUpTo(es, indent, |es|)
  }

  /** The lines of the first `n` entries of a level. */
  function LinesUpTo(es: seq<Entry>, indent: string, n: nat): seq<string>
    requires n <= |es|
    decreases es, 0, n
  {
    if n == 0 then []
    else LinesUpTo(es, indent, n - 1) + EntryLines(es, indent, n - 1)
  }

  /** The lines of the `i`-th entry of a level, its subtree included. */
  function EntryLines(es: seq<Entry>, indent: string, i: nat): seq<string>
    requires i < |es|
    decreases es, 0, i
  {
    var e := es[i];
    var last := i == |es| - 1;
    match e.kind
    case Folder => [DirLine(indent, last, e.rel)] + Lines(e.children, Deeper(indent, last))
    case Shown => [FileLine(indent, last, e.rel)]
    case Skipped => []
  }

  lemma DirLineStarts(indent: string, last: bool, rel: string)
    ensures StartsWith(DirLine(indent, last, rel), indent + Connector(last))
  {
    var head := indent + Connector(last);
    assert DirLine(indent, last, rel) == head + ([FolderIcon, ' '] + rel + "/");
    assert DirLine(indent, last, rel)[..|head|] == head;
  }

  lemma FileLineStarts(indent: string, last: bool, rel: string)
    ensures StartsWith(FileLine(indent, last, rel), indent + Connector(last))
  {
    var head := indent + Connector(last);
    assert FileLine(indent, last, rel) == head + ([FileIcon, ' '] + rel);
    assert FileLine(indent, last, rel)[..|head|] == head;
  }

  lemma StartsWithLonger(line: string, a: string, b: string)
    requires StartsWith(line, a + b)
    ensures StartsWith(line, a)
  {
    assert line[..|a|] == line[..|a + b|][..|a|];
  }

  /**
   * A line of the `i`-th entry starts with the entry's connector (its own line) or with the
   * deeper indent (the lines of its subtree).
   */
  lemma {:induction false} EntryShape(es: seq<Entry>, indent: string, i: nat, line: string)
    requires i < |es| && line in EntryLines(es, indent, i)
    ensures StartsWith(line, indent + Connector(i == |es| - 1)) || StartsWith(line, Deeper(indent, i == |es| - 1))
    decreases es, 0, i, 1
  {
    var e := es[i];
    var last := i == |es| - 1;
    match e.kind
    case Folder =>
      if line == DirLine(indent, last, e.rel) {
        DirLineStarts(indent, last, e.rel);
      } else {
        LinesIndented(e.children, Deeper(indent, last), line);
      }
    case Shown =>
      FileLineStarts(indent, last, e.rel);
    case Skipped =>
      assert false;
  }

  /** Both shapes start with the level's own indent. */
  lemma ShapeIndented(line: string, indent: string, last: bool)
    requires StartsWith(line, indent + Connector(last)) || StartsWith(line, Deeper(indent, last))
    ensures StartsWith(line, indent)
  {
    if StartsWith(line, indent + Connector(last)) {
      StartsWithLonger(line, indent, Connector(last));
    } else {
      StartsWithLonger(line, indent, if last then Blank else Pipe);
    }
  }

  lemma {:induction false} UpToIndented(es: seq<Entry>, indent: string, n: nat, line: string)
    requires n <= |es| && line in LinesUpTo(es, indent, n)
    ensures StartsWith(line, indent)
    decreases es, 0, n
  {
    if line in EntryLines(es, indent, n - 1) {
      EntryShape(es, indent, n - 1, line);
      ShapeIndented(line, indent, n - 1 == |es| - 1);
    } else {
      UpToIndented(es, indent, n - 1, line);
    }
  }

  /** Every line of a level, subtrees included, starts with that level's indent. */
  lemma {:induction false} LinesIndented(es: seq<Entry>, indent: string, line: string)
    requires line in Lines(es, indent)
    ensures StartsWith(line, indent)
    decreases es, 1, 0
  {
    UpToIndented(es, indent, |es|, line);
  }

  /**
   * A directory's line ends in "/" and is followed by its own subtree, each line of which is
   * drawn with the deeper indent: "    " under the last entry, "│   " under the others.
   */
  lemma FolderEntry(es: seq<Entry>, indent: string, i: nat)
    requires i < |es| && es[i].kind == Folder
    ensures EntryLines(es, indent, i)
      == [DirLine(indent, i == |es| - 1, es[i].rel)] + Lines(es[i].children, Deeper(indent, i == |es| - 1))
    ensures EndsWith(DirLine(indent, i == |es| - 1, es[i].rel), "/")
    ensures var deeper := Deeper(indent, i == |es| - 1);
      forall line :: line in Lines(es[i].children, deeper) ==> StartsWith(line, deeper)
  {
    var deeper := Deeper(indent, i == |es| - 1);
    forall line | line in Lines(es[i].children, deeper) ensures StartsWith(line, deeper) {
      LinesIndented(es[i].children, deeper, line);
    }
  }

  /** The entry a line of the first `n` entries was drawn for. */
  lemma {:induction false} EntryOf(es: seq<Entry>, indent: string, n: nat, line: string) returns (i: nat)
    requires n <= |es| && line in LinesUpTo(es, indent, n)
    ensures i < n && line in EntryLines(es, indent, i)
  {
    if line in EntryLines(es, indent, n - 1) {
      i := n - 1;
    } else {
      i := EntryOf(es, indent, n - 1, line);
    }
  }

  /** Two prefixes that differ right after `indent` cannot both start a line. */
  lemma Clash(line: string, indent: string, a: string, b: string)
    requires |a| > 0 && |b| > 0 && a[0] != b[0]
    requires StartsWith(line, indent + a)
    ensures !StartsWith(line, indent + b)
  {
    assert line[|indent|] == (indent + a)[|indent|] == a[0];
  }

  /** A line of an entry other than the last starts with "├── " or "│   ", so not with "└── ". */
  lemma NotClosingEntry(es: seq<Entry>, indent: string, i: nat, line: string)
    requires i + 1 < |es| && line in EntryLines(es, indent, i)
    ensures !StartsWith(line, indent + Corner)
  {
    EntryShape(es, indent, i, line);
    if StartsWith(line, indent + Tee) {
      Clash(line, indent, Tee, Corner);
    } else {
      Clash(line, indent, Pipe, Corner);
    }
  }

  /**
   * When the last entry of a level is skipped, it draws nothing, and no line of the level gets
   * the closing "└── ": the entry before it still shows "├── ".
   */
  lemma SkippedLast(es: seq<Entry>, indent: string)
    requires |es| > 0 && es[|es| - 1].kind == Skipped
    ensures EntryLines(es, indent, |es| - 1) == []
    ensures forall line :: line in Lines(es, indent) ==> !StartsWith(line, indent + Corner)
  {
    forall line | line in Lines(es, indent) ensures !StartsWith(line, indent + Corner) {
      var i := EntryOf(es, indent, |es|, line);
      NotClosingEntry(es, indent, i, line);
    }
  }

  /** Otherwise the last line of the level's own (un-nested) lines is the closing one. */
  lemma {:induction false} ClosedByLast(es: seq<Entry>, indent: string)
    requires |es| > 0 && es[|es| - 1].kind != Skipped
    ensures exists line :: line in Lines(es, indent) && StartsWith(line, indent + Corner)
  {
    var e := es[|es| - 1];
    var line := if e.kind == Folder then DirLine(indent, true, e.rel) else FileLine(indent, true, e.rel);
    if e.kind == Folder {
      DirLineStarts(indent, true, e.rel);
    } else {
      FileLineStarts(indent, true, e.rel);
    }
    assert line in EntryLines(es, indent, |es| - 1);
    assert line in LinesUpTo(es, indent, |es|);
  }

  /** `[📁📄]\s` matches at `k`. */
  predicate IconAt(s: string, k: nat) {
    k + 1 < |s| && (s[k] == FolderIcon || s[k] == FileIcon) && IsSpace(s[k + 1])
  }

  /** The first match of `[📁📄]\s` at or after `i`. */
  function FirstIcon(s: string, i: nat): (r: Option<nat>)
    requires i <= |s|
    ensures r.Some? ==> i <= r.value && IconAt(s, r.value) && forall k :: i <= k < r.value ==> !IconAt(s, k)
    ensures r.None? ==> forall k :: i <= k < |s| ==> !IconAt(s, k)
    decreases |s| - i
  {
    if i == |s| then None
    else if IconAt(s, i) then Some(i)
    else FirstIcon(s, i + 1)
  }

  /**
   * `re.compile(r"[📁📄]\s(.*)").search(selection).group(1)`: the rest of the line after the
   * first icon that is followed by a whitespace character; `None` when there is no such icon.
   */
  function ExtractPath(s: string): (r: Option<string>)
    ensures r.None? <==> forall k :: 0 <= k < |s| ==> !IconAt(s, k)
    ensures r.Some? ==> '\n' !in r.value
  {
    match FirstIcon(s, 0)
    case None => None
    case Some(k) => Some(s[k + 2..LineEnd(s, k + 2)])
  }

  predicate NoIcon(t: string) {
    forall k :: 0 <= k < |t| ==> t[k] != FolderIcon && t[k] != FileIcon
  }

  lemma ExtractAfter(pre: string, icon: char, rel: string)
    requires NoIcon(pre) && (icon == FolderIcon || icon == FileIcon) && '\n' !in rel
    ensures ExtractPath(pre + [icon, ' '] + rel) == Some(rel)
  {
    var s := pre + [icon, ' '] + rel;
    var k := |pre|;
    assert IconAt(s, k);
    assert forall j :: 0 <= j < k ==> !IconAt(s, j) by {
      forall j | 0 <= j < k ensures !IconAt(s, j) {
        assert s[j] == pre[j];
      }
    }
    var f := FirstIcon(s, 0);
    assert f == Some(k);
    assert forall j :: k + 2 <= j < |s| ==> s[j] == rel[j - k - 2];
    assert LineEnd(s, k + 2) == |s|;
    assert s[k + 2..|s|] == rel;
    assert ExtractPath(s) == Some(s[k + 2..LineEnd(s, k + 2)]);
  }

  /**
   * The path read back from a drawn line is the relative path it shows: with the trailing "/"
   * for a directory. This holds whenever the indent holds no icon and the path no line feed.
   */
  lemma ExtractFromChoice(indent: string, last: bool, rel: string)
    requires NoIcon(indent) && '\n' !in rel
    ensures ExtractPath(DirLine(indent, last, rel)) == Some(rel + "/")
    ensures ExtractPath(FileLine(indent, last, rel)) == Some(rel)
  {
    var pre := indent + Connector(last);
    assert NoIcon(pre) by {
      forall k | 0 <= k < |pre| ensures pre[k] != FolderIcon && pre[k] != FileIcon {
        if k >= |indent| {
          assert pre[k] == Connector(last)[k - |indent|];
        }
      }
    }
    assert DirLine(indent, last, rel) == pre + [FolderIcon, ' '] + (rel + "/");
    ExtractAfter(pre, FolderIcon, rel + "/");
    assert FileLine(indent, last, rel) == pre + [FileIcon, ' '] + rel;
    ExtractAfter(pre, FileIcon, rel);
  }

  /** What ticking each drawn line can give back: a directory's path with "/", a file's path. */
  function Drawn(es: seq<Entry>): set<string>
    decreases es, 1, 0
  {
    DrawnUpTo(es, |es|)
  }

  function DrawnUpTo(es: seq<Entry>, n: nat): set<string>
    requires n <= |es|
    decreases es, 0, n
  {
    if n == 0 then {} else DrawnUpTo(es, n - 1) + EntryDrawn(es, n - 1)
  }

  function EntryDrawn(es: seq<Entry>, i: nat): set<string>
    requires i < |es|
    decreases es, 0, i
  {
    var e := es[i];
    match e.kind
    case Folder => {e.rel + "/"} + Drawn(e.children)
    case Shown => {e.rel}
    case Skipped => {}
  }

  /** No relative path in the tree holds a line feed (past one, `(.*)` stops matching). */
  predicate PlainNames(es: seq<Entry>)
    decreases es
  {
    forall i :: 0 <= i < |es| ==> '\n' !in es[i].rel && PlainNames(es[i].children)
  }

  lemma NoIconDeeper(indent: string, last: bool)
    requires NoIcon(indent)
    ensures NoIcon(Deeper(indent, last))
  {
    var t := Deeper(indent, last);
    forall k | 0 <= k < |t| ensures t[k] != FolderIcon && t[k] != FileIcon {
      if k >= |indent| {
        assert t[k] == (if last then Blank else Pipe)[k - |indent|];
      }
    }
  }

  /** Reading a ticked line back gives the path of the entry it was drawn for. */
  lemma {:induction false} EntryReadBack(es: seq<Entry>, indent: string, i: nat, line: string)
    requires NoIcon(indent) && PlainNames(es)
    requires i < |es| && line in EntryLines(es, indent, i)
    ensures ExtractPath(line).Some? && ExtractPath(line).value in EntryDrawn(es, i)
    decreases es, 0, i, 1
  {
    var e := es[i];
    var last := i == |es| - 1;
    assert '\n' !in e.rel && PlainNames(e.children);
    match e.kind
    case Folder =>
      if line == DirLine(indent, last, e.rel) {
        ExtractFromChoice(indent, last, e.rel);
      } else {
        NoIconDeeper(indent, last);
        ReadBack(e.children, Deeper(indent, last), line);
      }
    case Shown =>
      ExtractFromChoice(indent, last, e.rel);
    case Skipped =>
      assert false;
  }

  lemma {:induction false} UpToReadBack(es: seq<Entry>, indent: string, n: nat, line: string)
    requires NoIcon(indent) && PlainNames(es)
    requires n <= |es| && line in LinesUpTo(es, indent, n)
    ensures ExtractPath(line).Some? && ExtractPath(line).value in DrawnUpTo(es, n)
    decreases es, 0, n
  {
    if line in EntryLines(es, indent, n - 1) {
      EntryReadBack(es, indent, n - 1, line);
    } else {
      UpToReadBack(es, indent, n - 1, line);
    }
  }

  /** Every line of the tree reads back as a drawn path. */
  lemma {:induction false} ReadBack(es: seq<Entry>, indent: string, line: string)
    requires NoIcon(indent) && PlainNames(es)
    requires line in Lines(es, indent)
    ensures ExtractPath(line).Some? && ExtractPath(line).value in Drawn(es)
    decreases es, 1, 0
  {
    UpToReadBack(es, indent, |es|, line);
  }

  /** And every drawn path is read back from some line: the line or lines drawn for it. */
  lemma {:induction false} EntryDrawnLine(es: seq<Entry>, indent: string, i: nat, x: string) returns (line: string)
    requires NoIcon(indent) && PlainNames(es)
    requires i < |es| && x in EntryDrawn(es, i)
    ensures line in EntryLines(es, indent, i) && ExtractPath(line) == Some(x)
    decreases es, 0, i, 1
  {
    var e := es[i];
    var last := i == |es| - 1;
    assert '\n' !in e.rel && PlainNames(e.children);
    match e.kind
    case Folder =>
      if x == e.rel + "/" {
        line := DirLine(indent, last, e.rel);
        ExtractFromChoice(indent, last, e.rel);
      } else {
        NoIconDeeper(indent, last);
        line := DrawnLine(e.children, Deeper(indent, last), x);
      }
    case Shown =>
      line := FileLine(indent, last, e.rel);
      ExtractFromChoice(indent, last, e.rel);
    case Skipped =>
      assert false;
  }

  lemma {:induction false} UpToDrawnLine(es: seq<Entry>, indent: string, n: nat, x: string) returns (line: string)
    requires NoIcon(indent) && PlainNames(es)
    requires n <= |es| && x in DrawnUpTo(es, n)
    ensures line in LinesUpTo(es, indent, n) && ExtractPath(line) == Some(x)
    decreases es, 0, n
  {
    if x in EntryDrawn(es, n - 1) {
      line := EntryDrawnLine(es, indent, n - 1, x);
    } else {
      line := UpToDrawnLine(es, indent, n - 1, x);
    }
  }

  lemma {:induction false} DrawnLine(es: seq<Entry>, indent: string, x: string) returns (line: string)
    requires NoIcon(indent) && PlainNames(es)
    requires x in Drawn(es)
    ensures line in Lines(es, indent) && ExtractPath(line) == Some(x)
    decreases es, 1, 0
  {
    line := UpToDrawnLine(es, indent, |es|, x);
  }

  /**
   * What the checklist offers is exactly the drawn paths: each line reads back as one, and each
   * one is read back from a line.
   */
  lemma Selectable(es: seq<Entry>, indent: string, x: string)
    requires NoIcon(indent) && PlainNames(es)
    ensures x in Drawn(es) <==> exists line :: line in Lines(es, indent) && ExtractPath(line) == Some(x)
  {
    if x in Drawn(es) {
      var line := DrawnLine(es, indent, x);
    }
    if exists line :: line in Lines(es, indent) && ExtractPath(line) == Some(x) {
      var line :| line in Lines(es, indent) && ExtractPath(line) == Some(x);
      ReadBack(es, indent, line);
    }
  }
}
