/**
 * The file blocks `_format_context` writes (`context.py`) are exactly what `paste_response`
 * (`parser.py`) reads back: the same paths, in the same order, with the same contents.
 */
module RoundTrip {
  import opened Wrappers
  import opened Strings
  import opened Paths
  import opened Files
  import opened Parser
  import opened ContextFormat

  /** A block the parser can give back unchanged: a path without '>' and code without "\n```". */
  predicate Emittable(b: Block) {
    b.path != "" && '>' !in b.path && !Contains(b.code, CloseFence)
  }

  function Emitted(bs: seq<Block>): (r: seq<string>)
    ensures |r| == |bs|
  {
    if bs == [] then [] else [FileBlock(bs[0].path, bs[0].code)] + Emitted(bs[1..])
  }

  // ------------------------------------------------ reading a block inside a longer text

  lemma SliceAt(s: string, i: nat, f: string, x: nat, y: nat)
    requires i + |f| <= |s| && s[i..i + |f|] == f && x <= y <= |f|
    ensures s[i + x..i + y] == f[x..y]
  {
    forall k | 0 <= k < y - x ensures s[i + x..i + y][k] == f[x..y][k] {
      assert s[i + x + k] == s[i..i + |f|][x + k];
    }
  }

  lemma CharAt(s: string, i: nat, f: string, x: nat)
    requires i + |f| <= |s| && s[i..i + |f|] == f && x < |f|
    ensures s[i + x] == f[x]
  {
    assert s[i..i + |f|][x] == s[i + x];
  }

  /** Where the path of `FileBlock(p, c)` sits. */
  lemma TagLayout(p: string, c: string)
    ensures var f, n := FileBlock(p, c), |p|;
      |f| == 21 + n + |c| && f[..11] == OpenTag && f[11..11 + n] == p && f[11 + n] == '>'
  {
    var f := FileBlock(p, c);
    assert f == OpenTag + p + ">\n```\n" + c + "\n```";
  }

  /** Where the opening fence of `FileBlock(p, c)` sits. */
  lemma FenceLayout(p: string, c: string)
    ensures var f, n := FileBlock(p, c), |p|;
      |f| == 21 + n + |c| && f[12 + n] == '\n' && f[13 + n..16 + n] == Fence && f[16 + n] == '\n'
  {
    var f := FileBlock(p, c);
    assert f == OpenTag + p + ">\n```\n" + c + "\n```";
  }

  /** Where the code and the closing fence of `FileBlock(p, c)` sit. */
  lemma CodeLayout(p: string, c: string)
    ensures var f, n := FileBlock(p, c), |p|;
      |f| == 21 + n + |c| && f[17 + n..17 + n + |c|] == c && f[17 + n + |c|..|f|] == CloseFence
  {
    var f := FileBlock(p, c);
    assert f == OpenTag + p + ">\n```\n" + c + "\n```";
  }

  lemma TagEndAt(s: string, i: nat, g: nat)
    requires OccursAt(s, OpenTag, i) && i + |OpenTag| < g < |s| && s[g] == '>'
    requires forall k :: i + |OpenTag| <= k < g ==> s[k] != '>'
    ensures TagEnd(s, i) == Some(g)
  {
    assert OccursAt(s, ">", g) by { assert s[g..g + 1] == [s[g]]; }
    forall k | i + |OpenTag| <= k < g ensures !OccursAt(s, ">", k) {
      assert s[k..k + 1] == [s[k]];
    }
    FindFirst(s, ">", i + |OpenTag|, g);
  }

  /** `CodeSpan` spelled out in terms of the three searches it makes. */
  lemma CodeSpanSteps(s: string, g: nat, b: nat, n: nat, c: nat)
    requires g < |s| && b == SkipSpace(s, g + 1) && OccursAt(s, Fence, b)
    requires Find(s, "\n", b + 3) == Some(n) && Find(s, CloseFence, n + 1) == Some(c)
    ensures CodeSpan(s, g) == Some((n + 1, c))
  {
    FencedCodeSteps(s, b, n, c);
  }

  lemma FencedCodeSteps(s: string, b: nat, n: nat, c: nat)
    requires OccursAt(s, Fence, b)
    requires Find(s, "\n", b + 3) == Some(n) && Find(s, CloseFence, n + 1) == Some(c)
    ensures FencedCode(s, b) == Some((n + 1, c))
  {
  }

  /** No "\n```" starts inside the code of a block, nor in its last three characters. */
  lemma NoCloseInCode(s: string, lo: nat, c: string)
    requires lo + |c| + |CloseFence| <= |s| && s[lo..lo + |c|] == c && !Contains(c, CloseFence)
    requires s[lo + |c|] == '\n'
    ensures forall k :: lo <= k < lo + |c| ==> !OccursAt(s, CloseFence, k)
  {
    var e := lo + |c|;
    forall k | lo <= k < e ensures !OccursAt(s, CloseFence, k) {
      if k + 4 <= e {
        if OccursAt(s, CloseFence, k) {
          SliceAt(s, lo, c, k - lo, k - lo + 4);
          assert OccursAt(c, CloseFence, k - lo);
          assert false;
        }
      } else {
        assert s[k..k + 4][e - k] == s[e];
      }
    }
  }

  /** The path of an emitted block at index `i` ends at its '>'. */
  lemma TagPart(s: string, i: nat, b: Block)
    requires Emittable(b)
    requires i + |FileBlock(b.path, b.code)| <= |s| && s[i..i + |FileBlock(b.path, b.code)|] == FileBlock(b.path, b.code)
    ensures TagEnd(s, i) == Some(i + 11 + |b.path|) && s[i + 11..i + 11 + |b.path|] == b.path
  {
    var p, f := b.path, FileBlock(b.path, b.code);
    TagLayout(p, b.code);
    var g := i + 11 + |p|;
    SliceAt(s, i, f, 0, 11);
    SliceAt(s, i, f, 11, 11 + |p|);
    CharAt(s, i, f, 11 + |p|);
    forall k | i + 11 <= k < g ensures s[k] != '>' {
      assert s[k] == s[i + 11..g][k - i - 11];
      assert p[k - i - 11] in p;
    }
    TagEndAt(s, i, g);
  }

  /** After that '>': a newline, the fence and the newline that ends the info line. */
  lemma FencePart(s: string, i: nat, b: Block, g: nat)
    requires i + |FileBlock(b.path, b.code)| <= |s| && s[i..i + |FileBlock(b.path, b.code)|] == FileBlock(b.path, b.code)
    requires g == i + 11 + |b.path|
    ensures g + 6 < |s| && SkipSpace(s, g + 1) == g + 2 && OccursAt(s, Fence, g + 2) && Find(s, "\n", g + 5) == Some(g + 5)
  {
    var p, f := b.path, FileBlock(b.path, b.code);
    FenceLayout(p, b.code);
    CharAt(s, i, f, 12 + |p|);
    CharAt(s, i, f, 13 + |p|);
    assert SkipSpace(s, g + 1) == g + 2;
    SliceAt(s, i, f, 13 + |p|, 16 + |p|);
    CharAt(s, i, f, 16 + |p|);
    assert OccursAt(s, "\n", g + 5) by { assert s[g + 5..g + 6] == [s[g + 5]]; }
  }

  /** After the info line: the code, then the closing fence. */
  lemma CodePart(s: string, i: nat, b: Block, g: nat)
    requires i + |FileBlock(b.path, b.code)| <= |s| && s[i..i + |FileBlock(b.path, b.code)|] == FileBlock(b.path, b.code)
    requires g == i + 11 + |b.path|
    ensures var e := g + 6 + |b.code|;
      e + |CloseFence| <= |s| && s[g + 6..e] == b.code && OccursAt(s, CloseFence, e) && s[e] == '\n'
  {
    var p, c := b.path, b.code;
    var f := FileBlock(p, c);
    CodeLayout(p, c);
    var e := g + 6 + |c|;
    SliceAt(s, i, f, 17 + |p|, 17 + |p| + |c|);
    SliceAt(s, i, f, 17 + |p| + |c|, |f|);
    assert s[e] == s[e..e + 4][0];
  }

  /** The code of the block runs up to its closing fence, the first one after the info line. */
  lemma ClosePart(s: string, i: nat, b: Block, g: nat)
    requires Emittable(b)
    requires i + |FileBlock(b.path, b.code)| <= |s| && s[i..i + |FileBlock(b.path, b.code)|] == FileBlock(b.path, b.code)
    requires g == i + 11 + |b.path|
    ensures Find(s, CloseFence, g + 6) == Some(g + 6 + |b.code|) && s[g + 6..g + 6 + |b.code|] == b.code
  {
    CodePart(s, i, b, g);
    NoCloseInCode(s, g + 6, b.code);
    FindFirst(s, CloseFence, g + 6, g + 6 + |b.code|);
  }

  lemma FileBlockLength(p: string, c: string)
    ensures |FileBlock(p, c)| == 21 + |p| + |c|
  {
  }

  /** `MatchAt` spelled out in terms of where the path and the code end. */
  lemma MatchSteps(s: string, i: nat, g: nat, c0: nat, c1: nat)
    requires g < |s| && TagEnd(s, i) == Some(g) && CodeSpan(s, g) == Some((c0, c1))
    ensures MatchAt(s, i) == Some(Match(Block(s[i + |OpenTag|..g], s[c0..c1]), c1 + |CloseFence|))
  {
  }

  /** A match read off the positions of its pieces. */
  lemma MatchFromParts(s: string, i: nat, b: Block, g: nat)
    requires g + 6 < |s| && TagEnd(s, i) == Some(g) && s[i + |OpenTag|..g] == b.path
    requires SkipSpace(s, g + 1) == g + 2 && OccursAt(s, Fence, g + 2) && Find(s, "\n", g + 5) == Some(g + 5)
    requires Find(s, CloseFence, g + 6) == Some(g + 6 + |b.code|) && s[g + 6..g + 6 + |b.code|] == b.code
    ensures MatchAt(s, i) == Some(Match(b, g + 10 + |b.code|))
  {
    CodeSpanSteps(s, g, g + 2, g + 5, g + 6 + |b.code|);
    MatchSteps(s, i, g, g + 6, g + 6 + |b.code|);
  }

  /** An emitted block at index `i` is one match, ending where the block ends. */
  lemma BlockAt(s: string, i: nat, b: Block)
    requires Emittable(b)
    requires i + |FileBlock(b.path, b.code)| <= |s| && s[i..i + |FileBlock(b.path, b.code)|] == FileBlock(b.path, b.code)
    ensures MatchAt(s, i) == Some(Match(b, i + |FileBlock(b.path, b.code)|))
  {
    var g := i + 11 + |b.path|;
    TagPart(s, i, b);
    FencePart(s, i, b, g);
    ClosePart(s, i, b, g);
    MatchFromParts(s, i, b, g);
    FileBlockLength(b.path, b.code);
  }

  /** No match starts at a character other than '<'. */
  lemma NoMatchAt(s: string, j: nat)
    requires j < |s| && s[j] != '<'
    ensures MatchAt(s, j).None?
  {
    assert !OccursAt(s, OpenTag, j) by {
      if j + |OpenTag| <= |s| {
        assert s[j..j + |OpenTag|][0] == s[j];
      }
    }
  }

  lemma ScanMatch(s: string, i: nat, m: Match)
    requires i < |s| && MatchAt(s, i) == Some(m)
    ensures Scan(s, i) == [m.block] + Scan(s, m.end)
  {
  }

  /** A match ending at `k`, then two indices where none starts: the scan resumes at `k + 2`. */
  lemma ScanSteps(s: string, i: nat, b: Block, k: nat)
    requires i < |s| && k + 1 < |s| && MatchAt(s, i) == Some(Match(b, k))
    requires MatchAt(s, k).None? && MatchAt(s, k + 1).None?
    ensures Scan(s, i) == [b] + Scan(s, k + 2)
  {
    ScanMatch(s, i, Match(b, k));
    assert Scan(s, k) == Scan(s, k + 1);
  }

  /** A block followed by a blank line is one match, and the scan goes on after the blank line. */
  lemma BlockThenBlank(s: string, i: nat, b: Block)
    requires Emittable(b)
    requires i + |FileBlock(b.path, b.code)| + 2 <= |s| && s[i..i + |FileBlock(b.path, b.code)|] == FileBlock(b.path, b.code)
    requires s[i + |FileBlock(b.path, b.code)|] == '\n' && s[i + |FileBlock(b.path, b.code)| + 1] == '\n'
    ensures Scan(s, i) == [b] + Scan(s, i + |FileBlock(b.path, b.code)| + 2)
  {
    var k := i + |FileBlock(b.path, b.code)|;
    BlockAt(s, i, b);
    NoMatchAt(s, k);
    NoMatchAt(s, k + 1);
    ScanSteps(s, i, b, k);
  }

  lemma JoinFirst(bs: seq<Block>)
    requires |bs| >= 2
    ensures JoinWith("\n\n", Emitted(bs)) ==
      FileBlock(bs[0].path, bs[0].code) + "\n\n" + JoinWith("\n\n", Emitted(bs[1..]))
  {
    assert Emitted(bs)[1..] == Emitted(bs[1..]);
  }

  lemma SuffixParts(s: string, i: nat, f: string, more: string)
    requires i <= |s| && s[i..] == f + "\n\n" + more
    ensures i + |f| + 2 <= |s| && s[i..i + |f|] == f && s[i + |f|] == '\n' && s[i + |f| + 1] == '\n'
    ensures s[i + |f| + 2..] == more
  {
    assert s[i..i + |f|] == s[i..][..|f|];
    assert s[i + |f|] == s[i..][|f|] && s[i + |f| + 1] == s[i..][|f| + 1];
    assert s[i + |f| + 2..] == s[i..][|f| + 2..];
  }

  /** The first block and the blank line after it, when more blocks follow. */
  lemma ScanFirst(s: string, i: nat, bs: seq<Block>)
    requires |bs| >= 2 && Emittable(bs[0])
    requires i <= |s| && s[i..] == JoinWith("\n\n", Emitted(bs))
    ensures var j := i + |FileBlock(bs[0].path, bs[0].code)| + 2;
      j <= |s| && s[j..] == JoinWith("\n\n", Emitted(bs[1..])) && Scan(s, i) == [bs[0]] + Scan(s, j)
  {
    var f := FileBlock(bs[0].path, bs[0].code);
    JoinFirst(bs);
    SuffixParts(s, i, f, JoinWith("\n\n", Emitted(bs[1..])));
    BlockThenBlank(s, i, bs[0]);
  }

  /** The last block. */
  lemma ScanLast(s: string, i: nat, bs: seq<Block>)
    requires |bs| == 1 && Emittable(bs[0])
    requires i <= |s| && s[i..] == JoinWith("\n\n", Emitted(bs))
    ensures Scan(s, i) == bs
  {
    var f := FileBlock(bs[0].path, bs[0].code);
    assert s[i..] == f;
    assert s[i..i + |f|] == f;
    BlockAt(s, i, bs[0]);
    ScanMatch(s, i, Match(bs[0], i + |f|));
    assert Scan(s, i + |f|) == [];
  }

  /** The blocks emitted from index `i` on, joined by blank lines, are what the scan finds there. */
  lemma {:induction false} ScanJoined(s: string, i: nat, bs: seq<Block>)
    requires forall k :: 0 <= k < |bs| ==> Emittable(bs[k])
    requires i <= |s| && s[i..] == JoinWith("\n\n", Emitted(bs))
    ensures Scan(s, i) == bs
    decreases |bs|
  {
    if bs == [] {
      assert |s[i..]| == 0;
    } else if |bs| == 1 {
      ScanLast(s, i, bs);
    } else {
      var j := i + |FileBlock(bs[0].path, bs[0].code)| + 2;
      ScanFirst(s, i, bs);
      ScanJoined(s, j, bs[1..]);
      ScanCons(Scan(s, i), Scan(s, j), bs);
    }
  }

  lemma ScanCons(whole: seq<Block>, rest: seq<Block>, bs: seq<Block>)
    requires bs != [] && whole == [bs[0]] + rest && rest == bs[1..]
    ensures whole == bs
  {
    assert [bs[0]] + bs[1..] == bs;
  }

  /** Blocks joined with blank lines, as `_format_context` joins them, parse back to themselves. */
  lemma ScanEmitted(bs: seq<Block>)
    requires forall k :: 0 <= k < |bs| ==> Emittable(bs[k])
    ensures Scan(JoinWith("\n\n", Emitted(bs)), 0) == bs
  {
    var s := JoinWith("\n\n", Emitted(bs));
    assert s[0..] == s;
    ScanJoined(s, 0, bs);
  }

  // ------------------------------------------------ back to the same file

  /** A resolved path with no space at its end is its own write target. */
  lemma TargetOf(cwd: Path, b: Block)
    requires IsNormal(b.path) && !IsSpace(b.path[|b.path| - 1])
    ensures JobOf(cwd, b) == Some(Job(b.path, AncestorsOrSelf(Parent(b.path)), b.code))
  {
    assert b.path[0] == '/';
    StripUnchanged(b.path);
    ResolveNormal(cwd, Strip(b.path));
  }

  /** The blocks a list of readable files should parse back to. */
  function ReadBlocks(fs: FileSystem, paths: seq<Path>): (r: seq<Block>)
    requires forall k :: 0 <= k < |paths| ==> ReadText(fs, paths[k]).Some?
    ensures |r| == |paths| && forall k :: 0 <= k < |paths| ==> r[k].path == paths[k]
  {
    seq(|paths|, k requires 0 <= k < |paths| => Block(paths[k], ReadText(fs, paths[k]).value))
  }

  /** The files section parses back to the files it shows, in order. */
  lemma FilesSectionParses(fs: FileSystem, paths: seq<Path>)
    requires forall k :: 0 <= k < |paths| ==> ReadText(fs, paths[k]).Some?
    requires forall k :: 0 <= k < |paths| ==>
      paths[k] != "" && '>' !in paths[k] && !Contains(ReadText(fs, paths[k]).value, CloseFence)
    ensures Scan(JoinWith("\n\n", FileBlocks(fs, paths)), 0) == ReadBlocks(fs, paths)
  {
    AllReadable(fs, paths);
    var bs := ReadBlocks(fs, paths);
    EmittedOf(fs, paths, bs);
    ScanEmitted(bs);
  }

  /**
   * The files section of a context built from readable files parses back to those files and
   * their contents, and each block writes to the file it came from.
   */
  lemma FilesSectionRoundTrip(cwd: Path, fs: FileSystem, paths: seq<Path>)
    requires forall k :: 0 <= k < |paths| ==> ReadText(fs, paths[k]).Some?
    requires forall k :: 0 <= k < |paths| ==>
      IsNormal(paths[k]) && !IsSpace(paths[k][|paths[k]| - 1]) && '>' !in paths[k] &&
      !Contains(ReadText(fs, paths[k]).value, CloseFence)
    ensures var bs := Scan(JoinWith("\n\n", FileBlocks(fs, paths)), 0);
      |bs| == |paths| &&
      forall k :: 0 <= k < |paths| ==>
        bs[k] == Block(paths[k], ReadText(fs, paths[k]).value) &&
        JobOf(cwd, bs[k]) == Some(Job(paths[k], AncestorsOrSelf(Parent(paths[k])), bs[k].code))
  {
    forall k | 0 <= k < |paths| ensures paths[k] != "" {
      assert paths[k][0] == '/';
    }
    FilesSectionParses(fs, paths);
    var bs := ReadBlocks(fs, paths);
    forall k | 0 <= k < |paths|
      ensures JobOf(cwd, bs[k]) == Some(Job(paths[k], AncestorsOrSelf(Parent(paths[k])), bs[k].code))
    {
      TargetOf(cwd, bs[k]);
    }
  }

  lemma {:induction false} EmittedOf(fs: FileSystem, paths: seq<Path>, bs: seq<Block>)
    requires |FileBlocks(fs, paths)| == |paths| == |bs|
    requires forall k :: 0 <= k < |paths| ==>
      (bs[k].path == paths[k] && FileBlocks(fs, paths)[k] == FileBlock(paths[k], bs[k].code))
    ensures Emitted(bs) == FileBlocks(fs, paths)
    decreases |bs|
  {
    var e := Emitted(bs);
    forall k | 0 <= k < |bs| ensures e[k] == FileBlock(bs[k].path, bs[k].code) {
      EmittedAt(bs, k);
    }
  }

  lemma {:induction false} EmittedAt(bs: seq<Block>, k: nat)
    requires k < |bs|
    ensures Emitted(bs)[k] == FileBlock(bs[k].path, bs[k].code)
    decreases k
  {
    if k > 0 {
      EmittedAt(bs[1..], k - 1);
    }
  }
}
