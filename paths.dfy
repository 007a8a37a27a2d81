/**
 * Paths the way Python's `pathlib` treats them on POSIX. A `Path` is the text of an absolute
 * path ("/" or "/a/b"); `Path.resolve()` is modelled as lexical normalisation (".." pops a
 * component), without symbolic links.
 */
module Paths {
  import opened Wrappers
  import opened Strings

  type Path = string

  predicate IsAbsolute(s: string) {
    |s| > 0 && s[0] == '/'
  }

  /** `s.split('/')` */
  function Pieces(s: string): (r: seq<string>)
    ensures |r| >= 1
    ensures forall k :: 0 <= k < |r| ==> '/' !in r[k]
  {
    if s == [] then [""]
    else if s[0] == '/' then [""] + Pieces(s[1..])
    else
      var rest := Pieces(s[1..]);
      [[s[0]] + rest[0]] + rest[1..]
  }

  /** A component as pathlib keeps it: not empty, not ".", no separator. */
  predicate IsPart(x: string) {
    x != "" && x != "." && '/' !in x
  }

  predicate AllParts(ps: seq<string>) {
    forall k :: 0 <= k < |ps| ==> IsPart(ps[k])
  }

  function KeepParts(ps: seq<string>): (r: seq<string>)
    ensures AllParts(r)
    ensures AllParts(ps) ==> r == ps
  {
    if ps == [] then []
    else if IsPart(ps[0]) then [ps[0]] + KeepParts(ps[1..])
    else KeepParts(ps[1..])
  }

  /** The components of a path text (`PurePath(s).parts` without the root). */
  function Components(s: string): (r: seq<string>)
    ensures AllParts(r)
  {
    KeepParts(Pieces(s))
  }

  /** The absolute path with the given components. */
  function FromParts(ps: seq<string>): Path {
    "/" + JoinWith("/", ps)
  }

  lemma {:induction false} PiecesSlash(a: string, b: string)
    ensures Pieces(a + "/" + b) == Pieces(a) + Pieces(b)
    decreases |a|
  {
    var s := a + "/" + b;
    if a == [] {
      assert s == "/" + b;
      assert s[1..] == b;
    } else {
      assert s[0] == a[0];
      assert s[1..] == a[1..] + "/" + b;
      PiecesSlash(a[1..], b);
      var left := Pieces(a[1..]);
      if a[0] == '/' {
        assert Pieces(s) == [""] + (left + Pieces(b));
        assert Pieces(a) == [""] + left;
      } else {
        var rest := left + Pieces(b);
        assert rest[0] == left[0] && rest[1..] == left[1..] + Pieces(b);
        assert Pieces(s) == [[a[0]] + rest[0]] + rest[1..];
        assert Pieces(a) == [[a[0]] + left[0]] + left[1..];
      }
    }
  }

  lemma {:induction false} PiecesOfPart(x: string)
    requires '/' !in x
    ensures Pieces(x) == [x]
    decreases |x|
  {
    if x != [] {
      forall i | 0 <= i < |x[1..]| ensures x[1..][i] != '/' {
        assert x[1..][i] == x[i + 1];
      }
      PiecesOfPart(x[1..]);
      assert [x[0]] + x[1..] == x;
    }
  }

  lemma {:induction false} PiecesOfJoin(ps: seq<string>)
    requires ps != [] && AllParts(ps)
    ensures Pieces(JoinWith("/", ps)) == ps
    decreases |ps|
  {
    PiecesOfPart(ps[0]);
    if |ps| > 1 {
      PiecesOfJoin(ps[1..]);
      PiecesSlash(ps[0], JoinWith("/", ps[1..]));
    }
  }

  /** Rendering components as a path and reading them back gives the same components. */
  lemma ComponentsOfFromParts(ps: seq<string>)
    requires AllParts(ps)
    ensures Components(FromParts(ps)) == ps
  {
    if ps == [] {
      assert FromParts(ps) == "/";
      assert Pieces("/") == [""] + Pieces("");
    } else {
      PiecesOfJoin(ps);
      assert FromParts(ps) == "" + "/" + JoinWith("/", ps);
      PiecesSlash("", JoinWith("/", ps));
      assert Pieces(FromParts(ps)) == [""] + ps;
    }
  }

  /** The effect of ".." components: each one drops the component before it (none at the root). */
  function NormalizeFrom(acc: seq<string>, ps: seq<string>): (r: seq<string>)
    requires AllParts(acc) && ".." !in acc && AllParts(ps)
    ensures AllParts(r)
    ensures ".." !in r
    decreases |ps|
  {
    if ps == [] then acc
    else if ps[0] == ".." then NormalizeFrom(if acc == [] then [] else acc[..|acc| - 1], ps[1..])
    else
      assert ".." !in acc + [ps[0]];
      NormalizeFrom(acc + [ps[0]], ps[1..])
  }

  /** An absolute path in the form `resolve()` produces: no ".." left, every component proper. */
  predicate IsNormal(p: string) {
    var ps := Components(p);
    p == FromParts(ps) && ".." !in ps
  }

  function Parts(p: Path): seq<string> {
    Components(p)
  }

  /**
   * `(base / s).resolve()`: an absolute `s` stands for itself, a relative one is taken below
   * `base`; then ".." components are folded away.
   */
  function Resolve(base: Path, s: string): (r: Path)
    ensures IsNormal(r)
    ensures Parts(r) == NormalizeFrom([], (if IsAbsolute(s) then [] else Parts(base)) + Components(s))
  {
    var ps := (if IsAbsolute(s) then [] else Parts(base)) + Components(s);
    var n := NormalizeFrom([], ps);
    ComponentsOfFromParts(n);
    FromParts(n)
  }

  lemma {:induction false} NormalizeNoDots(acc: seq<string>, ps: seq<string>)
    requires AllParts(acc) && ".." !in acc && AllParts(ps) && ".." !in ps
    ensures NormalizeFrom(acc, ps) == acc + ps
    decreases |ps|
  {
    if ps != [] {
      forall i | 0 <= i < |ps[1..]| ensures ps[1..][i] != ".." {
        assert ps[1..][i] == ps[i + 1];
      }
      assert ".." !in acc + [ps[0]];
      NormalizeNoDots(acc + [ps[0]], ps[1..]);
      assert acc + [ps[0]] + ps[1..] == acc + ps;
    }
  }

  /** Resolving a path that is already normal, from anywhere, gives the path back. */
  lemma ResolveNormal(cwd: Path, p: Path)
    requires IsNormal(p)
    ensures Resolve(cwd, p) == p
  {
    assert IsAbsolute(p);
    NormalizeNoDots([], Components(p));
    assert [] + Components(p) == Components(p);
  }

  /** `p.name`: the last component, "" for the root. */
  function Name(p: Path): string {
    var ps := Parts(p);
    if ps == [] then "" else ps[|ps| - 1]
  }

  /** `p.parent`: the root is its own parent. */
  function Parent(p: Path): Path {
    var ps := Parts(p);
    if ps == [] then FromParts([]) else FromParts(ps[..|ps| - 1])
  }

  /** `p / name` for a single component text. */
  function Child(p: Path, name: string): Path {
    FromParts(Parts(p) + Components(name))
  }

  /** `str(Path(base) / Path(pattern))`: an absolute pattern replaces the base. */
  function JoinPattern(base: Path, pattern: string): string {
    if IsAbsolute(pattern) then FromParts(Components(pattern))
    else FromParts(Parts(base) + Components(pattern))
  }

  /** `name.rfind('.')` */
  function LastDot(name: string): (i: int)
    ensures -1 <= i < |name|
    ensures i >= 0 ==> name[i] == '.'
    ensures forall k :: i < k < |name| ==> name[k] != '.'
  {
    if name == [] then -1
    else if name[|name| - 1] == '.' then |name| - 1
    else LastDot(name[..|name| - 1])
  }

  /** `PurePath.suffix` of a file name: from the last dot, if that dot is neither first nor last. */
  function Suffix(name: string): (r: string)
    ensures r == "" || (r[0] == '.' && |r| >= 2 && EndsWith(name, r))
  {
    var i := LastDot(name);
    if 0 < i < |name| - 1 then name[i..] else ""
  }

  /** `PurePath.stem` */
  function Stem(name: string): (r: string)
    ensures r + Suffix(name) == name
  {
    var i := LastDot(name);
    if 0 < i < |name| - 1 then name[..i] else name
  }

  function PathSuffix(p: Path): string {
    Suffix(Name(p))
  }

  /** `p.with_suffix(ext)`; `None` where Python raises `ValueError` (the root has no name). */
  function WithSuffix(p: Path, ext: string): (r: Option<Path>)
    ensures r.None? <==> Name(p) == ""
  {
    var ps := Parts(p);
    if ps == [] then None
    else Some(FromParts(ps[..|ps| - 1] + Components(Stem(ps[|ps| - 1]) + ext)))
  }

  /** `p.relative_to(base).parts`; `None` where Python raises `ValueError`. */
  function RelativeParts(p: Path, base: Path): (r: Option<seq<string>>)
    ensures r.Some? ==> Parts(base) + r.value == Parts(p)
  {
    var ps, bs := Parts(p), Parts(base);
    if |bs| <= |ps| && ps[..|bs|] == bs then
      assert bs + ps[|bs|..] == ps;
      Some(ps[|bs|..])
    else None
  }

  /** `p` lies strictly below directory `d`. */
  predicate Below(p: Path, d: Path) {
    var ps, ds := Parts(p), Parts(d);
    |ds| < |ps| && ps[..|ds|] == ds
  }
}
