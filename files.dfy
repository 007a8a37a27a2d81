/**
 * The part of the file system the core touches, as a value. Regular files map to their text;
 * reading goes through Python's text mode, which turns "\r\n" and "\r" into "\n".
 */
module Files {
  import opened Wrappers
  import opened Paths
  import opened Strings

  datatype FileSystem = FileSystem(
    files: map<Path, string>,  // the text of each regular file, as read with errors='ignore'
    dirs: set<Path>,           // the directories
    undecodable: set<Path>,    // files that are not valid UTF-8: a strict read fails
    unreadable: set<Path>,     // files whose read fails (permissions)
    readOnly: set<Path>)       // paths where writing a file fails
  {
    /** A path is never both a file and a directory; only files can fail to read. */
    predicate Valid() {
      files.Keys !! dirs && unreadable <= files.Keys && undecodable <= files.Keys
    }

    predicate IsFile(p: Path) { p in files }

    predicate IsDir(p: Path) { p in dirs }

    /**
     * `p.exists()`: the operating system walks the path as written, so each ".." steps out of
     * what the components before it name, which must be a directory (or the root).
     */
    predicate Exists(p: Path) {
      var q := Resolve("/", p);
      (q in files || q in dirs) && StepsOutOfDirs(Components(p))
    }

    /** Every ".." in `ps` follows components that name a directory. */
    predicate StepsOutOfDirs(ps: seq<string>) {
      forall k :: 0 <= k < |ps| && ps[k] == ".." ==>
        var d := Resolve("/", FromParts(ps[..k])); d == "/" || d in dirs
    }
  }

  /** A path without ".." exists exactly when the file or directory it names is there. */
  lemma ExistsNormal(fs: FileSystem, p: Path)
    requires IsNormal(p)
    ensures fs.Exists(p) <==> fs.IsFile(p) || fs.IsDir(p)
  {
    ResolveNormal("/", p);
  }

  /** "/x/../y" names "/y" lexically, yet does not exist when there is no directory "/x". */
  lemma StepOutOfMissingDir()
    ensures Resolve("/", "/x/../y") == "/y"
    ensures !FileSystem(map["/y" := ""], {}, {}, {}, {}).Exists("/x/../y")
  {
    var fs := FileSystem(map["/y" := ""], {}, {}, {}, {});
    var ps := SpelledOut();
    ResolveSpelledOut(ps);
    assert ps[..1] == ["x"];
    assert Resolve("/", FromParts(ps[..1])) == "/x" by {
      ComponentsOfFromParts(["x"]);
      ResolveNormal("/", FromParts(["x"]));
    }
    assert ps[1] == ".." && Resolve("/", FromParts(ps[..1])) !in fs.dirs;
  }

  /** The components of "/x/../y". */
  lemma SpelledOut() returns (ps: seq<string>)
    ensures ps == ["x", "..", "y"] && Components("/x/../y") == ps
  {
    ps := ["x", "..", "y"];
    assert JoinWith("/", ps[2..]) == "y";
    assert JoinWith("/", ps[1..]) == "../y";
    assert JoinWith("/", ps) == "x/../y";
    assert FromParts(ps) == "/x/../y";
    ComponentsOfFromParts(ps);
  }

  lemma ResolveSpelledOut(ps: seq<string>)
    requires ps == ["x", "..", "y"] && Components("/x/../y") == ps
    ensures Resolve("/", "/x/../y") == "/y"
  {
    var r := Resolve("/", "/x/../y");
    assert IsAbsolute("/x/../y");
    assert [] + ps == ps;
    assert NormalizeFrom([], ps) == NormalizeFrom(["x"], ["..", "y"]) == NormalizeFrom([], ["y"]) == ["y"];
    assert Parts(r) == ["y"];
    assert r == FromParts(["y"]);
    assert JoinWith("/", ["y"]) == "y";
  }

  /** Python's universal-newline translation on read. */
  function Translate(s: string): (r: string)
    ensures '\r' !in r
    ensures |r| <= |s|
  {
    if s == [] then []
    else if s[0] == '\r' then
      if |s| > 1 && s[1] == '\n' then "\n" + Translate(s[2..]) else "\n" + Translate(s[1..])
    else [s[0]] + Translate(s[1..])
  }

  /** Text without carriage returns reads back unchanged, and only such text does. */
  lemma {:induction false} TranslateIdentity(s: string)
    ensures Translate(s) == s <==> '\r' !in s
    decreases |s|
  {
    if s != [] {
      TranslateIdentity(s[1..]);
      if s[0] == '\r' {
        assert Translate(s)[0] == '\n';
      } else {
        assert s == [s[0]] + s[1..];
        assert '\r' in s[1..] ==> '\r' in s;
        assert '\r' in s ==> '\r' in s[1..];
      }
    }
  }

  /** `p.read_text(encoding='utf-8')`: `None` where Python raises. */
  function ReadText(fs: FileSystem, p: Path): (r: Option<string>)
    ensures r.Some? <==> fs.IsFile(p) && p !in fs.unreadable && p !in fs.undecodable
    ensures r.Some? ==> r.value == Translate(fs.files[p])
  {
    if p in fs.files && p !in fs.unreadable && p !in fs.undecodable then Some(Translate(fs.files[p]))
    else None
  }

  /** The text a file holds, without newline translation (a strict read in binary terms). */
  function ReadStored(fs: FileSystem, p: Path): (r: Option<string>)
    ensures r.Some? <==> fs.IsFile(p) && p !in fs.unreadable && p !in fs.undecodable
    ensures r.Some? ==> r.value == fs.files[p]
  {
    if p in fs.files && p !in fs.unreadable && p !in fs.undecodable then Some(fs.files[p]) else None
  }

  /** `p.read_text(encoding='utf-8', errors='ignore')` */
  function ReadTextLenient(fs: FileSystem, p: Path): (r: Option<string>)
    ensures r.Some? <==> fs.IsFile(p) && p !in fs.unreadable
    ensures r.Some? ==> r.value == Translate(fs.files[p])
  {
    if p in fs.files && p !in fs.unreadable then Some(Translate(fs.files[p])) else None
  }

  /** The directory `d` and every directory above it. */
  function AncestorsOrSelf(d: Path): (r: set<Path>)
    ensures "/" in r
    ensures IsNormal(d) ==> d in r
  {
    var ps := Components(d);
    assert FromParts(ps[..0]) == "/";
    assert ps[..|ps|] == ps;
    set k | 0 <= k <= |ps| :: FromParts(ps[..k])
  }

  /**
   * `d.mkdir(parents=True, exist_ok=True)` where `chain` is `AncestorsOrSelf(d)`: fails when one
   * of them is a file, and then creates nothing; otherwise all of them are directories afterwards.
   */
  function MakeDirs(fs: FileSystem, chain: set<Path>): (r: Option<FileSystem>)
    ensures r.None? <==> exists a :: a in chain && a in fs.files
    ensures r.Some? ==> r.value == fs.(dirs := fs.dirs + chain)
    ensures r.Some? && fs.Valid() ==> r.value.Valid()
  {
    if exists a :: a in chain && a in fs.files then None
    else Some(fs.(dirs := fs.dirs + chain))
  }

  /** `p.write_text(text, 'utf-8')`; `None` where Python raises. */
  function WriteText(fs: FileSystem, p: Path, text: string): (r: Option<FileSystem>)
    ensures r.None? <==> p in fs.readOnly || p in fs.dirs
    ensures r.Some? ==> r.value.files == fs.files[p := text] && r.value.dirs == fs.dirs
    ensures r.Some? && fs.Valid() ==> r.value.Valid()
  {
    if p in fs.readOnly || p in fs.dirs then None
    else Some(fs.(files := fs.files[p := text], undecodable := fs.undecodable - {p}))
  }
}
