/**
 * The scopes registry as `context.py`, `scopes/builder.py` and `cli/handlers.py` read it: a
 * dictionary from scope name to a dictionary of settings, plus the extension filter every
 * `build_context` ends with.
 */
module ScopeConfig {
  import opened Wrappers
  import opened Strings
  import opened Sorting
  import opened Paths

  /** A setting's value: a text, a list of texts, or anything else `ast.literal_eval` can give. */
  datatype Value = Text(text: string) | Texts(items: seq<string>) | OtherValue

  type Scope = map<string, Value>
  type Scopes = map<string, Scope>

  const DefaultExcludeExtensions: seq<string> := [
    ".log", ".lock", ".env", ".bak", ".tmp", ".swp", ".swo", ".db", ".sqlite3",
    ".pyc", ".pyo", ".pyd",
    ".next", ".svelte-kit",
    ".DS_Store",
    ".png", ".jpg", ".jpeg", ".gif", ".svg", ".ico", ".webp",
    ".mp3", ".mp4", ".mov", ".avi", ".pdf",
    ".o", ".so", ".dll", ".exe",
    ".meta"]

  const StructureExcludeDirs: seq<string> := [".git", "__pycache__", "node_modules", ".venv", "dist", "build"]

  /** `scope.get(key, default)` for a text setting. */
  function TextSetting(scope: Scope, key: string, default: string): string {
    if key in scope && scope[key].Text? then scope[key].text else default
  }

  /** What a loop over a string visits: each character, as a string of its own. */
  function Chars(s: string): (r: seq<string>)
    ensures |r| == |s| && forall k :: 0 <= k < |s| ==> r[k] == [s[k]]
  {
    if s == [] then [] else [[s[0]]] + Chars(s[1..])
  }

  /** The strings a loop over a setting's value visits: a list's items, a string's characters. */
  function Iterated(v: Value): seq<string> {
    match v
    case Texts(items) => items
    case Text(text) => Chars(text)
    case OtherValue => []
  }

  /** `scope.get(key, [])` for a list setting. */
  function ListSetting(scope: Scope, key: string): seq<string> {
    if key in scope then Iterated(scope[key]) else []
  }

  /** `scopes.get(name, {}).get("exclude_extensions", DEFAULT_EXCLUDE_EXTENSIONS)` */
  function ExcludeExtensions(scopes: Scopes, name: string): seq<string> {
    if name in scopes && "exclude_extensions" in scopes[name] && !scopes[name]["exclude_extensions"].OtherValue?
    then Iterated(scopes[name]["exclude_extensions"])
    else DefaultExcludeExtensions
  }

  /** `p.suffix.lower() not in {ext.lower() for ext in exts}` */
  predicate KeepsSuffix(p: Path, exts: seq<string>) {
    forall e :: 0 <= e < |exts| ==> Lower(PathSuffix(p)) != Lower(exts[e])
  }

  function Keeps(exts: seq<string>): Path -> bool {
    p => KeepsSuffix(p, exts)
  }

  /**
   * `[p for p in paths if p.suffix.lower() not in norm_ext]`: the files whose suffix matches
   * no listed extension, ignoring ASCII case, in their order.
   */
  function ExtensionFilter(paths: seq<Path>, exts: seq<string>): (r: seq<Path>)
    ensures |r| <= |paths|
    ensures forall k, e :: 0 <= k < |r| && 0 <= e < |exts| ==> Lower(PathSuffix(r[k])) != Lower(exts[e])
    ensures forall k :: 0 <= k < |paths| ==>
      ((forall e :: 0 <= e < |exts| ==> Lower(PathSuffix(paths[k])) != Lower(exts[e])) ==> paths[k] in r)
  {
    Filter(paths, Keeps(exts))
  }

  lemma {:induction false} FilterKeepsAll<T>(s: seq<T>, f: T -> bool)
    requires forall k :: 0 <= k < |s| ==> f(s[k])
    ensures Filter(s, f) == s
    decreases |s|
  {
    if s != [] {
      FilterKeepsAll(s[1..], f);
    }
  }

  /**
   * A scope's own `exclude_extensions` replaces the default list instead of adding to it: a scope
   * that sets it to `[]` keeps every file, the ".log" files included.
   */
  lemma EmptyOverrideKeepsAll(scopes: Scopes, name: string, paths: seq<Path>)
    requires name in scopes && "exclude_extensions" in scopes[name]
    requires scopes[name]["exclude_extensions"] == Texts([])
    ensures ExtensionFilter(paths, ExcludeExtensions(scopes, name)) == paths
  {
    FilterKeepsAll(paths, Keeps([]));
  }

  /**
   * A scope that writes `exclude_extensions` as one string, say `"log"`, excludes its characters:
   * no suffix is a single character, so every file is kept.
   */
  lemma {:induction false} StringOverrideKeepsAll(scopes: Scopes, name: string, paths: seq<Path>)
    requires name in scopes && "exclude_extensions" in scopes[name]
    requires scopes[name]["exclude_extensions"].Text?
    ensures ExtensionFilter(paths, ExcludeExtensions(scopes, name)) == paths
  {
    var exts := ExcludeExtensions(scopes, name);
    assert exts == Chars(scopes[name]["exclude_extensions"].text);
    forall k | 0 <= k < |paths|
      ensures KeepsSuffix(paths[k], exts)
    {
      var suffix := PathSuffix(paths[k]);
      assert |Lower(suffix)| == |suffix| && |suffix| != 1;
      forall e | 0 <= e < |exts|
        ensures Lower(suffix) != Lower(exts[e])
      {
        assert |Lower(exts[e])| == 1;
      }
    }
    FilterKeepsAll(paths, Keeps(exts));
  }

  /** Without a scope-level setting, the default list applies, ".log" among it. */
  lemma DefaultDropsLog(scopes: Scopes, name: string, p: Path)
    requires name !in scopes || "exclude_extensions" !in scopes[name]
    requires PathSuffix(p) == ".LOG"
    ensures ExtensionFilter([p], ExcludeExtensions(scopes, name)) == []
  {
    assert ExcludeExtensions(scopes, name) == DefaultExcludeExtensions;
    LogExcluded(p);
    FilterDropsOne(p, Keeps(DefaultExcludeExtensions));
  }

  lemma LogExcluded(p: Path)
    requires PathSuffix(p) == ".LOG"
    ensures !KeepsSuffix(p, DefaultExcludeExtensions)
  {
    LowerLog();
    assert Lower(PathSuffix(p)) == Lower(DefaultExcludeExtensions[0]);
  }

  lemma LowerLog()
    ensures Lower(".LOG") == ".log" && Lower(DefaultExcludeExtensions[0]) == ".log"
  {
    assert DefaultExcludeExtensions[0] == ".log";
  }

  lemma FilterDropsOne<T>(x: T, f: T -> bool)
    requires !f(x)
    ensures Filter([x], f) == []
  {
    assert [x][1..] == [];
  }
}
