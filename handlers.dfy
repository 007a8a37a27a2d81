/**
 * `handle_scope_management` in `cli/handlers.py`: the list, show, add, remove and update
 * commands on the scopes registry. The registry is the dictionary the handler mutates in place;
 * `write_scopes_to_file` is modelled by the `saved` field, the registry content the scopes file
 * holds afterwards. `ast.literal_eval` enters as the parameter `literal`, `None` standing for the
 * `ValueError` or `SyntaxError` it raises.
 */
module Handlers {
  import opened Wrappers
  import opened Strings
  import opened Sorting
  import opened ScopeConfig

  /**
   * The options the handler reads. An empty name or an empty list is an option not given: the
   * source tests each option for truthiness, so an empty string counts as absent too.
   */
  datatype Args = Args(
    listScopes: bool,
    showScope: string,
    addScope: string,
    removeScope: string,
    updateScope: seq<string>)

  /** What the handler prints, or that it prints nothing. */
  datatype Report =
    | ScopeList(names: seq<string>)   // an empty list prints "No scopes found."
    | ScopeShown(data: Scope)
    | NotFound(name: string)
    | AlreadyExists(name: string)
    | UsageError                      // `parser.error`, which exits
    | ParseError                      // "Error parsing update values"
    | Silent
    | NoAction

  /** The registry and the file after one call, with what was printed. */
  datatype Outcome = Outcome(report: Report, scopes: Scopes, saved: Scopes)

  /** The settings `--add-scope` gives a new scope. */
  const DefaultScope: Scope :=
    map["path" := Text("."), "include_patterns" := Texts(["**/*"]), "exclude_patterns" := Texts([])]

  /** `sorted(scopes.keys())` */
  function SortedNames(scopes: Scopes): (r: seq<string>)
    ensures StrictlySorted(r, false)
    ensures forall x :: x in r <==> x in scopes
    ensures |r| == |scopes|
  {
    SortSet(scopes.Keys, false)
  }

  /** `scopes.get(name)` followed by its truthiness test: a missing or empty scope is not shown. */
  function Lookup(scopes: Scopes, name: string): (r: Report)
    ensures r.ScopeShown? <==> name in scopes && scopes[name] != map[]
    ensures r.ScopeShown? ==> r.data == scopes[name]
    ensures !r.ScopeShown? ==> r == NotFound(name)
  {
    if name in scopes && scopes[name] != map[] then ScopeShown(scopes[name]) else NotFound(name)
  }

  /**
   * `update.split('=', 1)` unpacked into a key and a value text: `None` where the text has no
   * "=", since unpacking a one-element list raises `ValueError`.
   */
  function SplitAtEquals(u: string): Option<(string, string)> {
    var i := EqualsFrom(u, 0);
    if i == |u| then None else Some((u[..i], u[i + 1..]))
  }

  /** The position of the first "=" at or after `i`, or the length of `u` when there is none. */
  function EqualsFrom(u: string, i: nat): (r: nat)
    requires i <= |u|
    ensures i <= r <= |u|
    ensures r < |u| ==> u[r] == '='
    ensures forall j :: i <= j < r ==> u[j] != '='
    decreases |u| - i
  {
    if i == |u| || u[i] == '=' then i else EqualsFrom(u, i + 1)
  }

  /** The split fails only without an "="; otherwise it cuts at the first one, dropping it. */
  lemma SplitParts(u: string)
    ensures SplitAtEquals(u).None? <==> '=' !in u
    ensures SplitAtEquals(u).Some? ==>
      SplitAtEquals(u).value.0 + "=" + SplitAtEquals(u).value.1 == u && '=' !in SplitAtEquals(u).value.0
  {
    var i := EqualsFrom(u, 0);
    if i < |u| {
      assert u == u[..i] + "=" + u[i + 1..];
    }
  }

  /** The split finds the first "=": a key without one and any value text come back apart. */
  lemma SplitJoin(k: string, v: string)
    requires '=' !in k
    ensures SplitAtEquals(k + "=" + v) == Some((k, v))
  {
    var u := k + "=" + v;
    FirstEquals(u, 0, |k|);
    assert u[..|k|] == k && u[|k| + 1..] == v;
  }

  /** The search stops at the first "=" after `i`. */
  lemma {:induction false} FirstEquals(u: string, i: nat, n: nat)
    requires i <= n < |u| && u[n] == '='
    requires forall j :: i <= j < n ==> u[j] != '='
    ensures EqualsFrom(u, i) == n
    decreases n - i
  {
    if i < n {
      FirstEquals(u, i + 1, n);
    }
  }

  /** One update: the stripped key and the evaluated value, `None` where either step raises. */
  function ParseUpdate(u: string, literal: string -> Option<Value>): Option<(string, Value)> {
    match SplitAtEquals(u)
    case None => None
    case Some((k, text)) =>
      match literal(text)
      case None => None
      case Some(v) => Some((Strip(k), v))
  }

  /** The key and value one update assigns. */
  type Assignment = (string, Value)

  /** Every update parsed in order, as the loop would meet them. */
  function ParseAll(updates: seq<string>, literal: string -> Option<Value>): (r: seq<Option<Assignment>>)
    ensures |r| == |updates|
  {
    ParsedFirst(updates, literal, |updates|)
  }

  /** The first `n` updates parsed. */
  function ParsedFirst(updates: seq<string>, literal: string -> Option<Value>, n: nat): (r: seq<Option<Assignment>>)
    requires n <= |updates|
    ensures |r| == n
  {
    if n == 0 then [] else ParsedFirst(updates, literal, n - 1) + [ParseUpdate(updates[n - 1], literal)]
  }

  /** The `j`-th parse is that of the `j`-th update. */
  lemma ParseAllAt(updates: seq<string>, literal: string -> Option<Value>, j: nat)
    requires j < |updates|
    ensures ParseAll(updates, literal)[j] == ParseUpdate(updates[j], literal)
  {
    ParsedFirstAt(updates, literal, |updates|, j);
  }

  lemma {:induction false} ParsedFirstAt(updates: seq<string>, literal: string -> Option<Value>, n: nat, j: nat)
    requires j < n <= |updates|
    ensures ParsedFirst(updates, literal, n)[j] == ParseUpdate(updates[j], literal)
  {
    if j < n - 1 {
      ParsedFirstAt(updates, literal, n - 1, j);
    }
  }

  /** The first `n` updates all parse. */
  predicate Parses(parsed: seq<Option<Assignment>>, n: nat)
    requires n <= |parsed|
  {
    forall j :: 0 <= j < n ==> parsed[j].Some?
  }

  /** The scope after the assignments of the first `n` updates, in order. */
  function Assigned(scope: Scope, parsed: seq<Option<Assignment>>, n: nat): Scope
    requires n <= |parsed| && Parses(parsed, n)
  {
    if n == 0 then scope
    else Assigned(scope, parsed, n - 1)[parsed[n - 1].value.0 := parsed[n - 1].value.1]
  }

  /** The number of updates that parse before the first one that does not, from `i` on. */
  function ParsedPrefix(parsed: seq<Option<Assignment>>, i: nat): (n: nat)
    requires i <= |parsed| && Parses(parsed, i)
    ensures i <= n <= |parsed| && Parses(parsed, n)
    ensures n < |parsed| ==> parsed[n].None?
    decreases |parsed| - i
  {
    if i == |parsed| || parsed[i].None? then i
    else ParsedPrefix(parsed, i + 1)
  }

  /** The first update that fails to parse is where the prefix ends. */
  lemma {:induction false} PrefixEndsAtFailure(parsed: seq<Option<Assignment>>, i: nat, n: nat)
    requires i <= n <= |parsed| && Parses(parsed, n)
    requires n < |parsed| ==> parsed[n].None?
    ensures ParsedPrefix(parsed, i) == n
    decreases n - i
  {
    if i < n {
      assert parsed[i].Some?;
      PrefixEndsAtFailure(parsed, i + 1, n);
    }
  }

  /** The last of the first `n` updates that assigns `k`, if any does. */
  function LastAssignment(parsed: seq<Option<Assignment>>, n: nat, k: string): (r: Option<nat>)
    requires n <= |parsed| && Parses(parsed, n)
    ensures r.Some? ==> r.value < n && parsed[r.value].value.0 == k
    ensures r.Some? ==> forall j :: r.value < j < n ==> parsed[j].value.0 != k
    ensures r.None? ==> forall j :: 0 <= j < n ==> parsed[j].value.0 != k
  {
    if n == 0 then None
    else if parsed[n - 1].value.0 == k then Some(n - 1)
    else LastAssignment(parsed, n - 1, k)
  }

  /**
   * Updates apply in order, so the last one for a key wins; a key no update names keeps its
   * setting, and no other key appears.
   */
  lemma {:induction false} LastWins(scope: Scope, parsed: seq<Option<Assignment>>, n: nat, k: string)
    requires n <= |parsed| && Parses(parsed, n)
    ensures LastAssignment(parsed, n, k).Some? ==>
      k in Assigned(scope, parsed, n) &&
      Assigned(scope, parsed, n)[k] == parsed[LastAssignment(parsed, n, k).value].value.1
    ensures LastAssignment(parsed, n, k).None? ==>
      (k in Assigned(scope, parsed, n) <==> k in scope) &&
      (k in scope ==> Assigned(scope, parsed, n)[k] == scope[k])
  {
    if n > 0 {
      assert Parses(parsed, n - 1);
      LastWins(scope, parsed, n - 1, k);
    }
  }

  /** `--add-scope name` */
  function AddScope(scopes: Scopes, saved: Scopes, name: string): Outcome {
    if name in scopes then Outcome(AlreadyExists(name), scopes, saved)
    else
      var added := scopes[name := DefaultScope];
      Outcome(Silent, added, added)
  }

  /** `--remove-scope name` */
  function RemoveScope(scopes: Scopes, saved: Scopes, name: string): Outcome {
    if name !in scopes then Outcome(NotFound(name), scopes, saved)
    else
      var removed := scopes - {name};
      Outcome(Silent, removed, removed)
  }

  /**
   * `--update-scope name key=value ...`: the parsed assignments up to the first failure stay in
   * the registry; only a run in which every update parses is written.
   */
  function UpdateScope(scopes: Scopes, saved: Scopes, update: seq<string>, literal: string -> Option<Value>): Outcome {
    if |update| < 2 then Outcome(UsageError, scopes, saved)
    else
      var name, updates := update[0], update[1..];
      if name !in scopes then Outcome(NotFound(name), scopes, saved)
      else
        var parsed := ParseAll(updates, literal);
        var n := ParsedPrefix(parsed, 0);
        var changed := scopes[name := Assigned(scopes[name], parsed, n)];
        if n == |updates| then Outcome(Silent, changed, changed) else Outcome(ParseError, changed, saved)
  }

  /** `handle_scope_management`: the first option given decides the action. */
  function Handle(args: Args, scopes: Scopes, saved: Scopes, literal: string -> Option<Value>): Outcome {
    if args.listScopes then Outcome(ScopeList(SortedNames(scopes)), scopes, saved)
    else if args.showScope != "" then Outcome(Lookup(scopes, args.showScope), scopes, saved)
    else if args.addScope != "" then AddScope(scopes, saved, args.addScope)
    else if args.removeScope != "" then RemoveScope(scopes, saved, args.removeScope)
    else if args.updateScope != [] then UpdateScope(scopes, saved, args.updateScope, literal)
    else Outcome(NoAction, scopes, saved)
  }

  /** Listing and showing change neither the registry nor the file; listing is in sorted order. */
  lemma ReadOnlyActions(args: Args, scopes: Scopes, saved: Scopes, literal: string -> Option<Value>)
    requires args.listScopes || args.showScope != ""
    ensures Handle(args, scopes, saved, literal).scopes == scopes
    ensures Handle(args, scopes, saved, literal).saved == saved
    ensures args.listScopes ==> Handle(args, scopes, saved, literal).report.ScopeList?
    ensures !args.listScopes ==> Handle(args, scopes, saved, literal).report == Lookup(scopes, args.showScope)
  {
  }

  /** `--list` wins over every other option and prints each name once, in sorted order. */
  lemma ListSorted(args: Args, scopes: Scopes, saved: Scopes, literal: string -> Option<Value>)
    requires args.listScopes
    ensures Handle(args, scopes, saved, literal).report.ScopeList?
    ensures StrictlySorted(Handle(args, scopes, saved, literal).report.names, false)
    ensures forall x :: x in Handle(args, scopes, saved, literal).report.names <==> x in scopes
  {
  }

  /** Adding an existing name changes nothing and writes nothing. */
  lemma AddExisting(scopes: Scopes, saved: Scopes, name: string)
    requires name in scopes
    ensures AddScope(scopes, saved, name) == Outcome(AlreadyExists(name), scopes, saved)
  {
  }

  /** Adding a new name inserts the default settings under it, keeps every other scope, and writes. */
  lemma AddNew(scopes: Scopes, saved: Scopes, name: string)
    requires name !in scopes
    ensures AddScope(scopes, saved, name).scopes.Keys == scopes.Keys + {name}
    ensures AddScope(scopes, saved, name).scopes[name] == DefaultScope
    ensures forall other :: other in scopes ==> AddScope(scopes, saved, name).scopes[other] == scopes[other]
    ensures AddScope(scopes, saved, name).saved == AddScope(scopes, saved, name).scopes
  {
  }

  /** Removing deletes that one key and writes; a missing name changes nothing. */
  lemma RemoveOnlyThat(scopes: Scopes, saved: Scopes, name: string)
    ensures name !in scopes ==> RemoveScope(scopes, saved, name) == Outcome(NotFound(name), scopes, saved)
    ensures name in scopes ==> RemoveScope(scopes, saved, name).scopes.Keys == scopes.Keys - {name}
    ensures forall other :: other in scopes && other != name ==> RemoveScope(scopes, saved, name).scopes[other] == scopes[other]
    ensures name in scopes ==> RemoveScope(scopes, saved, name).saved == RemoveScope(scopes, saved, name).scopes
  {
  }

  /** Fewer than a name and one update, or an unknown name: nothing changes. */
  lemma UpdateRejected(scopes: Scopes, saved: Scopes, update: seq<string>, literal: string -> Option<Value>)
    requires |update| < 2 || update[0] !in scopes
    ensures UpdateScope(scopes, saved, update, literal).scopes == scopes
    ensures UpdateScope(scopes, saved, update, literal).saved == saved
    ensures UpdateScope(scopes, saved, update, literal).report == if |update| < 2 then UsageError else NotFound(update[0])
  {
  }

  /** When every update parses, the outcome is that of all the assignments, written. */
  lemma AllParsed(scopes: Scopes, saved: Scopes, update: seq<string>, literal: string -> Option<Value>,
                  parsed: seq<Option<Assignment>>)
    requires |update| >= 2 && update[0] in scopes
    requires parsed == ParseAll(update[1..], literal) && Parses(parsed, |parsed|)
    ensures UpdateScope(scopes, saved, update, literal) ==
      Outcome(Silent, scopes[update[0] := Assigned(scopes[update[0]], parsed, |parsed|)],
                      scopes[update[0] := Assigned(scopes[update[0]], parsed, |parsed|)])
  {
    PrefixEndsAtFailure(parsed, 0, |parsed|);
  }

  /**
   * When every update parses, the result is written, and the other scopes stay as they were.
   */
  lemma UpdateWritten(scopes: Scopes, saved: Scopes, update: seq<string>, literal: string -> Option<Value>,
                      parsed: seq<Option<Assignment>>)
    requires |update| >= 2 && update[0] in scopes
    requires parsed == ParseAll(update[1..], literal) && Parses(parsed, |parsed|)
    ensures UpdateScope(scopes, saved, update, literal).report == Silent
    ensures UpdateScope(scopes, saved, update, literal).saved == UpdateScope(scopes, saved, update, literal).scopes
    ensures UpdateScope(scopes, saved, update, literal).scopes.Keys == scopes.Keys
    ensures forall other :: other in scopes && other != update[0] ==> UpdateScope(scopes, saved, update, literal).scopes[other] == scopes[other]
  {
    AllParsed(scopes, saved, update, literal, parsed);
  }

  /**
   * When every update parses, the scope gets the value of the last update for each key it names
   * and keeps its other settings.
   */
  lemma UpdateLastWins(scopes: Scopes, saved: Scopes, update: seq<string>, literal: string -> Option<Value>,
                       parsed: seq<Option<Assignment>>, k: string)
    requires |update| >= 2 && update[0] in scopes
    requires parsed == ParseAll(update[1..], literal) && Parses(parsed, |parsed|)
    ensures LastAssignment(parsed, |parsed|, k).Some? ==>
      k in UpdateScope(scopes, saved, update, literal).scopes[update[0]] &&
      UpdateScope(scopes, saved, update, literal).scopes[update[0]][k] == parsed[LastAssignment(parsed, |parsed|, k).value].value.1
    ensures LastAssignment(parsed, |parsed|, k).None? ==>
      (k in UpdateScope(scopes, saved, update, literal).scopes[update[0]] <==> k in scopes[update[0]]) &&
      (k in scopes[update[0]] ==> UpdateScope(scopes, saved, update, literal).scopes[update[0]][k] == scopes[update[0]][k])
  {
    AllParsed(scopes, saved, update, literal, parsed);
    LastWins(scopes[update[0]], parsed, |parsed|, k);
  }

  /**
   * An update that fails to parse stops the ones after it and skips the write, but the registry
   * keeps the assignments made before it: the update is not atomic.
   */
  lemma UpdateStopsAtError(scopes: Scopes, saved: Scopes, update: seq<string>, literal: string -> Option<Value>,
                           parsed: seq<Option<Assignment>>, j: nat)
    requires |update| >= 2 && update[0] in scopes
    requires parsed == ParseAll(update[1..], literal)
    requires j < |parsed| && Parses(parsed, j) && parsed[j].None?
    ensures UpdateScope(scopes, saved, update, literal) ==
      Outcome(ParseError, scopes[update[0] := Assigned(scopes[update[0]], parsed, j)], saved)
  {
    PrefixEndsAtFailure(parsed, 0, j);
  }

  /** With no option given the handler does nothing. */
  lemma NoOption(args: Args, scopes: Scopes, saved: Scopes, literal: string -> Option<Value>)
    requires !args.listScopes && args.showScope == "" && args.addScope == "" && args.removeScope == ""
    requires args.updateScope == []
    ensures Handle(args, scopes, saved, literal) == Outcome(NoAction, scopes, saved)
  {
  }

  /**
   * The loop over the `key=value` pairs: each assigns its value in the scope until one fails to
   * split or to evaluate. Returns the scope after the assignments made and how many there were.
   */
  method ApplyUpdates(scope: Scope, updates: seq<string>, literal: string -> Option<Value>) returns (result: Scope, applied: nat)
    ensures applied == ParsedPrefix(ParseAll(updates, literal), 0)
    ensures result == Assigned(scope, ParseAll(updates, literal), applied)
  {
    ghost var parsed := ParseAll(updates, literal);
    result := scope;
    var i := 0;
    while i < |updates|
      invariant 0 <= i <= |updates| && Parses(parsed, i)
      invariant result == Assigned(scope, parsed, i)
    {
      ParseAllAt(updates, literal, i);
      var split := SplitAtEquals(updates[i]);
      if split.None? {
        break;
      }
      var (key, valueText) := split.value;
      var value := literal(valueText);
      if value.None? {
        break;
      }
      result := result[Strip(key) := value.value];
      assert parsed[i] == Some((Strip(key), value.value));
      i := i + 1;
    }
    PrefixEndsAtFailure(parsed, 0, i);
    applied := i;
  }

  /** The scopes dictionary the handler is given, and the file it writes. */
  class ScopeRegistry {
    /** The in-memory registry, which the handler mutates in place. */
    var scopes: Scopes
    /** The registry as the scopes file holds it. */
    var saved: Scopes

    constructor (scopes: Scopes, saved: Scopes)
      ensures this.scopes == scopes && this.saved == saved
    {
      this.scopes := scopes;
      this.saved := saved;
    }

    /** `handle_scope_management(args, scopes, scopes_file_path, parser)` */
    method HandleScopeManagement(args: Args, literal: string -> Option<Value>) returns (report: Report)
      modifies this
      ensures Outcome(report, scopes, saved) == Handle(args, old(scopes), old(saved), literal)
    {
      if args.listScopes {
        report := ScopeList(SortedNames(scopes));
      } else if args.showScope != "" {
        report := Lookup(scopes, args.showScope);
      } else if args.addScope != "" {
        if args.addScope in scopes {
          return AlreadyExists(args.addScope);
        }
        scopes := scopes[args.addScope := DefaultScope];
        saved := scopes;
        report := Silent;
      } else if args.removeScope != "" {
        if args.removeScope !in scopes {
          return NotFound(args.removeScope);
        }
        scopes := scopes - {args.removeScope};
        saved := scopes;
        report := Silent;
      } else if args.updateScope != [] {
        report := UpdateScopeEntries(args.updateScope, literal);
      } else {
        report := NoAction;
      }
    }

    /** The `--update-scope` branch, with its loop over the `key=value` pairs. */
    method UpdateScopeEntries(update: seq<string>, literal: string -> Option<Value>) returns (report: Report)
      requires update != []
      modifies this
      ensures Outcome(report, scopes, saved) == UpdateScope(old(scopes), old(saved), update, literal)
    {
      if |update| < 2 {
        return UsageError;
      }
      var scopeName, updates := update[0], update[1..];
      if scopeName !in scopes {
        return NotFound(scopeName);
      }
      // The loop assigns into the one dictionary `scopes[scope_name]`, which the registry holds;
      // the assignments made before a failure stay in it.
      var scope, applied := ApplyUpdates(scopes[scopeName], updates, literal);
      scopes := scopes[scopeName := scope];
      if applied == |updates| {
        saved := scopes;
        report := Silent;
      } else {
        report := ParseError;
      }
    }
  }
}
