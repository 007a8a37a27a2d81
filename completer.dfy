/**
 * The command and scope completer of `tui/completer.py`.  Its constructor only builds
 * sorted lists and `get_completions` filters them by prefix, so both are functions on a
 * value; the generator's output is the list of completions it yields, in order.
 */
module Completer {
  import opened Wrappers
  import opened Strings
  import opened Sorting

  const DynamicScopes: seq<string> := [
    "@git", "@git:staged", "@git:unstaged", "@git:lastcommit",
    "@git:conflicts", "@git:branch:", "@recent", "@structure",
    "@dir:", "@related:", "@search:", "@error:"]

  const PlanSubCommands: seq<string> := ["--edit ", "--rm ", "--add "]

  const ContextCommands: seq<string> := ["/context", "/add_context"]

  /** `COMMAND_META` */
  const CommandMeta: map<string, string> := map[
    "/task" := "Sets the high-level goal for the agent.",
    "/plan" := "Generates or manages the execution plan.",
    "/ask" := "Ask a clarifying question about the current plan.",
    "/refine" := "Refine the plan based on new feedback or ideas.",
    "/run" := "Executes the current step and shows a summary of changes.",
    "/skip" := "Skips the current step and moves to the next.",
    "/diff" := "Shows the full diff for the proposed changes.",
    "/approve" := "Applies the changes from the last run.",
    "/retry" := "Retries the last step with new feedback.",
    "/context" := "Replaces the context with files from a scope.",
    "/add_context" := "Adds files from a scope to the current context.",
    "/clear_context" := "Empties the current context.",
    "/scopes" := "Opens an interactive menu to manage your saved scopes.",
    "/patch" := "Apply a patch from the system clipboard.",
    "/test" := "Runs `pytest` to check for regressions.",
    "/stage" := "Stages all current changes with `git`.",
    "/settings" := "Configure the model and API keys.",
    "/help" := "Shows the detailed help message.",
    "/exit" := "Exits the agent session."]

  /** `Completion(text, start_position, display_meta)`; the plan sub-commands carry no meta. */
  datatype Completion = Completion(text: string, start: int, meta: Option<string>)

  datatype Completer = Completer(commands: seq<string>, staticScopes: seq<string>, allScopes: seq<string>)

  function Identity(): string -> string {
    s => s
  }

  /** `PatchLLMCompleter.__init__(commands, scopes)`, given the scope names. */
  function Init(commands: seq<string>, scopeNames: set<string>): (c: Completer)
    ensures SortedByKey(c.commands, Identity()) && multiset(c.commands) == multiset(commands)
    ensures StrictlySorted(c.staticScopes, false) && forall x :: x in c.staticScopes <==> x in scopeNames
    ensures SortedByKey(c.allScopes, Identity()) && multiset(c.allScopes) == multiset(c.staticScopes + DynamicScopes)
    ensures |c.allScopes| == |scopeNames| + 12
  {
    var named := SortSet(scopeNames, false);
    var all := SortByKey(named + DynamicScopes, Identity());
    assert |all| == |multiset(all)| == |named + DynamicScopes|;
    SortByKeySorted(named + DynamicScopes, Identity());
    SortByKeySorted(commands, Identity());
    Completer(SortByKey(commands, Identity()), named, all)
  }

  function MetaOf(command: string): string {
    if command in CommandMeta then CommandMeta[command] else ""
  }

  function ScopeMeta(c: Completer, scope: string): string {
    if scope in c.staticScopes then "Static scope" else "Dynamic scope"
  }

  function PrefixTest(prefix: string): string -> bool {
    x => StartsWith(x, prefix)
  }

  function Texts(r: seq<Completion>): seq<string> {
    if r == [] then [] else [r[0].text] + Texts(r[1..])
  }

  /** The items with the given prefix, in their order, each at `start` with the meta `meta` gives it. */
  function Offer(items: seq<string>, prefix: string, start: int, meta: string -> Option<string>): (r: seq<Completion>)
    ensures Texts(r) == Filter(items, PrefixTest(prefix))
    ensures forall k :: 0 <= k < |r| ==> r[k].start == start && r[k].meta == meta(r[k].text)
  {
    if items == [] then []
    else
      var rest := Offer(items[1..], prefix, start, meta);
      if StartsWith(items[0], prefix) then [Completion(items[0], start, meta(items[0]))] + rest
      else rest
  }

  function CommandMetaOf(): string -> Option<string> {
    x => Some(MetaOf(x))
  }

  function ScopeMetaOf(c: Completer): string -> Option<string> {
    x => Some(ScopeMeta(c, x))
  }

  function NoMeta(): string -> Option<string> {
    x => None
  }

  /** `get_completions` for the text before the cursor. */
  function Complete(c: Completer, text: string): seq<Completion> {
    var words := Words(text);
    var n := |words|;
    var spaced := EndsWith(text, " ");
    if n == 0 then []
    else if n == 1 && !spaced then
      if StartsWith(words[0], "/") then Offer(c.commands, words[0], -|words[0]|, CommandMetaOf()) else []
    else if words[0] in ContextCommands && n == 1 then Offer(c.allScopes, "", 0, ScopeMetaOf(c))
    else if words[0] in ContextCommands && n == 2 && !spaced then Offer(c.allScopes, words[1], -|words[1]|, ScopeMetaOf(c))
    else if words[0] == "/plan" && n == 1 then Offer(PlanSubCommands, "", 0, NoMeta())
    else if words[0] == "/plan" && n == 2 && !spaced then Offer(PlanSubCommands, words[1], -|words[1]|, NoMeta())
    else []
  }

  // ---------------------------------------------------------------- words

  lemma {:induction false} TakeWordOf(w: string, rest: string)
    requires NoSpace(w) && (rest == [] || IsSpace(rest[0]))
    ensures TakeWord(w + rest) == w
    decreases |w|
  {
    if w == [] {
      assert w + rest == rest;
    } else {
      assert (w + rest)[1..] == w[1..] + rest;
      assert (w + rest)[0] == w[0];
      TakeWordOf(w[1..], rest);
    }
  }

  /** A word followed by whitespace or nothing is the first of `split()`. */
  lemma WordFirst(w: string, rest: string)
    requires w != [] && NoSpace(w) && (rest == [] || IsSpace(rest[0]))
    ensures Words(w + rest) == [w] + Words(rest)
  {
    TakeWordOf(w, rest);
    assert (w + rest)[0] == w[0];
    assert (w + rest)[|w|..] == rest;
  }

  lemma SpaceFirst(rest: string)
    ensures Words(" " + rest) == Words(rest)
  {
    assert (" " + rest)[1..] == rest;
  }

  /** `(w + " ").split() == [w]` */
  lemma OneWordSpaced(w: string)
    requires w != [] && NoSpace(w)
    ensures Words(w + " ") == [w]
  {
    WordFirst(w, " ");
    SpaceFirst("");
    assert " " + "" == " ";
  }

  /** `(a + " " + b).split() == [a, b]` */
  lemma TwoWords(a: string, b: string)
    requires a != [] && NoSpace(a) && b != [] && NoSpace(b)
    ensures Words(a + " " + b) == [a, b]
  {
    assert a + " " + b == a + (" " + b);
    WordFirst(a, " " + b);
    SpaceFirst(b);
    WordFirst(b, "");
    assert b + "" == b;
  }

  // ---------------------------------------------------------------- properties

  lemma {:induction false} TextsLength(r: seq<Completion>)
    ensures |Texts(r)| == |r|
  {
    if r != [] {
      TextsLength(r[1..]);
    }
  }

  lemma {:induction false} FilterAll<T>(s: seq<T>, f: T -> bool)
    requires forall k :: 0 <= k < |s| ==> f(s[k])
    ensures Filter(s, f) == s
  {
    if s != [] {
      FilterAll(s[1..], f);
    }
  }

  /** The empty prefix offers every item, once each, in order. */
  lemma OfferAll(items: seq<string>, start: int, meta: string -> Option<string>)
    ensures Texts(Offer(items, "", start, meta)) == items
    ensures |Offer(items, "", start, meta)| == |items|
  {
    forall k | 0 <= k < |items| ensures PrefixTest("")(items[k]) {
      assert items[k][..0] == "";
    }
    FilterAll(items, PrefixTest(""));
    TextsLength(Offer(items, "", start, meta));
  }

  /** Blank input gets no completion at all. */
  lemma BlankInputNothing(c: Completer, text: string)
    requires forall k :: 0 <= k < |text| ==> IsSpace(text[k])
    ensures Complete(c, text) == []
  {
    BlankHasNoWords(text);
  }

  lemma {:induction false} BlankHasNoWords(text: string)
    requires forall k :: 0 <= k < |text| ==> IsSpace(text[k])
    ensures Words(text) == []
    decreases |text|
  {
    if text != [] {
      BlankHasNoWords(text[1..]);
    }
  }

  /** While the first word is typed, exactly the commands with it as prefix are offered, and only after a `/`. */
  lemma TypingCommand(c: Completer, text: string)
    requires |Words(text)| == 1 && !EndsWith(text, " ")
    ensures var w := Words(text)[0];
      && (!StartsWith(w, "/") ==> Complete(c, text) == [])
      && (StartsWith(w, "/") ==>
            && Texts(Complete(c, text)) == Filter(c.commands, PrefixTest(w))
            && forall k :: 0 <= k < |Complete(c, text)| ==>
                 Complete(c, text)[k].start == -|w| && Complete(c, text)[k].meta == Some(MetaOf(Complete(c, text)[k].text)))
  {
  }

  /** Text whose first word is not a command gets no completion. */
  lemma NonCommandNothing(c: Completer, text: string)
    requires Words(text) != [] && !StartsWith(Words(text)[0], "/")
    ensures Complete(c, text) == []
  {
    assert Words(text)[0] !in ContextCommands by {
      assert StartsWith("/context", "/") && StartsWith("/add_context", "/");
    }
    assert Words(text)[0] != "/plan" by {
      assert StartsWith("/plan", "/");
    }
  }

  /** After `/context ` or `/add_context ` every scope is offered once, static ones marked as such. */
  lemma AfterContextCommand(c: Completer, command: string)
    requires command in ContextCommands
    ensures Texts(Complete(c, command + " ")) == c.allScopes
    ensures |Complete(c, command + " ")| == |c.allScopes|
    ensures forall k :: 0 <= k < |Complete(c, command + " ")| ==>
      var x := Complete(c, command + " ")[k];
      x.start == 0 && (x.meta == Some("Static scope") <==> x.text in c.staticScopes)
  {
    assert NoSpace(command);
    OneWordSpaced(command);
    assert EndsWith(command + " ", " ");
    OfferAll(c.allScopes, 0, ScopeMetaOf(c));
  }

  /** The second word after a context command picks the scopes it is a prefix of. */
  lemma TypingScope(c: Completer, command: string, w: string)
    requires command in ContextCommands && w != [] && NoSpace(w)
    ensures Texts(Complete(c, command + " " + w)) == Filter(c.allScopes, PrefixTest(w))
    ensures forall k :: 0 <= k < |Complete(c, command + " " + w)| ==>
      var x := Complete(c, command + " " + w)[k];
      x.start == -|w| && (x.meta == Some("Static scope") <==> x.text in c.staticScopes)
  {
    assert NoSpace(command);
    TwoWords(command, w);
    assert !EndsWith(command + " " + w, " ") by {
      assert (command + " " + w)[|command + " " + w| - 1] == w[|w| - 1];
    }
  }

  /** `/plan ` offers the three sub-commands in their order. */
  lemma AfterPlanCommand(c: Completer, command: string)
    requires command == "/plan"
    ensures Texts(Complete(c, command + " ")) == PlanSubCommands
    ensures forall k :: 0 <= k < |Complete(c, command + " ")| ==> Complete(c, command + " ")[k].start == 0
  {
    assert NoSpace(command);
    OneWordSpaced(command);
    assert EndsWith(command + " ", " ");
    assert command !in ContextCommands;
    OfferAll(PlanSubCommands, 0, NoMeta());
  }

  /** The word after `/plan` picks the sub-commands it is a prefix of. */
  lemma TypingPlanSubCommand(c: Completer, command: string, w: string)
    requires command == "/plan" && w != [] && NoSpace(w)
    ensures Texts(Complete(c, command + " " + w)) == Filter(PlanSubCommands, PrefixTest(w))
    ensures forall k :: 0 <= k < |Complete(c, command + " " + w)| ==>
      Complete(c, command + " " + w)[k] == Completion(Complete(c, command + " " + w)[k].text, -|w|, None)
  {
    assert NoSpace(command);
    TwoWords(command, w);
    assert command !in ContextCommands;
    assert !EndsWith(command + " " + w, " ") by {
      assert (command + " " + w)[|command + " " + w| - 1] == w[|w| - 1];
    }
  }

  /** `/plan --e` offers `--edit ` alone. */
  lemma PlanEditPrefix(c: Completer, w: string)
    requires w == "--e"
    ensures Complete(c, "/plan" + " " + w) == [Completion("--edit ", -3, None)]
  {
    TypingPlanSubCommand(c, "/plan", w);
    var r := Complete(c, "/plan" + " " + w);
    EditOnly(w);
    TextsLength(r);
    assert r[0].text == Texts(r)[0];
  }

  lemma EditOnly(w: string)
    requires w == "--e"
    ensures Filter(PlanSubCommands, PrefixTest(w)) == ["--edit "]
  {
    assert StartsWith("--edit ", w);
    assert !StartsWith("--rm ", w) by { assert "--rm "[..3][2] != w[2]; }
    assert !StartsWith("--add ", w) by { assert "--add "[..3][2] != w[2]; }
    var s := PlanSubCommands;
    assert s[1..][1..][1..] == [];
  }
}
