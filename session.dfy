/**
 * The agent session of `agent/session.py`: a goal, a numbered plan, the index of the
 * current step, the conversation history, the attached context and the result of the
 * last executed step waiting for approval.
 *
 * The executor (an LLM call), the planner (another LLM call) and the scope resolvers
 * the builder relies on are inputs.  Every method of the class is proved against a
 * transition function on `State` values; the lemmas at the end are about those.
 */
module Session {
  import opened Wrappers
  import opened Strings
  import opened Sorting
  import opened Paths
  import opened Files
  import opened ContextFormat
  import opened ScopeConfig
  import opened SourceTree
  import opened Parser
  import ContextBuild
  import opened Builder
  import opened Planner

  /** The text entries of the dictionary `executor.execute_step` returns ("instruction", "llm_response", ...). */
  type StepResult = map<string, string>

  /**
   * What the session calls and does not see into: `executor.execute_step(instruction,
   * history, context)`, `planner.generate_plan(goal, tree)` (the model name is folded
   * into both) and the builder's own inputs, whose `cwd` is `Path(".").resolve()`.
   */
  datatype Services = Services(
    execute: (string, seq<Message>, Option<string>) -> Option<StepResult>,
    plan: (string, string) -> Option<seq<string>>,
    builder: BuilderOracles)

  /** The fields of an `AgentSession` that its methods change, plus the files on disk. */
  datatype State = State(
    goal: Option<string>,
    plan: seq<string>,
    step: nat,
    context: Option<string>,
    contextFiles: seq<Path>,
    history: seq<Message>,
    pending: Option<StepResult>,
    fs: FileSystem)

  /** How `approve_changes` ends: `True`, `False`, or one of the two exceptions it can raise. */
  datatype Approval = Approved | NothingPending | StepIndexError | MissingResponse

  /** Python truthiness of a step result: present and not an empty dictionary. */
  predicate Truthy(r: Option<StepResult>) {
    r.Some? && r.value != map[]
  }

  function Initial(systemPrompt: string, fs: FileSystem): State {
    State(None, [], 0, None, [], [Message("system", systemPrompt)], None, fs)
  }

  // ---------------------------------------------------------------- goal and plan

  function WithGoal(s: State, goal: string): State {
    s.(goal := Some(goal), plan := [], step := 0)
  }

  /** `create_plan`: the planner sees the goal and the source tree of the context files. */
  function Planning(s: State, sv: Services): (bool, State) {
    if s.goal.None? || s.goal.value == "" then (false, s)
    else
      var planned := sv.plan(s.goal.value, SourceTreeText(sv.builder.cwd, s.contextFiles));
      if planned.Some? && planned.value != [] then (true, s.(plan := planned.value))
      else (false, s)
  }

  // ---------------------------------------------------------------- running a step

  /** `instruction_override or self.plan[self.current_step]` */
  function Instruction(s: State, override: Option<string>): string
    requires s.step < |s.plan|
  {
    if override.Some? && override.value != "" then override.value else s.plan[s.step]
  }

  function RunStep(s: State, sv: Services, override: Option<string>): (Option<StepResult>, State) {
    if s.plan == [] || s.step >= |s.plan| then (None, s)
    else
      var r := sv.execute(Instruction(s, override), s.history, s.context);
      (r, if Truthy(r) then s.(pending := r) else s)
  }

  function RetryInstruction(feedback: string, original: string): string {
    "My previous attempt was not correct. Here is my feedback: " + feedback
      + "\n\n---\n\nMy original instruction was: " + original
  }

  function Retry(s: State, sv: Services, feedback: string): (Option<StepResult>, State) {
    if s.step >= |s.plan| then (None, s)
    else RunStep(s, sv, Some(RetryInstruction(feedback, s.plan[s.step])))
  }

  // ---------------------------------------------------------------- approving a step

  function TaskPrompt(instruction: string): string {
    "Context attached.\n\n---\n\nMy task was: " + instruction
  }

  /**
   * `approve_changes`.  The default of `.get("instruction", self.plan[self.current_step])`
   * is evaluated before the lookup, so a step past the end raises even when the result
   * names its instruction.  A result without "llm_response" raises after the user
   * message has been appended.  Blocks are pasted relative to `cwd`.
   */
  function Approve(s: State, cwd: Path): (Approval, State) {
    if !Truthy(s.pending) then (NothingPending, s)
    else if s.step >= |s.plan| then (StepIndexError, s)
    else Commit(s, s.pending.value, cwd)
  }

  /** The part of `approve_changes` after both checks, for the pending result `res`. */
  function Commit(s: State, res: StepResult, cwd: Path): (Approval, State)
    requires s.step < |s.plan|
  {
    var used := if "instruction" in res then res["instruction"] else s.plan[s.step];
    var asked := s.history + [Message("user", TaskPrompt(used))];
    if "llm_response" !in res then (MissingResponse, s.(history := asked))
    else
      var response := res["llm_response"];
      (Approved, s.(history := asked + [Message("assistant", response)], fs := Paste(response, cwd, s.fs, true).1,
                    step := s.step + 1, pending := None))
  }

  // ---------------------------------------------------------------- context management

  function Cleared(s: State): State {
    s.(context := None, contextFiles := [])
  }

  function FilesOf(c: ContextObject): seq<Path> {
    match c.files
    case Some(files) => files
    case None => []
  }

  function CouldNotBuild(name: string): string {
    "⚠️  Could not build context for scope '" + name + "'. No files found."
  }

  const RebuildFailed := "⚠️  Failed to rebuild context with new files."

  function ZeroFiles(name: string): string {
    "⚠️  Scope '" + name + "' resolved to zero files. Context is unchanged."
  }

  /** Taking over a built context object; its tree is the message shown. */
  function Attach(s: State, c: ContextObject): (string, State) {
    (c.tree, s.(context := Some(c.context), contextFiles := FilesOf(c)))
  }

  /** `load_context_from_scope`, given what `build_context(name, ...)` returned. */
  function LoadContext(s: State, built: Option<ContextObject>, name: string): (string, State) {
    match built
    case Some(c) => Attach(s, c)
    case None => (CouldNotBuild(name), Cleared(s))
  }

  /** `sorted(list(set(old).union(set(new))))` */
  function Merged(current: seq<Path>, added: seq<Path>): seq<Path> {
    SortSet(set p | p in current + added, true)
  }

  /** `add_files_and_rebuild_context` */
  function AddFiles(s: State, sv: Services, added: seq<Path>): (string, State) {
    var updated := Merged(s.contextFiles, added);
    match FromFiles(s.fs, sv.builder.fetch, updated, sv.builder.cwd)
    case Some(c) => Attach(s, c)
    case None => (RebuildFailed, s)
  }

  /** `add_context_from_scope`, given what `build_context(name, ...)` returned. */
  function AddContext(s: State, sv: Services, built: Option<ContextObject>, name: string): (string, State) {
    if built.None? || FilesOf(built.value) == [] then (ZeroFiles(name), s)
    else AddFiles(s, sv, FilesOf(built.value))
  }

  // ---------------------------------------------------------------- the class

  class AgentSession {
    var goal: Option<string>
    var plan: seq<string>
    var currentStep: nat
    var context: Option<string>
    var contextFiles: seq<Path>
    var history: seq<Message>
    var lastResult: Option<StepResult>
    /** The files `paste_response` writes to. */
    var fs: FileSystem
    const scopes: Scopes
    const services: Services

    function Snapshot(): State
      reads this
    {
      State(goal, plan, currentStep, context, contextFiles, history, lastResult, fs)
    }

    /** `__init__`; the system prompt of `cli.helpers.get_system_prompt()` is a parameter. */
    constructor(systemPrompt: string, scopes: Scopes, services: Services, fs: FileSystem)
      ensures Snapshot() == Initial(systemPrompt, fs)
      ensures this.scopes == scopes && this.services == services
    {
      goal := None;
      plan := [];
      currentStep := 0;
      context := None;
      contextFiles := [];
      history := [Message("system", systemPrompt)];
      lastResult := None;
      this.fs := fs;
      this.scopes := scopes;
      this.services := services;
    }

    method SetGoal(g: string)
      modifies this
      ensures Snapshot() == WithGoal(old(Snapshot()), g)
    {
      goal := Some(g);
      plan := [];
      currentStep := 0;
    }

    method CreatePlan() returns (ok: bool)
      modifies this
      ensures (ok, Snapshot()) == Planning(old(Snapshot()), services)
    {
      if goal.None? || goal.value == "" {
        return false;
      }
      var tree := GenerateSourceTree(services.builder.cwd, contextFiles);
      var planned := services.plan(goal.value, tree);
      if planned.Some? && planned.value != [] {
        plan := planned.value;
        return true;
      }
      return false;
    }

    method RunCurrentStep(override: Option<string>) returns (r: Option<StepResult>)
      modifies this
      ensures (r, Snapshot()) == RunStep(old(Snapshot()), services, override)
    {
      if plan == [] || currentStep >= |plan| {
        return None;
      }
      var instruction := if override.Some? && override.value != "" then override.value else plan[currentStep];
      r := services.execute(instruction, history, context);
      if Truthy(r) {
        lastResult := r;
      }
    }

    method ApproveChanges() returns (r: Approval)
      modifies this
      ensures (r, Snapshot()) == Approve(old(Snapshot()), services.builder.cwd)
    {
      if !Truthy(lastResult) {
        return NothingPending;
      }
      if currentStep >= |plan| {
        return StepIndexError;
      }
      ghost var s0 := Snapshot();
      var res := lastResult.value;
      assert Approve(s0, services.builder.cwd) == Commit(s0, res, services.builder.cwd);
      var used := if "instruction" in res then res["instruction"] else plan[currentStep];
      history := history + [Message("user", TaskPrompt(used))];
      if "llm_response" !in res {
        return MissingResponse;
      }
      var response := res["llm_response"];
      history := history + [Message("assistant", response)];
      var report, written := PasteResponse(response, services.builder.cwd, fs, true);
      fs := written;
      currentStep := currentStep + 1;
      lastResult := None;
      return Approved;
    }

    method RetryStep(feedback: string) returns (r: Option<StepResult>)
      modifies this
      ensures (r, Snapshot()) == Retry(old(Snapshot()), services, feedback)
    {
      if currentStep >= |plan| {
        return None;
      }
      var original := plan[currentStep];
      r := RunCurrentStep(Some(RetryInstruction(feedback, original)));
    }

    method LoadContextFromScope(name: string) returns (msg: string)
      modifies this
      ensures (msg, Snapshot()) == LoadContext(old(Snapshot()), Builder.BuildSpec(old(fs), services.builder, scopes, name, services.builder.cwd), name)
    {
      var built := Builder.BuildContext(fs, services.builder, scopes, name, services.builder.cwd);
      if built.Some? {
        msg := UseContext(built.value);
        return;
      }
      ClearContext();
      return CouldNotBuild(name);
    }

    method AddFilesAndRebuildContext(added: seq<Path>) returns (msg: string)
      modifies this
      ensures (msg, Snapshot()) == AddFiles(old(Snapshot()), services, added)
    {
      var updated := Merged(contextFiles, added);
      var built := Builder.BuildContextFromFiles(fs, services.builder.fetch, updated, services.builder.cwd);
      if built.Some? {
        msg := UseContext(built.value);
        return;
      }
      return RebuildFailed;
    }

    method AddContextFromScope(name: string) returns (msg: string)
      modifies this
      ensures (msg, Snapshot()) == AddContext(old(Snapshot()), services, Builder.BuildSpec(old(fs), services.builder, scopes, name, services.builder.cwd), name)
    {
      var built := Builder.BuildContext(fs, services.builder, scopes, name, services.builder.cwd);
      if built.None? || FilesOf(built.value) == [] {
        return ZeroFiles(name);
      }
      msg := AddFilesAndRebuildContext(FilesOf(built.value));
    }

    /** The `if context_object:` branch shared by loading and rebuilding. */
    method UseContext(c: ContextObject) returns (msg: string)
      modifies this
      ensures (msg, Snapshot()) == Attach(old(Snapshot()), c)
    {
      context := Some(c.context);
      contextFiles := FilesOf(c);
      msg := c.tree;
    }

    method ClearContext()
      modifies this
      ensures Snapshot() == Cleared(old(Snapshot()))
    {
      context := None;
      contextFiles := [];
    }
  }
  // ---------------------------------------------------------------- properties

  /** `set_goal` forgets the plan, so neither running nor retrying a step does anything afterwards. */
  lemma NewGoalHasNoStep(s: State, sv: Services, g: string, override: Option<string>, feedback: string)
    ensures WithGoal(s, g).goal == Some(g) && WithGoal(s, g).plan == [] && WithGoal(s, g).step == 0
    ensures WithGoal(s, g).(goal := s.goal, plan := s.plan, step := s.step) == s
    ensures RunStep(WithGoal(s, g), sv, override) == (None, WithGoal(s, g))
    ensures Retry(WithGoal(s, g), sv, feedback) == (None, WithGoal(s, g))
  {
  }

  /** `create_plan` succeeds exactly when there is a goal and the planner proposes a non-empty plan. */
  lemma PlanningOutcome(s: State, sv: Services)
    ensures var (ok, t) := Planning(s, sv);
      && (s.goal.None? ==> !ok)
      && (!ok ==> t == s)
      && (ok <==> s.goal.Some? && s.goal.value != ""
                  && var planned := sv.plan(s.goal.value, SourceTreeText(sv.builder.cwd, s.contextFiles));
                     planned.Some? && planned.value != [])
      && (ok ==> t == s.(plan := sv.plan(s.goal.value, SourceTreeText(sv.builder.cwd, s.contextFiles)).value))
      && (t.plan != s.plan ==> ok && t.plan != [])
  {
  }

  /** `run_current_step` only ever records a truthy result; step index and history stay. */
  lemma RunStepKeeps(s: State, sv: Services, override: Option<string>)
    ensures var (r, t) := RunStep(s, sv, override);
      && (s.plan == [] || s.step >= |s.plan| ==> r.None? && t == s)
      && t.step == s.step && t.history == s.history
      && t == s.(pending := t.pending)
      && (t.pending != s.pending ==> Truthy(r) && t.pending == r)
      && (Truthy(r) ==> t.pending == r)
      && (s.step < |s.plan| ==> r == sv.execute(Instruction(s, override), s.history, s.context))
  {
  }

  /** An empty override falls back to the plan's current step. */
  lemma EmptyOverrideRunsPlanStep(s: State, sv: Services)
    requires s.step < |s.plan|
    ensures RunStep(s, sv, Some("")) == RunStep(s, sv, None)
    ensures RunStep(s, sv, None).0 == sv.execute(s.plan[s.step], s.history, s.context)
  {
  }

  /** Without a truthy pending result `approve_changes` returns False and changes nothing. */
  lemma ApproveNeedsResult(s: State, cwd: Path)
    ensures !Truthy(s.pending) <==> Approve(s, cwd) == (NothingPending, s)
  {
  }

  /**
   * A successful approval appends exactly a user and an assistant message, pastes the
   * response, advances the step by one and clears the pending result.
   */
  lemma ApproveAdvances(s: State, cwd: Path)
    ensures var (a, t) := Approve(s, cwd);
      a == Approved <==> Truthy(s.pending) && s.step < |s.plan| && "llm_response" in s.pending.value
    ensures var (a, t) := Approve(s, cwd);
      a == Approved ==>
        var res := s.pending.value;
        && |t.history| == |s.history| + 2
        && t.history[..|s.history|] == s.history
        && t.history[|s.history|].role == "user"
        && t.history[|s.history|].content == TaskPrompt(if "instruction" in res then res["instruction"] else s.plan[s.step])
        && t.history[|s.history| + 1] == Message("assistant", res["llm_response"])
        && t.step == s.step + 1
        && t.pending.None?
        && t.fs == Paste(res["llm_response"], cwd, s.fs, true).1
        && t.(history := s.history, step := s.step, pending := s.pending, fs := s.fs) == s
  {
  }

  /**
   * The two ways `approve_changes` raises: past the end of the plan nothing has changed;
   * without "llm_response" the user message is already in the history and nothing else changed.
   */
  lemma ApproveRaises(s: State, cwd: Path)
    ensures Approve(s, cwd).0 == StepIndexError <==> Truthy(s.pending) && s.step >= |s.plan|
    ensures Approve(s, cwd).0 == StepIndexError ==> Approve(s, cwd).1 == s
    ensures Approve(s, cwd).0 == MissingResponse <==>
      Truthy(s.pending) && s.step < |s.plan| && "llm_response" !in s.pending.value
    ensures Approve(s, cwd).0 == MissingResponse ==>
      var t := Approve(s, cwd).1;
      |t.history| == |s.history| + 1 && t.history[..|s.history|] == s.history
      && t.history[|s.history|].role == "user" && t == s.(history := t.history)
  {
  }

  /**
   * Setting a new goal does not drop a pending result, and approving it afterwards raises
   * at the eager default of line 65, even when the result names its own instruction.
   */
  lemma StaleResultAfterNewGoal(s: State, g: string, cwd: Path)
    requires Truthy(s.pending)
    ensures Approve(WithGoal(s, g), cwd) == (StepIndexError, WithGoal(s, g))
  {
  }

  lemma RetryMentionsBoth(feedback: string, original: string)
    ensures Contains(RetryInstruction(feedback, original), feedback)
    ensures Contains(RetryInstruction(feedback, original), original)
    ensures RetryInstruction(feedback, original) != ""
  {
    var head := "My previous attempt was not correct. Here is my feedback: ";
    var middle := "\n\n---\n\nMy original instruction was: ";
    var r := RetryInstruction(feedback, original);
    assert r == head + feedback + middle + original;
    assert r[|head|..|head| + |feedback|] == feedback;
    assert OccursAt(r, feedback, |head|);
    assert r[|head + feedback + middle|..] == original;
    assert OccursAt(r, original, |head + feedback + middle|);
  }

  /**
   * `retry_step` runs the current step once more with an instruction that carries both
   * the feedback and the original step; it never advances the step or touches the history.
   */
  lemma RetryRuns(s: State, sv: Services, feedback: string)
    ensures s.step >= |s.plan| ==> Retry(s, sv, feedback) == (None, s)
    ensures s.step < |s.plan| ==>
      var instruction := RetryInstruction(feedback, s.plan[s.step]);
      && Contains(instruction, feedback) && Contains(instruction, s.plan[s.step])
      && Retry(s, sv, feedback).0 == sv.execute(instruction, s.history, s.context)
    ensures Retry(s, sv, feedback).1.step == s.step && Retry(s, sv, feedback).1.history == s.history
  {
    if s.step < |s.plan| {
      RetryMentionsBoth(feedback, s.plan[s.step]);
      RunStepKeeps(s, sv, Some(RetryInstruction(feedback, s.plan[s.step])));
    }
  }

  /** The list handed to the builder is sorted, free of duplicates and is the union of both lists. */
  lemma MergedIsUnion(current: seq<Path>, added: seq<Path>)
    ensures StrictlySorted(Merged(current, added), true)
    ensures forall i, j :: 0 <= i < j < |Merged(current, added)| ==> Merged(current, added)[i] != Merged(current, added)[j]
    ensures forall p :: p in Merged(current, added) <==> p in current || p in added
    ensures Merged(current, added) == [] <==> current == [] && added == []
  {
    var m := Merged(current, added);
    LessAsymmetricAll(true);
    forall i, j | 0 <= i < j < |m| ensures m[i] != m[j] {
      assert Less(m[i], m[j], true);
    }
    if current != [] {
      assert current[0] in m;
    } else if added != [] {
      assert added[0] in m;
    }
  }

  /** Adding files that are already there leaves the list as it is. */
  lemma MergedAbsorbs(current: seq<Path>, added: seq<Path>)
    ensures Merged(Merged(current, added), added) == Merged(current, added)
    ensures Merged(Merged(current, added), []) == Merged(current, added)
  {
    var m := Merged(current, added);
    MergedIsUnion(current, added);
    assert (set p | p in m + added) == (set p | p in current + added);
    SortSetOfSorted(m, true);
    assert (set p | p in m + []) == (set p | p in m);
  }

  /**
   * `add_files_and_rebuild_context` rebuilds from the merged list; it fails, changing
   * nothing, only when there are no files at all.
   */
  lemma AddFilesOutcome(s: State, sv: Services, added: seq<Path>)
    ensures var (msg, t) := AddFiles(s, sv, added);
      s.contextFiles == [] && added == [] ==> msg == RebuildFailed && t == s
    ensures var (msg, t) := AddFiles(s, sv, added);
      s.contextFiles != [] || added != [] ==>
        var files := Merged(s.contextFiles, added);
        && t.contextFiles == files
        && msg == SourceTreeText(sv.builder.cwd, files)
        && t.context == Some(ContextOf(s.fs, sv.builder.fetch, files, [], sv.builder.cwd).context)
        && t == s.(context := t.context, contextFiles := t.contextFiles)
  {
    MergedIsUnion(s.contextFiles, added);
  }

  /** `load_context_from_scope` of an unknown static scope clears the context. */
  lemma LoadUnknownScopeClears(s: State, fs: FileSystem, o: BuilderOracles, scopes: Scopes, name: string)
    requires !StartsWith(name, "@") && ContextBuild.NoScope(scopes, name)
    ensures LoadContext(s, Builder.BuildSpec(fs, o, scopes, name, o.cwd), name) == (CouldNotBuild(name), Cleared(s))
    ensures Cleared(s).context.None? && Cleared(s).contextFiles == []
  {
  }

  /** `load_context_from_scope` replaces the context by the built one, or clears it. */
  lemma LoadContextOutcome(s: State, built: Option<ContextObject>, name: string)
    ensures var (msg, t) := LoadContext(s, built, name);
      && (built.None? ==> t.context.None? && t.contextFiles == [] && msg == CouldNotBuild(name))
      && (built.Some? ==> t.context == Some(built.value.context) && msg == built.value.tree
                          && (built.value.files.Some? ==> t.contextFiles == built.value.files.value))
      && t == s.(context := t.context, contextFiles := t.contextFiles)
  {
  }

  /** `add_context_from_scope` leaves the context as it is when the scope yields no files. */
  lemma AddContextNeedsFiles(s: State, sv: Services, built: Option<ContextObject>, name: string)
    ensures built.None? || built.value.files.None? || built.value.files == Some([]) ==>
      AddContext(s, sv, built, name) == (ZeroFiles(name), s)
    ensures built.Some? && built.value.files.Some? && built.value.files.value != [] ==>
      AddContext(s, sv, built, name) == AddFiles(s, sv, built.value.files.value)
  {
  }

  /** ... hence also for an unknown static scope. */
  lemma AddUnknownScopeUnchanged(s: State, sv: Services, fs: FileSystem, scopes: Scopes, name: string)
    requires !StartsWith(name, "@") && ContextBuild.NoScope(scopes, name)
    ensures AddContext(s, sv, Builder.BuildSpec(fs, sv.builder, scopes, name, sv.builder.cwd), name) == (ZeroFiles(name), s)
  {
  }

  /** The history starts with the system prompt. */
  predicate SystemFirst(s: State) {
    |s.history| > 0 && s.history[0].role == "system"
  }

  /** The history is append-only: every transition keeps the old history as a prefix. */
  predicate Extends(s: State, t: State) {
    |s.history| <= |t.history| && t.history[..|s.history|] == s.history
  }

  lemma ExtendsKeepsSystemFirst(s: State, t: State)
    requires SystemFirst(s) && Extends(s, t)
    ensures SystemFirst(t)
  {
    assert t.history[0] == t.history[..|s.history|][0];
  }

  /** The steps of the plan only ever append to the history. */
  lemma HistoryAppendOnly(s: State, sv: Services, g: string, override: Option<string>, feedback: string)
    ensures Extends(s, WithGoal(s, g)) && Extends(s, Planning(s, sv).1)
    ensures Extends(s, RunStep(s, sv, override).1) && Extends(s, Retry(s, sv, feedback).1)
  {
    RetryRuns(s, sv, feedback);
  }

  /** Context management never touches the history. */
  lemma ContextKeepsHistory(s: State, sv: Services, built: Option<ContextObject>, name: string, added: seq<Path>)
    ensures LoadContext(s, built, name).1.history == s.history && Cleared(s).history == s.history
    ensures AddFiles(s, sv, added).1.history == s.history && AddContext(s, sv, built, name).1.history == s.history
  {
  }

  /**
   * Approving appends to the history as well; so a fresh session starts with the system
   * prompt and approving keeps it first.
   */
  lemma SystemPromptStaysFirst(s: State, prompt: string, fs: FileSystem, cwd: Path)
    requires SystemFirst(s)
    ensures Extends(s, Approve(s, cwd).1)
    ensures SystemFirst(Initial(prompt, fs))
    ensures SystemFirst(Approve(s, cwd).1)
  {
    ApproveAdvances(s, cwd);
    ApproveRaises(s, cwd);
    ExtendsKeepsSystemFirst(s, Approve(s, cwd).1);
  }
}
