/**
 * The pure part of `agent/planner.py`: the two prompt builders and the plan parser,
 * `re.findall(r"^\s*\d+\.\s+(.*)", response, re.MULTILINE)`, hand-coded as a scanner.
 *
 * The regular expression is deterministic at every start position: `\s*` and `\d+` can
 * only stop where the next character cannot continue them, `\s+` is followed by `.*`,
 * which never fails, so each of the three runs is maximal.  `\s` is `str.isspace`
 * (Strings.IsSpace), `.` is any character but a line feed, and `^` holds at the start
 * of the text and right after a line feed.
 */
module Planner {
  import opened Wrappers
  import opened Strings

  /** One `{"role": ..., "content": ...}` message sent to the model. */
  datatype Message = Message(role: string, content: string)

  // ---------------------------------------------------------------- prompts

  const PlanningSystemPrompt :=
    "You are an expert software architect and senior developer. Your task is to create a high-level, "
    + "step-by-step plan to accomplish a user's goal. Focus on the necessary file modifications and creations. "
    + "Do not write code or implementation details. Each step should be a single, clear, actionable instruction "
    + "for a programmer to execute. The plan must be a numbered list."

  const PlanningIntro := "Based on my goal and the project structure below, create your plan.\n\n"

  function StructureSection(tree: string): string {
    "## Project Structure:\n```\n" + tree + "\n```"
  }

  function GoalSection(goal: string): string {
    "## Goal:\n" + goal
  }

  const RefineIntro :=
    "The user has provided feedback or a new idea on the plan you created. "
    + "Carefully review the entire conversation and their latest feedback. "
    + "Your task is to generate a new, complete, and improved step-by-step plan that incorporates their feedback. "
    + "The new plan should be a single, cohesive, numbered list. Do not just add to the old plan; create a new one from scratch."

  function FeedbackSection(feedback: string): string {
    "\n\n## User Feedback:\n" + feedback
  }

  lemma ContainsInside(a: string, w: string, b: string)
    ensures Contains(a + w + b, w)
  {
    assert (a + w + b)[|a|..|a| + |w|] == w;
    assert OccursAt(a + w + b, w, |a|);
  }

  /** `_get_planning_prompt(goal, context_tree)` */
  function PlanningPrompt(goal: string, tree: string): (r: seq<Message>)
    ensures |r| == 2 && r[0].role == "system" && r[1].role == "user"
    ensures Contains(r[1].content, StructureSection(tree)) && Contains(r[1].content, GoalSection(goal))
    ensures EndsWith(r[1].content, GoalSection(goal))
  {
    var user := PlanningIntro + StructureSection(tree) + "\n\n" + GoalSection(goal);
    ContainsInside(PlanningIntro, StructureSection(tree), "\n\n" + GoalSection(goal));
    assert PlanningIntro + StructureSection(tree) + ("\n\n" + GoalSection(goal)) == user;
    ContainsInside(PlanningIntro + StructureSection(tree) + "\n\n", GoalSection(goal), "");
    assert PlanningIntro + StructureSection(tree) + "\n\n" + GoalSection(goal) + "" == user;
    [Message("system", PlanningSystemPrompt), Message("user", user)]
  }

  /** `_get_refine_prompt(history, feedback)`: the history, then one more user message. */
  function RefinePrompt(history: seq<Message>, feedback: string): (r: seq<Message>)
    ensures |r| == |history| + 1 && r[..|history|] == history
    ensures r[|history|].role == "user"
    ensures StartsWith(r[|history|].content, RefineIntro)
    ensures EndsWith(r[|history|].content, FeedbackSection(feedback))
  {
    var content := RefineIntro + FeedbackSection(feedback);
    assert content[..|RefineIntro|] == RefineIntro;
    assert content[|content| - |FeedbackSection(feedback)|..] == FeedbackSection(feedback);
    history + [Message("user", content)]
  }

  // ---------------------------------------------------------------- the scanner

  predicate IsDigit(c: char) {
    '0' <= c <= '9'
  }

  /** The end of the longest run of whitespace from `i`. */
  function SpaceEnd(t: string, i: nat): (r: nat)
    requires i <= |t|
    ensures i <= r <= |t|
    ensures forall k :: i <= k < r ==> IsSpace(t[k])
    ensures r == |t| || !IsSpace(t[r])
    decreases |t| - i
  {
    if i == |t| || !IsSpace(t[i]) then i else SpaceEnd(t, i + 1)
  }

  /** The end of the longest run of digits from `i`. */
  function DigitEnd(t: string, i: nat): (r: nat)
    requires i <= |t|
    ensures i <= r <= |t|
    ensures forall k :: i <= k < r ==> IsDigit(t[k])
    ensures r == |t| || !IsDigit(t[r])
    decreases |t| - i
  {
    if i == |t| || !IsDigit(t[i]) then i else DigitEnd(t, i + 1)
  }

  /**
   * The match of `\s*\d+\.\s+(.*)` at the start of `t`: the captured group and where
   * the match ends.  Leading whitespace is passed over one character at a time.
   */
  function MatchHere(t: string): (r: Option<(string, nat)>)
    ensures r.Some? ==> 0 < r.value.1 <= |t|
    decreases |t|
  {
    if t != [] && IsSpace(t[0]) then
      match MatchHere(t[1..])
      case Some((step, e)) => Some((step, e + 1))
      case None => None
    else NumberAt(t)
  }

  /** `\d+\.\s+(.*)` at the start of `t`. */
  function NumberAt(t: string): (r: Option<(string, nat)>)
    ensures r.Some? ==> 0 < r.value.1 <= |t|
  {
    var b := DigitEnd(t, 0);
    if b == 0 || b == |t| || t[b] != '.' then None
    else
      var c := SpaceEnd(t, b + 1);
      if c == b + 1 then None
      else
        var e := LineEnd(t, c);
        Some((t[c..e], e))
  }

  /**
   * All matches of the pattern in `t`, scanning left to right and resuming after each
   * match; `bol` says whether `^` holds at the start of `t`.
   */
  function FindAll(t: string, bol: bool): seq<string>
    decreases |t|
  {
    if t == [] then []
    else
      var m := if bol then MatchHere(t) else None;
      match m
      case Some((step, e)) => [step] + FindAll(t[e..], t[e - 1] == '\n')
      case None => FindAll(t[1..], t[0] == '\n')
  }

  /** `parse_plan_from_response(response_text)`: `None` for no text and for no numbered line. */
  function ParsePlan(response: Option<string>): (r: Option<seq<string>>)
    ensures response.None? || response == Some("") ==> r.None?
    ensures r.Some? ==> r.value != [] && response.Some? && r.value == FindAll(response.value, true)
    ensures response.Some? && FindAll(response.value, true) != [] ==> r.Some?
  {
    if response.None? || response.value == "" then None
    else
      var plan := FindAll(response.value, true);
      if plan == [] then None else Some(plan)
  }

  // ---------------------------------------------------------------- properties

  /** A step is one line, and it never starts with whitespace. */
  predicate OneLine(step: string) {
    (forall k :: 0 <= k < |step| ==> step[k] != '\n') && (step == [] || !IsSpace(step[0]))
  }

  lemma {:induction false} MatchIsOneLine(t: string)
    requires MatchHere(t).Some?
    ensures OneLine(MatchHere(t).value.0)
    decreases |t|
  {
    if t != [] && IsSpace(t[0]) {
      MatchIsOneLine(t[1..]);
    }
  }

  lemma {:induction false} StepsAreLines(t: string, bol: bool)
    ensures forall step :: step in FindAll(t, bol) ==> OneLine(step)
    decreases |t|
  {
    if t != [] {
      var m := if bol then MatchHere(t) else None;
      match m
      case Some((step, e)) =>
        MatchIsOneLine(t);
        StepsAreLines(t[e..], t[e - 1] == '\n');
      case None =>
        StepsAreLines(t[1..], t[0] == '\n');
    }
  }

  /** What a well-formed numbered step looks like: non-empty, one line, no leading whitespace. */
  predicate PlainStep(step: string) {
    step != [] && OneLine(step)
  }

  /** `k. step`, the rendering of one numbered line. */
  function NumberedLine(k: nat, step: string): string {
    Show(k) + ". " + step
  }

  /** A numbered list, one step per line, from `k` on; every line ends in a line feed. */
  function Numbered(steps: seq<string>, k: nat): string
    decreases |steps|
  {
    if steps == [] then "" else NumberedLine(k, steps[0]) + "\n" + Numbered(steps[1..], k + 1)
  }

  /** The match at the start of a numbered line takes exactly the step and stops before the line feed. */
  lemma MatchNumberedLine(k: nat, step: string, rest: string)
    requires PlainStep(step)
    ensures MatchHere(NumberedLine(k, step) + "\n" + rest) == Some((step, |NumberedLine(k, step)|))
  {
    var d := Show(k);
    var t := NumberedLine(k, step) + "\n" + rest;
    assert t == d + ". " + step + "\n" + rest;
    assert !IsSpace(t[0]) by { assert t[0] == d[0]; }
    DigitsRun(t, d, 0);
    assert t[|d|] == '.';
    assert t[|d| + 1] == ' ';
    assert t[|d| + 2] == step[0];
    assert SpaceEnd(t, |d| + 2) == |d| + 2;
    assert SpaceEnd(t, |d| + 1) == |d| + 2;
    LineRun(t, |d| + 2, step);
    assert t[|d| + 2..|d| + 2 + |step|] == step;
  }

  lemma {:induction false} DigitsRun(t: string, d: string, i: nat)
    requires i <= |d| < |t|
    requires t[..|d|] == d && !IsDigit(t[|d|])
    requires forall k :: 0 <= k < |d| ==> IsDigit(d[k])
    ensures DigitEnd(t, i) == |d|
    decreases |d| - i
  {
    if i < |d| {
      assert t[i] == d[i];
      DigitsRun(t, d, i + 1);
    }
  }

  lemma {:induction false} LineRun(t: string, i: nat, step: string)
    requires i + |step| < |t| && t[i..i + |step|] == step && t[i + |step|] == '\n'
    requires forall k :: 0 <= k < |step| ==> step[k] != '\n'
    ensures LineEnd(t, i) == i + |step|
    decreases |step|
  {
    if step != [] {
      assert t[i] == step[0];
      assert t[i + 1..i + 1 + |step[1..]|] == step[1..];
      LineRun(t, i + 1, step[1..]);
    }
  }

  /** A line feed is skipped: at a line start, `\s*` would only have eaten it anyway. */
  lemma LineFeedSkipped(rest: string)
    ensures FindAll("\n" + rest, false) == FindAll(rest, true)
  {
    var t := "\n" + rest;
    assert t[1..] == rest;
  }

  /** Scanning off a line start passes over the rest of the line. */
  lemma {:induction false} RestOfLineSkipped(h: string, rest: string)
    requires forall k :: 0 <= k < |h| ==> h[k] != '\n'
    ensures FindAll(h + "\n" + rest, false) == FindAll(rest, true)
    decreases |h|
  {
    if h == [] {
      assert h + "\n" + rest == "\n" + rest;
      LineFeedSkipped(rest);
    } else {
      var t := h + "\n" + rest;
      assert t[1..] == h[1..] + "\n" + rest;
      RestOfLineSkipped(h[1..], rest);
    }
  }

  /** A line that starts with neither whitespace nor a digit holds no step and is skipped. */
  lemma ProseLineSkipped(h: string, rest: string)
    requires h != [] && !IsSpace(h[0]) && !IsDigit(h[0])
    requires forall k :: 0 <= k < |h| ==> h[k] != '\n'
    ensures FindAll(h + "\n" + rest, true) == FindAll(rest, true)
  {
    var t := h + "\n" + rest;
    assert t[0] == h[0];
    assert DigitEnd(t, 0) == 0;
    assert MatchHere(t).None?;
    assert t[1..] == h[1..] + "\n" + rest;
    RestOfLineSkipped(h[1..], rest);
  }

  /** An empty line at a line start is skipped as well. */
  lemma BlankLineSkipped(rest: string)
    ensures FindAll("\n" + rest, true) == FindAll(rest, true)
  {
    var t := "\n" + rest;
    assert t[1..] == rest;
    assert IsSpace(t[0]);
    assert MatchHere(t) == match MatchHere(rest) case Some((step, e)) => Some((step, e + 1)) case None => None;
    match MatchHere(rest)
    case Some((step, e)) =>
      assert t[e + 1..] == rest[e..];
      assert t[e] == rest[e - 1];
    case None =>
  }

  /** Round trip: a numbered list of plain steps parses back to exactly those steps, in order. */
  lemma {:induction false} NumberedRoundTrip(steps: seq<string>, k: nat)
    requires forall i :: 0 <= i < |steps| ==> PlainStep(steps[i])
    ensures FindAll(Numbered(steps, k), true) == steps
    decreases |steps|
  {
    if steps != [] {
      var line := NumberedLine(k, steps[0]);
      var rest := Numbered(steps[1..], k + 1);
      var t := line + "\n" + rest;
      assert Numbered(steps, k) == t;
      MatchNumberedLine(k, steps[0], rest);
      assert t[|line|..] == "\n" + rest;
      assert t[|line| - 1] == steps[0][|steps[0]| - 1];
      LineFeedSkipped(rest);
      NumberedRoundTrip(steps[1..], k + 1);
    }
  }

  /**
   * The shape the planner's model is asked for: a blank line, one line of prose, then the
   * numbered list.  The plan is exactly the list.
   */
  lemma PlanOfNumberedResponse(intro: string, steps: seq<string>)
    requires steps != [] && forall i :: 0 <= i < |steps| ==> PlainStep(steps[i])
    requires intro != [] && !IsSpace(intro[0]) && !IsDigit(intro[0])
    requires forall k :: 0 <= k < |intro| ==> intro[k] != '\n'
    ensures ParsePlan(Some("\n" + intro + "\n" + Numbered(steps, 1))) == Some(steps)
  {
    NumberedRoundTrip(steps, 1);
    PreambleSkipped(intro, Numbered(steps, 1));
    ParseFound("\n" + intro + "\n" + Numbered(steps, 1), steps);
  }

  /** A blank line and a line of prose before the list are passed over. */
  lemma PreambleSkipped(intro: string, list: string)
    requires intro != [] && !IsSpace(intro[0]) && !IsDigit(intro[0])
    requires forall k :: 0 <= k < |intro| ==> intro[k] != '\n'
    ensures FindAll("\n" + intro + "\n" + list, true) == FindAll(list, true)
  {
    var body := intro + "\n" + list;
    ProseLineSkipped(intro, list);
    BlankLineSkipped(body);
    assert "\n" + intro + "\n" + list == "\n" + body;
  }

  lemma ParseFound(x: string, steps: seq<string>)
    requires steps != [] && FindAll(x, true) == steps
    ensures ParsePlan(Some(x)) == Some(steps)
  {
  }

  /** Text without any numbered line gives no plan at all, never an empty one. */
  lemma ProseOnlyHasNoPlan(h: string)
    requires h != [] && !IsSpace(h[0]) && !IsDigit(h[0])
    requires forall k :: 0 <= k < |h| ==> h[k] != '\n'
    ensures ParsePlan(Some(h + "\n")) == None
  {
    ProseLineSkipped(h, "");
    assert h + "\n" == h + "\n" + "";
  }
}
