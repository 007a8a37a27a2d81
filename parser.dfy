/**
 * `paste_response`: finds every block `<file_path:P>` + optional whitespace + "```" + info line
 * + code + "\n```" in a reply and writes each code text to the file named by P.
 *
 * The pattern `<file_path:([^>]+?)>\s*```(?:.*?)\n(.*?)\n```` (with DOTALL) matches at index i
 * exactly when, after "<file_path:", a non-empty text without '>' runs up to a '>', optional
 * whitespace follows, then "```", then a newline somewhere later, then "\n```" somewhere after
 * that newline; the lazy groups take the first such '>', newline and "\n```". `MatchAt` is that
 * characterisation, `Scan` is `finditer`.
 */
module Parser {
  import opened Wrappers
  import opened Strings
  import opened Paths
  import opened Files

  const OpenTag := "<file_path:"
  const Fence := "```"
  const CloseFence := "\n```"

  /** The two groups of one match: the path text and the code. */
  datatype Block = Block(path: string, code: string)

  datatype Match = Match(block: Block, end: nat)

  /** The first index at or after `i` that is not whitespace. */
  function SkipSpace(s: string, i: nat): (r: nat)
    requires i <= |s|
    ensures i <= r <= |s|
    ensures r == |s| || !IsSpace(s[r])
    decreases |s| - i
  {
    if i < |s| && IsSpace(s[i]) then SkipSpace(s, i + 1) else i
  }

  /** Everything `SkipSpace` passes over is whitespace: it is the `\s*` of the pattern. */
  lemma {:induction false} SkipSpaceSkips(s: string, i: nat)
    requires i <= |s|
    ensures forall k :: i <= k < SkipSpace(s, i) ==> IsSpace(s[k])
    decreases |s| - i
  {
    if i < |s| && IsSpace(s[i]) {
      SkipSpaceSkips(s, i + 1);
    }
  }

  /** Where the path group of a match at `i` ends: the first '>' after the tag, if the group is not empty. */
  function TagEnd(s: string, i: nat): (r: Option<nat>)
    ensures r.Some? ==> OccursAt(s, OpenTag, i) && i + |OpenTag| < r.value < |s| && s[r.value] == '>'
  {
    if !OccursAt(s, OpenTag, i) then None
    else
      var p := i + |OpenTag|;
      match Find(s, ">", p)
      case None => None
      case Some(g) =>
        if g == p then None
        else
          assert s[g..g + 1] == [s[g]];
          Some(g)
  }

  /** The path group holds no '>': the tag ends at the first one. */
  lemma TagEndFirst(s: string, i: nat)
    ensures TagEnd(s, i).Some? ==> '>' !in s[i + |OpenTag|..TagEnd(s, i).value]
  {
    if TagEnd(s, i).Some? {
      var p, g := i + |OpenTag|, TagEnd(s, i).value;
      FindIsFirst(s, ">", p);
      forall k | p <= k < g ensures s[k] != '>' {
        assert !OccursAt(s, ">", k);
        assert s[k..k + 1] == [s[k]];
      }
      assert forall k :: 0 <= k < g - p ==> s[p..g][k] == s[p + k];
    }
  }

  /**
   * What follows the '>' at `g`: optional whitespace, then `FencedCode`. The result is where the
   * code starts and where it stops.
   */
  function CodeSpan(s: string, g: nat): (r: Option<(nat, nat)>)
    requires g < |s|
    ensures r.Some? ==> g < r.value.0 <= r.value.1 && r.value.1 + |CloseFence| <= |s|
  {
    FencedCode(s, SkipSpace(s, g + 1))
  }

  /** From index `b`: "```", the rest of that line, then the code up to the first "\n```". */
  function FencedCode(s: string, b: nat): (r: Option<(nat, nat)>)
    ensures r.Some? ==> b < r.value.0 <= r.value.1 && r.value.1 + |CloseFence| <= |s|
  {
    if !OccursAt(s, Fence, b) then None
    else
      match Find(s, "\n", b + 3)
      case None => None
      case Some(n) =>
        match Find(s, CloseFence, n + 1)
        case None => None
        case Some(c) => Some((n + 1, c))
  }

  /** The match of the response pattern that starts at index `i`, if any. */
  function MatchAt(s: string, i: nat): (r: Option<Match>)
    ensures r.Some? ==> i < r.value.end <= |s| && OccursAt(s, OpenTag, i)
    ensures r.Some? ==> r.value.block.path != "" && '>' !in r.value.block.path
  {
    TagEndFirst(s, i);
    match TagEnd(s, i)
    case None => None
    case Some(g) =>
      match CodeSpan(s, g)
      case None => None
      case Some(span) => Some(Match(Block(s[i + |OpenTag|..g], s[span.0..span.1]), span.1 + |CloseFence|))
  }

  /** `finditer` from index `i`: after a match the scan resumes where it ended. */
  function Scan(s: string, i: nat): seq<Block>
    decreases |s| - i
  {
    if i >= |s| then []
    else
      match MatchAt(s, i)
      case Some(m) => [m.block] + Scan(s, m.end)
      case None => Scan(s, i + 1)
  }

  /** What happened to one block. */
  datatype Outcome = Written(path: Path) | Skipped(path: Path) | Failed(path: Path) | NoPath

  /**
   * One block reduced to what the write needs: the target `Path(group1.strip()).resolve()`, the
   * directories `target.parent.mkdir(parents=True)` must provide, and the code.
   */
  datatype Job = Job(target: Path, chain: set<Path>, code: string)

  /** The job for a block; none when its stripped path is empty. */
  function JobOf(cwd: Path, b: Block): (r: Option<Job>)
    ensures r.Some? ==> r.value.code == b.code
  {
    var text := Strip(b.path);
    if text == "" then None
    else
      var t := Resolve(cwd, text);
      Some(Job(t, AncestorsOrSelf(Parent(t)), b.code))
  }

  function Jobs(cwd: Path, bs: seq<Block>): (r: seq<Option<Job>>)
    ensures |r| == |bs| && forall k :: 0 <= k < |bs| ==> r[k] == JobOf(cwd, bs[k])
  {
    seq(|bs|, k requires 0 <= k < |bs| => JobOf(cwd, bs[k]))
  }

  /**
   * How the current text of the target is compared with the code: in text mode, as the source
   * reads it (`read_text`), or exactly as stored.
   */
  function Current(fs: FileSystem, t: Path, exact: bool): (r: Option<string>)
    ensures r.Some? <==> fs.IsFile(t) && t !in fs.unreadable && t !in fs.undecodable
  {
    if exact then ReadStored(fs, t) else ReadText(fs, t)
  }

  /** Everything after `mkdir` succeeded: compare, then write if different. */
  function Store(fs: FileSystem, t: Path, code: string, exact: bool): (r: (Outcome, FileSystem))
    ensures r.0.Written? || r.0.Skipped? || r.0.Failed?
    ensures r.0.path == t
    ensures r.0.Written? ==> r.1.files == fs.files[t := code]
    ensures !r.0.Written? ==> r.1.files == fs.files
    ensures r.1.dirs == fs.dirs && r.1.unreadable == fs.unreadable && r.1.readOnly == fs.readOnly
    ensures r.0.Skipped? ==> Current(fs, t, exact) == Some(code)
    ensures !r.0.Written? ==> r.1 == fs
    ensures r.0.Written? ==> r.1 == fs.(files := fs.files[t := code], undecodable := fs.undecodable - {t})
    ensures r.0.Written? ==> t !in fs.dirs && (t in fs.files ==> Current(fs, t, exact).Some?)
    ensures fs.Valid() ==> r.1.Valid()
  {
    if t in fs.files || t in fs.dirs then
      match Current(fs, t, exact)
      case None => (Failed(t), fs)
      case Some(text) =>
        if text == code then (Skipped(t), fs)
        else Write(fs, t, code)
    else Write(fs, t, code)
  }

  function Write(fs: FileSystem, t: Path, code: string): (r: (Outcome, FileSystem))
    ensures r.0 == Written(t) || r.0 == Failed(t)
    ensures r.0.Written? ==> r.1 == fs.(files := fs.files[t := code], undecodable := fs.undecodable - {t})
    ensures r.0.Failed? ==> r.1 == fs && (t in fs.readOnly || t in fs.dirs)
    ensures fs.Valid() ==> r.1.Valid()
  {
    match WriteText(fs, t, code)
    case None => (Failed(t), fs)
    case Some(fs') => (Written(t), fs')
  }

  /** One iteration of the loop over matches: `mkdir`, compare, write. */
  function Apply(fs: FileSystem, job: Option<Job>, exact: bool): (r: (Outcome, FileSystem))
    ensures r.0.NoPath? <==> job.None?
    ensures job.Some? ==> r.0.path == job.value.target
    ensures r.0.Written? ==> r.1.files == fs.files[r.0.path := job.value.code]
    ensures !r.0.Written? ==> r.1.files == fs.files
    ensures r.1.dirs >= fs.dirs && r.1.unreadable == fs.unreadable && r.1.readOnly == fs.readOnly
    ensures r.0.Written? ==> r.1.undecodable == fs.undecodable - {r.0.path} && r.0.path !in r.1.dirs
    ensures !r.0.Written? ==> r.1.undecodable == fs.undecodable
    ensures r.0.Skipped? ==> Current(r.1, r.0.path, exact) == Some(job.value.code)
    ensures fs.Valid() ==> r.1.Valid()
  {
    match job
    case None => (NoPath, fs)
    case Some(j) =>
      match MakeDirs(fs, j.chain)
      case None => (Failed(j.target), fs)
      case Some(fs1) => Store(fs1, j.target, j.code, exact)
  }

  /** The outcomes of the jobs in order, and the file system afterwards. */
  function Steps(fs: FileSystem, js: seq<Option<Job>>, exact: bool): (r: (seq<Outcome>, FileSystem))
    ensures |r.0| == |js|
    decreases |js|
  {
    if js == [] then ([], fs)
    else
      var before := Steps(fs, js[..|js| - 1], exact);
      var last := Apply(before.1, js[|js| - 1], exact);
      (before.0 + [last.0], last.1)
  }

  /** The three lists the loop fills and whether any block matched. */
  datatype Report = Report(written: seq<Path>, skipped: seq<Path>, failed: seq<Path>, found: bool)

  function Record(rep: Report, o: Outcome): Report {
    match o
    case Written(p) => rep.(written := rep.written + [p], found := true)
    case Skipped(p) => rep.(skipped := rep.skipped + [p], found := true)
    case Failed(p) => rep.(failed := rep.failed + [p], found := true)
    case NoPath => rep.(found := true)
  }

  function Tally(os: seq<Outcome>): Report {
    if os == [] then Report([], [], [], false) else Record(Tally(os[..|os| - 1]), os[|os| - 1])
  }

  /** The whole operation: the report and the new file system. */
  function Paste(s: string, cwd: Path, fs: FileSystem, exact: bool): (Report, FileSystem) {
    PasteBlocks(Scan(s, 0), cwd, fs, exact)
  }

  /** The loop over a given list of matches. */
  function PasteBlocks(bs: seq<Block>, cwd: Path, fs: FileSystem, exact: bool): (Report, FileSystem) {
    var r := Steps(fs, Jobs(cwd, bs), exact);
    (Tally(r.0), r.1)
  }

  lemma ScanStep(s: string, i: nat, seen: seq<Block>)
    requires i < |s| && Scan(s, 0) == seen + Scan(s, i)
    ensures MatchAt(s, i).Some? ==> Scan(s, 0) == (seen + [MatchAt(s, i).value.block]) + Scan(s, MatchAt(s, i).value.end)
    ensures MatchAt(s, i).None? ==> Scan(s, 0) == seen + Scan(s, i + 1)
  {
    if MatchAt(s, i).Some? {
      var m := MatchAt(s, i).value;
      assert Scan(s, i) == [m.block] + Scan(s, m.end);
      assert seen + ([m.block] + Scan(s, m.end)) == (seen + [m.block]) + Scan(s, m.end);
    }
  }

  lemma StepsSnoc(fs: FileSystem, js: seq<Option<Job>>, j: Option<Job>, exact: bool)
    ensures Steps(fs, js + [j], exact)
            == (Steps(fs, js, exact).0 + [Apply(Steps(fs, js, exact).1, j, exact).0],
                Apply(Steps(fs, js, exact).1, j, exact).1)
  {
    assert (js + [j])[..|js|] == js;
  }

  lemma JobsSnoc(cwd: Path, bs: seq<Block>, b: Block)
    ensures Jobs(cwd, bs + [b]) == Jobs(cwd, bs) + [JobOf(cwd, b)]
  {
  }

  lemma TallySnoc(os: seq<Outcome>, o: Outcome)
    ensures Tally(os + [o]) == Record(Tally(os), o)
  {
    assert (os + [o])[..|os|] == os;
  }

  /** One more block: one more step of the fold and one more outcome in the report. */
  lemma PasteStep(fs0: FileSystem, cwd: Path, seen: seq<Block>, done: seq<Outcome>, fs: FileSystem, b: Block, exact: bool)
    requires Steps(fs0, Jobs(cwd, seen), exact) == (done, fs)
    ensures var step := Apply(fs, JobOf(cwd, b), exact);
      Steps(fs0, Jobs(cwd, seen + [b]), exact) == (done + [step.0], step.1) &&
      Tally(done + [step.0]) == Record(Tally(done), step.0)
  {
    StepsSnoc(fs0, Jobs(cwd, seen), JobOf(cwd, b), exact);
    JobsSnoc(cwd, seen, b);
    TallySnoc(done, Apply(fs, JobOf(cwd, b), exact).0);
  }

  /**
   * `paste_response`: the loop over the matches, writing as it goes. `exact == false` is the
   * comparison as written (a text-mode read); `exact == true` compares the stored text.
   */
  method PasteResponse(response: string, cwd: Path, fs0: FileSystem, exact: bool) returns (report: Report, fs: FileSystem)
    ensures (report, fs) == Paste(response, cwd, fs0, exact)
  {
    report := Report([], [], [], false);
    fs := fs0;
    ghost var seen: seq<Block> := [];
    ghost var done: seq<Outcome> := [];
    var i := 0;
    while i < |response|
      invariant Scan(response, 0) == seen + Scan(response, i)
      invariant Steps(fs0, Jobs(cwd, seen), exact) == (done, fs)
      invariant report == Tally(done)
      decreases |response| - i
    {
      ScanStep(response, i, seen);
      var m := MatchAt(response, i);
      if m.Some? {
        var job := JobOf(cwd, m.value.block);
        var step := Apply(fs, job, exact);
        PasteStep(fs0, cwd, seen, done, fs, m.value.block, exact);
        report := Record(report, step.0);
        fs := step.1;
        seen := seen + [m.value.block];
        done := done + [step.0];
        i := m.value.end;
      } else {
        i := i + 1;
      }
    }
    assert seen + [] == seen;
  }

  /** The panel text printed after the loop. */
  function Summary(rep: Report): string {
    if !rep.found then "No file paths and code blocks matching the expected format were found."
    else
      (if rep.written != [] then "Successfully wrote " + Show(|rep.written|) + " file(s).\n" else "")
      + (if rep.skipped != [] then "Skipped " + Show(|rep.skipped|) + " file(s) (no changes).\n" else "")
      + (if rep.failed != [] then "Failed to write " + Show(|rep.failed|) + " file(s).\n" else "")
  }
}
