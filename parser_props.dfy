/**
 * What pasting the same reply twice does. With distinct target files and the exact comparison,
 * the second paste changes nothing and writes nothing: every block written or skipped the first
 * time is skipped, every failure fails again. With the text-mode comparison the source uses,
 * that holds only for code without carriage returns.
 */
module ParserProperties {
  import opened Wrappers
  import opened Strings
  import opened Paths
  import opened Files
  import opened Parser

  /** The outcome a block gets when it is applied again to the result. */
  function Again(o: Outcome): Outcome {
    if o.Written? then Skipped(o.path) else o
  }

  function AgainAll(os: seq<Outcome>): (r: seq<Outcome>)
    ensures |r| == |os| && forall k :: 0 <= k < |os| ==> r[k] == Again(os[k])
  {
    seq(|os|, k requires 0 <= k < |os| => Again(os[k]))
  }

  /** Reading the code back gives the code again under this comparison. */
  predicate CodeKept(job: Option<Job>, exact: bool) {
    exact || job.None? || '\r' !in job.value.code
  }

  /** Applying `job` to `fs` leaves `fs` as it is and repeats outcome `o` (as a skip, if `o` wrote). */
  predicate Settled(fs: FileSystem, job: Option<Job>, o: Outcome, exact: bool) {
    Apply(fs, job, exact) == (Again(o), fs)
  }

  /** No two jobs write the same file. */
  predicate DistinctTargets(js: seq<Option<Job>>) {
    forall j, k :: 0 <= j < k < |js| && js[j].Some? && js[k].Some? ==> js[j].value.target != js[k].value.target
  }

  /** A job is settled in the file system it produces. */
  lemma Settles(fs: FileSystem, job: Option<Job>, exact: bool)
    requires fs.Valid() && CodeKept(job, exact)
    ensures Settled(Apply(fs, job, exact).1, job, Apply(fs, job, exact).0, exact)
  {
    var r := Apply(fs, job, exact);
    if job.Some? {
      var j := job.value;
      var made := MakeDirs(fs, j.chain);
      if made.Some? {
        var fs1 := made.value;
        var f := r.1;
        if r.0.Written? {
          assert j.target !in j.chain;
          assert forall x :: x in j.chain ==> x !in f.files;
          assert f.(dirs := f.dirs + j.chain) == f;
          assert j.target !in f.unreadable && j.target !in f.undecodable;
          if !exact {
            TranslateIdentity(j.code);
          }
          assert Current(f, j.target, exact) == Some(j.code);
        } else {
          assert f == fs1;
          assert fs1.(dirs := fs1.dirs + j.chain) == fs1;
        }
      }
    }
  }

  /** The second application when the target's state is unaffected by the steps in between. */
  lemma StoreStable(fs: FileSystem, g: FileSystem, t: Path, code: string, exact: bool)
    requires fs.Valid() && g.Valid()
    requires Store(fs, t, code, exact).1 == fs && !Store(fs, t, code, exact).0.Written?
    requires g.dirs >= fs.dirs && g.unreadable == fs.unreadable && g.readOnly == fs.readOnly
    requires t in g.files <==> t in fs.files
    requires t in fs.files ==> g.files[t] == fs.files[t]
    requires t in g.undecodable <==> t in fs.undecodable
    ensures Store(g, t, code, exact) == (Store(fs, t, code, exact).0, g)
  {
    if t in fs.files || t in fs.dirs {
      assert Current(g, t, exact) == Current(fs, t, exact);
    }
  }

  /** Applying a job with another target keeps a settled job settled. */
  lemma StaysSettled(fs: FileSystem, job: Option<Job>, o: Outcome, other: Option<Job>, exact: bool)
    requires fs.Valid() && Settled(fs, job, o, exact)
    requires job.None? || other.None? || job.value.target != other.value.target
    ensures Settled(Apply(fs, other, exact).1, job, o, exact)
  {
    var g := Apply(fs, other, exact).1;
    var w := Apply(fs, other, exact).0;
    if job.Some? {
      var j := job.value;
      assert g.files.Keys <= fs.files.Keys + (if w.Written? then {w.path} else {});
      if MakeDirs(fs, j.chain).None? {
        var x :| x in j.chain && x in fs.files;
        assert x in g.files;
      } else {
        var fs1 := MakeDirs(fs, j.chain).value;
        assert fs1 == fs;
        assert j.chain <= fs.dirs;
        assert forall x :: x in j.chain ==> x !in g.files;
        assert g.(dirs := g.dirs + j.chain) == g;
        StoreStable(fs, g, j.target, j.code, exact);
      }
    }
  }

  lemma {:induction false} StepsValid(fs: FileSystem, js: seq<Option<Job>>, exact: bool)
    requires fs.Valid()
    ensures Steps(fs, js, exact).1.Valid()
    decreases |js|
  {
    if js != [] {
      StepsValid(fs, js[..|js| - 1], exact);
    }
  }

  /** After one pass every job is settled in the final file system. */
  lemma {:induction false} FirstPass(fs: FileSystem, js: seq<Option<Job>>, exact: bool)
    requires fs.Valid() && DistinctTargets(js)
    requires forall k :: 0 <= k < |js| ==> CodeKept(js[k], exact)
    ensures forall k :: 0 <= k < |js| ==> Settled(Steps(fs, js, exact).1, js[k], Steps(fs, js, exact).0[k], exact)
    decreases |js|
  {
    if js != [] {
      var n := |js| - 1;
      var init := js[..n];
      var before := Steps(fs, init, exact);
      var r := Steps(fs, js, exact);
      assert DistinctTargets(init);
      FirstPass(fs, init, exact);
      StepsValid(fs, init, exact);
      Settles(before.1, js[n], exact);
      forall k | 0 <= k < |js|
        ensures Settled(r.1, js[k], r.0[k], exact)
      {
        if k < n {
          assert init[k] == js[k];
          StaysSettled(before.1, js[k], before.0[k], js[n], exact);
        }
      }
    }
  }

  /** A pass over settled jobs changes nothing and repeats their outcomes. */
  lemma {:induction false} SecondPass(fs: FileSystem, js: seq<Option<Job>>, os: seq<Outcome>, exact: bool)
    requires |os| == |js|
    requires forall k :: 0 <= k < |js| ==> Settled(fs, js[k], os[k], exact)
    ensures Steps(fs, js, exact) == (AgainAll(os), fs)
    decreases |js|
  {
    if js != [] {
      var n := |js| - 1;
      SecondPass(fs, js[..n], os[..n], exact);
      assert AgainAll(os[..n]) + [Again(os[n])] == AgainAll(os);
    }
  }

  lemma {:induction false} TallyAgain(os: seq<Outcome>)
    ensures Tally(AgainAll(os)).written == []
    ensures Tally(AgainAll(os)).failed == Tally(os).failed
    ensures |Tally(AgainAll(os)).skipped| == |Tally(os).written| + |Tally(os).skipped|
    ensures Tally(AgainAll(os)).found == Tally(os).found
    decreases |os|
  {
    if os != [] {
      var n := |os| - 1;
      TallyAgain(os[..n]);
      assert AgainAll(os)[..n] == AgainAll(os[..n]);
    }
  }

  /** Two passes over the same jobs: the second changes nothing and only skips or fails. */
  lemma StepsTwice(fs: FileSystem, js: seq<Option<Job>>, exact: bool)
    requires fs.Valid() && DistinctTargets(js)
    requires forall k :: 0 <= k < |js| ==> CodeKept(js[k], exact)
    ensures Steps(Steps(fs, js, exact).1, js, exact).1 == Steps(fs, js, exact).1
    ensures Tally(Steps(Steps(fs, js, exact).1, js, exact).0).written == []
    ensures Tally(Steps(Steps(fs, js, exact).1, js, exact).0).failed == Tally(Steps(fs, js, exact).0).failed
    ensures |Tally(Steps(Steps(fs, js, exact).1, js, exact).0).skipped|
            == |Tally(Steps(fs, js, exact).0).written| + |Tally(Steps(fs, js, exact).0).skipped|
  {
    var first := Steps(fs, js, exact);
    FirstPass(fs, js, exact);
    SecondPass(first.1, js, first.0, exact);
    TallyAgain(first.0);
  }

  /**
   * Pasting the same blocks a second time leaves the file system as the first paste left it,
   * writes nothing, skips what the first paste wrote or skipped and fails where it failed.
   */
  lemma PasteTwice(bs: seq<Block>, cwd: Path, fs: FileSystem, exact: bool)
    requires fs.Valid() && DistinctTargets(Jobs(cwd, bs))
    requires exact || forall k :: 0 <= k < |bs| ==> '\r' !in bs[k].code
    ensures PasteBlocks(bs, cwd, PasteBlocks(bs, cwd, fs, exact).1, exact).1 == PasteBlocks(bs, cwd, fs, exact).1
    ensures PasteBlocks(bs, cwd, PasteBlocks(bs, cwd, fs, exact).1, exact).0.written == []
    ensures PasteBlocks(bs, cwd, PasteBlocks(bs, cwd, fs, exact).1, exact).0.failed
            == PasteBlocks(bs, cwd, fs, exact).0.failed
    ensures |PasteBlocks(bs, cwd, PasteBlocks(bs, cwd, fs, exact).1, exact).0.skipped|
            == |PasteBlocks(bs, cwd, fs, exact).0.written| + |PasteBlocks(bs, cwd, fs, exact).0.skipped|
  {
    var js := Jobs(cwd, bs);
    forall k | 0 <= k < |js| ensures CodeKept(js[k], exact) {
      assert js[k] == JobOf(cwd, bs[k]);
    }
    StepsTwice(fs, js, exact);
  }

  /** With the exact comparison, pasting a reply twice is the same as pasting it once, for any code. */
  lemma PasteTwiceExact(s: string, cwd: Path, fs: FileSystem)
    requires fs.Valid() && DistinctTargets(Jobs(cwd, Scan(s, 0)))
    ensures Paste(s, cwd, Paste(s, cwd, fs, true).1, true).1 == Paste(s, cwd, fs, true).1
    ensures Paste(s, cwd, Paste(s, cwd, fs, true).1, true).0.written == []
  {
    PasteTwice(Scan(s, 0), cwd, fs, true);
  }

  /** As written (text-mode comparison), the same holds when no code contains a carriage return. */
  lemma PasteTwiceTextMode(s: string, cwd: Path, fs: FileSystem)
    requires fs.Valid() && DistinctTargets(Jobs(cwd, Scan(s, 0)))
    requires forall k :: 0 <= k < |Scan(s, 0)| ==> '\r' !in Scan(s, 0)[k].code
    ensures Paste(s, cwd, Paste(s, cwd, fs, false).1, false).1 == Paste(s, cwd, fs, false).1
    ensures Paste(s, cwd, Paste(s, cwd, fs, false).1, false).0.written == []
  {
    PasteTwice(Scan(s, 0), cwd, fs, false);
  }

  /** The job for a block naming "/a", whatever the working directory. */
  lemma JobForA(cwd: Path, code: string)
    ensures JobOf(cwd, Block("/a", code)) == Some(Job("/a", {"/"}, code))
  {
    StripA();
    PathA(cwd);
    RootAncestors();
  }

  lemma StripA()
    ensures Strip("/a") == "/a"
  {
    var s := "/a";
    assert s[0] == '/' && s[|s| - 1] == 'a';
    StripUnchanged(s);
  }

  lemma PathA(cwd: Path)
    ensures Resolve(cwd, "/a") == "/a" && Parent("/a") == "/"
  {
    assert FromParts(["a"]) == "/a";
    ComponentsOfFromParts(["a"]);
    ResolveNormal(cwd, "/a");
    assert ["a"][..0] == [];
  }

  lemma RootAncestors()
    ensures AncestorsOrSelf("/") == {"/"}
  {
    assert FromParts([]) == "/";
    ComponentsOfFromParts([]);
  }

  /**
   * As written, a file holding "\r" is reported as unchanged by a block whose code is "\n",
   * and keeps its carriage return; the exact comparison writes the block.
   */
  lemma TextModeSkipsDifferentFile()
    ensures var fs := FileSystem(map["/a" := "\r"], {"/"}, {}, {}, {});
            var job := Some(Job("/a", {"/"}, "\n"));
            Apply(fs, job, false) == (Skipped("/a"), fs) && fs.files["/a"] != "\n"
            && Apply(fs, job, true).0 == Written("/a")
  {
    var fs := FileSystem(map["/a" := "\r"], {"/"}, {}, {}, {});
    assert "/" !in fs.files && fs.dirs + {"/"} == fs.dirs;
    assert Translate("\r") == "\n" by {
      assert Translate("") == "";
    }
    assert MakeDirs(fs, {"/"}) == Some(fs);
  }

  /**
   * As written, code containing "\r" never reads back equal, so pasting it again rewrites the
   * file and reports it written a second time.
   */
  lemma TextModeRewritesCarriageReturn()
    ensures var fs := FileSystem(map[], {"/"}, {}, {}, {});
            var job := Some(Job("/a", {"/"}, "\r"));
            Apply(fs, job, false).0 == Written("/a")
            && Apply(Apply(fs, job, false).1, job, false).0 == Written("/a")
  {
    var fs := FileSystem(map[], {"/"}, {}, {}, {});
    assert fs.dirs + {"/"} == fs.dirs;
    assert MakeDirs(fs, {"/"}) == Some(fs);
    var fs2 := fs.(files := map["/a" := "\r"]);
    assert "/" !in fs2.files;
    assert Apply(fs, Some(Job("/a", {"/"}, "\r")), false).1 == fs2;
    assert MakeDirs(fs2, {"/"}) == Some(fs2);
    assert Translate("\r") == "\n" by {
      assert Translate("") == "";
    }
  }
}
