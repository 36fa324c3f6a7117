/**
 * scripts/run_mcrl2.py: rewrites every `*.dataspec` file of a directory,
 * together with the `.expressions` file beside it, up to five times with
 * mcrl2rewrite, reading `rewriting: N milliseconds.` from the output and
 * keeping N in milliseconds. Only a raise from RunProcess ends the loop;
 * the exit code is never looked at. The rewriter name is validated and
 * recorded, but it is not among the arguments mcrl2rewrite is given.
 */
module RunMcrl2 {
  import opened Common
  import opened Regex
  import opened Timing
  import opened Paths

  /** What one `RunProcess(mcrl2rewrite_bin, args, max_time=600)` call gives back. */
  datatype Outcome =
    | Raised                                                                // a timeout or a crash
    | Completed(returnCode: int, stdout: seq<string>, stderr: seq<string>)   // already split into lines

  /** The facts about the machine the script depends on. */
  datatype Setup = Setup(
    binaryFound: bool,       // `shutil.which("mcrl2rewrite", path=mcrl2_path)` finds the binary
    listing: seq<string>)    // the entries of `rec_dir`, in the order the directory lists them

  /** The rewriter names the script accepts (its `Rewriter` class). */
  predicate Mcrl2Rewriter(rewriter: string) {
    rewriter == "jitty" || rewriter == "jittyc"
  }

  /** The values a completed repetition prints: its stdout lines, then its stderr lines. */
  function Found(o: Outcome): seq<nat>
    requires o.Completed?
  {
    Extract(Mcrl2Pattern, o.stdout + o.stderr)
  }

  /** One pass of the loop body: a raise breaks; anything else appends every value found, in ms. */
  function Step(s: Sample, o: Outcome): Sample {
    match o
    case Raised => Sample(s.timings, s.attempts + 1, true)
    case Completed(_, _, _) => Sample(s.timings + Millis(Found(o)), s.attempts + 1, false)
  }

  /** The state after the loop has been offered the outcomes `os` in turn; a break is final. */
  function Sampled(os: seq<Outcome>): Sample
    decreases |os|
  {
    if os == [] then Sample([], 0, false)
    else
      var s := Sampled(os[..|os| - 1]);
      if s.stopped then s else Step(s, os[|os| - 1])
  }

  lemma {:induction false} StoppedStays(os: seq<Outcome>, n: nat)
    requires n <= |os| && Sampled(os[..n]).stopped
    ensures Sampled(os) == Sampled(os[..n])
    decreases |os| - n
  {
    if n < |os| {
      var init := os[..|os| - 1];
      assert init[..n] == os[..n];
      StoppedStays(init, n);
    } else {
      assert os[..n] == os;
    }
  }

  /** The loop over a completed repetition's output lines (lines 61-68): every value found, in ms. */
  method ScanOutput(lines: seq<string>) returns (timings: seq<real>)
    ensures timings == Millis(Extract(Mcrl2Pattern, lines))
  {
    timings := [];
    for i := 0 to |lines|
      invariant timings == Millis(Extract(Mcrl2Pattern, lines[..i]))
    {
      ghost var found := FoundIn(Mcrl2Pattern, lines[i]);
      assert lines[..i + 1][..i] == lines[..i];
      assert Extract(Mcrl2Pattern, lines[..i + 1]) == Extract(Mcrl2Pattern, lines[..i]) + found;
      MillisAppend(Extract(Mcrl2Pattern, lines[..i]), found);
      var m := Find(Mcrl2Pattern, lines[i]);
      if m.Some? {
        assert Millis(found) == [m.value as real];
        timings := timings + [m.value as real];
      } else {
        assert found == [];
      }
    }
    assert lines[..|lines|] == lines;
  }

  /** The loop after `k + 1` outcomes is the loop after `k`, then one more pass unless it broke. */
  lemma SampledNext(os: seq<Outcome>, k: nat)
    requires k < |os|
    ensures Sampled(os[..k + 1]) ==
              if Sampled(os[..k]).stopped then Sampled(os[..k]) else Step(Sampled(os[..k]), os[k])
  {
    assert os[..k + 1][..k] == os[..k];
  }

  /** The timings of one file's repetitions (lines 52-68) and how many processes were started. */
  method Measure(args: seq<string>, run: (seq<string>, nat) -> Outcome)
    returns (timings: seq<real>, attempts: nat)
    ensures timings == Sampled(Outcomes(run, args)).timings
    ensures attempts == Sampled(Outcomes(run, args)).attempts
  {
    ghost var os := Outcomes(run, args);
    timings, attempts := [], 0;
    for k := 0 to Repetitions
      invariant Sampled(os[..k]) == Sample(timings, attempts, false)
    {
      var outcome := run(args, k);
      SampledNext(os, k);
      attempts := attempts + 1;
      if outcome.Raised? {
        StoppedStays(os, k + 1);
        break;
      }
      var found := ScanOutput(outcome.stdout + outcome.stderr);
      timings := timings + found;
    }
    assert os[..Repetitions] == os;
  }

  /** The index of the first repetition that raises, or `|os|` when none does. */
  function FirstRaise(os: seq<Outcome>): (f: nat)
    ensures f <= |os|
    ensures forall i :: 0 <= i < f ==> os[i].Completed?
    ensures f < |os| ==> os[f].Raised?
    decreases |os|
  {
    if os == [] then 0
    else
      var f := FirstRaise(os[..|os| - 1]);
      if f < |os| - 1 then f
      else if os[|os| - 1].Raised? then |os| - 1
      else |os|
  }

  /** Every value the completed repetitions in `os` print, in ms and in order. */
  function Collected(os: seq<Outcome>): seq<real>
    decreases |os|
  {
    if os == [] then []
    else
      var last := os[|os| - 1];
      Collected(os[..|os| - 1]) + (if last.Completed? then Millis(Found(last)) else [])
  }

  /**
   * The loop, stated without the loop: every repetition before the first
   * raise runs and keeps all its values, whatever its exit code; the raising
   * one is the last process started.
   */
  lemma {:induction false} SampledUpToFirstRaise(os: seq<Outcome>)
    ensures var f := FirstRaise(os);
      Sampled(os) ==
        if f == |os| then Sample(Collected(os), |os|, false)
        else Sample(Collected(os[..f]), f + 1, true)
    decreases |os|
  {
    if os != [] {
      var init := os[..|os| - 1];
      SampledUpToFirstRaise(init);
      var f := FirstRaise(init);
      if f < |init| {
        assert os[..f] == init[..f];
      } else {
        assert os[..|init|] == init;
      }
    }
  }

  /** A raise in repetition `j` ends the loop and keeps what the earlier repetitions found. */
  lemma RaiseEndsLoop(os: seq<Outcome>, j: nat)
    requires j < |os| && os[j].Raised?
    requires forall i :: 0 <= i < j ==> os[i].Completed?
    ensures Sampled(os) == Sample(Collected(os[..j]), j + 1, true)
  {
    assert FirstRaise(os) == j;
    SampledUpToFirstRaise(os);
  }

  /** At most one process per repetition, five per file, and all five unless one raised. */
  lemma AttemptsBounded(os: seq<Outcome>)
    ensures Sampled(os).attempts <= |os|
    ensures !Sampled(os).stopped ==> Sampled(os).attempts == |os|
  {
    SampledUpToFirstRaise(os);
  }

  /** The two runs differ at most in the exit codes of their completed repetitions. */
  ghost predicate SameButCodes(os: seq<Outcome>, os': seq<Outcome>) {
    |os| == |os'| &&
    forall i :: 0 <= i < |os| ==>
      (os[i].Raised? <==> os'[i].Raised?) &&
      (os[i].Completed? ==> os[i].stdout == os'[i].stdout && os[i].stderr == os'[i].stderr)
  }

  /** The exit code never matters: a failing exit neither ends the loop nor changes what is kept. */
  lemma {:induction false} ReturnCodeIgnored(os: seq<Outcome>, os': seq<Outcome>)
    requires SameButCodes(os, os')
    ensures Sampled(os) == Sampled(os')
    decreases |os|
  {
    if os != [] {
      var n := |os| - 1;
      assert SameButCodes(os[..n], os'[..n]);
      ReturnCodeIgnored(os[..n], os'[..n]);
    }
  }

  /** `<rec_dir>/<name>` and the `.expressions` file beside it. */
  function Args(recDir: string, name: string): seq<string> {
    ["-v", "--timings", recDir + "/" + name, recDir + "/" + WithSuffix(name, ".expressions")]
  }

  /** `foo.dataspec` is run against `foo.expressions`, a dotted stem `a.b.dataspec` against `a.b.expressions`. */
  lemma ExpressionsBesideDataspec(recDir: string, base: string)
    requires base != []
    ensures Args(recDir, base + ".dataspec")[3] == recDir + "/" + base + ".expressions"
  {
    assert ".dataspec"[1..] == "dataspec";
    StemOfExtension(base, ".dataspec", ".expressions");
  }

  /** The record written for one file: its base name under `experiment`, the rewriter and its timings in ms. */
  function RecordFor(recDir: string, rewriter: string, name: string, run: (seq<string>, nat) -> Outcome): JsonObject {
    JsonObject(Some(rewriter), None, Some(name), Some(Sampled(Outcomes(run, Args(recDir, name))).timings))
  }

  /**
   * `benchmark(logger, mcrl2_path, rewriter, rec_dir, output_dir)`: the
   * records written, one per `*.dataspec` entry of `rec_dir` in listing
   * order, or the error raised before the result file is opened.
   */
  method Benchmark(recDir: string, rewriter: string, setup: Setup, run: (seq<string>, nat) -> Outcome)
    returns (r: Result<seq<JsonObject>, SetupError>)
    ensures !Mcrl2Rewriter(rewriter) ==> r == Failure(InvalidRewriter)
    ensures Mcrl2Rewriter(rewriter) && !setup.binaryFound ==> r == Failure(BinaryNotFound)
    ensures r.Success? <==> Mcrl2Rewriter(rewriter) && setup.binaryFound
    ensures r.Success? ==> |r.value| == |Glob(setup.listing, ".dataspec")|
    ensures r.Success? ==> forall i :: 0 <= i < |r.value| ==>
              r.value[i] == RecordFor(recDir, rewriter, Glob(setup.listing, ".dataspec")[i], run)
  {
    if !Mcrl2Rewriter(rewriter) {
      return Failure(InvalidRewriter);
    }
    if !setup.binaryFound {
      return Failure(BinaryNotFound);
    }
    var files := Glob(setup.listing, ".dataspec");
    var records := [];
    for i := 0 to |files|
      invariant |records| == i
      invariant forall j :: 0 <= j < i ==> records[j] == RecordFor(recDir, rewriter, files[j], run)
    {
      var name := files[i];
      var timings, _ := Measure(Args(recDir, name), run);
      records := records + [JsonObject(Some(rewriter), None, Some(name), Some(timings))];
    }
    r := Success(records);
  }

  /**
   * The rewriter only labels the record: the argument vector `Args(recDir,
   * name)` does not depend on it, so for the same process behaviour `run`
   * the records for `jitty` and `jittyc` differ in the `rewriter` key alone.
   */
  lemma RewriterOnlyLabels(recDir: string, name: string, run: (seq<string>, nat) -> Outcome)
    ensures RecordFor(recDir, "jitty", name, run) == RecordFor(recDir, "jittyc", name, run).(rewriter := Some("jitty"))
    ensures RecordFor(recDir, "jitty", name, run).rewriter != RecordFor(recDir, "jittyc", name, run).rewriter
  {
    assert "jitty" != "jittyc";
  }
}
