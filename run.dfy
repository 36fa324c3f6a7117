/**
 * scripts/run.py: builds merc-rewrite, then rewrites every file of
 * examples/REC/rec up to five times with the innermost or the Sabre
 * strategy, reading "... rewrite took N ms" from the output and storing N
 * in seconds. A timeout, or a non-zero exit in a repetition that printed
 * no timing, ends the repetitions for that file.
 */
module Run {
  import opened Common
  import opened Ordering
  import opened Regex
  import opened Timing
  import opened Paths

  /** What one `subprocess.run(cmd, capture_output=True, text=True, timeout=600)` gives back. */
  datatype Outcome =
    | TimedOut                                                          // TimeoutExpired
    | Exited(returnCode: int, stdout: seq<string>, stderr: seq<string>)  // already split into lines

  /** The pre-flight facts about the machine the script checks before benchmarking. */
  datatype Setup = Setup(
    buildSucceeds: bool,             // `cargo build --profile bench --bin merc-rewrite`
    binaryFound: bool,               // target/release/merc-rewrite exists or `which` finds it
    examples: Option<set<string>>)   // the entries of examples/REC/rec, if it exists

  /** The arguments after the binary: `rewrite <rewriter> <path>`. */
  function Args(rewriter: string, name: string): seq<string> {
    ["rewrite", rewriter, "examples/REC/rec/" + name]
  }

  /** `ms / 1000.0` for each value found. */
  function Seconds(ms: seq<nat>): (s: seq<real>)
    ensures |s| == |ms|
    ensures forall i :: 0 <= i < |ms| ==> s[i] * 1000.0 == ms[i] as real && s[i] >= 0.0
  {
    seq(|ms|, i requires 0 <= i < |ms| => ms[i] as real / 1000.0)
  }

  lemma SecondsAppend(a: seq<nat>, b: seq<nat>)
    ensures Seconds(a + b) == Seconds(a) + Seconds(b)
  {
  }

  /** The values found in a repetition's output: its stdout lines, then its stderr lines. */
  function Found(p: Pattern, o: Outcome): seq<nat>
    requires o.Exited?
  {
    Extract(p, o.stdout + o.stderr)
  }

  /** The repetition ends the loop: it timed out, or it exited non-zero and printed no timing. */
  predicate Aborts(p: Pattern, o: Outcome) {
    o.TimedOut? || (Found(p, o) == [] && o.returnCode != 0)
  }

  /** One pass of the loop body over the outcome of the repetition. */
  function Step(p: Pattern, s: Sample, o: Outcome): Sample {
    match o
    case TimedOut => Sample(s.timings, s.attempts + 1, true)
    case Exited(code, _, _) =>
      var found := Found(p, o);
      Sample(s.timings + Seconds(found), s.attempts + 1, found == [] && code != 0)
  }

  /**
   * The state after the loop has been offered the outcomes `os` in turn;
   * once a pass has stopped it (`break`), later outcomes change nothing.
   */
  function Sampled(p: Pattern, os: seq<Outcome>): Sample
    decreases |os|
  {
    if os == [] then Sample([], 0, false)
    else
      var s := Sampled(p, os[..|os| - 1]);
      if s.stopped then s else Step(p, s, os[|os| - 1])
  }

  lemma {:induction false} StoppedStays(p: Pattern, os: seq<Outcome>, n: nat)
    requires n <= |os| && Sampled(p, os[..n]).stopped
    ensures Sampled(p, os) == Sampled(p, os[..n])
    decreases |os| - n
  {
    if n < |os| {
      var init := os[..|os| - 1];
      assert init[..n] == os[..n];
      StoppedStays(p, init, n);
    } else {
      assert os[..n] == os;
    }
  }

  /** The inner loop over a repetition's output lines: the timings found and the `found_timing` flag. */
  method ScanOutput(p: Pattern, lines: seq<string>) returns (timings: seq<real>, foundTiming: bool)
    ensures timings == Seconds(Extract(p, lines))
    ensures foundTiming <==> Extract(p, lines) != []
  {
    timings, foundTiming := [], false;
    for i := 0 to |lines|
      invariant timings == Seconds(Extract(p, lines[..i]))
      invariant foundTiming <==> Extract(p, lines[..i]) != []
    {
      ghost var found := FoundIn(p, lines[i]);
      assert lines[..i + 1][..i] == lines[..i];
      assert Extract(p, lines[..i + 1]) == Extract(p, lines[..i]) + found;
      SecondsAppend(Extract(p, lines[..i]), found);
      var m := Find(p, lines[i]);
      if m.Some? {
        assert Seconds(found) == [m.value as real / 1000.0];
        timings := timings + [m.value as real / 1000.0];
        foundTiming := true;
      } else {
        assert found == [];
      }
    }
    assert lines[..|lines|] == lines;
  }

  /** The loop after `k + 1` outcomes is the loop after `k`, then one more pass unless it broke. */
  lemma SampledNext(p: Pattern, os: seq<Outcome>, k: nat)
    requires k < |os|
    ensures Sampled(p, os[..k + 1]) ==
              if Sampled(p, os[..k]).stopped then Sampled(p, os[..k]) else Step(p, Sampled(p, os[..k]), os[k])
  {
    assert os[..k + 1][..k] == os[..k];
  }

  /** The timings of one file's repetitions (lines 54-76) and how many processes were started. */
  method Measure(p: Pattern, args: seq<string>, run: (seq<string>, nat) -> Outcome)
    returns (timings: seq<real>, attempts: nat)
    ensures timings == Sampled(p, Outcomes(run, args)).timings
    ensures attempts == Sampled(p, Outcomes(run, args)).attempts
  {
    ghost var os := Outcomes(run, args);
    timings, attempts := [], 0;
    for k := 0 to Repetitions
      invariant Sampled(p, os[..k]) == Sample(timings, attempts, false)
    {
      var outcome := run(args, k);
      SampledNext(p, os, k);
      attempts := attempts + 1;
      if outcome.TimedOut? {
        StoppedStays(p, os, k + 1);
        break;
      }
      var found, foundTiming := ScanOutput(p, outcome.stdout + outcome.stderr);
      timings := timings + found;
      if !foundTiming && outcome.returnCode != 0 {
        StoppedStays(p, os, k + 1);
        break;
      }
    }
    assert os[..Repetitions] == os;
  }

  /** The index of the first repetition that ends the loop, or `|os|` when none does. */
  function FirstAbort(p: Pattern, os: seq<Outcome>): (f: nat)
    ensures f <= |os|
    ensures forall i :: 0 <= i < f ==> !Aborts(p, os[i])
    ensures f < |os| ==> Aborts(p, os[f])
    decreases |os|
  {
    if os == [] then 0
    else
      var f := FirstAbort(p, os[..|os| - 1]);
      if f < |os| - 1 then f
      else if Aborts(p, os[|os| - 1]) then |os| - 1
      else |os|
  }

  /** Everything the outcomes `os` print as timings, in seconds and in order, ignoring any break. */
  function Collected(p: Pattern, os: seq<Outcome>): seq<real>
    decreases |os|
  {
    if os == [] then []
    else
      var last := os[|os| - 1];
      Collected(p, os[..|os| - 1]) + (if last.Exited? then Seconds(Found(p, last)) else [])
  }

  /**
   * The loop, stated without the loop: when no repetition aborts, all
   * repetitions run and every timing they print is kept; otherwise the
   * repetitions up to and including the first aborting one run, and the
   * timings of the ones before it are kept.
   */
  lemma {:induction false} SampledUpToFirstAbort(p: Pattern, os: seq<Outcome>)
    ensures var f := FirstAbort(p, os);
      Sampled(p, os) ==
        if f == |os| then Sample(Collected(p, os), |os|, false)
        else Sample(Collected(p, os[..f]), f + 1, true)
    decreases |os|
  {
    if os != [] {
      var init := os[..|os| - 1];
      SampledUpToFirstAbort(p, init);
      if FirstAbort(p, init) < |init| {
        AfterAbort(p, os);
      } else {
        BeforeAbort(p, os);
      }
    }
  }

  /** Once a repetition has aborted, one more outcome changes neither the loop nor the first abort. */
  lemma AfterAbort(p: Pattern, os: seq<Outcome>)
    requires os != []
    requires var init := os[..|os| - 1]; var f := FirstAbort(p, init);
      f < |init| && Sampled(p, init) == Sample(Collected(p, init[..f]), f + 1, true)
    ensures var f := FirstAbort(p, os);
      f < |os| && Sampled(p, os) == Sample(Collected(p, os[..f]), f + 1, true)
  {
    var init := os[..|os| - 1];
    var f := FirstAbort(p, init);
    assert os[..f] == init[..f];
    assert FirstAbort(p, os) == f;
  }

  /** While no repetition has aborted, one more outcome is one more pass, stopping exactly when it aborts. */
  lemma BeforeAbort(p: Pattern, os: seq<Outcome>)
    requires os != []
    requires var init := os[..|os| - 1];
      FirstAbort(p, init) == |init| && Sampled(p, init) == Sample(Collected(p, init), |init|, false)
    ensures var f := FirstAbort(p, os);
      Sampled(p, os) ==
        if f == |os| then Sample(Collected(p, os), |os|, false)
        else Sample(Collected(p, os[..f]), f + 1, true)
  {
    var init := os[..|os| - 1];
    var last := os[|init|];
    StepAborts(p, Sample(Collected(p, init), |init|, false), last);
    assert Collected(p, os) == Collected(p, init) + (if last.Exited? then Seconds(Found(p, last)) else []);
    assert os[..|init|] == init;
  }

  /** A pass of the loop body stops the loop exactly when its repetition aborts; it keeps what that repetition prints. */
  lemma StepAborts(p: Pattern, s: Sample, o: Outcome)
    ensures Step(p, s, o).stopped <==> Aborts(p, o)
    ensures Step(p, s, o) == Sample(s.timings + (if o.Exited? then Seconds(Found(p, o)) else []), s.attempts + 1, Aborts(p, o))
  {
  }

  /** The first aborting repetition is the one the loop breaks at. */
  lemma FirstAbortAt(p: Pattern, os: seq<Outcome>, j: nat)
    requires j < |os| && Aborts(p, os[j])
    requires forall i :: 0 <= i < j ==> !Aborts(p, os[i])
    ensures FirstAbort(p, os) == j
  {
  }

  /** At most one process is started per repetition: five per file. */
  lemma AttemptsBounded(p: Pattern, os: seq<Outcome>)
    ensures Sampled(p, os).attempts <= |os|
    ensures !Sampled(p, os).stopped ==> Sampled(p, os).attempts == |os|
  {
    SampledUpToFirstAbort(p, os);
  }

  /**
   * A repetition that times out, or exits non-zero without printing a
   * timing, ends the loop: exactly the repetitions up to it ran, and the
   * timings of the earlier ones are what is kept.
   */
  lemma AbortEndsLoop(p: Pattern, os: seq<Outcome>, j: nat)
    requires j < |os| && Aborts(p, os[j])
    requires forall i :: 0 <= i < j ==> !Aborts(p, os[i])
    ensures Sampled(p, os) == Sample(Collected(p, os[..j]), j + 1, true)
  {
    FirstAbortAt(p, os, j);
    SampledUpToFirstAbort(p, os);
  }

  /** A repetition that prints a timing does not end the loop, even if it exits non-zero. */
  lemma TimingOverridesExitCode(p: Pattern, os: seq<Outcome>, j: nat)
    requires j + 1 < |os| && os[j].Exited? && os[j].returnCode != 0 && Found(p, os[j]) != []
    requires forall i :: 0 <= i < j ==> !Aborts(p, os[i])
    ensures Sampled(p, os).attempts >= j + 2
  {
    SampledUpToFirstAbort(p, os);
    var f := FirstAbort(p, os);
    assert !Aborts(p, os[j]);
    assert f > j;
  }

  /**
   * The first repetition prints one timing of 2000 ms and the second times
   * out: the record keeps 2.0 s and nothing more, and no third process is
   * started.
   */
  lemma TimeoutAfterOneTiming(p: Pattern, os: seq<Outcome>)
    requires |os| == Repetitions && os[0].Exited? && Found(p, os[0]) == [2000] && os[1].TimedOut?
    ensures Sampled(p, os).timings == [2.0]
    ensures Sampled(p, os).attempts == 2
  {
    AbortEndsLoop(p, os, 1);
    assert os[..1][..0] == [];
  }

  /** The record written for one file: the rewriter, the file's stem and its timings in seconds. */
  function RecordFor(rewriter: string, name: string, run: (seq<string>, nat) -> Outcome): JsonObject {
    var timings := Sampled(PatternFor(rewriter), Outcomes(run, Args(rewriter, name))).timings;
    JsonObject(Some(rewriter), Some(Stem(name)), None, Some(timings))
  }

  /** A file `<base>.rec` is recorded under `benchmark_name` `<base>`, without its extension. */
  lemma RecordNamesStem(rewriter: string, base: string, run: (seq<string>, nat) -> Outcome)
    requires base != []
    ensures RecordFor(rewriter, base + ".rec", run).benchmarkName == Some(base)
    ensures RecordFor(rewriter, base + ".rec", run).experiment.None?
  {
    assert ".rec"[1..] == "rec";
    StemOfExtension(base, ".rec", "");
  }

  /**
   * `benchmark(output_path, rewriter)`: the records written to the output
   * file, one per entry of examples/REC/rec in sorted order, or the error
   * raised before any benchmark runs. `order` is the order the entries
   * are benchmarked in.
   */
  method Benchmark(rewriter: string, setup: Setup, run: (seq<string>, nat) -> Outcome)
    returns (r: Result<seq<JsonObject>, SetupError>, order: seq<string>)
    ensures !MercRewriter(rewriter) ==> r == Failure(InvalidRewriter)
    ensures MercRewriter(rewriter) && !setup.buildSucceeds ==> r == Failure(BuildFailed)
    ensures MercRewriter(rewriter) && setup.buildSucceeds && !setup.binaryFound ==> r == Failure(BinaryNotFound)
    ensures MercRewriter(rewriter) && setup.buildSucceeds && setup.binaryFound && setup.examples.None? ==>
              r == Failure(ExamplesDirMissing)
    ensures r.Success? <==> MercRewriter(rewriter) && setup.buildSucceeds && setup.binaryFound && setup.examples.Some?
    ensures r.Failure? ==> order == []
    ensures r.Success? ==> IsSortedView(order, setup.examples.value) && |r.value| == |order|
    ensures r.Success? ==> forall i :: 0 <= i < |order| ==> r.value[i] == RecordFor(rewriter, order[i], run)
  {
    order := [];
    if !MercRewriter(rewriter) {
      return Failure(InvalidRewriter), order;
    }
    if !setup.buildSucceeds {
      return Failure(BuildFailed), order;
    }
    if !setup.binaryFound {
      return Failure(BinaryNotFound), order;
    }
    var pattern := PatternFor(rewriter);
    if setup.examples.None? {
      return Failure(ExamplesDirMissing), order;
    }
    var files := SortStrings(setup.examples.value);
    var records := [];
    for i := 0 to |files|
      invariant |records| == i
      invariant forall j :: 0 <= j < i ==> records[j] == RecordFor(rewriter, files[j], run)
    {
      var name := files[i];
      var timings, _ := Measure(pattern, Args(rewriter, name), run);
      records := records + [JsonObject(Some(rewriter), Some(Stem(name)), None, Some(timings))];
    }
    order := files;
    r := Success(records);
  }
}
