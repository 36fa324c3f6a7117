/**
 * scripts/run_merc.py: rewrites every `*.rec` file of a directory up to
 * five times with merc-rewrite. Each stdout line is handed, as it is
 * printed, to a `ParserOutput` that keeps the millisecond values it finds;
 * a repetition whose process raises (a timeout or a crash) ends the loop
 * and what its parser had collected is dropped.
 */
module RunMerc {
  import opened Common
  import opened Text
  import opened Regex
  import opened Timing
  import opened Paths

  /** What one `RunProcess(..., read_stdout=parser, max_time=600)` call does. */
  datatype Outcome =
    | Completed(stdout: seq<string>)  // returns, after handing these lines to the callback
    | Raised(stdout: seq<string>)     // raises, after handing these lines to the callback

  /** The facts about the machine the script depends on. */
  datatype Setup = Setup(
    binaryFound: bool,       // `shutil.which("merc-rewrite", path=merc_path)` finds the binary
    listing: seq<string>)    // the entries of `rec_dir`, in the order the directory lists them

  /** The `read_stdout` callback: the timings found in the lines it has been called with. */
  class ParserOutput {
    const pattern: Pattern
    var timings: seq<real>

    constructor (pattern: Pattern)
      ensures this.pattern == pattern && timings == []
    {
      this.pattern := pattern;
      timings := [];
    }

    /** `__call__(line)`: appends the line's value, in milliseconds, if the line matches. */
    method Call(line: string)
      modifies this
      ensures timings == old(timings) + Millis(FoundIn(pattern, line))
    {
      var m := Find(pattern, line);
      if m.Some? {
        assert Millis([m.value]) == [m.value as real];
        timings := timings + [m.value as real];
      }
    }
  }

  /**
   * RunProcess calls the callback once per stdout line, in order: the
   * parser ends up holding what it held before followed by the values of
   * those lines.
   */
  method Deliver(parser: ParserOutput, lines: seq<string>)
    modifies parser
    ensures parser.timings == old(parser.timings) + Millis(Extract(parser.pattern, lines))
  {
    ghost var start := parser.timings;
    for i := 0 to |lines|
      invariant parser.timings == start + Millis(Extract(parser.pattern, lines[..i]))
    {
      assert lines[..i + 1][..i] == lines[..i];
      MillisAppend(Extract(parser.pattern, lines[..i]), FoundIn(parser.pattern, lines[i]));
      parser.Call(lines[i]);
    }
    assert lines[..|lines|] == lines;
  }

  /**
   * Lines 69-77 up to the return of RunProcess: a fresh parser, fed the
   * lines the process prints. What it holds is the values of those lines
   * only, nothing from an earlier repetition.
   */
  method ParseRepetition(p: Pattern, outcome: Outcome) returns (timings: seq<real>)
    ensures timings == Millis(Extract(p, outcome.stdout))
  {
    var parser := new ParserOutput(p);
    Deliver(parser, outcome.stdout);
    timings := parser.timings;
  }

  /** One pass of the loop body: a raise breaks without extending the timings. */
  function Step(p: Pattern, s: Sample, o: Outcome): Sample {
    match o
    case Raised(_) => Sample(s.timings, s.attempts + 1, true)
    case Completed(lines) => Sample(s.timings + Millis(Extract(p, lines)), s.attempts + 1, false)
  }

  /** The state after the loop has been offered the outcomes `os` in turn; a break is final. */
  function Sampled(p: Pattern, os: seq<Outcome>): Sample
    decreases |os|
  {
    if os == [] then Sample([], 0, false)
    else
      var s := Sampled(p, os[..|os| - 1]);
      if s.stopped then s else Step(p, s, os[|os| - 1])
  }

  lemma {:induction false} StoppedStays(p: Pattern, os: seq<Outcome>, n: nat)
    requires n <= |os| && Sampled(p, os[..n]).stopped
    ensures Sampled(p, os) == Sampled(p, os[..n])
    decreases |os| - n
  {
    if n < |os| {
      var init := os[..|os| - 1];
      assert init[..n] == os[..n];
      StoppedStays(p, init, n);
    } else {
      assert os[..n] == os;
    }
  }

  /** The loop after `k + 1` outcomes is the loop after `k`, then one more pass unless it broke. */
  lemma SampledNext(p: Pattern, os: seq<Outcome>, k: nat)
    requires k < |os|
    ensures Sampled(p, os[..k + 1]) ==
              if Sampled(p, os[..k]).stopped then Sampled(p, os[..k]) else Step(p, Sampled(p, os[..k]), os[k])
  {
    assert os[..k + 1][..k] == os[..k];
  }

  /**
   * The timings of one file's repetitions (lines 68-82): each repetition's
   * own values, added only when its process returns.
   */
  method Measure(p: Pattern, args: seq<string>, run: (seq<string>, nat) -> Outcome)
    returns (timings: seq<real>, attempts: nat)
    ensures timings == Sampled(p, Outcomes(run, args)).timings
    ensures attempts == Sampled(p, Outcomes(run, args)).attempts
  {
    ghost var os := Outcomes(run, args);
    timings, attempts := [], 0;
    for k := 0 to Repetitions
      invariant Sampled(p, os[..k]) == Sample(timings, attempts, false)
    {
      var outcome := run(args, k);
      var parsed := ParseRepetition(p, outcome);
      SampledNext(p, os, k);
      attempts := attempts + 1;
      if outcome.Raised? {
        StoppedStays(p, os, k + 1);
        break;
      }
      timings := timings + parsed;
    }
    assert os[..Repetitions] == os;
  }

  /** The index of the first repetition that raises, or `|os|` when none does. */
  function FirstRaise(os: seq<Outcome>): (f: nat)
    ensures f <= |os|
    ensures forall i :: 0 <= i < f ==> os[i].Completed?
    ensures f < |os| ==> os[f].Raised?
    decreases |os|
  {
    if os == [] then 0
    else
      var f := FirstRaise(os[..|os| - 1]);
      if f < |os| - 1 then f
      else if os[|os| - 1].Raised? then |os| - 1
      else |os|
  }

  /** The values every completed repetition in `os` reports, in order, each repetition's on its own. */
  function Collected(p: Pattern, os: seq<Outcome>): seq<real>
    decreases |os|
  {
    if os == [] then []
    else
      var last := os[|os| - 1];
      Collected(p, os[..|os| - 1]) + (if last.Completed? then Millis(Extract(p, last.stdout)) else [])
  }

  /**
   * The loop, stated without the loop: the repetitions before the first
   * raise each contribute exactly the values of their own output, and the
   * raising one contributes nothing and is the last process started.
   */
  lemma {:induction false} SampledUpToFirstRaise(p: Pattern, os: seq<Outcome>)
    ensures var f := FirstRaise(os);
      Sampled(p, os) ==
        if f == |os| then Sample(Collected(p, os), |os|, false)
        else Sample(Collected(p, os[..f]), f + 1, true)
    decreases |os|
  {
    if os != [] {
      var init := os[..|os| - 1];
      SampledUpToFirstRaise(p, init);
      var f := FirstRaise(init);
      if f < |init| {
        assert os[..f] == init[..f];
        assert FirstRaise(os) == f;
      } else {
        var last := os[|init|];
        assert Sampled(p, os) == Step(p, Sample(Collected(p, init), |init|, false), last);
        assert Collected(p, os) == Collected(p, init) + (if last.Completed? then Millis(Extract(p, last.stdout)) else []);
        assert os[..|init|] == init;
      }
    }
  }

  /** A raise in repetition `j` keeps the earlier repetitions' timings and drops its own. */
  lemma RaiseEndsLoop(p: Pattern, os: seq<Outcome>, j: nat)
    requires j < |os| && os[j].Raised?
    requires forall i :: 0 <= i < j ==> os[i].Completed?
    ensures Sampled(p, os) == Sample(Collected(p, os[..j]), j + 1, true)
  {
    assert FirstRaise(os) == j;
    SampledUpToFirstRaise(p, os);
  }

  /**
   * What a raising repetition printed before it raised never reaches the
   * record: two runs that differ only in that output keep the same timings.
   */
  lemma PartialOutputDropped(p: Pattern, os: seq<Outcome>, j: nat, lines: seq<string>)
    requires j < |os| && os[j].Raised?
    requires forall i :: 0 <= i < j ==> os[i].Completed?
    ensures Sampled(p, os[j := Raised(lines)]) == Sampled(p, os)
  {
    var os' := os[j := Raised(lines)];
    RaiseEndsLoop(p, os, j);
    RaiseEndsLoop(p, os', j);
    assert os'[..j] == os[..j];
  }

  /** At most one process per repetition, five per file, and all five unless one raised. */
  lemma AttemptsBounded(p: Pattern, os: seq<Outcome>)
    ensures Sampled(p, os).attempts <= |os|
    ensures !Sampled(p, os).stopped ==> Sampled(p, os).attempts == |os|
  {
    SampledUpToFirstRaise(p, os);
  }

  /** The arguments after the binary: `rewrite <rewriter> <rec_dir>/<name>`. */
  function Args(recDir: string, rewriter: string, name: string): seq<string> {
    ["rewrite", rewriter, recDir + "/" + name]
  }

  /** The record written for one file: its base name under `experiment`, the rewriter and its timings in ms. */
  function RecordFor(recDir: string, rewriter: string, name: string, run: (seq<string>, nat) -> Outcome): JsonObject {
    var timings := Sampled(PatternFor(rewriter), Outcomes(run, Args(recDir, rewriter, name))).timings;
    JsonObject(Some(rewriter), None, Some(name), Some(timings))
  }

  /**
   * `benchmark(logger, merc_path, rewriter, rec_dir, output_dir)`: the
   * records written, one per `*.rec` entry of `rec_dir` in listing order,
   * or the error raised before the result file is opened.
   */
  method Benchmark(recDir: string, rewriter: string, setup: Setup, run: (seq<string>, nat) -> Outcome)
    returns (r: Result<seq<JsonObject>, SetupError>)
    ensures !MercRewriter(rewriter) ==> r == Failure(InvalidRewriter)
    ensures MercRewriter(rewriter) && !setup.binaryFound ==> r == Failure(BinaryNotFound)
    ensures r.Success? <==> MercRewriter(rewriter) && setup.binaryFound
    ensures r.Success? ==> |r.value| == |Glob(setup.listing, ".rec")|
    ensures r.Success? ==> forall i :: 0 <= i < |r.value| ==>
              r.value[i] == RecordFor(recDir, rewriter, Glob(setup.listing, ".rec")[i], run)
  {
    if !MercRewriter(rewriter) {
      return Failure(InvalidRewriter);
    }
    if !setup.binaryFound {
      return Failure(BinaryNotFound);
    }
    var pattern := PatternFor(rewriter);
    var files := Glob(setup.listing, ".rec");
    var records := [];
    for i := 0 to |files|
      invariant |records| == i
      invariant forall j :: 0 <= j < i ==> records[j] == RecordFor(recDir, rewriter, files[j], run)
    {
      var name := files[i];
      var timings, _ := Measure(pattern, Args(recDir, rewriter, name), run);
      records := records + [JsonObject(Some(rewriter), None, Some(name), Some(timings))];
    }
    r := Success(records);
  }

  /**
   * Every record names a `.rec` entry of the directory under `experiment`,
   * keeps its extension, and carries no `benchmark_name`.
   */
  lemma RecordsNameRecFiles(recDir: string, rewriter: string, setup: Setup, run: (seq<string>, nat) -> Outcome, i: nat)
    requires i < |Glob(setup.listing, ".rec")|
    ensures var name := Glob(setup.listing, ".rec")[i];
      var rec := RecordFor(recDir, rewriter, name, run);
      rec.experiment == Some(name) && name in setup.listing && EndsWith(name, ".rec") &&
      rec.benchmarkName.None? && rec.rewriter == Some(rewriter)
  {
    var files := Glob(setup.listing, ".rec");
    assert files[i] in files;
  }
}
