/** Value types shared by the benchmark scripts and the table builder. */
module Common {

  /** A value that may be absent (Python's `None`). */
  datatype Option<+T> = None | Some(value: T)

  /** The outcome of an operation that may raise. */
  datatype Result<+T, +E> = Success(value: T) | Failure(error: E)

  /** Errors the benchmark scripts raise before any benchmark runs. */
  datatype SetupError =
    | InvalidRewriter     // ValueError("Invalid rewriter")
    | BuildFailed         // the `cargo build` step exits non-zero (CalledProcessError)
    | BinaryNotFound      // FileNotFoundError / RuntimeError for the missing rewrite binary
    | ExamplesDirMissing  // FileNotFoundError("examples/REC/rec not found")

  /**
   * One line of a results file as a JSON object, restricted to the keys
   * the scripts write or read. A key that is not present is `None`.
   * run.py writes `benchmark_name`; run_merc.py and run_mcrl2.py write
   * `experiment`; create_table.py reads `benchmark_name`.
   */
  datatype JsonObject = JsonObject(
    rewriter: Option<string>,
    benchmarkName: Option<string>,
    experiment: Option<string>,
    timings: Option<seq<real>>)

  /** Conversion of matched integers to the floats the scripts store. */
  function Millis(ns: seq<nat>): (ms: seq<real>)
    ensures |ms| == |ns|
    ensures forall i :: 0 <= i < |ns| ==> ms[i] == ns[i] as real && ms[i] >= 0.0
  {
    seq(|ns|, i requires 0 <= i < |ns| => ns[i] as real)
  }

  lemma MillisAppend(a: seq<nat>, b: seq<nat>)
    ensures Millis(a + b) == Millis(a) + Millis(b)
  {
  }

  /** Every script runs each benchmark at most this many times (`range(5)`). */
  const Repetitions: nat := 5

  /**
   * The outcomes the repetitions on `args` would have, in order: `run`
   * stands for the external process, keyed by its argument vector and the
   * index of the repetition.
   */
  function Outcomes<O>(run: (seq<string>, nat) -> O, args: seq<string>): (os: seq<O>)
    ensures |os| == Repetitions
    ensures forall k :: 0 <= k < Repetitions ==> os[k] == run(args, k)
  {
    seq(Repetitions, k requires 0 <= k < Repetitions => run(args, k))
  }

  /** The state of one file's repetition loop: the timings kept, the processes started, whether it broke. */
  datatype Sample = Sample(timings: seq<real>, attempts: nat, stopped: bool)
}
