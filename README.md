# Sabre artifact benchmark harness, modelled in Dafny

The harness measures term-rewriting engines on the REC benchmark suite. It
has four scripts:

- `scripts/run.py` builds `merc-rewrite`. It then rewrites every entry of
  `examples/REC/rec`, in sorted order, up to five times with the `innermost`
  or the `sabre` strategy. From the output it reads `Innermost rewrite took
  N ms` or `Sabre rewrite took N ms`. It stores `N / 1000` seconds in one
  JSON line per benchmark, under `benchmark_name` (the file stem).
- `scripts/run_merc.py` does the same for the `*.rec` files of a given
  directory. It uses a `ParserOutput` callback object that receives each
  stdout line as it is printed. It keeps milliseconds and names the record
  under `experiment` (the base name, extension included).
- `scripts/run_mcrl2.py` runs `mcrl2rewrite -v --timings <file>.dataspec
  <file>.expressions` for every `*.dataspec` file. It reads `rewriting: N
  milliseconds.` and keeps milliseconds, also under `experiment`.
- `scripts/create_table.py` reads a results file and averages each record's
  timings. It prints a table with one column per rewriter and one row per
  benchmark, in sorted order. `scripts/run.py:81-122` is a copy of the same
  code and is modelled once.

The model has these modules:

| module | content |
|---|---|
| `Common` | Shared values: `Option`, `Result`, the setup errors, a JSON line as a record with optional keys, the repetition count and the outcome vector of the five repetitions. |
| `Text` | `str.strip`, decimal numerals and right alignment. |
| `Ordering` | Python's string order and `sorted` of a set. |
| `Regex` | `re.search` for patterns of the form literal, `([0-9]+)`, fixed-width tail. |
| `Timing` | The three timing patterns and the extraction of values from lines. |
| `Paths` | `Path.stem`, `Path.with_suffix` and `glob("*.ext")`. |
| `Run`, `RunMerc`, `RunMcrl2` | One module per benchmark script. |
| `CreateTable` | The table builder. |

Each run of the external program is an outcome value. The `run` oracle
gives the outcome for an argument vector and a repetition index. So the
process, its timeout and its output are inputs to the model.

Each repetition loop is an imperative method (`Measure`). It is proved equal
to a fold (`Sampled`) over the five outcomes. The fold is then
characterised without the loop: the repetitions up to the first abort run,
and only the earlier repetitions' timings are kept.

`create_table` is an imperative method proved against specification
functions: `Load` (strip, skip blank lines, decode), `Merge` (nested map,
last record wins), `Header` and `RowLine`.

The model follows the code as written, including these behaviours a reader
might not expect:

- A record with an empty timing list shows `0.0`, not `-`.
- run.py keeps seconds while the other two scripts keep milliseconds.
- run_merc.py and run_mcrl2.py write `experiment`, while create_table.py
  reads `benchmark_name`. `CreateTable.ExperimentRecordRejected` shows that
  the table builder rejects their files.
- run_merc.py and run_mcrl2.py never look at the exit code.
- One malformed line makes the whole table fail.
- run_mcrl2.py validates the rewriter name but does not pass it to
  mcrl2rewrite. `RunMcrl2.RewriterOnlyLabels` states the consequence.

## Model

| member | source | states |
|---|---|---|
| `Common.Millis` | scripts/run_merc.py:37 | Each stored value is the matched integer itself, as a non-negative real; one value per match, same order. |
| `Common.Outcomes` | scripts/run.py:56 | The loop sees exactly five outcomes, the k-th being what the process does on the k-th repetition. |
| `Text.NatToStringRoundTrip` | scripts/run.py:68 | Reading back the decimal numeral of `n` (as `float(m.group(1))` does) gives `n`. |
| `Text.NatToString` | scripts/create_table.py:10 | A numeral, as `{:.1f}` prints the integer part and the rewriters print their timings, is a non-empty run of digits without a leading zero. |
| `Text.DigitsValue` | scripts/run.py:68 | Definition: the value of a run of decimal digits, as `float(m.group(1))` reads it. It has no ensures; `NatToStringRoundTrip` characterises it. |
| `Text.TrimStart` | scripts/create_table.py:14 | Strips exactly the leading whitespace: what is removed is all whitespace, what remains does not start with whitespace. |
| `Text.TrimEnd` | scripts/create_table.py:14 | Strips exactly the trailing whitespace, symmetrically. |
| `Text.IsSpace` | scripts/create_table.py:14 | Definition: the characters `str.isspace` accepts (ASCII tab to carriage return, the separators 0x1C-0x1F, space, and the Unicode spaces). It has no ensures; `TrimStart`, `TrimEnd` and `StripEmptyIff` are stated in terms of it. |
| `Text.StripEmptyIff` | scripts/create_table.py:14 | `line.strip()` is empty if and only if the line is whitespace only. |
| `Text.Strip` | scripts/create_table.py:14 | `line.strip()` is no longer than the line and neither starts nor ends with whitespace; `TrimStart` and `TrimEnd` state that exactly the outer whitespace is removed. |
| `Text.RightAlign` | scripts/create_table.py:40 | `f"{s:>w}"` has length `max(w, len(s))`, ends with `s`, and is padded with spaces only. |
| `Ordering.SortedViewUnique` | scripts/create_table.py:27 | `sorted` of a set has exactly one possible result. |
| `Ordering.Below` | scripts/create_table.py:27 | Definition: `<` on `str`, lexicographic by code point, a proper prefix first. It has no ensures; `BelowTotal` and `BelowTransitive` characterise it. |
| `Ordering.BelowTotal` | scripts/create_table.py:27 | Python's string order is total on distinct strings. |
| `Ordering.BelowTransitive` | scripts/create_table.py:27 | Python's string order is transitive. |
| `Ordering.SortStrings` | scripts/create_table.py:39 | The result lists every element of the set exactly once, in strictly increasing order. |
| `Regex.Backtrack` | scripts/run.py:36 | At a fixed start, the longest digit group after which the pattern's tail matches, and no longer one matches. |
| `Regex.SearchFrom` | scripts/run.py:66 | From a position on, the leftmost start with a match and, there, the greedy group. |
| `Regex.Search` | scripts/run.py:66 | `pattern.search(line)`: a match is found exactly when one exists; it is the leftmost and its group is the longest at that start. |
| `Regex.CaptureIsWholeRun` | scripts/run.py:36 | When the pattern's tail cannot start with a digit, the group is the whole digit run. |
| `Regex.FindAtStart` | scripts/run.py:36 | A line that starts with the prefix, a number and the tail yields that number. |
| `Regex.FindPrinted` | scripts/run.py:36 | The prefix, a printed number and a matching tail read back as that number. |
| `Regex.Find` | scripts/run.py:66-68 | Definition: `float(m.group(1))` of the match `Search` returns, or nothing. It has no ensures of its own; `FindSomeIff`, `FindAtStart` and `FindPrinted` characterise it. |
| `Regex.FindSomeIff` | scripts/run.py:66-67 | A value is found if and only if the pattern matches somewhere in the line. |
| `Timing.InnermostPattern` | scripts/run.py:36 | Definition of `Innermost rewrite took ([0-9]+) ms`; `InnermostLineRoundTrip` characterises it. |
| `Timing.SabrePattern` | scripts/run_merc.py:50-54 | Definition of `Sabre rewrite took ([0-9]+) ms`; `SabreLineRoundTrip` characterises it. |
| `Timing.Mcrl2Pattern` | scripts/run_mcrl2.py:24 | Definition of `TIME_REGEX`, `rewriting: ([0-9]+) milliseconds.` with the final `.` as any character but a newline; `Mcrl2LineRoundTrip` characterises it. |
| `Timing.MercRewriter` | scripts/run_merc.py:43-44 | Definition: the rewriter names run.py:19 and run_merc.py:43 accept, `innermost` and `sabre`. It has no ensures; `Run.Benchmark` and `RunMerc.Benchmark` fail with `InvalidRewriter` exactly outside it. |
| `Timing.PatternFor` | scripts/run.py:36 | The innermost pattern is used if and only if the rewriter is `innermost`; the Sabre pattern otherwise. |
| `Timing.FoundIn` | scripts/run.py:66-67 | A line contributes at most one value, and none only when the pattern does not match it anywhere. |
| `Timing.Extract` | scripts/run.py:65-72 | The lines yield at most one value each. |
| `Timing.ExtractAppend` | scripts/run.py:63 | Values of stdout then stderr are the values of stdout followed by those of stderr. |
| `Timing.ExtractEmptyIff` | scripts/run.py:64-74 | Nothing is found if and only if no line matches. |
| `Timing.ExtractSingle` | scripts/run_merc.py:35-38 | A single line yields exactly its own value, if any. |
| `Timing.InnermostLineRoundTrip` | scripts/run.py:36 | `Innermost rewrite took N ms` is read back as N. |
| `Timing.SabreLineRoundTrip` | scripts/run_merc.py:53 | `Sabre rewrite took N ms` is read back as N. |
| `Timing.Mcrl2LineRoundTrip` | scripts/run_mcrl2.py:24 | `rewriting: N milliseconds` followed by any character but a newline is read back as N. |
| `Paths.LastDot` | scripts/run.py:49 | The index of the last dot, with no dot after it, or -1. |
| `Paths.HasSuffix` | scripts/run.py:49 | Definition: pathlib's rule that a name has a suffix when its last dot is neither its first nor its last character. It has no ensures; `Stem`, `StemOfExtension` and `StemOfBareExtension` characterise it. |
| `Paths.Stem` | scripts/run.py:49 | `Path.stem` drops the final suffix when there is one, and changes nothing otherwise. |
| `Paths.StemOfExtension` | scripts/run.py:49 | `base.ext` has stem `base` (also when `base` holds dots), and `with_suffix` swaps the extension. |
| `Paths.StemOfBareExtension` | scripts/run.py:49 | A name that is only an extension, such as `.rec`, is its own stem. |
| `Paths.WithSuffix` | scripts/run_mcrl2.py:43 | `with_suffix` replaces the final suffix when the name has one, and appends the new suffix otherwise. |
| `Paths.Glob` | scripts/run_merc.py:59 | Yields only listed names that end with the extension, and every such name, at most one result per entry. `GlobSingle` and `GlobAppend` fix the order and multiplicity. |
| `Paths.GlobSingle` | scripts/run_merc.py:59 | A single entry is yielded if and only if it ends with the extension. |
| `Paths.GlobAppend` | scripts/run_merc.py:59 | Entries are filtered one by one: the matches of `a + b` are those of `a`, then those of `b`. With `GlobSingle` this fixes the result: the matching entries, each once, in listing order. |
| `Run.Seconds` | scripts/run.py:68-69 | Every stored timing times 1000 is the matched integer. |
| `Run.StoppedStays` | scripts/run.py:59-61 | After a `break`, later outcomes change nothing. |
| `Run.Found` | scripts/run.py:63-72 | Definition: the values found in a repetition's stdout lines, then its stderr lines. It has no ensures; `ScanOutput` is proved to compute it and `ExtractAppend` splits it. |
| `Run.Aborts` | scripts/run.py:56-76 | Definition: a repetition ends the loop when it times out, or exits non-zero without a timing. It has no ensures; `FirstAbort`, `AbortEndsLoop` and `TimingOverridesExitCode` characterise it. |
| `Run.Step` | scripts/run.py:57-76 | Definition of one pass of the loop body. It has no ensures; `StepAborts` characterises it. |
| `Run.StepAborts` | scripts/run.py:57-76 | A pass stops the loop exactly when its repetition aborts, and appends that repetition's values in seconds (nothing on a timeout). |
| `Run.Sampled` | scripts/run.py:56-76 | Definition: the loop over a sequence of outcomes, as a fold in which a break is final. It has no ensures; `Measure` is proved equal to it and `SampledUpToFirstAbort` characterises it. |
| `Run.ScanOutput` | scripts/run.py:63-72 | The timings are the values of the stdout and stderr lines, in order, in seconds; `found_timing` holds if and only if one was found. |
| `Run.SampledNext` | scripts/run.py:56-76 | One more repetition is one more pass of the loop body, unless the loop has broken. |
| `Run.Measure` | scripts/run.py:56-76 | The timings kept and the processes started are those of the loop specification over the five outcomes. |
| `Run.FirstAbort` | scripts/run.py:56-76 | The index of the first repetition that times out or exits non-zero without a timing: none before it does. |
| `Run.SampledUpToFirstAbort` | scripts/run.py:56-76 | With no abort, all five run and all their timings are kept. Otherwise the repetitions up to the first abort run and the timings of those before it are kept. |
| `Run.AfterAbort` | scripts/run.py:59-61 | Once a repetition has aborted, one more outcome changes neither the result nor the first abort. |
| `Run.BeforeAbort` | scripts/run.py:56-76 | While no repetition has aborted, one more outcome is one more pass, and the loop stops exactly if that repetition aborts. |
| `Run.AttemptsBounded` | scripts/run.py:56 | At most five processes per file, and exactly five when the loop does not break. |
| `Run.AbortEndsLoop` | scripts/run.py:57-61 | A timeout or a failing exit without timing ends the loop; the earlier repetitions' timings are kept. |
| `Run.TimingOverridesExitCode` | scripts/run.py:74-76 | A repetition that printed a timing does not end the loop, even when it exits non-zero. |
| `Run.TimeoutAfterOneTiming` | scripts/run.py:56-72 | One timing of 2000 ms then a timeout: the record holds `[2.0]` and exactly two processes ran. |
| `Run.RecordNamesStem` | scripts/run.py:48-54 | `base.rec` is recorded under `benchmark_name` `base`, and there is no `experiment` key. |
| `Run.Args` | scripts/run.py:52 | Definition of `cmd` after the binary: `rewrite`, the rewriter, `examples/REC/rec/<name>`. It has no ensures. |
| `Run.RecordFor` | scripts/run.py:52-54 | Definition of the record for one entry: the rewriter, the stem under `benchmark_name` and the loop's timings. It has no ensures; `RecordNamesStem` and `Benchmark` characterise it. |
| `Run.Benchmark` | scripts/run.py:16-79 | An invalid rewriter, a failed build, a missing binary and a missing examples directory each raise, in that order. Otherwise there is one record per entry, in sorted order, holding the rewriter, the stem and the loop's timings. |
| `RunMerc.ParserOutput.constructor` | scripts/run_merc.py:26-29 | A new parser holds the pattern and no timings. |
| `RunMerc.ParserOutput.Call` | scripts/run_merc.py:31-38 | The line's value, in ms, is appended if the line matches, and nothing otherwise. |
| `RunMerc.Deliver` | scripts/run_merc.py:72-77 | Handing the stdout lines to the parser in order appends exactly their values, in order. |
| `RunMerc.ParseRepetition` | scripts/run_merc.py:69-77 | A fresh parser per repetition holds the values of that repetition's lines only. |
| `RunMerc.StoppedStays` | scripts/run_merc.py:78-80 | After a `break`, later outcomes change nothing. |
| `RunMerc.Step` | scripts/run_merc.py:68-82 | Definition of one pass: a raise breaks, a return appends that repetition's values. It has no ensures; `SampledUpToFirstRaise` characterises it. |
| `RunMerc.Sampled` | scripts/run_merc.py:68-82 | Definition: the loop as a fold in which a break is final. It has no ensures; `Measure` is proved equal to it and `SampledUpToFirstRaise` characterises it. |
| `RunMerc.SampledNext` | scripts/run_merc.py:68-82 | One more repetition is one more pass of the loop body, unless the loop has broken. |
| `RunMerc.Measure` | scripts/run_merc.py:68-82 | The timings kept and the processes started are those of the loop specification over the five outcomes. |
| `RunMerc.FirstRaise` | scripts/run_merc.py:71-80 | The index of the first repetition whose process raises: none before it does. |
| `RunMerc.SampledUpToFirstRaise` | scripts/run_merc.py:68-82 | The repetitions before the first raise each add exactly their own values. The raising one adds nothing and is the last one started. |
| `RunMerc.RaiseEndsLoop` | scripts/run_merc.py:78-82 | A raise ends the loop, keeps the earlier repetitions' timings and drops its own. |
| `RunMerc.PartialOutputDropped` | scripts/run_merc.py:78-82 | What a raising repetition printed before raising never reaches the record. |
| `RunMerc.AttemptsBounded` | scripts/run_merc.py:68 | At most five processes per file, and exactly five when none raises. |
| `RunMerc.Benchmark` | scripts/run_merc.py:40-86 | An invalid rewriter raises, then a missing binary, both before any record. Otherwise there is one record per `*.rec` entry, in listing order, holding the rewriter, the base name and the loop's timings. |
| `RunMerc.RecordsNameRecFiles` | scripts/run_merc.py:59-66 | Every record names a listed `.rec` entry, extension included, under `experiment`, and has no `benchmark_name`. |
| `RunMerc.Args` | scripts/run_merc.py:74 | Definition of the argument vector `rewrite <rewriter> <rec_dir>/<name>`. It has no ensures. |
| `RunMerc.RecordFor` | scripts/run_merc.py:62-66 | Definition of the record for one file. It has no ensures; `RecordsNameRecFiles` and `Benchmark` characterise it. |
| `RunMcrl2.StoppedStays` | scripts/run_mcrl2.py:57-59 | After a `break`, later outcomes change nothing. |
| `RunMcrl2.Mcrl2Rewriter` | scripts/run_mcrl2.py:30-31 | Definition: the accepted rewriter names `jitty` and `jittyc`. It has no ensures; `Benchmark` fails with `InvalidRewriter` exactly outside it. |
| `RunMcrl2.Found` | scripts/run_mcrl2.py:61-68 | Definition: the values found in a repetition's stdout lines, then its stderr lines. It has no ensures; `ScanOutput` is proved to compute it. |
| `RunMcrl2.Step` | scripts/run_mcrl2.py:52-68 | Definition of one pass: a raise breaks, a completed run appends every value found whatever its exit code. It has no ensures; `SampledUpToFirstRaise` and `ReturnCodeIgnored` characterise it. |
| `RunMcrl2.Sampled` | scripts/run_mcrl2.py:52-68 | Definition: the loop as a fold in which a break is final. It has no ensures; `Measure` is proved equal to it and `SampledUpToFirstRaise` characterises it. |
| `RunMcrl2.ScanOutput` | scripts/run_mcrl2.py:61-68 | The timings are the values of the stdout and stderr lines, in order, in ms. |
| `RunMcrl2.SampledNext` | scripts/run_mcrl2.py:52-68 | One more repetition is one more pass of the loop body, unless the loop has broken. |
| `RunMcrl2.Measure` | scripts/run_mcrl2.py:52-68 | The timings kept and the processes started are those of the loop specification over the five outcomes. |
| `RunMcrl2.FirstRaise` | scripts/run_mcrl2.py:53-59 | The index of the first repetition whose process raises: none before it does. |
| `RunMcrl2.SampledUpToFirstRaise` | scripts/run_mcrl2.py:52-68 | Every repetition before the first raise runs and keeps all its values, whatever its exit code. |
| `RunMcrl2.RaiseEndsLoop` | scripts/run_mcrl2.py:57-59 | A raise ends the loop and keeps what the earlier repetitions found. |
| `RunMcrl2.AttemptsBounded` | scripts/run_mcrl2.py:52 | At most five processes per file, and exactly five when none raises. |
| `RunMcrl2.ReturnCodeIgnored` | scripts/run_mcrl2.py:53-68 | Two runs that differ only in exit codes keep the same timings and start the same processes. |
| `RunMcrl2.ExpressionsBesideDataspec` | scripts/run_mcrl2.py:43 | `base.dataspec` is run with `base.expressions` from the same directory. |
| `RunMcrl2.Args` | scripts/run_mcrl2.py:43-55 | Definition of the argument vector `-v --timings <file> <expressions>`, without the rewriter. It has no ensures; `ExpressionsBesideDataspec` and `RewriterOnlyLabels` characterise it. |
| `RunMcrl2.RecordFor` | scripts/run_mcrl2.py:46-50 | Definition of the record for one file: the base name under `experiment`, the rewriter and the timings. It has no ensures. |
| `RunMcrl2.Benchmark` | scripts/run_mcrl2.py:27-73 | A rewriter other than `jitty`/`jittyc` raises, then a missing binary. Otherwise there is one record per `*.dataspec` entry, in listing order. |
| `RunMcrl2.RewriterOnlyLabels` | scripts/run_mcrl2.py:54-56 | `Args(recDir, name)` takes no rewriter, so for the same process behaviour the `jitty` and `jittyc` records of a file are equal except for the `rewriter` key, which differs. |
| `CreateTable.Average` | scripts/create_table.py:6-7 | 0.0 for no timings; otherwise the value that, times their number, is their sum. |
| `CreateTable.SumBounds` | scripts/create_table.py:7 | The sum of n values between `lo` and `hi` lies between `n*lo` and `n*hi`. |
| `CreateTable.AverageBetween` | scripts/create_table.py:6-7 | The mean lies between the least and the greatest timing. |
| `CreateTable.RoundHalfEven` | scripts/create_table.py:9-10 | The nearest integer; of two equally near, the even one. |
| `CreateTable.FormatOneDecimal` | scripts/create_table.py:9-10 | `f"{v:.1f}"` is digits, a point and one digit, preceded by `-` for a negative value. |
| `CreateTable.FormatNearest` | scripts/create_table.py:9-10 | The printed number is within 0.05 of the value; for a negative value, `-` followed by a number within 0.05 of the value's magnitude. |
| `CreateTable.FormatCharacters` | scripts/create_table.py:9-10 | The printed number holds only digits, `.` and `-`. |
| `CreateTable.ZeroPrintsAsZero` | scripts/create_table.py:7-10 | The mean of no timings prints as `0.0`. |
| `CreateTable.Decode` | scripts/create_table.py:20-23 | A line is usable if and only if it is JSON with `rewriter` and `benchmark_name`; `timings` defaults to `[]`. Each error is the one the source raises first: a line `json.loads` rejects is `Malformed`, then a missing `rewriter` is a KeyError for `rewriter`, then a missing `benchmark_name` is a KeyError for that key. |
| `CreateTable.KeptLine` | scripts/create_table.py:14 | A line contributes at most one line, and never an empty one; `KeptLineStrips` states which. |
| `CreateTable.Kept` | scripts/create_table.py:14 | At most one kept line per line, none empty. With `KeptAppend` and `KeptLineStrips`, the kept lines are exactly the stripped non-blank lines, in order. |
| `CreateTable.KeptLineStrips` | scripts/create_table.py:14 | A line is dropped if and only if it is whitespace only; otherwise it is kept as its `strip()`. |
| `CreateTable.KeptAppend` | scripts/create_table.py:14 | Lines are filtered one by one, independently of each other. |
| `CreateTable.BlankLineIgnored` | scripts/create_table.py:14 | Inserting a whitespace-only line anywhere changes nothing. |
| `CreateTable.NonBlankLineKept` | scripts/create_table.py:14 | A line with a non-space character, wherever it stands, is kept as its stripped text between the kept lines before and after it. |
| `CreateTable.ParseSucceeds` | scripts/create_table.py:19-23 | Reading succeeds if and only if every kept line decodes; then it yields one entry per line, in order. |
| `CreateTable.ParseFailureStays` | scripts/create_table.py:19-23 | The first failing line decides the error. |
| `CreateTable.Parse` | scripts/create_table.py:19-23 | Definition: the kept lines decoded in order, stopping at the first failure. It has no ensures; `ParseSucceeds` and `ParseFailureStays` characterise it. |
| `CreateTable.Load` | scripts/create_table.py:13-23 | Definition: the lines kept, then parsed. It has no ensures; `CreateTable` is proved to fail exactly when it does. |
| `CreateTable.ExperimentRecordRejected` | scripts/create_table.py:22 | A record as run_merc.py and run_mcrl2.py write it makes reading fail with a KeyError for `benchmark_name`. |
| `CreateTable.Put` | scripts/create_table.py:25 | Definition of `results.setdefault(bn, {})[rw] = average(timings)`. It has no ensures; `MergeKeys` and `LastWins` characterise it. |
| `CreateTable.Merge` | scripts/create_table.py:19-25 | Definition: the entries put into an empty map in order. It has no ensures; `MergeKeys` and `LastWins` characterise it. |
| `CreateTable.Rewriters` | scripts/create_table.py:24 | Definition: the set of rewriters of the entries. It has no ensures; `RewritersSeen` characterises it. |
| `CreateTable.MergeKeys` | scripts/create_table.py:16-25 | The rows are exactly the benchmark names seen. A row has a cell for a rewriter if and only if some record pairs them. |
| `CreateTable.RewritersSeen` | scripts/create_table.py:24 | The columns are exactly the rewriters seen. |
| `CreateTable.LastWins` | scripts/create_table.py:25 | For a repeated benchmark and rewriter, the last record's mean is the cell. |
| `CreateTable.CellText` | scripts/create_table.py:42-46 | A present value prints as its one-decimal text; a missing one as `-`. |
| `CreateTable.Header` | scripts/create_table.py:29-37 | Definition of the header line. It has no ensures; `RenderHeader` is proved equal to it. |
| `CreateTable.Cell` | scripts/create_table.py:44-46 | Definition of one printed cell. It has no ensures; `CellHasOneBar`, `DashCell` and `RenderCell` characterise it. |
| `CreateTable.Cells` | scripts/create_table.py:41-46 | Definition: the cells of a row in column order. It has no ensures; `OneCellPerColumn` characterises it. |
| `CreateTable.RowLine` | scripts/create_table.py:40-47 | Definition of one row line. It has no ensures; `RenderRow` is proved equal to it. |
| `CreateTable.CellTextHasNoBar` | scripts/create_table.py:42-46 | No cell text contains `\|`. |
| `CreateTable.BarsAppend` | scripts/create_table.py:44 | Separators in a concatenation add up. |
| `CreateTable.NoBars` | scripts/create_table.py:44 | A text without `\|` holds no separator. |
| `CreateTable.CellHasOneBar` | scripts/create_table.py:44-46 | Each cell holds exactly one separator. |
| `CreateTable.OneCellPerColumn` | scripts/create_table.py:41-46 | A row holds exactly one cell per column. |
| `CreateTable.DashCell` | scripts/create_table.py:46 | A missing cell is nine spaces and a dash. |
| `CreateTable.EmptyTimingsShowZero` | scripts/create_table.py:43-44 | A last record with no timings gives a present cell `0.0`, not a dash. |
| `CreateTable.KeepLines` | scripts/create_table.py:13-14 | The loop keeps exactly the stripped non-blank lines, in order. |
| `CreateTable.Collect` | scripts/create_table.py:16-25 | The loop fails with the first line's error, if any. Otherwise it fills `results` and `rewriters` as `Merge` and `Rewriters` of the entries. |
| `CreateTable.RenderHeader` | scripts/create_table.py:29-37 | The header loop with its `first` flag prints `Header(columns)`. |
| `CreateTable.RenderCell` | scripts/create_table.py:42-46 | `results[bench].get(rw)` prints the value's text or `-`, right-aligned behind `\| `. |
| `CreateTable.RenderRow` | scripts/create_table.py:40-47 | A row is the name right-aligned to 30, then one cell per column in column order. |
| `CreateTable.RenderRows` | scripts/create_table.py:39-47 | One line per benchmark, in the given order. |
| `CreateTable.CreateTable` | scripts/create_table.py:12-47 | The table fails exactly when reading fails, with the same error. Otherwise the columns are the sorted rewriters and the rows the sorted benchmark names, each once. The output is the header and then one row line per benchmark. |

## Left out

- Process spawning is not modelled. This covers `subprocess.run`, `RunProcess`, the 600-second timeout, the `cargo build` step and `shutil.which`. The first two become the `run` oracle's outcomes; the build and binary lookup become booleans of `Setup`.
- Logging, the progress prints and `print(results)` are left out: they do not change any result.
- File creation, truncation and flushing are left out, and so are `mkdir`. run.py opens (truncates) the output file before it checks for `examples/REC/rec`; a missing directory therefore also leaves an empty output file. The model returns only the error.
- JSON encoding and decoding are left out. `json.loads` is a parameter of the table builder; a line it cannot decode is `Malformed`. A JSON value of another type under `rewriter`, `benchmark_name` or `timings` is not represented. A line that decodes to something other than an object is not represented either; the source would raise a `TypeError` there.
- `splitlines()` is not modelled; the outcomes carry their lines already split.
- Paths are built as `<dir>/<name>`, without pathlib's normalisation. Directory listings are given in listing order. `glob` is a suffix test on the listed names; whether an entry is a file or a directory is not modelled.
- Exceptions other than `TimeoutExpired` in run.py (for example an `OSError` from `subprocess.run`) are not modelled; the source lets them propagate.
- argparse and the `__main__` blocks are not modelled.
- Float arithmetic is not modelled. This covers `ms / 1000.0`, `statistics.mean` and `{:.1f}`: timings are exact reals. A double's rounding error, and `-0.0`, are therefore not represented.
- `CreateTable.FormatOneDecimal`: rounds the exact real value half to even. Python rounds the nearest double, so a value that is not exact in binary can round the other way: the model prints 0.15 as `0.2` (a tie, rounded to even), while Python prints `0.1`, because the double nearest 0.15 lies just below it.
- Only the plain-text table that create_table.py prints is modelled; the scripts have no other rendering.
- `Ordering.SortStrings` orders entry names by code point, as `sorted` orders `PosixPath` objects. On Windows, `WindowsPath` objects compare without regard to case, and run.py:26 does handle `os.name == "nt"`. That order is not modelled.

## Findings

None claimed. Two behaviours of the code are modelled as written, without a claim that they are or are not intended:

- run_mcrl2.py validates the rewriter name (scripts/run_mcrl2.py:30-31) and records it (line 48), but the argument vector at line 55 does not contain it. `RunMcrl2.RewriterOnlyLabels` states the consequence.
- run_merc.py (line 63) and run_mcrl2.py (line 47) store the file name under `experiment`, while create_table.py (line 22) reads `benchmark_name`. `CreateTable.ExperimentRecordRejected` states the consequence.
