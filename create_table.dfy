/**
 * scripts/create_table.py (and its copy at scripts/run.py:81-122): reads a
 * results file of one JSON object per line, keeps for every benchmark and
 * rewriter the mean of the last record's timings, and renders a table with
 * one column per rewriter and one row per benchmark, both in sorted order.
 */
module CreateTable {
  import opened Common
  import opened Text
  import opened Ordering

  // ---------------------------------------------------------------- average

  function Sum(xs: seq<real>): real
    decreases |xs|
  {
    if xs == [] then 0.0 else Sum(xs[..|xs| - 1]) + xs[|xs| - 1]
  }

  /** `average(values)`: `mean(values) if values else 0.0`. */
  function Average(xs: seq<real>): (r: real)
    ensures xs == [] ==> r == 0.0
    ensures xs != [] ==> r * (|xs| as real) == Sum(xs)
  {
    if xs == [] then 0.0 else Sum(xs) / (|xs| as real)
  }

  lemma {:induction false} SumBounds(xs: seq<real>, lo: real, hi: real)
    requires forall i :: 0 <= i < |xs| ==> lo <= xs[i] <= hi
    ensures lo * (|xs| as real) <= Sum(xs) <= hi * (|xs| as real)
    decreases |xs|
  {
    if xs != [] {
      var n := |xs| - 1;
      SumBounds(xs[..n], lo, hi);
      assert lo * (n as real) + lo == lo * (|xs| as real);
      assert hi * (n as real) + hi == hi * (|xs| as real);
    }
  }

  /** The mean lies between the smallest and the largest timing. */
  lemma AverageBetween(xs: seq<real>, lo: real, hi: real)
    requires xs != []
    requires forall i :: 0 <= i < |xs| ==> lo <= xs[i] <= hi
    ensures lo <= Average(xs) <= hi
  {
    SumBounds(xs, lo, hi);
  }

  // ------------------------------------------------------------ print_float

  /** The integer nearest to `t`; of two equally near, the even one. */
  function RoundHalfEven(t: real): (q: int)
    ensures -0.5 <= q as real - t <= 0.5
    ensures (q as real - t == 0.5 || t - q as real == 0.5) ==> q % 2 == 0
  {
    var n := t.Floor;
    var frac := t - n as real;
    if frac < 0.5 then n
    else if frac > 0.5 then n + 1
    else if n % 2 == 0 then n
    else n + 1
  }

  /** A numeral with one decimal: digits, a point, one digit. */
  predicate OneDecimal(s: string) {
    |s| >= 3 && AllDigits(s[..|s| - 2]) && s[|s| - 2] == '.' && IsDigit(s[|s| - 1])
  }

  /** The value a one-decimal numeral denotes. */
  function Denoted(s: string): real
    requires OneDecimal(s)
  {
    DigitsValue(s[..|s| - 2]) as real + DigitValue(s[|s| - 1]) as real / 10.0
  }

  /**
   * `print_float(value)`: `f"{value:.1f}"`, the value rounded to one
   * decimal, a negative value written as `-` and its magnitude.
   */
  function FormatOneDecimal(x: real): (s: string)
    ensures |s| >= 3
    ensures x >= 0.0 ==> OneDecimal(s)
    ensures x < 0.0 ==> s[0] == '-' && OneDecimal(s[1..])
    decreases if x < 0.0 then 1 else 0
  {
    if x < 0.0 then "-" + FormatOneDecimal(-x)
    else
      var q: nat := RoundHalfEven(x * 10.0);
      var s := NatToString(q / 10) + "." + [DigitChar(q % 10)];
      assert s[..|s| - 2] == NatToString(q / 10);
      s
  }

  /**
   * The printed value is the nearest one-decimal number: it is off by at
   * most 0.05, for a negative value too (read as `-` and its magnitude).
   */
  lemma FormatNearest(x: real)
    ensures x >= 0.0 ==> -0.05 <= Denoted(FormatOneDecimal(x)) - x <= 0.05
    ensures x < 0.0 ==> -0.05 <= -Denoted(FormatOneDecimal(x)[1..]) - x <= 0.05
    decreases if x < 0.0 then 1 else 0
  {
    if x < 0.0 {
      FormatNearest(-x);
      assert FormatOneDecimal(x)[1..] == FormatOneDecimal(-x);
      return;
    }
    var q: nat := RoundHalfEven(x * 10.0);
    var s := FormatOneDecimal(x);
    assert s[..|s| - 2] == NatToString(q / 10);
    NatToStringRoundTrip(q / 10);
    assert DigitValue(s[|s| - 1]) == q % 10;
    assert Denoted(s) == q as real / 10.0;
  }

  /** The printed text holds only digits, the point and the minus sign. */
  lemma FormatCharacters(x: real)
    ensures forall i :: 0 <= i < |FormatOneDecimal(x)| ==>
              FormatOneDecimal(x)[i] in "-." || IsDigit(FormatOneDecimal(x)[i])
  {
    var s := FormatOneDecimal(x);
    var t := if x < 0.0 then s[1..] else s;
    assert AllDigits(t[..|t| - 2]);
    forall i | 0 <= i < |t| ensures t[i] in "-." || IsDigit(t[i]) {
      if i < |t| - 2 {
        assert t[i] == t[..|t| - 2][i];
      }
    }
    if x < 0.0 {
      forall i | 0 <= i < |s| ensures s[i] in "-." || IsDigit(s[i]) {
        if i > 0 {
          assert s[i] == t[i - 1];
        }
      }
    }
  }

  /** An empty mean prints as `0.0`. */
  lemma ZeroPrintsAsZero()
    ensures FormatOneDecimal(0.0) == "0.0"
  {
    assert (0.0).Floor == 0;
    assert RoundHalfEven(0.0 * 10.0) == 0;
    assert NatToString(0) == "0";
  }

  // ------------------------------------------------------------ the records

  /** One usable line of the results file. */
  datatype Entry = Entry(rewriter: string, bench: string, timings: seq<real>)

  /** Why `create_table` raises while reading. */
  datatype LoadError =
    | Malformed(line: string)   // json.loads raises JSONDecodeError
    | MissingKey(key: string)   // obj["rewriter"] or obj["benchmark_name"] raises KeyError

  /** Lines 20-23 for one line, given what `json.loads` made of it (`None` when it raises). */
  function Decode(obj: Option<JsonObject>, line: string): (r: Result<Entry, LoadError>)
    ensures r.Success? <==> obj.Some? && obj.value.rewriter.Some? && obj.value.benchmarkName.Some?
    ensures r.Success? ==> r.value.rewriter == obj.value.rewriter.value && r.value.bench == obj.value.benchmarkName.value
    ensures r.Success? ==> r.value.timings == if obj.value.timings.Some? then obj.value.timings.value else []
    ensures obj.None? ==> r == Failure(Malformed(line))
    ensures obj.Some? && obj.value.rewriter.None? ==> r == Failure(MissingKey("rewriter"))
    ensures obj.Some? && obj.value.rewriter.Some? && obj.value.benchmarkName.None? ==>
              r == Failure(MissingKey("benchmark_name"))
  {
    match obj
    case None => Failure(Malformed(line))
    case Some(o) =>
      if o.rewriter.None? then Failure(MissingKey("rewriter"))
      else if o.benchmarkName.None? then Failure(MissingKey("benchmark_name"))
      else Success(Entry(o.rewriter.value, o.benchmarkName.value, if o.timings.Some? then o.timings.value else []))
  }

  /** What one line of the file contributes to `lines`: its stripped text, unless that is empty. */
  function KeptLine(line: string): (r: seq<string>)
    ensures |r| <= 1 && (forall i :: 0 <= i < |r| ==> r[i] != [])
  {
    var s := Strip(line);
    if s == [] then [] else [s]
  }

  /** A line is dropped exactly when it is whitespace only; otherwise it is kept as its `strip()`. */
  lemma KeptLineStrips(line: string)
    ensures KeptLine(line) == [] <==> AllSpace(line)
    ensures KeptLine(line) != [] ==> KeptLine(line) == [Strip(line)]
  {
    StripEmptyIff(line);
  }

  /** `[line.strip() for line in f if line.strip()]` */
  function Kept(lines: seq<string>): (r: seq<string>)
    ensures |r| <= |lines|
    ensures forall i :: 0 <= i < |r| ==> r[i] != []
    decreases |lines|
  {
    if lines == [] then [] else Kept(lines[..|lines| - 1]) + KeptLine(lines[|lines| - 1])
  }

  lemma {:induction false} KeptAppend(a: seq<string>, b: seq<string>)
    ensures Kept(a + b) == Kept(a) + Kept(b)
    decreases |b|
  {
    if b == [] {
      assert a + b == a;
    } else {
      var n := |b| - 1;
      assert (a + b)[..|a + b| - 1] == a + b[..n];
      assert (a + b)[|a + b| - 1] == b[n];
      KeptAppend(a, b[..n]);
    }
  }

  /** A blank or whitespace-only line, wherever it stands, changes nothing. */
  lemma BlankLineIgnored(a: seq<string>, blank: string, b: seq<string>)
    requires AllSpace(blank)
    ensures Kept(a + [blank] + b) == Kept(a + b)
  {
    StripEmptyIff(blank);
    assert Kept([blank]) == [] by {
      assert [blank][..0] == [];
    }
    KeptAppend(a + [blank], b);
    KeptAppend(a, [blank]);
    KeptAppend(a, b);
    assert Kept(a + [blank]) == Kept(a);
  }

  /** A line with a non-space character, wherever it stands, is kept as its stripped text. */
  lemma NonBlankLineKept(a: seq<string>, line: string, b: seq<string>)
    requires !AllSpace(line)
    ensures Kept(a + [line] + b) == Kept(a) + [Strip(line)] + Kept(b)
  {
    KeptLineStrips(line);
    assert Kept([line]) == [Strip(line)] by {
      assert [line][..0] == [];
    }
    KeptAppend(a + [line], b);
    KeptAppend(a, [line]);
  }

  /** The kept lines decoded in order; the first line that fails decides the error. */
  function Parse(kept: seq<string>, decode: string -> Option<JsonObject>): Result<seq<Entry>, LoadError>
    decreases |kept|
  {
    if kept == [] then Success([])
    else
      var last := kept[|kept| - 1];
      match Parse(kept[..|kept| - 1], decode)
      case Failure(e) => Failure(e)
      case Success(es) =>
        match Decode(decode(last), last)
        case Failure(e) => Failure(e)
        case Success(entry) => Success(es + [entry])
  }

  /** What lines 13-23 make of the file's lines. */
  function Load(lines: seq<string>, decode: string -> Option<JsonObject>): Result<seq<Entry>, LoadError> {
    Parse(Kept(lines), decode)
  }

  /** Reading succeeds exactly when every kept line decodes, and then yields one entry per line, in order. */
  lemma {:induction false} ParseSucceeds(kept: seq<string>, decode: string -> Option<JsonObject>)
    ensures Parse(kept, decode).Success? <==>
              forall i :: 0 <= i < |kept| ==> Decode(decode(kept[i]), kept[i]).Success?
    ensures Parse(kept, decode).Success? ==>
              |Parse(kept, decode).value| == |kept| &&
              forall i :: 0 <= i < |kept| ==> Parse(kept, decode).value[i] == Decode(decode(kept[i]), kept[i]).value
    decreases |kept|
  {
    if kept != [] {
      var init := kept[..|kept| - 1];
      ParseSucceeds(init, decode);
      assert forall i :: 0 <= i < |init| ==> init[i] == kept[i];
    }
  }

  /** Once a prefix fails, the whole file fails with the same error. */
  lemma {:induction false} ParseFailureStays(kept: seq<string>, decode: string -> Option<JsonObject>, n: nat)
    requires n <= |kept| && Parse(kept[..n], decode).Failure?
    ensures Parse(kept, decode) == Parse(kept[..n], decode)
    decreases |kept| - n
  {
    if n < |kept| {
      var init := kept[..|kept| - 1];
      assert init[..n] == kept[..n];
      ParseFailureStays(init, decode, n);
    } else {
      assert kept[..n] == kept;
    }
  }

  /**
   * A line as run_merc.py and run_mcrl2.py write it (a rewriter, an
   * `experiment`, no `benchmark_name`) makes reading fail with a KeyError
   * for `benchmark_name`, unless an earlier line has failed already.
   */
  lemma ExperimentRecordRejected(kept: seq<string>, decode: string -> Option<JsonObject>, j: nat)
    requires j < |kept|
    requires decode(kept[j]).Some? && decode(kept[j]).value.rewriter.Some? && decode(kept[j]).value.benchmarkName.None?
    requires Parse(kept[..j], decode).Success?
    ensures Parse(kept, decode) == Failure(MissingKey("benchmark_name"))
  {
    assert kept[..j + 1][..j] == kept[..j];
    ParseFailureStays(kept, decode, j + 1);
  }

  // ------------------------------------------------------------- the merge

  /** `results`: benchmark name to rewriter to mean time. */
  type Results = map<string, map<string, real>>

  /** `results.setdefault(bn, {})[rw] = average(timings)` */
  function Put(results: Results, e: Entry): Results {
    var row := if e.bench in results then results[e.bench] else map[];
    results[e.bench := row[e.rewriter := Average(e.timings)]]
  }

  /** The results after the entries `es`, in order. */
  function Merge(es: seq<Entry>): Results
    decreases |es|
  {
    if es == [] then map[] else Put(Merge(es[..|es| - 1]), es[|es| - 1])
  }

  /** `rewriters.add(rw)` for every entry. */
  function Rewriters(es: seq<Entry>): set<string>
    decreases |es|
  {
    if es == [] then {} else Rewriters(es[..|es| - 1]) + {es[|es| - 1].rewriter}
  }

  /** The rows are the benchmark names seen, and a row has a cell for a rewriter exactly when some entry pairs them. */
  lemma {:induction false} MergeKeys(es: seq<Entry>)
    ensures forall b :: b in Merge(es) <==> exists i :: 0 <= i < |es| && es[i].bench == b
    ensures forall b, w :: b in Merge(es) ==>
              (w in Merge(es)[b] <==> exists i :: 0 <= i < |es| && es[i].bench == b && es[i].rewriter == w)
    decreases |es|
  {
    if es != [] {
      var init := es[..|es| - 1];
      MergeKeys(init);
      assert forall i :: 0 <= i < |init| ==> init[i] == es[i];
    }
  }

  /** The columns are the rewriters seen, each once. */
  lemma {:induction false} RewritersSeen(es: seq<Entry>)
    ensures forall w :: w in Rewriters(es) <==> exists i :: 0 <= i < |es| && es[i].rewriter == w
    decreases |es|
  {
    if es != [] {
      var init := es[..|es| - 1];
      RewritersSeen(init);
      assert forall i :: 0 <= i < |init| ==> init[i] == es[i];
    }
  }

  /** For a repeated benchmark and rewriter, the last entry decides the cell. */
  lemma {:induction false} LastWins(es: seq<Entry>, j: nat)
    requires j < |es|
    requires forall i :: j < i < |es| ==> es[i].bench != es[j].bench || es[i].rewriter != es[j].rewriter
    ensures es[j].bench in Merge(es) && es[j].rewriter in Merge(es)[es[j].bench]
    ensures Merge(es)[es[j].bench][es[j].rewriter] == Average(es[j].timings)
    decreases |es|
  {
    if j < |es| - 1 {
      var init := es[..|es| - 1];
      assert init[j] == es[j];
      LastWins(init, j);
    }
  }

  // ------------------------------------------------------------ the table

  /** The header line (lines 29-37): the first rewriter right-aligned to 30, each later one to 10 and ` |`. */
  function Header(columns: seq<string>): string
    decreases |columns|
  {
    if |columns| == 0 then ""
    else if |columns| == 1 then RightAlign(columns[0], 30)
    else Header(columns[..|columns| - 1]) + RightAlign(columns[|columns| - 1], 10) + " |"
  }

  /** The text of a cell: the mean with one decimal, or `-` when the benchmark has no value for the rewriter. */
  function CellText(row: map<string, real>, rewriter: string): (s: string)
    ensures rewriter !in row ==> s == "-"
    ensures rewriter in row ==> s == FormatOneDecimal(row[rewriter])
  {
    if rewriter in row then FormatOneDecimal(row[rewriter]) else "-"
  }

  /** No cell text contains the separator `|`. */
  lemma CellTextHasNoBar(row: map<string, real>, rewriter: string)
    ensures forall i :: 0 <= i < |CellText(row, rewriter)| ==> CellText(row, rewriter)[i] != '|'
  {
    if rewriter in row {
      FormatCharacters(row[rewriter]);
    }
  }

  /** One cell as printed: `| ` and the text right-aligned to width 10. */
  function Cell(row: map<string, real>, rewriter: string): string {
    "| " + RightAlign(CellText(row, rewriter), 10)
  }

  /** The cells of a row, one per column. */
  function Cells(row: map<string, real>, columns: seq<string>): string
    decreases |columns|
  {
    if columns == [] then ""
    else Cells(row, columns[..|columns| - 1]) + Cell(row, columns[|columns| - 1])
  }

  /** One row (lines 40-47): the benchmark name right-aligned to 30, then its cells. */
  function RowLine(bench: string, row: map<string, real>, columns: seq<string>): string {
    RightAlign(bench, 30) + Cells(row, columns)
  }

  /** The number of `|` characters in a string. */
  function Bars(s: string): nat
    decreases |s|
  {
    if s == [] then 0 else Bars(s[..|s| - 1]) + (if s[|s| - 1] == '|' then 1 else 0)
  }

  lemma {:induction false} BarsAppend(a: string, b: string)
    ensures Bars(a + b) == Bars(a) + Bars(b)
    decreases |b|
  {
    if b == [] {
      assert a + b == a;
    } else {
      var n := |b| - 1;
      assert (a + b)[..|a + b| - 1] == a + b[..n];
      BarsAppend(a, b[..n]);
    }
  }

  lemma {:induction false} NoBars(s: string)
    requires forall i :: 0 <= i < |s| ==> s[i] != '|'
    ensures Bars(s) == 0
    decreases |s|
  {
    if s != [] {
      NoBars(s[..|s| - 1]);
    }
  }

  /** A cell holds exactly one separator: the one in front of it. */
  lemma CellHasOneBar(row: map<string, real>, rewriter: string)
    ensures Bars(Cell(row, rewriter)) == 1
  {
    var text := CellText(row, rewriter);
    var padded := RightAlign(text, 10);
    CellTextHasNoBar(row, rewriter);
    forall i | 0 <= i < |padded| ensures padded[i] != '|' {
      if i >= |padded| - |text| {
        assert padded[i] == padded[|padded| - |text|..][i - (|padded| - |text|)];
      }
    }
    NoBars(padded);
    assert Bars("| ") == 1 by {
      assert "| "[..1] == "|";
      assert "|"[..0] == "";
    }
    BarsAppend("| ", padded);
  }

  /** Every row has exactly one cell per column: its cells hold one separator per rewriter. */
  lemma {:induction false} OneCellPerColumn(row: map<string, real>, columns: seq<string>)
    ensures Bars(Cells(row, columns)) == |columns|
    decreases |columns|
  {
    if columns != [] {
      var n := |columns| - 1;
      OneCellPerColumn(row, columns[..n]);
      CellHasOneBar(row, columns[n]);
      BarsAppend(Cells(row, columns[..n]), Cell(row, columns[n]));
    }
  }

  /** A missing cell is a dash after nine spaces. */
  lemma DashCell(row: map<string, real>, rewriter: string)
    requires rewriter !in row
    ensures RightAlign(CellText(row, rewriter), 10) == "         -"
  {
  }

  /**
   * A benchmark whose last record for a rewriter has no timings shows
   * `0.0` in that column, not a dash.
   */
  lemma EmptyTimingsShowZero(es: seq<Entry>, j: nat)
    requires j < |es| && es[j].timings == []
    requires forall i :: j < i < |es| ==> es[i].bench != es[j].bench || es[i].rewriter != es[j].rewriter
    ensures es[j].bench in Merge(es)
    ensures CellText(Merge(es)[es[j].bench], es[j].rewriter) == "0.0"
  {
    LastWins(es, j);
    ZeroPrintsAsZero();
  }

  /** Line 14: the stripped, non-blank lines. */
  method KeepLines(lines: seq<string>) returns (kept: seq<string>)
    ensures kept == Kept(lines)
  {
    kept := [];
    for i := 0 to |lines|
      invariant kept == Kept(lines[..i])
    {
      assert lines[..i + 1][..i] == lines[..i];
      var s := Strip(lines[i]);
      if s != [] {
        kept := kept + [s];
      }
    }
    assert lines[..|lines|] == lines;
  }

  /** Lines 16-25: `results` and `rewriters` filled line by line, or the error of the first bad line. */
  method Collect(kept: seq<string>, decode: string -> Option<JsonObject>)
    returns (r: Result<Results, LoadError>, rewriters: set<string>)
    ensures r.Failure? <==> Parse(kept, decode).Failure?
    ensures r.Failure? ==> r.error == Parse(kept, decode).error
    ensures r.Success? ==> r.value == Merge(Parse(kept, decode).value) && rewriters == Rewriters(Parse(kept, decode).value)
  {
    var results: Results := map[];
    rewriters := {};
    ghost var es: seq<Entry> := [];
    for i := 0 to |kept|
      invariant Parse(kept[..i], decode) == Success(es)
      invariant results == Merge(es) && rewriters == Rewriters(es)
    {
      var line := kept[i];
      assert kept[..i + 1][..i] == kept[..i];
      assert Parse(kept[..i + 1], decode) == match Decode(decode(line), line)
        case Failure(e) => Failure(e)
        case Success(entry) => Success(es + [entry]);
      var parsed := decode(line);
      if parsed.None? {
        ParseFailureStays(kept, decode, i + 1);
        return Failure(Malformed(line)), rewriters;
      }
      var obj := parsed.value;
      if obj.rewriter.None? {
        ParseFailureStays(kept, decode, i + 1);
        return Failure(MissingKey("rewriter")), rewriters;
      }
      var rw := obj.rewriter.value;
      if obj.benchmarkName.None? {
        ParseFailureStays(kept, decode, i + 1);
        return Failure(MissingKey("benchmark_name")), rewriters;
      }
      var bn := obj.benchmarkName.value;
      var timings := if obj.timings.Some? then obj.timings.value else [];
      ghost var entry := Entry(rw, bn, timings);
      assert (es + [entry])[..|es|] == es;
      rewriters := rewriters + {rw};
      var row := if bn in results then results[bn] else map[];
      results := results[bn := row[rw := Average(timings)]];
      es := es + [entry];
    }
    assert kept[..|kept|] == kept;
    r := Success(results);
  }

  /** Lines 30-37: the header, built column by column with the `first` flag. */
  method RenderHeader(columns: seq<string>) returns (header: string)
    ensures header == Header(columns)
  {
    header := "";
    var first := true;
    for i := 0 to |columns|
      invariant header == Header(columns[..i])
      invariant first <==> i == 0
    {
      assert columns[..i + 1][..i] == columns[..i];
      if first {
        header := header + RightAlign(columns[i], 30);
        first := false;
      } else {
        header := header + RightAlign(columns[i], 10) + " |";
      }
    }
    assert columns[..|columns|] == columns;
  }

  /** Lines 42-46: one cell, from `results[bench].get(rw)`. */
  method RenderCell(row: map<string, real>, rewriter: string) returns (cell: string)
    ensures cell == Cell(row, rewriter)
  {
    var val := if rewriter in row then Some(row[rewriter]) else None;
    if val.Some? {
      cell := "| " + RightAlign(FormatOneDecimal(val.value), 10);
    } else {
      cell := "| " + RightAlign("-", 10);
    }
  }

  /** Lines 40-47: one row, the name and then the cells column by column. */
  method RenderRow(bench: string, row: map<string, real>, columns: seq<string>) returns (line: string)
    ensures line == RowLine(bench, row, columns)
  {
    var cells := "";
    for c := 0 to |columns|
      invariant cells == Cells(row, columns[..c])
    {
      assert columns[..c + 1][..c] == columns[..c];
      var cell := RenderCell(row, columns[c]);
      cells := cells + cell;
    }
    assert columns[..|columns|] == columns;
    line := RightAlign(bench, 30) + cells;
  }

  /** Lines 39-47: one line per benchmark, in the order given. */
  method RenderRows(rows: seq<string>, results: Results, columns: seq<string>) returns (out: seq<string>)
    requires forall i :: 0 <= i < |rows| ==> rows[i] in results
    ensures |out| == |rows|
    ensures forall i :: 0 <= i < |rows| ==> out[i] == RowLine(rows[i], results[rows[i]], columns)
  {
    out := [];
    for i := 0 to |rows|
      invariant |out| == i
      invariant forall j :: 0 <= j < i ==> out[j] == RowLine(rows[j], results[rows[j]], columns)
    {
      var line := RenderRow(rows[i], results[rows[i]], columns);
      out := out + [line];
    }
  }

  /**
   * `create_table(json_path)` on the file's lines: the lines it prints,
   * or the error it raises while reading. `columns` and `rows` are the
   * rewriters and benchmark names in the order they are printed.
   */
  method CreateTable(lines: seq<string>, decode: string -> Option<JsonObject>)
    returns (r: Result<seq<string>, LoadError>, columns: seq<string>, rows: seq<string>)
    ensures r.Failure? <==> Load(lines, decode).Failure?
    ensures r.Failure? ==> r.error == Load(lines, decode).error && columns == [] && rows == []
    ensures r.Success? ==>
              var results := Merge(Load(lines, decode).value);
              IsSortedView(columns, Rewriters(Load(lines, decode).value)) &&
              IsSortedView(rows, results.Keys) &&
              |r.value| == |rows| + 1 && r.value[0] == Header(columns) &&
              forall i :: 0 <= i < |rows| ==>
                rows[i] in results && r.value[i + 1] == RowLine(rows[i], results[rows[i]], columns)
  {
    columns, rows := [], [];
    var kept := KeepLines(lines);
    var collected, rewriters := Collect(kept, decode);
    if collected.Failure? {
      return Failure(collected.error), columns, rows;
    }
    var results := collected.value;
    columns := SortStrings(rewriters);
    var header := RenderHeader(columns);
    rows := SortStrings(results.Keys);
    assert forall i :: 0 <= i < |rows| ==> rows[i] in results by {
      forall i | 0 <= i < |rows| ensures rows[i] in results {
        assert rows[i] in rows;
      }
    }
    var body := RenderRows(rows, results, columns);
    r := Success([header] + body);
  }
}
