/**
 * The regular expressions the benchmark scripts compile all have one shape:
 * a literal prefix, one capture group `([0-9]+)`, then a fixed-width tail
 * of literal characters and `.` (any character but a newline). This module
 * gives `re.search` on such a pattern a declarative meaning (`MatchAt`) and
 * a scanning implementation (`Search`) proved to agree with it: the match
 * starts at the leftmost position where the pattern can match, and the
 * greedy group takes the longest digit run that lets the tail match.
 */
module Regex {
  import opened Common
  import opened Text

  /** One position of the tail: a literal character or `.`. */
  datatype Atom = Lit(c: char) | AnyChar

  /** `prefix([0-9]+)tail` */
  datatype Pattern = Pattern(prefix: string, tail: seq<Atom>)

  /** Where the pattern matched: its start index and the length of the captured digits. */
  datatype Match = Match(start: nat, digits: nat)

  predicate AtomMatches(a: Atom, c: char) {
    match a
    case Lit(d) => c == d
    case AnyChar => c != '\n'
  }

  /** The tail matches `line` from index `k` on. */
  predicate TailAt(tail: seq<Atom>, line: string, k: nat) {
    k + |tail| <= |line| && forall t :: 0 <= t < |tail| ==> AtomMatches(tail[t], line[k + t])
  }

  /** The pattern matches `line` at `i` with a group of `n` digits. */
  predicate MatchAt(p: Pattern, line: string, i: nat, n: nat) {
    var d := i + |p.prefix|;
    && 1 <= n
    && d + n <= |line|
    && line[i..d] == p.prefix
    && AllDigits(line[d..d + n])
    && TailAt(p.tail, line, d + n)
  }

  /** The length of the run of digits in `line` that starts at `k`. */
  function DigitRun(line: string, k: nat): (n: nat)
    requires k <= |line|
    ensures k + n <= |line| && AllDigits(line[k..k + n])
    ensures k + n == |line| || !IsDigit(line[k + n])
    decreases |line| - k
  {
    if k < |line| && IsDigit(line[k]) then
      var n := DigitRun(line, k + 1);
      assert line[k..k + 1 + n] == [line[k]] + line[k + 1..k + 1 + n];
      1 + n
    else 0
  }

  lemma DigitRunBound(p: Pattern, line: string, i: nat, n: nat)
    requires MatchAt(p, line, i, n)
    ensures n <= DigitRun(line, i + |p.prefix|)
  {
    var d := i + |p.prefix|;
    forall k | d <= k < d + n ensures IsDigit(line[k]) {
      assert line[k] == line[d..d + n][k - d];
    }
  }

  /** Backtracking of the greedy group: tries group lengths `n`, `n - 1`, ..., `1`. */
  function Backtrack(p: Pattern, line: string, i: nat, n: nat): (r: Option<nat>)
    requires i + |p.prefix| + n <= |line|
    requires line[i..i + |p.prefix|] == p.prefix
    requires AllDigits(line[i + |p.prefix|..i + |p.prefix| + n])
    ensures r.Some? ==> r.value <= n && MatchAt(p, line, i, r.value)
    ensures r.Some? ==> forall m: nat :: r.value < m <= n ==> !MatchAt(p, line, i, m)
    ensures r.None? ==> forall m: nat :: m <= n ==> !MatchAt(p, line, i, m)
    decreases n
  {
    var d := i + |p.prefix|;
    if n == 0 then None
    else if TailAt(p.tail, line, d + n) then Some(n)
    else
      assert !MatchAt(p, line, i, n);
      assert AllDigits(line[d..d + n - 1]) by {
        assert line[d..d + n - 1] == line[d..d + n][..n - 1];
      }
      Backtrack(p, line, i, n - 1)
  }

  /** `re.search` from index `i` on: the first start position where the pattern matches. */
  function SearchFrom(p: Pattern, line: string, i: nat): (r: Option<Match>)
    requires i <= |line| + 1
    ensures r.Some? ==> i <= r.value.start && MatchAt(p, line, r.value.start, r.value.digits)
    ensures r.Some? ==> forall m :: m > r.value.digits ==> !MatchAt(p, line, r.value.start, m)
    ensures forall j, m :: i <= j && MatchAt(p, line, j, m) ==> r.Some? && r.value.start <= j
    decreases |line| + 1 - i
  {
    if i > |line| then None
    else if i + |p.prefix| <= |line| && line[i..i + |p.prefix|] == p.prefix then
      var run := DigitRun(line, i + |p.prefix|);
      match Backtrack(p, line, i, run)
      case Some(n) =>
        assert forall m: nat :: MatchAt(p, line, i, m) ==> m <= run by {
          forall m: nat | MatchAt(p, line, i, m) ensures m <= run {
            DigitRunBound(p, line, i, m);
          }
        }
        Some(Match(i, n))
      case None =>
        assert forall m: nat :: !MatchAt(p, line, i, m) by {
          forall m: nat | MatchAt(p, line, i, m) ensures false {
            DigitRunBound(p, line, i, m);
          }
        }
        SearchFrom(p, line, i + 1)
    else
      assert forall m: nat :: !MatchAt(p, line, i, m);
      SearchFrom(p, line, i + 1)
  }

  /**
   * `pattern.search(line)`: `None` when the pattern matches nowhere in the
   * line; otherwise the leftmost match, whose group is as long as any group
   * that lets the pattern match there.
   */
  function Search(p: Pattern, line: string): (r: Option<Match>)
    ensures r.Some? ==> MatchAt(p, line, r.value.start, r.value.digits)
    ensures r.Some? ==> forall m :: m > r.value.digits ==> !MatchAt(p, line, r.value.start, m)
    ensures forall j, m :: MatchAt(p, line, j, m) ==> r.Some? && r.value.start <= j
  {
    SearchFrom(p, line, 0)
  }

  /** The captured digits of a match. */
  function Group(p: Pattern, line: string, m: Match): (g: string)
    requires MatchAt(p, line, m.start, m.digits)
    ensures |g| == m.digits && AllDigits(g)
  {
    line[m.start + |p.prefix|..m.start + |p.prefix| + m.digits]
  }

  /** `float(m.group(1))` when `pattern.search(line)` succeeds. */
  function Find(p: Pattern, line: string): Option<nat> {
    match Search(p, line)
    case None => None
    case Some(m) => Some(DigitsValue(Group(p, line, m)))
  }

  /** A value is found exactly when the pattern matches somewhere in the line. */
  lemma FindSomeIff(p: Pattern, line: string)
    ensures Find(p, line).Some? <==> exists j, m :: MatchAt(p, line, j, m)
  {
  }

  /** A tail that begins with a literal non-digit. */
  predicate DigitFreeStart(p: Pattern) {
    |p.tail| > 0 && p.tail[0].Lit? && !IsDigit(p.tail[0].c)
  }

  /**
   * When the tail begins with a literal non-digit, backtracking never
   * happens: a match at `i` captures the whole digit run after the prefix.
   */
  lemma CaptureIsWholeRun(p: Pattern, line: string, i: nat, n: nat)
    requires DigitFreeStart(p) && MatchAt(p, line, i, n)
    ensures n == DigitRun(line, i + |p.prefix|)
  {
    var d := i + |p.prefix|;
    DigitRunBound(p, line, i, n);
    var r := DigitRun(line, d);
    assert AtomMatches(p.tail[0], line[d + n + 0]);
    forall k | d <= k < d + r ensures IsDigit(line[k]) {
      assert line[k] == line[d..d + r][k - d];
    }
  }

  /** A line that matches at its very beginning yields the whole digit run after the prefix. */
  lemma FindAtStart(p: Pattern, line: string, n: nat)
    requires DigitFreeStart(p) && MatchAt(p, line, 0, n)
    ensures Find(p, line) == Some(DigitsValue(line[|p.prefix|..|p.prefix| + n]))
  {
    var r := Search(p, line);
    assert r.Some? && r.value.start == 0;
    var m := r.value;
    CaptureIsWholeRun(p, line, 0, n);
    CaptureIsWholeRun(p, line, 0, m.digits);
    assert Group(p, line, m) == line[|p.prefix|..|p.prefix| + n];
  }

  /**
   * A line made of the prefix, a numeral and text the tail accepts yields
   * the value of the numeral.
   */
  lemma FindPrinted(p: Pattern, n: nat, rest: string)
    requires DigitFreeStart(p) && TailAt(p.tail, rest, 0)
    ensures Find(p, p.prefix + NatToString(n) + rest) == Some(n)
  {
    var digits := NatToString(n);
    var line := p.prefix + digits + rest;
    var d := |p.prefix|;
    assert line[0..d] == p.prefix;
    assert line[d..d + |digits|] == digits;
    forall t | 0 <= t < |p.tail| ensures AtomMatches(p.tail[t], line[d + |digits| + t]) {
      assert line[d + |digits| + t] == rest[t];
    }
    assert MatchAt(p, line, 0, |digits|);
    FindAtStart(p, line, |digits|);
    NatToStringRoundTrip(n);
  }
}
