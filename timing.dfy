/**
 * Timing extraction: the patterns the scripts search each output line for,
 * and the sequence of values found in a sequence of lines.
 */
module Timing {
  import opened Common
  import opened Text
  import opened Regex

  /** `Innermost rewrite took ([0-9]+) ms` */
  const InnermostPattern := Pattern("Innermost rewrite took ", [Lit(' '), Lit('m'), Lit('s')])

  /** `Sabre rewrite took ([0-9]+) ms` */
  const SabrePattern := Pattern("Sabre rewrite took ", [Lit(' '), Lit('m'), Lit('s')])

  /** `rewriting: ([0-9]+) milliseconds.`, whose final `.` is any character */
  const Mcrl2Pattern := Pattern("rewriting: ",
    [Lit(' '), Lit('m'), Lit('i'), Lit('l'), Lit('l'), Lit('i'), Lit('s'), Lit('e'), Lit('c'), Lit('o'), Lit('n'), Lit('d'), Lit('s'), AnyChar])

  /** The rewriter names run.py and run_merc.py accept (their `Rewriter` class). */
  predicate MercRewriter(rewriter: string) {
    rewriter == "innermost" || rewriter == "sabre"
  }

  /** The pattern run.py and run_merc.py choose for a rewriter name. */
  function PatternFor(rewriter: string): (p: Pattern)
    ensures p == InnermostPattern <==> rewriter == "innermost"
    ensures p == SabrePattern <==> rewriter != "innermost"
  {
    assert InnermostPattern.prefix[0] != SabrePattern.prefix[0];
    if rewriter == "innermost" then InnermostPattern else SabrePattern
  }

  /** The value each line contributes: none or one. */
  function FoundIn(p: Pattern, line: string): (r: seq<nat>)
    ensures |r| <= 1
    ensures r == [] ==> forall j, m :: !MatchAt(p, line, j, m)
  {
    match Find(p, line)
    case None => []
    case Some(v) => [v]
  }

  /** The values found in `lines`, in line order. */
  function Extract(p: Pattern, lines: seq<string>): (ns: seq<nat>)
    ensures |ns| <= |lines|
    decreases |lines|
  {
    if lines == [] then []
    else Extract(p, lines[..|lines| - 1]) + FoundIn(p, lines[|lines| - 1])
  }

  /** Lines are scanned independently: the values of `a + b` are those of `a`, then those of `b`. */
  lemma {:induction false} ExtractAppend(p: Pattern, a: seq<string>, b: seq<string>)
    ensures Extract(p, a + b) == Extract(p, a) + Extract(p, b)
    decreases |b|
  {
    if b != [] {
      var b' := b[..|b| - 1];
      assert (a + b)[..|a + b| - 1] == a + b';
      ExtractAppend(p, a, b');
    } else {
      assert a + b == a;
    }
  }

  /** Nothing is found exactly when no line matches. */
  lemma {:induction false} ExtractEmptyIff(p: Pattern, lines: seq<string>)
    ensures Extract(p, lines) == [] <==> forall i :: 0 <= i < |lines| ==> Find(p, lines[i]).None?
    decreases |lines|
  {
    if lines != [] {
      var init := lines[..|lines| - 1];
      ExtractEmptyIff(p, init);
      assert forall i :: 0 <= i < |init| ==> init[i] == lines[i];
    }
  }

  /** A line that matches contributes exactly its value. */
  lemma ExtractSingle(p: Pattern, line: string)
    ensures Extract(p, [line]) == FoundIn(p, line)
  {
    assert [line][..0] == [];
  }

  /** The line the innermost rewriter prints is read back as the number it reports. */
  lemma InnermostLineRoundTrip(n: nat)
    ensures Find(InnermostPattern, "Innermost rewrite took " + NatToString(n) + " ms") == Some(n)
  {
    FindPrinted(InnermostPattern, n, " ms");
  }

  /** The line the Sabre rewriter prints is read back as the number it reports. */
  lemma SabreLineRoundTrip(n: nat)
    ensures Find(SabrePattern, "Sabre rewrite took " + NatToString(n) + " ms") == Some(n)
  {
    FindPrinted(SabrePattern, n, " ms");
  }

  /** The mCRL2 line is read back whatever character ends it, other than a newline. */
  lemma Mcrl2LineRoundTrip(n: nat, last: char)
    requires last != '\n'
    ensures Find(Mcrl2Pattern, "rewriting: " + NatToString(n) + " milliseconds" + [last]) == Some(n)
  {
    var rest := " milliseconds" + [last];
    assert TailAt(Mcrl2Pattern.tail, rest, 0);
    assert "rewriting: " + NatToString(n) + " milliseconds" + [last] == "rewriting: " + NatToString(n) + rest;
    FindPrinted(Mcrl2Pattern, n, rest);
  }
}
