/**
 * Python's ordering of `str` values (code point by code point, a proper
 * prefix first) and the builtin `sorted` applied to a set of strings.
 */
module Ordering {

  /** `a < b` on Python strings. */
  predicate Below(a: string, b: string)
    decreases |a|
  {
    if a == [] then b != []
    else b != [] && (a[0] < b[0] || (a[0] == b[0] && Below(a[1..], b[1..])))
  }

  lemma {:induction false} BelowIrreflexive(a: string)
    ensures !Below(a, a)
    decreases |a|
  {
    if a != [] {
      BelowIrreflexive(a[1..]);
    }
  }

  lemma {:induction false} BelowTransitive(a: string, b: string, c: string)
    requires Below(a, b) && Below(b, c)
    ensures Below(a, c)
    decreases |a|
  {
    if a != [] && a[0] == b[0] && b[0] == c[0] {
      BelowTransitive(a[1..], b[1..], c[1..]);
    }
  }

  /** Any two distinct strings are ordered one way or the other. */
  lemma {:induction false} BelowTotal(a: string, b: string)
    ensures a == b || Below(a, b) || Below(b, a)
    decreases |a|
  {
    if a != [] && b != [] && a[0] == b[0] {
      BelowTotal(a[1..], b[1..]);
      if a[1..] == b[1..] {
        assert a == [a[0]] + a[1..] && b == [b[0]] + b[1..];
      }
    }
  }

  lemma BelowAsymmetric(a: string, b: string)
    ensures !(Below(a, b) && Below(b, a))
  {
    if Below(a, b) && Below(b, a) {
      BelowTransitive(a, b, a);
      BelowIrreflexive(a);
    }
  }

  /** Every element below every later one: increasing and free of duplicates. */
  ghost predicate StrictlySorted(r: seq<string>) {
    forall i, j :: 0 <= i < j < |r| ==> Below(r[i], r[j])
  }

  /** `r` is `sorted(s)`: the elements of `s`, each once, in increasing order. */
  ghost predicate IsSortedView(r: seq<string>, s: set<string>) {
    StrictlySorted(r) && (forall x :: x in r <==> x in s)
  }

  lemma NonEmptyHasMember(b: seq<string>)
    requires b != []
    ensures exists y :: y in b
  {
    assert b[0] in b;
  }

  /** `sorted` of a set has only one possible result. */
  lemma {:induction false} SortedViewUnique(a: seq<string>, b: seq<string>, s: set<string>)
    requires IsSortedView(a, s) && IsSortedView(b, s)
    ensures a == b
    decreases |a|
  {
    if a == [] {
      if b != [] {
        NonEmptyHasMember(b);
        assert false;
      }
    } else {
      assert a[0] in b;
      assert b != [];
      if a[0] != b[0] {
        var k :| 0 <= k < |b| && b[k] == a[0];
        assert b[0] in s;
        assert b[0] in a;
        var m :| 0 <= m < |a| && a[m] == b[0];
        assert Below(b[0], b[k]);
        assert Below(a[0], a[m]);
        BelowAsymmetric(a[0], b[0]);
      }
      var x := a[0];
      forall j | 0 < j < |a| ensures a[j] != x {
        BelowIrreflexive(x);
      }
      forall j | 0 < j < |b| ensures b[j] != x {
        BelowIrreflexive(x);
      }
      assert forall y :: y in a[1..] <==> y in s - {x} by {
        assert a == [x] + a[1..];
      }
      assert forall y :: y in b[1..] <==> y in s - {x} by {
        assert b == [x] + b[1..];
      }
      SortedViewUnique(a[1..], b[1..], s - {x});
      assert a == [x] + a[1..] && b == [x] + b[1..];
    }
  }

  /** Inserts `x` at its place in the sorted sequence `r`. */
  method Insert(r: seq<string>, x: string) returns (r': seq<string>)
    requires StrictlySorted(r) && x !in r
    ensures StrictlySorted(r')
    ensures forall y :: y in r' <==> y in r || y == x
  {
    var i := 0;
    while i < |r| && Below(r[i], x)
      invariant 0 <= i <= |r|
      invariant forall j :: 0 <= j < i ==> Below(r[j], x)
    {
      i := i + 1;
    }
    if i < |r| {
      BelowTotal(r[i], x);
    }
    r' := r[..i] + [x] + r[i..];
    forall a, b | 0 <= a < b < |r'| ensures Below(r'[a], r'[b]) {
      if a < i && b > i {
        assert r'[b] == r[b - 1];
      } else if a == i && b > i + 1 {
        BelowTransitive(x, r[i], r[b - 1]);
      }
    }
    assert r == r[..i] + r[i..];
  }

  /** Python's `sorted` applied to a set of strings. */
  method SortStrings(s: set<string>) returns (r: seq<string>)
    ensures IsSortedView(r, s)
  {
    r := [];
    var rest := s;
    while rest != {}
      invariant rest <= s
      invariant StrictlySorted(r)
      invariant forall y :: y in r <==> y in s && y !in rest
      decreases rest
    {
      var x :| x in rest;
      r := Insert(r, x);
      rest := rest - {x};
    }
  }
}
