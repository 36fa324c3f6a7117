/**
 * The parts of `pathlib` the scripts rely on, for a file name with no
 * directory part: `Path.stem`, `Path.with_suffix` and the listing
 * `Path.glob("*<ext>")` produces.
 */
module Paths {
  import opened Text

  /** `name.rfind('.')`: the index of the last dot, or -1. */
  function LastDot(name: string): (i: int)
    ensures -1 <= i < |name|
    ensures i >= 0 ==> name[i] == '.'
    ensures forall k :: i < k < |name| ==> name[k] != '.'
  {
    if name == [] then -1
    else if name[|name| - 1] == '.' then |name| - 1
    else LastDot(name[..|name| - 1])
  }

  /** The file name has a suffix: a last dot that is neither its first nor its last character. */
  predicate HasSuffix(name: string) {
    0 < LastDot(name) < |name| - 1
  }

  /** `Path(name).stem`: the name without its final suffix. */
  function Stem(name: string): (r: string)
    ensures HasSuffix(name) ==> r == name[..LastDot(name)] && '.' !in name[|r| + 1..]
    ensures !HasSuffix(name) ==> r == name
  {
    if HasSuffix(name) then name[..LastDot(name)] else name
  }

  /** `Path(name).with_suffix(suffix)`: the final suffix replaced, or `suffix` appended if there is none. */
  function WithSuffix(name: string, suffix: string): (r: string)
    ensures HasSuffix(name) ==> r == name[..LastDot(name)] + suffix
    ensures !HasSuffix(name) ==> r == name + suffix
  {
    Stem(name) + suffix
  }

  /**
   * A name made of a non-empty base and a dotted extension without further
   * dots has that base as its stem (`foo.rec` has stem `foo`, `a.b.rec` has
   * stem `a.b`), and `with_suffix` swaps the extension.
   */
  lemma StemOfExtension(base: string, ext: string, other: string)
    requires base != [] && |ext| >= 2 && ext[0] == '.' && '.' !in ext[1..]
    ensures Stem(base + ext) == base
    ensures WithSuffix(base + ext, other) == base + other
  {
    var name := base + ext;
    assert name[|base|] == '.';
    forall k | |base| < k < |name| ensures name[k] != '.' {
      assert name[k] == ext[1..][k - |base| - 1];
    }
    assert LastDot(name) == |base|;
    assert name[..|base|] == base;
  }

  /** A name that is only a dotted extension (`.rec`) is its own stem. */
  lemma StemOfBareExtension(ext: string)
    requires |ext| >= 2 && ext[0] == '.' && '.' !in ext[1..]
    ensures Stem(ext) == ext
  {
    forall k | 0 < k < |ext| ensures ext[k] != '.' {
      assert ext[k] == ext[1..][k - 1];
    }
  }

  /** The entries of a directory listing that `Path.glob("*" + ext)` yields, in listing order. */
  function Glob(listing: seq<string>, ext: string): (r: seq<string>)
    ensures |r| <= |listing|
    ensures forall x :: x in r <==> x in listing && EndsWith(x, ext)
    decreases |listing|
  {
    if listing == [] then []
    else
      var last := listing[|listing| - 1];
      var init := listing[..|listing| - 1];
      assert listing == init + [last];
      Glob(init, ext) + (if EndsWith(last, ext) then [last] else [])
  }

  /** A single entry is yielded exactly when it ends with the extension. */
  lemma GlobSingle(x: string, ext: string)
    ensures Glob([x], ext) == if EndsWith(x, ext) then [x] else []
  {
    assert [x][..0] == [];
  }

  /** The listing is filtered entry by entry: the matches of `a + b` are those of `a`, then those of `b`. */
  lemma {:induction false} GlobAppend(a: seq<string>, b: seq<string>, ext: string)
    ensures Glob(a + b, ext) == Glob(a, ext) + Glob(b, ext)
    decreases |b|
  {
    if b == [] {
      assert a + b == a;
    } else {
      var n := |b| - 1;
      assert (a + b)[..|a + b| - 1] == a + b[..n];
      assert (a + b)[|a + b| - 1] == b[n];
      GlobAppend(a, b[..n], ext);
    }
  }
}
