/** Searching and splitting sequences (and so strings) at an element, as
    Go's `strings.Index`, `strings.LastIndex` and `strings.Contains` do. */
module Seqs {
  import opened Wrappers

  /** Index of the first occurrence of `x` in `s`, or -1. */
  function IndexOf<T(==)>(s: seq<T>, x: T): (i: int)
    ensures -1 <= i < |s|
    ensures i == -1 <==> x !in s
    ensures 0 <= i ==> s[i] == x && x !in s[..i]
  {
    if |s| == 0 then -1
    else if s[0] == x then 0
    else
      var j := IndexOf(s[1..], x);
      if j < 0 then -1
      else
        assert s[..j + 1] == [s[0]] + s[1..][..j];
        j + 1
  }

  /** Index of the last occurrence of `x` in `s`, or -1. */
  function LastIndexOf<T(==)>(s: seq<T>, x: T): (i: int)
    ensures -1 <= i < |s|
    ensures i == -1 <==> x !in s
    ensures 0 <= i ==> s[i] == x && x !in s[i + 1..]
  {
    if |s| == 0 then -1
    else if s[|s| - 1] == x then |s| - 1
    else
      var j := LastIndexOf(s[..|s| - 1], x);
      assert 0 <= j ==> s[j + 1..] == s[..|s| - 1][j + 1..] + [s[|s| - 1]];
      j
  }

  /** The first occurrence of `x` is exactly where a separator was placed
      after an `x`-free prefix. */
  lemma {:induction false} IndexOfJoin<T>(a: seq<T>, x: T, b: seq<T>)
    requires x !in a
    ensures IndexOf(a + [x] + b, x) == |a|
  {
    var s := a + [x] + b;
    var i := IndexOf(s, x);
    assert s[|a|] == x;
    assert s[..|a|] == a;
  }

  /** The last occurrence of `x` is exactly where a separator was placed
      before an `x`-free suffix. */
  lemma {:induction false} LastIndexOfJoin<T>(a: seq<T>, x: T, b: seq<T>)
    requires x !in b
    ensures LastIndexOf(a + [x] + b, x) == |a|
  {
    var s := a + [x] + b;
    var i := LastIndexOf(s, x);
    assert s[|a|] == x;
    assert s[|a| + 1..] == b;
  }

  /** Splits `s` around the first `x`: the part before it and the part after it. */
  function SplitFirst<T(==)>(s: seq<T>, x: T): (r: Option<(seq<T>, seq<T>)>)
    ensures r.None? <==> x !in s
    ensures r.Some? ==> s == r.value.0 + [x] + r.value.1 && x !in r.value.0
  {
    var i := IndexOf(s, x);
    if i < 0 then None
    else
      assert s == s[..i] + [x] + s[i + 1..];
      Some((s[..i], s[i + 1..]))
  }

  /** Splits `s` around the last `x`: the part before it and the part after it. */
  function SplitLast<T(==)>(s: seq<T>, x: T): (r: Option<(seq<T>, seq<T>)>)
    ensures r.None? <==> x !in s
    ensures r.Some? ==> s == r.value.0 + [x] + r.value.1 && x !in r.value.1
  {
    var i := LastIndexOf(s, x);
    if i < 0 then None
    else
      assert s == s[..i] + [x] + s[i + 1..];
      Some((s[..i], s[i + 1..]))
  }

  /** Splitting at the first `x` recovers the two halves that were joined. */
  lemma SplitFirstJoin<T>(a: seq<T>, x: T, b: seq<T>)
    requires x !in a
    ensures SplitFirst(a + [x] + b, x) == Some((a, b))
  {
    IndexOfJoin(a, x, b);
    var s := a + [x] + b;
    assert s[..|a|] == a;
    assert s[|a| + 1..] == b;
  }

  /** Splitting at the last `x` recovers the two halves that were joined. */
  lemma SplitLastJoin<T>(a: seq<T>, x: T, b: seq<T>)
    requires x !in b
    ensures SplitLast(a + [x] + b, x) == Some((a, b))
  {
    LastIndexOfJoin(a, x, b);
    var s := a + [x] + b;
    assert s[..|a|] == a;
    assert s[|a| + 1..] == b;
  }

  /** No occurrence of `x` lies after the last one. */
  lemma {:induction false} LastIndexOfIsLast<T>(s: seq<T>, x: T, k: nat)
    requires k < |s| && s[k] == x
    ensures k <= LastIndexOf(s, x)
  {
    if s[|s| - 1] != x {
      LastIndexOfIsLast(s[..|s| - 1], x, k);
    }
  }
}
