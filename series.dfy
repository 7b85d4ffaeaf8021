/** Sequences of observations and the Python list operations the meter
    applies to them: `[x] * n`, `xs[-k:]`, the builtin `sum`, and a mean. */
module Series {

  function Min(a: int, b: int): int
  {
    if a <= b then a else b
  }

  /** Python's `[x] * n` for a non-negative `n`: `n` copies of `x`. */
  function Repeat<T>(x: T, n: nat): (r: seq<T>)
    ensures |r| == n
  {
    if n == 0 then [] else Repeat(x, n - 1) + [x]
  }

  /** Every element of `[x] * n` is `x`. */
  lemma {:induction false} RepeatAt<T>(x: T, n: nat, i: nat)
    requires i < n
    ensures Repeat(x, n)[i] == x
  {
    if i < n - 1 {
      RepeatAt(x, n - 1, i);
    }
  }

  /** Python's `xs[-k:]` for a non-negative `k`. A positive `k` keeps the last
      `k` elements (all of them when the list is shorter). Since `-0 == 0`,
      `xs[-0:]` is `xs[0:]`, so `k == 0` keeps the whole list rather than
      none of it. */
  function TailSlice<T>(s: seq<T>, k: nat): (r: seq<T>)
    ensures k == 0 ==> r == s
    ensures k > 0 ==> |r| == Min(k, |s|)
  {
    if k == 0 || |s| <= k then s else s[|s| - k..]
  }

  /** What `xs[-k:]` keeps is the end of `xs`, in its original order. */
  lemma TailSliceIsSuffix<T>(s: seq<T>, k: nat)
    ensures TailSlice(s, k) == s[|s| - |TailSlice(s, k)|..]
  {
  }

  /** The first `i` elements of `s` added up from the left, starting at 0. */
  function SumTo(s: seq<real>, i: nat): real
    requires i <= |s|
  {
    if i == 0 then 0.0 else SumTo(s, i - 1) + s[i - 1]
  }

  /** Python's builtin `sum`, accumulating from the left starting at 0. */
  function Sum(s: seq<real>): real
  {
    SumTo(s, |s|)
  }

  /** Appending elements after the first `i` does not change their sum. */
  lemma {:induction false} SumToAppend(a: seq<real>, b: seq<real>, i: nat)
    requires i <= |a|
    ensures SumTo(a + b, i) == SumTo(a, i)
  {
    if i > 0 {
      SumToAppend(a, b, i - 1);
    }
  }

  /** The mean of a window; 0 for the empty window, which is the value the
      meter holds before its first update. */
  function Mean(s: seq<real>): real
  {
    if s == [] then 0.0 else Sum(s) / |s| as real
  }

  /** The elements of `a + b` past `a` add their own prefix sums of `b`. */
  lemma {:induction false} SumToConcat(a: seq<real>, b: seq<real>, j: nat)
    requires j <= |b|
    ensures SumTo(a + b, |a| + j) == Sum(a) + SumTo(b, j)
  {
    if j == 0 {
      SumToAppend(a, b, |a|);
    } else {
      SumToConcat(a, b, j - 1);
    }
  }

  /** `sum(a + b) == sum(a) + sum(b)`. */
  lemma SumConcat(a: seq<real>, b: seq<real>)
    ensures Sum(a + b) == Sum(a) + Sum(b)
  {
    SumToConcat(a, b, |b|);
  }

  /** The sum of `n` copies of `x` is `x * n`. */
  lemma {:induction false} SumRepeat(x: real, n: nat)
    ensures Sum(Repeat(x, n)) == x * n as real
  {
    if n > 0 {
      var r := Repeat(x, n - 1);
      SumToAppend(r, [x], n - 1);
      SumRepeat(x, n - 1);
      assert x * (n - 1) as real + x == x * n as real;
    }
  }

  /** A window made of `n >= 1` copies of `x` has mean `x`. */
  lemma MeanRepeat(x: real, n: nat)
    requires n >= 1
    ensures Mean(Repeat(x, n)) == x
  {
    SumRepeat(x, n);
    assert Sum(Repeat(x, n)) / n as real == x * n as real / n as real;
  }

  /** The suffix of a run of copies is a shorter run of the same copies. */
  lemma RepeatSuffix<T>(x: T, n: nat, j: nat)
    requires j <= n
    ensures Repeat(x, n)[n - j..] == Repeat(x, j)
  {
    forall i | 0 <= i < j
      ensures Repeat(x, n)[n - j..][i] == Repeat(x, j)[i]
    {
      RepeatAt(x, n, n - j + i);
      RepeatAt(x, j, i);
    }
  }

  /** Slicing a suffix `r` of `u` gives the slice of `u`, provided `r` is
      at least as long as the slice of `u`. */
  lemma TailSliceOfSuffix<T>(r: seq<T>, u: seq<T>, k: nat)
    requires |r| <= |u| && r == u[|u| - |r|..]
    requires k == 0 ==> r == u
    requires k > 0 ==> |r| >= Min(k, |u|)
    ensures TailSlice(r, k) == TailSlice(u, k)
  {
    if k > 0 && k < |u| {
      assert u[|u| - |r|..][|r| - k..] == u[|u| - k..];
    }
  }

  /** Cutting the window back after each append gives the same window as
      cutting the whole history once: the invariant that lets the meter keep
      only its last `k` observations. */
  lemma {:induction false} TailSliceAppend<T>(s: seq<T>, t: seq<T>, k: nat)
    ensures TailSlice(TailSlice(s, k) + t, k) == TailSlice(s + t, k)
  {
    var w := TailSlice(s, k);
    var u := s + t;
    assert w + t == u[|u| - |w + t|..] by {
      assert s[|s| - |w|..] + t == (s + t)[|s| - |w|..];
    }
    TailSliceOfSuffix(w + t, u, k);
  }

  /** After appending `t`, the window ends with the last `j` elements of `t`,
      where `j` is as many as fit, and everything before them is a suffix of
      `s`, in its original order. */
  lemma TailSliceOfAppend<T>(s: seq<T>, t: seq<T>, k: nat)
    ensures var r := TailSlice(s + t, k);
            var j := Min(|t|, |r|);
            r[|r| - j..] == t[|t| - j..] &&
            r[..|r| - j] == s[|s| - (|r| - j)..]
  {
    var u := s + t;
    var r := TailSlice(u, k);
    var j := Min(|t|, |r|);
    assert r == u[|u| - |r|..];
    assert r[|r| - j..] == u[|u| - j..];
    assert r[..|r| - j] == u[|u| - |r|..|u| - j];
  }
}
