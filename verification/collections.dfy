/** Sequence helpers shared by the volume, position-sizing and logging models:
    sums over reals, Python's slice semantics, and the stable sort that
    Python's `sorted(..., key=...)` performs. */
module Collections {

  datatype Option<+T> = None | Some(value: T)

  function Min(a: real, b: real): real { if a <= b then a else b }
  function Max(a: real, b: real): real { if a >= b then a else b }
  function MinInt(a: int, b: int): int { if a <= b then a else b }
  function MaxInt(a: int, b: int): int { if a >= b then a else b }
  function Abs(x: real): real { if x < 0.0 then -x else x }

  /** Python's `sum(s)` over floats, idealised as exact real arithmetic. */
  function Sum(s: seq<real>): real
  {
    if s == [] then 0.0 else Sum(s[..|s| - 1]) + s[|s| - 1]
  }

  /** `sum(p * v for p, v in zip(prices, volumes))` for equally long sequences. */
  function Dot(p: seq<real>, v: seq<real>): real
    requires |p| == |v|
  {
    if p == [] then 0.0 else Dot(p[..|p| - 1], v[..|v| - 1]) + p[|p| - 1] * v[|v| - 1]
  }

  /** Arithmetic mean; 0.0 for the empty sequence. */
  function Mean(s: seq<real>): real
  {
    if s == [] then 0.0 else Sum(s) / |s| as real
  }

  /** Sum of squared deviations from the mean divided by the count: the
      quantity whose square root the source takes as a standard deviation. */
  function PopVariance(s: seq<real>): real
  {
    if s == [] then 0.0 else Sum(SquaredDeviations(s, Mean(s))) / |s| as real
  }

  function SquaredDeviations(s: seq<real>, m: real): (r: seq<real>)
    ensures |r| == |s|
    ensures forall i :: 0 <= i < |s| ==> r[i] == (s[i] - m) * (s[i] - m)
  {
    seq(|s|, i requires 0 <= i < |s| => (s[i] - m) * (s[i] - m))
  }

  /** A sum of values within [lo, hi] lies within [|s|*lo, |s|*hi]. */
  lemma {:induction false} SumBounds(s: seq<real>, lo: real, hi: real)
    requires forall i :: 0 <= i < |s| ==> lo <= s[i] <= hi
    ensures |s| as real * lo <= Sum(s) <= |s| as real * hi
  {
    if s != [] {
      SumBounds(s[..|s| - 1], lo, hi);
    }
  }

  /** The mean of values within [lo, hi] is within [lo, hi]. */
  lemma MeanBounds(s: seq<real>, lo: real, hi: real)
    requires s != []
    requires forall i :: 0 <= i < |s| ==> lo <= s[i] <= hi
    ensures lo <= Mean(s) <= hi
  {
    SumBounds(s, lo, hi);
    QuotientBounds(Sum(s), |s| as real, lo, hi);
  }

  lemma QuotientBounds(x: real, n: real, lo: real, hi: real)
    requires n > 0.0 && n * lo <= x <= n * hi
    ensures lo <= x / n <= hi
  {
    assert x / n * n == x;
    if x / n < lo {
      ScaleMonotone(x / n, lo, n);
    }
    if x / n > hi {
      ScaleMonotone(hi, x / n, n);
    }
  }

  /** QuotientBounds with the bounds written as DotBounds states them. */
  lemma WeightedQuotientBounds(x: real, n: real, lo: real, hi: real)
    requires n > 0.0 && lo * n <= x <= hi * n
    ensures lo <= x / n <= hi
  {
    assert lo * n == n * lo && hi * n == n * hi;
    QuotientBounds(x, n, lo, hi);
  }

  lemma {:induction false} SumNonNegative(s: seq<real>)
    requires forall i :: 0 <= i < |s| ==> 0.0 <= s[i]
    ensures 0.0 <= Sum(s)
  {
    if s != [] {
      SumNonNegative(s[..|s| - 1]);
    }
  }

  /** With nonnegative weights v, the weighted sum of p lies between lo and hi
      times the total weight when every p is within [lo, hi]. */
  lemma DotBounds(p: seq<real>, v: seq<real>, lo: real, hi: real)
    requires |p| == |v|
    requires forall i :: 0 <= i < |v| ==> 0.0 <= v[i]
    requires forall i :: 0 <= i < |p| ==> lo <= p[i] <= hi
    ensures lo * Sum(v) <= Dot(p, v) <= hi * Sum(v)
  {
    DotAbove(p, v, lo);
    DotBelow(p, v, hi);
  }

  /** Weights that are nonnegative keep a weighted sum above lo times the total weight. */
  lemma {:induction false} DotAbove(p: seq<real>, v: seq<real>, lo: real)
    requires |p| == |v|
    requires forall i :: 0 <= i < |v| ==> 0.0 <= v[i]
    requires forall i :: 0 <= i < |p| ==> lo <= p[i]
    ensures lo * Sum(v) <= Dot(p, v)
  {
    if p != [] {
      var n := |p| - 1;
      var p', v' := p[..n], v[..n];
      assert forall i :: 0 <= i < |v'| ==> 0.0 <= v'[i];
      assert forall i :: 0 <= i < |p'| ==> lo <= p'[i];
      DotAbove(p', v', lo);
      StepAbove(lo, Sum(v'), Dot(p', v'), p[n], v[n], Sum(v), Dot(p, v));
    }
  }

  /** Weights that are nonnegative keep a weighted sum below hi times the total weight. */
  lemma {:induction false} DotBelow(p: seq<real>, v: seq<real>, hi: real)
    requires |p| == |v|
    requires forall i :: 0 <= i < |v| ==> 0.0 <= v[i]
    requires forall i :: 0 <= i < |p| ==> p[i] <= hi
    ensures Dot(p, v) <= hi * Sum(v)
  {
    if p != [] {
      var n := |p| - 1;
      var p', v' := p[..n], v[..n];
      assert forall i :: 0 <= i < |v'| ==> 0.0 <= v'[i];
      assert forall i :: 0 <= i < |p'| ==> p'[i] <= hi;
      DotBelow(p', v', hi);
      StepBelow(hi, Sum(v'), Dot(p', v'), p[n], v[n], Sum(v), Dot(p, v));
    }
  }

  /** One induction step of DotAbove and DotBelow each, kept apart so that the
      nonlinear arithmetic is solved without the sequence facts in scope. */
  lemma StepAbove(lo: real, s: real, d: real, x: real, w: real, s': real, d': real)
    requires lo * s <= d && lo <= x && 0.0 <= w
    requires s' == s + w && d' == d + x * w
    ensures lo * s' <= d'
  {
    ScaleMonotone(lo, x, w);
    Distribute(lo, s, w);
  }

  lemma StepBelow(hi: real, s: real, d: real, x: real, w: real, s': real, d': real)
    requires d <= hi * s && x <= hi && 0.0 <= w
    requires s' == s + w && d' == d + x * w
    ensures d' <= hi * s'
  {
    ScaleMonotone(x, hi, w);
    Distribute(hi, s, w);
  }

  lemma ScaleMonotone(a: real, b: real, w: real)
    requires a <= b && 0.0 <= w
    ensures a * w <= b * w
  {
    assert (b - a) * w >= 0.0;
  }

  lemma Distribute(c: real, x: real, y: real)
    ensures c * (x + y) == c * x + c * y
  {
  }

  /** Python's `s[k:]` for any integer k (a negative k counts from the end). */
  function PySliceFrom<T>(s: seq<T>, k: int): (r: seq<T>)
    ensures |r| <= |s|
    ensures r == s[|s| - |r|..]
  {
    if k >= 0 then (if k <= |s| then s[k..] else [])
    else if |s| + k >= 0 then s[|s| + k..] else s
  }

  /** Python's `s[:k]` for any integer k; note that `s[:-0]` is `s[:0]`, the empty list. */
  function PySliceTo<T>(s: seq<T>, k: int): (r: seq<T>)
    ensures |r| <= |s|
    ensures r == s[..|r|]
  {
    if k >= 0 then (if k <= |s| then s[..k] else s)
    else if |s| + k >= 0 then s[..|s| + k] else []
  }

  predicate SortedBy<T>(s: seq<T>, key: T -> real)
  {
    forall i, j :: 0 <= i < j < |s| ==> key(s[i]) <= key(s[j])
  }

  /** Inserts x before the first element whose key is not below x's. */
  function InsertBy<T(==)>(x: T, s: seq<T>, key: T -> real): (r: seq<T>)
    requires SortedBy(s, key)
    ensures SortedBy(r, key)
    ensures multiset(r) == multiset(s) + multiset{x}
    ensures |r| == |s| + 1
    ensures r[0] == x || (s != [] && r[0] == s[0])
  {
    if s == [] || key(x) <= key(s[0]) then
      [x] + s
    else
      var rest := InsertBy(x, s[1..], key);
      assert s == [s[0]] + s[1..];
      assert key(s[0]) <= key(rest[0]);
      [s[0]] + rest
  }

  /** Python's stable `sorted(s, key=key)`: ascending by key, a permutation of s. */
  function SortBy<T(==)>(s: seq<T>, key: T -> real): (r: seq<T>)
    ensures SortedBy(r, key)
    ensures multiset(r) == multiset(s)
    ensures |r| == |s|
  {
    if s == [] then []
    else
      assert s == [s[0]] + s[1..];
      InsertBy(s[0], SortBy(s[1..], key), key)
  }

  /** In an ascending permutation of s, the first and the last element bound
      the key of every element of s. */
  lemma SortedEnds<T>(sorted: seq<T>, s: seq<T>, key: T -> real)
    requires SortedBy(sorted, key) && multiset(sorted) == multiset(s)
    ensures forall i :: 0 <= i < |s| ==> key(sorted[0]) <= key(s[i]) <= key(sorted[|sorted| - 1])
  {
    forall i | 0 <= i < |s|
      ensures key(sorted[0]) <= key(s[i]) <= key(sorted[|sorted| - 1])
    {
      assert s[i] in multiset(sorted);
      var j :| 0 <= j < |sorted| && sorted[j] == s[i];
    }
  }

  /** The sort key of a plain `sorted(s)` over numbers: the value itself. */
  function Identity(v: real): real { v }

  /** The ends of an ascending permutation of s bound every element of s and its mean. */
  lemma SortedEndsBound(sorted: seq<real>, s: seq<real>)
    requires s != [] && SortedBy(sorted, Identity) && multiset(sorted) == multiset(s)
    ensures |sorted| == |s|
    ensures forall i :: 0 <= i < |s| ==> sorted[0] <= s[i] <= sorted[|sorted| - 1]
    ensures sorted[0] <= Mean(s) <= sorted[|sorted| - 1]
  {
    assert |sorted| == |multiset(s)| == |s|;
    SortedEnds(sorted, s, Identity);
    forall i | 0 <= i < |s|
      ensures sorted[0] <= s[i] <= sorted[|sorted| - 1]
    {
      assert Identity(sorted[0]) <= Identity(s[i]) <= Identity(sorted[|sorted| - 1]);
    }
    MeanBounds(s, sorted[0], sorted[|sorted| - 1]);
  }

  /** The last element of s occurs in a permutation t of s, at some index j,
      and what remains of both is again a permutation. */
  lemma PermutationRemove<T>(s: seq<T>, t: seq<T>) returns (j: nat)
    requires s != [] && multiset(s) == multiset(t)
    ensures j < |t| && t[j] == s[|s| - 1]
    ensures multiset(s[..|s| - 1]) == multiset(t[..j] + t[j + 1..])
  {
    var n := |s| - 1;
    assert s[n] in multiset(t);
    j :| 0 <= j < |t| && t[j] == s[n];
    assert s == s[..n] + [s[n]];
    assert t == t[..j] + [t[j]] + t[j + 1..];
    assert multiset(s[..n]) == multiset(s) - multiset{s[n]};
    assert multiset(t[..j] + t[j + 1..]) == multiset(t) - multiset{t[j]};
  }
}
