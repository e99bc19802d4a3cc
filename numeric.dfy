/**
 * Arithmetic over sequences of exact reals: the `reduce` sums, `Math.min`/`Math.max`
 * over spread arrays, means, `Math.round`, `Math.ceil` of a quotient, generic
 * `filter`, and the percentage `count / total * 100` that the engine uses everywhere.
 */
module Numeric {

  /** `xs.reduce((sum, x) => sum + x, 0)`: folds from the left, so it peels the last element. */
  function Sum(s: seq<real>): real
  {
    if s == [] then 0.0 else Sum(s[..|s| - 1]) + s[|s| - 1]
  }

  lemma {:induction false} SumSnoc(s: seq<real>, x: real)
    ensures Sum(s + [x]) == Sum(s) + x
  {
    assert (s + [x])[..|s|] == s;
  }

  lemma {:induction false} SumConcat(a: seq<real>, b: seq<real>)
    ensures Sum(a + b) == Sum(a) + Sum(b)
  {
    if b == [] {
      assert a + b == a;
    } else {
      var b' := b[..|b| - 1];
      assert a + b == (a + b') + [b[|b| - 1]];
      assert b == b' + [b[|b| - 1]];
      SumSnoc(a + b', b[|b| - 1]);
      SumSnoc(b', b[|b| - 1]);
      SumConcat(a, b');
    }
  }

  /** A sum of integer counts, folded from the left like `Sum`. */
  function SumInt(s: seq<int>): int
  {
    if s == [] then 0 else SumInt(s[..|s| - 1]) + s[|s| - 1]
  }

  lemma {:induction false} SumIntSnoc(s: seq<int>, x: int)
    ensures SumInt(s + [x]) == SumInt(s) + x
  {
    assert (s + [x])[..|s|] == s;
  }

  /** Incrementing one count increments the total. */
  lemma {:induction false} SumIntBump(s: seq<int>, k: nat)
    requires k < |s|
    ensures SumInt(s[k := s[k] + 1]) == SumInt(s) + 1
  {
    var n := |s| - 1;
    var s' := s[k := s[k] + 1];
    assert s'[..n] == if k == n then s[..n] else s[..n][k := s[k] + 1];
    if k < n {
      SumIntBump(s[..n], k);
    }
  }

  /** `Math.min(...s)` for a non-empty `s`: the least element. */
  function Min(s: seq<real>): (m: real)
    requires |s| > 0
    ensures m in s
    ensures forall x :: x in s ==> m <= x
  {
    if |s| == 1 then s[0]
    else
      var m := Min(s[..|s| - 1]);
      assert forall x :: x in s ==> x in s[..|s| - 1] || x == s[|s| - 1];
      if s[|s| - 1] < m then s[|s| - 1] else m
  }

  /** `Math.max(...s)` for a non-empty `s`: the greatest element. */
  function Max(s: seq<real>): (m: real)
    requires |s| > 0
    ensures m in s
    ensures forall x :: x in s ==> x <= m
  {
    if |s| == 1 then s[0]
    else
      var m := Max(s[..|s| - 1]);
      assert forall x :: x in s ==> x in s[..|s| - 1] || x == s[|s| - 1];
      if s[|s| - 1] > m then s[|s| - 1] else m
  }

  /** The arithmetic mean `sum / length`; JavaScript yields NaN for an empty array. */
  function Mean(s: seq<real>): real
    requires |s| > 0
  {
    Sum(s) / (|s| as real)
  }

  lemma {:induction false} SumAtLeast(s: seq<real>, lo: real)
    requires forall x :: x in s ==> lo <= x
    ensures (|s| as real) * lo <= Sum(s)
  {
    if s != [] {
      var p := s[..|s| - 1];
      assert forall x :: x in p ==> x in s;
      SumAtLeast(p, lo);
      assert s[|s| - 1] in s;
    }
  }

  lemma {:induction false} SumAtMost(s: seq<real>, hi: real)
    requires forall x :: x in s ==> x <= hi
    ensures Sum(s) <= (|s| as real) * hi
  {
    if s != [] {
      var p := s[..|s| - 1];
      assert forall x :: x in p ==> x in s;
      SumAtMost(p, hi);
      assert s[|s| - 1] in s;
    }
  }

  /** The mean of a non-empty sequence lies between its least and its greatest element. */
  lemma {:induction false} MeanBounds(s: seq<real>)
    requires |s| > 0
    ensures Min(s) <= Mean(s) <= Max(s)
  {
    var lo, hi, total, n := Min(s), Max(s), Sum(s), |s| as real;
    SumAtLeast(s, lo);
    SumAtMost(s, hi);
    assert n * lo <= total <= n * hi;
    DivideBounds(total, n, lo, hi);
    assert Mean(s) == total / n;
  }

  lemma {:induction false} DivideBounds(total: real, n: real, lo: real, hi: real)
    requires n > 0.0
    requires n * lo <= total <= n * hi
    ensures lo <= total / n <= hi
  {
    assert total / n - lo == (total - n * lo) / n;
    assert hi - total / n == (n * hi - total) / n;
  }

  /** The smaller of two reals (`Math.min(a, b)`). */
  function Min2(a: real, b: real): (m: real)
    ensures m <= a && m <= b && (m == a || m == b)
  {
    if a <= b then a else b
  }

  /** `Math.round(x)`: the nearest integer, halves rounded towards positive infinity. */
  function Round(x: real): (r: int)
    ensures r as real - 0.5 <= x < r as real + 0.5
  {
    (x + 0.5).Floor
  }

  /** Rounding is monotone and maps [lo, hi] into [lo, hi] when both ends are integers. */
  lemma {:induction false} RoundWithin(x: real, lo: int, hi: int)
    requires lo as real <= x <= hi as real
    ensures lo <= Round(x) <= hi
  {
  }

  /**
   * `Math.ceil(a / b)` for a non-zero divisor: the least q with q >= a / b, that
   * is q * b >= a for a positive divisor and q * b <= a for a negative one.
   */
  function CeilDiv(a: int, b: int): (q: int)
    requires b != 0
    ensures b > 0 ==> (q - 1) * b < a <= q * b
    ensures b < 0 ==> q * b <= a < (q - 1) * b
  {
    if b < 0 then
      assert (a / b - 1) * b == (a / b) * b - b;
      a / b
    else if a % b == 0 then a / b else a / b + 1
  }

  /** `(part / whole) * 100`, the percentage used for every rate in the engine. */
  function Percent(part: int, whole: int): real
    requires whole > 0
  {
    (part as real) / (whole as real) * 100.0
  }

  lemma {:induction false} PercentBounds(part: int, whole: int)
    requires whole > 0 && 0 <= part <= whole
    ensures 0.0 <= Percent(part, whole) <= 100.0
  {
    DivideBounds(part as real, whole as real, 0.0, 1.0);
  }

  lemma {:induction false} PercentMonotone(a: int, b: int, whole: int)
    requires whole > 0 && a <= b
    ensures Percent(a, whole) <= Percent(b, whole)
  {
    assert (a as real) / (whole as real) <= (b as real) / (whole as real);
  }

  /** A percentage exceeds `t` exactly when `100 * part` exceeds `t * whole`. */
  lemma {:induction false} PercentExceeds(part: int, whole: int, t: real)
    requires whole > 0
    ensures Percent(part, whole) > t <==> (part as real) * 100.0 > t * (whole as real)
  {
    var w := whole as real;
    var d := (part as real) / w * 100.0 - t;
    assert d * w == (part as real) * 100.0 - t * w;
    if d > 0.0 {
      assert d * w > 0.0;
    } else {
      assert d * w <= 0.0;
    }
  }

  /** Percentages of parts that make up the whole add up to 100. */
  lemma {:induction false} PercentSum4(a: int, b: int, c: int, d: int, whole: int)
    requires whole > 0 && a + b + c + d == whole
    ensures Percent(a, whole) + Percent(b, whole) + Percent(c, whole) + Percent(d, whole) == 100.0
  {
    var n := whole as real;
    assert (a as real) / n + (b as real) / n + (c as real) / n + (d as real) / n == (whole as real) / n;
  }

  /** `s.filter(p)`: the elements satisfying `p`, in their original order. */
  function Filter<T(!new)>(s: seq<T>, p: T -> bool): (r: seq<T>)
    ensures |r| <= |s|
    ensures forall i :: 0 <= i < |r| ==> p(r[i])
    ensures forall x :: x in r <==> x in s && p(x)
  {
    if s == [] then []
    else
      var prefix := s[..|s| - 1];
      assert forall x :: x in s <==> x in prefix || x == s[|s| - 1];
      if p(s[|s| - 1]) then Filter(prefix, p) + [s[|s| - 1]] else Filter(prefix, p)
  }

  /** A prefix one longer is the prefix with the next element appended. */
  lemma PrefixSnoc<T>(s: seq<T>, i: nat)
    requires i < |s|
    ensures s[..i + 1] == s[..i] + [s[i]]
  {
  }

  lemma {:induction false} FilterSnoc<T(!new)>(s: seq<T>, x: T, p: T -> bool)
    ensures Filter(s + [x], p) == if p(x) then Filter(s, p) + [x] else Filter(s, p)
  {
    assert (s + [x])[..|s|] == s;
  }

  /** Filtering commutes with concatenation: survivors keep their relative order. */
  lemma {:induction false} FilterConcat<T(!new)>(a: seq<T>, b: seq<T>, p: T -> bool)
    ensures Filter(a + b, p) == Filter(a, p) + Filter(b, p)
  {
    if b == [] {
      assert a + b == a;
    } else {
      var b' := b[..|b| - 1];
      var x := b[|b| - 1];
      assert a + b == (a + b') + [x];
      assert b == b' + [x];
      FilterSnoc(a + b', x, p);
      FilterSnoc(b', x, p);
      FilterConcat(a, b', p);
    }
  }

  /** A filter that every element passes keeps the whole sequence. */
  lemma {:induction false} FilterAll<T(!new)>(s: seq<T>, p: T -> bool)
    requires forall i :: 0 <= i < |s| ==> p(s[i])
    ensures Filter(s, p) == s
  {
    if s != [] {
      FilterAll(s[..|s| - 1], p);
      assert s == s[..|s| - 1] + [s[|s| - 1]];
    }
  }

  /** How often `x` survives a filter depends only on how often it occurs. */
  lemma {:induction false} FilterMultiplicity<T(!new)>(s: seq<T>, p: T -> bool, x: T)
    ensures multiset(Filter(s, p))[x] == if p(x) then multiset(s)[x] else 0
  {
    if s != [] {
      var prefix := s[..|s| - 1];
      assert s == prefix + [s[|s| - 1]];
      FilterMultiplicity(prefix, p, x);
    }
  }

  /** Filtering a permutation yields a permutation of the filtered sequence. */
  lemma {:induction false} FilterPermutation<T(!new)>(a: seq<T>, b: seq<T>, p: T -> bool)
    requires multiset(a) == multiset(b)
    ensures multiset(Filter(a, p)) == multiset(Filter(b, p))
  {
    forall x ensures multiset(Filter(a, p))[x] == multiset(Filter(b, p))[x] {
      FilterMultiplicity(a, p, x);
      FilterMultiplicity(b, p, x);
    }
  }

  /** A condition and its negation split the input between them. */
  lemma {:induction false} FilterComplement<T(!new)>(s: seq<T>, p: T -> bool, q: T -> bool)
    requires forall x :: p(x) != q(x)
    ensures |Filter(s, p)| + |Filter(s, q)| == |s|
  {
    if s != [] {
      FilterComplement(s[..|s| - 1], p, q);
    }
  }

  /** Three filters whose conditions split every element exactly once partition the count. */
  lemma {:induction false} FilterPartition3<T(!new)>(s: seq<T>, p: T -> bool, q: T -> bool, r: T -> bool)
    requires forall x :: (p(x) && !q(x) && !r(x)) || (!p(x) && q(x) && !r(x)) || (!p(x) && !q(x) && r(x))
    ensures |Filter(s, p)| + |Filter(s, q)| + |Filter(s, r)| == |s|
  {
    if s != [] {
      FilterPartition3(s[..|s| - 1], p, q, r);
    }
  }

  /** Four filters whose conditions hold for exactly one of them on every element partition the count. */
  lemma {:induction false} FilterPartition4<T(!new)>(s: seq<T>, p: T -> bool, q: T -> bool, r: T -> bool, u: T -> bool)
    requires forall x :: (if p(x) then 1 else 0) + (if q(x) then 1 else 0) + (if r(x) then 1 else 0) + (if u(x) then 1 else 0) == 1
    ensures |Filter(s, p)| + |Filter(s, q)| + |Filter(s, r)| + |Filter(s, u)| == |s|
  {
    if s != [] {
      FilterPartition4(s[..|s| - 1], p, q, r, u);
    }
  }

  /** `s.slice(0, k)`. */
  function Take<T>(s: seq<T>, k: nat): (r: seq<T>)
    ensures |r| == if |s| < k then |s| else k
    ensures forall i :: 0 <= i < |r| ==> r[i] == s[i]
  {
    if |s| < k then s else s[..k]
  }
}
