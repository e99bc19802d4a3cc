/**
 * The stable sort that `Array.prototype.sort` performs with a numeric comparator
 * `(a, b) => key(a) - key(b)`. Descending comparators `(a, b) => key(b) - key(a)`
 * are the same stable sort on the negated key.
 */
module Sorting {
  import opened Numeric

  ghost predicate SortedBy<T>(s: seq<T>, key: T -> real)
  {
    forall i, j :: 0 <= i < j < |s| ==> key(s[i]) <= key(s[j])
  }

  /** Inserts `x` before the first element whose key is not smaller, so that `x` precedes its ties. */
  function Insert<T>(x: T, r: seq<T>, key: T -> real): (out: seq<T>)
    ensures |out| == |r| + 1
    ensures out[0] == x || (|r| > 0 && out[0] == r[0])
    ensures multiset(out) == multiset(r) + multiset{x}
    ensures SortedBy(r, key) ==> SortedBy(out, key)
  {
    if r == [] then [x]
    else if key(x) <= key(r[0]) then
      [x] + r
    else
      var rest := Insert(x, r[1..], key);
      assert r == [r[0]] + r[1..];
      InsertStep(x, r, rest, key);
      [r[0]] + rest
  }

  /** Putting `r[0]` in front of the insertion into `r[1..]` keeps a sorted `r` sorted. */
  lemma {:induction false} InsertStep<T>(x: T, r: seq<T>, rest: seq<T>, key: T -> real)
    requires |r| > 0 && key(r[0]) < key(x) && |rest| > 0
    requires rest[0] == x || (|r| > 1 && rest[0] == r[1])
    requires SortedBy(r[1..], key) ==> SortedBy(rest, key)
    ensures SortedBy(r, key) ==> SortedBy([r[0]] + rest, key)
  {
    if SortedBy(r, key) {
      assert SortedBy(r[1..], key) by {
        forall i, j | 0 <= i < j < |r| - 1 ensures key(r[1..][i]) <= key(r[1..][j]) {
          assert r[1..][i] == r[i + 1] && r[1..][j] == r[j + 1];
        }
      }
      var out := [r[0]] + rest;
      assert key(r[0]) <= key(rest[0]);
      forall i, j | 0 <= i < j < |out| ensures key(out[i]) <= key(out[j]) {
        if i == 0 {
          assert key(rest[0]) <= key(rest[j - 1]) || j == 1;
        } else {
          assert out[i] == rest[i - 1] && out[j] == rest[j - 1];
        }
      }
    }
  }

  /** Stable insertion sort, ascending by `key`. */
  function SortBy<T>(s: seq<T>, key: T -> real): (out: seq<T>)
    ensures multiset(out) == multiset(s)
    ensures |out| == |s|
    ensures SortedBy(out, key)
  {
    if s == [] then []
    else
      assert s == [s[0]] + s[1..];
      Insert(s[0], SortBy(s[1..], key), key)
  }

  /** Two elements already in key order are left as they are; in particular ties keep their order (stability). */
  lemma {:induction false} OrderedPairKept<T>(x: T, y: T, key: T -> real)
    requires key(x) <= key(y)
    ensures SortBy([x, y], key) == [x, y]
  {
    assert [x, y][1..] == [y];
    assert [y][1..] == [];
    assert SortBy([y], key) == [y];
    assert Insert(x, [y], key) == [x] + [y];
  }

  /** The condition "has key `v`", which picks out one class of ties. */
  function KeyIs<T>(key: T -> real, v: real): T -> bool
  {
    (y: T) => key(y) == v
  }

  /** Filtering a sequence with a first element looks at that element, then at the rest. */
  lemma {:induction false} FilterCons<T(!new)>(a: T, r: seq<T>, p: T -> bool)
    ensures Filter([a] + r, p) == (if p(a) then [a] else []) + Filter(r, p)
  {
    FilterConcat([a], r, p);
    assert [a] == [] + [a];
    FilterSnoc([], a, p);
  }

  /**
   * Inserting `x` puts it before every element with its key: among the elements
   * with key `v`, `x` (if it has that key) comes first and the others keep their order.
   */
  lemma {:induction false} InsertKeepsTies<T(!new)>(x: T, r: seq<T>, key: T -> real, v: real)
    ensures Filter(Insert(x, r, key), KeyIs(key, v))
      == (if key(x) == v then [x] else []) + Filter(r, KeyIs(key, v))
  {
    var p := KeyIs(key, v);
    if r == [] {
      assert Insert(x, r, key) == [x] + [];
      FilterCons(x, [], p);
    } else if key(x) <= key(r[0]) {
      assert Insert(x, r, key) == [x] + r;
      FilterCons(x, r, p);
    } else {
      var rest := Insert(x, r[1..], key);
      assert Insert(x, r, key) == [r[0]] + rest;
      assert r == [r[0]] + r[1..];
      InsertKeepsTies(x, r[1..], key, v);
      TiesPassSmallerHead(r[0], x, rest, r[1..], key, v);
    }
  }

  /** An element with a smaller key than `x` put in front changes neither side of the tie equation for `x`. */
  lemma {:induction false} TiesPassSmallerHead<T(!new)>(a: T, x: T, rest: seq<T>, tail: seq<T>, key: T -> real, v: real)
    requires key(a) < key(x)
    requires Filter(rest, KeyIs(key, v)) == (if key(x) == v then [x] else []) + Filter(tail, KeyIs(key, v))
    ensures Filter([a] + rest, KeyIs(key, v)) == (if key(x) == v then [x] else []) + Filter([a] + tail, KeyIs(key, v))
  {
    var p := KeyIs(key, v);
    var ha := if p(a) then [a] else [];
    FilterCons(a, rest, p);
    FilterCons(a, tail, p);
    if key(x) == v {
      assert !p(a);
      assert Filter([a] + rest, p) == Filter(rest, p);
      assert Filter([a] + tail, p) == Filter(tail, p);
    } else {
      assert Filter(rest, p) == Filter(tail, p);
      assert Filter([a] + rest, p) == ha + Filter(tail, p);
    }
  }

  /**
   * Stability: the elements that share a key come out of the sort in the order
   * they went in.
   */
  lemma {:induction false} SortByStable<T(!new)>(s: seq<T>, key: T -> real, v: real)
    ensures Filter(SortBy(s, key), KeyIs(key, v)) == Filter(s, KeyIs(key, v))
  {
    if s != [] {
      assert s == [s[0]] + s[1..];
      SortByStable(s[1..], key, v);
      InsertKeepsTies(s[0], SortBy(s[1..], key), key, v);
      FilterCons(s[0], s[1..], KeyIs(key, v));
    }
  }

  /**
   * Of the elements that share a key, the first `k` of the sort keep those that
   * come first in the input, in input order.
   */
  lemma {:induction false} SortedPrefixKeepsTieOrder<T(!new)>(s: seq<T>, key: T -> real, k: nat, v: real)
    ensures Filter(Take(SortBy(s, key), k), KeyIs(key, v)) <= Filter(s, KeyIs(key, v))
  {
    var r := SortBy(s, key);
    var top := Take(r, k);
    assert r == top + r[|top|..];
    FilterConcat(top, r[|top|..], KeyIs(key, v));
    SortByStable(s, key, v);
  }

  /** Every element of the sort comes from the input. */
  lemma {:induction false} SortedElementFrom<T>(s: seq<T>, key: T -> real, i: nat)
    requires i < |s|
    ensures SortBy(s, key)[i] in s
  {
    var out := SortBy(s, key);
    assert out[i] in multiset(out);
  }

  /** The first element of an ascending sort has the least key of the input, the last the greatest. */
  lemma {:induction false} SortedEnds<T>(s: seq<T>, key: T -> real)
    requires |s| > 0
    ensures SortBy(s, key)[0] in multiset(s)
    ensures SortBy(s, key)[|s| - 1] in multiset(s)
    ensures forall i :: 0 <= i < |s| ==> key(SortBy(s, key)[0]) <= key(s[i])
    ensures forall i :: 0 <= i < |s| ==> key(s[i]) <= key(SortBy(s, key)[|s| - 1])
  {
    var out := SortBy(s, key);
    assert out[0] in multiset(out) && out[|s| - 1] in multiset(out);
    forall i | 0 <= i < |s|
      ensures key(out[0]) <= key(s[i]) <= key(out[|s| - 1])
    {
      assert s[i] in multiset(s);
      assert s[i] in out;
      var j :| 0 <= j < |out| && out[j] == s[i];
      if 0 < j {
        assert key(out[0]) <= key(out[j]);
      }
      if j < |s| - 1 {
        assert key(out[j]) <= key(out[|s| - 1]);
      }
    }
  }

  /**
   * The first `k` elements of an ascending sort: at most `k` of them, still sorted,
   * all taken from the input, and no element left out has a smaller key than one taken.
   */
  lemma {:induction false} SortedPrefixDominates<T>(s: seq<T>, key: T -> real, k: nat)
    ensures var top := Take(SortBy(s, key), k);
      && |top| <= k
      && SortedBy(top, key)
      && (forall x :: x in top ==> x in multiset(s))
      && (forall x, y :: x in s && x !in top && y in top ==> key(y) <= key(x))
  {
    var r := SortBy(s, key);
    var top := Take(r, k);
    assert SortedBy(top, key) by {
      forall i, j | 0 <= i < j < |top| ensures key(top[i]) <= key(top[j]) {
        assert top[i] == r[i] && top[j] == r[j];
      }
    }
    forall x | x in top ensures x in multiset(s) {
      var i :| 0 <= i < |top| && top[i] == x;
      assert top[i] == r[i];
      assert r[i] in multiset(r);
    }
    forall x, y | x in s && x !in top && y in top ensures key(y) <= key(x) {
      assert x in multiset(r);
      var j :| 0 <= j < |r| && r[j] == x;
      var i :| 0 <= i < |top| && top[i] == y;
      assert top[i] == r[i];
      assert j >= |top|;
    }
  }
}
