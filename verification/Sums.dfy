/**
 * `SELECT SUM(...)` over a table: the one aggregate the whole service is built on.
 * A column expression with its WHERE clause is a weight `T -> int`.
 */
module Sums {

  function Sum<T>(xs: seq<T>, f: T -> int): int {
    if |xs| == 0 then 0 else Sum(xs[..|xs| - 1], f) + f(xs[|xs| - 1])
  }

  lemma {:induction false} SumSnoc<T>(xs: seq<T>, x: T, f: T -> int)
    ensures Sum(xs + [x], f) == Sum(xs, f) + f(x)
  {
    assert (xs + [x])[..|xs|] == xs;
  }

  lemma {:induction false} SumConcat<T>(xs: seq<T>, ys: seq<T>, f: T -> int)
    ensures Sum(xs + ys, f) == Sum(xs, f) + Sum(ys, f)
  {
    if |ys| == 0 {
      assert xs + ys == xs;
    } else {
      var front := ys[..|ys| - 1];
      assert xs + ys == (xs + front) + [ys[|ys| - 1]];
      SumConcat(xs, front, f);
      SumSnoc(xs + front, ys[|ys| - 1], f);
    }
  }

  /** Row by row f = g + h, so the sums agree: every reservation and partition argument is one use of this. */
  lemma {:induction false} SumCombine<T, U, V>(xs: seq<T>,
        f: T -> int, ys: seq<U>, g: U -> int, zs: seq<V>, h: V -> int)
    requires |xs| == |ys| == |zs|
    requires forall i :: 0 <= i < |xs| ==> f(xs[i]) == g(ys[i]) + h(zs[i])
    ensures Sum(xs, f) == Sum(ys, g) + Sum(zs, h)
  {
    if |xs| > 0 {
      var n := |xs| - 1;
      SumCombine(xs[..n], f, ys[..n], g, zs[..n], h);
    }
  }

  lemma {:induction false} SumPointwise<T, U>(xs: seq<T>, f: T -> int, ys: seq<U>, g: U -> int)
    requires |xs| == |ys|
    requires forall i :: 0 <= i < |xs| ==> f(xs[i]) == g(ys[i])
    ensures Sum(xs, f) == Sum(ys, g)
  {
    if |xs| > 0 {
      var n := |xs| - 1;
      SumPointwise(xs[..n], f, ys[..n], g);
    }
  }

  lemma {:induction false} SumZero<T>(xs: seq<T>, f: T -> int)
    requires forall i :: 0 <= i < |xs| ==> f(xs[i]) == 0
    ensures Sum(xs, f) == 0
  {
    if |xs| > 0 {
      SumZero(xs[..|xs| - 1], f);
    }
  }

  /** With no negative term, every term is at most the sum. */
  lemma {:induction false} SumBoundsTerms<T>(xs: seq<T>, f: T -> int)
    requires forall i :: 0 <= i < |xs| ==> 0 <= f(xs[i])
    ensures 0 <= Sum(xs, f)
    ensures forall i :: 0 <= i < |xs| ==> f(xs[i]) <= Sum(xs, f)
  {
    if |xs| > 0 {
      var n := |xs| - 1;
      SumBoundsTerms(xs[..n], f);
      forall i | 0 <= i < |xs| ensures f(xs[i]) <= Sum(xs, f) {
        if i < n { assert xs[..n][i] == xs[i]; }
      }
    }
  }

  /** UPDATE of one row moves the sum by the change of that row's weight. */
  lemma {:induction false} SumUpdate<T>(xs: seq<T>, i: nat, y: T, f: T -> int)
    requires i < |xs|
    ensures Sum(xs[i := y], f) == Sum(xs, f) - f(xs[i]) + f(y)
  {
    var n := |xs| - 1;
    if i == n {
      assert xs[i := y][..n] == xs[..n];
    } else {
      assert xs[i := y][..n] == xs[..n][i := y];
      SumUpdate(xs[..n], i, y, f);
    }
  }

  // ----- GROUP BY ------------------------------------------------------------------------------

  ghost predicate NoDuplicates<T(!new)>(xs: seq<T>) {
    forall i, j :: 0 <= i < j < |xs| ==> xs[i] != xs[j]
  }

  /** g on the rows with key k. */
  function WithKey<T, K(==)>(key: T -> K, k: K, g: T -> int): T -> int {
    (t: T) => if key(t) == k then g(t) else 0
  }

  /** g on the rows whose key is listed. */
  function WithKeys<T, K(==)>(key: T -> K, ks: seq<K>, g: T -> int): T -> int {
    (t: T) => if key(t) in ks then g(t) else 0
  }

  function PerKey<T, K(==)>(xs: seq<T>, key: T -> K, g: T -> int): K -> int {
    (k: K) => Sum(xs, WithKey(key, k, g))
  }

  function AtKey<T, K(==)>(t: T, key: T -> K, g: T -> int): K -> int {
    (k: K) => WithKey(key, k, g)(t)
  }

  /** One row counts under exactly one key of a duplicate-free list that names its key. */
  lemma {:induction false} RowCountsOnce<T, K(!new)>(ks: seq<K>, t: T, key: T -> K, g: T -> int)
    requires NoDuplicates(ks)
    ensures Sum(ks, AtKey(t, key, g)) == WithKeys(key, ks, g)(t)
  {
    if |ks| > 0 {
      var n := |ks| - 1;
      RowCountsOnce(ks[..n], t, key, g);
      assert ks[n] !in ks[..n];
      assert AtKey(t, key, g)(ks[n]) == WithKey(key, ks[n], g)(t);
      assert key(t) in ks <==> key(t) in ks[..n] || key(t) == ks[n];
    }
  }

  /** Group by group or row by row, the total is the same. */
  lemma {:induction false} SumByKey<T, K(!new)>(xs: seq<T>, ks: seq<K>, key: T -> K, g: T -> int)
    requires NoDuplicates(ks)
    ensures Sum(ks, PerKey(xs, key, g)) == Sum(xs, WithKeys(key, ks, g))
  {
    if |xs| == 0 {
      SumZero(ks, PerKey(xs, key, g));
    } else {
      var front, t := xs[..|xs| - 1], xs[|xs| - 1];
      SumByKey(front, ks, key, g);
      RowCountsOnce(ks, t, key, g);
      SumCombine(ks, PerKey(xs, key, g), ks, PerKey(front, key, g), ks, AtKey(t, key, g));
    }
  }
}
