/** Weighted totals over a table: the one summation every ledger in this project is written with. */
module Sums {

  ghost function Total<T>(w: (nat, T) -> int, xs: seq<T>): int {
    if xs == [] then 0 else Total(w, xs[..|xs| - 1]) + w(|xs| - 1, xs[|xs| - 1])
  }

  lemma {:induction false} TotalAppend<T>(w: (nat, T) -> int, xs: seq<T>, x: T)
    ensures Total(w, xs + [x]) == Total(w, xs) + w(|xs|, x)
  {
  }

  /** A batch whose weights do not depend on where it lands adds its own total. */
  lemma {:induction false} TotalConcat<T>(w: (nat, T) -> int, xs: seq<T>, ys: seq<T>)
    requires forall k: nat | k < |ys| :: w(|xs| + k, ys[k]) == w(k, ys[k])
    ensures Total(w, xs + ys) == Total(w, xs) + Total(w, ys)
  {
    if ys == [] {
      assert xs + ys == xs;
    } else {
      var m := |ys| - 1;
      TotalConcat(w, xs, ys[..m]);
      assert (xs + ys)[..|xs| + m] == xs + ys[..m];
      assert w(|xs| + m, ys[m]) == w(m, ys[m]);
    }
  }

  /** A batch of weightless rows changes nothing. */
  lemma {:induction false} TotalExtend<T>(w: (nat, T) -> int, xs: seq<T>, ys: seq<T>)
    requires forall k: nat | k < |ys| :: w(|xs| + k, ys[k]) == 0
    ensures Total(w, xs + ys) == Total(w, xs)
  {
    if ys == [] {
      assert xs + ys == xs;
    } else {
      var m := |ys| - 1;
      TotalExtend(w, xs, ys[..m]);
      assert (xs + ys)[..|xs| + m] == xs + ys[..m];
      assert w(|xs| + m, ys[m]) == 0;
    }
  }

  /** Weights that add up row by row add up in total. */
  lemma {:induction false} TotalSum<T, U, V>(w: (nat, T) -> int, xs: seq<T>, u: (nat, U) -> int, ys: seq<U>,
                                            v: (nat, V) -> int, zs: seq<V>)
    requires |xs| == |ys| == |zs|
    requires forall k: nat | k < |xs| :: w(k, xs[k]) == u(k, ys[k]) + v(k, zs[k])
    ensures Total(w, xs) == Total(u, ys) + Total(v, zs)
  {
    if xs != [] {
      var m := |xs| - 1;
      TotalSum(w, xs[..m], u, ys[..m], v, zs[..m]);
      assert w(m, xs[m]) == u(m, ys[m]) + v(m, zs[m]);
    }
  }

  lemma {:induction false} TotalSame<T, U>(w: (nat, T) -> int, xs: seq<T>, u: (nat, U) -> int, ys: seq<U>)
    requires |xs| == |ys|
    requires forall k: nat | k < |xs| :: w(k, xs[k]) == u(k, ys[k])
    ensures Total(w, xs) == Total(u, ys)
  {
    if xs != [] {
      var m := |xs| - 1;
      TotalSame(w, xs[..m], u, ys[..m]);
      assert w(m, xs[m]) == u(m, ys[m]);
    }
  }

  lemma {:induction false} TotalMonotone<T, U>(w: (nat, T) -> int, xs: seq<T>, u: (nat, U) -> int, ys: seq<U>)
    requires |xs| == |ys|
    requires forall k: nat | k < |xs| :: w(k, xs[k]) <= u(k, ys[k])
    ensures Total(w, xs) <= Total(u, ys)
  {
    if xs != [] {
      var m := |xs| - 1;
      TotalMonotone(w, xs[..m], u, ys[..m]);
      assert w(m, xs[m]) <= u(m, ys[m]);
    }
  }

  lemma {:induction false} TotalZero<T>(w: (nat, T) -> int, xs: seq<T>)
    requires forall k: nat | k < |xs| :: w(k, xs[k]) == 0
    ensures Total(w, xs) == 0
  {
    if xs != [] {
      var m := |xs| - 1;
      TotalZero(w, xs[..m]);
      assert w(m, xs[m]) == 0;
    }
  }

  lemma {:induction false} TotalUpdate<T>(w: (nat, T) -> int, xs: seq<T>, i: nat, x: T)
    requires i < |xs|
    ensures Total(w, xs[i := x]) == Total(w, xs) - w(i, xs[i]) + w(i, x)
  {
    var m := |xs| - 1;
    if i == m {
      assert xs[i := x][..m] == xs[..m];
    } else {
      TotalUpdate(w, xs[..m], i, x);
      assert xs[i := x][..m] == xs[..m][i := x];
    }
  }

  /** With non-negative weights no single row outweighs the total. */
  lemma {:induction false} TotalCovers<T>(w: (nat, T) -> int, xs: seq<T>, i: nat)
    requires i < |xs|
    requires forall k: nat | k < |xs| :: w(k, xs[k]) >= 0
    ensures 0 <= w(i, xs[i]) <= Total(w, xs)
  {
    var m := |xs| - 1;
    assert w(m, xs[m]) >= 0;
    TotalNonNegative(w, xs[..m]);
    if i < m {
      TotalCovers(w, xs[..m], i);
    }
  }

  lemma {:induction false} TotalNonNegative<T>(w: (nat, T) -> int, xs: seq<T>)
    requires forall k: nat | k < |xs| :: w(k, xs[k]) >= 0
    ensures Total(w, xs) >= 0
  {
    if xs != [] {
      var m := |xs| - 1;
      TotalNonNegative(w, xs[..m]);
      assert w(m, xs[m]) >= 0;
    }
  }

  /** Two rows of weight one make a total of at least two. */
  lemma {:induction false} TotalTwo<T>(w: (nat, T) -> int, xs: seq<T>, i: nat, j: nat)
    requires i < j < |xs|
    requires forall k: nat | k < |xs| :: w(k, xs[k]) >= 0
    requires w(i, xs[i]) >= 1 && w(j, xs[j]) >= 1
    ensures Total(w, xs) >= 2
  {
    var m := |xs| - 1;
    assert w(m, xs[m]) >= 0;
    if j == m {
      TotalCovers(w, xs[..m], i);
    } else {
      TotalTwo(w, xs[..m], i, j);
    }
  }

  /** Totals of 0/1 weights count rows. */
  lemma {:induction false} TotalCounts<T>(w: (nat, T) -> int, xs: seq<T>) returns (rows: set<nat>)
    requires forall k: nat | k < |xs| :: w(k, xs[k]) == 0 || w(k, xs[k]) == 1
    ensures forall k: nat :: k in rows <==> k < |xs| && w(k, xs[k]) == 1
    ensures Total(w, xs) == |rows|
  {
    rows := {};
    if xs != [] {
      var m := |xs| - 1;
      assert w(m, xs[m]) == 0 || w(m, xs[m]) == 1;
      rows := TotalCounts(w, xs[..m]);
      if w(m, xs[m]) == 1 {
        rows := rows + {m};
      }
    }
  }

  /** Pigeonhole: an injection from `a` into `b` bounds |a| by |b|. */
  lemma {:induction false} Pigeonhole(a: set<nat>, b: set<nat>, f: map<nat, nat>)
    requires forall x | x in a :: x in f && f[x] in b
    requires forall x, y | x in a && y in a && x != y :: f[x] != f[y]
    ensures |a| <= |b|
  {
    if a != {} {
      var x :| x in a;
      Pigeonhole(a - {x}, b - {f[x]}, f);
    }
  }
}
