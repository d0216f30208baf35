/** Sums over the entries of a map and over the elements of a multiset, in no particular order. */
module Sums {
  import opened Wrappers

  ghost function Union<K, T>(m: map<K, multiset<T>>): multiset<T>
    decreases |m.Keys|
  {
    if m == map[] then multiset{}
    else
      var k :| k in m;
      assert Erase(m, k).Keys == m.Keys - {k};
      m[k] + Union(Erase(m, k))
  }

  lemma EraseTwice<K, V>(m: map<K, V>, j: K, k: K)
    ensures Erase(Erase(m, j), k) == Erase(Erase(m, k), j)
  {
  }

  lemma EraseKeys<K, V>(m: map<K, V>, k: K)
    ensures Erase(m, k).Keys == m.Keys - {k}
    ensures k in m ==> |Erase(m, k).Keys| < |m.Keys|
  {
  }

  lemma EraseSet<K, V>(m: map<K, V>, k: K, v: V)
    ensures Erase(m[k := v], k) == Erase(m, k)
    ensures k !in m ==> Erase(m, k) == m
  {
  }

  lemma {:induction false} UnionAt<K, T>(m: map<K, multiset<T>>, k: K)
    requires k in m
    ensures Union(m) == m[k] + Union(Erase(m, k))
    decreases |m.Keys|
  {
    var j :| j in m && Union(m) == m[j] + Union(Erase(m, j));
    if j != k {
      EraseKeys(m, j);
      EraseKeys(m, k);
      UnionAt(Erase(m, j), k);
      UnionAt(Erase(m, k), j);
      EraseTwice(m, j, k);
    }
  }

  lemma UnionSet<K, T>(m: map<K, multiset<T>>, k: K, v: multiset<T>)
    ensures Union(m[k := v]) == v + Union(Erase(m, k))
    ensures k in m ==> Union(m) == m[k] + Union(Erase(m, k))
    ensures k !in m ==> Erase(m, k) == m
  {
    UnionAt(m[k := v], k);
    EraseSet(m, k, v);
    if k in m {
      UnionAt(m, k);
    }
  }

  lemma {:induction false} UnionHas<K, T>(m: map<K, multiset<T>>, x: T)
    ensures x in Union(m) <==> exists k :: k in m && x in m[k]
    decreases |m.Keys|
  {
    if m != map[] {
      var k :| k in m && Union(m) == m[k] + Union(Erase(m, k));
      EraseKeys(m, k);
      UnionHas(Erase(m, k), x);
      forall j | j in Erase(m, k) ensures j in m && Erase(m, k)[j] == m[j] {
      }
      forall j | j in m && x in m[j] ensures j == k || (j in Erase(m, k) && x in Erase(m, k)[j]) {
      }
    }
  }

  ghost function Sum<K>(m: map<K, int>): int
    decreases |m.Keys|
  {
    if m == map[] then 0
    else
      var k :| k in m;
      assert Erase(m, k).Keys == m.Keys - {k};
      m[k] + Sum(Erase(m, k))
  }

  lemma {:induction false} SumAt<K>(m: map<K, int>, k: K)
    requires k in m
    ensures Sum(m) == m[k] + Sum(Erase(m, k))
    decreases |m.Keys|
  {
    var j :| j in m && Sum(m) == m[j] + Sum(Erase(m, j));
    if j != k {
      EraseKeys(m, j);
      EraseKeys(m, k);
      SumAt(Erase(m, j), k);
      SumAt(Erase(m, k), j);
      EraseTwice(m, j, k);
    }
  }

  lemma SumSet<K>(m: map<K, int>, k: K, v: int)
    ensures Sum(m[k := v]) == v + Sum(Erase(m, k))
    ensures k in m ==> Sum(m) == m[k] + Sum(Erase(m, k))
    ensures k !in m ==> Erase(m, k) == m
  {
    SumAt(m[k := v], k);
    EraseSet(m, k, v);
    if k in m {
      SumAt(m, k);
    }
  }

  ghost function Worth<T>(price: T -> int, m: multiset<T>): int
    decreases |m|
  {
    if m == multiset{} then 0
    else
      var x :| x in m;
      price(x) + Worth(price, m - multiset{x})
  }

  lemma {:induction false} WorthAt<T>(price: T -> int, m: multiset<T>, x: T)
    requires x in m
    ensures Worth(price, m) == price(x) + Worth(price, m - multiset{x})
    decreases |m|
  {
    var y :| y in m && Worth(price, m) == price(y) + Worth(price, m - multiset{y});
    if y != x {
      WorthAt(price, m - multiset{y}, x);
      WorthAt(price, m - multiset{x}, y);
      assert m - multiset{y} - multiset{x} == m - multiset{x} - multiset{y};
    }
  }

  lemma {:induction false} WorthAdd<T>(price: T -> int, m: multiset<T>, n: multiset<T>)
    ensures Worth(price, m + n) == Worth(price, m) + Worth(price, n)
    decreases |n|
  {
    if n == multiset{} {
      assert m + n == m;
    } else {
      var x :| x in n && Worth(price, n) == price(x) + Worth(price, n - multiset{x});
      WorthAt(price, m + n, x);
      assert m + n - multiset{x} == m + (n - multiset{x});
      WorthAdd(price, m, n - multiset{x});
    }
  }

  lemma WorthPlus<T>(price: T -> int, m: multiset<T>, x: T)
    ensures Worth(price, m + multiset{x}) == Worth(price, m) + price(x)
  {
    WorthAt(price, m + multiset{x}, x);
    assert m + multiset{x} - multiset{x} == m;
  }

  // ---------- Totals over a sequence ----------

  function SumUpTo(xs: seq<int>, n: nat): int
    requires n <= |xs|
  {
    if n == 0 then 0 else SumUpTo(xs, n - 1) + xs[n - 1]
  }

  ghost function Total<T>(f: T -> int, xs: seq<T>, n: nat): int
    requires n <= |xs|
  {
    if n == 0 then 0 else Total(f, xs, n - 1) + f(xs[n - 1])
  }

  lemma {:induction false} TotalPrefix<T>(f: T -> int, xs: seq<T>, ys: seq<T>, n: nat)
    requires n <= |xs| && n <= |ys| && forall i :: 0 <= i < n ==> xs[i] == ys[i]
    ensures Total(f, xs, n) == Total(f, ys, n)
  {
    if n > 0 {
      TotalPrefix(f, xs, ys, n - 1);
    }
  }

  lemma {:induction false} TotalConcat<T>(f: T -> int, xs: seq<T>, ys: seq<T>, n: nat)
    requires n <= |ys|
    ensures Total(f, xs + ys, |xs| + n) == Total(f, xs, |xs|) + Total(f, ys, n)
  {
    if n == 0 {
      TotalPrefix(f, xs + ys, xs, |xs|);
    } else {
      TotalConcat(f, xs, ys, n - 1);
      assert (xs + ys)[|xs| + n - 1] == ys[n - 1];
    }
  }

  // A total in which each element is worth what the other sequence's is.
  lemma {:induction false} TotalSame<T>(f: T -> int, xs: seq<T>, ys: seq<T>, n: nat)
    requires n <= |xs| && n <= |ys| && forall i :: 0 <= i < n ==> f(xs[i]) == f(ys[i])
    ensures Total(f, xs, n) == Total(f, ys, n)
  {
    if n > 0 {
      TotalSame(f, xs, ys, n - 1);
    }
  }

  lemma {:induction false} TotalPlus<T>(f: T -> int, g: T -> int, h: T -> int, xs: seq<T>, n: nat)
    requires n <= |xs| && forall i :: 0 <= i < n ==> f(xs[i]) == g(xs[i]) + h(xs[i])
    ensures Total(f, xs, n) == Total(g, xs, n) + Total(h, xs, n)
  {
    if n > 0 {
      TotalPlus(f, g, h, xs, n - 1);
    }
  }
}
