/** Option, and the map operation std::unordered_map::emplace: it keeps an entry that is already there. */
module Wrappers {
  datatype Option<+T> = None | Some(value: T)

  function Emplace<K, V>(m: map<K, V>, k: K, v: V): (r: map<K, V>)
    ensures r.Keys == m.Keys + {k}
    ensures forall j :: j in m ==> r[j] == m[j]
    ensures k !in m ==> r[k] == v
  {
    if k in m then m else m[k := v]
  }

  // std::unordered_map::erase by key.
  function Erase<K, V>(m: map<K, V>, k: K): map<K, V> {
    map j | j in m && j != k :: m[j]
  }

  ghost predicate Distinct<T>(order: seq<T>) {
    forall i, j :: 0 <= i < j < |order| ==> order[i] != order[j]
  }

  // An order in which a container with these keys may hand them out: every key once.
  ghost predicate Enumerates(order: seq<nat>, keys: set<nat>) {
    && Distinct(order)
    && (forall k :: 0 <= k < |order| ==> order[k] in keys)
    && (forall x: nat :: x in keys ==> x in order)
  }

  // What iterating over an unordered container visits: every key once, in an order nobody promises.
  method AnyOrder<T(==)>(keys: set<T>) returns (order: seq<T>)
    ensures Distinct(order) && forall x :: x in keys <==> x in order
  {
    order := [];
    var rest := keys;
    while rest != {}
      invariant Distinct(order) && rest <= keys
      invariant forall x :: x in keys <==> x in rest || x in order
      invariant forall x :: x in rest ==> x !in order
      decreases |rest|
    {
      var x :| x in rest;
      rest := rest - {x};
      order := order + [x];
    }
  }

  // A loop over the first n elements of a sequence.
  function Fold<A, B>(f: (A, B) -> A, a: A, bs: seq<B>, n: nat): A
    requires n <= |bs|
  {
    if n == 0 then a else f(Fold(f, a, bs, n - 1), bs[n - 1])
  }

  lemma {:induction false} FoldKeeps<A(!new), B>(f: (A, B) -> A, inv: A -> bool, a: A, bs: seq<B>, n: nat)
    requires n <= |bs| && inv(a)
    requires forall x, b :: inv(x) && b in bs ==> inv(f(x, b))
    ensures inv(Fold(f, a, bs, n))
  {
    if n > 0 {
      FoldKeeps(f, inv, a, bs, n - 1);
      assert bs[n - 1] in bs;
    }
  }
}
