/** Finite-collection vocabulary shared by the models: options, order-preserving
    selections from a sequence, and the two ways of counting a relation. */
module Collections {

  datatype Option<+T> = None | Some(value: T)

  ghost function Pick<T>(s: set<T>): (x: T)
    requires s != {}
    ensures x in s
  {
    var x :| x in s;
    x
  }

  ghost function Elements<T>(xs: seq<T>): set<T> { set x | x in xs }

  lemma SubsetCount<T>(a: set<T>, b: set<T>)
    requires a <= b
    ensures |a| <= |b|
  {
    assert b == a + (b - a);
  }

  function Min(a: int, b: int): int { if a <= b then a else b }

  // ----- selections that keep the order of a sequence

  /** The elements of `xs` that belong to `keep`. */
  ghost function Keep<T>(xs: seq<T>, keep: set<T>): seq<T> {
    if xs == [] then []
    else
      var front, last := xs[..|xs| - 1], xs[|xs| - 1];
      Keep(front, keep) + if last in keep then [last] else []
  }

  /** The elements of `xs` that do not belong to `out`. */
  ghost function Drop<T>(xs: seq<T>, out: set<T>): seq<T> {
    if xs == [] then []
    else
      var front, last := xs[..|xs| - 1], xs[|xs| - 1];
      Drop(front, out) + if last in out then [] else [last]
  }

  /** The first occurrence of every element of `xs`. */
  ghost function Distinct<T>(xs: seq<T>): seq<T> {
    if xs == [] then []
    else
      var front, last := Distinct(xs[..|xs| - 1]), xs[|xs| - 1];
      if last in front then front else front + [last]
  }

  lemma ElementsSnoc<T>(xs: seq<T>, x: T)
    ensures Elements(xs + [x]) == Elements(xs) + {x}
    ensures xs + [] == xs
  {
    assert forall y :: y in xs + [x] <==> y in xs || y == x;
  }

  lemma {:induction false} KeepElements<T>(xs: seq<T>, keep: set<T>)
    ensures Elements(Keep(xs, keep)) == Elements(xs) * keep
  {
    if xs != [] {
      var front, last := xs[..|xs| - 1], xs[|xs| - 1];
      KeepElements(front, keep);
      assert xs == front + [last];
      ElementsSnoc(front, last);
      ElementsSnoc(Keep(front, keep), last);
    }
  }

  lemma {:induction false} DropElements<T>(xs: seq<T>, out: set<T>)
    ensures Elements(Drop(xs, out)) == Elements(xs) - out
  {
    if xs != [] {
      var front, last := xs[..|xs| - 1], xs[|xs| - 1];
      DropElements(front, out);
      assert xs == front + [last];
      ElementsSnoc(front, last);
      ElementsSnoc(Drop(front, out), last);
    }
  }

  /** `Distinct` keeps every element, once. */
  lemma {:induction false} DistinctElements<T>(xs: seq<T>)
    ensures Elements(Distinct(xs)) == Elements(xs)
    ensures forall i, j :: 0 <= i < j < |Distinct(xs)| ==> Distinct(xs)[i] != Distinct(xs)[j]
  {
    if xs != [] {
      var front, last := xs[..|xs| - 1], xs[|xs| - 1];
      DistinctElements(front);
      assert xs == front + [last];
      ElementsSnoc(front, last);
      ElementsSnoc(Distinct(front), last);
    }
  }

  ghost function Prefix<T>(xs: seq<T>, n: nat): seq<T> { xs[..Min(n, |xs|)] }

  lemma PrefixSnoc<T>(xs: seq<T>, x: T, n: nat)
    ensures |xs| <= n ==> Prefix(xs, n) == xs
    ensures Elements(Prefix(xs + [x], n)) == Elements(Prefix(xs, n)) + if |xs| < n then {x} else {}
  {
    ElementsSnoc(xs, x);
    if |xs| < n {
      assert Prefix(xs + [x], n) == xs + [x] && Prefix(xs, n) == xs;
    } else {
      assert Prefix(xs + [x], n) == Prefix(xs, n);
    }
  }

  lemma {:induction false} UniqueCount<T>(xs: seq<T>)
    requires forall i, j :: 0 <= i < j < |xs| ==> xs[i] != xs[j]
    ensures |Elements(xs)| == |xs|
  {
    if xs != [] {
      var front := xs[..|xs| - 1];
      UniqueCount(front);
      assert Elements(xs) == Elements(front) + {xs[|xs| - 1]};
    }
  }

  lemma SelectionSnoc<T>(xs: seq<T>, x: T, s: set<T>)
    ensures Keep(xs + [x], s) == Keep(xs, s) + if x in s then [x] else []
    ensures Drop(xs + [x], s) == Drop(xs, s) + if x in s then [] else [x]
    ensures Distinct(xs + [x]) == if x in Distinct(xs) then Distinct(xs) else Distinct(xs) + [x]
    ensures Keep(xs, s) + [] == Keep(xs, s) && Drop(xs, s) + [] == Drop(xs, s) && xs + [] == xs
  {
    assert (xs + [x])[..|xs + [x]| - 1] == xs;
  }

  /** Selections depend on the set only through the elements at hand. */
  lemma {:induction false} SelectionAgrees<T>(xs: seq<T>, a: set<T>, b: set<T>)
    requires forall x <- xs :: x in a <==> x in b
    ensures Keep(xs, a) == Keep(xs, b) && Drop(xs, a) == Drop(xs, b)
  {
    if xs != [] {
      SelectionAgrees(xs[..|xs| - 1], a, b);
    }
  }

  // ----- counting a relation

  ghost function Pairs<K, V>(m: map<K, set<V>>): set<(K, V)> {
    set k, v | k in m && v in m[k] :: (k, v)
  }

  /** The sum of the sizes of the values of `m`. */
  ghost function SumSizes<K, V>(m: map<K, set<V>>): nat
    decreases |m|
  {
    if m == map[] then 0
    else
      var k := Pick(m.Keys);
      |m[k]| + SumSizes(m - {k})
  }

  lemma {:induction false} TaggedCount<K, V>(k: K, vs: set<V>)
    ensures |set v | v in vs :: (k, v)| == |vs|
  {
    if vs != {} {
      var v := Pick(vs);
      TaggedCount(k, vs - {v});
      assert (set w | w in vs :: (k, w)) == (set w | w in vs - {v} :: (k, w)) + {(k, v)};
    }
  }

  /** Splitting the pairs of one key off a map. */
  lemma PairsWithout<K, V>(m: map<K, set<V>>, k: K)
    requires k in m
    ensures |Pairs(m)| == |m[k]| + |Pairs(m - {k})|
  {
    var tagged := set v | v in m[k] :: (k, v);
    TaggedCount(k, m[k]);
    assert Pairs(m) == tagged + Pairs(m - {k});
    assert tagged !! Pairs(m - {k});
  }

  lemma {:induction false} SumSizesCountsPairs<K, V>(m: map<K, set<V>>)
    ensures SumSizes(m) == |Pairs(m)|
    decreases |m|
  {
    if m != map[] {
      var k := Pick(m.Keys);
      SumSizesCountsPairs(m - {k});
      PairsWithout(m, k);
    }
  }

  lemma {:induction false} SwappedCount<K, V>(ps: set<(K, V)>)
    ensures |set p | p in ps :: (p.1, p.0)| == |ps|
  {
    if ps != {} {
      var q := Pick(ps);
      SwappedCount(ps - {q});
      assert (set p | p in ps :: (p.1, p.0)) == (set p | p in ps - {q} :: (p.1, p.0)) + {(q.1, q.0)};
    }
  }

  /** Every non-empty bucket contributes at least one pair. */
  lemma {:induction false} BucketsBoundedByPairs<K, V>(m: map<K, set<V>>)
    requires forall k <- m :: m[k] != {}
    ensures |m| <= |Pairs(m)|
    decreases |m|
  {
    if m != map[] {
      var k := Pick(m.Keys);
      BucketsBoundedByPairs(m - {k});
      PairsWithout(m, k);
    }
  }

  /** The map that sends every value to the keys whose bucket holds it. */
  ghost function Inverse<K, V>(m: map<K, set<V>>): map<V, set<K>> {
    map v | v in Held(m) :: Holders(m, v)
  }

  ghost function Held<K, V>(m: map<K, set<V>>): set<V> { set k, v | k in m && v in m[k] :: v }

  ghost function Holders<K, V>(m: map<K, set<V>>, v: V): set<K> { set k | k in m && v in m[k] }

  /** Double counting: both directions of a relation have the same total. */
  lemma InverseSameTotal<K, V>(m: map<K, set<V>>)
    ensures |Pairs(Inverse(m))| == |Pairs(m)|
    ensures |Inverse(m)| <= |Pairs(m)|
  {
    var swapped := set p | p in Pairs(m) :: (p.1, p.0);
    forall v, k ensures (v, k) in Pairs(Inverse(m)) <==> (v, k) in swapped {
      assert (v, k) in swapped <==> (k, v) in Pairs(m);
    }
    assert Pairs(Inverse(m)) == swapped;
    SwappedCount(Pairs(m));
    forall v | v in Inverse(m) ensures Inverse(m)[v] != {} {
      var k, w :| k in m && w in m[k] && w == v;
      assert k in Inverse(m)[v];
    }
    BucketsBoundedByPairs(Inverse(m));
  }
}
