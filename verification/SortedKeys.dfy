/** `sorted(d.keys())`: the strictly ascending enumeration of a finite set of keys. */
module SortedKeys {

  ghost predicate TotalOrder<K(!new)>(le: (K, K) -> bool) {
    && (forall a, b :: le(a, b) || le(b, a))
    && (forall a, b :: le(a, b) && le(b, a) ==> a == b)
    && (forall a, b, c :: le(a, b) && le(b, c) ==> le(a, c))
  }

  predicate IntLe(a: int, b: int) { a <= b }

  predicate RealLe(a: real, b: real) { a <= b }

  predicate RealGe(a: real, b: real) { a >= b }

  predicate IsLeast<K(!new, ==)>(keys: set<K>, le: (K, K) -> bool, k: K) {
    k in keys && forall j <- keys :: le(k, j)
  }

  lemma {:induction false} LeastExists<K(!new)>(keys: set<K>, le: (K, K) -> bool)
    requires TotalOrder(le) && keys != {}
    ensures exists k :: IsLeast(keys, le, k)
  {
    var x :| x in keys;
    if keys == {x} {
      assert IsLeast(keys, le, x);
    } else {
      var rest := keys - {x};
      LeastExists(rest, le);
      var k :| IsLeast(rest, le, k);
      assert IsLeast(keys, le, if le(x, k) then x else k);
    }
  }

  function Least<K(!new, ==)>(keys: set<K>, le: (K, K) -> bool): (k: K)
    requires TotalOrder(le) && keys != {}
    ensures k in keys && forall j <- keys :: le(k, j)
  {
    LeastExists(keys, le);
    var k :| k in keys && IsLeast(keys, le, k);
    k
  }

  function Sorted<K(!new, ==)>(keys: set<K>, le: (K, K) -> bool): (ks: seq<K>)
    requires TotalOrder(le)
    ensures forall k :: k in ks <==> k in keys
    ensures forall i, j :: 0 <= i < j < |ks| ==> le(ks[i], ks[j]) && ks[i] != ks[j]
  {
    if keys == {} then []
    else
      var k := Least(keys, le);
      [k] + Sorted(keys - {k}, le)
  }

  /** A strictly ascending enumeration of the keys is the only one. */
  lemma {:induction false} SortedUnique<K(!new)>(keys: set<K>, le: (K, K) -> bool, ks: seq<K>)
    requires TotalOrder(le) && forall k :: k in ks <==> k in keys
    requires forall i, j :: 0 <= i < j < |ks| ==> le(ks[i], ks[j]) && ks[i] != ks[j]
    ensures ks == Sorted(keys, le)
    decreases |ks|
  {
    if ks == [] {
      assert keys == {};
    } else {
      assert ks[0] in ks;
      var least, rest := Least(keys, le), ks[1..];
      assert least in ks;
      var j :| 0 <= j < |ks| && ks[j] == least;
      assert le(ks[0], least) && le(least, ks[0]);
      assert ks == [least] + rest;
      forall k ensures k in rest <==> k in keys - {least} {
        if k in rest {
          var i :| 0 <= i < |rest| && rest[i] == k;
          assert ks[i + 1] == k;
        }
      }
      SortedUnique(keys - {least}, le, rest);
    }
  }
}
