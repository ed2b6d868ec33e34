/** Bounded maps that give up their first key: the rule by which every cache of the root-cause engine is trimmed. */
module KeyOrder {
  import opened Entities
  import opened IdOrder

  // ---------- Orders ----------

  ghost predicate TotalOrder<K(!new)>(less: (K, K) -> bool) {
    && (forall a, b :: less(a, b) ==> !less(b, a))
    && (forall a, b :: a != b ==> less(a, b) || less(b, a))
    && (forall a, b, c :: less(a, b) && less(b, c) ==> less(a, c))
  }

  predicate NumberLess(a: nat, b: nat) {
    a < b
  }

  predicate NetnsLess(a: NetnsId, b: NetnsId) {
    if a.device != b.device then a.device < b.device else a.inode < b.inode
  }

  lemma NumberOrder()
    ensures TotalOrder(NumberLess)
  {
  }

  lemma NetnsOrder()
    ensures TotalOrder(NetnsLess)
  {
  }

  lemma SocketOrder()
    ensures TotalOrder(IdLess)
  {
  }

  // ---------- The first key ----------

  predicate IsFirst<K(==)>(x: K, keys: set<K>, less: (K, K) -> bool) {
    x in keys && forall y :: y in keys && y != x ==> less(x, y)
  }

  lemma {:induction false} FirstExists<K(!new)>(keys: set<K>, less: (K, K) -> bool)
    requires TotalOrder(less) && keys != {}
    ensures exists x :: x in keys && IsFirst(x, keys, less)
    decreases |keys|
  {
    var a :| a in keys;
    if keys == {a} {
      assert IsFirst(a, keys, less);
    } else {
      FirstExists(keys - {a}, less);
      var b :| b in keys - {a} && IsFirst(b, keys - {a}, less);
      var x := if less(a, b) then a else b;
      forall y | y in keys && y != x
        ensures less(x, y)
      {
        if y != a { assert y in keys - {a}; }
      }
      assert IsFirst(x, keys, less);
    }
  }

  ghost function First<K(!new)>(keys: set<K>, less: (K, K) -> bool): (x: K)
    requires TotalOrder(less) && keys != {}
    ensures IsFirst(x, keys, less)
  {
    FirstExists(keys, less);
    var x :| x in keys && IsFirst(x, keys, less);
    x
  }

  lemma FirstUnique<K(!new)>(keys: set<K>, less: (K, K) -> bool, a: K, b: K)
    requires TotalOrder(less) && IsFirst(a, keys, less) && IsFirst(b, keys, less)
    ensures a == b
  {
  }

  // ---------- Trimming ----------

  predicate Submap<K(==), V(==)>(a: map<K, V>, b: map<K, V>) {
    forall k :: k in a ==> k in b && a[k] == b[k]
  }

  /** While there are too many entries, the first goes. */
  ghost function Trimmed<K(!new), V>(m: map<K, V>, bound: nat, less: (K, K) -> bool): map<K, V>
    requires TotalOrder(less)
    decreases |m|
  {
    if |m| <= bound then m else Trimmed(m - {First(m.Keys, less)}, bound, less)
  }

  /** As many of the last entries as the bound allows, unchanged. */
  ghost predicate HoldsLast<K, V>(t: map<K, V>, m: map<K, V>, bound: nat, less: (K, K) -> bool) {
    && Submap(t, m) && |t| == (if |m| <= bound then |m| else bound)
    && forall a, b :: a in t && b in m && b !in t ==> less(b, a)
  }

  lemma {:induction false} TrimmedHoldsLast<K(!new), V>(m: map<K, V>, bound: nat, less: (K, K) -> bool)
    requires TotalOrder(less)
    ensures HoldsLast(Trimmed(m, bound, less), m, bound, less)
    ensures |m| <= bound ==> Trimmed(m, bound, less) == m
    decreases |m|
  {
    if |m| > bound {
      var x := First(m.Keys, less);
      TrimmedHoldsLast(m - {x}, bound, less);
      assert |(m - {x}).Keys| == |m.Keys| - 1;
    }
  }

  /** That description leaves no choice. */
  lemma LastIsUnique<K(!new), V>(t: map<K, V>, u: map<K, V>, m: map<K, V>, bound: nat, less: (K, K) -> bool)
    requires TotalOrder(less) && HoldsLast(t, m, bound, less) && HoldsLast(u, m, bound, less)
    ensures t == u
  {
    if !(t.Keys <= u.Keys) {
      var a :| a in t && a !in u;
      assert u.Keys <= t.Keys by {
        forall b | b in u
          ensures b in t
        {
          assert less(a, b) && !less(b, a);
        }
      }
      assert u.Keys <= t.Keys - {a} && |t.Keys - {a}| == |t.Keys| - 1;
      SubsetSize(u.Keys, t.Keys - {a});
    } else {
      SubsetSize(t.Keys, u.Keys);
    }
    assert t.Keys == u.Keys;
  }

  lemma SubsetSize<K>(a: set<K>, b: set<K>)
    requires a <= b
    ensures |a| <= |b| && (|a| == |b| ==> a == b)
  {
    assert b == a + (b - a) && |b| == |a| + |b - a|;
  }

  lemma TrimmedIff<K(!new), V>(t: map<K, V>, m: map<K, V>, bound: nat, less: (K, K) -> bool)
    requires TotalOrder(less)
    ensures t == Trimmed(m, bound, less) <==> HoldsLast(t, m, bound, less)
  {
    TrimmedHoldsLast(m, bound, less);
    if HoldsLast(t, m, bound, less) {
      LastIsUnique(t, Trimmed(m, bound, less), m, bound, less);
    }
  }

  method Trim<K(==, !new), V>(m: map<K, V>, bound: nat, less: (K, K) -> bool) returns (t: map<K, V>)
    requires TotalOrder(less)
    ensures t == Trimmed(m, bound, less)
  {
    t := m;
    while |t| > bound
      invariant Trimmed(t, bound, less) == Trimmed(m, bound, less)
      decreases |t|
    {
      FirstExists(t.Keys, less);
      var k :| k in t.Keys && IsFirst(k, t.Keys, less);
      FirstUnique(t.Keys, less, k, First(t.Keys, less));
      assert |(t - {k}).Keys| == |t.Keys| - 1;
      t := t - {k};
    }
  }
}
