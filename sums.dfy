/** Sums of a real-valued measure over the entries of a table, and the
    sub-table of entries that belong to one owner (a query by foreign key). */
module Sums {

  /** The sum of `f` over the entries of `m` whose keys are in `keys`. */
  ghost function Sum<K, V>(m: map<K, V>, keys: set<K>, f: V -> real): real
    requires keys <= m.Keys
    decreases keys
  {
    if keys == {} then 0.0
    else
      var k :| k in keys;
      f(m[k]) + Sum(m, keys - {k}, f)
  }

  /** The sum of `f` over the whole table. */
  ghost function Total<K, V>(m: map<K, V>, f: V -> real): real
  {
    Sum(m, m.Keys, f)
  }

  /** The entries of `m` whose owner is `o`: a lookup by foreign key. */
  function Of<K(!new), V, O(==)>(m: map<K, V>, owner: V -> O, o: O): (r: map<K, V>)
    ensures r.Keys <= m.Keys
    ensures forall k :: k in r <==> k in m && owner(m[k]) == o
    ensures forall k :: k in r ==> r[k] == m[k]
  {
    map k | k in m && owner(m[k]) == o :: m[k]
  }

  /** The entries of `m` whose owner is not `o`: what a delete by foreign key leaves. */
  function NotOf<K(!new), V, O(==)>(m: map<K, V>, owner: V -> O, o: O): (r: map<K, V>)
    ensures r.Keys <= m.Keys
    ensures forall k :: k in r <==> k in m && owner(m[k]) != o
    ensures forall k :: k in r ==> r[k] == m[k]
  {
    map k | k in m && owner(m[k]) != o :: m[k]
  }

  /** Any key can be taken out first: the sum does not depend on the order
      in which its keys are chosen. */
  lemma {:induction false} SumPick<K, V>(m: map<K, V>, keys: set<K>, f: V -> real, k: K)
    requires keys <= m.Keys && k in keys
    ensures Sum(m, keys, f) == f(m[k]) + Sum(m, keys - {k}, f)
  {
    var j :| j in keys && Sum(m, keys, f) == f(m[j]) + Sum(m, keys - {j}, f);
    if j != k {
      SumPick(m, keys - {j}, f, k);
      SumPick(m, keys - {k}, f, j);
      assert keys - {j} - {k} == keys - {k} - {j};
    }
  }

  /** Two tables that agree (under `f`) on `keys` have the same sum there. */
  lemma {:induction false} SumAgree<K, V>(m1: map<K, V>, m2: map<K, V>, keys: set<K>, f: V -> real)
    requires keys <= m1.Keys && keys <= m2.Keys
    requires forall k :: k in keys ==> f(m1[k]) == f(m2[k])
    ensures Sum(m1, keys, f) == Sum(m2, keys, f)
  {
    if keys != {} {
      var k :| k in keys && Sum(m1, keys, f) == f(m1[k]) + Sum(m1, keys - {k}, f);
      SumPick(m2, keys, f, k);
      SumAgree(m1, m2, keys - {k}, f);
    }
  }

  lemma TotalInsert<K, V>(m: map<K, V>, k: K, v: V, f: V -> real)
    requires k !in m
    ensures Total(m[k := v], f) == Total(m, f) + f(v)
  {
    var m' := m[k := v];
    SumPick(m', m'.Keys, f, k);
    assert m'.Keys - {k} == m.Keys;
    SumAgree(m', m, m.Keys, f);
  }

  lemma TotalRemove<K, V>(m: map<K, V>, k: K, f: V -> real)
    requires k in m
    ensures Total(m - {k}, f) == Total(m, f) - f(m[k])
  {
    var m' := m - {k};
    SumPick(m, m.Keys, f, k);
    assert m.Keys - {k} == m'.Keys;
    SumAgree(m, m', m'.Keys, f);
  }

  lemma TotalUpdate<K, V>(m: map<K, V>, k: K, v: V, f: V -> real)
    requires k in m
    ensures Total(m[k := v], f) == Total(m, f) - f(m[k]) + f(v)
  {
    var m' := m[k := v];
    SumPick(m, m.Keys, f, k);
    SumPick(m', m'.Keys, f, k);
    assert m'.Keys - {k} == m.Keys - {k};
    SumAgree(m, m', m.Keys - {k}, f);
  }

  // How a table change moves the sum over one owner's entries.

  lemma OfInsert<K(!new), V, O>(m: map<K, V>, k: K, v: V, owner: V -> O, o: O, f: V -> real)
    requires k !in m
    ensures Total(Of(m[k := v], owner, o), f)
         == Total(Of(m, owner, o), f) + (if owner(v) == o then f(v) else 0.0)
  {
    if owner(v) == o {
      assert Of(m[k := v], owner, o) == Of(m, owner, o)[k := v];
      TotalInsert(Of(m, owner, o), k, v, f);
    } else {
      assert Of(m[k := v], owner, o) == Of(m, owner, o);
    }
  }

  lemma OfRemove<K(!new), V, O>(m: map<K, V>, k: K, owner: V -> O, o: O, f: V -> real)
    requires k in m
    ensures Total(Of(m - {k}, owner, o), f)
         == Total(Of(m, owner, o), f) - (if owner(m[k]) == o then f(m[k]) else 0.0)
  {
    if owner(m[k]) == o {
      assert Of(m - {k}, owner, o) == Of(m, owner, o) - {k};
      TotalRemove(Of(m, owner, o), k, f);
    } else {
      assert Of(m - {k}, owner, o) == Of(m, owner, o);
    }
  }

  /** Replacing an entry by one with the same owner. */
  lemma OfUpdate<K(!new), V, O>(m: map<K, V>, k: K, v: V, owner: V -> O, o: O, f: V -> real)
    requires k in m && owner(v) == owner(m[k])
    ensures Total(Of(m[k := v], owner, o), f)
         == Total(Of(m, owner, o), f) + (if owner(v) == o then f(v) - f(m[k]) else 0.0)
  {
    if owner(v) == o {
      assert Of(m[k := v], owner, o) == Of(m, owner, o)[k := v];
      TotalUpdate(Of(m, owner, o), k, v, f);
    } else {
      assert Of(m[k := v], owner, o) == Of(m, owner, o);
    }
  }

  /** Dropping every entry of owner `o` leaves the other owners' sums alone. */
  lemma NotOfFrame<K(!new), V, O>(m: map<K, V>, owner: V -> O, o: O, o': O)
    requires o' != o
    ensures Of(NotOf(m, owner, o), owner, o') == Of(m, owner, o')
  {
  }

  /** A table where nobody is owned by `o` has nothing to sum for `o`. */
  lemma OfNone<K(!new), V, O>(m: map<K, V>, owner: V -> O, o: O, f: V -> real)
    requires forall k :: k in m ==> owner(m[k]) != o
    ensures Total(Of(m, owner, o), f) == 0.0
  {
    assert Of(m, owner, o) == map[];
  }
}
