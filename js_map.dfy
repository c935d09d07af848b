/**
 * A JavaScript `Map`: a table with at most one entry per key that remembers the order in
 * which keys were first inserted (that is the order `forEach` visits them). It is kept
 * as the sequence of its entries in that order.
 */
module JsMap {
  import opened Base

  type Entries<K, V> = seq<(K, V)>

  /** `m.get(k)`. */
  function Get<K(==, !new), V(!new)>(m: Entries<K, V>, k: K): Option<V>
  {
    if m == [] then None else if m[0].0 == k then Some(m[0].1) else Get(m[1..], k)
  }

  /** No key occurs twice: the representation invariant of a `Map`. */
  predicate DistinctKeys<K(==, !new), V(!new)>(m: Entries<K, V>)
  {
    m == [] || (Get(m[1..], m[0].0).None? && DistinctKeys(m[1..]))
  }

  /** The keys in iteration order. */
  function Keys<K(==, !new), V(!new)>(m: Entries<K, V>): (ks: seq<K>)
    ensures |ks| == |m|
    ensures forall i :: 0 <= i < |m| ==> ks[i] == m[i].0
  {
    seq(|m|, i requires 0 <= i < |m| => m[i].0)
  }

  /** `get` finds a key exactly when some entry carries it, and then returns that entry's value. */
  lemma {:induction false} GetFindsEntry<K(!new), V(!new)>(m: Entries<K, V>, k: K)
    requires DistinctKeys(m)
    ensures Get(m, k).Some? <==> exists e :: e in m && e.0 == k
    ensures forall e :: e in m && e.0 == k ==> Get(m, k) == Some(e.1)
  {
    if m != [] {
      GetFindsEntry(m[1..], k);
      assert forall e :: e in m ==> e == m[0] || e in m[1..];
      if m[0].0 == k {
        assert forall e :: e in m[1..] ==> e.0 != k by {
          GetFindsEntry(m[1..], m[0].0);
        }
      }
    }
  }

  /**
   * `m.set(k, v)`: afterwards `k` maps to `v` and every other key to what it mapped to before.
   * An existing key keeps its place in the iteration order; a new key goes last.
   */
  function Set<K(==, !new), V(!new)>(m: Entries<K, V>, k: K, v: V): (r: Entries<K, V>)
    ensures Get(r, k) == Some(v)
    ensures forall k' :: k' != k ==> Get(r, k') == Get(m, k')
    ensures Get(m, k).Some? ==> Keys(r) == Keys(m)
    ensures Get(m, k).None? ==> r == m + [(k, v)]
    ensures forall e :: e in r ==> e == (k, v) || e in m
    ensures DistinctKeys(m) ==> DistinctKeys(r)
  {
    if m == [] then [(k, v)]
    else if m[0].0 == k then [(k, v)] + m[1..]
    else [m[0]] + Set(m[1..], k, v)
  }

  /**
   * `m.delete(k)`: afterwards `k` is absent and every other key maps to what it mapped to
   * before; the remaining entries keep their order.
   */
  function Delete<K(==, !new), V(!new)>(m: Entries<K, V>, k: K): (r: Entries<K, V>)
    ensures Get(r, k).None?
    ensures forall k' :: k' != k ==> Get(r, k') == Get(m, k')
    ensures forall e {:trigger e in r} :: e in r <==> e in m && e.0 != k
    ensures Get(m, k).None? ==> r == m
    ensures DistinctKeys(m) ==> DistinctKeys(r)
  {
    if m == [] then []
    else if m[0].0 == k then Delete(m[1..], k)
    else [m[0]] + Delete(m[1..], k)
  }

  /** Setting a key to the value it already has changes nothing. */
  lemma {:induction false} SetSameValue<K(!new), V(!new)>(m: Entries<K, V>, k: K)
    requires Get(m, k).Some?
    ensures Set(m, k, Get(m, k).value) == m
  {
    if m[0].0 != k {
      SetSameValue(m[1..], k);
    }
  }

  /** Deleting a key just set removes it again, when it was new. */
  lemma DeleteUndoesNewSet<K(!new), V(!new)>(m: Entries<K, V>, k: K, v: V)
    requires Get(m, k).None?
    ensures Delete(Set(m, k, v), k) == m
  {
    DeleteLast(m, k, v);
  }

  lemma {:induction false} DeleteLast<K(!new), V(!new)>(m: Entries<K, V>, k: K, v: V)
    requires Get(m, k).None?
    ensures Delete(m + [(k, v)], k) == m
  {
    if m != [] {
      assert (m + [(k, v)])[1..] == m[1..] + [(k, v)];
      DeleteLast(m[1..], k, v);
    }
  }

  /** Looking a key up in a table extended by one entry at the end. */
  lemma {:induction false} GetAppend<K(!new), V(!new)>(m: Entries<K, V>, k: K, v: V, k': K)
    ensures Get(m + [(k, v)], k') == if Get(m, k').Some? then Get(m, k') else if k' == k then Some(v) else None
  {
    if m != [] {
      assert (m + [(k, v)])[1..] == m[1..] + [(k, v)];
      GetAppend(m[1..], k, v, k');
    }
  }

  /**
   * In a table with distinct keys, deleting the key of entry `i` removes exactly that entry and
   * leaves the entries before and after it in their order.
   */
  lemma {:induction false} DeleteRemovesOne<K(!new), V(!new)>(m: Entries<K, V>, i: nat)
    requires DistinctKeys(m) && i < |m|
    ensures Delete(m, m[i].0) == m[..i] + m[i + 1..]
  {
    if i == 0 {
      DeleteHead(m);
    } else {
      var t, k := m[1..], m[i].0;
      assert t[i - 1] == m[i];
      GetPresent(t, i - 1);
      DeleteRemovesOne(t, i - 1);
      DeleteBehindHead(m[0], t, k, t[..i - 1], t[i..]);
      assert m == [m[0]] + t;
      assert m[..i] == [m[0]] + t[..i - 1];
      assert m[i + 1..] == t[i..];
    }
  }

  lemma DeleteHead<K(!new), V(!new)>(m: Entries<K, V>)
    requires DistinctKeys(m) && m != []
    ensures Delete(m, m[0].0) == m[..0] + m[1..]
  {
    assert m[..0] + m[1..] == m[1..];
  }

  /** An entry ahead of the deleted key stays ahead of what remains. */
  lemma DeleteBehindHead<K(!new), V(!new)>(x: (K, V), t: Entries<K, V>, k: K, a: Entries<K, V>, b: Entries<K, V>)
    requires x.0 != k && Delete(t, k) == a + b
    ensures Delete([x] + t, k) == ([x] + a) + b
  {
    assert ([x] + t)[1..] == t;
  }

  /** `get` finds the key of every entry. */
  lemma {:induction false} GetPresent<K(!new), V(!new)>(m: Entries<K, V>, j: nat)
    requires j < |m|
    ensures Get(m, m[j].0).Some?
  {
    if j > 0 && m[0].0 != m[j].0 {
      assert m[1..][j - 1] == m[j];
      GetPresent(m[1..], j - 1);
    }
  }
}
