/** A JavaScript `Map`: key-value pairs in insertion order, keys distinct. Setting a
    present key keeps its place, setting an absent one appends. */
module OrderedMap {
  import opened Prelude

  type OMap<K, V> = seq<(K, V)>

  function Keys<K, V>(m: OMap<K, V>): (r: seq<K>)
    ensures |r| == |m| && forall i :: 0 <= i < |r| ==> r[i] == m[i].0
  {
    seq(|m|, i requires 0 <= i < |m| => m[i].0)
  }

  predicate Has<K(==), V>(m: OMap<K, V>, k: K) {
    m != [] && (m[0].0 == k || Has(m[1..], k))
  }

  function Get<K(==), V>(m: OMap<K, V>, k: K): Option<V> {
    if m == [] then None
    else if m[0].0 == k then Some(m[0].1)
    else Get(m[1..], k)
  }

  function Put<K(==), V>(m: OMap<K, V>, k: K, v: V): OMap<K, V> {
    if m == [] then [(k, v)]
    else if m[0].0 == k then [(k, v)] + m[1..]
    else [m[0]] + Put(m[1..], k, v)
  }

  function Delete<K(==), V>(m: OMap<K, V>, k: K): OMap<K, V> {
    if m == [] then []
    else if m[0].0 == k then m[1..]
    else [m[0]] + Delete(m[1..], k)
  }

  /** No key occurs twice. */
  predicate Unique<K(==), V>(m: OMap<K, V>) {
    m == [] || (!Has(m[1..], m[0].0) && Unique(m[1..]))
  }

  function SumInt<K, V>(m: OMap<K, V>, w: V -> int): int {
    if m == [] then 0 else w(m[0].1) + SumInt(m[1..], w)
  }

  function SumReal<K, V>(m: OMap<K, V>, w: V -> real): real {
    if m == [] then 0.0 else w(m[0].1) + SumReal(m[1..], w)
  }

  lemma {:induction false} HasGet<K, V>(m: OMap<K, V>, k: K)
    ensures Has(m, k) <==> Get(m, k).Some?
    ensures Has(m, k) <==> exists i :: 0 <= i < |m| && m[i].0 == k
  {
    if m == [] {
    } else {
      HasGet(m[1..], k);
      assert forall i :: 0 < i < |m| ==> m[i] == m[1..][i - 1];
      assert forall i :: 0 <= i < |m[1..]| ==> m[1..][i] == m[i + 1];
    }
  }

  lemma {:induction false} PutGet<K, V>(m: OMap<K, V>, k: K, v: V, q: K)
    ensures Get(Put(m, k, v), q) == if q == k then Some(v) else Get(m, q)
    ensures Has(Put(m, k, v), q) <==> q == k || Has(m, q)
  {
    if m == [] || m[0].0 == k {
    } else {
      PutGet(m[1..], k, v, q);
    }
  }

  lemma {:induction false} PutUnique<K, V>(m: OMap<K, V>, k: K, v: V)
    requires Unique(m)
    ensures Unique(Put(m, k, v))
    ensures |Put(m, k, v)| == |m| + if Has(m, k) then 0 else 1
  {
    if m == [] || m[0].0 == k {
    } else {
      PutUnique(m[1..], k, v);
      PutGet(m[1..], k, v, m[0].0);
    }
  }

  lemma {:induction false} PutSumInt<K, V>(m: OMap<K, V>, k: K, v: V, w: V -> int)
    ensures SumInt(Put(m, k, v), w) == SumInt(m, w) + w(v) - match Get(m, k) { case None => 0 case Some(u) => w(u) }
  {
    if m == [] || m[0].0 == k {
    } else {
      PutSumInt(m[1..], k, v, w);
    }
  }

  lemma {:induction false} PutSumReal<K, V>(m: OMap<K, V>, k: K, v: V, w: V -> real)
    ensures SumReal(Put(m, k, v), w) == SumReal(m, w) + w(v) - match Get(m, k) { case None => 0.0 case Some(u) => w(u) }
  {
    if m == [] || m[0].0 == k {
    } else {
      PutSumReal(m[1..], k, v, w);
    }
  }

  lemma {:induction false} DeleteGet<K, V>(m: OMap<K, V>, k: K, q: K)
    requires Unique(m)
    ensures Get(Delete(m, k), q) == if q == k then None else Get(m, q)
    ensures Has(Delete(m, k), q) <==> q != k && Has(m, q)
    ensures Unique(Delete(m, k))
    ensures |Delete(m, k)| == |m| - if Has(m, k) then 1 else 0
  {
    if m == [] {
    } else {
      HasGet(m[1..], k);
      if m[0].0 != k {
        DeleteGet(m[1..], k, q);
        DeleteGet(m[1..], k, m[0].0);
      }
    }
  }

  lemma {:induction false} DeleteAbsent<K, V>(m: OMap<K, V>, k: K)
    requires !Has(m, k)
    ensures Delete(m, k) == m
  {
    if m == [] {
    } else {
      DeleteAbsent(m[1..], k);
    }
  }

  lemma {:induction false} PutAbsent<K, V>(m: OMap<K, V>, k: K, v: V)
    requires !Has(m, k)
    ensures Put(m, k, v) == m + [(k, v)]
  {
    if m == [] {
    } else {
      PutAbsent(m[1..], k, v);
    }
  }

  lemma {:induction false} HasKeys<K, V>(m: OMap<K, V>, k: K)
    ensures Has(m, k) <==> k in Keys(m)
  {
    if m == [] {
    } else {
      assert Keys(m) == [m[0].0] + Keys(m[1..]);
      HasKeys(m[1..], k);
    }
  }

  lemma DistinctCons<T>(x: T, s: seq<T>)
    ensures Distinct([x] + s) <==> x !in s && Distinct(s)
  {
    var all := [x] + s;
    assert forall i :: 0 <= i < |s| ==> all[i + 1] == s[i];
    if x in s {
      var i :| 0 <= i < |s| && s[i] == x;
      assert all[0] == all[i + 1];
    }
  }

  lemma {:induction false} UniqueKeys<K, V>(m: OMap<K, V>)
    ensures Unique(m) <==> Distinct(Keys(m))
  {
    if m == [] {
    } else {
      UniqueKeys(m[1..]);
      HasKeys(m[1..], m[0].0);
      DistinctCons(m[0].0, Keys(m[1..]));
      assert Keys(m) == [m[0].0] + Keys(m[1..]);
    }
  }

  lemma KeysOfAppend<K, V>(m: OMap<K, V>, k: K, v: V, n: nat)
    ensures Keys(Newest(m + [(k, v)], n)) == Newest(Keys(m) + [k], n)
  {
    assert Keys(m + [(k, v)]) == Keys(m) + [k];
    KeysOfNewest(m + [(k, v)], n);
  }

  lemma KeysOfNewest<K, V>(m: OMap<K, V>, n: nat)
    ensures Keys(Newest(m, n)) == Newest(Keys(m), n)
  {
  }

  /** Dropping older pairs does not change what a surviving key maps to. */
  lemma {:induction false} GetOfNewest<K, V>(m: OMap<K, V>, n: nat, k: K)
    requires Unique(m) && Has(Newest(m, n), k)
    ensures Get(Newest(m, n), k) == Get(m, k) && Has(m, k)
  {
    if |m| <= n {
    } else {
      assert Newest(m, n) == Newest(m[1..], n);
      GetOfNewest(m[1..], n, k);
    }
  }

  lemma {:induction false} GetAt<K, V>(m: OMap<K, V>, i: nat)
    requires Unique(m) && i < |m|
    ensures Get(m, m[i].0) == Some(m[i].1)
  {
    if i == 0 {
    } else {
      HasGet(m[1..], m[0].0);
      assert m[i] == m[1..][i - 1];
      GetAt(m[1..], i - 1);
    }
  }
}
