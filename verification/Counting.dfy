/** Counting positions and summing over them: what the loops that count and add up are
    compared with. */
module Counting {
  import opened Prelude
  import opened OrderedMap
  import opened Sorting

  /** How many of the positions below `n` have the property. */
  function HowMany(n: nat, p: nat -> bool): nat { |set i: nat | i < n && p(i)| }

  function SumTo(n: nat, f: nat -> real): real { if n == 0 then 0.0 else SumTo(n - 1, f) + f(n - 1) }

  lemma HowManyNext(n: nat, p: nat -> bool)
    ensures HowMany(n + 1, p) == HowMany(n, p) + if p(n) then 1 else 0
    ensures HowMany(0, p) == 0
  {
    var now := set i: nat | i < n && p(i);
    assert (set i: nat | i < n + 1 && p(i)) == if p(n) then now + {n} else now;
    assert (set i: nat | i < 0 && p(i)) == {};
  }

  lemma {:induction false} HowManyAgrees(n: nat, p: nat -> bool, q: nat -> bool)
    requires forall i: nat :: i < n ==> p(i) == q(i)
    ensures HowMany(n, p) == HowMany(n, q)
  {
    assert (set i: nat | i < n && p(i)) == (set i: nat | i < n && q(i));
  }

  lemma {:induction false} SumToAgrees(n: nat, f: nat -> real, g: nat -> real)
    requires forall i: nat :: i < n ==> f(i) == g(i)
    ensures SumTo(n, f) == SumTo(n, g)
  {
    if n == 0 {
    } else {
      SumToAgrees(n - 1, f, g);
    }
  }

  lemma {:induction false} HowManyWithin(n: nat, p: nat -> bool, lo: nat, hi: nat)
    requires forall i: nat :: i < n && p(i) ==> lo <= i < hi
    requires lo <= hi
    ensures HowMany(n, p) <= (if n <= lo then 0 else if n <= hi then n - lo else hi - lo)
  {
    if n == 0 {
      HowManyNext(0, p);
    } else {
      HowManyWithin(n - 1, p, lo, hi);
      HowManyNext(n - 1, p);
    }
  }

  lemma {:induction false} HowManyGrows(n: nat, p: nat -> bool, q: nat -> bool)
    requires forall i: nat :: i < n && p(i) ==> q(i)
    ensures HowMany(n, p) <= HowMany(n, q)
  {
    if n == 0 {
      HowManyNext(0, p);
    } else {
      HowManyGrows(n - 1, p, q);
      HowManyNext(n - 1, p);
      HowManyNext(n - 1, q);
    }
  }

  lemma {:induction false} HowManyCover(n: nat, p: nat -> bool, q: nat -> bool)
    requires forall i: nat :: i < n ==> p(i) || q(i)
    ensures HowMany(n, p) + HowMany(n, q) >= n
  {
    if n == 0 {
      HowManyNext(0, p);
    } else {
      HowManyCover(n - 1, p, q);
      HowManyNext(n - 1, p);
      HowManyNext(n - 1, q);
    }
  }

  function At<T>(s: seq<T>, p: T -> bool): nat -> bool { (i: nat) => i < |s| && p(s[i]) }

  /** What a filter keeps is as many as there are positions that have the property. */
  lemma {:induction false} FilterCounts<T>(s: seq<T>, p: T -> bool)
    ensures |Filter(s, p)| == HowMany(|s|, At(s, p))
  {
    if s == [] {
      HowManyNext(0, At(s, p));
    } else {
      var init := s[..|s| - 1];
      FilterCounts(init, p);
      HowManyNext(|init|, At(s, p));
      HowManyAgrees(|init|, At(init, p), At(s, p));
    }
  }

  lemma {:induction false} SumIntLast<K, V>(m: OMap<K, V>, w: V -> int)
    requires m != []
    ensures SumInt(m, w) == SumInt(m[..|m| - 1], w) + w(m[|m| - 1].1)
  {
    if |m| == 1 {
    } else {
      SumIntLast(m[1..], w);
      assert m[..|m| - 1][1..] == m[1..][..|m[1..]| - 1];
    }
  }

  lemma {:induction false} SumRealLast<K, V>(m: OMap<K, V>, w: V -> real)
    requires m != []
    ensures SumReal(m, w) == SumReal(m[..|m| - 1], w) + w(m[|m| - 1].1)
  {
    if |m| == 1 {
    } else {
      SumRealLast(m[1..], w);
      assert m[..|m| - 1][1..] == m[1..][..|m[1..]| - 1];
    }
  }
}
