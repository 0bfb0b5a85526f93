/** `Array.prototype.sort` with a comparator: a stable sort. `le(a, b)` stands for
    "the comparator does not put b before a". */
module Sorting {
  import opened Prelude

  ghost predicate TotalPreorder<T(!new)>(le: (T, T) -> bool) {
    && (forall x, y :: le(x, y) || le(y, x))
    && (forall x, y, z :: le(x, y) && le(y, z) ==> le(x, z))
  }

  function Insert<T>(s: seq<T>, x: T, le: (T, T) -> bool): seq<T> {
    if s == [] || le(s[|s| - 1], x) then s + [x]
    else Insert(s[..|s| - 1], x, le) + [s[|s| - 1]]
  }

  function StableSort<T>(s: seq<T>, le: (T, T) -> bool): (r: seq<T>)
  {
    if s == [] then [] else Insert(StableSort(s[..|s| - 1], le), s[|s| - 1], le)
  }

  predicate SortedBy<T>(s: seq<T>, le: (T, T) -> bool) {
    |s| <= 1 || (le(s[|s| - 2], s[|s| - 1]) && SortedBy(s[..|s| - 1], le))
  }

  function Filter<T>(s: seq<T>, p: T -> bool): seq<T> {
    if s == [] then []
    else Filter(s[..|s| - 1], p) + if p(s[|s| - 1]) then [s[|s| - 1]] else []
  }

  lemma {:induction false} FilterMembers<T>(s: seq<T>, p: T -> bool, x: T)
    ensures x in Filter(s, p) <==> x in s && p(x)
  {
    if s == [] {
    } else {
      FilterMembers(s[..|s| - 1], p, x);
      assert s == s[..|s| - 1] + [s[|s| - 1]];
    }
  }

  lemma {:induction false} FilterKeepsDistinct<T>(s: seq<T>, p: T -> bool)
    requires Distinct(s)
    ensures Distinct(Filter(s, p))
  {
    if s == [] {
    } else {
      FilterKeepsDistinct(s[..|s| - 1], p);
      FilterMembers(s[..|s| - 1], p, s[|s| - 1]);
    }
  }

  lemma {:induction false} InsertPermutes<T>(s: seq<T>, x: T, le: (T, T) -> bool)
    ensures multiset(Insert(s, x, le)) == multiset(s) + multiset{x}
  {
    if s == [] || le(s[|s| - 1], x) {
    } else {
      InsertPermutes(s[..|s| - 1], x, le);
      assert s == s[..|s| - 1] + [s[|s| - 1]];
    }
  }

  lemma {:induction false} SortPermutes<T>(s: seq<T>, le: (T, T) -> bool)
    ensures multiset(StableSort(s, le)) == multiset(s)
    ensures |StableSort(s, le)| == |s|
  {
    if s == [] {
    } else {
      SortPermutes(s[..|s| - 1], le);
      InsertPermutes(StableSort(s[..|s| - 1], le), s[|s| - 1], le);
      assert s == s[..|s| - 1] + [s[|s| - 1]];
    }
    assert |multiset(StableSort(s, le))| == |multiset(s)|;
  }

  lemma {:induction false} InsertSorted<T(!new)>(s: seq<T>, x: T, le: (T, T) -> bool)
    requires TotalPreorder(le) && SortedBy(s, le)
    ensures SortedBy(Insert(s, x, le), le)
    ensures var r := Insert(s, x, le); r[|r| - 1] == x || (s != [] && r[|r| - 1] == s[|s| - 1])
  {
    if s == [] || le(s[|s| - 1], x) {
      assert (s + [x])[..|s|] == s;
    } else {
      var init, last := s[..|s| - 1], s[|s| - 1];
      InsertSorted(init, x, le);
      var r := Insert(init, x, le);
      assert (r + [last])[..|r|] == r;
    }
  }

  lemma {:induction false} SortSorts<T(!new)>(s: seq<T>, le: (T, T) -> bool)
    requires TotalPreorder(le)
    ensures SortedBy(StableSort(s, le), le)
  {
    if s == [] {
    } else {
      SortSorts(s[..|s| - 1], le);
      InsertSorted(StableSort(s[..|s| - 1], le), s[|s| - 1], le);
    }
  }

  /** Sorting what is sorted changes nothing, so sorting twice is sorting once. */
  lemma {:induction false} SortOfSorted<T>(s: seq<T>, le: (T, T) -> bool)
    requires SortedBy(s, le)
    ensures StableSort(s, le) == s
  {
    if s == [] {
    } else {
      SortOfSorted(s[..|s| - 1], le);
    }
  }

  lemma {:induction false} FilterAppend<T>(a: seq<T>, b: seq<T>, p: T -> bool)
    ensures Filter(a + b, p) == Filter(a, p) + Filter(b, p)
  {
    if b == [] {
      assert a + b == a;
    } else {
      FilterAppend(a, b[..|b| - 1], p);
      assert (a + b)[..|a + b| - 1] == a + b[..|b| - 1];
    }
  }

  /** Stability: within a class of elements the comparator cannot tell apart, the
      original order survives. */
  lemma {:induction false} SortIsStable<T(!new)>(s: seq<T>, le: (T, T) -> bool, p: T -> bool)
    requires forall x, y :: p(x) && p(y) ==> le(x, y)
    ensures Filter(StableSort(s, le), p) == Filter(s, p)
  {
    if s == [] {
    } else {
      SortIsStable(s[..|s| - 1], le, p);
      InsertIsStable(StableSort(s[..|s| - 1], le), s[|s| - 1], le, p);
    }
  }

  lemma {:induction false} InsertIsStable<T(!new)>(s: seq<T>, x: T, le: (T, T) -> bool, p: T -> bool)
    requires forall x, y :: p(x) && p(y) ==> le(x, y)
    ensures Filter(Insert(s, x, le), p) == Filter(s, p) + if p(x) then [x] else []
  {
    if s == [] || le(s[|s| - 1], x) {
      assert (s + [x])[..|s|] == s;
    } else {
      var init, last := s[..|s| - 1], s[|s| - 1];
      InsertIsStable(init, x, le, p);
      var r := Insert(init, x, le);
      assert (r + [last])[..|r|] == r;
    }
  }

  lemma {:induction false} LastIsGreatest<T(!new)>(s: seq<T>, le: (T, T) -> bool, x: T)
    requires TotalPreorder(le) && SortedBy(s, le) && x in s
    ensures le(x, s[|s| - 1])
  {
    if |s| <= 1 || x == s[|s| - 1] {
    } else {
      assert s == s[..|s| - 1] + [s[|s| - 1]];
      LastIsGreatest(s[..|s| - 1], le, x);
    }
  }

  lemma SameElements<T>(a: seq<T>, b: seq<T>)
    requires multiset(a) == multiset(b)
    ensures |a| == |b| && forall x :: x in a <==> x in b
  {
    assert |multiset(a)| == |multiset(b)|;
    assert forall x :: x in a <==> x in multiset(a);
  }

  lemma DropSameLast<T>(a: seq<T>, b: seq<T>)
    requires multiset(a) == multiset(b) && a != [] && b != [] && a[|a| - 1] == b[|b| - 1]
    ensures multiset(a[..|a| - 1]) == multiset(b[..|b| - 1])
  {
    assert a == a[..|a| - 1] + [a[|a| - 1]] && b == b[..|b| - 1] + [b[|b| - 1]];
    assert multiset(a[..|a| - 1]) == multiset(a) - multiset{a[|a| - 1]};
  }

  /** With an antisymmetric order there is only one sorted arrangement. */
  lemma {:induction false} SortedIsUnique<T(!new)>(a: seq<T>, b: seq<T>, le: (T, T) -> bool)
    requires TotalPreorder(le) && SortedBy(a, le) && SortedBy(b, le)
    requires forall x, y :: le(x, y) && le(y, x) ==> x == y
    requires multiset(a) == multiset(b)
    ensures a == b
  {
    SameElements(a, b);
    if a == [] {
    } else {
      LastIsGreatest(a, le, b[|b| - 1]);
      LastIsGreatest(b, le, a[|a| - 1]);
      DropSameLast(a, b);
      SortedIsUnique(a[..|a| - 1], b[..|b| - 1], le);
    }
  }

  /** Removing one element from a sequence. */
  function Drop<T>(s: seq<T>, i: nat): seq<T>
    requires i < |s|
  {
    s[..i] + s[i + 1..]
  }

  lemma {:induction false} FilterDrop<T>(s: seq<T>, i: nat, p: T -> bool)
    requires i < |s|
    ensures |Filter(s, p)| == |Filter(Drop(s, i), p)| + if p(s[i]) then 1 else 0
  {
    if i < |s| - 1 {
      FilterDrop(s[..|s| - 1], i, p);
      var d := Drop(s, i);
      assert d[..|d| - 1] == Drop(s[..|s| - 1], i);
    } else {
      assert Drop(s, i) == s[..i];
    }
  }

  lemma DropMultiset<T>(s: seq<T>, i: nat)
    requires i < |s|
    ensures multiset(s) == multiset(Drop(s, i)) + multiset{s[i]}
  {
    assert s == s[..i] + [s[i]] + s[i + 1..];
  }

  /** Two arrangements of the same results: drop the last of one and its twin. */
  lemma Twin<T>(a: seq<T>, b: seq<T>) returns (i: nat)
    requires a != [] && multiset(a) == multiset(b)
    ensures i < |b| && b[i] == a[|a| - 1] && multiset(a[..|a| - 1]) == multiset(Drop(b, i))
  {
    assert a == a[..|a| - 1] + [a[|a| - 1]];
    assert a[|a| - 1] in multiset(b);
    i :| 0 <= i < |b| && b[i] == a[|a| - 1];
    DropMultiset(b, i);
    assert multiset(a[..|a| - 1]) == multiset(a) - multiset{b[i]};
  }

  lemma {:induction false} FilterPermutes<T>(a: seq<T>, b: seq<T>, p: T -> bool)
    requires multiset(a) == multiset(b)
    ensures |Filter(a, p)| == |Filter(b, p)|
  {
    SameElements(a, b);
    if a == [] {
    } else {
      var i := Twin(a, b);
      FilterPermutes(a[..|a| - 1], Drop(b, i), p);
      FilterDrop(b, i, p);
    }
  }
}
