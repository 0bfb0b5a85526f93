/** packages/cli/src/picker.ts: filtering and ordering providers and models, reading
    raw key chunks, and rendering the window in which one row is marked. */
module Picker {
  import opened Prelude
  import opened OrderedMap
  import opened Sorting

  const LIVE_PICKER_MAX_VISIBLE: nat := 15

  datatype Provider = Provider(id: string, name: string, family: string)

  datatype Model = Model(id: string, name: string, releaseDate: string)

  // -------------------------------------------------------------- filtering

  predicate Includes(s: string, q: string) {
    q <= s || (s != "" && Includes(s[1..], q))
  }

  function Folded(query: string): string { Lower(Trim(query)) }

  function ProviderMatches(query: string): Provider -> bool {
    (p: Provider) => Folded(query) == "" || Includes(Lower(p.id), Folded(query)) || Includes(Lower(p.name), Folded(query))
  }

  function ModelMatches(query: string): Model -> bool {
    (m: Model) => Folded(query) == "" || Includes(Lower(m.id), Folded(query)) || Includes(Lower(m.name), Folded(query))
  }

  // --------------------------------------------------------------- ordering

  const PREFERRED: seq<string> :=
    ["anthropic", "anthropic-oauth", "openai", "openai-codex", "github-copilot", "google", "openai-compatible"]

  function OfFamily(family: string): Provider -> bool { (p: Provider) => p.family == family }

  function InFamilies(families: seq<string>): Provider -> bool { (p: Provider) => p.family in families }

  function Among(list: seq<string>): string -> bool { (f: string) => f in list }

  function NotAmong(list: seq<string>): string -> bool { (f: string) => f !in list }

  /** Families in order of first appearance. */
  function Families(ps: seq<Provider>): seq<string> {
    if ps == [] then []
    else
      var seen, f := Families(ps[..|ps| - 1]), ps[|ps| - 1].family;
      if f in seen then seen else seen + [f]
  }

  function FamilyOrder(ps: seq<Provider>): seq<string> {
    Filter(PREFERRED, Among(Families(ps))) + Filter(Families(ps), NotAmong(PREFERRED))
  }

  /** One section per family, each sorted by id. `le` is the locale's order of
      lower-cased ids. */
  function Sections(ps: seq<Provider>, families: seq<string>, le: (Provider, Provider) -> bool): seq<Provider> {
    if families == [] then []
    else Sections(ps, families[..|families| - 1], le) + StableSort(Filter(ps, OfFamily(families[|families| - 1])), le)
  }

  function Ordered(ps: seq<Provider>, le: (Provider, Provider) -> bool): seq<Provider> {
    Sections(ps, FamilyOrder(ps), le)
  }

  /** The grouping map the loop builds. */
  function Grouped(ps: seq<Provider>): OMap<string, seq<Provider>> {
    if ps == [] then []
    else
      var m, p := Grouped(ps[..|ps| - 1]), ps[|ps| - 1];
      Put(m, p.family, (match Get(m, p.family) case Some(a) => a case None => []) + [p])
  }

  lemma {:induction false} GroupedKeys(ps: seq<Provider>)
    ensures Keys(Grouped(ps)) == Families(ps) && Unique(Grouped(ps))
  {
    if ps == [] {
    } else {
      var init, p := ps[..|ps| - 1], ps[|ps| - 1];
      GroupedKeys(init);
      var m := Grouped(init);
      var v := (match Get(m, p.family) case Some(a) => a case None => []) + [p];
      PutUnique(m, p.family, v);
      HasKeys(m, p.family);
      if Has(m, p.family) { PutKeys(m, p.family, v); } else { PutAbsent(m, p.family, v); }
    }
  }

  lemma {:induction false} GroupedIs(ps: seq<Provider>, f: string)
    ensures Get(Grouped(ps), f) == if f in Families(ps) then Some(Filter(ps, OfFamily(f))) else None
  {
    if ps == [] {
    } else {
      var init, p := ps[..|ps| - 1], ps[|ps| - 1];
      GroupedIs(init, f);
      var m := Grouped(init);
      PutGet(m, p.family, (match Get(m, p.family) case Some(a) => a case None => []) + [p], f);
      NoneOfFamily(init, f);
      var own := Filter(init, OfFamily(f));
      assert own + [] == own;
    }
  }

  lemma {:induction false} PutKeys<K, V>(m: OMap<K, V>, k: K, v: V)
    requires Has(m, k)
    ensures Keys(Put(m, k, v)) == Keys(m)
  {
    if m[0].0 == k {
      assert Put(m, k, v)[1..] == m[1..];
    } else {
      PutKeys(m[1..], k, v);
      assert Keys(m) == [m[0].0] + Keys(m[1..]);
      assert Keys(Put(m, k, v)) == [m[0].0] + Keys(Put(m[1..], k, v));
    }
  }

  lemma {:induction false} NoneOfFamily(ps: seq<Provider>, f: string)
    ensures Filter(ps, OfFamily(f)) == [] <==> f !in Families(ps)
  {
    if ps == [] {
    } else {
      NoneOfFamily(ps[..|ps| - 1], f);
    }
  }

  method GroupByFamily(filtered: seq<Provider>) returns (families: OMap<string, seq<Provider>>)
    ensures families == Grouped(filtered)
  {
    families := [];
    for i := 0 to |filtered|
      invariant families == Grouped(filtered[..i])
    {
      assert filtered[..i + 1][..i] == filtered[..i];
      var arr := Get(families, filtered[i].family);
      families := Put(families, filtered[i].family, (if arr.Some? then arr.value else []) + [filtered[i]]);
    }
    assert filtered[..|filtered|] == filtered;
  }

  method OrderProvidersForDisplay(filtered: seq<Provider>, le: (Provider, Provider) -> bool) returns (flat: seq<Provider>)
    ensures flat == Ordered(filtered, le)
  {
    var families := GroupByFamily(filtered);
    GroupedKeys(filtered);
    flat := LayOut(filtered, families,
                   Filter(PREFERRED, Among(Keys(families))) + Filter(Keys(families), NotAmong(PREFERRED)), le);
  }

  method LayOut(ghost ps: seq<Provider>, families: OMap<string, seq<Provider>>, order: seq<string>,
                le: (Provider, Provider) -> bool)
    returns (flat: seq<Provider>)
    requires families == Grouped(ps)
    ensures flat == Sections(ps, order, le)
  {
    flat := [];
    for i := 0 to |order|
      invariant flat == Sections(ps, order[..i], le)
    {
      assert order[..i + 1][..i] == order[..i];
      var arr := Get(families, order[i]);
      SectionSource(ps, order[i]);
      flat := flat + StableSort(if arr.Some? then arr.value else [], le);
    }
    assert order[..|order|] == order;
  }

  lemma SectionSource(ps: seq<Provider>, f: string)
    ensures (match Get(Grouped(ps), f) case Some(a) => a case None => []) == Filter(ps, OfFamily(f))
  {
    GroupedIs(ps, f);
    NoneOfFamily(ps, f);
  }

  // -------------------------------------------------- ordering, the lemmas

  lemma {:induction false} FamiliesMembers(ps: seq<Provider>)
    ensures Distinct(Families(ps))
    ensures forall i :: 0 <= i < |ps| ==> ps[i].family in Families(ps)
  {
    if ps == [] {
    } else {
      FamiliesMembers(ps[..|ps| - 1]);
    }
  }

  lemma PreferredDistinct()
    ensures Distinct(PREFERRED)
  {
    assert PREFERRED[0] == "anthropic" && |PREFERRED[0]| == 9;
    assert |PREFERRED[1]| == 15 && |PREFERRED[2]| == 6 && |PREFERRED[3]| == 12;
    assert |PREFERRED[4]| == 14 && |PREFERRED[5]| == 6 && |PREFERRED[6]| == 17;
    assert PREFERRED[2][0] == 'o' && PREFERRED[5][0] == 'g';
  }

  lemma FamilyOrderCovers(ps: seq<Provider>, f: string)
    ensures Distinct(FamilyOrder(ps)) && (f in FamilyOrder(ps) <==> f in Families(ps))
  {
    PreferredDistinct();
    FamiliesMembers(ps);
    var a, b := Filter(PREFERRED, Among(Families(ps))), Filter(Families(ps), NotAmong(PREFERRED));
    FilterKeepsDistinct(PREFERRED, Among(Families(ps)));
    FilterKeepsDistinct(Families(ps), NotAmong(PREFERRED));
    FilterMembers(PREFERRED, Among(Families(ps)), f);
    FilterMembers(Families(ps), NotAmong(PREFERRED), f);
    forall i, j | 0 <= i < |a| && 0 <= j < |b| ensures a[i] != b[j] {
      FilterMembers(PREFERRED, Among(Families(ps)), a[i]);
      FilterMembers(Families(ps), NotAmong(PREFERRED), b[j]);
    }
  }

  lemma {:induction false} SplitFamily(ps: seq<Provider>, families: seq<string>, f: string)
    requires f !in families
    ensures multiset(Filter(ps, InFamilies(families + [f]))) ==
            multiset(Filter(ps, InFamilies(families))) + multiset(Filter(ps, OfFamily(f)))
  {
    if ps == [] {
    } else {
      var last := ps[|ps| - 1];
      SplitFamily(ps[..|ps| - 1], families, f);
      assert InFamilies(families + [f])(last) <==> InFamilies(families)(last) || OfFamily(f)(last);
      assert !(InFamilies(families)(last) && OfFamily(f)(last));
    }
  }

  lemma {:induction false} NothingInNone(ps: seq<Provider>)
    ensures Filter(ps, InFamilies([])) == []
  {
    if ps == [] {
    } else {
      NothingInNone(ps[..|ps| - 1]);
    }
  }

  lemma {:induction false} AllIn(ps: seq<Provider>, families: seq<string>)
    requires forall i :: 0 <= i < |ps| ==> ps[i].family in families
    ensures Filter(ps, InFamilies(families)) == ps
  {
    if ps == [] {
    } else {
      AllIn(ps[..|ps| - 1], families);
    }
  }

  lemma {:induction false} SectionsPermute(ps: seq<Provider>, families: seq<string>, le: (Provider, Provider) -> bool)
    requires Distinct(families)
    ensures multiset(Sections(ps, families, le)) == multiset(Filter(ps, InFamilies(families)))
  {
    if families == [] {
      NothingInNone(ps);
    } else {
      var init, f := families[..|families| - 1], families[|families| - 1];
      LastOnly(families, f);
      SectionsPermute(ps, init, le);
      SortPermutes(Filter(ps, OfFamily(f)), le);
      SplitFamily(ps, init, f);
      assert families == init + [f];
      assert multiset(Sections(ps, families, le)) ==
             multiset(Sections(ps, init, le)) + multiset(StableSort(Filter(ps, OfFamily(f)), le));
    }
  }

  /** Ordering for display rearranges, and nothing more. */
  lemma OrderedPermutes(ps: seq<Provider>, le: (Provider, Provider) -> bool)
    ensures multiset(Ordered(ps, le)) == multiset(ps) && |Ordered(ps, le)| == |ps|
  {
    FamilyOrderCovers(ps, "");
    FamiliesMembers(ps);
    SectionsPermute(ps, FamilyOrder(ps), le);
    forall i | 0 <= i < |ps| ensures ps[i].family in FamilyOrder(ps) { FamilyOrderCovers(ps, ps[i].family); }
    AllIn(ps, FamilyOrder(ps));
    SameElements(Ordered(ps, le), ps);
  }

  lemma {:induction false} SortedFamily(s: seq<Provider>, f: string, g: string)
    requires forall i :: 0 <= i < |s| ==> s[i].family == f
    ensures Filter(s, OfFamily(g)) == if f == g then s else []
  {
    if s == [] {
    } else {
      var init, last := s[..|s| - 1], s[|s| - 1];
      assert OfFamily(g)(last) <==> f == g;
      SortedFamily(init, f, g);
      assert s == init + [last];
    }
  }

  lemma SectionFamily(ps: seq<Provider>, f: string, le: (Provider, Provider) -> bool)
    ensures forall i :: 0 <= i < |StableSort(Filter(ps, OfFamily(f)), le)| ==> StableSort(Filter(ps, OfFamily(f)), le)[i].family == f
  {
    var s, own := StableSort(Filter(ps, OfFamily(f)), le), Filter(ps, OfFamily(f));
    SortPermutes(own, le);
    SameElements(s, own);
    forall i | 0 <= i < |s| ensures s[i].family == f {
      assert s[i] in own;
      FilterMembers(ps, OfFamily(f), s[i]);
    }
  }

  lemma LastOnly<T>(s: seq<T>, x: T)
    requires s != [] && Distinct(s)
    ensures x in s <==> x in s[..|s| - 1] || x == s[|s| - 1]
    ensures s[|s| - 1] !in s[..|s| - 1]
    ensures Distinct(s[..|s| - 1])
  {
    assert s == s[..|s| - 1] + [s[|s| - 1]];
  }

  /** Picking family `f` out of one more section. */
  lemma OneMoreSection(ps: seq<Provider>, families: seq<string>, f: string, le: (Provider, Provider) -> bool)
    requires families != []
    ensures var g := families[|families| - 1];
      Filter(Sections(ps, families, le), OfFamily(f)) ==
      Filter(Sections(ps, families[..|families| - 1], le), OfFamily(f)) +
      if f == g then StableSort(Filter(ps, OfFamily(f)), le) else []
  {
    var g := families[|families| - 1];
    var own := StableSort(Filter(ps, OfFamily(g)), le);
    SectionFamily(ps, g, le);
    SortedFamily(own, g, f);
    FilterAppend(Sections(ps, families[..|families| - 1], le), own, OfFamily(f));
  }

  lemma {:induction false} SectionAbsent(ps: seq<Provider>, families: seq<string>, f: string, le: (Provider, Provider) -> bool)
    requires forall j :: 0 <= j < |families| ==> families[j] != f
    ensures Filter(Sections(ps, families, le), OfFamily(f)) == []
  {
    if families == [] {
    } else {
      SectionAbsent(ps, families[..|families| - 1], f, le);
      OneMoreSection(ps, families, f, le);
    }
  }

  /** A family's providers, picked back out of the ordered list, are its section. */
  lemma {:induction false} SectionOf(ps: seq<Provider>, families: seq<string>, k: nat, le: (Provider, Provider) -> bool)
    requires Distinct(families) && k < |families|
    ensures Filter(Sections(ps, families, le), OfFamily(families[k])) == StableSort(Filter(ps, OfFamily(families[k])), le)
  {
    var init, own := families[..|families| - 1], StableSort(Filter(ps, OfFamily(families[k])), le);
    OneMoreSection(ps, families, families[k], le);
    if k < |init| {
      SectionOf(ps, init, k, le);
      assert own + [] == own;
    } else {
      SectionAbsent(ps, init, families[k], le);
      assert [] + own == own;
    }
  }

  lemma {:induction false} FamiliesAppend(a: seq<Provider>, b: seq<Provider>, f: string)
    requires b != [] && f !in Families(a)
    requires forall i :: 0 <= i < |b| ==> b[i].family == f
    ensures Families(a + b) == Families(a) + [f]
  {
    var init := b[..|b| - 1];
    assert (a + b)[..|a + b| - 1] == a + init;
    if init == [] {
      assert a + init == a;
    } else {
      FamiliesAppend(a, init, f);
    }
  }

  /** The ordered list shows its families in the order the sections were laid out. */
  lemma {:induction false} FamiliesOfSections(ps: seq<Provider>, families: seq<string>, le: (Provider, Provider) -> bool)
    requires Distinct(families) && forall i :: 0 <= i < |families| ==> families[i] in Families(ps)
    ensures Families(Sections(ps, families, le)) == families
  {
    if families == [] {
    } else {
      var init, f := families[..|families| - 1], families[|families| - 1];
      FamiliesOfSections(ps, init, le);
      SectionFamily(ps, f, le);
      NoneOfFamily(ps, f);
      SortPermutes(Filter(ps, OfFamily(f)), le);
      FamiliesAppend(Sections(ps, init, le), StableSort(Filter(ps, OfFamily(f)), le), f);
      assert families == init + [f];
    }
  }

  lemma {:induction false} SameFilter<T>(s: seq<T>, p: T -> bool, q: T -> bool)
    requires forall i :: 0 <= i < |s| ==> p(s[i]) == q(s[i])
    ensures Filter(s, p) == Filter(s, q)
  {
    if s == [] {
    } else {
      SameFilter(s[..|s| - 1], p, q);
    }
  }

  lemma {:induction false} FilterNone<T>(s: seq<T>, p: T -> bool)
    requires forall i :: 0 <= i < |s| ==> !p(s[i])
    ensures Filter(s, p) == []
  {
    if s == [] {
    } else {
      FilterNone(s[..|s| - 1], p);
    }
  }

  lemma {:induction false} FilterAll<T>(s: seq<T>, p: T -> bool)
    requires forall i :: 0 <= i < |s| ==> p(s[i])
    ensures Filter(s, p) == s
  {
    if s == [] {
    } else {
      FilterAll(s[..|s| - 1], p);
    }
  }

  /** The two halves of the family order, taken again from that order. */
  lemma HalvesStable(ps: seq<Provider>)
    ensures Filter(PREFERRED, Among(FamilyOrder(ps))) == Filter(PREFERRED, Among(Families(ps)))
    ensures Filter(FamilyOrder(ps), NotAmong(PREFERRED)) == Filter(Families(ps), NotAmong(PREFERRED))
  {
    forall i | 0 <= i < |PREFERRED|
      ensures Among(FamilyOrder(ps))(PREFERRED[i]) == Among(Families(ps))(PREFERRED[i])
    {
      FamilyOrderCovers(ps, PREFERRED[i]);
    }
    SameFilter(PREFERRED, Among(FamilyOrder(ps)), Among(Families(ps)));
    SecondHalf(ps);
  }

  lemma {:induction false} SecondHalf(ps: seq<Provider>)
    ensures Filter(FamilyOrder(ps), NotAmong(PREFERRED)) == Filter(Families(ps), NotAmong(PREFERRED))
  {
    var a, b := Filter(PREFERRED, Among(Families(ps))), Filter(Families(ps), NotAmong(PREFERRED));
    FilterAppend(a, b, NotAmong(PREFERRED));
    forall i | 0 <= i < |a| ensures !NotAmong(PREFERRED)(a[i]) { FilterMembers(PREFERRED, Among(Families(ps)), a[i]); }
    forall i | 0 <= i < |b| ensures NotAmong(PREFERRED)(b[i]) { FilterMembers(Families(ps), NotAmong(PREFERRED), b[i]); }
    FilterNone(a, NotAmong(PREFERRED));
    FilterAll(b, NotAmong(PREFERRED));
    assert [] + b == b;
  }

  lemma FamilyOrderStable(ps: seq<Provider>, le: (Provider, Provider) -> bool)
    ensures FamilyOrder(Ordered(ps, le)) == FamilyOrder(ps)
  {
    var order := FamilyOrder(ps);
    FamilyOrderCovers(ps, "");
    forall i | 0 <= i < |order| ensures order[i] in Families(ps) { FamilyOrderCovers(ps, order[i]); }
    FamiliesOfSections(ps, order, le);
    HalvesStable(ps);
  }

  lemma {:induction false} SameSections(ps: seq<Provider>, qs: seq<Provider>, families: seq<string>, le: (Provider, Provider) -> bool)
    requires forall i :: 0 <= i < |families| ==>
      StableSort(Filter(ps, OfFamily(families[i])), le) == StableSort(Filter(qs, OfFamily(families[i])), le)
    ensures Sections(ps, families, le) == Sections(qs, families, le)
  {
    if families == [] {
    } else {
      SameSections(ps, qs, families[..|families| - 1], le);
    }
  }

  /** Ordering twice is ordering once: the renderer may re-order an ordered list. */
  lemma OrderedIdempotent(ps: seq<Provider>, le: (Provider, Provider) -> bool)
    requires TotalPreorder(le)
    ensures Ordered(Ordered(ps, le), le) == Ordered(ps, le)
  {
    var order, once := FamilyOrder(ps), Ordered(ps, le);
    FamilyOrderStable(ps, le);
    FamilyOrderCovers(ps, "");
    forall i | 0 <= i < |order|
      ensures StableSort(Filter(once, OfFamily(order[i])), le) == StableSort(Filter(ps, OfFamily(order[i])), le)
    {
      SectionOf(ps, order, i, le);
      SortSorts(Filter(ps, OfFamily(order[i])), le);
      SortOfSorted(StableSort(Filter(ps, OfFamily(order[i])), le), le);
    }
    SameSections(once, ps, order, le);
  }
}
