/** What a picker's frame shows (packages/cli/src/picker.ts): which items match a query, in
    which order they stand, and how the window, its headers and its notes are laid out. */
module PickerView {
  import opened Prelude
  import opened Sorting
  import opened Picker
  import opened LivePicker

  // --------------------------------------------------------------- matching

  predicate Blank(c: char) { c in {' ', '\t', '\n', '\r'} }

  predicate AllBlank(s: string) { forall i :: 0 <= i < |s| ==> Blank(s[i]) }

  /** The same letter, whatever its case. */
  predicate Alike(c: char, d: char) {
    c == d || ('A' <= c <= 'Z' && d as int == c as int + 32) || ('A' <= d <= 'Z' && c as int == d as int + 32)
  }

  /** `word` stands at place `at` of `text`, ignoring case. */
  predicate StandsAt(text: string, word: string, at: nat) {
    at + |word| <= |text| && forall k :: 0 <= k < |word| ==> Alike(text[at + k], word[k])
  }

  ghost predicate Holds(text: string, word: string) { exists at: nat :: StandsAt(text, word, at) }

  /** `query` is `word` between blanks. */
  ghost predicate IsWordOf(word: string, query: string, left: string, right: string) {
    && query == left + word + right && AllBlank(left) && AllBlank(right)
    && (word != "" ==> !Blank(word[0]) && !Blank(word[|word| - 1]))
  }

  lemma {:induction false} TrimLeftSkips(left: string, s: string)
    requires AllBlank(left) && (s != "" ==> !Blank(s[0]))
    ensures TrimLeft(left + s) == s
  {
    if left == "" {
      assert left + s == s;
    } else {
      assert Blank(left[0]) && (left + s)[0] == left[0] && (left + s)[1..] == left[1..] + s;
      TrimLeftSkips(left[1..], s);
    }
  }

  lemma {:induction false} TrimRightSkips(s: string, right: string)
    requires AllBlank(right) && (s != "" ==> !Blank(s[|s| - 1]))
    ensures TrimRight(s + right) == s
  {
    if right == "" {
      assert s + right == s;
    } else {
      var init := right[..|right| - 1];
      assert Blank(right[|right| - 1]) && (s + right)[..|s + right| - 1] == s + init;
      TrimRightSkips(s, init);
    }
  }

  lemma TrimIsWord(word: string, query: string, left: string, right: string)
    requires IsWordOf(word, query, left, right)
    ensures Trim(query) == word
  {
    if word == "" {
      assert query == (left + right) + "" && AllBlank(left + right);
      TrimLeftSkips(left + right, "");
    } else {
      assert query == left + (word + right);
      TrimLeftSkips(left, word + right);
      TrimRightSkips(word, right);
    }
  }

  lemma FoldedAlike(c: char, d: char)
    ensures LowerChar(c) == LowerChar(d) <==> Alike(c, d)
  {
  }

  lemma FoldedPrefix(text: string, word: string)
    ensures Lower(word) <= Lower(text) <==> StandsAt(text, word, 0)
  {
    if |word| <= |text| {
      forall k | 0 <= k < |word| ensures Lower(word)[k] == Lower(text)[k] <==> Alike(text[k], word[k]) {
        FoldedAlike(text[k], word[k]);
      }
      if StandsAt(text, word, 0) {
        assert forall k :: 0 <= k < |word| ==> Alike(text[0 + k], word[k]);
        assert Lower(text)[..|word|] == Lower(word);
      }
      if Lower(word) <= Lower(text) {
        assert forall k :: 0 <= k < |word| ==> Lower(word)[k] == Lower(text)[k];
      }
    }
  }

  lemma StandsLater(text: string, word: string, at: nat)
    requires text != ""
    ensures StandsAt(text[1..], word, at) <==> StandsAt(text, word, at + 1)
  {
    if at + 1 + |word| <= |text| {
      forall k | 0 <= k < |word| ensures Alike(text[1..][at + k], word[k]) <==> Alike(text[at + 1 + k], word[k]) {
        assert text[1..][at + k] == text[at + 1 + k];
      }
    }
  }

  lemma {:induction false} IncludesHolds(text: string, word: string)
    ensures Includes(Lower(text), Lower(word)) <==> Holds(text, word)
  {
    FoldedPrefix(text, word);
    if text == "" {
      if Holds(text, word) {
        var at: nat :| StandsAt(text, word, at);
        assert StandsAt(text, word, 0);
      }
    } else {
      assert Lower(text)[1..] == Lower(text[1..]);
      IncludesHolds(text[1..], word);
      forall at: nat ensures StandsAt(text[1..], word, at) <==> StandsAt(text, word, at + 1) { StandsLater(text, word, at); }
      if Holds(text[1..], word) {
        var at: nat :| StandsAt(text[1..], word, at);
        assert StandsAt(text, word, at + 1);
      }
      if Holds(text, word) {
        var at: nat :| StandsAt(text, word, at);
        if at > 0 { assert StandsAt(text[1..], word, at - 1); }
      }
    }
  }

  lemma NothingFolded(s: string)
    ensures Lower(s) == "" <==> s == ""
  {
  }

  /** A provider is listed exactly when the query's word is in its id or its name. */
  lemma ProviderListedIff(all: seq<Provider>, le: (Provider, Provider) -> bool, p: Provider,
                          word: string, query: string, left: string, right: string)
    requires IsWordOf(word, query, left, right)
    ensures p in ProvidersFor(all, le, query) <==> p in all && (word == "" || Holds(p.id, word) || Holds(p.name, word))
  {
    var kept := Filter(all, ProviderMatches(query));
    OrderedPermutes(kept, le);
    SameElements(Ordered(kept, le), kept);
    FilterMembers(all, ProviderMatches(query), p);
    TrimIsWord(word, query, left, right);
    NothingFolded(word);
    IncludesHolds(p.id, word);
    IncludesHolds(p.name, word);
  }

  lemma ModelListedIff(all: seq<Model>, le: (Model, Model) -> bool, m: Model,
                       word: string, query: string, left: string, right: string)
    requires IsWordOf(word, query, left, right)
    ensures m in ModelsFor(all, le, query) <==> m in all && (word == "" || Holds(m.id, word) || Holds(m.name, word))
  {
    var kept := Filter(all, ModelMatches(query));
    SortPermutes(kept, le);
    SameElements(StableSort(kept, le), kept);
    FilterMembers(all, ModelMatches(query), m);
    TrimIsWord(word, query, left, right);
    NothingFolded(word);
    IncludesHolds(m.id, word);
    IncludesHolds(m.name, word);
  }

  // ------------------------------------------------------------------- order

  /** The place of a family among those that come first; all others share the last. */
  function Rank(f: string): nat {
    if f == "anthropic" then 0
    else if f == "anthropic-oauth" then 1
    else if f == "openai" then 2
    else if f == "openai-codex" then 3
    else if f == "github-copilot" then 4
    else if f == "google" then 5
    else if f == "openai-compatible" then 6
    else 7
  }

  /** Some provider of family `f` stands before every one of family `g`. */
  predicate AppearsBefore(ps: seq<Provider>, f: string, g: string) {
    exists i :: 0 <= i < |ps| && ps[i].family == f && forall j :: 0 <= j <= i ==> ps[j].family != g
  }

  function Precedes(ps: seq<Provider>): (string, string) -> bool {
    (f: string, g: string) => Rank(f) < Rank(g) || (Rank(f) == 7 && Rank(g) == 7 && AppearsBefore(ps, f, g))
  }

  /** Each element is related to every later one. */
  ghost predicate Ascends<T>(s: seq<T>, before: (T, T) -> bool) {
    forall i, j :: 0 <= i < j < |s| ==> before(s[i], s[j])
  }

  lemma {:induction false} FilterAscends<T>(s: seq<T>, p: T -> bool, before: (T, T) -> bool)
    requires Ascends(s, before)
    ensures Ascends(Filter(s, p), before)
  {
    if s == [] {
    } else {
      var init, last := s[..|s| - 1], s[|s| - 1];
      FilterAscends(init, p, before);
      forall x | x in Filter(init, p) ensures before(x, last) {
        FilterMembers(init, p, x);
        var i :| 0 <= i < |init| && init[i] == x;
        assert before(s[i], s[|s| - 1]);
      }
    }
  }

  lemma AppearsKept(ps: seq<Provider>, p: Provider, f: string, g: string)
    requires AppearsBefore(ps, f, g)
    ensures AppearsBefore(ps + [p], f, g)
  {
    var i :| 0 <= i < |ps| && ps[i].family == f && forall j :: 0 <= j <= i ==> ps[j].family != g;
    assert (ps + [p])[i].family == f;
  }

  lemma {:induction false} AppearsSomewhere(ps: seq<Provider>, f: string)
    requires f in Families(ps)
    ensures exists i :: 0 <= i < |ps| && ps[i].family == f
  {
    if f in Families(ps[..|ps| - 1]) {
      AppearsSomewhere(ps[..|ps| - 1], f);
    } else {
      assert ps[|ps| - 1].family == f;
    }
  }

  lemma AppearsFirst(ps: seq<Provider>, p: Provider, f: string, g: string)
    requires f in Families(ps) && g !in Families(ps)
    ensures AppearsBefore(ps + [p], f, g)
  {
    AppearsSomewhere(ps, f);
    FamiliesMembers(ps);
    var i :| 0 <= i < |ps| && ps[i].family == f;
    assert (ps + [p])[i].family == f;
    forall j | 0 <= j <= i ensures (ps + [p])[j].family != g { assert (ps + [p])[j] == ps[j]; }
  }

  lemma {:induction false} FamiliesAppear(ps: seq<Provider>, i: nat, j: nat)
    requires i < j < |Families(ps)|
    ensures AppearsBefore(ps, Families(ps)[i], Families(ps)[j])
  {
    var init, p := ps[..|ps| - 1], ps[|ps| - 1];
    var f, g := Families(ps)[i], Families(ps)[j];
    assert ps == init + [p];
    FamiliesMembers(init);
    if j < |Families(init)| {
      FamiliesAppear(init, i, j);
      AppearsKept(init, p, f, g);
    } else {
      AppearsFirst(init, p, f, g);
    }
  }

  lemma PreferredRanks()
    ensures forall i :: 0 <= i < |PREFERRED| ==> Rank(PREFERRED[i]) == i
    ensures forall f :: f !in PREFERRED <==> Rank(f) == 7
  {
    PreferredDistinct();
    assert |PREFERRED| == 7;
    assert PREFERRED[0] == "anthropic" && PREFERRED[1] == "anthropic-oauth" && PREFERRED[2] == "openai";
    assert PREFERRED[3] == "openai-codex" && PREFERRED[4] == "github-copilot" && PREFERRED[5] == "google";
    assert PREFERRED[6] == "openai-compatible";
  }

  lemma FamilyOrderAscends(ps: seq<Provider>)
    ensures Ascends(FamilyOrder(ps), Precedes(ps))
  {
    var present, absent := Among(Families(ps)), NotAmong(PREFERRED);
    var a, b := Filter(PREFERRED, present), Filter(Families(ps), absent);
    PreferredRanks();
    FilterAscends(PREFERRED, present, Precedes(ps));
    var appears := (f: string, g: string) => AppearsBefore(ps, f, g);
    forall i, j | 0 <= i < j < |Families(ps)| ensures appears(Families(ps)[i], Families(ps)[j]) { FamiliesAppear(ps, i, j); }
    FilterAscends(Families(ps), absent, appears);
    forall f | f in a ensures Rank(f) < 7 { FilterMembers(PREFERRED, present, f); }
    forall f | f in b ensures Rank(f) == 7 { FilterMembers(Families(ps), absent, f); }
    forall i, j | 0 <= i < j < |FamilyOrder(ps)| ensures Precedes(ps)(FamilyOrder(ps)[i], FamilyOrder(ps)[j]) {
      if j < |a| {
        assert Precedes(ps)(a[i], a[j]);
      } else if i < |a| {
        assert a[i] in a && b[j - |a|] in b;
      } else {
        assert appears(b[i - |a|], b[j - |a|]) && b[i - |a|] in b && b[j - |a|] in b;
      }
    }
  }

  lemma {:induction false} SectionsFrom(ps: seq<Provider>, families: seq<string>, le: (Provider, Provider) -> bool, i: nat)
    requires i < |Sections(ps, families, le)|
    ensures Sections(ps, families, le)[i].family in families
  {
    var init, f := families[..|families| - 1], families[|families| - 1];
    if i < |Sections(ps, init, le)| {
      SectionsFrom(ps, init, le, i);
    } else {
      SectionFamily(ps, f, le);
    }
  }

  lemma {:induction false} SectionsAscend(ps: seq<Provider>, families: seq<string>, le: (Provider, Provider) -> bool,
                                          before: (string, string) -> bool, i: nat, j: nat)
    requires Ascends(families, before) && i < j < |Sections(ps, families, le)|
    ensures var f, g := Sections(ps, families, le)[i].family, Sections(ps, families, le)[j].family;
      f == g || before(f, g)
  {
    var init, last := families[..|families| - 1], families[|families| - 1];
    var o := Sections(ps, init, le);
    SectionFamily(ps, last, le);
    if j < |o| {
      SectionsAscend(ps, init, le, before, i, j);
    } else if i < |o| {
      SectionsFrom(ps, init, le, i);
      var k :| 0 <= k < |init| && init[k] == o[i].family;
      assert before(families[k], families[|families| - 1]);
    }
  }

  /** Of two providers in display order, either both are of one family, or the first's
      family has the smaller rank, or neither is ranked and it appears first in the list. */
  lemma DisplayOrder(ps: seq<Provider>, le: (Provider, Provider) -> bool, i: nat, j: nat)
    requires i < j < |Ordered(ps, le)|
    ensures var f, g := Ordered(ps, le)[i].family, Ordered(ps, le)[j].family;
      f == g || Rank(f) < Rank(g) || (Rank(f) == 7 && Rank(g) == 7 && AppearsBefore(ps, f, g))
  {
    FamilyOrderAscends(ps);
    SectionsAscend(ps, FamilyOrder(ps), le, Precedes(ps), i, j);
  }

  // ------------------------------------------------------------------ layout

  /** The family whose header was shown last. */
  function LastHeader<T>(rows: seq<Row<T>>): string {
    if rows == [] then ""
    else if rows[|rows| - 1].FamilyRow? then rows[|rows| - 1].family
    else LastHeader(rows[..|rows| - 1])
  }

  /** An item stands under its family's header, and a header is shown only where the
      family changes, with an item of it right below. */
  ghost predicate WellHeaded(rows: seq<Row<Provider>>, i: nat)
    requires i < |rows|
  {
    match rows[i]
    case ItemRow(p, _) => LastHeader(rows[..i]) == p.family
    case FamilyRow(f) => LastHeader(rows[..i]) != f && i + 1 < |rows| && rows[i + 1].ItemRow? && rows[i + 1].item.family == f
    case _ => false
  }

  lemma StaysHeaded(rows: seq<Row<Provider>>, more: seq<Row<Provider>>, i: nat)
    requires i < |rows| && WellHeaded(rows, i)
    ensures WellHeaded(rows + more, i)
  {
    assert (rows + more)[..i] == rows[..i];
  }

  lemma RowsForHeaded(rows: seq<Row<Provider>>, p: Provider, marked: bool, i: nat)
    requires |rows| <= i < |rows| + |RowsFor(p, LastHeader(rows), marked)|
    ensures WellHeaded(rows + RowsFor(p, LastHeader(rows), marked), i)
    ensures LastHeader(rows + RowsFor(p, LastHeader(rows), marked)) == p.family
  {
    var all := rows + RowsFor(p, LastHeader(rows), marked);
    assert all[..|rows|] == rows;
    if p.family != LastHeader(rows) {
      var headed := rows + [FamilyRow(p.family)];
      assert all[..|rows| + 1] == headed && headed[..|rows|] == rows && LastHeader(headed) == p.family;
    }
  }

  lemma {:induction false} RowsAreHeaded(visible: seq<Provider>, mark: int, i: nat)
    requires i < |ProviderRows(visible, mark)|
    ensures WellHeaded(ProviderRows(visible, mark), i)
  {
    var init, p := visible[..|visible| - 1], visible[|visible| - 1];
    var before := ProviderRows(init, mark);
    LastHeaderIs(init, mark);
    if i < |before| {
      RowsAreHeaded(init, mark, i);
      StaysHeaded(before, RowsFor(p, LastFamily(init), |init| == mark), i);
    } else {
      RowsForHeaded(before, p, |init| == mark, i);
    }
  }

  lemma {:induction false} LastHeaderIs(visible: seq<Provider>, mark: int)
    ensures LastHeader(ProviderRows(visible, mark)) == LastFamily(visible)
  {
    if visible == [] {
    } else {
      var init, p := visible[..|visible| - 1], visible[|visible| - 1];
      var before := ProviderRows(init, mark);
      LastHeaderIs(init, mark);
      RowsForHeaded(before, p, |init| == mark, |before|);
    }
  }

  /** Where the window of fifteen rows starts that ends at the cursor at the latest. */
  function FirstShown(selected: nat): nat { if selected < 15 then 0 else selected - 14 }

  function PastShown(selected: nat, total: nat): (to: nat)
    requires selected < total
    ensures FirstShown(selected) <= to <= total
  {
    if FirstShown(selected) + 15 < total then FirstShown(selected) + 15 else total
  }

  lemma WindowIs<T>(list: seq<T>, selected: nat)
    requires selected < |list|
    ensures ScrollOffset(selected) == FirstShown(selected)
    ensures Window(list, ScrollOffset(selected)) == list[FirstShown(selected)..PastShown(selected, |list|)]
  {
  }

  /** Around the items: the query, how many lie above the window, how many below, the hint. */
  lemma FrameEnds<T>(query: string, selected: nat, total: nat)
    requires selected < total
    ensures var from, to := FirstShown(selected), PastShown(selected, total);
      && Head<T>(query, from) == [QueryRow(query)] + (if from > 0 then [MoreAbove(from)] else [])
      && Tail<T>(from, total) == (if to < total then [MoreBelow(total - to)] else []) + [HintRow]
  {
  }

  /** The frame of a provider list is its ends around the rows of its window. */
  lemma ProviderLayout(query: string, filtered: seq<Provider>, selected: nat, le: (Provider, Provider) -> bool)
    requires selected < |Ordered(filtered, le)|
    ensures var o, from := Ordered(filtered, le), FirstShown(selected);
      ProviderFrame(query, filtered, selected, le) ==
      Head(query, from) + ProviderRows(o[from..PastShown(selected, |o|)], selected - from) + Tail(from, |o|)
  {
    WindowIs(Ordered(filtered, le), selected);
  }

  /** The frame of a model list never scrolls. */
  lemma ModelLayout(query: string, filtered: seq<Model>, selected: nat, le: (Model, Model) -> bool)
    ensures var o := StableSort(filtered, le);
      var to := if 15 < |o| then 15 else |o|;
      ModelFrame(query, filtered, selected, le) ==
        [QueryRow(query)] + ModelRows(o[..to], selected) + (if to < |o| then [MoreBelow(|o| - to)] else []) + [HintRow]
  {
  }
}
