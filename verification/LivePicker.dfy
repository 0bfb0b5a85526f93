/** The live pickers of packages/cli/src/picker.ts: a key chunk moves the state, the
    frame is drawn again, and Enter takes the marked row. */
module LivePicker {
  import opened Prelude
  import opened Sorting
  import opened Picker

  const UP: string := [ESC, '[', 'A']
  const DOWN: string := [ESC, '[', 'B']

  datatype Status = Typing | Submitted | Cancelled

  datatype State = State(query: string, selected: nat, status: Status)

  /** The characters of a chunk, one by one; Enter and Ctrl+C end it at once. */
  function ReadChunk(chunk: string, before: State, query: string, selected: nat, matchCount: nat): State {
    if chunk == "" then State(query, selected, Typing)
    else
      var ch, rest := chunk[0], chunk[1..];
      if ch == '\r' || ch == '\n' then before.(status := if matchCount > 0 then Submitted else Typing)
      else if ch == '\U{0003}' then before.(status := Cancelled)
      else if ch == '\U{0015}' then ReadChunk(rest, before, "", 0, matchCount)
      else if ch == '\U{007F}' || ch == '\U{0008}' then
        ReadChunk(rest, before, if |query| > 0 then query[..|query| - 1] else query, 0, matchCount)
      else if ch < ' ' then ReadChunk(rest, before, query, selected, matchCount)
      else ReadChunk(rest, before, query + [ch], 0, matchCount)
  }

  function ApplyKey(s: State, chunk: string, matchCount: nat): State {
    if chunk == UP then s.(selected := Max(0, s.selected - 1))
    else if chunk == DOWN then s.(selected := Min(Max(0, matchCount - 1), s.selected + 1))
    else if chunk == [ESC] then State("", 0, Typing)
    else if chunk != "" && chunk[0] == ESC then s
    else ReadChunk(chunk, s, s.query, s.selected, matchCount)
  }

  method ApplyPickerKey(s: State, chunk: string, matchCount: nat) returns (r: State)
    ensures r == ApplyKey(s, chunk, matchCount)
  {
    if chunk == UP { return s.(selected := Max(0, s.selected - 1)); }
    if chunk == DOWN { return s.(selected := Min(Max(0, matchCount - 1), s.selected + 1)); }
    if chunk == [ESC] { return State("", 0, Typing); }
    if chunk != "" && chunk[0] == ESC { return s; }
    var query, selected := s.query, s.selected;
    for i := 0 to |chunk|
      invariant ReadChunk(chunk[i..], s, query, selected, matchCount) == ReadChunk(chunk, s, s.query, s.selected, matchCount)
    {
      var ch := chunk[i];
      assert chunk[i..][0] == ch && chunk[i..][1..] == chunk[i + 1..];
      if ch == '\r' || ch == '\n' {
        return s.(status := if matchCount > 0 then Submitted else Typing);
      }
      if ch == '\U{0003}' { return s.(status := Cancelled); }
      if ch == '\U{0015}' {
        query, selected := "", 0;
      } else if ch == '\U{007F}' || ch == '\U{0008}' {
        if |query| > 0 { query := query[..|query| - 1]; }
        selected := 0;
      } else if ch >= ' ' {
        query, selected := query + [ch], 0;
      }
    }
    r := State(query, selected, Typing);
  }

  // -------------------------------------------------------------- rendering

  /** A rendered row: the query line, a family header, an item, a note on what lies
      outside the window, or the key hint. */
  datatype Row<T> =
    | QueryRow(query: string)
    | MoreAbove(count: nat)
    | FamilyRow(family: string)
    | ItemRow(item: T, marked: bool)
    | MoreBelow(count: nat)
    | HintRow

  /** The items shown, top to bottom. */
  function Items<T>(rows: seq<Row<T>>): seq<T> {
    if rows == [] then []
    else Items(rows[..|rows| - 1]) + if rows[|rows| - 1].ItemRow? then [rows[|rows| - 1].item] else []
  }

  /** The items shown with a mark. */
  function Marked<T>(rows: seq<Row<T>>): seq<T> {
    if rows == [] then []
    else Marked(rows[..|rows| - 1]) +
         if rows[|rows| - 1].ItemRow? && rows[|rows| - 1].marked then [rows[|rows| - 1].item] else []
  }

  /** `slice(from, from + LIVE_PICKER_MAX_VISIBLE)`. */
  function Window<T>(list: seq<T>, from: nat): seq<T> {
    if from >= |list| then []
    else list[from..Min(|list|, from + LIVE_PICKER_MAX_VISIBLE)]
  }

  function ScrollOffset(selected: nat): nat { Max(0, selected - LIVE_PICKER_MAX_VISIBLE + 1) }

  /** One provider's rows: a header first if the family changes. */
  function RowsFor(p: Provider, lastFamily: string, marked: bool): seq<Row<Provider>> {
    if p.family != lastFamily then [FamilyRow(p.family), ItemRow(p, marked)] else [ItemRow(p, marked)]
  }

  function LastFamily(visible: seq<Provider>): string {
    if visible == [] then "" else visible[|visible| - 1].family
  }

  function ProviderRows(visible: seq<Provider>, mark: int): seq<Row<Provider>> {
    if visible == [] then []
    else
      var init, p := visible[..|visible| - 1], visible[|visible| - 1];
      ProviderRows(init, mark) + RowsFor(p, LastFamily(init), |init| == mark)
  }

  function ModelRows(visible: seq<Model>, mark: int): seq<Row<Model>> {
    if visible == [] then []
    else ModelRows(visible[..|visible| - 1], mark) + [ItemRow(visible[|visible| - 1], |visible| - 1 == mark)]
  }

  /** The rows above and below the items. */
  function Head<T>(query: string, from: nat): seq<Row<T>> {
    if from > 0 then [QueryRow(query), MoreAbove(from)] else [QueryRow(query)]
  }

  function Tail<T>(from: nat, total: nat): seq<Row<T>> {
    if from + LIVE_PICKER_MAX_VISIBLE < total then [MoreBelow(total - from - LIVE_PICKER_MAX_VISIBLE), HintRow] else [HintRow]
  }

  function ProviderFrame(query: string, filtered: seq<Provider>, selected: nat, le: (Provider, Provider) -> bool): seq<Row<Provider>> {
    var ordered, from := Ordered(filtered, le), ScrollOffset(selected);
    Head(query, from) + ProviderRows(Window(ordered, from), selected - from) + Tail(from, |ordered|)
  }

  function ModelFrame(query: string, filtered: seq<Model>, selected: nat, le: (Model, Model) -> bool): seq<Row<Model>> {
    var ordered := StableSort(filtered, le);
    Head(query, 0) + ModelRows(Window(ordered, 0), selected) + Tail(0, |ordered|)
  }

  /** The rendering loop over the visible providers. */
  method RenderProviderRows(visible: seq<Provider>, mark: int) returns (rows: seq<Row<Provider>>)
    ensures rows == ProviderRows(visible, mark)
  {
    rows := [];
    var flat, lastFamily := 0, "";
    for i := 0 to |visible|
      invariant flat == i && lastFamily == LastFamily(visible[..i])
      invariant rows == ProviderRows(visible[..i], mark)
    {
      assert visible[..i + 1][..i] == visible[..i];
      var p := visible[i];
      ghost var before, was := rows, lastFamily;
      if p.family != lastFamily {
        rows := rows + [FamilyRow(p.family)];
        lastFamily := p.family;
      }
      rows := rows + [ItemRow(p, flat == mark)];
      assert rows == before + RowsFor(p, was, flat == mark);
      flat := flat + 1;
    }
    assert visible[..|visible|] == visible;
  }

  lemma {:induction false} RowsAppend<T>(a: seq<Row<T>>, b: seq<Row<T>>)
    ensures Items(a + b) == Items(a) + Items(b) && Marked(a + b) == Marked(a) + Marked(b)
  {
    if b == [] {
      assert a + b == a;
    } else {
      RowsAppend(a, b[..|b| - 1]);
      assert (a + b)[..|a + b| - 1] == a + b[..|b| - 1];
    }
  }

  /** Rows that are not items show and mark nothing. */
  lemma {:induction false} PlainRows<T>(rows: seq<Row<T>>)
    requires Plain(rows)
    ensures Items(rows) == [] && Marked(rows) == []
  {
    if rows == [] {
    } else {
      PlainRows(rows[..|rows| - 1]);
    }
  }

  predicate Plain<T>(rows: seq<Row<T>>) {
    rows == [] || (!rows[|rows| - 1].ItemRow? && Plain(rows[..|rows| - 1]))
  }

  lemma PlainEnds<T>(query: string, from: nat, total: nat)
    ensures Plain(Head<T>(query, from)) && Plain(Tail<T>(from, total))
  {
    var above: seq<Row<T>> := [QueryRow(query), MoreAbove(from)];
    assert above[..1] == [above[0]];
    if from + LIVE_PICKER_MAX_VISIBLE < total {
      var below: seq<Row<T>> := [MoreBelow(total - from - LIVE_PICKER_MAX_VISIBLE), HintRow];
      assert below[..1] == [below[0]];
    }
  }

  function MarkedAt<T>(visible: seq<T>, mark: int): seq<T> {
    if 0 <= mark < |visible| then [visible[mark]] else []
  }

  lemma OneItemRow<T>(row: Row<T>)
    requires row.ItemRow?
    ensures Items([row]) == [row.item] && Marked([row]) == if row.marked then [row.item] else []
  {
    assert ([row])[..0] == [];
  }

  lemma RowsForShow(p: Provider, lastFamily: string, marked: bool)
    ensures Items(RowsFor(p, lastFamily, marked)) == [p]
    ensures Marked(RowsFor(p, lastFamily, marked)) == if marked then [p] else []
  {
    var row: Row<Provider> := ItemRow(p, marked);
    OneItemRow(row);
    PlainRows<Provider>([FamilyRow(p.family)]);
    RowsAppend([FamilyRow(p.family)], [row]);
    assert [FamilyRow(p.family), row] == [FamilyRow(p.family)] + [row];
  }

  lemma SnocOf<T>(s: seq<T>)
    requires s != []
    ensures s == s[..|s| - 1] + [s[|s| - 1]]
  {
  }

  lemma MarkedAtAppend<T>(init: seq<T>, x: T, mark: int)
    ensures MarkedAt(init + [x], mark) == MarkedAt(init, mark) + if |init| == mark then [x] else []
  {
  }

  lemma {:induction false} ProviderRowsShow(visible: seq<Provider>, mark: int)
    ensures Items(ProviderRows(visible, mark)) == visible
    ensures Marked(ProviderRows(visible, mark)) == MarkedAt(visible, mark)
  {
    if visible == [] {
    } else {
      var init, p := visible[..|visible| - 1], visible[|visible| - 1];
      SnocOf(visible);
      ProviderRowsShow(init, mark);
      RowsForShow(p, LastFamily(init), |init| == mark);
      var before, rows := ProviderRows(init, mark), RowsFor(p, LastFamily(init), |init| == mark);
      RowsAppend(before, rows);
      assert Items(before + rows) == init + [p];
      assert Marked(before + rows) == MarkedAt(init + [p], mark) by { MarkedAtAppend(init, p, mark); }
    }
  }

  lemma {:induction false} ModelRowsShow(visible: seq<Model>, mark: int)
    ensures Items(ModelRows(visible, mark)) == visible
    ensures Marked(ModelRows(visible, mark)) == MarkedAt(visible, mark)
  {
    if visible == [] {
    } else {
      var init, m := visible[..|visible| - 1], visible[|visible| - 1];
      SnocOf(visible);
      ModelRowsShow(init, mark);
      OneItemRow(ItemRow(m, |init| == mark));
      RowsAppend(ModelRows(init, mark), [ItemRow(m, |init| == mark)]);
      MarkedAtAppend(init, m, mark);
    }
  }

  /** The selected item lies in its window, at its place in it. */
  lemma WindowMarks<T>(list: seq<T>, from: nat, selected: nat)
    requires from <= selected < |list| && selected < from + LIVE_PICKER_MAX_VISIBLE
    ensures MarkedAt(Window(list, from), selected - from) == [list[selected]]
    ensures |Window(list, from)| <= LIVE_PICKER_MAX_VISIBLE
  {
  }

  lemma FrameParts<T>(head: seq<Row<T>>, body: seq<Row<T>>, tail: seq<Row<T>>)
    requires Plain(head) && Plain(tail)
    ensures Items(head + body + tail) == Items(body)
    ensures Marked(head + body + tail) == Marked(body)
  {
    PlainRows(head);
    PlainRows(tail);
    RowsAppend(head, body);
    RowsAppend(head + body, tail);
    assert [] + Items(body) + [] == Items(body);
    assert [] + Marked(body) + [] == Marked(body);
  }

  lemma ProviderFrameShows(query: string, ordered: seq<Provider>, selected: nat, le: (Provider, Provider) -> bool)
    requires Ordered(ordered, le) == ordered && selected < |ordered|
    ensures var f := ProviderFrame(query, ordered, selected, le);
      Marked(f) == [ordered[selected]] && Items(f) == Window(ordered, ScrollOffset(selected))
  {
    var from := ScrollOffset(selected);
    var body := ProviderRows(Window(ordered, from), selected - from);
    ProviderRowsShow(Window(ordered, from), selected - from);
    WindowMarks(ordered, from, selected);
    PlainEnds<Provider>(query, from, |ordered|);
    FrameParts(Head(query, from), body, Tail(from, |ordered|));
  }

  lemma {:induction false} ModelFrameShows(query: string, ordered: seq<Model>, selected: nat, le: (Model, Model) -> bool)
    requires StableSort(ordered, le) == ordered && selected < |ordered| && selected < LIVE_PICKER_MAX_VISIBLE
    ensures var f := ModelFrame(query, ordered, selected, le);
      Marked(f) == [ordered[selected]] && Items(f) == Window(ordered, 0)
  {
    var body := ModelRows(Window(ordered, 0), selected);
    ModelRowsShow(Window(ordered, 0), selected);
    WindowMarks(ordered, 0, selected);
    PlainEnds<Model>(query, 0, |ordered|);
    FrameParts(Head(query, 0), body, Tail(0, |ordered|));
  }

  /** A provider frame shows at most fifteen providers, a contiguous stretch of the
      ordered list, and marks exactly the selected one. */
  lemma ProviderFrameMarks(query: string, filtered: seq<Provider>, selected: nat, le: (Provider, Provider) -> bool)
    requires TotalPreorder(le) && selected < |Ordered(filtered, le)|
    ensures var ordered := Ordered(filtered, le);
      var f := ProviderFrame(query, ordered, selected, le);
      && Marked(f) == [ordered[selected]]
      && Items(f) == Window(ordered, ScrollOffset(selected)) && |Items(f)| <= LIVE_PICKER_MAX_VISIBLE
  {
    OrderedIdempotent(filtered, le);
    ProviderFrameShows(query, Ordered(filtered, le), selected, le);
  }

  /** The same for models, whose selection never leaves the first fifteen. */
  lemma ModelFrameMarks(query: string, filtered: seq<Model>, selected: nat, le: (Model, Model) -> bool)
    requires TotalPreorder(le) && selected < |StableSort(filtered, le)| && selected < LIVE_PICKER_MAX_VISIBLE
    ensures var ordered := StableSort(filtered, le);
      var f := ModelFrame(query, ordered, selected, le);
      && Marked(f) == [ordered[selected]]
      && Items(f) == Window(ordered, 0) && |Items(f)| <= LIVE_PICKER_MAX_VISIBLE
  {
    SortSorts(filtered, le);
    SortOfSorted(StableSort(filtered, le), le);
    ModelFrameShows(query, StableSort(filtered, le), selected, le);
  }

  // ------------------------------------------------------------ the session

  /** One live picker: what `onData` works on. `list` is the ordered match list of a
      query, `draw` the frame, `count` how many rows can be selected. */
  datatype Look<!T> = Look(
    list: string -> seq<T>,
    draw: (string, nat) -> seq<Row<T>>,
    count: nat -> nat)

  datatype Outcome<+T> = Picking | Picked(item: T) | Quit

  datatype Session<T> = Session(state: State, frame: seq<Row<T>>, outcome: Outcome<T>)

  function Clamp(s: State, visible: nat): State {
    if s.selected >= visible then s.(selected := Max(0, visible - 1)) else s
  }

  function Redraw<T>(look: Look<T>, s: State): Session<T> {
    var clamped := Clamp(s, look.count(|look.list(s.query)|));
    Session(clamped, look.draw(clamped.query, clamped.selected), Picking)
  }

  /** `onData` for one chunk while the picker is up. */
  function OnData<T>(look: Look<T>, s: Session<T>, chunk: string): Session<T> {
    if s.outcome != Picking then s
    else
      var keyed := ApplyKey(s.state, chunk, look.count(|look.list(s.state.query)|));
      var ordered := look.list(keyed.query);
      var clamped := Clamp(keyed, look.count(|ordered|));
      match clamped.status
      case Cancelled => Session(clamped, s.frame, Quit)
      case Submitted =>
        if ordered == [] then Redraw(look, clamped.(status := Typing))
        else Session(clamped, s.frame, Picked(if clamped.selected < |ordered| then ordered[clamped.selected] else ordered[0]))
      case Typing => Redraw(look, clamped)
  }

  function OnChunks<T>(look: Look<T>, s: Session<T>, chunks: seq<string>): Session<T> {
    if chunks == [] then s else OnData(look, OnChunks(look, s, chunks[..|chunks| - 1]), chunks[|chunks| - 1])
  }

  /** The frame marks exactly the selected item, whenever there is one to select, and
      something can be selected whenever something matches. */
  ghost predicate Faithful<T>(look: Look<T>) {
    && (forall q: string, sel: nat :: sel < look.count(|look.list(q)|) ==>
          sel < |look.list(q)| && Marked(look.draw(q, sel)) == [look.list(q)[sel]])
    && (forall n :: look.count(n) <= n && (n > 0 ==> look.count(n) > 0))
  }

  ghost predicate InStep<T>(look: Look<T>, s: Session<T>) {
    s.outcome == Picking ==>
      && s.state.status == Typing
      && s.frame == look.draw(s.state.query, s.state.selected)
      && (look.list(s.state.query) != [] ==> s.state.selected < look.count(|look.list(s.state.query)|))
  }

  lemma {:induction false} ChunkKeepsOrTypes(chunk: string, before: State, query: string, selected: nat, matchCount: nat)
    ensures var r := ReadChunk(chunk, before, query, selected, matchCount);
      && (r.status == Submitted && before.status == Typing ==> matchCount > 0 && r == before.(status := Submitted))
      && (r.status == Cancelled && before.status == Typing ==> r == before.(status := Cancelled))
  {
    if chunk == "" {
    } else {
      ChunkKeepsOrTypes(chunk[1..], before, query, selected, matchCount);
      ChunkKeepsOrTypes(chunk[1..], before, "", 0, matchCount);
      ChunkKeepsOrTypes(chunk[1..], before, if |query| > 0 then query[..|query| - 1] else query, 0, matchCount);
      ChunkKeepsOrTypes(chunk[1..], before, query + [chunk[0]], 0, matchCount);
    }
  }

  lemma DataStep<T>(look: Look<T>, s: Session<T>, chunk: string)
    requires Faithful(look) && InStep(look, s)
    ensures InStep(look, OnData(look, s, chunk))
    ensures s.outcome == Picking && OnData(look, s, chunk).outcome.Picked? ==>
              Marked(s.frame) == [OnData(look, s, chunk).outcome.item]
  {
    if s.outcome == Picking {
      ChunkKeepsOrTypes(chunk, s.state, s.state.query, s.state.selected, look.count(|look.list(s.state.query)|));
    }
  }

  lemma {:induction false} ChunksStep<T>(look: Look<T>, s: Session<T>, chunks: seq<string>)
    requires Faithful(look) && InStep(look, s)
    ensures InStep(look, OnChunks(look, s, chunks))
  {
    if chunks == [] {
    } else {
      ChunksStep(look, s, chunks[..|chunks| - 1]);
      DataStep(look, OnChunks(look, s, chunks[..|chunks| - 1]), chunks[|chunks| - 1]);
    }
  }

  /** What you see is what you get: after any keys, if the picker is still up and
      something matches, exactly one row of the frame on screen is marked; whatever
      chunk then submits takes that row's item, and a lone Enter does submit. */
  lemma WhatYouSeeIsPicked<T>(look: Look<T>, first: State, chunks: seq<string>, chunk: string)
    requires Faithful(look) && first.status == Typing
    ensures var s := OnChunks(look, Redraw(look, first), chunks);
      var next := OnData(look, s, chunk);
      && (s.outcome == Picking && look.list(s.state.query) != [] ==>
            Marked(s.frame) == [look.list(s.state.query)[s.state.selected]]
            && OnData(look, s, "\r").outcome.Picked?)
      && (s.outcome == Picking && next.outcome.Picked? ==> Marked(s.frame) == [next.outcome.item])
  {
    var s := OnChunks(look, Redraw(look, first), chunks);
    ChunksStep(look, Redraw(look, first), chunks);
    DataStep(look, s, chunk);
    if s.outcome == Picking {
      assert ("\r")[0] == '\r';
      assert look.count(|look.list(s.state.query)|) <= |look.list(s.state.query)|;
    }
  }

  // --------------------------------------------------------- the two pickers

  /** The rows a query leaves, in display order, and the frame drawn for them. */
  function ProvidersFor(all: seq<Provider>, le: (Provider, Provider) -> bool, query: string): seq<Provider> {
    Ordered(Filter(all, ProviderMatches(query)), le)
  }

  function ModelsFor(all: seq<Model>, le: (Model, Model) -> bool, query: string): seq<Model> {
    StableSort(Filter(all, ModelMatches(query)), le)
  }

  function DrawProviders(all: seq<Provider>, le: (Provider, Provider) -> bool, query: string, selected: nat): seq<Row<Provider>> {
    ProviderFrame(query, ProvidersFor(all, le, query), selected, le)
  }

  function DrawModels(all: seq<Model>, le: (Model, Model) -> bool, query: string, selected: nat): seq<Row<Model>> {
    ModelFrame(query, ModelsFor(all, le, query), selected, le)
  }

  function ProviderLook(all: seq<Provider>, le: (Provider, Provider) -> bool): Look<Provider> {
    Look((q: string) => ProvidersFor(all, le, q), (q: string, sel: nat) => DrawProviders(all, le, q, sel), (n: nat) => n)
  }

  function ModelLook(all: seq<Model>, le: (Model, Model) -> bool): Look<Model> {
    Look((q: string) => ModelsFor(all, le, q), (q: string, sel: nat) => DrawModels(all, le, q, sel),
         (n: nat) => Min(n, LIVE_PICKER_MAX_VISIBLE))
  }

  lemma ProvidersDrawn(all: seq<Provider>, le: (Provider, Provider) -> bool, q: string, sel: nat)
    requires TotalPreorder(le) && sel < |ProvidersFor(all, le, q)|
    ensures Marked(DrawProviders(all, le, q, sel)) == [ProvidersFor(all, le, q)[sel]]
  {
    ProviderFrameMarks(q, Filter(all, ProviderMatches(q)), sel, le);
  }

  lemma ModelsDrawn(all: seq<Model>, le: (Model, Model) -> bool, q: string, sel: nat)
    requires TotalPreorder(le) && sel < |ModelsFor(all, le, q)| && sel < LIVE_PICKER_MAX_VISIBLE
    ensures Marked(DrawModels(all, le, q, sel)) == [ModelsFor(all, le, q)[sel]]
  {
    ModelFrameMarks(q, Filter(all, ModelMatches(q)), sel, le);
  }

  lemma ProvidersFaithful(all: seq<Provider>, le: (Provider, Provider) -> bool)
    requires TotalPreorder(le)
    ensures Faithful(ProviderLook(all, le))
  {
    forall q: string, sel: nat | sel < |ProvidersFor(all, le, q)|
      ensures Marked(DrawProviders(all, le, q, sel)) == [ProvidersFor(all, le, q)[sel]]
    {
      ProvidersDrawn(all, le, q, sel);
    }
  }

  lemma ModelsFaithful(all: seq<Model>, le: (Model, Model) -> bool)
    requires TotalPreorder(le)
    ensures Faithful(ModelLook(all, le))
  {
    forall q: string, sel: nat | sel < |ModelsFor(all, le, q)| && sel < LIVE_PICKER_MAX_VISIBLE
      ensures Marked(DrawModels(all, le, q, sel)) == [ModelsFor(all, le, q)[sel]]
    {
      ModelsDrawn(all, le, q, sel);
    }
  }

  /** Where the default model stands in the newest-first list. */
  function IndexOfModel(ranked: seq<Model>, id: string): (at: Option<nat>)
    ensures at.Some? ==> at.value < |ranked| && ranked[at.value].id == id &&
                         forall j :: 0 <= j < at.value ==> ranked[j].id != id
    ensures at == None <==> forall j :: 0 <= j < |ranked| ==> ranked[j].id != id
  {
    if ranked == [] then None
    else if ranked[0].id == id then Some(0)
    else match IndexOfModel(ranked[1..], id) case None => None case Some(i) => Some(i + 1)
  }

  function FirstModelState(ranked: seq<Model>, default: Option<string>): State {
    var at := if default.Some? then IndexOfModel(ranked, default.value) else None;
    State("", if at.Some? then at.value else 0, Typing)
  }

  lemma {:induction false} EverythingMatches(all: seq<Model>)
    ensures Filter(all, ModelMatches("")) == all
  {
    if all == [] {
    } else {
      EverythingMatches(all[..|all| - 1]);
    }
  }

  lemma FirstModels(all: seq<Model>, le: (Model, Model) -> bool)
    ensures ModelsFor(all, le, "") == StableSort(all, le)
  {
    EverythingMatches(all);
  }

  /** Cut off at the last row, the default's place shows the default only if it was not. */
  lemma CutShort(ranked: seq<Model>, default: string)
    requires IndexOfModel(ranked, default).Some?
    ensures var at := IndexOfModel(ranked, default).value;
      ranked[Min(at, LIVE_PICKER_MAX_VISIBLE - 1)].id == default <==> at < LIVE_PICKER_MAX_VISIBLE
  {
  }

  /** The first frame, its cursor on row `at` or, past the window, on the window's last. */
  lemma FirstFrame(all: seq<Model>, le: (Model, Model) -> bool, at: nat)
    requires at < |StableSort(all, le)|
    ensures var s, row := Redraw(ModelLook(all, le), State("", at, Typing)), Min(at, LIVE_PICKER_MAX_VISIBLE - 1);
      s.state.selected == row && s.frame == DrawModels(all, le, "", row)
  {
    FirstModels(all, le);
  }

  /** Pressing Enter at once accepts the default model exactly when it is among the
      fifteen newest: the cursor is clamped to the first window. */
  lemma DefaultModelPreselected(all: seq<Model>, default: string, le: (Model, Model) -> bool)
    requires TotalPreorder(le) && IndexOfModel(StableSort(all, le), default).Some?
    ensures var ranked := StableSort(all, le);
      var s := Redraw(ModelLook(all, le), FirstModelState(ranked, Some(default)));
      && s.state.selected < |ranked| && Marked(s.frame) == [ranked[s.state.selected]]
      && (ranked[s.state.selected].id == default <==>
            IndexOfModel(ranked, default).value < LIVE_PICKER_MAX_VISIBLE)
  {
    var ranked := StableSort(all, le);
    var at := IndexOfModel(ranked, default).value;
    FirstFrame(all, le, at);
    FirstModels(all, le);
    ModelsDrawn(all, le, "", Min(at, LIVE_PICKER_MAX_VISIBLE - 1));
    CutShort(ranked, default);
  }

  method MatchingProviders(all: seq<Provider>, query: string, le: (Provider, Provider) -> bool) returns (flat: seq<Provider>)
    ensures flat == ProvidersFor(all, le, query)
  {
    flat := OrderProvidersForDisplay(Filter(all, ProviderMatches(query)), le);
  }

  /** The provider picker's variables, changed by its input handler. */
  class ProviderPicker {
    const displayList: seq<Provider>
    const le: (Provider, Provider) -> bool
    var state: State
    var ordered: seq<Provider>
    var frame: seq<Row<Provider>>
    var outcome: Outcome<Provider>

    ghost function Look(): Look<Provider> { ProviderLook(displayList, le) }

    ghost function Value(): Session<Provider>
      reads this
    {
      Session(state, frame, outcome)
    }

    constructor (displayList: seq<Provider>, le: (Provider, Provider) -> bool)
      ensures this.displayList == displayList && this.le == le
      ensures Value() == Redraw(ProviderLook(displayList, le), State("", 0, Typing))
    {
      this.displayList, this.le := displayList, le;
      outcome := Picking;
      var list := MatchingProviders(displayList, "", le);
      var first := Clamp(State("", 0, Typing), |list|);
      ordered, state := list, first;
      frame := DrawProviders(displayList, le, "", first.selected);
    }

    method Repaint()
      modifies this
      ensures Value() == Redraw(Look(), old(state)).(outcome := old(outcome))
    {
      ordered := MatchingProviders(displayList, state.query, le);
      state := Clamp(state, |ordered|);
      frame := DrawProviders(displayList, le, state.query, state.selected);
    }

    method HandleChunk(chunk: string)
      requires outcome == Picking
      modifies this
      ensures Value() == OnData(Look(), old(Value()), chunk)
    {
      ordered := MatchingProviders(displayList, state.query, le);
      state := ApplyPickerKey(state, chunk, |ordered|);
      ordered := MatchingProviders(displayList, state.query, le);
      state := Clamp(state, |ordered|);
      if state.status == Cancelled {
        outcome := Quit;
        return;
      }
      if state.status == Submitted {
        if |ordered| == 0 {
          state := state.(status := Typing);
          Repaint();
          return;
        }
        // The clamp has put the cursor on a row, so the source's fallback to the first row is never taken.
        outcome := Picked(ordered[state.selected]);
        return;
      }
      Repaint();
    }
  }
}
