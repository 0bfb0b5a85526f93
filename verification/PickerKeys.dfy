/** What each key does to a live picker, with its bytes written out, and how a frame is
    laid out (packages/cli/src/picker.ts). */
module PickerKeys {
  import opened Prelude
  import opened Sorting
  import opened Picker
  import opened LivePicker

  /** The picker is up and the frame on screen is that of its state. */
  ghost predicate Up<T>(look: Look<T>, s: Session<T>) { Faithful(look) && InStep(look, s) && s.outcome == Picking }

  /** Still up, with this query and the cursor on this row. */
  ghost predicate Shows<T>(look: Look<T>, s: Session<T>, query: string, row: nat) {
    && s.outcome == Picking && s.state.query == query && s.frame == look.draw(query, s.state.selected)
    && (row < |look.list(query)| ==> s.state.selected == row && Marked(s.frame) == [look.list(query)[row]])
  }

  /** A key that leaves the picker typing shows the frame of where it led. */
  lemma KeyShows<T>(look: Look<T>, s: Session<T>, chunk: string, query: string, row: nat)
    requires Up(look, s)
    requires ApplyKey(s.state, chunk, look.count(|look.list(s.state.query)|)) == State(query, row, Typing)
    requires look.list(query) != [] ==> row < look.count(|look.list(query)|)
    ensures Shows(look, OnData(look, s, chunk), query, row)
  {
    assert look.count(|look.list(query)|) <= |look.list(query)|;
  }

  /** A repaint leaves the cursor where it is if there is such a row, else puts it on the
      last one, or on the first place of an empty list. */
  lemma CursorIsClamped<T>(look: Look<T>, s: State)
    ensures var next, rows := Redraw(look, s), look.count(|look.list(s.query)|);
      && next.state == s.(selected := if s.selected < rows then s.selected else if rows == 0 then 0 else rows - 1)
      && next.frame == look.draw(s.query, next.state.selected) && next.outcome == Picking
  {
  }

  // -------------------------------------------------------------- single keys

  /** The up arrow moves the mark one row up, unless it is on the first. */
  lemma UpArrow<T>(look: Look<T>, s: Session<T>)
    requires Up(look, s) && look.list(s.state.query) != []
    ensures Shows(look, OnData(look, s, ['\U{001B}', '[', 'A']), s.state.query,
                  if s.state.selected == 0 then 0 else s.state.selected - 1)
  {
    KeyShows(look, s, ['\U{001B}', '[', 'A'], s.state.query, if s.state.selected == 0 then 0 else s.state.selected - 1);
  }

  /** The down arrow moves it one row down, unless it is on the last that can be selected. */
  lemma DownArrow<T>(look: Look<T>, s: Session<T>)
    requires Up(look, s) && look.list(s.state.query) != []
    ensures var last := look.count(|look.list(s.state.query)|) - 1;
      && 0 <= s.state.selected <= last < |look.list(s.state.query)|
      && Shows(look, OnData(look, s, ['\U{001B}', '[', 'B']), s.state.query,
               if s.state.selected == last then last else s.state.selected + 1)
  {
    var chunk, last := ['\U{001B}', '[', 'B'], look.count(|look.list(s.state.query)|) - 1;
    assert chunk[2] != UP[2];
    KeyShows(look, s, chunk, s.state.query, if s.state.selected == last then last else s.state.selected + 1);
  }

  /** Escape alone, and Ctrl+U, empty the query. */
  lemma ClearingKeys<T>(look: Look<T>, s: Session<T>, key: char)
    requires Up(look, s) && key in {'\U{001B}', '\U{0015}'}
    ensures Shows(look, OnData(look, s, [key]), "", 0)
  {
    var count := look.count(|look.list(s.state.query)|);
    assert ([key])[1..] == "" && ([key])[0] == key && |[key]| == 1;
    assert ReadChunk("", s.state, "", 0, count) == State("", 0, Typing);
    KeyShows(look, s, [key], "", 0);
  }

  /** Delete and backspace drop the query's last character, if it has one. */
  lemma ErasingKeys<T>(look: Look<T>, s: Session<T>, key: char)
    requires Up(look, s) && key in {'\U{007F}', '\U{0008}'}
    ensures Shows(look, OnData(look, s, [key]), if s.state.query == "" then "" else s.state.query[..|s.state.query| - 1], 0)
  {
    var query := if s.state.query == "" then "" else s.state.query[..|s.state.query| - 1];
    var count := look.count(|look.list(s.state.query)|);
    assert ([key])[1..] == "" && ([key])[0] == key && |[key]| == 1;
    assert ReadChunk("", s.state, query, 0, count) == State(query, 0, Typing);
    KeyShows(look, s, [key], query, 0);
  }

  /** Every other escape sequence is ignored. */
  lemma OtherSequences<T>(look: Look<T>, s: Session<T>, rest: string)
    requires Up(look, s) && rest !in {"", "[A", "[B"}
    ensures Shows(look, OnData(look, s, ['\U{001B}'] + rest), s.state.query, s.state.selected)
  {
    var chunk := ['\U{001B}'] + rest;
    assert chunk[0] == ESC && chunk[1..] == rest && UP[1..] == "[A" && DOWN[1..] == "[B" && ([ESC])[1..] == "";
    KeyShows(look, s, chunk, s.state.query, s.state.selected);
  }

  // ------------------------------------------------------------ typed chunks

  predicate Ends(c: char) { c == '\r' || c == '\n' || c == '\U{0003}' }

  predicate Printable(c: char) { c >= ' ' && c != '\U{007F}' }

  /** A chunk that neither starts with an escape nor holds an Enter or a Ctrl+C. */
  predicate OnlyEdits(chunk: string) {
    (chunk != "" ==> chunk[0] != '\U{001B}') && forall i :: 0 <= i < |chunk| ==> !Ends(chunk[i])
  }

  lemma {:induction false} PrintableChunk(chunk: string, before: State, query: string, selected: nat, matchCount: nat)
    requires forall i :: 0 <= i < |chunk| ==> Printable(chunk[i])
    ensures ReadChunk(chunk, before, query, selected, matchCount) ==
            State(query + chunk, if chunk == "" then selected else 0, Typing)
  {
    if chunk == "" {
      assert query + chunk == query;
    } else {
      var ch := chunk[0];
      assert Printable(ch);
      PrintableChunk(chunk[1..], before, query + [ch], 0, matchCount);
      assert query + [ch] + chunk[1..] == query + chunk;
    }
  }

  /** Printable text, typed or pasted, goes to the end of the query. */
  lemma TypedText<T>(look: Look<T>, s: Session<T>, chunk: string)
    requires Up(look, s) && chunk != "" && forall i :: 0 <= i < |chunk| ==> Printable(chunk[i])
    ensures Shows(look, OnData(look, s, chunk), s.state.query + chunk, 0)
  {
    assert Printable(chunk[0]);
    PrintableChunk(chunk, s.state, s.state.query, s.state.selected, look.count(|look.list(s.state.query)|));
    KeyShows(look, s, chunk, s.state.query + chunk, 0);
  }

  lemma {:induction false} EditsType(chunk: string, before: State, query: string, selected: nat, matchCount: nat)
    requires forall i :: 0 <= i < |chunk| ==> !Ends(chunk[i])
    ensures var r := ReadChunk(chunk, before, query, selected, matchCount);
      r.status == Typing && (r.selected == 0 || (r.selected == selected && r.query == query))
  {
    if chunk == "" {
    } else {
      assert !Ends(chunk[0]);
      EditsType(chunk[1..], before, query, selected, matchCount);
      EditsType(chunk[1..], before, "", 0, matchCount);
      EditsType(chunk[1..], before, if |query| > 0 then query[..|query| - 1] else query, 0, matchCount);
      EditsType(chunk[1..], before, query + [chunk[0]], 0, matchCount);
    }
  }

  /** Reading on after a part of a chunk that only edits. */
  lemma {:induction false} ReadOn(a: string, b: string, before: State, query: string, selected: nat, matchCount: nat)
    requires forall i :: 0 <= i < |a| ==> !Ends(a[i])
    ensures var mid := ReadChunk(a, before, query, selected, matchCount);
      ReadChunk(a + b, before, query, selected, matchCount) == ReadChunk(b, before, mid.query, mid.selected, matchCount)
  {
    if a == "" {
      assert a + b == b;
    } else {
      assert !Ends(a[0]) && (a + b)[0] == a[0] && (a + b)[1..] == a[1..] + b;
      ReadOn(a[1..], b, before, query, selected, matchCount);
      ReadOn(a[1..], b, before, "", 0, matchCount);
      ReadOn(a[1..], b, before, if |query| > 0 then query[..|query| - 1] else query, 0, matchCount);
      ReadOn(a[1..], b, before, query + [a[0]], 0, matchCount);
    }
  }

  /** Ctrl+C quits, whatever was in the chunk before it, as long as no Enter was. */
  lemma ControlC<T>(look: Look<T>, s: Session<T>, a: string, b: string)
    requires Up(look, s) && OnlyEdits(a)
    ensures OnData(look, s, a + ['\U{0003}'] + b).outcome == Quit
  {
    var rest := ['\U{0003}'] + b;
    var count := look.count(|look.list(s.state.query)|);
    assert a + ['\U{0003}'] + b == a + rest && (a + rest)[0] == if a == "" then rest[0] else a[0];
    ReadOn(a, rest, s.state, s.state.query, s.state.selected, count);
    assert rest[0] == '\U{0003}';
  }

  /** Enter takes the marked row when something matches the query on screen, and does
      nothing when not; what the chunk typed before it is dropped. */
  lemma Enter<T>(look: Look<T>, s: Session<T>, a: string, key: char, b: string)
    requires Up(look, s) && OnlyEdits(a) && key in {'\r', '\n'}
    ensures var next, list := OnData(look, s, a + [key] + b), look.list(s.state.query);
      if list != [] then s.state.selected < |list| && next.outcome == Picked(list[s.state.selected])
      else Shows(look, next, s.state.query, 0)
  {
    var rest := [key] + b;
    var count := look.count(|look.list(s.state.query)|);
    assert a + [key] + b == a + rest && (a + rest)[0] == if a == "" then rest[0] else a[0];
    ReadOn(a, rest, s.state, s.state.query, s.state.selected, count);
    assert rest[0] == key;
    assert count <= |look.list(s.state.query)|;
  }

  /** The match count matters to Enter only. */
  lemma {:induction false} EditsIgnoreCount(chunk: string, before: State, other: State, query: string, selected: nat, m: nat, n: nat)
    requires forall i :: 0 <= i < |chunk| ==> !Ends(chunk[i])
    ensures ReadChunk(chunk, before, query, selected, m) == ReadChunk(chunk, other, query, selected, n)
  {
    if chunk == "" {
    } else {
      assert !Ends(chunk[0]);
      EditsIgnoreCount(chunk[1..], before, other, query, selected, m, n);
      EditsIgnoreCount(chunk[1..], before, other, "", 0, m, n);
      EditsIgnoreCount(chunk[1..], before, other, if |query| > 0 then query[..|query| - 1] else query, 0, m, n);
      EditsIgnoreCount(chunk[1..], before, other, query + [chunk[0]], 0, m, n);
    }
  }

  lemma EditsTo<T>(look: Look<T>, s: Session<T>, chunk: string)
    requires Up(look, s) && OnlyEdits(chunk)
    ensures var r, next := ReadChunk(chunk, s.state, s.state.query, s.state.selected, 0), OnData(look, s, chunk);
      next == Redraw(look, r)
  {
    var count := look.count(|look.list(s.state.query)|);
    EditsIgnoreCount(chunk, s.state, s.state, s.state.query, s.state.selected, 0, count);
    EditsType(chunk, s.state, s.state.query, s.state.selected, count);
  }

  /** Pasting is typing: a chunk that only edits does what its parts do one after the
      other. */
  lemma PasteIsTyping<T>(look: Look<T>, s: Session<T>, a: string, b: string)
    requires Up(look, s) && OnlyEdits(a) && OnlyEdits(b)
    ensures OnData(look, s, a + b) == OnData(look, OnData(look, s, a), b)
  {
    var state := s.state;
    var mid := ReadChunk(a, state, state.query, state.selected, 0);
    EditsTo(look, s, a);
    DataStep(look, s, a);
    assert (a + b != "" ==> (a + b)[0] == if a == "" then b[0] else a[0]);
    EditsTo(look, s, a + b);
    ReadOn(a, b, state, state.query, state.selected, 0);
    var next := Redraw(look, mid);
    EditsTo(look, next, b);
    EditsType(b, state, mid.query, mid.selected, 0);
    EditsIgnoreCount(b, state, next.state, mid.query, mid.selected, 0, 0);
    ClampEarly(b, look.count(|look.list(mid.query)|), next.state, mid.query, mid.selected);
  }

  /** Clamping the cursor before an edit leaves it where clamping it after would. */
  lemma {:induction false} ClampEarly(chunk: string, visible: nat, before: State, query: string, selected: nat)
    requires forall i :: 0 <= i < |chunk| ==> !Ends(chunk[i])
    ensures var late := ReadChunk(chunk, before, query, selected, 0);
      var early := ReadChunk(chunk, before, query, Clamp(State(query, selected, Typing), visible).selected, 0);
      early == late || (late.query == query && late.selected == selected &&
                        early == Clamp(State(query, selected, Typing), visible))
  {
    if chunk == "" {
    } else {
      assert !Ends(chunk[0]);
      ClampEarly(chunk[1..], visible, before, query, selected);
    }
  }
}
