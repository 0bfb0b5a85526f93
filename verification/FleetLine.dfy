/** packages/cli/src/fleet-statusline.ts, the formatter: the agents become one coloured
    line, cut to the terminal's width without splitting a colour code. Colour codes are
    SGR control functions, section 8.3.117 of ECMA-48. */
module FleetLine {
  import opened Prelude
  import opened Sorting

  const MAX_SHOWN: nat := 4

  datatype Status = Running | Done | Failed

  datatype Agent = Agent(
    id: string,
    name: string,
    status: Status,
    iterations: nat,
    toolCalls: nat,
    lastTool: Option<string>,
    startedAt: int,
    endedAt: Option<int>,
    extensions: nat)

  // -------------------------------------------------------- colour codes

  predicate IsParam(c: char) { '0' <= c <= '9' || c == ';' }

  function ParamRun(s: string): (n: nat)
    ensures n <= |s| && (n < |s| ==> !IsParam(s[n])) && forall i :: 0 <= i < n ==> IsParam(s[i])
  {
    if s != "" && IsParam(s[0]) then 1 + ParamRun(s[1..]) else 0
  }

  /** How long the colour code at the front of `s` is; 0 if there is none. */
  function SgrLength(s: string): (n: nat)
    ensures n <= |s|
  {
    if |s| >= 2 && s[0] == ESC && s[1] == '[' then
      var n := 2 + ParamRun(s[2..]);
      if n < |s| && s[n] == 'm' then n + 1 else 0
    else 0
  }

  /** The line with every colour code taken out. */
  function Visible(s: string): string
    decreases |s|
  {
    if s == "" then ""
    else if SgrLength(s) > 0 then Visible(s[SgrLength(s)..])
    else [s[0]] + Visible(s[1..])
  }

  /** Every escape character starts a complete colour code. */
  predicate Whole(s: string)
    decreases |s|
  {
    s == "" ||
    if s[0] == ESC then SgrLength(s) > 0 && Whole(s[SgrLength(s)..]) else Whole(s[1..])
  }

  lemma {:induction false} ParamRunOfAppend(a: string, b: string)
    requires ParamRun(a) < |a|
    ensures ParamRun(a + b) == ParamRun(a)
  {
    assert (a + b)[1..] == a[1..] + b;
    if !IsParam(a[0]) {
    } else {
      ParamRunOfAppend(a[1..], b);
    }
  }

  lemma SgrOfAppend(a: string, b: string)
    requires SgrLength(a) > 0
    ensures SgrLength(a + b) == SgrLength(a)
  {
    assert (a + b)[2..] == a[2..] + b;
    ParamRunOfAppend(a[2..], b);
  }

  lemma {:induction false} VisibleOfAppend(a: string, b: string)
    requires Whole(a)
    ensures Visible(a + b) == Visible(a) + Visible(b)
    ensures Whole(b) ==> Whole(a + b)
    decreases |a|
  {
    if a == "" {
      assert a + b == b;
    } else if a[0] == ESC {
      var n := SgrLength(a);
      SgrOfAppend(a, b);
      assert (a + b)[n..] == a[n..] + b;
      VisibleOfAppend(a[n..], b);
    } else {
      assert (a + b)[1..] == a[1..] + b;
      VisibleOfAppend(a[1..], b);
    }
  }

  lemma {:induction false} CleanIsVisible(s: string)
    requires ESC !in s
    ensures Whole(s) && Visible(s) == s
  {
    if s == "" {
    } else {
      CleanIsVisible(s[1..]);
    }
  }

  // ------------------------------------------------------------- truncation

  /** `s.indexOf(c, from)`. */
  function IndexOf(s: string, c: char, from: nat): (at: Option<nat>)
    requires from <= |s|
    ensures at.Some? ==> from <= at.value < |s| && s[at.value] == c
    decreases |s| - from
  {
    if from == |s| then None
    else if s[from] == c then Some(from)
    else IndexOf(s, c, from + 1)
  }

  lemma {:induction false} FirstAt(s: string, c: char, from: nat, k: nat)
    requires from <= k < |s| && s[k] == c && forall i :: from <= i < k ==> s[i] != c
    ensures IndexOf(s, c, from) == Some(k)
    decreases k - from
  {
    if from >= k {
    } else {
      FirstAt(s, c, from + 1, k);
    }
  }

  lemma {:induction false} IndexInRest(s: string, c: char, i: nat, from: nat)
    requires i <= from <= |s|
    ensures IndexOf(s[i..], c, from - i) == match IndexOf(s, c, from) case None => None case Some(k) => Some(k - i)
    decreases |s| - from
  {
    if from >= |s| {
    } else {
      IndexInRest(s, c, i, from + 1);
    }
  }

  /** What the loop copies while `budget` visible characters are left: an escape is
      copied up to the next `m` and costs nothing. */
  function Cut(s: string, budget: nat): string
    decreases |s|
  {
    if s == "" || budget == 0 then ""
    else if s[0] == ESC && IndexOf(s, 'm', 0).Some? then
      var n := IndexOf(s, 'm', 0).value + 1;
      s[..n] + Cut(s[n..], budget)
    else [s[0]] + Cut(s[1..], budget - 1)
  }

  function Fit(line: string, max: nat): string
    requires max > 0
  {
    if |Visible(line)| > max then Cut(line, max - 1) + "…" else line
  }

  /** Where the loop stops if it stands at `i` with `budget` characters left. */
  function StopAt(s: string, i: nat, budget: nat): (stop: nat)
    requires i <= |s|
    ensures i <= stop <= |s|
    decreases |s| - i
  {
    if i == |s| || budget == 0 then i
    else if s[i] == ESC && IndexOf(s, 'm', i).Some? then StopAt(s, IndexOf(s, 'm', i).value + 1, budget)
    else StopAt(s, i + 1, budget - 1)
  }

  lemma CutCode(t: string, n: nat, budget: nat)
    requires t != "" && t[0] == ESC && budget > 0 && IndexOf(t, 'm', 0) == Some(n)
    ensures n < |t| && Cut(t, budget) == t[..n + 1] + Cut(t[n + 1..], budget)
  {
  }

  lemma CutChar(t: string, budget: nat)
    requires t != "" && budget > 0 && !(t[0] == ESC && IndexOf(t, 'm', 0).Some?)
    ensures Cut(t, budget) == [t[0]] + Cut(t[1..], budget - 1)
  {
  }

  lemma CutAtCode(s: string, i: nat, budget: nat)
    requires i < |s| && budget > 0 && s[i] == ESC && IndexOf(s, 'm', i).Some?
    ensures var next := IndexOf(s, 'm', i).value + 1; Cut(s[i..], budget) == s[i..next] + Cut(s[next..], budget)
  {
    var next := IndexOf(s, 'm', i).value + 1;
    IndexInRest(s, 'm', i, i);
    CutCode(s[i..], next - 1 - i, budget);
    assert s[i..][..next - i] == s[i..next];
    assert s[i..][next - i..] == s[next..];
  }

  lemma CutAtChar(s: string, i: nat, budget: nat)
    requires i < |s| && budget > 0 && !(s[i] == ESC && IndexOf(s, 'm', i).Some?)
    ensures Cut(s[i..], budget) == [s[i]] + Cut(s[i + 1..], budget - 1)
  {
    IndexInRest(s, 'm', i, i);
    CutChar(s[i..], budget);
    assert s[i..][1..] == s[i + 1..];
  }

  lemma Join(s: string, i: nat, j: nat, k: nat)
    requires i <= j <= k <= |s|
    ensures s[i..j] + s[j..k] == s[i..k]
  {
  }

  /** The loop copies everything up to where it stops. */
  lemma {:induction false} CutIsPrefix(s: string, i: nat, budget: nat)
    requires i <= |s|
    ensures Cut(s[i..], budget) == s[i..StopAt(s, i, budget)]
    decreases |s| - i
  {
    var stop := StopAt(s, i, budget);
    if i == |s| || budget == 0 {
    } else if s[i] == ESC && IndexOf(s, 'm', i).Some? {
      var next := IndexOf(s, 'm', i).value + 1;
      CutAtCode(s, i, budget);
      CutIsPrefix(s, next, budget);
      Join(s, i, next, stop);
    } else {
      CutAtChar(s, i, budget);
      CutIsPrefix(s, i + 1, budget - 1);
      Join(s, i, i + 1, stop);
      assert s[i..i + 1] == [s[i]];
    }
  }

  /** The copying loop; what it has copied is the line up to `i`. */
  method CopyVisible(line: string, budget: nat) returns (kept: string)
    ensures kept == Cut(line, budget)
  {
    var count, i: nat := 0, 0;
    kept := "";
    while i < |line| && count < budget
      invariant i <= |line| && count <= budget
      invariant kept == line[..i]
      invariant StopAt(line, i, budget - count) == StopAt(line, 0, budget)
    {
      var end := if line[i] == ESC then IndexOf(line, 'm', i) else None;
      if end.Some? {
        kept := kept + line[i..end.value + 1];
        i := end.value + 1;
      } else {
        kept := kept + [line[i]];
        count := count + 1;
        i := i + 1;
      }
    }
    assert i == StopAt(line, 0, budget);
    assert line[0..] == line;
    CutIsPrefix(line, 0, budget);
  }

  method TruncateLine(line: string, max: nat) returns (r: string)
    requires max > 0
    ensures r == Fit(line, max)
  {
    if |Visible(line)| <= max { return line; }
    r := CopyVisible(line, max - 1);
    r := r + "…";
  }

  /** In a whole line, the code at the front ends at the next `m`. */
  lemma CodeEndsAtM(s: string)
    requires SgrLength(s) > 0
    ensures IndexOf(s, 'm', 0) == Some(SgrLength(s) - 1)
  {
    var n := SgrLength(s) - 1;
    assert s[2..][..n - 2] == s[2..n];
    forall i | 0 <= i < n ensures s[i] != 'm' {
      if i >= 2 { assert s[i] == s[2..][i - 2]; }
    }
    FirstAt(s, 'm', 0, n);
  }

  lemma CodeAlone(code: string, s: string)
    requires SgrLength(s) > 0 && code == s[..SgrLength(s)]
    ensures SgrLength(code) == |code|
  {
    ParamRunOfPrefix(s[2..], code[2..]);
  }

  lemma {:induction false} ParamRunOfPrefix(s: string, p: string)
    requires p <= s && ParamRun(s) < |p|
    ensures ParamRun(p) == ParamRun(s)
  {
    if !IsParam(s[0]) {
    } else {
      ParamRunOfPrefix(s[1..], p[1..]);
    }
  }

  /** A complete code in front adds nothing to what is seen. */
  lemma CodeInFront(code: string, rest: string, s: string)
    requires SgrLength(s) > 0 && code == s[..SgrLength(s)]
    ensures Visible(code + rest) == Visible(rest) && (Whole(rest) ==> Whole(code + rest))
  {
    var n := SgrLength(s);
    assert code[2..] + s[n..] == s[2..];
    CodeAlone(code, s);
    SgrOfAppend(code, rest);
    assert (code + rest)[n..] == rest;
  }

  /** `kept` is a prefix of the line, splits no colour code, and shows the line's first
      `budget` visible characters. */
  predicate ShowsFirst(s: string, budget: nat, kept: string) {
    && kept <= s && Whole(kept) && Whole(s[|kept|..])
    && Visible(kept) == Visible(s)[..Min(budget, |Visible(s)|)]
  }

  lemma SamePrefix(s: string, n: nat, kept: string)
    requires n <= |s| && kept <= s[n..]
    ensures s[..n] + kept <= s && s[n..][|kept|..] == s[|s[..n] + kept|..]
  {
  }

  lemma CharInFront(c: char, rest: string)
    requires c != ESC
    ensures Visible([c] + rest) == [c] + Visible(rest) && (Whole(rest) ==> Whole([c] + rest))
  {
    assert ([c] + rest)[1..] == rest;
  }

  lemma CodeFirst(s: string, budget: nat, kept: string)
    requires s != "" && s[0] == ESC && Whole(s) && ShowsFirst(s[SgrLength(s)..], budget, kept)
    ensures ShowsFirst(s, budget, s[..SgrLength(s)] + kept)
  {
    CodeInFront(s[..SgrLength(s)], kept, s);
    SamePrefix(s, SgrLength(s), kept);
  }

  lemma CharFirst(s: string, budget: nat, kept: string)
    requires s != "" && s[0] != ESC && budget > 0 && ShowsFirst(s[1..], budget - 1, kept)
    ensures ShowsFirst(s, budget, [s[0]] + kept)
  {
    CharInFront(s[0], kept);
    SamePrefix(s, 1, kept);
    assert s[..1] == [s[0]];
    var rest := Visible(s[1..]);
    assert ([s[0]] + rest)[..Min(budget, 1 + |rest|)] == [s[0]] + rest[..Min(budget - 1, |rest|)];
  }

  /** What the loop keeps. */
  lemma {:induction false} CutShows(s: string, budget: nat)
    requires Whole(s)
    ensures ShowsFirst(s, budget, Cut(s, budget))
    decreases |s|
  {
    if s == "" || budget == 0 {
    } else if s[0] == ESC {
      CodeEndsAtM(s);
      CutShows(s[SgrLength(s)..], budget);
      CodeFirst(s, budget, Cut(s[SgrLength(s)..], budget));
    } else {
      CutShows(s[1..], budget - 1);
      CharFirst(s, budget, Cut(s[1..], budget - 1));
    }
  }

  /** What the cut leaves to be read. */
  function FitText(text: string, max: nat): string
    requires max > 0
  {
    if |text| > max then text[..max - 1] + "…" else text
  }

  lemma FitShows(line: string, max: nat)
    requires Whole(line) && max > 0
    ensures Whole(Fit(line, max)) && Visible(Fit(line, max)) == FitText(Visible(line), max)
  {
    CutShows(line, max - 1);
    CleanIsVisible("…");
    VisibleOfAppend(Cut(line, max - 1), "…");
  }

  lemma FitOfClean(text: string, max: nat)
    requires ESC !in text && max > 0
    ensures Fit(text, max) == FitText(text, max)
  {
    CleanIsVisible(text);
    CutOfClean(text, max - 1);
  }

  lemma {:induction false} CutOfClean(s: string, budget: nat)
    requires ESC !in s
    ensures Cut(s, budget) == s[..Min(budget, |s|)]
  {
    if s == "" || budget == 0 {
    } else {
      CutOfClean(s[1..], budget - 1);
    }
  }

  // -------------------------------------------------------------- the text

  datatype Style = Plain | Bold | Dim | Red | Green | Yellow | Cyan

  /** A stretch of text in one style: `color.bold(text)` and so on. */
  datatype Piece = Piece(style: Style, text: string)

  function OpenCode(style: Style): string {
    match style
    case Plain => "" case Bold => "1" case Dim => "2"
    case Red => "31" case Green => "32" case Yellow => "33" case Cyan => "36"
  }

  function CloseCode(style: Style): string {
    match style
    case Plain => "" case Bold => "22" case Dim => "22"
    case Red => "39" case Green => "39" case Yellow => "39" case Cyan => "39"
  }

  function Sgr(code: string): string { [ESC, '['] + code + "m" }

  /** `colour` is whether the terminal takes colours at all. */
  function Paint(colour: bool, p: Piece): string {
    if colour && p.style != Plain then Sgr(OpenCode(p.style)) + p.text + Sgr(CloseCode(p.style)) else p.text
  }

  function PaintAll(colour: bool, ps: seq<Piece>): string {
    if ps == [] then "" else Paint(colour, ps[0]) + PaintAll(colour, ps[1..])
  }

  function TextOf(ps: seq<Piece>): string {
    if ps == [] then "" else ps[0].text + TextOf(ps[1..])
  }

  /** Every piece's text is whole: it may hold colour codes of its own, but no escape
      that is not one. */
  predicate Clean(ps: seq<Piece>) {
    ps == [] || (Whole(ps[0].text) && Clean(ps[1..]))
  }

  lemma {:induction false} CleanAppend(a: seq<Piece>, b: seq<Piece>)
    requires Clean(a) && Clean(b)
    ensures Clean(a + b)
  {
    if a == [] {
      assert a + b == b;
    } else {
      assert (a + b)[1..] == a[1..] + b;
      CleanAppend(a[1..], b);
    }
  }

  lemma Between(open: string, text: string, close: string)
    requires Whole(open) && Visible(open) == "" && Whole(close) && Visible(close) == ""
    requires Whole(text)
    ensures Whole(open + text + close) && Visible(open + text + close) == Visible(text)
  {
    VisibleOfAppend(open, text);
    VisibleOfAppend(open + text, close);
    assert "" + Visible(text) + "" == Visible(text);
  }

  /** Colouring a whole text: whole, and it shows what the text shows. */
  lemma PaintShows(colour: bool, p: Piece)
    requires Whole(p.text)
    ensures Whole(Paint(colour, p)) && Visible(Paint(colour, p)) == Visible(p.text)
  {
    CodeShows(OpenCode(p.style));
    CodeShows(CloseCode(p.style));
    Between(Sgr(OpenCode(p.style)), p.text, Sgr(CloseCode(p.style)));
  }

  lemma CodeShows(code: string)
    requires forall i :: 0 <= i < |code| ==> IsParam(code[i])
    ensures Whole(Sgr(code)) && Visible(Sgr(code)) == ""
  {
    var s := Sgr(code);
    assert s[2..] == code + "m";
    AllParams(code);
    assert SgrLength(s) == |s|;
  }

  lemma {:induction false} AllParams(code: string)
    requires forall i :: 0 <= i < |code| ==> IsParam(code[i])
    ensures ParamRun(code + "m") == |code|
  {
    if code == "" {
    } else {
      assert (code + "m")[1..] == code[1..] + "m";
      AllParams(code[1..]);
    }
  }

  lemma {:induction false} PaintAllShows(colour: bool, ps: seq<Piece>)
    requires Clean(ps)
    ensures Whole(PaintAll(colour, ps)) && Visible(PaintAll(colour, ps)) == Visible(TextOf(ps))
  {
    if ps == [] {
    } else {
      PaintShows(colour, ps[0]);
      PaintAllShows(colour, ps[1..]);
      VisibleOfAppend(Paint(colour, ps[0]), PaintAll(colour, ps[1..]));
      VisibleOfAppend(ps[0].text, TextOf(ps[1..]));
    }
  }

  function Pad2(n: nat): (s: string)
    ensures ESC !in s
  {
    if n < 10 then "0" + Digits(n) else Digits(n)
  }

  function FmtElapsed(ms: nat): (s: string)
    ensures ESC !in s
  {
    var s := ms / 1000;
    if s < 60 then Digits(s) + "s"
    else
      var m := s / 60;
      if m < 60 then Digits(m) + "m" + Pad2(s % 60) + "s"
      else Digits(m / 60) + "h" + Pad2(m % 60) + "m"
  }

  predicate IsRunning(a: Agent) { a.status == Running }

  predicate IsDone(a: Agent) { a.status == Done }

  predicate IsFailed(a: Agent) { a.status == Failed }

  predicate StartedFirst(a: Agent, b: Agent) { a.startedAt <= b.startedAt }

  /** The running agents, longest-running first. */
  function ByStart(all: seq<Agent>): seq<Agent> { StableSort(Filter(all, IsRunning), StartedFirst) }

  function Shown(all: seq<Agent>): seq<Agent> {
    var running := ByStart(all);
    running[..Min(MAX_SHOWN, |running|)]
  }

  function VersionChip(version: Option<string>): seq<Piece> {
    if version.Some? && version.value != "" then
      [Piece(Bold, "WS"), Piece(Dim, " v" + version.value), Piece(Plain, " "), Piece(Dim, "│"), Piece(Plain, " ")]
    else []
  }

  function CountPieces(all: seq<Agent>): seq<Piece> {
    var failed := |Filter(all, IsFailed)|;
    [Piece(Cyan, "⟳ fleet"), Piece(Plain, " "),
     Piece(Yellow, "▶" + Digits(|Filter(all, IsRunning)|)), Piece(Plain, " "),
     Piece(Green, "✓" + Digits(|Filter(all, IsDone)|))] +
    if failed > 0 then [Piece(Plain, " "), Piece(Red, "✗" + Digits(failed))] else []
  }

  function AgentBase(a: Agent, now: int): seq<Piece> {
    [Piece(Bold, a.name), Piece(Plain, " "), Piece(Yellow, "▶"), Piece(Plain, " "),
     Piece(Dim, FmtElapsed(Max(0, now - a.startedAt))), Piece(Plain, " "),
     Piece(Dim, "L" + Digits(a.iterations)), Piece(Plain, " "), Piece(Dim, Digits(a.toolCalls) + "t")]
  }

  function ToolPieces(a: Agent): seq<Piece> {
    if a.lastTool.Some? && a.lastTool.value != "" then [Piece(Plain, " "), Piece(Dim, a.lastTool.value)] else []
  }

  function ExtensionPieces(a: Agent): seq<Piece> {
    if a.extensions > 0 then [Piece(Plain, " "), Piece(Yellow, "⚡" + Digits(a.extensions))] else []
  }

  function AgentPieces(a: Agent, now: int): seq<Piece> {
    AgentBase(a, now) + ToolPieces(a) + ExtensionPieces(a)
  }

  function AgentsJoined(agents: seq<Agent>, now: int): seq<Piece> {
    if agents == [] then []
    else if |agents| == 1 then AgentPieces(agents[0], now)
    else AgentPieces(agents[0], now) + [Piece(Dim, "  ·  ")] + AgentsJoined(agents[1..], now)
  }

  function LinePieces(all: seq<Agent>, now: int, version: Option<string>): seq<Piece> {
    var shown := Shown(all);
    VersionChip(version) + CountPieces(all) +
    if shown != [] then [Piece(Plain, " "), Piece(Dim, "│"), Piece(Plain, " ")] + AgentsJoined(shown, now) else []
  }

  function Width(columns: int): (max: nat)
    ensures max >= 20
  {
    Max(20, columns - 1)
  }

  function LineText(colour: bool, all: seq<Agent>, now: int, columns: int, version: Option<string>): string {
    if all == [] then "" else Fit(PaintAll(colour, LinePieces(all, now, version)), Width(columns))
  }

  method RenderFleetLine(colour: bool, all: seq<Agent>, now: int, columns: int, version: Option<string>)
    returns (line: string)
    ensures line == LineText(colour, all, now, columns, version)
  {
    if |all| == 0 { return ""; }
    line := TruncateLine(PaintAll(colour, LinePieces(all, now, version)), Width(columns));
  }

  // ------------------------------------------------------------ the theorems

  predicate WholeAgent(a: Agent) { Whole(a.name) && (a.lastTool.Some? ==> Whole(a.lastTool.value)) }

  predicate AllWhole(all: seq<Agent>) {
    forall i :: 0 <= i < |all| ==> WholeAgent(all[i])
  }

  predicate WholeVersion(version: Option<string>) { version.Some? ==> Whole(version.value) }

  lemma AgentPiecesClean(a: Agent, now: int)
    requires WholeAgent(a)
    ensures Clean(AgentPieces(a, now))
  {
    AllClean(AgentBase(a, now)[1..]);
    assert Clean(AgentBase(a, now));
    var tool := ToolPieces(a);
    AllClean(tool[..Min(1, |tool|)]);
    assert Clean(tool);
    AllClean(ExtensionPieces(a));
    CleanAppend(AgentBase(a, now), ToolPieces(a));
    CleanAppend(AgentBase(a, now) + ToolPieces(a), ExtensionPieces(a));
  }

  lemma {:induction false} AllClean(ps: seq<Piece>)
    requires forall i :: 0 <= i < |ps| ==> ESC !in ps[i].text
    ensures Clean(ps)
  {
    if ps == [] {
    } else {
      CleanIsVisible(ps[0].text);
      AllClean(ps[1..]);
    }
  }

  lemma {:induction false} JoinedClean(agents: seq<Agent>, now: int)
    requires AllWhole(agents)
    ensures Clean(AgentsJoined(agents, now))
  {
    if agents == [] {
    } else {
      AgentPiecesClean(agents[0], now);
      if |agents| > 1 {
        JoinedClean(agents[1..], now);
        AllClean([Piece(Dim, "  ·  ")]);
        CleanAppend(AgentPieces(agents[0], now), [Piece(Dim, "  ·  ")]);
        CleanAppend(AgentPieces(agents[0], now) + [Piece(Dim, "  ·  ")], AgentsJoined(agents[1..], now));
      }
    }
  }

  lemma CountsClean(all: seq<Agent>)
    ensures Clean(CountPieces(all))
  {
    AllClean(CountPieces(all));
  }

  lemma ChipClean(version: Option<string>)
    requires WholeVersion(version)
    ensures Clean(VersionChip(version))
  {
    if VersionChip(version) != [] {
      var chip := VersionChip(version);
      AllClean(chip[2..]);
      CleanIsVisible(" v");
      VisibleOfAppend(" v", version.value);
      CleanIsVisible("WS");
      assert chip[1..][1..] == chip[2..];
      assert Clean(chip[1..]);
    }
  }

  lemma ShownClean(all: seq<Agent>)
    requires AllWhole(all)
    ensures AllWhole(Shown(all))
  {
    forall i | 0 <= i < |Shown(all)| ensures WholeAgent(Shown(all)[i]) {
      assert ByStart(all)[i] == Shown(all)[i];
      ByStartHolds(all, Shown(all)[i]);
    }
  }

  lemma LinePiecesClean(all: seq<Agent>, now: int, version: Option<string>)
    requires AllWhole(all) && WholeVersion(version)
    ensures Clean(LinePieces(all, now, version))
  {
    var shown, chip, counts := Shown(all), VersionChip(version), CountPieces(all);
    ChipClean(version);
    CountsClean(all);
    CleanAppend(chip, counts);
    ShownClean(all);
    JoinedClean(shown, now);
    var divider := [Piece(Plain, " "), Piece(Dim, "│"), Piece(Plain, " ")];
    AllClean(divider);
    CleanAppend(divider, AgentsJoined(shown, now));
    CleanAppend(chip + counts, if shown != [] then divider + AgentsJoined(shown, now) else []);
  }

  /** What is seen of the line is what the plain text shows, or its first width - 1
      characters and an ellipsis, where the width is never below 20; no colour code is
      split. The names, tools and version may hold colour codes of their own. */
  lemma LineFits(colour: bool, all: seq<Agent>, now: int, columns: int, version: Option<string>)
    requires all != [] && AllWhole(all) && WholeVersion(version)
    ensures var line := LineText(colour, all, now, columns, version);
      && Whole(line)
      && Visible(line) == FitText(Visible(TextOf(LinePieces(all, now, version))), Width(columns))
      && |Visible(line)| <= Width(columns)
  {
    var ps := LinePieces(all, now, version);
    LinePiecesClean(all, now, version);
    PaintAllShows(colour, ps);
    FitShows(PaintAll(colour, ps), Width(columns));
  }

  /** So such a line fits the terminal, except that the floor of 20 lets a longer text
      wrap on a terminal narrower than that. */
  lemma FitsTerminal(colour: bool, all: seq<Agent>, now: int, columns: nat, version: Option<string>)
    requires all != [] && AllWhole(all) && WholeVersion(version)
    ensures |Visible(LineText(colour, all, now, columns, version))| <= columns <==>
            columns >= 20 || |Visible(TextOf(LinePieces(all, now, version)))| <= columns
  {
    LineFits(colour, all, now, columns, version);
  }

  /** Colours never change what is read: the coloured line and the colourless one show
      the same, which is the colourless line itself when it holds no escape. */
  lemma ColourIsInvisible(all: seq<Agent>, now: int, columns: int, version: Option<string>)
    requires AllWhole(all) && WholeVersion(version)
    ensures var plain := LineText(false, all, now, columns, version);
      && Visible(LineText(true, all, now, columns, version)) == Visible(plain)
      && (ESC !in TextOf(LinePieces(all, now, version)) ==> Visible(plain) == plain)
  {
    if all != [] {
      var ps := LinePieces(all, now, version);
      LineFits(true, all, now, columns, version);
      LineFits(false, all, now, columns, version);
      if ESC !in TextOf(ps) {
        PlainPaint(ps);
        CleanIsVisible(TextOf(ps));
        FitOfClean(TextOf(ps), Width(columns));
      }
    }
  }

  lemma {:induction false} PlainPaint(ps: seq<Piece>)
    ensures PaintAll(false, ps) == TextOf(ps)
  {
    if ps == [] {
    } else {
      PlainPaint(ps[1..]);
    }
  }

  lemma Reassemble(head: string, n: nat, rest: string)
    requires n <= |head|
    ensures head[..n] + (head[n..] + rest) == head + rest
  {
  }

  lemma CutPastCode(head: string, t: string, budget: nat)
    requires SgrLength(head) > 0 && budget > 0
    ensures Cut(head + t, budget) == head[..SgrLength(head)] + Cut(head[SgrLength(head)..] + t, budget)
  {
    var n := SgrLength(head);
    SgrOfAppend(head, t);
    CodeEndsAtM(head + t);
    CutCode(head + t, n - 1, budget);
    assert (head + t)[..n] == head[..n] && (head + t)[n..] == head[n..] + t;
  }

  lemma CutPastChar(head: string, t: string, budget: nat)
    requires head != "" && head[0] != ESC && budget > 0
    ensures Cut(head + t, budget) == head[..1] + Cut(head[1..] + t, budget - 1)
  {
    CutChar(head + t, budget);
    assert (head + t)[1..] == head[1..] + t;
    assert head[..1] == [head[0]];
  }

  lemma VisibleFirst(head: string)
    requires head != "" && Whole(head)
    ensures var n := if head[0] == ESC then SgrLength(head) else 1;
      && 0 < n <= |head| && Whole(head[n..]) && |Visible(head)| == |Visible(head[n..])| + (if head[0] == ESC then 0 else 1)
  {
  }

  /** One code or character of a whole front, and then the rest of it. */
  lemma CutPastFirst(head: string, t: string, budget: nat, n: nat, left: nat)
    requires head != "" && Whole(head) && 0 < n <= |head| && budget > 0
    requires if head[0] == ESC then n == SgrLength(head) && left == budget else n == 1 && left == budget - 1
    requires |Visible(head[n..])| < left
    requires Cut(head[n..] + t, left) == head[n..] + Cut(t, left - |Visible(head[n..])|)
    ensures Cut(head + t, budget) == head + Cut(t, left - |Visible(head[n..])|)
  {
    if head[0] == ESC { CutPastCode(head, t, budget); } else { CutPastChar(head, t, budget); }
    Reassemble(head, n, Cut(t, left - |Visible(head[n..])|));
  }

  lemma {:induction false} CutPastWhole(head: string, t: string, budget: nat)
    requires Whole(head) && |Visible(head)| < budget
    ensures Cut(head + t, budget) == head + Cut(t, budget - |Visible(head)|)
    decreases |head|
  {
    if head == "" {
      assert head + t == t;
    } else {
      VisibleFirst(head);
      var n, left := if head[0] == ESC then SgrLength(head) else 1, if head[0] == ESC then budget else budget - 1;
      CutPastWhole(head[n..], t, left);
      CutPastFirst(head, t, budget, n, left);
    }
  }

  /** An escape that begins no colour code, and the text up to the next `m`. */
  predicate Swallowed(junk: string) { junk != "" && junk[0] != '[' && ESC !in junk && 'm' !in junk }

  lemma SwallowedIsSeen(head: string, junk: string, rest: string)
    requires Whole(head) && Swallowed(junk)
    ensures |Visible(head + ([ESC] + junk + rest))| > |junk|
  {
    var s := [ESC] + junk + rest;
    assert s[1..] == junk + rest;
    NotACode(s);
    CleanIsVisible(junk);
    VisibleOfAppend(junk, rest);
    VisibleOfAppend(head, s);
  }

  /** Such a stretch is copied without being counted. */
  lemma SwallowedIsCopied(junk: string, rest: string, budget: nat)
    requires Swallowed(junk) && budget > 0
    ensures Cut([ESC] + junk + "m" + rest, budget) == [ESC] + junk + "m" + Cut(rest, budget)
  {
    var s, n := [ESC] + junk + "m" + rest, |junk| + 1;
    FirstAt(s, 'm', 0, n);
    CutCode(s, n, budget);
    assert s[..n + 1] == [ESC] + junk + "m" && s[n + 1..] == rest;
  }

  lemma Regroup(head: string, a: string, b: string, c: string)
    ensures head + (a + b) + c == head + (a + (b + c))
  {
  }

  lemma Assoc(a: string, b: string, c: string)
    ensures a + b + c == a + (b + c)
  {
  }

  lemma SwallowedCut(head: string, junk: string, rest: string, budget: nat)
    requires Whole(head) && |Visible(head)| < budget && Swallowed(junk)
    ensures Cut(head + ([ESC] + junk + "m" + rest), budget) ==
            head + ([ESC] + junk + "m" + Cut(rest, budget - |Visible(head)|))
  {
    CutPastWhole(head, [ESC] + junk + "m" + rest, budget);
    SwallowedIsCopied(junk, rest, budget - |Visible(head)|);
  }

  lemma SwallowedLine(head: string, junk: string, rest: string)
    requires Whole(head) && Swallowed(junk)
    ensures |Visible(head + ([ESC] + junk + "m" + rest))| > |junk|
  {
    Assoc([ESC] + junk, "m", rest);
    SwallowedIsSeen(head, junk, "m" + rest);
  }

  lemma SwallowedKept(head: string, junk: string, kept: string)
    requires Whole(head) && Swallowed(junk)
    ensures |Visible(head + ([ESC] + junk + "m" + kept) + "…")| > |junk|
  {
    var tail := kept + "…";
    assert head + ([ESC] + junk + "m" + tail) == head + ([ESC] + junk + "m" + kept) + "…" by {
      Regroup(head, [ESC] + junk + "m", kept, "…");
    }
    SwallowedLine(head, junk, tail);
  }

  lemma CutSwallowedIsWide(head: string, junk: string, rest: string, budget: nat)
    requires Whole(head) && |Visible(head)| < budget && Swallowed(junk)
    ensures |Visible(Cut(head + ([ESC] + junk + "m" + rest), budget) + "…")| > |junk|
  {
    SwallowedCut(head, junk, rest, budget);
    SwallowedKept(head, junk, Cut(rest, budget - |Visible(head)|));
  }

  lemma WideEitherWay(line: string, max: nat)
    requires max > 0 && |Visible(line)| > max && |Visible(Cut(line, max - 1) + "…")| > max
    ensures |Visible(Fit(line, max))| > max
  {
  }

  lemma SwallowedDefeatsWidth(head: string, junk: string, rest: string, max: nat)
    requires Whole(head) && |Visible(head)| + 1 < max && Swallowed(junk) && |junk| >= max
    ensures |Visible(Fit(head + ([ESC] + junk + "m" + rest), max))| > max
  {
    SwallowedLine(head, junk, rest);
    CutSwallowedIsWide(head, junk, rest, max - 1);
    WideEitherWay(head + ([ESC] + junk + "m" + rest), max);
  }

  lemma {:induction false} PaintAllAppend(colour: bool, a: seq<Piece>, b: seq<Piece>)
    ensures PaintAll(colour, a + b) == PaintAll(colour, a) + PaintAll(colour, b)
  {
    if a == [] {
      assert a + b == b;
    } else {
      assert (a + b)[1..] == a[1..] + b;
      PaintAllAppend(colour, a[1..], b);
    }
  }

  /** What one running agent's line begins with, up to its name. */
  function Front(a: Agent): seq<Piece> {
    CountPieces([a]) + [Piece(Plain, " "), Piece(Dim, "│"), Piece(Plain, " ")]
  }

  lemma FilterOne(a: Agent, p: Agent -> bool)
    ensures Filter([a], p) == if p(a) then [a] else []
  {
    assert [a][..0] == [];
  }

  lemma SortOne(a: Agent, le: (Agent, Agent) -> bool)
    ensures StableSort([a], le) == [a]
  {
    assert [a][..0] == [] && StableSort([a][..0], le) == [];
    assert Insert([], a, le) == [a];
  }

  lemma ShownOne(a: Agent)
    requires a.status == Running
    ensures Shown([a]) == [a]
  {
    FilterOne(a, IsRunning);
    SortOne(a, StartedFirst);
  }

  lemma JoinedOne(a: Agent, now: int)
    ensures AgentsJoined([a], now) == [Piece(Bold, a.name)] + AgentPieces(a, now)[1..]
  {
    var ps := AgentPieces(a, now);
    assert ps[0] == AgentBase(a, now)[0] == Piece(Bold, a.name);
  }

  lemma OneAgentLine(a: Agent, now: int)
    requires a.status == Running
    ensures LinePieces([a], now, None) == Front(a) + ([Piece(Bold, a.name)] + AgentPieces(a, now)[1..])
  {
    ShownOne(a);
    JoinedOne(a, now);
    var divider := [Piece(Plain, " "), Piece(Dim, "│"), Piece(Plain, " ")];
    AssocPieces(CountPieces([a]), divider, AgentsJoined([a], now));
  }

  lemma AssocPieces(a: seq<Piece>, b: seq<Piece>, c: seq<Piece>)
    ensures [] + a + (b + c) == a + b + c
  {
  }

  function FrontHead(): seq<Piece> {
    [Piece(Cyan, "⟳ fleet"), Piece(Plain, " "), Piece(Yellow, "▶" + Digits(1)), Piece(Plain, " ")]
  }

  function FrontTail(): seq<Piece> {
    [Piece(Green, "✓" + Digits(0)), Piece(Plain, " "), Piece(Dim, "│"), Piece(Plain, " ")]
  }

  lemma FrontIs(a: Agent)
    requires a.status == Running
    ensures Front(a) == FrontHead() + FrontTail()
  {
    FilterOne(a, IsRunning);
    FilterOne(a, IsDone);
    FilterOne(a, IsFailed);
  }

  lemma FrontWidth()
    ensures |TextOf(FrontHead())| == 11 && |TextOf(FrontTail())| == 5
  {
    FourPieces(FrontHead());
    FourPieces(FrontTail());
  }

  lemma FrontShows(a: Agent, colour: bool)
    requires a.status == Running
    ensures Whole(PaintAll(colour, Front(a))) && |Visible(PaintAll(colour, Front(a)))| == 16
  {
    FrontIs(a);
    FrontWidth();
    FrontOf(FrontHead(), FrontTail(), colour);
  }

  lemma FrontOf(first: seq<Piece>, second: seq<Piece>, colour: bool)
    requires forall i :: 0 <= i < |first| ==> ESC !in first[i].text
    requires forall i :: 0 <= i < |second| ==> ESC !in second[i].text
    ensures Whole(PaintAll(colour, first + second))
    ensures |Visible(PaintAll(colour, first + second))| == |TextOf(first)| + |TextOf(second)|
  {
    AllClean(first + second);
    PaintAllShows(colour, first + second);
    TextClean(first + second);
    CleanIsVisible(TextOf(first + second));
    PlainPaint(first);
    PlainPaint(second);
    PlainPaint(first + second);
    PaintAllAppend(false, first, second);
  }

  lemma FourPieces(ps: seq<Piece>)
    requires |ps| == 4
    ensures |TextOf(ps)| == |ps[0].text| + |ps[1].text| + |ps[2].text| + |ps[3].text|
  {
    assert ps[1..][1..] == ps[2..] && ps[2..][1..] == ps[3..] && ps[3..][1..] == [];
    assert TextOf(ps[3..]) == ps[3].text + TextOf([]);
    assert TextOf(ps[2..]) == ps[2].text + TextOf(ps[3..]);
    assert TextOf(ps[1..]) == ps[1].text + TextOf(ps[2..]);
  }

  lemma {:induction false} TextClean(ps: seq<Piece>)
    requires forall i :: 0 <= i < |ps| ==> ESC !in ps[i].text
    ensures ESC !in TextOf(ps)
  {
    if ps == [] {
    } else {
      TextClean(ps[1..]);
    }
  }

  /** The width bound needs the names whole. On a terminal of any width, coloured or
      not, one running agent whose name has a bare escape and then as many characters
      before its `m` makes a line that is wider than that. */
  lemma EscapeDefeatsWidth(colour: bool, a: Agent, junk: string, now: int, columns: int)
    requires a.status == Running && a.name == [ESC] + junk + "m" && Swallowed(junk) && |junk| >= Width(columns)
    ensures |Visible(LineText(colour, [a], now, columns, None))| > Width(columns)
  {
    var head, rest := NameInLine(colour, a, now);
    assert head + (a.name + rest) == head + ([ESC] + junk + "m" + rest);
    SwallowedDefeatsWidth(head, junk, rest, Width(columns));
  }

  lemma NameInLine(colour: bool, a: Agent, now: int) returns (head: string, rest: string)
    requires a.status == Running
    ensures PaintAll(colour, LinePieces([a], now, None)) == head + (a.name + rest)
    ensures Whole(head) && |Visible(head)| == 16
  {
    var named, others := [Piece(Bold, a.name)], AgentPieces(a, now)[1..];
    OneAgentLine(a, now);
    PaintAllAppend(colour, Front(a), named + others);
    PaintAllAppend(colour, named, others);
    var front, tail := PaintAll(colour, Front(a)), PaintAll(colour, others);
    var open, close := NamePainted(colour, a.name);
    FrontShows(a, colour);
    VisibleOfAppend(front, open);
    head, rest := front + open, close + tail;
    Regrouped(front, open, a.name, close, tail);
  }

  lemma Regrouped(front: string, open: string, name: string, close: string, tail: string)
    ensures front + (open + name + close + tail) == front + open + (name + (close + tail))
  {
  }

  lemma NamePainted(colour: bool, name: string) returns (open: string, close: string)
    ensures PaintAll(colour, [Piece(Bold, name)]) == open + name + close
    ensures Whole(open) && Visible(open) == ""
  {
    open, close := if colour then Sgr("1") else "", if colour then Sgr("22") else "";
    CodeShows("1");
    assert Paint(colour, Piece(Bold, name)) == open + name + close;
    assert PaintAll(colour, []) == "";
  }

  lemma NotACode(s: string)
    requires |s| >= 2 && s[0] == ESC && s[1] != '['
    ensures SgrLength(s) == 0 && Visible(s) == [ESC] + Visible(s[1..])
  {
  }

  lemma {:induction false} Tally(all: seq<Agent>)
    ensures |Filter(all, IsRunning)| + |Filter(all, IsDone)| + |Filter(all, IsFailed)| == |all|
  {
    if all == [] {
    } else {
      Tally(all[..|all| - 1]);
    }
  }

  lemma {:induction false} SortedPairs(s: seq<Agent>, i: nat, j: nat)
    requires SortedBy(s, StartedFirst) && i <= j < |s|
    ensures s[i].startedAt <= s[j].startedAt
  {
    if i >= j {
    } else {
      if j < |s| - 1 {
        SortedPairs(s[..|s| - 1], i, j);
      } else {
        SortedPairs(s[..|s| - 1], i, j - 1);
      }
    }
  }

  lemma ByStartSorted(all: seq<Agent>)
    ensures SortedBy(ByStart(all), StartedFirst)
  {
    SortSorts(Filter(all, IsRunning), StartedFirst);
  }

  lemma {:induction false} ByStartHolds(all: seq<Agent>, a: Agent)
    ensures multiset(ByStart(all)) == multiset(Filter(all, IsRunning)) && |ByStart(all)| == |Filter(all, IsRunning)|
    ensures a in ByStart(all) <==> a in all && IsRunning(a)
  {
    SortPermutes(Filter(all, IsRunning), StartedFirst);
    SameElements(ByStart(all), Filter(all, IsRunning));
    FilterMembers(all, IsRunning, a);
  }

  /** The line names the four agents that have run longest, in the order they started. */
  lemma ShownInOrder(all: seq<Agent>, i: nat, j: nat)
    requires i <= j < |Shown(all)|
    ensures |Shown(all)| == Min(4, |Filter(all, IsRunning)|)
    ensures IsRunning(Shown(all)[i]) && Shown(all)[i] in all
    ensures Shown(all)[i].startedAt <= Shown(all)[j].startedAt
  {
    ByStartSorted(all);
    ByStartHolds(all, Shown(all)[i]);
    SortedPairs(ByStart(all), i, j);
  }

  /** A running agent the line leaves out started no earlier than any it names. */
  lemma LeftOutAreNewest(all: seq<Agent>, a: Agent, i: nat)
    requires a in all && IsRunning(a) && a !in Shown(all) && i < |Shown(all)|
    ensures Shown(all)[i].startedAt <= a.startedAt
  {
    ByStartSorted(all);
    ByStartHolds(all, a);
    var j :| 0 <= j < |ByStart(all)| && ByStart(all)[j] == a;
    assert ByStart(all)[i] == Shown(all)[i];
    SortedPairs(ByStart(all), i, j);
  }

  // -------------------------------------------------- reading the elapsed time

  /** What a reader makes of `1h05m`: the seconds so far, and the number being read. */
  datatype Reading = Reading(seconds: nat, number: nat)

  predicate IsUnit(c: char) { c == 'h' || c == 'm' || c == 's' }

  /** A number of units in seconds. */
  function Scaled(n: nat, unit: char): nat { if unit == 'h' then 3600 * n else if unit == 'm' then 60 * n else n }

  function Read(s: string): Reading {
    if s == "" then Reading(0, 0)
    else
      var r, c := Read(s[..|s| - 1]), s[|s| - 1];
      if '0' <= c <= '9' then r.(number := 10 * r.number + (c as nat - 48))
      else Reading(r.seconds + Scaled(r.number, c), 0)
  }

  lemma ReadOne(s: string, c: char)
    ensures (s + [c])[..|s|] == s && (s + [c])[|s|] == c
  {
  }

  lemma {:induction false} ReadDigits(s: string, n: nat)
    requires Read(s).number == 0
    ensures Read(s + Digits(n)) == Reading(Read(s).seconds, n)
  {
    if n < 10 {
      ReadOne(s, DigitChar(n));
    } else {
      ReadDigits(s, n / 10);
      ReadOne(s + Digits(n / 10), DigitChar(n % 10));
      assert s + Digits(n) == s + Digits(n / 10) + [DigitChar(n % 10)];
    }
  }

  lemma ReadPadded(s: string, n: nat)
    requires Read(s).number == 0
    ensures Read(s + Pad2(n)) == Reading(Read(s).seconds, n)
  {
    if n < 10 {
      ReadOne(s, '0');
      ReadDigits(s + "0", n);
      assert s + Pad2(n) == s + "0" + Digits(n);
    } else {
      ReadDigits(s, n);
    }
  }

  lemma ReadScaled(s: string, unit: char)
    requires IsUnit(unit)
    ensures Read(s + [unit]) == Reading(Read(s).seconds + Scaled(Read(s).number, unit), 0)
  {
    ReadOne(s, unit);
  }

  lemma ReadUnit(s: string, n: nat, unit: char)
    requires Read(s).number == 0 && IsUnit(unit)
    ensures Read(s + Digits(n) + [unit]) == Reading(Read(s).seconds + Scaled(n, unit), 0)
  {
    ReadDigits(s, n);
    ReadScaled(s + Digits(n), unit);
  }

  lemma ReadPaddedUnit(s: string, n: nat, unit: char)
    requires Read(s).number == 0 && IsUnit(unit)
    ensures Read(s + Pad2(n) + [unit]) == Reading(Read(s).seconds + Scaled(n, unit), 0)
  {
    ReadPadded(s, n);
    ReadScaled(s + Pad2(n), unit);
  }

  lemma ReadTwoUnits(big: nat, unit: char, small: nat, last: char)
    requires IsUnit(unit) && IsUnit(last)
    ensures Read(Digits(big) + [unit] + Pad2(small) + [last]) == Reading(Scaled(big, unit) + Scaled(small, last), 0)
  {
    assert "" + Digits(big) == Digits(big);
    ReadUnit("", big, unit);
    ReadPaddedUnit(Digits(big) + [unit], small, last);
  }

  lemma UnitTexts()
    ensures "h" == ['h'] && "m" == ['m'] && "s" == ['s']
  {
  }

  lemma ShortReads(s: nat)
    ensures Read(Digits(s) + "s") == Reading(s, 0)
  {
    assert "" + Digits(s) == Digits(s);
    UnitTexts();
    ReadUnit("", s, 's');
  }

  lemma MinutesRead(s: nat)
    ensures Read(Digits(s / 60) + "m" + Pad2(s % 60) + "s") == Reading(s, 0)
  {
    UnitTexts();
    ReadTwoUnits(s / 60, 'm', s % 60, 's');
    assert 60 * (s / 60) + s % 60 == s;
  }

  lemma HoursRead(m: nat)
    ensures Read(Digits(m / 60) + "h" + Pad2(m % 60) + "m") == Reading(60 * m, 0)
  {
    UnitTexts();
    ReadTwoUnits(m / 60, 'h', m % 60, 'm');
    assert 60 * (m / 60) + m % 60 == m;
  }

  /** Reading an elapsed time back gives the whole seconds, and from an hour on the
      whole minutes. */
  lemma ElapsedReads(ms: nat)
    ensures var s := ms / 1000;
      Read(FmtElapsed(ms)) == Reading(if s < 3600 then s else s - s % 60, 0)
  {
    var s := ms / 1000;
    if s < 60 {
      ShortReads(s);
    } else if s / 60 < 60 {
      MinutesRead(s);
    } else {
      HoursRead(s / 60);
    }
  }
}
