/** What the fleet line says (packages/cli/src/fleet-statusline.ts, `renderFleetLine`): its
    parts written out, with the codes around each. */
module FleetText {
  import opened Prelude
  import opened Sorting
  import opened Counting
  import opened FleetLine

  /** A text between two colour codes, when there are colours. */
  function Coded(colour: bool, on: string, off: string, text: string): string {
    if colour then (['\U{001B}', '['] + on + "m") + text + (['\U{001B}', '['] + off + "m") else text
  }

  function Emphasised(colour: bool, text: string): string { Coded(colour, "1", "22", text) }
  function Faint(colour: bool, text: string): string { Coded(colour, "2", "22", text) }
  function InYellow(colour: bool, text: string): string { Coded(colour, "33", "39", text) }

  /** The chip in front, when there is a version. */
  function ChipParts(colour: bool, version: Option<string>): seq<string> {
    if version == None || version == Some("") then []
    else [Emphasised(colour, "WS"), Faint(colour, " v" + version.value), " ", Faint(colour, "│"), " "]
  }

  /** How many agents there are of a status. */
  ghost function OfStatus(all: seq<Agent>, s: Status): nat {
    HowMany(|all|, (i: nat) => i < |all| && all[i].status == s)
  }

  ghost function CountParts(colour: bool, all: seq<Agent>): seq<string> {
    [Coded(colour, "36", "39", "⟳ fleet"), " ", InYellow(colour, "▶" + Digits(OfStatus(all, Running))),
     " ", Coded(colour, "32", "39", "✓" + Digits(OfStatus(all, Done)))] +
    if OfStatus(all, Failed) == 0 then [] else [" ", Coded(colour, "31", "39", "✗" + Digits(OfStatus(all, Failed)))]
  }

  /** One agent: its name, how long it has run, its iterations and tool calls, and, when
      there are any, its last tool and its budget extensions. */
  function AgentParts(colour: bool, a: Agent, now: int): seq<string> {
    BaseParts(colour, a, now) + ToolParts(colour, a) + if a.extensions == 0 then [] else [" ", InYellow(colour, "⚡" + Digits(a.extensions))]
  }

  function BaseParts(colour: bool, a: Agent, now: int): seq<string> {
    [Emphasised(colour, a.name), " ", InYellow(colour, "▶"), " ",
     Faint(colour, FmtElapsed(if now < a.startedAt then 0 else now - a.startedAt)), " ",
     Faint(colour, "L" + Digits(a.iterations)), " ", Faint(colour, Digits(a.toolCalls) + "t")]
  }

  function ToolParts(colour: bool, a: Agent): seq<string> {
    if a.lastTool == None || a.lastTool == Some("") then [] else [" ", Faint(colour, a.lastTool.value)]
  }

  function AgentsParts(colour: bool, agents: seq<Agent>, now: int): seq<string> {
    if agents == [] then []
    else if |agents| == 1 then AgentParts(colour, agents[0], now)
    else AgentParts(colour, agents[0], now) + [Faint(colour, "  ·  ")] + AgentsParts(colour, agents[1..], now)
  }

  function Painted(colour: bool, ps: seq<Piece>): (r: seq<string>)
    ensures |r| == |ps| && forall i :: 0 <= i < |r| ==> r[i] == Paint(colour, ps[i])
  {
    seq(|ps|, i requires 0 <= i < |ps| => Paint(colour, ps[i]))
  }

  lemma {:induction false} PaintedFlat(colour: bool, ps: seq<Piece>)
    ensures PaintAll(colour, ps) == Flatten(Painted(colour, ps))
  {
    if ps == [] {
    } else {
      PaintedFlat(colour, ps[1..]);
      assert Painted(colour, ps)[1..] == Painted(colour, ps[1..]);
    }
  }

  lemma ChipSays(colour: bool, version: Option<string>)
    ensures Painted(colour, VersionChip(version)) == ChipParts(colour, version)
  {
  }

  lemma StatusCounted(all: seq<Agent>, s: Status, p: Agent -> bool)
    requires forall a :: p(a) == (a.status == s)
    ensures |Filter(all, p)| == OfStatus(all, s)
  {
    FilterCounts(all, p);
    HowManyAgrees(|all|, At(all, p), (i: nat) => i < |all| && all[i].status == s);
  }

  lemma CountsSay(colour: bool, all: seq<Agent>)
    ensures Painted(colour, CountPieces(all)) == CountParts(colour, all)
  {
    StatusCounted(all, Running, IsRunning);
    StatusCounted(all, Done, IsDone);
    StatusCounted(all, Failed, IsFailed);
  }

  lemma PaintedAppend(colour: bool, a: seq<Piece>, b: seq<Piece>)
    ensures Painted(colour, a + b) == Painted(colour, a) + Painted(colour, b)
  {
  }

  lemma BaseSays(colour: bool, a: Agent, now: int)
    ensures Painted(colour, AgentBase(a, now)) == BaseParts(colour, a, now)
  {
  }

  lemma ExtrasSay(colour: bool, a: Agent)
    ensures Painted(colour, ToolPieces(a)) == ToolParts(colour, a)
    ensures Painted(colour, ExtensionPieces(a)) == if a.extensions == 0 then [] else [" ", InYellow(colour, "⚡" + Digits(a.extensions))]
  {
  }

  lemma AgentSays(colour: bool, a: Agent, now: int)
    ensures Painted(colour, AgentPieces(a, now)) == AgentParts(colour, a, now)
  {
    BaseSays(colour, a, now);
    ExtrasSay(colour, a);
    PaintedAppend(colour, AgentBase(a, now), ToolPieces(a));
    PaintedAppend(colour, AgentBase(a, now) + ToolPieces(a), ExtensionPieces(a));
  }

  lemma {:induction false} AgentsSay(colour: bool, agents: seq<Agent>, now: int)
    ensures Painted(colour, AgentsJoined(agents, now)) == AgentsParts(colour, agents, now)
  {
    if agents == [] {
    } else {
      AgentSays(colour, agents[0], now);
      if |agents| > 1 {
        AgentsSay(colour, agents[1..], now);
        var first, dot := AgentPieces(agents[0], now), [Piece(Dim, "  ·  ")];
        assert Painted(colour, dot) == [Faint(colour, "  ·  ")];
        PaintedAppend(colour, first, dot);
        PaintedAppend(colour, first + dot, AgentsJoined(agents[1..], now));
      }
    }
  }

  lemma DividerSays(colour: bool)
    ensures Painted(colour, [Piece(Plain, " "), Piece(Dim, "│"), Piece(Plain, " ")]) == [" ", Faint(colour, "│"), " "]
  {
  }

  /** The whole line before it is cut: the chip, the three counts, and the agents shown. */
  lemma LineSays(colour: bool, all: seq<Agent>, now: int, version: Option<string>)
    ensures PaintAll(colour, LinePieces(all, now, version)) ==
            Flatten(ChipParts(colour, version) + CountParts(colour, all) + ShownParts(colour, Shown(all), now))
  {
    var shown, chip, counts := Shown(all), VersionChip(version), CountPieces(all);
    var divider, agents := [Piece(Plain, " "), Piece(Dim, "│"), Piece(Plain, " ")], AgentsJoined(shown, now);
    ChipSays(colour, version);
    CountsSay(colour, all);
    AgentsSay(colour, shown, now);
    DividerSays(colour);
    PaintedAppend(colour, divider, agents);
    PaintedAppend(colour, chip, counts);
    PaintedAppend(colour, chip + counts, if shown != [] then divider + agents else []);
    PaintedFlat(colour, LinePieces(all, now, version));
  }

  function ShownParts(colour: bool, shown: seq<Agent>, now: int): seq<string> {
    if shown == [] then [] else [" ", Faint(colour, "│"), " "] + AgentsParts(colour, shown, now)
  }

  /** The room a line has: one column less than the terminal, and never under twenty. */
  function Room(columns: int): nat { if columns <= 21 then 20 else columns - 1 }

  /** A text that has room is shown whole; of any other its first characters, and an
      ellipsis in the last place. */
  lemma CutToRoom(colour: bool, all: seq<Agent>, now: int, columns: int, version: Option<string>)
    requires all != [] && AllWhole(all) && WholeVersion(version)
    ensures var text, line := Visible(TextOf(LinePieces(all, now, version))), LineText(colour, all, now, columns, version);
      Visible(line) == if |text| <= Room(columns) then text else text[..Room(columns) - 1] + "…"
  {
    assert Width(columns) == Room(columns);
    LineFits(colour, all, now, columns, version);
  }

  // ------------------------------------------------------------ colour codes

  predicate CodeChar(c: char) { c in {'0', '1', '2', '3', '4', '5', '6', '7', '8', '9', ';'} }

  predicate AllCodeChars(s: string) { forall i :: 0 <= i < |s| ==> CodeChar(s[i]) }

  /** What is taken out of a line as a colour code: an escape, a bracket, digits and
      semicolons, and an `m`. */
  lemma CodesAre(s: string, n: nat)
    requires n <= |s|
    ensures SgrLength(s) == n > 0 <==>
            n >= 3 && s[0] == '\U{001B}' && s[1] == '[' && AllCodeChars(s[2..n - 1]) && s[n - 1] == 'm'
  {
    if |s| >= 2 && s[0] == ESC && s[1] == '[' {
      var rest, run := s[2..], ParamRun(s[2..]);
      if SgrLength(s) == n > 0 {
        assert forall i :: 0 <= i < run ==> s[2..n - 1][i] == rest[i];
      }
      if n >= 3 && AllCodeChars(s[2..n - 1]) && s[n - 1] == 'm' {
        RunIs(rest, n - 3);
        assert forall i :: 0 <= i < n - 3 ==> rest[i] == s[2..n - 1][i];
      }
    }
  }

  lemma {:induction false} RunIs(s: string, n: nat)
    requires n < |s| && (forall i :: 0 <= i < n ==> CodeChar(s[i])) && !CodeChar(s[n])
    ensures ParamRun(s) == n
  {
    if n == 0 {
    } else {
      assert CodeChar(s[0]);
      RunIs(s[1..], n - 1);
    }
  }
}
