/** packages/bench/src/config.ts and session-metrics.ts: validating the benchmark
    config, and counting tool calls from a session log. */
module BenchConfig {
  import opened Prelude
  import opened Counting

  // `tag` is the cell's label, a reserved word here
  datatype ModelCell = ModelCell(tag: string, provider: string, model: string)

  datatype Config = Config(maxIterations: int, concurrency: int, timeoutMs: int, cells: seq<ModelCell>)

  /** A JSON value, as far as the parser tells values apart. */
  datatype RawNumber = Absent | NotNumeric | Number(value: real)

  /** A field that is not a string is None. */
  datatype RawCell = NotAnObject | RawCell(provider: Option<string>, model: Option<string>, tag: Option<string>)

  datatype RawConfig = RawConfig(
    cells: Option<seq<RawCell>>,
    maxIterations: RawNumber,
    concurrency: RawNumber,
    timeoutMs: RawNumber)

  const DEFAULT_ITERATIONS := 40
  const DEFAULT_CONCURRENCY := 4
  const DEFAULT_TIMEOUT_MS := 600000

  /** The cell a raw entry stands for; None when it is rejected. */
  function CellOf(raw: RawCell): Option<ModelCell> {
    match raw
    case NotAnObject => None
    case RawCell(provider, model, tag) =>
      if provider == None || provider == Some("") || model == None || model == Some("") then None
      else if tag.Some? && tag.value != "" then Some(ModelCell(tag.value, provider.value, model.value))
      else Some(ModelCell(provider.value + "/" + model.value, provider.value, model.value))
  }

  predicate Accepted(n: RawNumber) { n.Absent? || (n.Number? && n.value > 0.0) }

  /** A positive number rounded down; None when it is rejected. */
  function PositiveInt(n: RawNumber, fallback: int): (r: Option<int>)
    ensures r.Some? <==> Accepted(n)
    ensures n.Absent? ==> r == Some(fallback)
    ensures n.Number? && r.Some? ==> r.value >= 0 && r.value as real <= n.value < (r.value + 1) as real
  {
    match n
    case Absent => Some(fallback)
    case NotNumeric => None
    case Number(v) => if v <= 0.0 then None else Some(v.Floor)
  }

  /** Rounding down happens after the check, so "positive" can still come out zero:
      exactly for the numbers below one. */
  lemma PositiveIntMayBeZero(v: real, fallback: int)
    requires v > 0.0
    ensures PositiveInt(Number(v), fallback).Some?
    ensures PositiveInt(Number(v), fallback).value >= 1 <==> v >= 1.0
  {
  }

  ghost predicate Labelled(cells: seq<ModelCell>) {
    forall i, j :: 0 <= i < j < |cells| ==> cells[i].tag != cells[j].tag
  }

  /** The declared meaning of a valid cell list. */
  ghost predicate ValidCells(raw: seq<RawCell>, cells: seq<ModelCell>) {
    && |cells| == |raw|
    && (forall i :: 0 <= i < |raw| ==> CellOf(raw[i]) == Some(cells[i]))
    && Labelled(cells)
  }

  /** The loop over the raw cells with its `seen` set. */
  method ParseCells(raw: seq<RawCell>) returns (cells: Option<seq<ModelCell>>)
    ensures cells.Some? ==> ValidCells(raw, cells.value)
    ensures cells == None ==> forall cs :: !ValidCells(raw, cs)
  {
    var seen: set<string> := {};
    var out: seq<ModelCell> := [];
    for i := 0 to |raw|
      invariant ValidCells(raw[..i], out)
      invariant forall l :: l in seen <==> exists k :: 0 <= k < |out| && out[k].tag == l
    {
      var cell := CellOf(raw[i]);
      if cell == None { return None; }
      if cell.value.tag in seen {
        var k :| 0 <= k < |out| && out[k].tag == cell.value.tag;
        forall cs ensures !ValidCells(raw, cs) {
          if |cs| == |raw| && CellOf(raw[k]) == Some(cs[k]) && CellOf(raw[i]) == Some(cs[i]) {
            assert raw[..i][k] == raw[k];
          }
        }
        return None;
      }
      seen := seen + {cell.value.tag};
      out := out + [cell.value];
    }
    assert raw[..|raw|] == raw;
    return Some(out);
  }

  /** What an accepted config is read as: its cells, all valid and uniquely labelled,
      and its bounds. */
  ghost predicate Accepts(raw: RawConfig, config: Config) {
    && raw.cells.Some? && raw.cells.value != [] && ValidCells(raw.cells.value, config.cells)
    && PositiveInt(raw.maxIterations, DEFAULT_ITERATIONS) == Some(config.maxIterations)
    && PositiveInt(raw.concurrency, DEFAULT_CONCURRENCY) == Some(config.concurrency)
    && PositiveInt(raw.timeoutMs, DEFAULT_TIMEOUT_MS) == Some(config.timeoutMs)
  }

  /** A config is accepted exactly when it can be read as something. */
  method Parse(raw: RawConfig) returns (config: Option<Config>)
    ensures config.Some? ==> Accepts(raw, config.value)
    ensures config == None ==> forall c :: !Accepts(raw, c)
  {
    if raw.cells == None || |raw.cells.value| == 0 { return None; }
    var cells := ParseCells(raw.cells.value);
    if cells == None { return None; }
    var maxIterations := PositiveInt(raw.maxIterations, DEFAULT_ITERATIONS);
    if maxIterations == None { return None; }
    var concurrency := PositiveInt(raw.concurrency, DEFAULT_CONCURRENCY);
    if concurrency == None { return None; }
    var timeoutMs := PositiveInt(raw.timeoutMs, DEFAULT_TIMEOUT_MS);
    if timeoutMs == None { return None; }
    return Some(Config(maxIterations.value, concurrency.value, timeoutMs.value, cells.value));
  }

  /** The cell an entry describes: both names are texts and not empty, and the label is the
      given one, or the two names when none is given. */
  predicate Describes(raw: RawCell, c: ModelCell) {
    && raw.RawCell?
    && raw.provider == Some(c.provider) && c.provider != "" && raw.model == Some(c.model) && c.model != ""
    && c.tag == if raw.tag == None || raw.tag == Some("") then c.provider + "/" + c.model else raw.tag.value
  }

  /** The bound a number gives: itself rounded down when it is positive, or the default. */
  predicate Bounds(n: RawNumber, default: int, bound: int) {
    if n.Absent? then bound == default else n.Number? && 0.0 < n.value && bound as real <= n.value < (bound + 1) as real
  }

  /** What is accepted, read off the raw config itself. */
  lemma AcceptedIs(raw: RawConfig, config: Config)
    ensures Accepts(raw, config) <==>
            && raw.cells.Some? && |raw.cells.value| == |config.cells| > 0
            && (forall i :: 0 <= i < |config.cells| ==> Describes(raw.cells.value[i], config.cells[i]))
            && (forall i, j :: 0 <= i < j < |config.cells| ==> config.cells[i].tag != config.cells[j].tag)
            && Bounds(raw.maxIterations, 40, config.maxIterations)
            && Bounds(raw.concurrency, 4, config.concurrency)
            && Bounds(raw.timeoutMs, 600000, config.timeoutMs)
  {
    if raw.cells.Some? && |raw.cells.value| == |config.cells| {
      forall i | 0 <= i < |config.cells|
        ensures CellOf(raw.cells.value[i]) == Some(config.cells[i]) <==> Describes(raw.cells.value[i], config.cells[i])
      {
      }
    }
  }

  // ------------------------------------------------------------ session log

  datatype ToolMetrics = ToolMetrics(totalCalls: nat, editCalls: nat, editErrors: nat, rateLimitRetries: nat)

  /** One log line after trimming and JSON parsing. */
  datatype LogLine =
    | Blank
    | Corrupt
    | JsonNull
    | Record(kind: string, name: Option<string>, ok: Option<bool>)

  const EDIT_TOOLS: set<string> := {"edit", "write", "multiedit", "multi_edit", "str_replace", "apply_patch"}

  predicate IsCall(l: LogLine) { l.Record? && l.kind == "tool_call_end" }

  predicate IsEdit(l: LogLine) { IsCall(l) && l.name.Some? && Lower(l.name.value) in EDIT_TOOLS }

  predicate IsEditError(l: LogLine) { IsEdit(l) && l.ok == Some(false) }

  predicate IsRetry(l: LogLine) { l.Record? && (l.kind == "provider_retry" || l.kind == "provider_error") }

  function CountLines(lines: seq<LogLine>, p: LogLine -> bool): (n: nat)
    ensures n <= |lines|
  {
    if lines == [] then 0
    else CountLines(lines[..|lines| - 1], p) + if p(lines[|lines| - 1]) then 1 else 0
  }

  lemma {:induction false} CountMonotone(lines: seq<LogLine>, p: LogLine -> bool, q: LogLine -> bool)
    requires forall l :: p(l) ==> q(l)
    ensures CountLines(lines, p) <= CountLines(lines, q)
  {
    if lines == [] {
    } else {
      CountMonotone(lines[..|lines| - 1], p, q);
    }
  }

  /** What a log without a `null` line counts up to. */
  function MetricsOf(lines: seq<LogLine>): (m: ToolMetrics)
    ensures m.editErrors <= m.editCalls <= m.totalCalls
  {
    CountMonotone(lines, IsEditError, IsEdit);
    CountMonotone(lines, IsEdit, IsCall);
    ToolMetrics(CountLines(lines, IsCall), CountLines(lines, IsEdit),
                CountLines(lines, IsEditError), CountLines(lines, IsRetry))
  }

  lemma {:induction false} LinesCounted(lines: seq<LogLine>, p: LogLine -> bool, q: LogLine -> bool)
    requires forall l :: p(l) == q(l)
    ensures CountLines(lines, p) == HowMany(|lines|, At(lines, q))
  {
    if lines == [] {
      HowManyNext(0, At(lines, q));
    } else {
      var init := lines[..|lines| - 1];
      LinesCounted(init, p, q);
      HowManyNext(|init|, At(lines, q));
      HowManyAgrees(|init|, At(init, q), At(lines, q));
    }
  }

  predicate Ended(l: LogLine) { l.Record? && l.kind == "tool_call_end" }

  /** An ended call of one of the six edit tools, whatever the case of its name. */
  predicate EndedEdit(l: LogLine) {
    Ended(l) && l.name.Some? && Lower(l.name.value) in {"edit", "write", "multiedit", "multi_edit", "str_replace", "apply_patch"}
  }

  predicate FailedEdit(l: LogLine) { EndedEdit(l) && l.ok == Some(false) }

  predicate Retried(l: LogLine) { l.Record? && l.kind in {"provider_retry", "provider_error"} }

  /** The metrics are the numbers of lines of each kind. */
  lemma MetricsCount(lines: seq<LogLine>)
    ensures var m, n := MetricsOf(lines), |lines|;
      && m.totalCalls == HowMany(n, At(lines, Ended)) && m.editCalls == HowMany(n, At(lines, EndedEdit))
      && m.editErrors == HowMany(n, At(lines, FailedEdit)) && m.rateLimitRetries == HowMany(n, At(lines, Retried))
  {
    LinesCounted(lines, IsCall, Ended);
    LinesCounted(lines, IsEdit, EndedEdit);
    LinesCounted(lines, IsEditError, FailedEdit);
    LinesCounted(lines, IsRetry, Retried);
  }

  function One(b: bool): nat { if b then 1 else 0 }

  lemma OneMoreLine(lines: seq<LogLine>, l: LogLine)
    ensures var m := MetricsOf(lines);
      MetricsOf(lines + [l]) == ToolMetrics(m.totalCalls + One(IsCall(l)), m.editCalls + One(IsEdit(l)),
                                            m.editErrors + One(IsEditError(l)), m.rateLimitRetries + One(IsRetry(l)))
  {
    assert (lines + [l])[..|lines|] == lines;
  }

  /** The counting loop. A line that parses to `null` makes it throw (None): the
      property access is outside the `try` that guards the parsing. */
  method ReadToolMetrics(lines: seq<LogLine>) returns (metrics: Option<ToolMetrics>)
    ensures metrics == None <==> JsonNull in lines
    ensures metrics.Some? ==> metrics.value == MetricsOf(lines)
  {
    var m := ToolMetrics(0, 0, 0, 0);
    for i := 0 to |lines|
      invariant JsonNull !in lines[..i]
      invariant m == MetricsOf(lines[..i])
    {
      assert lines[..i + 1] == lines[..i] + [lines[i]];
      OneMoreLine(lines[..i], lines[i]);
      match lines[i]
      case Blank =>
      case Corrupt =>
      case JsonNull => return None;
      case Record(kind, name, ok) =>
        if kind == "tool_call_end" {
          m := m.(totalCalls := m.totalCalls + 1);
          if (if name.Some? then Lower(name.value) else "") in EDIT_TOOLS {
            m := m.(editCalls := m.editCalls + 1);
            if ok == Some(false) { m := m.(editErrors := m.editErrors + 1); }
          }
        } else if kind == "provider_retry" || kind == "provider_error" {
          m := m.(rateLimitRetries := m.rateLimitRetries + 1);
        }
    }
    assert lines[..|lines|] == lines;
    return Some(m);
  }
}
