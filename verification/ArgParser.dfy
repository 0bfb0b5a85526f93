/** packages/cli/src/arg-parser.ts: the command-line scanner, and the launch aliases
    that turn a first positional into a flag. */
module ArgParser {
  import opened Prelude

  /** `true`, or the text after `=` or in the next argument. */
  datatype FlagValue = On | Text(text: string)

  type Flags = map<string, FlagValue>

  datatype Parsed = Parsed(flags: Flags, positional: seq<string>)

  const BOOLEAN_FLAGS: set<string> := {
    "yolo", "yolo-destructive", "confirm-destructive", "force-all-yolo", "verbose", "trace", "help", "version",
    "no-banner", "no-features", "tui", "no-tui", "no-recovery", "recover", "output-json", "prompt", "metrics",
    "webui", "desktop", "open", "webui-require-token", "require-token", "no-check", "no-models-refresh",
    "director", "no-director", "no-autonomy", "autonomy", "eternal", "no-hints", "hints", "no-hooks",
    "skip-index", "mouse", "no-interactive", "token-saving-mode", "hq", "hq-allow-exec" }

  predicate Dashed(s: string) { s != "" && s[0] == '-' }

  predicate LongFlag(s: string) { |s| >= 2 && s[0] == '-' && s[1] == '-' }

  /** Position of the first `=`. */
  function EqualsAt(s: string): (at: Option<nat>)
    ensures at.Some? ==> at.value < |s| && s[at.value] == '=' && '=' !in s[..at.value]
    ensures at == None <==> '=' !in s
  {
    if s == "" then None
    else if s[0] == '=' then Some(0)
    else
      assert s == [s[0]] + s[1..];
      match EqualsAt(s[1..])
      case None => None
      case Some(i) =>
        assert s[..i + 1] == [s[0]] + s[1..][..i];
        Some(i + 1)
  }

  function SetFlag(p: Parsed, name: string, v: FlagValue): Parsed {
    if name == PROTO then p else p.(flags := p.flags[name := v])
  }

  /** What one argument does to the parse, and whether it also uses up the next. */
  function Take(p: Parsed, a: string, following: Option<string>): (Parsed, bool) {
    if a == "" then (p, false)
    else if LongFlag(a) then
      match EqualsAt(a)
      case Some(eq) => (if eq >= 2 then SetFlag(p, a[2..eq], Text(a[eq + 1..])) else p, false)
      case None =>
        var name := a[2..];
        if name in BOOLEAN_FLAGS then (SetFlag(p, name, On), false)
        else if following.Some? && !Dashed(following.value) then (SetFlag(p, name, Text(following.value)), true)
        else (SetFlag(p, name, On), false)
    else if Dashed(a) && |a| == 2 then (SetFlag(p, if a[1..] == "v" then "verbose" else a[1..], On), false)
    else (p.(positional := p.positional + [a]), false)
  }

  function Following(args: seq<string>): Option<string> {
    if |args| > 1 then Some(args[1]) else None
  }

  function Scan(p: Parsed, args: seq<string>): Parsed
    decreases |args|
  {
    if args == [] then p
    else if args[0] == "--" then p.(positional := p.positional + args[1..])
    else
      var (q, both) := Take(p, args[0], Following(args));
      Scan(q, if both && |args| > 1 then args[2..] else args[1..])
  }

  predicate BareSurface(word: string) { word == "webui" || word == "desktop" }

  /** The positionals start with a launch alias. */
  predicate StartsWithAlias(positional: seq<string>) {
    positional != [] &&
    (BareSurface(positional[0]) ||
     (positional[0] == "hq" && (|positional| == 1 || positional[1] == "serve")))
  }

  function Normalize(p: Parsed): Parsed {
    if !StartsWithAlias(p.positional) then p
    else if BareSurface(p.positional[0]) then
      Parsed(p.flags[p.positional[0] := On], p.positional[1..])
    else
      Parsed(p.flags["hq" := On], p.positional[if |p.positional| > 1 then 2 else 1..])
  }

  const NOTHING: Parsed := Parsed(map[], [])

  function Parse(args: seq<string>): Parsed { Normalize(Scan(NOTHING, args)) }

  method ParseArgs(argv: seq<string>) returns (parsed: Parsed)
    ensures parsed == Parse(argv)
  {
    var p := NOTHING;
    var i := 0;
    while i < |argv|
      invariant 0 <= i <= |argv|
      invariant Scan(p, argv[i..]) == Scan(NOTHING, argv)
    {
      var a := argv[i];
      if a == "--" {
        p := p.(positional := p.positional + argv[i + 1..]);
        break;
      }
      var (q, both) := Take(p, a, if i + 1 < |argv| then Some(argv[i + 1]) else None);
      p := q;
      i := i + (if both && i + 1 < |argv| then 2 else 1);
    }
    parsed := Normalize(p);
  }

  // ------------------------------------------------------------- round trip

  function PrintFlag(name: string, v: FlagValue): string {
    match v
    case On => "--" + name
    case Text(t) => "--" + name + "=" + t
  }

  function PrintFlags(fs: seq<(string, FlagValue)>): (r: seq<string>)
    ensures |r| == |fs|
  {
    if fs == [] then [] else [PrintFlag(fs[0].0, fs[0].1)] + PrintFlags(fs[1..])
  }

  /** A command line that should parse back to these flags and positionals. */
  function Print(fs: seq<(string, FlagValue)>, positional: seq<string>): seq<string> {
    PrintFlags(fs) + ["--"] + positional
  }

  function Assignments(flags: Flags, fs: seq<(string, FlagValue)>): Flags
    decreases |fs|
  {
    if fs == [] then flags else Assignments(flags[fs[0].0 := fs[0].1], fs[1..])
  }

  predicate Printable(name: string, v: FlagValue) {
    '=' !in name && (name == "" ==> v.Text?) && name != PROTO
  }

  ghost predicate AllPrintable(fs: seq<(string, FlagValue)>) {
    forall i :: 0 <= i < |fs| ==> Printable(fs[i].0, fs[i].1)
  }

  lemma {:induction false} EqualsAfter(before: string, t: string)
    requires '=' !in before
    ensures EqualsAt(before + "=" + t) == Some(|before|)
  {
    if before == "" {
    } else {
      assert (before + "=" + t)[1..] == before[1..] + "=" + t;
      EqualsAfter(before[1..], t);
    }
  }

  lemma EqualsIn(name: string, t: string)
    requires '=' !in name
    ensures EqualsAt("--" + name + "=" + t) == Some(|name| + 2)
    ensures EqualsAt("--" + name) == None
  {
    EqualsAfter("--" + name, t);
  }

  /** A printable flag, followed by anything dashed, is read back as itself. */
  lemma TakePrinted(p: Parsed, name: string, v: FlagValue, next: string)
    requires Printable(name, v) && Dashed(next)
    ensures PrintFlag(name, v) != "--"
    ensures Take(p, PrintFlag(name, v), Some(next)) == (p.(flags := p.flags[name := v]), false)
  {
    var a := PrintFlag(name, v);
    match v
    case On =>
      EqualsIn(name, "");
      assert a[2..] == name;
    case Text(t) =>
      EqualsIn(name, t);
      assert a[2..|name| + 2] == name && a[|name| + 3..] == t;
  }

  lemma PrintedDashed(name: string, v: FlagValue)
    ensures Dashed(PrintFlag(name, v))
  {
  }

  lemma {:induction false} ScanPrinted(p: Parsed, fs: seq<(string, FlagValue)>, positional: seq<string>)
    requires AllPrintable(fs)
    ensures Scan(p, Print(fs, positional)) == Parsed(Assignments(p.flags, fs), p.positional + positional)
    decreases |fs|
  {
    var args := Print(fs, positional);
    if fs == [] {
      assert args[0] == "--" && args[1..] == positional;
    } else {
      var (name, v) := fs[0];
      assert args[1..] == Print(fs[1..], positional);
      if |fs| > 1 { PrintedDashed(fs[1].0, fs[1].1); }
      assert Dashed(args[1]);
      TakePrinted(p, name, v, args[1]);
      assert AllPrintable(fs[1..]) by {
        assert forall i :: 0 <= i < |fs[1..]| ==> fs[1..][i] == fs[i + 1];
      }
      ScanPrinted(p.(flags := p.flags[name := v]), fs[1..], positional);
    }
  }

  /** Any alias at the front is taken off, so the positionals change. */
  lemma NormalizeShortens(p: Parsed)
    ensures Normalize(p).positional == p.positional <==> !StartsWithAlias(p.positional)
    ensures forall k :: k in Normalize(p).flags ==> k in p.flags || k == "webui" || k == "desktop" || k == "hq"
  {
  }

  ghost predicate PlainNames(flags: Flags) { forall k :: k in flags ==> '=' !in k && k != PROTO }

  /** Printed flags, printable or not, never produce a flag name holding `=`, nor
      `__proto__`; and if
      one of them prints as the bare separator, the rest of the line spills into the
      positionals. */
  lemma {:induction false} ScanAnyPrinted(p: Parsed, fs: seq<(string, FlagValue)>, positional: seq<string>)
    requires PlainNames(p.flags) && p.positional == []
    ensures var r := Scan(p, Print(fs, positional));
      && PlainNames(r.flags)
      && ((exists i :: 0 <= i < |fs| && fs[i] == ("", On)) ==>
            |r.positional| > |positional| && !StartsWithAlias(r.positional))
    decreases |fs|
  {
    var args := Print(fs, positional);
    if fs == [] {
      assert args[0] == "--" && args[1..] == positional;
    } else {
      var (name, v) := fs[0];
      assert args[1..] == Print(fs[1..], positional);
      if |fs| > 1 { PrintedDashed(fs[1].0, fs[1].1); }
      assert Dashed(args[1]);
      if fs[0] == ("", On) {
        assert PrintFlag(name, v) == "--";
        assert Scan(p, args).positional == Print(fs[1..], positional);
        assert Dashed(args[1]);
      } else {
        var (q, both) := Take(p, args[0], Following(args));
        TakePlainNames(p, name, v, args[1]);
        ScanAnyPrinted(q, fs[1..], positional);
        assert forall i :: 0 < i < |fs| ==> fs[i] == fs[1..][i - 1];
      }
    }
  }

  lemma TakePlainNames(p: Parsed, name: string, v: FlagValue, next: string)
    requires PlainNames(p.flags) && Dashed(next) && (name, v) != ("", On)
    ensures PrintFlag(name, v) != "--"
    ensures var (q, both) := Take(p, PrintFlag(name, v), Some(next));
      !both && PlainNames(q.flags) && q.positional == p.positional
  {
    var a := PrintFlag(name, v);
    assert a[0] == '-' && a[1] == '-';
    if v.Text? { assert a[|name| + 2] == '='; } else { assert |a| == |name| + 2; }
    var at := EqualsAt(a);
    if at.Some? {
      assert a[..at.value][2..] == a[2..at.value];
    } else {
      assert forall c :: c in a[2..] ==> c in a;
    }
  }

  lemma {:induction false} AssignedKeys(flags: Flags, fs: seq<(string, FlagValue)>, i: nat)
    requires i < |fs|
    ensures fs[i].0 in Assignments(flags, fs)
    decreases |fs|
  {
    if i > 0 {
      AssignedKeys(flags[fs[0].0 := fs[0].1], fs[1..], i - 1);
    } else {
      KeepsKey(flags[fs[0].0 := fs[0].1], fs[1..], fs[0].0);
    }
  }

  lemma {:induction false} KeepsKey(flags: Flags, fs: seq<(string, FlagValue)>, k: string)
    requires k in flags
    ensures k in Assignments(flags, fs)
    decreases |fs|
  {
    if fs == [] {
    } else {
      KeepsKey(flags[fs[0].0 := fs[0].1], fs[1..], k);
    }
  }

  /** Printing and parsing give the flags and positionals back exactly when every flag
      name is free of `=` and not `__proto__`, no empty name is a bare flag, and the
      positionals do not start with a launch alias. */
  lemma PrintParseRoundTrip(fs: seq<(string, FlagValue)>, positional: seq<string>)
    ensures Parse(Print(fs, positional)) == Parsed(Assignments(map[], fs), positional)
       <==> AllPrintable(fs) && !StartsWithAlias(positional)
  {
    var scanned := Scan(NOTHING, Print(fs, positional));
    NormalizeShortens(scanned);
    if AllPrintable(fs) {
      ScanPrinted(NOTHING, fs, positional);
      assert [] + positional == positional;
    } else {
      ScanAnyPrinted(NOTHING, fs, positional);
      var i :| 0 <= i < |fs| && !Printable(fs[i].0, fs[i].1);
      AssignedKeys(map[], fs, i);
      if '=' in fs[i].0 || fs[i].0 == PROTO {
        assert fs[i].0 !in scanned.flags;
        assert '=' !in "webui" && '=' !in "desktop" && '=' !in "hq";
      } else {
        assert fs[i] == ("", On);
      }
    }
  }

  // ------------------------------------------------------------ launch aliases

  function Plus(p: Parsed, q: Parsed): Parsed {
    Parsed(p.flags + q.flags, p.positional + q.positional)
  }

  lemma PlusAssociates(p: Parsed, q: Parsed, r: Parsed)
    ensures Plus(Plus(p, q), r) == Plus(p, Plus(q, r))
    ensures Plus(p, NOTHING) == p == Plus(NOTHING, p)
  {
    assert (p.positional + q.positional) + r.positional == p.positional + (q.positional + r.positional);
    assert (p.flags + q.flags) + r.flags == p.flags + (q.flags + r.flags);
    assert p.flags + map[] == p.flags == map[] + p.flags;
  }

  lemma SetFlagAdds(p: Parsed, k: string, v: FlagValue)
    ensures SetFlag(p, k, v) == Plus(p, SetFlag(NOTHING, k, v))
  {
    PlusAssociates(p, p, p);
    assert p.flags[k := v] == p.flags + map[][k := v];
    assert p.positional + [] == p.positional;
  }

  lemma TakeAdds(p: Parsed, a: string, following: Option<string>)
    ensures Take(p, a, following) == (Plus(p, Take(NOTHING, a, following).0), Take(NOTHING, a, following).1)
  {
    PlusAssociates(p, p, p);
    if a == "" {
    } else if LongFlag(a) {
      match EqualsAt(a)
      case Some(eq) => if eq >= 2 { SetFlagAdds(p, a[2..eq], Text(a[eq + 1..])); }
      case None =>
        SetFlagAdds(p, a[2..], On);
        if following.Some? { SetFlagAdds(p, a[2..], Text(following.value)); }
    } else if Dashed(a) && |a| == 2 {
      SetFlagAdds(p, if a[1..] == "v" then "verbose" else a[1..], On);
    } else {
      assert [] + [a] == [a];
      assert p.flags + map[] == p.flags;
    }
  }

  /** Scanning adds to what was already parsed. */
  lemma {:induction false} ScanAdds(p: Parsed, args: seq<string>)
    ensures Scan(p, args) == Plus(p, Scan(NOTHING, args))
    decreases |args|
  {
    PlusAssociates(p, p, p);
    if args == [] || args[0] == "--" {
    } else {
      var (q, both) := Take(NOTHING, args[0], Following(args));
      TakeAdds(p, args[0], Following(args));
      var rest := if both && |args| > 1 then args[2..] else args[1..];
      ScanAdds(Plus(p, q), rest);
      ScanAdds(q, rest);
      PlusAssociates(p, q, Scan(NOTHING, rest));
    }
  }

  lemma FirstWord(word: string, rest: seq<string>)
    requires BareSurface(word)
    ensures Scan(NOTHING, [word] + rest) == Plus(Parsed(map[], [word]), Scan(NOTHING, rest))
  {
    var args := [word] + rest;
    assert word[0] != '-' && args[1..] == rest;
    assert [] + [word] == [word];
    assert Take(NOTHING, word, Following(args)) == (Parsed(map[], [word]), false);
    ScanAdds(Parsed(map[], [word]), rest);
  }

  lemma FirstFlag(word: string, rest: seq<string>)
    requires BareSurface(word)
    ensures Scan(NOTHING, ["--" + word] + rest) == Plus(Parsed(map[word := On], []), Scan(NOTHING, rest))
  {
    var args := ["--" + word] + rest;
    EqualsIn(word, "");
    assert ("--" + word)[2..] == word && args[1..] == rest;
    assert Take(NOTHING, "--" + word, Following(args)) == (Parsed(map[word := On], []), false);
    ScanAdds(Parsed(map[word := On], []), rest);
  }

  lemma EarlyOrLate(flags: Flags, word: string)
    ensures flags[word := On] == map[word := On] + flags <==> (word in flags ==> flags[word] == On)
  {
    assert (flags[word := On])[word] == On;
    if word in flags ==> flags[word] == On {
      assert flags[word := On] == map[word := On] + flags;
    }
  }

  /** `webui rest...` and `--webui rest...` parse alike (and `desktop` likewise)
      exactly when the rest does not itself start with an alias and does not give the
      flag a text. */
  lemma SurfaceWordIsFlag(word: string, rest: seq<string>)
    requires BareSurface(word)
    ensures var r := Scan(NOTHING, rest);
      Parse([word] + rest) == Parse(["--" + word] + rest)
      <==> !StartsWithAlias(r.positional) && (word in r.flags ==> r.flags[word] == On)
  {
    var r := Scan(NOTHING, rest);
    FirstWord(word, rest);
    FirstFlag(word, rest);
    assert map[] + r.flags == r.flags && [] + r.positional == r.positional;
    assert ([word] + r.positional)[1..] == r.positional;
    assert Parse([word] + rest) == Parsed(r.flags[word := On], r.positional);
    NormalizeShortens(Parsed(map[word := On] + r.flags, r.positional));
    EarlyOrLate(r.flags, word);
  }
}
