/** What a command line means (packages/cli/src/arg-parser.ts, `parseArgs`): every line is
    spelled from six forms, and reading it gives what the forms stand for. */
module ArgForms {
  import opened Prelude
  import opened ArgParser

  /** `--name`, `--name=text`, `--name text`, `-c`, a word, or an empty argument. */
  datatype Form =
    | Switch(name: string)
    | Assigned(name: string, text: string)
    | Valued(name: string, text: string)
    | Short(letter: char)
    | Word(text: string)
    | Empty

  function Spell(f: Form): (r: seq<string>)
    ensures r != []
  {
    match f
    case Switch(name) => ["--" + name]
    case Assigned(name, text) => ["--" + name + "=" + text]
    case Valued(name, text) => ["--" + name, text]
    case Short(c) => [['-', c]]
    case Word(text) => [text]
    case Empty => [""]
  }

  function SpellAll(forms: seq<Form>): seq<string> {
    if forms == [] then [] else Spell(forms[0]) + SpellAll(forms[1..])
  }

  predicate StartsDashed(s: string) { s != "" && s[0] == '-' }

  /** What a form may hold, given the argument after it: only a flag that takes no value
      may stand before an argument that could be its value. */
  predicate Allowed(f: Form, next: Option<string>) {
    match f
    case Switch(name) =>
      && name != "" && '=' !in name
      && (name in BOOLEAN_FLAGS || next == None || StartsDashed(next.value))
    case Assigned(name, _) => '=' !in name
    case Valued(name, text) => name != "" && '=' !in name && name !in BOOLEAN_FLAGS && !StartsDashed(text)
    case Short(c) => c != '-'
    case Word(text) => text != "" && (text[0] != '-' || |text| == 1 || (|text| > 2 && text[1] != '-'))
    case Empty => true
  }

  function FirstOf(args: seq<string>): Option<string> { if args == [] then None else Some(args[0]) }

  /** All of them, before the arguments `end`. */
  predicate AllAllowed(forms: seq<Form>, end: seq<string>) {
    forms == [] || (Allowed(forms[0], FirstOf(SpellAll(forms[1..]) + end)) && AllAllowed(forms[1..], end))
  }

  /** A flag, last setting first; `__proto__` cannot be set. */
  function With(p: Parsed, name: string, v: FlagValue): Parsed {
    if name == "__proto__" then p else Parsed(p.flags[name := v], p.positional)
  }

  function Meaning(p: Parsed, f: Form): Parsed {
    match f
    case Switch(name) => With(p, name, On)
    case Assigned(name, text) => With(p, name, Text(text))
    case Valued(name, text) => With(p, name, Text(text))
    case Short(c) => With(p, if c == 'v' then "verbose" else [c], On)
    case Word(text) => Parsed(p.flags, p.positional + [text])
    case Empty => p
  }

  function Meanings(p: Parsed, forms: seq<Form>): Parsed
    decreases |forms|
  {
    if forms == [] then p else Meanings(Meaning(p, forms[0]), forms[1..])
  }

  lemma LongReads(p: Parsed, a: string, rest: seq<string>)
    requires a != "--" && LongFlag(a)
    ensures Scan(p, [a] + rest) ==
            var (q, both) := Take(p, a, FirstOf(rest)); Scan(q, if both && rest != [] then rest[1..] else rest)
  {
    var args := [a] + rest;
    assert args[0] == a && args[1..] == rest && Following(args) == FirstOf(rest);
    if rest != [] { assert args[2..] == rest[1..]; }
  }

  lemma SwitchReads(p: Parsed, name: string, rest: seq<string>)
    requires Allowed(Switch(name), FirstOf(rest))
    ensures Scan(p, ["--" + name] + rest) == Scan(With(p, name, On), rest)
  {
    var a := "--" + name;
    EqualsIn(name, "");
    assert a[2..] == name && |a| == |name| + 2;
    LongReads(p, a, rest);
  }

  lemma AssignedReads(p: Parsed, name: string, text: string, rest: seq<string>)
    requires '=' !in name
    ensures Scan(p, ["--" + name + "=" + text] + rest) == Scan(With(p, name, Text(text)), rest)
  {
    var a := "--" + name + "=" + text;
    EqualsIn(name, text);
    assert a[2..|name| + 2] == name && a[|name| + 3..] == text && |a| > 2;
    LongReads(p, a, rest);
  }

  lemma ValuedReads(p: Parsed, name: string, text: string, rest: seq<string>)
    requires Allowed(Valued(name, text), None)
    ensures Scan(p, ["--" + name, text] + rest) == Scan(With(p, name, Text(text)), rest)
  {
    var a := "--" + name;
    EqualsIn(name, "");
    assert a[2..] == name && |a| == |name| + 2;
    assert ["--" + name, text] + rest == [a] + ([text] + rest) && ([text] + rest)[1..] == rest;
    LongReads(p, a, [text] + rest);
  }

  lemma PlainReads(p: Parsed, a: string, rest: seq<string>)
    requires !LongFlag(a)
    ensures Scan(p, [a] + rest) == Scan(Take(p, a, None).0, rest)
  {
    var args := [a] + rest;
    assert args[0] == a && args[1..] == rest && a != "--";
  }

  /** One form is read as what it means, and as nothing more. */
  lemma FormReads(p: Parsed, f: Form, rest: seq<string>)
    requires Allowed(f, FirstOf(rest))
    ensures Scan(p, Spell(f) + rest) == Scan(Meaning(p, f), rest)
  {
    match f
    case Switch(name) => SwitchReads(p, name, rest);
    case Assigned(name, text) => AssignedReads(p, name, text, rest);
    case Valued(name, text) => ValuedReads(p, name, text, rest);
    case Short(c) =>
      PlainReads(p, ['-', c], rest);
      assert ['-', c][1..] == [c] && "v" == ['v'] && "__proto__"[0] == '_' && |"__proto__"| == 9;
    case Word(text) => PlainReads(p, text, rest);
    case Empty => PlainReads(p, "", rest);
  }

  lemma {:induction false} FormsRead(p: Parsed, forms: seq<Form>, end: seq<string>)
    requires AllAllowed(forms, end)
    ensures Scan(p, SpellAll(forms) + end) == Scan(Meanings(p, forms), end)
    decreases |forms|
  {
    if forms == [] {
      assert SpellAll(forms) + end == end;
    } else {
      var rest := SpellAll(forms[1..]) + end;
      assert SpellAll(forms) + end == Spell(forms[0]) + rest;
      FormReads(p, forms[0], rest);
      FormsRead(Meaning(p, forms[0]), forms[1..], end);
    }
  }

  function FormOf(a: string, next: Option<string>): (f: Form)
    ensures f.Valued? ==> next.Some?
  {
    if a == "" then Empty
    else if |a| > 2 && a[0] == '-' && a[1] == '-' then
      match EqualsAt(a)
      case Some(eq) => Assigned(a[2..eq], a[eq + 1..])
      case None =>
        if a[2..] !in BOOLEAN_FLAGS && next.Some? && !StartsDashed(next.value) then Valued(a[2..], next.value)
        else Switch(a[2..])
    else if |a| == 2 && a[0] == '-' then Short(a[1])
    else Word(a)
  }

  /** The forms a line is spelled from, and its end: nothing, or a bare `--` and what follows. */
  function Split(args: seq<string>): (seq<Form>, seq<string>)
    decreases |args|
  {
    if args == [] || args[0] == "--" then ([], args)
    else
      var f := FormOf(args[0], FirstOf(args[1..]));
      var (forms, end) := Split(args[|Spell(f)|..]);
      ([f] + forms, end)
  }

  lemma LongSpells(a: string, next: Option<string>)
    requires |a| > 2 && a[0] == '-' && a[1] == '-'
    ensures var f := FormOf(a, next); Allowed(f, next) && Spell(f) == if f.Valued? then [a, next.value] else [a]
  {
    assert a == "--" + a[2..];
    match EqualsAt(a)
    case Some(eq) =>
      var name, text := a[2..eq], a[eq + 1..];
      assert a[..eq] == "--" + name && a == a[..eq] + "=" + text;
      forall c | c in name ensures c != '=' { assert c in a[..eq]; }
    case None =>
      forall c | c in a[2..] ensures c != '=' { assert c in a; }
  }

  lemma FormSpells(a: string, next: Option<string>)
    requires a != "--"
    ensures var f := FormOf(a, next); Allowed(f, next) && Spell(f) == if f.Valued? then [a, next.value] else [a]
  {
    if |a| > 2 && a[0] == '-' && a[1] == '-' {
      LongSpells(a, next);
    } else if |a| == 2 && a[0] == '-' {
      assert a == ['-', a[1]] && "--" == ['-', '-'];
    }
  }

  lemma AllowedLast(f: Form, next: Option<string>, other: Option<string>)
    requires Allowed(f, next) && (f.Switch? ==> next == other)
    ensures Allowed(f, other)
  {
  }

  lemma FirstForm(args: seq<string>, f: Form)
    requires args != [] && args[0] != "--" && f == FormOf(args[0], FirstOf(args[1..]))
    ensures |Spell(f)| <= |args| && Spell(f) + args[|Spell(f)|..] == args && Allowed(f, FirstOf(args[|Spell(f)|..]))
  {
    var next := FirstOf(args[1..]);
    FormSpells(args[0], next);
    if f.Valued? { assert args[1] == next.value && args == [args[0], args[1]] + args[2..]; } else { assert args == [args[0]] + args[1..]; }
    AllowedLast(f, next, FirstOf(args[|Spell(f)|..]));
  }

  lemma SpellMore(f: Form, forms: seq<Form>, end: seq<string>)
    ensures SpellAll([f] + forms) + end == Spell(f) + (SpellAll(forms) + end)
    ensures AllAllowed([f] + forms, end) <==> Allowed(f, FirstOf(SpellAll(forms) + end)) && AllAllowed(forms, end)
  {
    assert ([f] + forms)[1..] == forms;
    assert Spell(f) + SpellAll(forms) + end == Spell(f) + (SpellAll(forms) + end);
  }

  /** Every command line is spelled from forms, up to its end or a bare `--`. */
  lemma {:induction false} EveryLineIsSpelled(args: seq<string>)
    ensures var (forms, end) := Split(args);
      && SpellAll(forms) + end == args && AllAllowed(forms, end) && (end == [] || end[0] == "--")
    decreases |args|
  {
    if args == [] || args[0] == "--" {
      assert SpellAll([]) + args == args;
    } else {
      var f := FormOf(args[0], FirstOf(args[1..]));
      FirstForm(args, f);
      var rest := args[|Spell(f)|..];
      EveryLineIsSpelled(rest);
      SpellMore(f, Split(rest).0, Split(rest).1);
    }
  }

  /** So reading any line gives what its forms mean; what follows a bare `--` is positional. */
  lemma LineReads(args: seq<string>)
    ensures var (forms, end) := Split(args);
      var p := Meanings(Parsed(map[], []), forms);
      Scan(NOTHING, args) == if end == [] then p else Parsed(p.flags, p.positional + end[1..])
  {
    var (forms, end) := Split(args);
    EveryLineIsSpelled(args);
    FormsRead(NOTHING, forms, end);
  }

  // ----------------------------------------------------------- launch aliases

  /** The launch words: a surface's name, `hq` alone and `hq serve` become flags. */
  lemma LaunchWords(flags: Flags, rest: seq<string>, word: string)
    requires word in {"webui", "desktop"}
    ensures Normalize(Parsed(flags, [word] + rest)) == Parsed(flags[word := On], rest)
    ensures Normalize(Parsed(flags, ["hq"])) == Parsed(flags["hq" := On], [])
    ensures Normalize(Parsed(flags, ["hq", "serve"] + rest)) == Parsed(flags["hq" := On], rest)
  {
    assert ([word] + rest)[1..] == rest && (["hq", "serve"] + rest)[2..] == rest && ["hq"][1..] == [];
    assert (["hq", "serve"] + rest)[1] == "serve" && "hq" != "webui" && "hq" != "desktop";
    assert |"hq"| == 2 && |"webui"| == 5 && |"desktop"| == 7;
  }

  /** Any other start is left alone. */
  lemma OtherWords(p: Parsed)
    requires p.positional != [] ==> p.positional[0] !in {"webui", "desktop"}
    requires p.positional != [] && p.positional[0] == "hq" ==> |p.positional| > 1 && p.positional[1] != "serve"
    ensures Normalize(p) == p
  {
  }
}
