/** packages/cli/src/config-doctor.ts: diagnosing a configuration and repairing it, with
    the plugin-schema validation of packages/core/src/utils/json-schema-validate.ts at
    the level of a section's own properties. */
module ConfigDoctor {
  import opened Prelude
  import opened Json
  import opened ConfigRepair

  /** What the doctor takes from elsewhere: lower-casing, `Number(text)` (None for NaN),
      `normalizeTuiThinkingWord`, `isSecretField`. */
  datatype Tools = Tools(
    lower: string -> string,
    toNumber: string -> Option<Num>,
    normalizeWord: Json -> string,
    isSecret: string -> bool)

  const KNOWN_TOP_LEVEL_KEYS: seq<string> :=
    ["version", "provider", "model", "apiKey", "baseUrl", "maxConcurrent", "providers", "models", "modelMatrix",
     "context", "tools", "mcpServers", "fallbackModels", "fallbackAuto", "hooks", "plugins", "log", "features",
     "yolo", "nextPrediction", "cwd", "autonomy", "hints", "debugStream", "configScope", "indexing",
     "circuitBreaker", "adaptiveConcurrency", "launch", "session", "modelRuntime", "hq", "sync", "extensions"]

  const BOOLEAN_FIELDS: seq<string> := ["hints", "debugStream", "yolo", "nextPrediction"]

  // ---------------------------------------------------------- single values

  const ONE: Json := Number(Finite(1.0))

  function CoerceBoolean(v: Json): Option<bool> {
    if v.Bool? then Some(v.b)
    else if v == Str("true") || v == Str("on") || v == ONE then Some(true)
    else if v == Str("false") || v == Str("off") || v == Number(Finite(0.0)) then Some(false)
    else None
  }

  function CoerceNumber(tools: Tools, v: Json): Option<Num> {
    if v.Number? then Some(v.n)
    else if v.Str? && Trim(v.s) != "" then tools.toNumber(v.s)
    else None
  }

  /** `Math.max(0, Math.floor(n))` and `Math.max(0, Math.round(n))`. */
  function WholeFloor(n: Num): Num {
    match n
    case PosInf => PosInf
    case NegInf => Finite(0.0)
    case Finite(r) => Finite(if r.Floor > 0 then r.Floor as real else 0.0)
  }

  function WholeRound(n: Num): Num {
    match n
    case PosInf => PosInf
    case NegInf => Finite(0.0)
    case Finite(r) => Finite(if (r + 0.5).Floor > 0 then (r + 0.5).Floor as real else 0.0)
  }

  predicate Negative(n: Num) { n == NegInf || (n.Finite? && n.r < 0.0) }

  function VersionTreat(v: Json): Treatment { if v == ONE then Kept(v) else Repaired(ONE) }

  function BooleanTreat(v: Json): Treatment {
    if v.Bool? then Kept(v)
    else match CoerceBoolean(v) case Some(b) => Repaired(Bool(b)) case None => DROPPED
  }

  function EnumTreat(allowed: seq<string>): Json -> Treatment {
    (v: Json) => if v.Str? && v.s in allowed then Kept(v) else DROPPED
  }

  function CountTreat(tools: Tools): Json -> Treatment {
    (v: Json) =>
      match CoerceNumber(tools, v)
      case None => DROPPED
      case Some(n) => if Number(WholeFloor(n)) == v then Kept(v) else Repaired(Number(WholeFloor(n)))
  }

  function StringTreat(v: Json): Treatment { if v.Str? then Kept(v) else Flagged(v) }

  function DelayTreat(tools: Tools): Json -> Treatment {
    (v: Json) =>
      match CoerceNumber(tools, v)
      case None => DROPPED
      case Some(n) => if Negative(n) || Number(n) != v then Repaired(Number(WholeRound(n))) else Kept(v)
  }

  function WordTreat(tools: Tools): Json -> Treatment {
    (v: Json) => if v == Str(tools.normalizeWord(v)) then Kept(v) else DROPPED
  }

  function ObjectOnly(v: Json): Treatment { if v.Obj? then Kept(v) else DROPPED }

  function AutonomyRules(tools: Tools): seq<Rule> {
    [Rule("defaultMode", EnumTreat(["off", "suggest", "auto"])), Rule("enhanceLanguage", EnumTreat(["original", "english"])),
     Rule("enhance", BooleanTreat), Rule("autoProceedDelayMs", DelayTreat(tools)),
     Rule("enhanceDelayMs", DelayTreat(tools)), Rule("thinkingWord", WordTreat(tools))]
  }

  const ENTRY_RULES: seq<Rule> := [Rule("enabled", BooleanTreat), Rule("options", ObjectOnly)]

  predicate IsNamed(v: Json) { v.Obj? && Lookup(v.fields, "name").Some? && Lookup(v.fields, "name").value.Str? }

  function EntryTreat(v: Json): Treatment {
    if v.Str? then Kept(v)
    else if IsNamed(v) then ObjectTreat(ENTRY_RULES)(v)
    else DROPPED
  }

  // ------------------------------------------------ plugin sections: schemas

  /** An error of the validator: the path it names. */
  datatype Issue = Issue(path: string)

  /** Where below a property an error lies: at it, in a property of it or in an element. */
  type Suffix = s: string | s == "" || s[0] == '.' || s[0] == '[' witness ""

  /** A property's sub-schema, as where it finds errors: in a value of the section's own,
      and in what every object inherits under the key. */
  datatype Property = Property(key: string, check: Json -> seq<Suffix>, inherited: seq<Suffix>)

  /** The root of a plugin's `configSchema`; `allows` is its `enum`, if any. */
  datatype Schema = Schema(
    allows: Option<Json -> bool>,
    typeName: Option<string>,
    required: seq<string>,
    properties: seq<Property>)

  const ROOT_PATH: string := "<root>"

  /** The types an object does not have; an unknown type name accepts anything. */
  const NON_OBJECT_TYPES: seq<string> := ["string", "number", "integer", "boolean", "null", "array"]

  predicate Listed(keys: seq<string>, key: string) { keys != [] && (keys[0] == key || Listed(keys[1..], key)) }

  /** What `Object.prototype` gives every object. */
  const INHERITED: seq<string> :=
    ["constructor", "__defineGetter__", "__defineSetter__", "hasOwnProperty", "__lookupGetter__", "__lookupSetter__",
     "isPrototypeOf", "propertyIsEnumerable", "toString", "valueOf", "__proto__", "toLocaleString"]

  predicate Inherited(name: string) { Listed(INHERITED, name) }

  /** `name in section`. */
  predicate In(section: seq<Field>, name: string) { HasKey(section, name) || Inherited(name) }

  /** The path of an error below a property; a property with an empty name leaves no trace. */
  function Below(key: string, s: Suffix): string {
    if key != "" then key + s
    else if s == "" then ROOT_PATH
    else if s[0] == '.' then s[1..]
    else s
  }

  function IssuesAt(key: string, ss: seq<Suffix>): (r: seq<Issue>)
    ensures |r| == |ss| && forall i :: 0 <= i < |r| ==> r[i] == Issue(Below(key, ss[i]))
  {
    seq(|ss|, i requires 0 <= i < |ss| => Issue(Below(key, ss[i])))
  }

  function Missing(required: seq<string>, section: seq<Field>): seq<Issue> {
    if required == [] then []
    else Missing(required[..|required| - 1], section) +
         if In(section, required[|required| - 1]) then [] else [Issue(required[|required| - 1])]
  }

  function PropertyErrors(p: Property, section: seq<Field>): seq<Issue> {
    match Lookup(section, p.key)
    case Some(v) => IssuesAt(p.key, p.check(v))
    case None => if Inherited(p.key) then IssuesAt(p.key, p.inherited) else []
  }

  function WrongProperties(properties: seq<Property>, section: seq<Field>): seq<Issue> {
    if properties == [] then []
    else WrongProperties(properties[..|properties| - 1], section) + PropertyErrors(properties[|properties| - 1], section)
  }

  /** `validateAgainstSchema(section, schema).errors`. */
  function Errors(schema: Schema, section: seq<Field>): seq<Issue> {
    if schema.allows.Some? && !schema.allows.value(Obj(section)) then [Issue(ROOT_PATH)]
    else if schema.typeName.Some? && schema.typeName.value in NON_OBJECT_TYPES then [Issue(ROOT_PATH)]
    else if schema.typeName == Some("object") then
      Missing(schema.required, section) + WrongProperties(schema.properties, section)
    else []
  }

  function UpToDot(path: string): string {
    if path == "" || path[0] == '.' then "" else [path[0]] + UpToDot(path[1..])
  }

  /** How many digits stand before `end`. */
  function DigitsBefore(s: string, end: nat): (n: nat)
    requires end <= |s|
    ensures n <= end
  {
    if end > 0 && '0' <= s[end - 1] <= '9' then 1 + DigitsBefore(s, end - 1) else 0
  }

  /** Without one trailing `[n]`. */
  function StripIndex(s: string): string {
    if s != "" && s[|s| - 1] == ']' then
      var n := DigitsBefore(s, |s| - 1);
      if n > 0 && |s| >= n + 2 && s[|s| - n - 2] == '[' then s[..|s| - n - 2] else s
    else s
  }

  /** The property of the section an error is about. */
  function PropOf(path: string): string { StripIndex(UpToDot(path)) }

  /** Deleting what is only inherited is reported like any removal, and removes nothing. */
  predicate Removable(section: seq<Field>, e: Issue) {
    PropOf(e.path) != "" && PropOf(e.path) != ROOT_PATH && In(section, PropOf(e.path))
  }

  function PathOf(e: Issue): seq<Segment> { if e.path == ROOT_PATH then [] else [Key(e.path)] }

  /** The loop over the errors of one section. */
  function Purge(section: seq<Field>, errors: seq<Issue>): Treated {
    if errors == [] then Treated(section, [])
    else
      var t, e := Purge(section, errors[..|errors| - 1]), errors[|errors| - 1];
      if Removable(t.fields, e) then
        Treated(Omit(t.fields, PropOf(e.path)), t.findings + [Finding([Key(e.path)], Error, Some(Removed))])
      else Treated(t.fields, t.findings + [Finding(PathOf(e), Error, None)])
  }

  function SectionTreat(schema: Schema): Json -> Treatment {
    (v: Json) =>
      if v.Obj? then
        var t := Purge(v.fields, Errors(schema, v.fields));
        Treatment(Some(Obj(t.fields)), t.findings)
      else Kept(v)
  }

  datatype Plugin = Plugin(name: string, schema: Option<Schema>)

  function PluginRules(plugins: seq<Plugin>): seq<Rule> {
    if plugins == [] then []
    else
      var p := plugins[|plugins| - 1];
      PluginRules(plugins[..|plugins| - 1]) + if p.schema.Some? then [Rule(p.name, SectionTreat(p.schema.value))] else []
  }

  /** The loop that removes sections that are not objects. */
  function WithoutScalars(o: seq<Field>, entries: seq<Field>): Treated {
    if entries == [] then Treated(o, [])
    else
      var t, e := WithoutScalars(o, entries[..|entries| - 1]), entries[|entries| - 1];
      if e.value.Obj? then t
      else Treated(Omit(t.fields, e.key), t.findings + [Finding([Key(e.key)], Error, Some(Removed))])
  }

  function ExtensionsTreat(plugins: seq<Plugin>): Json -> Treatment {
    (v: Json) =>
      if v.Obj? then
        var sections := WithoutScalars(v.fields, v.fields);
        var t := ApplyRules(sections.fields, PluginRules(plugins));
        Treatment(Some(Obj(t.fields)), sections.findings + t.findings)
      else DROPPED
  }

  // ------------------------------------------------------------ the doctor

  /** One treatment per checked top-level key, in the order of the sections. */
  function FirstRules(tools: Tools): seq<Rule> {
    [Rule("version", VersionTreat),
     Rule("hints", BooleanTreat), Rule("debugStream", BooleanTreat), Rule("yolo", BooleanTreat), Rule("nextPrediction", BooleanTreat),
     Rule("configScope", EnumTreat(["global", "project"])),
     Rule("maxConcurrent", CountTreat(tools))]
  }

  function LastRules(tools: Tools, plugins: seq<Plugin>): seq<Rule> {
    [Rule("provider", StringTreat), Rule("model", StringTreat),
     Rule("autonomy", ObjectTreat(AutonomyRules(tools))),
     Rule("plugins", ArrayTreat(EntryTreat)),
     Rule("extensions", ExtensionsTreat(plugins))]
  }

  function TopRules(tools: Tools, plugins: seq<Plugin>): seq<Rule> { FirstRules(tools) + LastRules(tools, plugins) }

  predicate Known(key: string) { Listed(KNOWN_TOP_LEVEL_KEYS, key) }

  function FirstMatch(known: seq<string>, key: string, lower: string -> string): (m: Option<string>)
    ensures m.Some? ==> Listed(known, m.value) && lower(m.value) == lower(key)
  {
    if known == [] then None
    else if lower(known[0]) == lower(key) then Some(known[0])
    else FirstMatch(known[1..], key, lower)
  }

  function MatchFor(key: string, lower: string -> string): (m: Option<string>)
    ensures m.Some? ==> Known(m.value) && lower(m.value) == lower(key)
  {
    FirstMatch(KNOWN_TOP_LEVEL_KEYS, key, lower)
  }

  predicate Renames(o: seq<Field>, key: string, lower: string -> string) {
    && !Known(key) && HasKey(o, key)
    && MatchFor(key, lower).Some? && !HasKey(o, MatchFor(key, lower).value)
  }

  function RenameOne(t: Treated, key: string, lower: string -> string): Treated {
    if Known(key) then t
    else if Renames(t.fields, key, lower) then
      var m := MatchFor(key, lower).value;
      HasLookup(t.fields, key);
      Treated(Omit(Assign(t.fields, m, Lookup(t.fields, key).value), key),
              t.findings + [Finding([Key(key)], Error, Some(RenamedTo(m)))])
    else Treated(t.fields, t.findings + [Finding([Key(key)], Warning, None)])
  }

  /** The loop over a snapshot of the keys. */
  function RenameAll(o: seq<Field>, keys: seq<string>, lower: string -> string): Treated {
    if keys == [] then Treated(o, []) else RenameOne(RenameAll(o, keys[..|keys| - 1], lower), keys[|keys| - 1], lower)
  }

  function FieldKeys(o: seq<Field>): seq<string> { seq(|o|, i requires 0 <= i < |o| => o[i].key) }

  const ENC_PREFIX: string := "enc:v1:"

  /** The scan for plaintext secrets, through nested objects. */
  function SecretsIn(f: Field, prefix: seq<Segment>, isSecret: string -> bool): seq<Finding>
    decreases f
  {
    if f.value.Str? && f.value.s != "" && isSecret(f.key) && !(ENC_PREFIX <= f.value.s)
    then [Finding(prefix + [Key(f.key)], Warning, None)]
    else if f.value.Obj? then Secrets(f.value.fields, prefix + [Key(f.key)], isSecret)
    else []
  }

  function Secrets(o: seq<Field>, prefix: seq<Segment>, isSecret: string -> bool): seq<Finding>
    decreases o
  {
    if o == [] then [] else SecretsIn(o[0], prefix, isSecret) + Secrets(o[1..], prefix, isSecret)
  }

  datatype Report = Report(findings: seq<Finding>, fixed: seq<Field>, changed: bool)

  function Diagnose(cfg: seq<Field>, plugins: seq<Plugin>, tools: Tools): Report {
    var r := RenameAll(cfg, FieldKeys(cfg), tools.lower);
    var t := ApplyRules(r.fields, TopRules(tools, plugins));
    Report(r.findings + t.findings + Secrets(t.fields, [], tools.isSecret),
           t.fields,
           PrintedFields(t.fields) != PrintedFields(cfg))
  }

  // ------------------------------------------------------------- the method

  lemma ApplyKept(t: Treated, rule: Rule)
    requires Lookup(t.fields, rule.key).Some? ==> rule.treat(Lookup(t.fields, rule.key).value) == Kept(Lookup(t.fields, rule.key).value)
    ensures ApplyRule(t, rule) == t
  {
    if Lookup(t.fields, rule.key).Some? {
      HasLookup(t.fields, rule.key);
      AssignSame(t.fields, rule.key);
      assert t.findings + [] == t.findings;
    }
  }

  lemma ApplyOne(t: Treated, rule: Rule, w: Option<Json>, fix: Option<Fix>)
    requires Lookup(t.fields, rule.key).Some?
    requires rule.treat(Lookup(t.fields, rule.key).value) == Treatment(w, [Finding([], Error, fix)])
    ensures ApplyRule(t, rule) == Treated(Store(t.fields, rule.key, w), t.findings + [Report1(rule.key, fix)])
  {
    UnderOne(Key(rule.key), Finding([], Error, fix));
    assert [Key(rule.key)] + [] == [Key(rule.key)];
  }

  lemma UnderOne(s: Segment, f: Finding)
    ensures Under(s, [f]) == [f.(path := [s] + f.path)]
  {
    assert ([f])[..0] == [];
  }

  function Report1(key: string, fix: Option<Fix>): Finding { Finding([Key(key)], Error, fix) }

  method RenameUnknownKeys(cfg: seq<Field>, lower: string -> string) returns (t: Treated)
    ensures t == RenameAll(cfg, FieldKeys(cfg), lower)
  {
    var keys := FieldKeys(cfg);
    t := Treated(cfg, []);
    for i := 0 to |keys|
      invariant t == RenameAll(cfg, keys[..i], lower)
    {
      assert keys[..i + 1][..i] == keys[..i];
      var key := keys[i];
      if Known(key) { continue; }
      var found := MatchFor(key, lower);
      var v := Lookup(t.fields, key);
      HasLookup(t.fields, key);
      if found.Some? && v.Some? && !HasKey(t.fields, found.value) {
        t := Treated(Omit(Assign(t.fields, found.value, v.value), key),
                     t.findings + [Finding([Key(key)], Error, Some(RenamedTo(found.value)))]);
      } else {
        t := t.(findings := t.findings + [Finding([Key(key)], Warning, None)]);
      }
    }
    assert keys[..|keys|] == keys;
  }

  /** Sets or removes a field and reports it. */
  method Mend(t: Treated, key: string, w: Option<Json>) returns (r: Treated)
    ensures r == Treated(Store(t.fields, key, w),
                         t.findings + [Report1(key, Some(if w.Some? then SetTo(w.value) else Removed))])
  {
    if w.Some? {
      r := Treated(Assign(t.fields, key, w.value), t.findings + [Report1(key, Some(SetTo(w.value)))]);
    } else {
      r := Treated(Omit(t.fields, key), t.findings + [Report1(key, Some(Removed))]);
    }
  }

  method FixVersion(t: Treated) returns (r: Treated)
    ensures r == ApplyRule(t, Rule("version", VersionTreat))
  {
    var v := Lookup(t.fields, "version");
    if v.Some? && v.value != ONE {
      r := Mend(t, "version", Some(ONE));
      ApplyOne(t, Rule("version", VersionTreat), Some(ONE), Some(SetTo(ONE)));
    } else {
      r := t;
      ApplyKept(t, Rule("version", VersionTreat));
    }
  }

  method FixBoolean(t: Treated, key: string) returns (r: Treated)
    ensures r == ApplyRule(t, Rule(key, BooleanTreat))
  {
    r := t;
    var v := Lookup(t.fields, key);
    if v.Some? && !v.value.Bool? {
      var coerced := CoerceBoolean(v.value);
      var w := if coerced.Some? then Some(Bool(coerced.value)) else None;
      r := Mend(t, key, w);
      ApplyOne(t, Rule(key, BooleanTreat), w, Some(if w.Some? then SetTo(w.value) else Removed));
    } else {
      ApplyKept(t, Rule(key, BooleanTreat));
    }
  }

  method FixEnum(t: Treated, key: string, allowed: seq<string>) returns (r: Treated)
    ensures r == ApplyRule(t, Rule(key, EnumTreat(allowed)))
  {
    r := t;
    var v := Lookup(t.fields, key);
    if v.Some? && !(v.value.Str? && v.value.s in allowed) {
      r := Mend(t, key, None);
      ApplyOne(t, Rule(key, EnumTreat(allowed)), None, Some(Removed));
    } else {
      ApplyKept(t, Rule(key, EnumTreat(allowed)));
    }
  }

  method FixCount(t: Treated, tools: Tools, key: string) returns (r: Treated)
    ensures r == ApplyRule(t, Rule(key, CountTreat(tools)))
  {
    r := t;
    var v := Lookup(t.fields, key);
    if v == None { return; }
    var n := CoerceNumber(tools, v.value);
    if n == None {
      r := Mend(t, key, None);
      ApplyOne(t, Rule(key, CountTreat(tools)), None, Some(Removed));
    } else if Number(WholeFloor(n.value)) != v.value {
      var clamped := Number(WholeFloor(n.value));
      r := Mend(t, key, Some(clamped));
      ApplyOne(t, Rule(key, CountTreat(tools)), Some(clamped), Some(SetTo(clamped)));
    } else {
      ApplyKept(t, Rule(key, CountTreat(tools)));
    }
  }

  method FixDelay(t: Treated, tools: Tools, key: string) returns (r: Treated)
    ensures r == ApplyRule(t, Rule(key, DelayTreat(tools)))
  {
    r := t;
    var v := Lookup(t.fields, key);
    if v == None { return; }
    var n := CoerceNumber(tools, v.value);
    if n == None {
      r := Mend(t, key, None);
      ApplyOne(t, Rule(key, DelayTreat(tools)), None, Some(Removed));
    } else if Negative(n.value) || Number(n.value) != v.value {
      var repaired := Number(WholeRound(n.value));
      r := Mend(t, key, Some(repaired));
      ApplyOne(t, Rule(key, DelayTreat(tools)), Some(repaired), Some(SetTo(repaired)));
    } else {
      ApplyKept(t, Rule(key, DelayTreat(tools)));
    }
  }

  method FixWord(t: Treated, tools: Tools) returns (r: Treated)
    ensures r == ApplyRule(t, Rule("thinkingWord", WordTreat(tools)))
  {
    r := t;
    var v := Lookup(t.fields, "thinkingWord");
    if v.Some? && v.value != Str(tools.normalizeWord(v.value)) {
      r := Mend(t, "thinkingWord", None);
      ApplyOne(t, Rule("thinkingWord", WordTreat(tools)), None, Some(Removed));
    } else {
      ApplyKept(t, Rule("thinkingWord", WordTreat(tools)));
    }
  }

  method CheckText(t: Treated, key: string) returns (r: Treated)
    ensures r == ApplyRule(t, Rule(key, StringTreat))
  {
    r := t;
    var v := Lookup(t.fields, key);
    if v.Some? && !v.value.Str? {
      r := t.(findings := t.findings + [Report1(key, None)]);
      ApplyOne(t, Rule(key, StringTreat), v, None);
      HasLookup(t.fields, key);
      AssignSame(t.fields, key);
    } else {
      ApplyKept(t, Rule(key, StringTreat));
    }
  }

  method FixObjectOnly(t: Treated, key: string) returns (r: Treated)
    ensures r == ApplyRule(t, Rule(key, ObjectOnly))
  {
    r := t;
    var v := Lookup(t.fields, key);
    if v.Some? && !v.value.Obj? {
      r := Mend(t, key, None);
      ApplyOne(t, Rule(key, ObjectOnly), None, Some(Removed));
    } else {
      ApplyKept(t, Rule(key, ObjectOnly));
    }
  }

  /** `t` is what the first `k` rules make of `o`. */
  ghost predicate Reached(t: Treated, o: seq<Field>, rules: seq<Rule>, k: nat) {
    k <= |rules| && t == ApplyRules(o, rules[..k])
  }

  lemma NextRule(t: Treated, o: seq<Field>, rules: seq<Rule>, k: nat)
    requires Reached(t, o, rules, k) && k < |rules|
    ensures Reached(ApplyRule(t, rules[k]), o, rules, k + 1)
  {
    assert rules[..k + 1][..k] == rules[..k];
  }

  lemma AllRules(t: Treated, o: seq<Field>, rules: seq<Rule>)
    requires Reached(t, o, rules, |rules|)
    ensures t == ApplyRules(o, rules)
  {
    assert rules[..|rules|] == rules;
  }

  method FixAutonomyEnums(o: seq<Field>, ghost rules: seq<Rule>) returns (t: Treated)
    requires |rules| >= 2 && rules[0] == Rule("defaultMode", EnumTreat(["off", "suggest", "auto"]))
    requires rules[1] == Rule("enhanceLanguage", EnumTreat(["original", "english"]))
    ensures Reached(t, o, rules, 2)
  {
    var enums := [("defaultMode", ["off", "suggest", "auto"]), ("enhanceLanguage", ["original", "english"])];
    t := Treated(o, []);
    for i := 0 to 2
      invariant Reached(t, o, rules, i)
    {
      NextRule(t, o, rules, i);
      t := FixEnum(t, enums[i].0, enums[i].1);
    }
  }

  const AUTONOMY_DELAYS: seq<string> := ["autoProceedDelayMs", "enhanceDelayMs"]

  method FixAutonomyDelays(t: Treated, tools: Tools, ghost o: seq<Field>, ghost rules: seq<Rule>, ghost k: nat) returns (r: Treated)
    requires Reached(t, o, rules, k) && k + 2 <= |rules|
    requires forall i :: 0 <= i < 2 ==> rules[k + i] == Rule(AUTONOMY_DELAYS[i], DelayTreat(tools))
    ensures Reached(r, o, rules, k + 2)
  {
    r := t;
    for i := 0 to |AUTONOMY_DELAYS|
      invariant Reached(r, o, rules, k + i)
    {
      NextRule(r, o, rules, k + i);
      r := FixDelay(r, tools, AUTONOMY_DELAYS[i]);
    }
  }

  method FixAutonomyBlock(o: seq<Field>, tools: Tools, ghost rules: seq<Rule>) returns (t: Treated)
    requires |rules| == 6 && rules[0] == Rule("defaultMode", EnumTreat(["off", "suggest", "auto"]))
    requires rules[1] == Rule("enhanceLanguage", EnumTreat(["original", "english"]))
    requires rules[2] == Rule("enhance", BooleanTreat) && rules[5] == Rule("thinkingWord", WordTreat(tools))
    requires forall i :: 0 <= i < 2 ==> rules[3 + i] == Rule(AUTONOMY_DELAYS[i], DelayTreat(tools))
    ensures t == ApplyRules(o, rules)
  {
    t := FixAutonomyEnums(o, rules);
    NextRule(t, o, rules, 2);
    t := FixBoolean(t, "enhance");
    t := FixAutonomyDelays(t, tools, o, rules, 3);
    NextRule(t, o, rules, 5);
    t := FixWord(t, tools);
    AllRules(t, o, rules);
  }

  method FixEntry(entry: Json) returns (t: Treatment)
    ensures t == EntryTreat(entry)
  {
    if entry.Str? { return Kept(entry); }
    if IsNamed(entry) {
      var fields := Treated(entry.fields, []);
      NextRule(fields, entry.fields, ENTRY_RULES, 0);
      fields := FixBoolean(fields, "enabled");
      NextRule(fields, entry.fields, ENTRY_RULES, 1);
      fields := FixObjectOnly(fields, "options");
      AllRules(fields, entry.fields, ENTRY_RULES);
      return Treatment(Some(Obj(fields.fields)), fields.findings);
    }
    t := DROPPED;
  }

  method FixEntries(items: seq<Json>) returns (t: Sifted)
    ensures t == Sift(items, EntryTreat)
  {
    t := Sifted([], []);
    for i := 0 to |items|
      invariant t == Sift(items[..i], EntryTreat)
    {
      assert items[..i + 1][..i] == items[..i];
      var entry := FixEntry(items[i]);
      t := Sifted(t.kept + (if entry.value.Some? then [entry.value.value] else []),
                  t.findings + Under(Index(i), entry.findings));
    }
    assert items[..|items|] == items;
  }

  method RemoveScalars(o: seq<Field>) returns (t: Treated)
    ensures t == WithoutScalars(o, o)
  {
    t := Treated(o, []);
    for i := 0 to |o|
      invariant t == WithoutScalars(o, o[..i])
    {
      assert o[..i + 1][..i] == o[..i];
      if !o[i].value.Obj? {
        t := Treated(Omit(t.fields, o[i].key), t.findings + [Report1(o[i].key, Some(Removed))]);
      }
    }
    assert o[..|o|] == o;
  }

  method PurgeSection(section: seq<Field>, errors: seq<Issue>) returns (t: Treated)
    ensures t == Purge(section, errors)
  {
    t := Treated(section, []);
    for i := 0 to |errors|
      invariant t == Purge(section, errors[..i])
    {
      assert errors[..i + 1][..i] == errors[..i];
      var prop := PropOf(errors[i].path);
      if prop != "" && prop != ROOT_PATH && In(t.fields, prop) {
        t := Treated(Omit(t.fields, prop), t.findings + [Report1(errors[i].path, Some(Removed))]);
      } else {
        t := t.(findings := t.findings + [Finding(PathOf(errors[i]), Error, None)]);
      }
    }
    assert errors[..|errors|] == errors;
  }

  method ValidateSections(o: seq<Field>, plugins: seq<Plugin>) returns (t: Treated)
    ensures t == ApplyRules(o, PluginRules(plugins))
  {
    t := Treated(o, []);
    for i := 0 to |plugins|
      invariant t == ApplyRules(o, PluginRules(plugins[..i]))
    {
      PluginStep(o, plugins, i);
      var p := plugins[i];
      var section := Lookup(t.fields, p.name);
      if p.schema == None || section == None { continue; }
      if !section.value.Obj? {
        ApplyKept(t, Rule(p.name, SectionTreat(p.schema.value)));
        continue;
      }
      var purged := PurgeSection(section.value.fields, Errors(p.schema.value, section.value.fields));
      t := Treated(Assign(t.fields, p.name, Obj(purged.fields)), t.findings + Under(Key(p.name), purged.findings));
    }
    assert plugins[..|plugins|] == plugins;
  }

  lemma PluginStep(o: seq<Field>, plugins: seq<Plugin>, i: nat)
    requires i < |plugins|
    ensures ApplyRules(o, PluginRules(plugins[..i + 1])) ==
            if plugins[i].schema.Some?
            then ApplyRule(ApplyRules(o, PluginRules(plugins[..i])), Rule(plugins[i].name, SectionTreat(plugins[i].schema.value)))
            else ApplyRules(o, PluginRules(plugins[..i]))
  {
    assert plugins[..i + 1][..i] == plugins[..i];
    var rules := PluginRules(plugins[..i]);
    if plugins[i].schema.Some? {
      assert (rules + [Rule(plugins[i].name, SectionTreat(plugins[i].schema.value))])[..|rules|] == rules;
    } else {
      assert rules + [] == rules;
    }
  }

  /** Puts a repaired block back with what was reported about it. */
  method PutBlock(t: Treated, key: string, v: Json, findings: seq<Finding>, ghost treat: Json -> Treatment) returns (r: Treated)
    requires Lookup(t.fields, key).Some? && treat(Lookup(t.fields, key).value) == Treatment(Some(v), findings)
    ensures r == ApplyRule(t, Rule(key, treat))
  {
    r := Treated(Assign(t.fields, key, v), t.findings + Under(Key(key), findings));
  }

  method DropBlock(t: Treated, key: string, ghost treat: Json -> Treatment) returns (r: Treated)
    requires Lookup(t.fields, key).Some? && treat(Lookup(t.fields, key).value) == DROPPED
    ensures r == ApplyRule(t, Rule(key, treat))
  {
    r := Mend(t, key, None);
    ApplyOne(t, Rule(key, treat), None, Some(Removed));
  }

  method FixAutonomy(t: Treated, tools: Tools) returns (r: Treated)
    ensures r == ApplyRule(t, Rule("autonomy", ObjectTreat(AutonomyRules(tools))))
  {
    var v := Lookup(t.fields, "autonomy");
    if v == None { return t; }
    if !v.value.Obj? {
      r := DropBlock(t, "autonomy", ObjectTreat(AutonomyRules(tools)));
    } else {
      var block := FixAutonomyBlock(v.value.fields, tools, AutonomyRules(tools));
      r := PutBlock(t, "autonomy", Obj(block.fields), block.findings, ObjectTreat(AutonomyRules(tools)));
    }
  }

  method FixPlugins(t: Treated) returns (r: Treated)
    ensures r == ApplyRule(t, Rule("plugins", ArrayTreat(EntryTreat)))
  {
    var v := Lookup(t.fields, "plugins");
    if v == None { return t; }
    if !v.value.Arr? {
      r := DropBlock(t, "plugins", ArrayTreat(EntryTreat));
    } else {
      var entries := FixEntries(v.value.items);
      r := PutBlock(t, "plugins", Arr(entries.kept), entries.findings, ArrayTreat(EntryTreat));
    }
  }

  method FixExtensions(t: Treated, plugins: seq<Plugin>) returns (r: Treated)
    ensures r == ApplyRule(t, Rule("extensions", ExtensionsTreat(plugins)))
  {
    var v := Lookup(t.fields, "extensions");
    if v == None { return t; }
    if !v.value.Obj? {
      r := DropBlock(t, "extensions", ExtensionsTreat(plugins));
    } else {
      var objects := RemoveScalars(v.value.fields);
      var sections := ValidateSections(objects.fields, plugins);
      r := PutBlock(t, "extensions", Obj(sections.fields), objects.findings + sections.findings, ExtensionsTreat(plugins));
    }
  }

  method FixBooleans(t: Treated, ghost o: seq<Field>, ghost rules: seq<Rule>) returns (r: Treated)
    requires |rules| >= 5 && Reached(t, o, rules, 1)
    requires forall i :: 0 <= i < |BOOLEAN_FIELDS| ==> rules[1 + i] == Rule(BOOLEAN_FIELDS[i], BooleanTreat)
    ensures Reached(r, o, rules, 5)
  {
    r := t;
    for i := 0 to |BOOLEAN_FIELDS|
      invariant Reached(r, o, rules, 1 + i)
    {
      NextRule(r, o, rules, 1 + i);
      r := FixBoolean(r, BOOLEAN_FIELDS[i]);
    }
  }

  /** Sections 2 to 5. */
  method FixScalars(o: seq<Field>, tools: Tools, ghost rules: seq<Rule>) returns (t: Treated)
    requires |rules| >= 7 && rules[0] == Rule("version", VersionTreat)
    requires forall i :: 0 <= i < |BOOLEAN_FIELDS| ==> rules[1 + i] == Rule(BOOLEAN_FIELDS[i], BooleanTreat)
    requires rules[5] == Rule("configScope", EnumTreat(["global", "project"]))
    requires rules[6] == Rule("maxConcurrent", CountTreat(tools))
    ensures Reached(t, o, rules, 7)
  {
    t := Treated(o, []);
    NextRule(t, o, rules, 0);
    t := FixVersion(t);
    t := FixBooleans(t, o, rules);
    NextRule(t, o, rules, 5);
    t := FixEnum(t, "configScope", ["global", "project"]);
    NextRule(t, o, rules, 6);
    t := FixCount(t, tools, "maxConcurrent");
  }

  /** Section 6. */
  method CheckTexts(t: Treated, ghost o: seq<Field>, ghost rules: seq<Rule>) returns (r: Treated)
    requires |rules| >= 9 && rules[7] == Rule("provider", StringTreat) && rules[8] == Rule("model", StringTreat)
    requires Reached(t, o, rules, 7)
    ensures Reached(r, o, rules, 9)
  {
    NextRule(t, o, rules, 7);
    r := CheckText(t, "provider");
    NextRule(r, o, rules, 8);
    r := CheckText(r, "model");
  }

  /** Sections 7 to 9. */
  method FixBlocks(t: Treated, plugins: seq<Plugin>, tools: Tools, ghost o: seq<Field>, ghost rules: seq<Rule>) returns (r: Treated)
    requires |rules| == 12 && rules[9..] == LastRules(tools, plugins)[2..] && Reached(t, o, rules, 9)
    ensures r == ApplyRules(o, rules)
  {
    ghost var last := LastRules(tools, plugins);
    assert rules[9] == rules[9..][0] == last[2] && rules[10] == rules[9..][1] == last[3] && rules[11] == rules[9..][2] == last[4];
    NextRule(t, o, rules, 9);
    r := FixAutonomy(t, tools);
    NextRule(r, o, rules, 10);
    r := FixPlugins(r);
    NextRule(r, o, rules, 11);
    r := FixExtensions(r, plugins);
    AllRules(r, o, rules);
  }

  method FixFields(o: seq<Field>, plugins: seq<Plugin>, tools: Tools) returns (t: Treated)
    ensures t == ApplyRules(o, TopRules(tools, plugins))
  {
    ghost var rules := TopRules(tools, plugins);
    t := FixScalars(o, tools, rules);
    t := CheckTexts(t, o, rules);
    t := FixBlocks(t, plugins, tools, o, rules);
  }

  method DiagnoseConfig(cfg: seq<Field>, plugins: seq<Plugin>, tools: Tools) returns (report: Report)
    ensures report == Diagnose(cfg, plugins, tools)
  {
    var renamed := RenameUnknownKeys(cfg, tools.lower);
    var t := FixFields(renamed.fields, plugins, tools);
    var findings := renamed.findings + t.findings + Secrets(t.fields, [], tools.isSecret);
    report := Report(findings, t.fields, PrintedFields(t.fields) != PrintedFields(cfg));
  }
}
