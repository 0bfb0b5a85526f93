/** What the configuration doctor is after, said without it: which configurations need
    no repair, and that it repairs the others to such a one. */
module DoctorValidity {
  import opened Prelude
  import opened Json
  import opened ConfigRepair
  import opened ConfigDoctor
  import opened DoctorSections
  import opened DoctorTheorems

  // ----------------------------------------------- what needs no repair

  predicate NonNegative(v: Json) { v.Number? && !Negative(v.n) }

  predicate WholeCount(v: Json) { v.Number? && (v.n == PosInf || (v.n.Finite? && v.n.r >= 0.0 && v.n.r == v.n.r.Floor as real)) }

  /** If the field is there, it passes. */
  predicate Passes(o: seq<Field>, key: string, ok: Json -> bool) {
    Lookup(o, key).Some? ==> ok(Lookup(o, key).value)
  }

  predicate IsBool(v: Json) { v.Bool? }

  function OneOf(allowed: seq<string>): Json -> bool { (v: Json) => v.Str? && v.s in allowed }

  predicate ValidAutonomy(o: seq<Field>, tools: Tools) {
    && Passes(o, "defaultMode", OneOf(["off", "suggest", "auto"]))
    && Passes(o, "enhanceLanguage", OneOf(["original", "english"]))
    && Passes(o, "enhance", IsBool)
    && Passes(o, "autoProceedDelayMs", NonNegative)
    && Passes(o, "enhanceDelayMs", NonNegative)
    && Passes(o, "thinkingWord", (v: Json) => v == Str(tools.normalizeWord(v)))
  }

  predicate ValidEntry(v: Json) {
    v.Str? || (IsNamed(v) && Passes(v.fields, "enabled", IsBool) && Passes(v.fields, "options", (w: Json) => w.Obj?))
  }

  /** Every section is an object, and no plugin's schema objects to a property of its own. */
  predicate ValidSections(o: seq<Field>, plugins: seq<Plugin>) {
    AllObjects(o) && AllSectionsValid(o, plugins)
  }

  predicate ValidSection(o: seq<Field>, p: Plugin) {
    p.schema.Some? && Lookup(o, p.name).Some? && Lookup(o, p.name).value.Obj? ==>
      var section := Lookup(o, p.name).value.fields;
      forall e :: e in Errors(p.schema.value, section) ==> !Removable(section, e)
  }

  predicate IsOne(v: Json) { v == ONE }

  function AutonomyValid(tools: Tools): Json -> bool { (v: Json) => v.Obj? && ValidAutonomy(v.fields, tools) }

  predicate EntriesValid(v: Json) { v.Arr? && forall i :: 0 <= i < |v.items| ==> ValidEntry(v.items[i]) }

  function SectionsValid(plugins: seq<Plugin>): Json -> bool { (v: Json) => v.Obj? && ValidSections(v.fields, plugins) }

  /** What every checked field should be, if it is there at all. */
  predicate ValidFields(o: seq<Field>, plugins: seq<Plugin>, tools: Tools) {
    && FirstFieldsValid(o)
    && Passes(o, "autonomy", AutonomyValid(tools))
    && Passes(o, "plugins", EntriesValid)
    && Passes(o, "extensions", SectionsValid(plugins))
  }

  lemma VersionQuiet(v: Json)
    ensures Quiet(VersionTreat, v) <==> IsOne(v)
  {
    OneFix(Finding([], Error, Some(SetTo(ONE))));
  }

  lemma BooleanQuiet(v: Json)
    ensures Quiet(BooleanTreat, v) <==> IsBool(v)
  {
  }

  lemma CountQuiet(tools: Tools, v: Json)
    ensures Quiet(CountTreat(tools), v) <==> WholeCount(v)
  {
    if v.Number? && v.n.Finite? { assert v.n.r.Floor as real <= v.n.r; }
  }

  lemma DelayQuiet(tools: Tools, v: Json)
    ensures Quiet(DelayTreat(tools), v) <==> NonNegative(v)
  {
  }

  lemma WordQuiet(tools: Tools, v: Json)
    ensures Quiet(WordTreat(tools), v) <==> v == Str(tools.normalizeWord(v))
  {
    assert WordTreat(tools)(v) == if v == Str(tools.normalizeWord(v)) then Kept(v) else DROPPED;
  }

  lemma TextQuiet(v: Json)
    ensures Quiet(StringTreat, v)
  {
    OneFix(Finding([], Error, None));
  }

  lemma EnumQuiet(allowed: seq<string>, v: Json)
    ensures Quiet(EnumTreat(allowed), v) <==> OneOf(allowed)(v)
  {
  }

  function ValueAt(o: seq<Field>, key: string): Json { match Lookup(o, key) case Some(v) => v case None => Null }

  lemma AutonomyQuiet(o: seq<Field>, tools: Tools)
    ensures QuietOn(o, AutonomyRules(tools)) <==> ValidAutonomy(o, tools)
  {
    var rules := AutonomyRules(tools);
    QuietEach(o, rules);
    assert (forall i :: 0 <= i < |rules| ==> QuietAt(o, rules[i])) <==>
           QuietAt(o, rules[0]) && QuietAt(o, rules[1]) && QuietAt(o, rules[2]) &&
           QuietAt(o, rules[3]) && QuietAt(o, rules[4]) && QuietAt(o, rules[5]);
    EnumQuiet(["off", "suggest", "auto"], ValueAt(o, "defaultMode"));
    EnumQuiet(["original", "english"], ValueAt(o, "enhanceLanguage"));
    BooleanQuiet(ValueAt(o, "enhance"));
    DelayQuiet(tools, ValueAt(o, "autoProceedDelayMs"));
    DelayQuiet(tools, ValueAt(o, "enhanceDelayMs"));
    WordQuiet(tools, ValueAt(o, "thinkingWord"));
  }

  lemma EntryQuiet(v: Json, tools: Tools)
    ensures Quiet(EntryTreat, v) <==> ValidEntry(v)
  {
    OneFix(Finding([], Error, None));
    EntryRulesTrusted(tools);
    ObjectQuiet(ENTRY_RULES, v);
    if IsNamed(v) {
      QuietEach(v.fields, ENTRY_RULES);
      assert (forall i :: 0 <= i < |ENTRY_RULES| ==> QuietAt(v.fields, ENTRY_RULES[i])) <==>
             QuietAt(v.fields, ENTRY_RULES[0]) && QuietAt(v.fields, ENTRY_RULES[1]);
      BooleanQuiet(ValueAt(v.fields, "enabled"));
    }
  }

  lemma PluginsQuiet(v: Json, tools: Tools)
    ensures Quiet(ArrayTreat(EntryTreat), v) <==> v.Arr? && forall i :: 0 <= i < |v.items| ==> ValidEntry(v.items[i])
  {
    EntryTrusted(tools);
    ArrayQuiet(EntryTreat, v);
    if v.Arr? {
      forall i | 0 <= i < |v.items| ensures Quiet(EntryTreat, v.items[i]) <==> ValidEntry(v.items[i]) {
        EntryQuiet(v.items[i], tools);
      }
    }
  }

  lemma SectionQuiet(o: seq<Field>, p: Plugin)
    requires p.schema.Some?
    ensures QuietAt(o, Rule(p.name, SectionTreat(p.schema.value))) <==> ValidSection(o, p)
  {
    var v := ValueAt(o, p.name);
    if v.Obj? {
      PurgeIff(v.fields, Errors(p.schema.value, v.fields));
      PurgeShrinks(v.fields, Errors(p.schema.value, v.fields));
    }
  }

  predicate AllSectionsValid(o: seq<Field>, plugins: seq<Plugin>) {
    plugins == [] || (AllSectionsValid(o, plugins[..|plugins| - 1]) && ValidSection(o, plugins[|plugins| - 1]))
  }

  lemma SectionFix(t: Treated, p: Plugin)
    requires p.schema.Some?
    ensures !HasFix(ApplyRule(t, Rule(p.name, SectionTreat(p.schema.value))).findings) <==>
            !HasFix(t.findings) && ValidSection(t.fields, p)
  {
    var rule := Rule(p.name, SectionTreat(p.schema.value));
    RuleFindings(t, rule);
    SectionQuiet(t.fields, p);
    SectionShrinks(p.schema.value, ValueAt(t.fields, p.name));
  }

  lemma {:induction false} SectionsQuiet(o: seq<Field>, plugins: seq<Plugin>)
    ensures !HasFix(ApplyRules(o, PluginRules(plugins)).findings) <==> AllSectionsValid(o, plugins)
  {
    if plugins == [] {
    } else {
      var init, p := plugins[..|plugins| - 1], plugins[|plugins| - 1];
      SectionsQuiet(o, init);
      SectionsShrink(o, init);
      var rules := PluginRules(init);
      if p.schema.Some? {
        var rule := Rule(p.name, SectionTreat(p.schema.value));
        assert (rules + [rule])[..|rules|] == rules;
        SectionFix(ApplyRules(o, rules), p);
      } else {
        assert PluginRules(plugins) == rules;
      }
    }
  }

  lemma {:induction false} ScalarsIff(o: seq<Field>, entries: seq<Field>)
    ensures !HasFix(WithoutScalars(o, entries).findings) <==> AllObjects(entries)
  {
    if forall e :: e in entries ==> e.value.Obj? {
      AllObjectsFrom(entries);
      NoScalars(o, entries);
    } else {
      var e :| e in entries && !e.value.Obj?;
      if AllObjects(entries) { EachObject(entries, e); }
      ScalarReported(o, entries, e);
    }
  }

  lemma {:induction false} ScalarReported(o: seq<Field>, entries: seq<Field>, e: Field)
    requires e in entries && !e.value.Obj?
    ensures HasFix(WithoutScalars(o, entries).findings)
  {
    var init, last := entries[..|entries| - 1], entries[|entries| - 1];
    assert entries == init + [last];
    var t := WithoutScalars(o, init);
    HasFixAppend(t.findings, [Finding([Key(last.key)], Error, Some(Removed))]);
    OneFix(Finding([Key(last.key)], Error, Some(Removed)));
    if e !in init {
    } else {
      ScalarReported(o, init, e);
    }
  }

  lemma ExtensionsQuiet(v: Json, plugins: seq<Plugin>)
    ensures Quiet(ExtensionsTreat(plugins), v) <==> v.Obj? && ValidSections(v.fields, plugins)
  {
    if v.Obj? {
      var o := v.fields;
      var sections := WithoutScalars(o, o);
      ScalarsIff(o, o);
      forall e | e in o ensures HasKey(o, e.key) { HasOwnKey(o, e); }
      ScalarsGo(o, o);
      SectionsQuiet(sections.fields, plugins);
      SectionsShrink(sections.fields, plugins);
      HasFixAppend(sections.findings, ApplyRules(sections.fields, PluginRules(plugins)).findings);
    }
  }

  lemma QuietPasses(o: seq<Field>, rule: Rule, ok: Json -> bool)
    requires Quiet(rule.treat, ValueAt(o, rule.key)) <==> ok(ValueAt(o, rule.key))
    ensures QuietAt(o, rule) <==> Passes(o, rule.key, ok)
  {
  }

  predicate FirstFieldsValid(o: seq<Field>) {
    && Passes(o, "version", IsOne)
    && Passes(o, "hints", IsBool) && Passes(o, "debugStream", IsBool)
    && Passes(o, "yolo", IsBool) && Passes(o, "nextPrediction", IsBool)
    && Passes(o, "configScope", OneOf(["global", "project"]))
    && Passes(o, "maxConcurrent", WholeCount)
  }

  lemma EachFirstField(o: seq<Field>, tools: Tools)
    ensures QuietAt(o, Rule("version", VersionTreat)) <==> Passes(o, "version", IsOne)
    ensures QuietAt(o, Rule("hints", BooleanTreat)) <==> Passes(o, "hints", IsBool)
    ensures QuietAt(o, Rule("debugStream", BooleanTreat)) <==> Passes(o, "debugStream", IsBool)
    ensures QuietAt(o, Rule("yolo", BooleanTreat)) <==> Passes(o, "yolo", IsBool)
    ensures QuietAt(o, Rule("nextPrediction", BooleanTreat)) <==> Passes(o, "nextPrediction", IsBool)
    ensures QuietAt(o, Rule("configScope", EnumTreat(["global", "project"]))) <==> Passes(o, "configScope", OneOf(["global", "project"]))
    ensures QuietAt(o, Rule("maxConcurrent", CountTreat(tools))) <==> Passes(o, "maxConcurrent", WholeCount)
  {
    VersionQuiet(ValueAt(o, "version"));
    QuietPasses(o, Rule("version", VersionTreat), IsOne);
    BooleanQuiet(ValueAt(o, "hints"));
    BooleanQuiet(ValueAt(o, "debugStream"));
    BooleanQuiet(ValueAt(o, "yolo"));
    BooleanQuiet(ValueAt(o, "nextPrediction"));
    EnumQuiet(["global", "project"], ValueAt(o, "configScope"));
    QuietPasses(o, Rule("configScope", EnumTreat(["global", "project"])), OneOf(["global", "project"]));
    CountQuiet(tools, ValueAt(o, "maxConcurrent"));
    QuietPasses(o, Rule("maxConcurrent", CountTreat(tools)), WholeCount);
  }

  lemma FirstFieldsQuiet(o: seq<Field>, tools: Tools)
    ensures (forall i :: 0 <= i < |FirstRules(tools)| ==> QuietAt(o, FirstRules(tools)[i])) <==> FirstFieldsValid(o)
  {
    SevenOf(o, FirstRules(tools));
    EachFirstField(o, tools);
  }

  lemma SevenOf(o: seq<Field>, rules: seq<Rule>)
    requires |rules| == 7
    ensures (forall i :: 0 <= i < |rules| ==> QuietAt(o, rules[i])) <==>
            QuietAt(o, rules[0]) && QuietAt(o, rules[1]) && QuietAt(o, rules[2]) && QuietAt(o, rules[3]) &&
            QuietAt(o, rules[4]) && QuietAt(o, rules[5]) && QuietAt(o, rules[6])
  {
  }

  lemma LastFieldsQuiet(o: seq<Field>, plugins: seq<Plugin>, tools: Tools)
    ensures QuietAt(o, Rule("provider", StringTreat)) && QuietAt(o, Rule("model", StringTreat))
    ensures QuietAt(o, Rule("autonomy", ObjectTreat(AutonomyRules(tools)))) <==> Passes(o, "autonomy", AutonomyValid(tools))
    ensures QuietAt(o, Rule("plugins", ArrayTreat(EntryTreat))) <==> Passes(o, "plugins", EntriesValid)
    ensures QuietAt(o, Rule("extensions", ExtensionsTreat(plugins))) <==> Passes(o, "extensions", SectionsValid(plugins))
  {
    TextQuiet(ValueAt(o, "provider"));
    TextQuiet(ValueAt(o, "model"));
    var autonomy := ValueAt(o, "autonomy");
    AutonomyRulesTrusted(tools);
    ObjectQuiet(AutonomyRules(tools), autonomy);
    if autonomy.Obj? { AutonomyQuiet(autonomy.fields, tools); }
    QuietPasses(o, Rule("autonomy", ObjectTreat(AutonomyRules(tools))), AutonomyValid(tools));
    PluginsQuiet(ValueAt(o, "plugins"), tools);
    QuietPasses(o, Rule("plugins", ArrayTreat(EntryTreat)), EntriesValid);
    ExtensionsQuiet(ValueAt(o, "extensions"), plugins);
    QuietPasses(o, Rule("extensions", ExtensionsTreat(plugins)), SectionsValid(plugins));
  }

  lemma LastRulesQuiet(o: seq<Field>, plugins: seq<Plugin>, tools: Tools)
    ensures (forall i :: 0 <= i < |LastRules(tools, plugins)| ==> QuietAt(o, LastRules(tools, plugins)[i])) <==>
            Passes(o, "autonomy", AutonomyValid(tools)) && Passes(o, "plugins", EntriesValid) &&
            Passes(o, "extensions", SectionsValid(plugins))
  {
    var rules := LastRules(tools, plugins);
    LastFieldsQuiet(o, plugins, tools);
    assert (forall i :: 0 <= i < |rules| ==> QuietAt(o, rules[i])) <==>
           QuietAt(o, rules[0]) && QuietAt(o, rules[1]) && QuietAt(o, rules[2]) && QuietAt(o, rules[3]) && QuietAt(o, rules[4]);
  }

  lemma QuietAppend(o: seq<Field>, a: seq<Rule>, b: seq<Rule>)
    ensures QuietOn(o, a + b) <==>
            (forall i :: 0 <= i < |a| ==> QuietAt(o, a[i])) && (forall i :: 0 <= i < |b| ==> QuietAt(o, b[i]))
  {
    QuietEach(o, a + b);
    assert forall i :: 0 <= i < |a| ==> (a + b)[i] == a[i];
    assert forall i :: 0 <= i < |b| ==> b[i] == (a + b)[|a| + i];
  }

  lemma FieldsQuiet(o: seq<Field>, plugins: seq<Plugin>, tools: Tools)
    ensures QuietOn(o, TopRules(tools, plugins)) <==> ValidFields(o, plugins, tools)
  {
    QuietAppend(o, FirstRules(tools), LastRules(tools, plugins));
    FirstFieldsQuiet(o, tools);
    LastRulesQuiet(o, plugins, tools);
  }

  /** The doctor reports a fix exactly for configurations that need one: some key can be
      renamed, or some field is not what it should be. */
  lemma FixIffInvalid(cfg: seq<Field>, plugins: seq<Plugin>, tools: Tools)
    ensures !HasFix(Diagnose(cfg, plugins, tools).findings) <==>
            (forall k :: !Renames(cfg, k, tools.lower)) && ValidFields(cfg, plugins, tools)
  {
    FixesIn(cfg, plugins, tools);
    RenameIff(cfg, FieldKeys(cfg), tools.lower);
    forall k | Renames(cfg, k, tools.lower) ensures k in FieldKeys(cfg) { KeysHave(cfg, k); }
    TopRulesReport(tools, plugins);
    NoFixIffQuiet(cfg, TopRules(tools, plugins));
    FieldsQuiet(cfg, plugins, tools);
  }

  /** What is repaired is valid. */
  lemma RepairedIsValid(cfg: seq<Field>, plugins: seq<Plugin>, tools: Tools)
    requires PlainPlugins(plugins)
    ensures ValidFields(Diagnose(cfg, plugins, tools).fixed, plugins, tools)
  {
    var rules := TopRules(tools, plugins);
    var renamed := RenameAll(cfg, FieldKeys(cfg), tools.lower).fields;
    TopRulesDistinct(tools, plugins);
    TopRulesSettled(tools, plugins);
    RulesQuieten(renamed, rules);
    FieldsQuiet(ApplyRules(renamed, rules).fields, plugins, tools);
  }

  /** A number the doctor rewrites stays as near as the field allows: the next whole
      number below for a count, the nearest for a delay, and 0 for a negative one. */
  lemma NumbersStayNear(tools: Tools, v: Json, r: real)
    requires CoerceNumber(tools, v) == Some(Finite(r))
    ensures var count, delay := CountTreat(tools)(v).value, DelayTreat(tools)(v).value;
      && count.Some? && count.value.Number? && count.value.n.Finite?
      && (if r >= 0.0 then count.value.n.r <= r < count.value.n.r + 1.0 else count.value.n.r == 0.0)
      && delay.Some? && delay.value.Number? && delay.value.n.Finite?
      && (if r >= 0.0 then delay.value.n.r - 0.5 <= r <= delay.value.n.r + 0.5 else delay.value.n.r == 0.0)
  {
  }

  /** The doctor leaves every other field alone. */
  lemma OthersUntouched(cfg: seq<Field>, plugins: seq<Plugin>, tools: Tools, q: string)
    requires HasKey(cfg, q) && Known(q) && NoRuleFor(TopRules(tools, plugins), q)
    ensures Lookup(Diagnose(cfg, plugins, tools).fixed, q) == Lookup(cfg, q)
  {
    RulesFrame(RenameAll(cfg, FieldKeys(cfg), tools.lower).fields, TopRules(tools, plugins), q);
    RenamesKeep(cfg, FieldKeys(cfg), tools.lower, q);
  }

  lemma {:induction false} RenamesKeep(o: seq<Field>, keys: seq<string>, lower: string -> string, q: string)
    requires HasKey(o, q) && Known(q)
    ensures var t := RenameAll(o, keys, lower); HasKey(t.fields, q) && Lookup(t.fields, q) == Lookup(o, q)
  {
    if keys == [] {
    } else {
      var init, key := keys[..|keys| - 1], keys[|keys| - 1];
      RenamesKeep(o, init, lower, q);
      var t := RenameAll(o, init, lower);
      RenameTouches(t, key, lower, q);
      if Renames(t.fields, key, lower) {
        HasLookup(t.fields, key);
        var m, v := MatchFor(key, lower).value, Lookup(t.fields, key).value;
        AssignLookup(t.fields, m, v, q);
        OmitLookup(Assign(t.fields, m, v), key, q);
      }
    }
  }
}
