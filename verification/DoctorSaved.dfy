/** What becomes of a repair on disk (packages/cli/src/slash-commands/doctor.ts): where
    something changed the file holds the repaired configuration as it is printed, and the
    next diagnosis reads that. */
module DoctorSaved {
  import opened Prelude
  import opened Json
  import opened ConfigRepair
  import opened ConfigDoctor
  import opened DoctorSections
  import opened DoctorTheorems
  import opened DoctorValidity

  /** The field reads as infinity: as a number or as text. */
  predicate ReadsInfinite(o: seq<Field>, key: string, tools: Tools) {
    Lookup(o, key).Some? && CoerceNumber(tools, Lookup(o, key).value) == Some(PosInf)
  }

  predicate DelayInfinite(v: Json, tools: Tools) {
    v.Obj? && (ReadsInfinite(v.fields, "autoProceedDelayMs", tools) || ReadsInfinite(v.fields, "enhanceDelayMs", tools))
  }

  /** One of the three numbers the doctor lets be infinite reads as infinity. */
  predicate AnyInfinite(o: seq<Field>, tools: Tools) {
    ReadsInfinite(o, "maxConcurrent", tools) || DelayInfinite(ValueAt(o, "autonomy"), tools)
  }

  /** Read as they are printed, the plugins' sections are still what they should be. */
  predicate SectionsSurvive(o: seq<Field>, plugins: seq<Plugin>) {
    Passes(PrintedFields(o), "extensions", SectionsValid(plugins))
  }

  // ------------------------------------------------- fields, once printed

  lemma PrintedKeys(o: seq<Field>, q: string)
    ensures HasKey(PrintedFields(o), q) <==> HasKey(o, q)
  {
    PrintedLookup(o, q);
    HasLookup(o, q);
    HasLookup(PrintedFields(o), q);
  }

  /** A check that printing cannot change. */
  lemma PassesPrinted(o: seq<Field>, key: string, ok: Json -> bool)
    requires forall v :: ok(v) ==> ok(Printed(v))
    ensures Passes(o, key, ok) ==> Passes(PrintedFields(o), key, ok)
  {
    PrintedLookup(o, key);
  }

  /** A number that passes stays as it is unless it is infinite, and then is null. */
  lemma NumberPrinted(o: seq<Field>, key: string, ok: Json -> bool, tools: Tools)
    requires Passes(o, key, ok) && forall v :: ok(v) ==> v.Number? && v.n != NegInf
    ensures Passes(PrintedFields(o), key, ok) <==> !ReadsInfinite(o, key, tools)
  {
    PrintedLookup(o, key);
  }

  lemma FirstFieldsPrinted(o: seq<Field>, tools: Tools)
    requires FirstFieldsValid(o)
    ensures FirstFieldsValid(PrintedFields(o)) <==> !ReadsInfinite(o, "maxConcurrent", tools)
  {
    PassesPrinted(o, "version", IsOne);
    PassesPrinted(o, "hints", IsBool);
    PassesPrinted(o, "debugStream", IsBool);
    PassesPrinted(o, "yolo", IsBool);
    PassesPrinted(o, "nextPrediction", IsBool);
    PassesPrinted(o, "configScope", OneOf(["global", "project"]));
    NumberPrinted(o, "maxConcurrent", WholeCount, tools);
  }

  function IsWord(tools: Tools): Json -> bool { (v: Json) => v == Str(tools.normalizeWord(v)) }

  lemma AutonomyFieldsPrinted(o: seq<Field>, tools: Tools)
    requires ValidAutonomy(o, tools)
    ensures ValidAutonomy(PrintedFields(o), tools) <==>
            !ReadsInfinite(o, "autoProceedDelayMs", tools) && !ReadsInfinite(o, "enhanceDelayMs", tools)
  {
    PassesPrinted(o, "defaultMode", OneOf(["off", "suggest", "auto"]));
    PassesPrinted(o, "enhanceLanguage", OneOf(["original", "english"]));
    PassesPrinted(o, "enhance", IsBool);
    NumberPrinted(o, "autoProceedDelayMs", NonNegative, tools);
    NumberPrinted(o, "enhanceDelayMs", NonNegative, tools);
    assert Passes(o, "thinkingWord", IsWord(tools));
    PassesPrinted(o, "thinkingWord", IsWord(tools));
  }

  lemma AutonomyPrinted(o: seq<Field>, tools: Tools)
    requires Passes(o, "autonomy", AutonomyValid(tools))
    ensures Passes(PrintedFields(o), "autonomy", AutonomyValid(tools)) <==> !DelayInfinite(ValueAt(o, "autonomy"), tools)
  {
    PrintedLookup(o, "autonomy");
    var v := ValueAt(o, "autonomy");
    if v.Obj? && ValidAutonomy(v.fields, tools) { AutonomyFieldsPrinted(v.fields, tools); }
  }

  predicate IsObj(v: Json) { v.Obj? }

  lemma EntryPrinted(v: Json)
    requires ValidEntry(v)
    ensures ValidEntry(Printed(v))
  {
    if v.Obj? {
      PrintedLookup(v.fields, "name");
      PassesPrinted(v.fields, "enabled", IsBool);
      assert Passes(v.fields, "options", IsObj);
      PassesPrinted(v.fields, "options", IsObj);
    }
  }

  lemma {:induction false} PrintedItemsAt(items: seq<Json>, i: nat)
    requires i < |items|
    ensures |PrintedItems(items)| == |items| && PrintedItems(items)[i] == Printed(items[i])
  {
    PrintedItemsLength(items);
    PrintedItemsLength(items[..|items| - 1]);
    if i == |items| - 1 {
    } else {
      PrintedItemsAt(items[..|items| - 1], i);
    }
  }

  lemma EntriesPrinted(v: Json)
    requires EntriesValid(v)
    ensures EntriesValid(Printed(v))
  {
    PrintedItemsLength(v.items);
    forall i | 0 <= i < |v.items| ensures ValidEntry(PrintedItems(v.items)[i]) {
      PrintedItemsAt(v.items, i);
      EntryPrinted(v.items[i]);
    }
  }

  lemma EntriesPassPrinted(o: seq<Field>)
    requires Passes(o, "plugins", EntriesValid)
    ensures Passes(PrintedFields(o), "plugins", EntriesValid)
  {
    PrintedLookup(o, "plugins");
    if Lookup(o, "plugins").Some? { EntriesPrinted(Lookup(o, "plugins").value); }
  }

  /** A valid configuration is valid as it is printed exactly when none of the three
      numbers is infinite and the plugins' sections survive. */
  lemma FieldsPrinted(o: seq<Field>, plugins: seq<Plugin>, tools: Tools)
    requires ValidFields(o, plugins, tools)
    ensures ValidFields(PrintedFields(o), plugins, tools) <==> !AnyInfinite(o, tools) && SectionsSurvive(o, plugins)
  {
    FirstFieldsPrinted(o, tools);
    AutonomyPrinted(o, tools);
    EntriesPassPrinted(o);
  }

  // --------------------------------------------- infinity, before and after

  lemma CountKeepsInfinity(v: Json, tools: Tools)
    ensures var w := CountTreat(tools)(v).value;
      w.Some? && CoerceNumber(tools, w.value) == Some(PosInf) <==> CoerceNumber(tools, v) == Some(PosInf)
  {
  }

  lemma DelayKeepsInfinity(v: Json, tools: Tools)
    ensures var w := DelayTreat(tools)(v).value;
      w.Some? && CoerceNumber(tools, w.value) == Some(PosInf) <==> CoerceNumber(tools, v) == Some(PosInf)
  {
  }

  lemma AutonomyKeepsInfinity(o: seq<Field>, tools: Tools)
    ensures DelayInfinite(Obj(ApplyRules(o, AutonomyRules(tools)).fields), tools) <==> DelayInfinite(Obj(o), tools)
  {
    var rules := AutonomyRules(tools);
    AutonomyRulesTrusted(tools);
    assert rules[3] == Rule("autoProceedDelayMs", DelayTreat(tools)) && rules[4] == Rule("enhanceDelayMs", DelayTreat(tools));
    RulesGive(o, rules, 3);
    RulesGive(o, rules, 4);
    DelayKeepsInfinity(ValueAt(o, "autoProceedDelayMs"), tools);
    DelayKeepsInfinity(ValueAt(o, "enhanceDelayMs"), tools);
  }

  lemma NumberRules(tools: Tools, plugins: seq<Plugin>)
    ensures var rules := TopRules(tools, plugins);
      rules[6] == Rule("maxConcurrent", CountTreat(tools)) && rules[9] == Rule("autonomy", ObjectTreat(AutonomyRules(tools)))
  {
  }

  /** The repairs neither bring infinity in nor take it out. */
  lemma RulesKeepInfinity(o: seq<Field>, plugins: seq<Plugin>, tools: Tools)
    ensures AnyInfinite(ApplyRules(o, TopRules(tools, plugins)).fields, tools) <==> AnyInfinite(o, tools)
  {
    var rules := TopRules(tools, plugins);
    TopRulesDistinct(tools, plugins);
    NumberRules(tools, plugins);
    RulesGive(o, rules, 6);
    RulesGive(o, rules, 9);
    CountKeepsInfinity(ValueAt(o, "maxConcurrent"), tools);
    var autonomy := ValueAt(o, "autonomy");
    if autonomy.Obj? { AutonomyKeepsInfinity(autonomy.fields, tools); }
  }

  // --------------------------------------------- sections, before and after

  /** What the plugins' pass leaves of a section. */
  function PurgedBy(section: seq<Field>, name: string, plugins: seq<Plugin>): seq<Field> {
    if plugins == [] then section
    else
      var s, p := PurgedBy(section, name, plugins[..|plugins| - 1]), plugins[|plugins| - 1];
      if p.name == name && p.schema.Some? then Purge(s, Errors(p.schema.value, s)).fields else s
  }

  /** The sections that are objects. */
  function SectionsOf(v: Json): seq<Field> { if v.Obj? then WithoutScalars(v.fields, v.fields).fields else [] }

  /** The plugin's section, if it has one, needs no more purging when what the plugins'
      purges leave of it is read as it is printed. */
  predicate SectionStays(sections: seq<Field>, plugins: seq<Plugin>, p: Plugin) {
    p.schema.Some? && Lookup(sections, p.name).Some? && Lookup(sections, p.name).value.Obj? ==>
      NoneRemovable(p.schema.value, PrintedFields(PurgedBy(Lookup(sections, p.name).value.fields, p.name, plugins)))
  }

  predicate SectionsStay(sections: seq<Field>, plugins: seq<Plugin>) {
    forall i :: 0 <= i < |plugins| ==> SectionStays(sections, plugins, plugins[i])
  }

  lemma {:induction false} SectionAfter(sections: seq<Field>, name: string, plugins: seq<Plugin>)
    ensures Lookup(ApplyRules(sections, PluginRules(plugins)).fields, name) ==
            match Lookup(sections, name)
            case None => None
            case Some(v) => Some(if v.Obj? then Obj(PurgedBy(v.fields, name, plugins)) else v)
  {
    if plugins == [] {
    } else {
      var init, p := plugins[..|plugins| - 1], plugins[|plugins| - 1];
      SectionAfter(sections, name, init);
      var rules := PluginRules(init);
      if p.schema.Some? {
        var rule := Rule(p.name, SectionTreat(p.schema.value));
        assert (rules + [rule])[..|rules|] == rules;
        RuleTouches(ApplyRules(sections, rules), rule, name);
      } else {
        assert PluginRules(plugins) == rules;
      }
    }
  }

  lemma {:induction false} EachIsValid(o: seq<Field>, plugins: seq<Plugin>, p: Plugin)
    requires AllSectionsValid(o, plugins) && p in plugins
    ensures ValidSection(o, p)
  {
    var init, last := plugins[..|plugins| - 1], plugins[|plugins| - 1];
    if p == last {
    } else {
      assert plugins == init + [last];
      EachIsValid(o, init, p);
    }
  }

  lemma {:induction false} AllAreValid(o: seq<Field>, sections: seq<Field>, all: seq<Plugin>, plugins: seq<Plugin>)
    requires o == PrintedFields(ApplyRules(sections, PluginRules(all)).fields)
    requires forall p :: p in plugins ==> SectionStays(sections, all, p)
    ensures AllSectionsValid(o, plugins)
  {
    if plugins == [] {
    } else {
      var init, last := plugins[..|plugins| - 1], plugins[|plugins| - 1];
      assert plugins == init + [last];
      AllAreValid(o, sections, all, init);
      SectionStaysIff(sections, all, last);
    }
  }

  lemma SectionStaysIff(sections: seq<Field>, plugins: seq<Plugin>, p: Plugin)
    ensures ValidSection(PrintedFields(ApplyRules(sections, PluginRules(plugins)).fields), p) <==>
            SectionStays(sections, plugins, p)
  {
    SectionAfter(sections, p.name, plugins);
    PrintedLookup(ApplyRules(sections, PluginRules(plugins)).fields, p.name);
  }

  /** What the plugins' pass writes is valid as it is printed exactly when every section
      stays. */
  lemma TreatedSectionsStay(o: seq<Field>, plugins: seq<Plugin>)
    ensures var sections := SectionsOf(Obj(o)); var after := ApplyRules(sections, PluginRules(plugins)).fields;
      SectionsValid(plugins)(Obj(PrintedFields(after))) <==> SectionsStay(sections, plugins)
  {
    var sections := SectionsOf(Obj(o));
    var after := ApplyRules(sections, PluginRules(plugins)).fields;
    forall f | f in sections ensures f.value.Obj? { ObjectsStay(o, o, f); }
    AllObjectsFrom(sections);
    SectionsShrink(sections, plugins);
    ObjectsPrinted(after);
    if AllSectionsValid(PrintedFields(after), plugins) {
      forall i | 0 <= i < |plugins| ensures SectionStays(sections, plugins, plugins[i]) {
        EachIsValid(PrintedFields(after), plugins, plugins[i]);
        SectionStaysIff(sections, plugins, plugins[i]);
      }
    }
    if SectionsStay(sections, plugins) { AllAreValid(PrintedFields(after), sections, plugins, plugins); }
  }

  lemma ExtensionsAtEleven(tools: Tools, plugins: seq<Plugin>)
    ensures TopRules(tools, plugins)[11] == Rule("extensions", ExtensionsTreat(plugins))
  {
  }

  lemma ExtensionsGiven(o: seq<Field>, plugins: seq<Plugin>, tools: Tools)
    ensures Lookup(ApplyRules(o, TopRules(tools, plugins)).fields, "extensions") ==
            match Lookup(o, "extensions") case None => None case Some(v) => ExtensionsTreat(plugins)(v).value
  {
    TopRulesDistinct(tools, plugins);
    ExtensionsAtEleven(tools, plugins);
    RulesGive(o, TopRules(tools, plugins), 11);
  }

  lemma TreatedExtensions(o: seq<Field>, plugins: seq<Plugin>, tools: Tools)
    ensures Lookup(PrintedFields(ApplyRules(o, TopRules(tools, plugins)).fields), "extensions") ==
            match Lookup(o, "extensions")
            case None => None
            case Some(v) =>
              if v.Obj? then Some(Obj(PrintedFields(ApplyRules(SectionsOf(v), PluginRules(plugins)).fields))) else None
  {
    ExtensionsGiven(o, plugins, tools);
    PrintedLookup(ApplyRules(o, TopRules(tools, plugins)).fields, "extensions");
  }

  lemma NoSectionsStay(plugins: seq<Plugin>)
    ensures SectionsStay([], plugins)
  {
  }

  lemma SurviveIffStay(o: seq<Field>, plugins: seq<Plugin>, tools: Tools)
    ensures SectionsSurvive(ApplyRules(o, TopRules(tools, plugins)).fields, plugins) <==>
            SectionsStay(SectionsOf(ValueAt(o, "extensions")), plugins)
  {
    TreatedExtensions(o, plugins, tools);
    var v := ValueAt(o, "extensions");
    if v.Obj? {
      TreatedSectionsStay(v.fields, plugins);
    } else {
      NoSectionsStay(plugins);
    }
  }

  // ------------------------------------------------------------ the theorems

  /** The configuration as the field checks find it: misspelled keys renamed. */
  function Renamed(cfg: seq<Field>, tools: Tools): seq<Field> { RenameAll(cfg, FieldKeys(cfg), tools.lower).fields }

  /** What the command leaves in the file: the repair as it is printed, if it is asked to
      apply fixes and something changed. */
  function OnDisk(cfg: seq<Field>, plugins: seq<Plugin>, tools: Tools, apply: bool): seq<Field> {
    var report := Diagnose(cfg, plugins, tools);
    if report.findings == [] then cfg
    else if apply && report.changed then PrintedFields(report.fixed)
    else cfg
  }

  lemma SameRenames(o: seq<Field>, k: string, lower: string -> string)
    ensures Renames(PrintedFields(o), k, lower) <==> Renames(o, k, lower)
  {
    PrintedKeys(o, k);
    if MatchFor(k, lower).Some? { PrintedKeys(o, MatchFor(k, lower).value); }
  }

  /** Nothing of the configuration is lost on printing its repair: with its keys renamed,
      neither maxConcurrent nor a delay reads as infinity, and every section stays. */
  predicate RepairPrints(cfg: seq<Field>, plugins: seq<Plugin>, tools: Tools) {
    && !AnyInfinite(Renamed(cfg, tools), tools)
    && SectionsStay(SectionsOf(ValueAt(Renamed(cfg, tools), "extensions")), plugins)
  }

  lemma PrintedRepairSettles(cfg: seq<Field>, plugins: seq<Plugin>, tools: Tools)
    requires DistinctFolded(cfg, tools.lower) && PlainPlugins(plugins)
    ensures !HasFix(Diagnose(PrintedFields(Diagnose(cfg, plugins, tools).fixed), plugins, tools).findings) <==>
            RepairPrints(cfg, plugins, tools)
  {
    var once := Diagnose(cfg, plugins, tools).fixed;
    DoctorSettles(cfg, plugins, tools);
    FixIffInvalid(once, plugins, tools);
    FixIffInvalid(PrintedFields(once), plugins, tools);
    forall k ensures !Renames(PrintedFields(once), k, tools.lower) { SameRenames(once, k, tools.lower); }
    FieldsPrinted(once, plugins, tools);
    RulesKeepInfinity(Renamed(cfg, tools), plugins, tools);
    SurviveIffStay(Renamed(cfg, tools), plugins, tools);
  }

  /** After the command the file needs no fix exactly when it needed none before, or fixes
      are applied and the repair prints. */
  lemma SavedRepairSettles(cfg: seq<Field>, plugins: seq<Plugin>, tools: Tools, apply: bool)
    requires DistinctFolded(cfg, tools.lower) && PlainPlugins(plugins)
    ensures !HasFix(Diagnose(OnDisk(cfg, plugins, tools, apply), plugins, tools).findings) <==>
            !HasFix(Diagnose(cfg, plugins, tools).findings) || (apply && RepairPrints(cfg, plugins, tools))
  {
    PlainAreOrdinary(plugins);
    ChangedIffFixed(cfg, plugins, tools);
    PrintedRepairSettles(cfg, plugins, tools);
  }

  /** Sections that hold no infinity stay, and so does everything without schemas. */
  lemma SectionsThatStay(cfg: seq<Field>, plugins: seq<Plugin>, tools: Tools)
    requires PlainPlugins(plugins)
    ensures var once := Diagnose(cfg, plugins, tools).fixed;
      var stay := SectionsStay(SectionsOf(ValueAt(Renamed(cfg, tools), "extensions")), plugins);
      && (Printed(ValueAt(once, "extensions")) == ValueAt(once, "extensions") ==> stay)
      && ((forall i :: 0 <= i < |plugins| ==> plugins[i].schema == None) ==> stay)
  {
    var once := Diagnose(cfg, plugins, tools).fixed;
    RepairedIsValid(cfg, plugins, tools);
    PrintedLookup(once, "extensions");
    SurviveIffStay(Renamed(cfg, tools), plugins, tools);
  }

  lemma {:induction false} ObjectsPrinted(o: seq<Field>)
    requires AllObjects(o)
    ensures AllObjects(PrintedFields(o))
  {
    if o == [] {
    } else {
      ObjectsPrinted(o[1..]);
      assert PrintedFields(o)[1..] == PrintedFields(o[1..]);
    }
  }

  // ------------------------------------------------------------ instances

  lemma KnownNumbers()
    ensures Known("version") && Known("maxConcurrent")
  {
    assert KNOWN_TOP_LEVEL_KEYS[0] == "version" && KNOWN_TOP_LEVEL_KEYS[5] == "maxConcurrent";
    ListedAt(KNOWN_TOP_LEVEL_KEYS, 0);
    ListedAt(KNOWN_TOP_LEVEL_KEYS, 5);
  }

  lemma KnownAreNotRenamed(cfg: seq<Field>, tools: Tools)
    requires forall k :: HasKey(cfg, k) ==> Known(k)
    ensures Renamed(cfg, tools) == cfg && forall k :: !Renames(cfg, k, tools.lower)
  {
    RenameIff(cfg, FieldKeys(cfg), tools.lower);
  }

  lemma NeedsFix(cfg: seq<Field>, plugins: seq<Plugin>, tools: Tools)
    requires !FirstFieldsValid(cfg)
    ensures HasFix(Diagnose(cfg, plugins, tools).findings)
  {
    FixIffInvalid(cfg, plugins, tools);
  }

  lemma InfiniteIsNotSaved(cfg: seq<Field>, plugins: seq<Plugin>, tools: Tools)
    requires DistinctFolded(cfg, tools.lower) && PlainPlugins(plugins) && forall k :: HasKey(cfg, k) ==> Known(k)
    requires ReadsInfinite(cfg, "maxConcurrent", tools) && !FirstFieldsValid(cfg)
    ensures HasFix(Diagnose(OnDisk(cfg, plugins, tools, true), plugins, tools).findings)
  {
    KnownAreNotRenamed(cfg, tools);
    NeedsFix(cfg, plugins, tools);
    SavedRepairSettles(cfg, plugins, tools, true);
  }

  lemma Untrimmed(s: string)
    requires s != "" && !IsBlank(s[0]) && !IsBlank(s[|s| - 1])
    ensures Trim(s) == s
  {
  }

  lemma InfinityReads(tools: Tools)
    requires tools.toNumber("Infinity") == Some(PosInf)
    ensures CoerceNumber(tools, Str("Infinity")) == Some(PosInf)
  {
    Untrimmed("Infinity");
  }

  lemma OneCount(v: Json, tools: Tools)
    ensures var cfg := [Field("maxConcurrent", v)];
      && DistinctFolded(cfg, tools.lower) && (forall k :: HasKey(cfg, k) ==> Known(k))
      && Lookup(cfg, "maxConcurrent") == Some(v)
  {
    var f := Field("maxConcurrent", v);
    KnownNumbers();
    forall k | HasKey([f], k) ensures Known(k) { HasOne(f, k); }
    OneKeyDistinct(f, tools.lower);
  }

  /** The smallest configuration whose repair does not survive saving:
      `{"maxConcurrent": "Infinity"}`. */
  lemma InfinityIsNotSaved(plugins: seq<Plugin>, tools: Tools)
    requires PlainPlugins(plugins) && tools.toNumber("Infinity") == Some(PosInf)
    ensures var cfg := [Field("maxConcurrent", Str("Infinity"))];
      HasFix(Diagnose(OnDisk(cfg, plugins, tools, true), plugins, tools).findings)
  {
    OneCount(Str("Infinity"), tools);
    InfinityReads(tools);
    InfiniteIsNotSaved([Field("maxConcurrent", Str("Infinity"))], plugins, tools);
  }

  function OverRange(rest: seq<Field>): seq<Field> { [Field("maxConcurrent", Number(PosInf))] + rest }

  lemma TwoKnown(a: Field, b: Field)
    requires Known(a.key) && Known(b.key)
    ensures forall k :: HasKey([a, b], k) ==> Known(k)
  {
    forall k | HasKey([a, b], k) ensures Known(k) { HasTwo(a, b, k); }
  }

  lemma CountAndVersion(v: Json, w: Json, tools: Tools)
    requires tools.lower("version") != tools.lower("maxConcurrent")
    ensures var cfg := [Field("maxConcurrent", v), Field("version", w)];
      && DistinctFolded(cfg, tools.lower) && (forall k :: HasKey(cfg, k) ==> Known(k))
      && Lookup(cfg, "maxConcurrent") == Some(v) && Lookup(cfg, "version") == Some(w)
  {
    var a, b := Field("maxConcurrent", v), Field("version", w);
    KnownNumbers();
    TwoKnown(a, b);
    TwoKeysDistinct(a, b, tools.lower);
    assert |a.key| == 13 && |b.key| == 7;
    HasTwo(a, b, "version");
    HasTwo(a, b, "maxConcurrent");
  }

  /** Next to something else to fix the number 1e999 is lost: `{"maxConcurrent": 1e999,
      "version": 2}` has its version repaired and the number written as null. */
  lemma OverRangeIsLostOnSaving(plugins: seq<Plugin>, tools: Tools)
    requires PlainPlugins(plugins) && tools.lower("version") != tools.lower("maxConcurrent")
    ensures var cfg := OverRange([Field("version", Number(Finite(2.0)))]);
      HasFix(Diagnose(OnDisk(cfg, plugins, tools, true), plugins, tools).findings)
  {
    var cfg := [Field("maxConcurrent", Number(PosInf)), Field("version", Number(Finite(2.0)))];
    assert OverRange([cfg[1]]) == cfg;
    CountAndVersion(cfg[0].value, cfg[1].value, tools);
    InfiniteIsNotSaved(cfg, plugins, tools);
  }

  /** Alone it is not reported, nothing is written, and the file keeps it. */
  lemma OverRangeAloneIsKept(plugins: seq<Plugin>, tools: Tools, apply: bool)
    ensures var cfg := OverRange([]);
      && !HasFix(Diagnose(cfg, plugins, tools).findings)
      && OnDisk(cfg, plugins, tools, apply) == cfg
  {
    var cfg, f := OverRange([]), Field("maxConcurrent", Number(PosInf));
    assert cfg == [f];
    KnownNumbers();
    forall k ensures HasKey(cfg, k) <==> k == f.key { HasOne(f, k); }
    KnownAreNotRenamed(cfg, tools);
    forall q ensures Lookup(cfg, q) == if q == "maxConcurrent" then Some(f.value) else None {
      HasOne(f, q);
      HasLookup(cfg, q);
    }
    OnlyCount(cfg, plugins, tools);
    FixIffInvalid(cfg, plugins, tools);
    UnfixedIsUnchanged(cfg, plugins, tools);
  }

  lemma OnlyCount(cfg: seq<Field>, plugins: seq<Plugin>, tools: Tools)
    requires forall q :: Lookup(cfg, q) == if q == "maxConcurrent" then Some(Number(PosInf)) else None
    ensures ValidFields(cfg, plugins, tools)
  {
    assert |"maxConcurrent"| == 13 && |"version"| == 7 && |"hints"| == 5 && |"debugStream"| == 11 && |"yolo"| == 4;
    assert |"nextPrediction"| == 14 && |"configScope"| == 11 && |"autonomy"| == 8 && |"plugins"| == 7 && |"extensions"| == 10;
  }
}
