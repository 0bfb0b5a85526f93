/** Where the configuration doctor needs a second pass: which plugin schemas its fixpoint
    depends on, and for each kind outside a configuration that does not settle. */
module DoctorLimits {
  import opened Prelude
  import opened Json
  import opened ConfigRepair
  import opened ConfigDoctor
  import opened DoctorSections
  import opened DoctorTheorems
  import opened DoctorValidity

  /** Diagnosing the repaired configuration finds nothing to fix. */
  predicate Settles(cfg: seq<Field>, plugins: seq<Plugin>, tools: Tools) {
    !HasFix(Diagnose(Diagnose(cfg, plugins, tools).fixed, plugins, tools).findings)
  }

  lemma ExtensionsKnown()
    ensures Known("extensions")
  {
    ListedAt(KNOWN_TOP_LEVEL_KEYS, 33);
  }

  function Extending(v: Json): seq<Field> { [Field("extensions", v)] }

  lemma ExtensionsRule(tools: Tools, plugins: seq<Plugin>)
    ensures TopRules(tools, plugins)[11] == Rule("extensions", ExtensionsTreat(plugins))
  {
  }

  lemma ExtensionsTreated(v: Json, plugins: seq<Plugin>, tools: Tools)
    ensures Lookup(Diagnose(Extending(v), plugins, tools).fixed, "extensions") == ExtensionsTreat(plugins)(v).value
  {
    var cfg := Extending(v);
    ExtensionsKnown();
    forall k | k in FieldKeys(cfg) ensures !Renames(cfg, k, tools.lower) { HasOne(Field("extensions", v), k); }
    RenameIff(cfg, FieldKeys(cfg), tools.lower);
    HasOne(Field("extensions", v), "extensions");
    TopRulesDistinct(tools, plugins);
    ExtensionsRule(tools, plugins);
    RulesGive(cfg, TopRules(tools, plugins), 11);
  }

  /** Sections that the plugins' pass leaves invalid keep the doctor from settling. */
  lemma UnsettledSections(v: Json, plugins: seq<Plugin>, tools: Tools)
    requires ExtensionsTreat(plugins)(v).value.Some? && !SectionsValid(plugins)(ExtensionsTreat(plugins)(v).value.value)
    ensures !Settles(Extending(v), plugins, tools)
  {
    ExtensionsTreated(v, plugins, tools);
    FixIffInvalid(Diagnose(Extending(v), plugins, tools).fixed, plugins, tools);
  }

  /** One section, under one name. */
  function OneSection(name: string, section: seq<Field>): Json { Obj([Field(name, Obj(section))]) }

  lemma OneSectionScalars(name: string, section: seq<Field>)
    ensures var o := [Field(name, Obj(section))]; WithoutScalars(o, o) == Treated(o, [])
  {
    var o := [Field(name, Obj(section))];
    NoScalars(o, o);
  }

  /** One plugin's pass over its section. */
  lemma OnePass(o: seq<Field>, name: string, section: seq<Field>, schema: Schema)
    requires o == [Field(name, Obj(section))]
    ensures ApplyRule(Treated(o, []), Rule(name, SectionTreat(schema))).fields ==
            [Field(name, Obj(Purge(section, Errors(schema, section)).fields))]
  {
    assert Lookup(o, name) == Some(Obj(section)) && o[1..] == [];
  }

  lemma SameFields(t: Treated, fs: seq<Finding>, rule: Rule)
    ensures ApplyRule(t, rule).fields == ApplyRule(Treated(t.fields, fs), rule).fields
  {
  }

  lemma OnePlugin(name: string, section: seq<Field>, schema: Schema)
    ensures ExtensionsTreat([Plugin(name, Some(schema))])(OneSection(name, section)).value ==
            Some(OneSection(name, Purge(section, Errors(schema, section)).fields))
  {
    var plugins, o := [Plugin(name, Some(schema))], [Field(name, Obj(section))];
    var rule := Rule(name, SectionTreat(schema));
    OneSectionScalars(name, section);
    assert plugins[..0] == [] && PluginRules(plugins) == [] + [rule];
    assert [rule][..0] == [];
    assert ApplyRules(o, [rule]) == ApplyRule(Treated(o, []), rule);
    OnePass(o, name, section, schema);
  }

  lemma OneInvalid(name: string, section: seq<Field>, schema: Schema)
    requires !NoneRemovable(schema, section)
    ensures !SectionsValid([Plugin(name, Some(schema))])(OneSection(name, section))
  {
    var plugins, o := [Plugin(name, Some(schema))], [Field(name, Obj(section))];
    assert Lookup(o, name) == Some(Obj(section));
    assert !ValidSection(o, plugins[0]);
  }

  function OnePluginOf(name: string, required: seq<string>, properties: seq<Property>): seq<Plugin> {
    [Plugin(name, Some(Requiring(required, properties)))]
  }

  /** The doctor reaches its fixpoint whatever else a plugin's schema says of properties
      with ordinary names, on every configuration with distinct keys, exactly when the
      required names are safe. */
  lemma SettlesExactlyForSafeNames(name: string, required: seq<string>, tools: Tools)
    requires name != PROTO
    ensures SafeNames(required) <==>
            forall properties: seq<Property>, cfg :: OrdinaryProperties(properties) && DistinctFolded(cfg, tools.lower) ==>
              Settles(cfg, OnePluginOf(name, required, properties), tools)
  {
    if SafeNames(required) {
      forall properties: seq<Property>, cfg | OrdinaryProperties(properties) && DistinctFolded(cfg, tools.lower)
        ensures Settles(cfg, OnePluginOf(name, required, properties), tools)
      {
        DoctorSettles(cfg, OnePluginOf(name, required, properties), tools);
      }
    } else {
      var i :| 0 <= i < |required| && !SafeName(required[i]);
      DefeatingOrdinary(required[i]);
      UnsafeNameUnsettles(name, required, required[i], tools);
    }
  }

  lemma UnsafeNameUnsettles(name: string, required: seq<string>, unsafe: string, tools: Tools)
    requires unsafe in required && !SafeName(unsafe)
    ensures var cfg := Extending(OneSection(name, DefeatingSection(required, unsafe)));
      && DistinctFolded(cfg, tools.lower)
      && !Settles(cfg, OnePluginOf(name, required, DefeatingProperties(unsafe)), tools)
  {
    var section, schema := DefeatingSection(required, unsafe), Requiring(required, DefeatingProperties(unsafe));
    UnsafeNameDoesNotSettle(required, unsafe);
    OnePlugin(name, section, schema);
    OneInvalid(name, Purge(section, Errors(schema, section)).fields, schema);
    UnsettledSections(OneSection(name, section), [Plugin(name, Some(schema))], tools);
    OneKeyDistinct(Field("extensions", OneSection(name, section)), tools.lower);
  }

  // ------------------------------------------- names that are inherited

  predicate OrdinaryKey(key: string) { key != "" && !Inherited(PropOf(key)) }

  /** Names whose errors are never taken for ones of an inherited property. */
  predicate OrdinaryNames(required: seq<string>, keys: seq<string>) {
    && (forall i :: 0 <= i < |required| ==> OrdinaryName(required[i]))
    && (forall i :: 0 <= i < |keys| ==> OrdinaryKey(keys[i]))
  }

  predicate Keyed(properties: seq<Property>, keys: seq<string>) {
    |properties| == |keys| && forall i :: 0 <= i < |keys| ==> properties[i].key == keys[i]
  }

  lemma {:induction false} KeyedOrdinary(properties: seq<Property>, keys: seq<string>)
    requires Keyed(properties, keys) && forall i :: 0 <= i < |keys| ==> OrdinaryKey(keys[i])
    ensures OrdinaryProperties(properties)
  {
    if properties == [] {
    } else {
      KeyedOrdinary(properties[..|properties| - 1], keys[..|keys| - 1]);
      var key := keys[|keys| - 1];
      assert OrdinaryKey(key);
      if Inherited(key) { InheritedIsWord(key); }
    }
  }

  /** All a schema's errors name inherited properties the section does not own, and there
      is one: fixes are reported, and nothing is removed. */
  predicate OnlySeems(schema: Schema, section: seq<Field>) {
    && !NoneRemovable(schema, section)
    && forall e :: e in Errors(schema, section) ==> !OwnRemovable(section, e)
  }

  lemma {:induction false} NothingOwned(section: seq<Field>, errors: seq<Issue>)
    requires forall e :: e in errors ==> !OwnRemovable(section, e)
    ensures Purge(section, errors).fields == section
  {
    if errors == [] {
    } else {
      var init, e := errors[..|errors| - 1], errors[|errors| - 1];
      assert errors == init + [e];
      NothingOwned(section, init);
      assert !OwnRemovable(section, e);
      OmitLookup(section, PropOf(e.path), "");
    }
  }

  lemma OnlyExtensions(v: Json, plugins: seq<Plugin>, tools: Tools)
    requires ExtensionsTreat(plugins)(v).value == Some(v)
    ensures Diagnose(Extending(v), plugins, tools).fixed == Extending(v)
  {
    var cfg, rules := Extending(v), TopRules(tools, plugins);
    ExtensionsKnown();
    forall k | k in FieldKeys(cfg) ensures !Renames(cfg, k, tools.lower) { HasOne(Field("extensions", v), k); }
    RenameIff(cfg, FieldKeys(cfg), tools.lower);
    ExtensionsRule(tools, plugins);
    forall i | 0 <= i < |rules| ensures GivesBack(cfg, rules[i]) {
      ExtensionsAlone(v, rules[i].key);
      if rules[i].key == "extensions" { ExtensionsAt(tools, plugins, i); }
    }
    RulesGiveBack(cfg, rules);
  }

  lemma ExtensionsAlone(v: Json, q: string)
    ensures Lookup(Extending(v), q) == if q == "extensions" then Some(v) else None
  {
    assert Extending(v)[1..] == [];
  }

  lemma ExtensionsAt(tools: Tools, plugins: seq<Plugin>, i: nat)
    requires i < |TopRules(tools, plugins)| && TopRules(tools, plugins)[i].key == "extensions"
    ensures i == 11
  {
    var rules := TopRules(tools, plugins);
    assert |rules[0].key| == 7 && |rules[1].key| == 5 && |rules[2].key| == 11 && |rules[3].key| == 4;
    assert |rules[4].key| == 14 && |rules[5].key| == 11 && |rules[6].key| == 13 && |rules[7].key| == 8;
    assert |rules[8].key| == 5 && |rules[9].key| == 8 && |rules[10].key| == 7 && |"extensions"| == 10;
  }

  /** Through the whole doctor: a fix is reported, and the report says nothing changed. */
  lemma SeemsFixed(name: string, section: seq<Field>, schema: Schema, tools: Tools)
    requires OnlySeems(schema, section)
    ensures var d := Diagnose(Extending(OneSection(name, section)), [Plugin(name, Some(schema))], tools);
      HasFix(d.findings) && !d.changed
  {
    var v, plugins := OneSection(name, section), [Plugin(name, Some(schema))];
    NothingOwned(section, Errors(schema, section));
    OnePlugin(name, section, schema);
    OnlyExtensions(v, plugins, tools);
    OneInvalid(name, section, schema);
    ExtensionsAlone(v, "extensions");
    FixIffInvalid(Extending(v), plugins, tools);
  }

  function Accept(v: Json): seq<Suffix> { [] }

  /** `{enum: []}`, which rejects everything; for the property with an empty name
      `{type: object, properties: {constructor: {enum: []}}}`. */
  function RejectAt(key: string): Json -> seq<Suffix> {
    (v: Json) => if key == "" && v.Obj? then [".constructor"] else [""]
  }

  function RejectOnly(key: string, keys: seq<string>): (r: seq<Property>)
    ensures Keyed(r, keys)
  {
    seq(|keys|, i requires 0 <= i < |keys| =>
      if keys[i] == key then Property(key, RejectAt(key), [""]) else Property(keys[i], Accept, []))
  }

  /** The required properties a section can be missing. */
  function Bearing(required: seq<string>): seq<Field> {
    if required == [] then []
    else
      var rest, last := Bearing(required[..|required| - 1]), required[|required| - 1];
      if Inherited(last) then rest else Assign(rest, last, Null)
  }

  lemma {:induction false} BearsAll(required: seq<string>, q: string)
    ensures HasKey(Bearing(required), q) <==> q in required && !Inherited(q)
  {
    if required == [] {
    } else {
      var init, last := required[..|required| - 1], required[|required| - 1];
      BearsAll(init, q);
      AssignLookup(Bearing(init), last, Null, q);
      assert required == init + [last];
    }
  }

  function MisleadingSection(required: seq<string>, key: string): seq<Field> {
    if Inherited(key) then Bearing(required) else Assign(Bearing(required), key, Obj([]))
  }

  lemma MisleadingHas(required: seq<string>, key: string, q: string)
    ensures HasKey(MisleadingSection(required, key), q) <==> (q in required || q == key) && !Inherited(q)
    ensures Lookup(MisleadingSection(required, key), key) == if Inherited(key) then None else Some(Obj([]))
  {
    BearsAll(required, q);
    BearsAll(required, key);
    HasLookup(Bearing(required), key);
    AssignLookup(Bearing(required), key, Obj([]), q);
    AssignLookup(Bearing(required), key, Obj([]), key);
  }

  /** What the property's error is taken to be about. */
  lemma MisleadingError(required: seq<string>, key: string)
    requires !OrdinaryKey(key)
    ensures var p := Property(key, RejectAt(key), [""]); var errors := PropertyErrors(p, MisleadingSection(required, key));
      |errors| == 1 && Inherited(PropOf(errors[0].path))
  {
    MisleadingHas(required, key, key);
    assert Inherited("constructor");
    InheritedIsWord("constructor");
    if key == "" {
      assert ".constructor"[1..] == "constructor";
      EmptyIsNotInherited();
    } else {
      assert key + "" == key;
    }
  }

  lemma EmptyIsNotInherited()
    ensures !Inherited("")
  {
    if Inherited("") { InheritedIsWord(""); }
  }

  lemma MisleadingErrors(required: seq<string>, keys: seq<string>, key: string, e: Issue)
    requires !OrdinaryKey(key) && e in WrongProperties(RejectOnly(key, keys), MisleadingSection(required, key))
    ensures Inherited(PropOf(e.path)) && !OwnRemovable(MisleadingSection(required, key), e)
  {
    var properties, section := RejectOnly(key, keys), MisleadingSection(required, key);
    var i := WrongFrom(properties, section, e);
    if keys[i] == key { MisleadingError(required, key); }
    MisleadingHas(required, key, PropOf(e.path));
  }

  lemma MisleadingIsThere(required: seq<string>, keys: seq<string>, key: string) returns (e: Issue)
    requires key in keys && !OrdinaryKey(key)
    ensures e in WrongProperties(RejectOnly(key, keys), MisleadingSection(required, key)) && Inherited(PropOf(e.path))
  {
    MisleadingError(required, key);
    var p := Property(key, RejectAt(key), [""]);
    e := PropertyErrors(p, MisleadingSection(required, key))[0];
    var i :| 0 <= i < |keys| && keys[i] == key;
    assert RejectOnly(key, keys)[i] == p;
    WrongIn(RejectOnly(key, keys), MisleadingSection(required, key), p, e);
  }

  lemma MisleadingOnlyWrong(required: seq<string>, keys: seq<string>, key: string)
    ensures var properties, section := RejectOnly(key, keys), MisleadingSection(required, key);
      Errors(Requiring(required, properties), section) == WrongProperties(properties, section)
  {
    var properties, section := RejectOnly(key, keys), MisleadingSection(required, key);
    forall i | 0 <= i < |required| ensures In(section, required[i]) { MisleadingHas(required, key, required[i]); }
    NoneMissing(required, section);
    ObjectIsAllowed();
    assert [] + WrongProperties(properties, section) == WrongProperties(properties, section);
  }

  lemma KeyMisleads(required: seq<string>, keys: seq<string>, key: string)
    requires key in keys && !OrdinaryKey(key)
    ensures OnlySeems(Requiring(required, RejectOnly(key, keys)), MisleadingSection(required, key))
  {
    var schema, section := Requiring(required, RejectOnly(key, keys)), MisleadingSection(required, key);
    MisleadingOnlyWrong(required, keys, key);
    forall e | e in Errors(schema, section) ensures !OwnRemovable(section, e) {
      MisleadingErrors(required, keys, key, e);
    }
    var e := MisleadingIsThere(required, keys, key);
    InheritedIsWord(PropOf(e.path));
    assert e in Errors(schema, section) && Removable(section, e);
  }

  lemma {:induction false} AcceptsAll(properties: seq<Property>, section: seq<Field>)
    requires forall i :: 0 <= i < |properties| ==> properties[i].check == Accept && properties[i].inherited == []
    ensures WrongProperties(properties, section) == []
  {
    if properties == [] {
    } else {
      AcceptsAll(properties[..|properties| - 1], section);
    }
  }

  function AcceptAll(keys: seq<string>): (r: seq<Property>)
    ensures Keyed(r, keys)
  {
    seq(|keys|, i requires 0 <= i < |keys| => Property(keys[i], Accept, []))
  }

  lemma RequiredMisleads(required: seq<string>, keys: seq<string>, name: string)
    requires name in required && !OrdinaryName(name)
    ensures OnlySeems(Requiring(required, AcceptAll(keys)), [])
  {
    AcceptsAll(AcceptAll(keys), []);
    ObjectIsAllowed();
    assert Missing(required, []) + [] == Missing(required, []);
    MissingNames(required, [], Issue(name));
    InheritedIsWord(PropOf(name));
    assert Issue(name) in Errors(Requiring(required, AcceptAll(keys)), []) && Removable([], Issue(name));
  }

  ghost predicate ChangedTells(cfg: seq<Field>, plugins: seq<Plugin>, tools: Tools) {
    Diagnose(cfg, plugins, tools).changed <==> HasFix(Diagnose(cfg, plugins, tools).findings)
  }

  /** `changed` tells whether a fix is reported, on every configuration and whatever a
      plugin's schema says of its properties, exactly when the names it lists are ordinary. */
  lemma ChangedExactlyForOrdinaryNames(name: string, required: seq<string>, keys: seq<string>, tools: Tools)
    requires name != PROTO
    ensures OrdinaryNames(required, keys) <==>
            forall properties: seq<Property>, cfg :: Keyed(properties, keys) ==>
              ChangedTells(cfg, OnePluginOf(name, required, properties), tools)
  {
    if OrdinaryNames(required, keys) {
      forall properties: seq<Property>, cfg | Keyed(properties, keys)
        ensures ChangedTells(cfg, OnePluginOf(name, required, properties), tools)
      {
        KeyedOrdinary(properties, keys);
        ChangedIffFixed(cfg, OnePluginOf(name, required, properties), tools);
      }
    } else if i :| 0 <= i < |required| && !OrdinaryName(required[i]) {
      RequiredMisleads(required, keys, required[i]);
      SeemsFixed(name, [], Requiring(required, AcceptAll(keys)), tools);
      assert !ChangedTells(Extending(OneSection(name, [])), OnePluginOf(name, required, AcceptAll(keys)), tools);
    } else {
      var i :| 0 <= i < |keys| && !OrdinaryKey(keys[i]);
      var section, properties := MisleadingSection(required, keys[i]), RejectOnly(keys[i], keys);
      KeyMisleads(required, keys, keys[i]);
      SeemsFixed(name, section, Requiring(required, properties), tools);
      assert !ChangedTells(Extending(OneSection(name, section)), OnePluginOf(name, required, properties), tools);
    }
  }

  /** The smallest such schema: `{type: object, properties: {constructor: {enum: []}}}` has
      a fix reported for every section without that property, and nothing changed. */
  lemma ConstructorOnlySeemsFixed(name: string, tools: Tools)
    ensures var plugins := OnePluginOf(name, [], [Property("constructor", RejectAt("constructor"), [""])]);
      var d := Diagnose(Extending(OneSection(name, [])), plugins, tools);
      HasFix(d.findings) && !d.changed
  {
    assert Inherited("constructor");
    InheritedIsWord("constructor");
    KeyMisleads([], ["constructor"], "constructor");
    assert RejectOnly("constructor", ["constructor"]) == [Property("constructor", RejectAt("constructor"), [""])];
    SeemsFixed(name, [], Requiring([], RejectOnly("constructor", ["constructor"])), tools);
  }

  // ------------------------------------------- two plugins of one name

  function Objecting(allows: Option<Json -> bool>, key: string): Schema {
    Schema(allows, Some("object"), [], [Property(key, RejectAt(key), [""])])
  }

  function Only(section: seq<Field>): Option<Json -> bool> { Some((j: Json) => j == Obj(section)) }

  lemma ObjectingErrors(allows: Option<Json -> bool>, key: string, section: seq<Field>)
    requires HasKey(section, key) && key != ""
    ensures Errors(Objecting(allows, key), section) ==
            if allows.Some? && !allows.value(Obj(section)) then [Issue(ROOT_PATH)] else [Issue(key)]
  {
    ObjectIsAllowed();
    HasLookup(section, key);
    var properties := Objecting(allows, key).properties;
    assert properties[..0] == [];
    assert key + "" == key && PropertyErrors(properties[0], section) == [Issue(key)];
    assert WrongProperties(properties, section) == [] + [Issue(key)];
    assert [] + [Issue(key)] == [Issue(key)];
  }

  lemma ShortNames()
    ensures PropOf("x") == "x" && PropOf("y") == "y" && "x" != "y" && "x" != ROOT_PATH && "y" != ROOT_PATH
  {
    UpToDotAll("x");
    UpToDotAll("y");
    assert |"x"| == 1 && |"y"| == 1 && |ROOT_PATH| == 6 && "x"[0] == 'x' && "y"[0] == 'y';
  }

  lemma TwoFields(v: Json, w: Json)
    ensures var section, rest := [Field("x", v), Field("y", w)], [Field("y", w)];
      && HasKey(section, "x") && HasKey(section, "y") && HasKey(rest, "y") && section != rest
      && Omit(section, "x") == rest
  {
    var section, rest := [Field("x", v), Field("y", w)], [Field("y", w)];
    ShortNames();
    assert section[1..] == rest && rest[1..] == [];
    assert HasKey(rest, "y") && Omit(rest, "x") == rest;
  }

  /** Why an earlier plugin of the same name must have no root `enum`: here it rejects the
      whole section, the later plugin purges the section into one it accepts, and then it
      has an error of its own to report. */
  lemma EarlierEnumUnsettles(name: string, v: Json, w: Json, tools: Tools)
    ensures var section, rest := [Field("x", v), Field("y", w)], [Field("y", w)];
      var plugins := [Plugin(name, Some(Objecting(Only(rest), "y"))), Plugin(name, Some(Objecting(None, "x")))];
      && DistinctFolded(Extending(OneSection(name, section)), tools.lower)
      && !Settles(Extending(OneSection(name, section)), plugins, tools)
  {
    var section, rest := [Field("x", v), Field("y", w)], [Field("y", w)];
    TwoPasses(name, v, w);
    TwoFields(v, w);
    ShortNames();
    ObjectingErrors(Only(rest), "y", rest);
    assert Issue("y") in Errors(Objecting(Only(rest), "y"), rest) && Removable(rest, Issue("y"));
    FirstOfTwoInvalid(name, rest, Objecting(Only(rest), "y"), Objecting(None, "x"));
    UnsettledSections(OneSection(name, section),
                      [Plugin(name, Some(Objecting(Only(rest), "y"))), Plugin(name, Some(Objecting(None, "x")))], tools);
    OneKeyDistinct(Field("extensions", OneSection(name, section)), tools.lower);
  }

  lemma FirstOfTwoInvalid(name: string, section: seq<Field>, a: Schema, b: Schema)
    requires !NoneRemovable(a, section)
    ensures !SectionsValid([Plugin(name, Some(a)), Plugin(name, Some(b))])(OneSection(name, section))
  {
    var plugins, o := [Plugin(name, Some(a)), Plugin(name, Some(b))], [Field(name, Obj(section))];
    assert Lookup(o, name) == Some(Obj(section));
    assert !ValidSection(o, plugins[0]) && plugins[..1] == [plugins[0]];
    assert !AllSectionsValid(o, [plugins[0]]);
  }

  lemma TwoPasses(name: string, v: Json, w: Json)
    ensures var section, rest := [Field("x", v), Field("y", w)], [Field("y", w)];
      var plugins := [Plugin(name, Some(Objecting(Only(rest), "y"))), Plugin(name, Some(Objecting(None, "x")))];
      ExtensionsTreat(plugins)(OneSection(name, section)).value == Some(OneSection(name, rest))
  {
    var section, rest := [Field("x", v), Field("y", w)], [Field("y", w)];
    var strict, later := Objecting(Only(rest), "y"), Objecting(None, "x");
    var plugins, o := [Plugin(name, Some(strict)), Plugin(name, Some(later))], [Field(name, Obj(section))];
    var first, second := Rule(name, SectionTreat(strict)), Rule(name, SectionTreat(later));
    OneSectionScalars(name, section);
    TwoRules(name, strict, later, o);
    TwoFields(v, w);
    ShortNames();
    ObjectingErrors(Only(rest), "y", section);
    ObjectingErrors(None, "x", section);
    RootNotRemovable(section);
    PurgeOne(section, Issue(ROOT_PATH));
    PurgeOne(section, Issue("x"));
    OnePass(o, name, section, strict);
    OnePass(o, name, section, later);
    var t := ApplyRule(Treated(o, []), first);
    SameFields(t, [], second);
  }

  lemma TwoRules(name: string, a: Schema, b: Schema, o: seq<Field>)
    ensures ApplyRules(o, PluginRules([Plugin(name, Some(a)), Plugin(name, Some(b))])) ==
            ApplyRule(ApplyRule(Treated(o, []), Rule(name, SectionTreat(a))), Rule(name, SectionTreat(b)))
  {
    var plugins, first, second := [Plugin(name, Some(a)), Plugin(name, Some(b))], Rule(name, SectionTreat(a)), Rule(name, SectionTreat(b));
    assert plugins[..1] == [plugins[0]] && [plugins[0]][..0] == [];
    assert PluginRules([plugins[0]]) == [] + [first];
    assert PluginRules(plugins) == [first] + [second];
    assert [first, second] == [first] + [second] && [first, second][..1] == [first] && [first][..0] == [];
    assert ApplyRules(o, [first]) == ApplyRule(Treated(o, []), first);
  }
}
