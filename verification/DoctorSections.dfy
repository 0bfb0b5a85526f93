/** Every repair of the configuration doctor is trustworthy: a fix is reported exactly
    when what is written changes, and what is left needs no further repair. */
module DoctorSections {
  import opened Prelude
  import opened Json
  import opened ConfigRepair
  import opened ConfigDoctor

  // ---------------------------------------------- every rule is trustworthy

  lemma OneFix(f: Finding)
    ensures HasFix([f]) <==> f.fix.Some?
    ensures !HasFix([])
  {
    assert ([f])[..0] == [];
  }

  lemma ScalarsTrusted(tools: Tools)
    ensures Honest(VersionTreat) && Settled(VersionTreat)
    ensures Honest(BooleanTreat) && Settled(BooleanTreat)
    ensures Honest(StringTreat) && Settled(StringTreat)
    ensures Honest(ObjectOnly) && Settled(ObjectOnly)
  {
    OneFix(Finding([], Error, None));
    forall v ensures HonestAt(VersionTreat, v) && SettledAt(VersionTreat, v) {}
    forall v ensures HonestAt(BooleanTreat, v) && SettledAt(BooleanTreat, v) {}
    forall v ensures HonestAt(StringTreat, v) && SettledAt(StringTreat, v) {}
    forall v ensures HonestAt(ObjectOnly, v) && SettledAt(ObjectOnly, v) {}
  }

  lemma EnumTrusted(allowed: seq<string>)
    ensures Honest(EnumTreat(allowed)) && Settled(EnumTreat(allowed))
  {
    forall v ensures HonestAt(EnumTreat(allowed), v) && SettledAt(EnumTreat(allowed), v) {}
  }

  lemma NumbersTrusted(tools: Tools)
    ensures Honest(CountTreat(tools)) && Settled(CountTreat(tools))
    ensures Honest(DelayTreat(tools)) && Settled(DelayTreat(tools))
    ensures Honest(WordTreat(tools)) && Settled(WordTreat(tools))
  {
    forall v ensures HonestAt(CountTreat(tools), v) && SettledAt(CountTreat(tools), v) {}
    forall v ensures HonestAt(DelayTreat(tools), v) && SettledAt(DelayTreat(tools), v) {}
    forall v ensures HonestAt(WordTreat(tools), v) && SettledAt(WordTreat(tools), v) {
      assert WordTreat(tools)(v) == if v == Str(tools.normalizeWord(v)) then Kept(v) else DROPPED;
    }
  }

  lemma AutonomyRulesTrusted(tools: Tools)
    ensures var rules := AutonomyRules(tools); DistinctRules(rules) && HonestRules(rules) && SettledRules(rules)
  {
    var rules := AutonomyRules(tools);
    ScalarsTrusted(tools);
    NumbersTrusted(tools);
    EnumTrusted(["off", "suggest", "auto"]);
    EnumTrusted(["original", "english"]);
    RulesFromEach(rules);
    assert |rules[0].key| == 11 && |rules[1].key| == 15 && |rules[2].key| == 7;
    assert |rules[3].key| == 18 && |rules[4].key| == 14 && |rules[5].key| == 12;
    DistinctFromPairs(rules);
  }

  lemma AutonomyTrusted(tools: Tools)
    ensures Honest(ObjectTreat(AutonomyRules(tools))) && Settled(ObjectTreat(AutonomyRules(tools)))
  {
    AutonomyRulesTrusted(tools);
    ObjectHonest(AutonomyRules(tools));
    ObjectSettled(AutonomyRules(tools));
  }

  lemma EntryRulesTrusted(tools: Tools)
    ensures DistinctRules(ENTRY_RULES) && HonestRules(ENTRY_RULES) && SettledRules(ENTRY_RULES)
  {
    ScalarsTrusted(tools);
    RulesFromEach(ENTRY_RULES);
    assert ENTRY_RULES[0].key[0] == 'e' && ENTRY_RULES[1].key[0] == 'o';
    DistinctFromPairs(ENTRY_RULES);
  }

  lemma EntryTrusted(tools: Tools)
    ensures Honest(EntryTreat) && Settled(EntryTreat)
  {
    EntryRulesTrusted(tools);
    ObjectHonest(ENTRY_RULES);
    ObjectSettled(ENTRY_RULES);
    forall v ensures HonestAt(EntryTreat, v) && SettledAt(EntryTreat, v) {
      assert HonestAt(ObjectTreat(ENTRY_RULES), v) && SettledAt(ObjectTreat(ENTRY_RULES), v);
      if IsNamed(v) { NameSurvives(v.fields); }
    }
  }

  lemma EntriesTrusted(tools: Tools)
    ensures Honest(ArrayTreat(EntryTreat)) && Settled(ArrayTreat(EntryTreat))
  {
    EntryTrusted(tools);
    ArrayHonest(EntryTreat);
    ArraySettled(EntryTreat);
  }

  lemma NameSurvives(o: seq<Field>)
    ensures Lookup(ApplyRules(o, ENTRY_RULES).fields, "name") == Lookup(o, "name")
  {
    assert |ENTRY_RULES[0].key| == 7 && |ENTRY_RULES[1].key| == 7 && |"name"| == 4;
    NoRuleFromEach(ENTRY_RULES, "name");
    RulesFrame(o, ENTRY_RULES, "name");
  }

  // --------------------------------------------------------- plugin sections

  /** The error names a property of the section's own. */
  predicate OwnRemovable(section: seq<Field>, e: Issue) {
    PropOf(e.path) != "" && PropOf(e.path) != ROOT_PATH && HasKey(section, PropOf(e.path))
  }

  /** No error names a property the section only inherits. */
  predicate NamesOwn(section: seq<Field>, errors: seq<Issue>) {
    forall e :: e in errors && Removable(section, e) ==> OwnRemovable(section, e)
  }

  lemma {:induction false} PurgeShrinks(section: seq<Field>, errors: seq<Issue>)
    ensures var t := Purge(section, errors);
      && |t.fields| <= |section|
      && (HasFix(t.findings) && NamesOwn(section, errors) ==> |t.fields| < |section|)
      && (!HasFix(t.findings) ==> t.fields == section)
  {
    if errors == [] {
    } else {
      var init, e := errors[..|errors| - 1], errors[|errors| - 1];
      assert errors == init + [e];
      PurgeShrinks(section, init);
      var t, last := Purge(section, init), Purge(section, errors).findings[|Purge(section, init).findings|];
      HasFixAppend(t.findings, [last]);
      OneFix(last);
      OmitLookup(t.fields, PropOf(e.path), "");
    }
  }

  /** Purging removes every property an error names and the section owns, and leaves the rest as it was. */
  lemma {:induction false} PurgeRemoves(section: seq<Field>, errors: seq<Issue>, q: string)
    ensures var t := Purge(section, errors);
      && (HasKey(t.fields, q) ==> Lookup(t.fields, q) == Lookup(section, q) && HasKey(section, q))
      && (forall e :: e in errors ==> !OwnRemovable(t.fields, e))
  {
    if errors == [] {
    } else {
      var init, last := errors[..|errors| - 1], errors[|errors| - 1];
      assert errors == init + [last];
      PurgeRemoves(section, init, q);
      var t := Purge(section, init);
      OmitLookup(t.fields, PropOf(last.path), q);
      forall e | e in errors ensures !OwnRemovable(Purge(section, errors).fields, e) {
        OmitLookup(t.fields, PropOf(last.path), PropOf(e.path));
      }
    }
  }

  lemma {:induction false} NothingRemovable(section: seq<Field>, errors: seq<Issue>)
    requires forall e :: e in errors ==> !Removable(section, e)
    ensures Purge(section, errors).fields == section && !HasFix(Purge(section, errors).findings)
  {
    if errors == [] {
    } else {
      var init, last := errors[..|errors| - 1], errors[|errors| - 1];
      assert errors == init + [last];
      NothingRemovable(section, init);
      HasFixAppend(Purge(section, init).findings, [Finding(PathOf(last), Error, None)]);
      OneFix(Finding(PathOf(last), Error, None));
    }
  }

  lemma {:induction false} PurgeIff(section: seq<Field>, errors: seq<Issue>)
    ensures !HasFix(Purge(section, errors).findings) <==> forall e :: e in errors ==> !Removable(section, e)
  {
    if errors == [] {
    } else {
      var init, e := errors[..|errors| - 1], errors[|errors| - 1];
      assert errors == init + [e];
      PurgeIff(section, init);
      PurgeShrinks(section, init);
      var t := Purge(section, init);
      var last := Purge(section, errors).findings[|t.findings|];
      HasFixAppend(t.findings, [last]);
      OneFix(last);
    }
  }

  // ------------------------------------------------ names and what they inherit

  /** A required name whose absence is never taken for an inherited property's error: it is
      inherited itself, so never missing, or its path does not name an inherited one. */
  predicate OrdinaryName(name: string) { Inherited(name) || !Inherited(PropOf(name)) }

  /** A property whose errors never name an inherited one, unless that is the property
      itself and the sub-schema accepts what is inherited. */
  predicate OrdinaryProperty(p: Property) {
    p.key != "" && if Inherited(p.key) then p.inherited == [] else !Inherited(PropOf(p.key))
  }

  predicate OrdinaryProperties(properties: seq<Property>) {
    properties == [] || (OrdinaryProperties(properties[..|properties| - 1]) && OrdinaryProperty(properties[|properties| - 1]))
  }

  predicate OrdinarySchema(schema: Schema) {
    schema.typeName == Some("object") ==>
      && (forall i :: 0 <= i < |schema.required| ==> OrdinaryName(schema.required[i]))
      && OrdinaryProperties(schema.properties)
  }

  /** A required name whose absence is never taken for another property's error: besides,
      it has a dot, so it is never purged, or it is not another property's name and an
      index. */
  predicate SafeName(name: string) {
    || Inherited(name)
    || (!Inherited(PropOf(name)) &&
        ('.' in name || StripIndex(name) == name || StripIndex(name) == "" || StripIndex(name) == ROOT_PATH))
  }

  predicate SafeNames(names: seq<string>) { forall i :: 0 <= i < |names| ==> SafeName(names[i]) }

  /** A schema that looks at required names and properties at all has safe ones only. */
  predicate PlainSchema(schema: Schema) {
    schema.typeName == Some("object") ==> SafeNames(schema.required) && OrdinaryProperties(schema.properties)
  }

  predicate WordChar(c: char) { c != '.' && c != '[' && c != ']' && c != '<' }

  predicate IsWord(s: string) { forall i :: 0 <= i < |s| ==> WordChar(s[i]) }

  lemma {:induction false} ListedIn(keys: seq<string>, key: string)
    ensures Listed(keys, key) <==> key in keys
  {
    if keys == [] {
    } else {
      ListedIn(keys[1..], key);
      assert keys == [keys[0]] + keys[1..];
    }
  }

  lemma FirstInheritedWords()
    ensures forall i :: 0 <= i < 6 ==> INHERITED[i] != "" && IsWord(INHERITED[i])
  {
    assert IsWord("constructor");
    assert IsWord("__defineGetter__");
    assert IsWord("__defineSetter__");
    assert IsWord("hasOwnProperty");
    assert IsWord("__lookupGetter__");
    assert IsWord("__lookupSetter__");
  }

  lemma LastInheritedWords()
    ensures forall i :: 6 <= i < |INHERITED| ==> INHERITED[i] != "" && IsWord(INHERITED[i])
  {
    assert IsWord("isPrototypeOf");
    assert IsWord("propertyIsEnumerable");
    assert IsWord("toString");
    assert IsWord("valueOf");
    assert IsWord("__proto__");
    assert IsWord("toLocaleString");
  }

  lemma InheritedIsWord(name: string)
    requires Inherited(name)
    ensures name != "" && name != ROOT_PATH && '.' !in name && '[' !in name && PropOf(name) == name
  {
    ListedIn(INHERITED, name);
    FirstInheritedWords();
    LastInheritedWords();
    forall c | c in name ensures WordChar(c) {}
    UpToDotAll(name);
    assert ROOT_PATH[0] == '<';
    assert name[|name| - 1] != ']';
  }

  lemma {:induction false} DigitsAre(s: string, end: nat)
    requires end <= |s|
    ensures forall i :: end - DigitsBefore(s, end) <= i < end ==> '0' <= s[i] <= '9'
  {
    if end == 0 || !('0' <= s[end - 1] <= '9') {
    } else {
      DigitsAre(s, end - 1);
    }
  }

  /** Stripping an index never reaches back over a bracket. */
  lemma StripKeeps(key: string, u: string)
    requires u != "" && u[0] == '['
    ensures var r := StripIndex(key + u); r == key || '[' in r
  {
    var s := key + u;
    var r := StripIndex(s);
    assert s[|key|] == '[';
    if |r| > |key| {
      assert r[|key|] == '[';
    } else if |r| < |key| {
      DigitsAre(s, |s| - 1);
      assert false;
    }
  }

  lemma {:induction false} UpToDotOf(key: string, s: string)
    ensures UpToDot(key + s) == if '.' in key then UpToDot(key) else key + UpToDot(s)
  {
    if key == "" {
      assert key + s == s;
    } else {
      assert (key + s)[1..] == key[1..] + s;
      if key[0] != '.' {
        UpToDotOf(key[1..], s);
        assert key == [key[0]] + key[1..];
      }
    }
  }

  /** What an error below a property is about, if that is inherited: what the property's
      own name is about, or the property itself. */
  lemma BelowNames(key: string, s: Suffix)
    requires key != "" && Inherited(PropOf(Below(key, s)))
    ensures PropOf(Below(key, s)) == PropOf(key) || PropOf(Below(key, s)) == key
  {
    InheritedIsWord(PropOf(Below(key, s)));
    UpToDotOf(key, s);
    UpToDotOf(key, "");
    assert key + "" == key;
    var u := UpToDot(s);
    if '.' !in key {
      if u == "" {
        assert key + u == key;
      } else {
        StripKeeps(key, u);
      }
    }
  }

  lemma InEither(a: seq<Issue>, b: seq<Issue>, e: Issue)
    ensures e in a + b <==> e in a || e in b
  {
  }

  lemma {:induction false} WrongIn(properties: seq<Property>, section: seq<Field>, p: Property, e: Issue)
    requires p in properties && e in PropertyErrors(p, section)
    ensures e in WrongProperties(properties, section)
  {
    var init, last := properties[..|properties| - 1], properties[|properties| - 1];
    InEither(WrongProperties(init, section), PropertyErrors(last, section), e);
    if p == last {
    } else {
      assert properties == init + [last];
      WrongIn(init, section, p, e);
    }
  }

  lemma {:induction false} WrongFrom(properties: seq<Property>, section: seq<Field>, e: Issue) returns (i: nat)
    requires e in WrongProperties(properties, section)
    ensures i < |properties| && e in PropertyErrors(properties[i], section)
  {
    var init, last := properties[..|properties| - 1], properties[|properties| - 1];
    InEither(WrongProperties(init, section), PropertyErrors(last, section), e);
    if e in PropertyErrors(last, section) {
      i := |init|;
    } else {
      i := WrongFrom(init, section, e);
      assert init[i] == properties[i];
    }
  }

  lemma {:induction false} WrongNamesOwn(properties: seq<Property>, section: seq<Field>)
    requires OrdinaryProperties(properties)
    ensures NamesOwn(section, WrongProperties(properties, section))
  {
    if properties == [] {
    } else {
      var init, p := properties[..|properties| - 1], properties[|properties| - 1];
      WrongNamesOwn(init, section);
      HasLookup(section, p.key);
      var found := Lookup(section, p.key);
      var ss := if found.Some? then p.check(found.value) else if Inherited(p.key) then p.inherited else [];
      assert PropertyErrors(p, section) == IssuesAt(p.key, ss);
      forall e | e in IssuesAt(p.key, ss) && Removable(section, e) ensures OwnRemovable(section, e) {
        var i :| 0 <= i < |ss| && e == Issue(Below(p.key, ss[i]));
        if Inherited(PropOf(e.path)) {
          BelowNames(p.key, ss[i]);
          if Inherited(p.key) { InheritedIsWord(p.key); }
        }
      }
    }
  }

  lemma OrdinaryNamesOwn(schema: Schema, section: seq<Field>)
    requires OrdinarySchema(schema)
    ensures NamesOwn(section, Errors(schema, section))
  {
    RootOrProperties(schema, section);
    RootNotRemovable(section);
    if Errors(schema, section) != [Issue(ROOT_PATH)] && Errors(schema, section) != [] {
      WrongNamesOwn(schema.properties, section);
      forall e | e in Missing(schema.required, section) && Removable(section, e) ensures OwnRemovable(section, e) {
        MissingNames(schema.required, section, e);
      }
    }
  }

  lemma PlainIsOrdinary(schema: Schema)
    requires PlainSchema(schema)
    ensures OrdinarySchema(schema)
  {
    if schema.typeName == Some("object") {
      forall i | 0 <= i < |schema.required| ensures OrdinaryName(schema.required[i]) {
        assert SafeName(schema.required[i]);
      }
    }
  }

  // ----------------------------------------------------------- purging suffices

  lemma {:induction false} MissingNames(required: seq<string>, section: seq<Field>, e: Issue)
    ensures e in Missing(required, section) <==> e.path in required && !In(section, e.path)
  {
    if required == [] {
    } else {
      MissingNames(required[..|required| - 1], section, e);
      assert required == required[..|required| - 1] + [required[|required| - 1]];
    }
  }

  lemma {:induction false} NoDotUpTo(path: string)
    ensures '.' !in UpToDot(path)
  {
    if path == "" || path[0] == '.' {
    } else {
      NoDotUpTo(path[1..]);
    }
  }

  /** Only names without a dot are ever purged. */
  lemma {:induction false} PurgedNames(section: seq<Field>, errors: seq<Issue>, q: string)
    requires HasKey(section, q) && !HasKey(Purge(section, errors).fields, q)
    ensures '.' !in q
  {
    var init, e := errors[..|errors| - 1], errors[|errors| - 1];
    OmitLookup(Purge(section, init).fields, PropOf(e.path), q);
    if HasKey(Purge(section, init).fields, q) {
      NoDotUpTo(e.path);
    } else {
      PurgedNames(section, init, q);
    }
  }

  lemma {:induction false} SameWrongs(properties: seq<Property>, before: seq<Field>, after: seq<Field>, e: Issue)
    requires OrdinaryProperties(properties) && forall q :: HasKey(after, q) ==> Lookup(after, q) == Lookup(before, q)
    ensures e in WrongProperties(properties, after) ==> e in WrongProperties(properties, before)
  {
    if properties == [] {
    } else {
      SameWrongs(properties[..|properties| - 1], before, after, e);
      HasLookup(after, properties[|properties| - 1].key);
      HasLookup(before, properties[|properties| - 1].key);
    }
  }

  predicate NoneRemovable(schema: Schema, section: seq<Field>) {
    forall e :: e in Errors(schema, section) ==> !Removable(section, e)
  }

  /** The only errors a purge can bring up are about required properties now missing, and
      a safe name is not taken for a property that is still there. */
  lemma {:induction false} NewErrors(schema: Schema, section: seq<Field>, errors: seq<Issue>, e: Issue)
    requires schema.typeName == Some("object") && PlainSchema(schema)
    requires Errors(schema, section) == Missing(schema.required, section) + WrongProperties(schema.properties, section)
    ensures var after := Purge(section, errors).fields;
      e in Errors(schema, after) ==> e in Errors(schema, section) || !OwnRemovable(after, e)
  {
    var after := Purge(section, errors).fields;
    RootNotRemovable(after);
    if e in Errors(schema, after) && e != Issue(ROOT_PATH) {
      forall q | HasKey(after, q) ensures Lookup(after, q) == Lookup(section, q) { PurgeRemoves(section, errors, q); }
      MissingNames(schema.required, after, e);
      MissingNames(schema.required, section, e);
      SameWrongs(schema.properties, section, after, e);
      if e !in Errors(schema, section) {
        PurgedNames(section, errors, e.path);
        UpToDotAll(e.path);
      }
    }
  }

  /** Either the root of the schema settles what the errors are, or it is the properties. */
  lemma RootOrProperties(schema: Schema, section: seq<Field>)
    ensures || Errors(schema, section) == [Issue(ROOT_PATH)] || Errors(schema, section) == []
            || (schema.typeName == Some("object") &&
                Errors(schema, section) == Missing(schema.required, section) + WrongProperties(schema.properties, section))
    ensures schema.typeName != Some("object") ==> forall e :: e in Errors(schema, section) ==> e == Issue(ROOT_PATH)
  {
  }

  /** After the purge, no error of the section names a property it still has. */
  lemma {:induction false} PurgeSuffices(schema: Schema, section: seq<Field>)
    requires PlainSchema(schema)
    ensures NoneRemovable(schema, Purge(section, Errors(schema, section)).fields)
  {
    var errors := Errors(schema, section);
    var after := Purge(section, errors).fields;
    RootOrProperties(schema, section);
    RootOrProperties(schema, after);
    RootNotRemovable(after);
    PlainIsOrdinary(schema);
    OrdinaryNamesOwn(schema, after);
    PurgeRemoves(section, errors, "");
    if errors == [Issue(ROOT_PATH)] || errors == [] {
      RootNotRemovable(section);
      NothingRemovable(section, errors);
    } else if schema.typeName == Some("object") {
      forall e | e in Errors(schema, after) ensures !Removable(after, e) { NewErrors(schema, section, errors, e); }
    }
  }

  /** A section with nothing to remove has nothing to remove after another plugin's purge
      either, unless the schema has an `enum` at its root, which the purge may satisfy. */
  lemma {:induction false} StaysPurged(schema: Schema, section: seq<Field>, errors: seq<Issue>)
    requires PlainSchema(schema) && schema.allows == None && NoneRemovable(schema, section)
    ensures NoneRemovable(schema, Purge(section, errors).fields)
  {
    var after := Purge(section, errors).fields;
    RootOrProperties(schema, after);
    RootNotRemovable(after);
    PlainIsOrdinary(schema);
    OrdinaryNamesOwn(schema, after);
    if schema.typeName == Some("object") && schema.typeName.value !in NON_OBJECT_TYPES {
      forall e | e in Errors(schema, after) ensures !Removable(after, e) {
        NewErrors(schema, section, errors, e);
        PurgeRemoves(section, errors, PropOf(e.path));
      }
    }
  }

  // ---------------------------------------- names that are not safe

  /** `{type: array, items: {enum: []}}`: every element is an error. */
  function NoElements(v: Json): seq<Suffix> {
    if v.Arr? then seq(|v.items|, i requires 0 <= i < |v.items| => ElementAt(i)) else [""]
  }

  function ElementAt(i: nat): Suffix { "[" + Digits(i) + "]" }

  /** A schema with these required names, under any other constraints. */
  function Requiring(required: seq<string>, properties: seq<Property>): Schema {
    Schema(None, Some("object"), required, properties)
  }

  /** A section with these properties, and one more. */
  function Carrying(names: seq<string>, base: string): seq<Field> {
    if names == [] then [Field(base, Null)] else Assign(Carrying(names[..|names| - 1], base), names[|names| - 1], Null)
  }

  lemma {:induction false} CarriesAll(names: seq<string>, base: string, q: string)
    ensures HasKey(Carrying(names, base), q) <==> q == base || q in names
  {
    if names == [] {
      assert ([Field(base, Null)])[1..] == [];
    } else {
      var init, last := names[..|names| - 1], names[|names| - 1];
      CarriesAll(init, base, q);
      AssignLookup(Carrying(init, base), last, Null, q);
      assert names == init + [last];
    }
  }

  /** What defeats the purge for an unsafe name: where its path names an inherited property
      a section without it, and otherwise a section with every required property, in which
      the name holds an array that its sub-schema allows no element. */
  function DefeatingProperties(name: string): seq<Property> {
    if Inherited(PropOf(name)) then [] else [Property(name, NoElements, [])]
  }

  function DefeatingSection(required: seq<string>, name: string): seq<Field> {
    if Inherited(PropOf(name)) then [] else Assign(Carrying(required, StripIndex(name)), name, Arr([Null]))
  }

  lemma ElementNames(name: string)
    requires '.' !in name
    ensures name + ElementAt(0) == name + "[0]" && PropOf(name + "[0]") == name
  {
    var s := name + "[0]";
    UpToDotAll(s);
    assert s[|s| - 1] == ']' && s[|s| - 2] == '0' && s[|s| - 3] == '[';
    assert DigitsBefore(s, |s| - 2) == 0 && DigitsBefore(s, |s| - 1) == 1;
    assert s[..|s| - 3] == name;
  }

  lemma ObjectIsAllowed()
    ensures "object" !in NON_OBJECT_TYPES
  {
    var types := NON_OBJECT_TYPES;
    assert |types[0]| == 6 && types[0][0] == 's' && |types[1]| == 6 && types[1][0] == 'n' && |types[2]| == 7;
    assert |types[3]| == 7 && |types[4]| == 4 && |types[5]| == 5 && "object"[0] == 'o' && |"object"| == 6;
  }

  lemma ElementErrors(required: seq<string>, name: string, section: seq<Field>)
    requires name != "" && Lookup(section, name) == Some(Arr([Null]))
    ensures Errors(Requiring(required, [Property(name, NoElements, [])]), section) ==
            Missing(required, section) + [Issue(name + ElementAt(0))]
  {
    ObjectIsAllowed();
    var properties := [Property(name, NoElements, [])];
    assert properties[..0] == [] && NoElements(Arr([Null])) == [ElementAt(0)];
    assert IssuesAt(name, [ElementAt(0)]) == [Issue(name + ElementAt(0))];
    assert WrongProperties(properties, section) == [] + [Issue(name + ElementAt(0))];
  }

  lemma {:induction false} NoneMissing(required: seq<string>, section: seq<Field>)
    requires forall i :: 0 <= i < |required| ==> In(section, required[i])
    ensures Missing(required, section) == []
  {
    if required == [] {
    } else {
      NoneMissing(required[..|required| - 1], section);
    }
  }

  lemma BareErrors(required: seq<string>, section: seq<Field>)
    ensures Errors(Requiring(required, []), section) == Missing(required, section)
  {
    ObjectIsAllowed();
    assert Missing(required, section) + [] == Missing(required, section);
  }

  /** The absence of the name is taken for an error of the inherited property, which no
      removal takes away. */
  lemma InheritedDefeats(required: seq<string>, name: string)
    requires name in required && !Inherited(name) && Inherited(PropOf(name))
    ensures var schema := Requiring(required, []); !NoneRemovable(schema, Purge([], Errors(schema, [])).fields)
  {
    BareErrors(required, []);
    PurgeShrinks([], Missing(required, []));
    MissingNames(required, [], Issue(name));
    InheritedIsWord(PropOf(name));
    assert Removable([], Issue(name));
  }

  lemma UnsafeShape(name: string)
    requires !SafeName(name) && !Inherited(PropOf(name))
    ensures '.' !in name && PropOf(name) == StripIndex(name) && name != "" && name != ROOT_PATH
    ensures StripIndex(name) != name && StripIndex(name) != "" && StripIndex(name) != ROOT_PATH
  {
    UpToDotAll(name);
    assert ROOT_PATH[5] == '>';
  }

  lemma DefeatingCarries(required: seq<string>, name: string)
    requires !Inherited(PropOf(name))
    ensures var section := DefeatingSection(required, name);
      && Lookup(section, name) == Some(Arr([Null])) && HasKey(section, StripIndex(name))
      && Missing(required, section) == []
  {
    var base := StripIndex(name);
    var section := DefeatingSection(required, name);
    forall i | 0 <= i < |required| ensures In(section, required[i]) {
      CarriesAll(required, base, required[i]);
      AssignLookup(Carrying(required, base), name, Arr([Null]), required[i]);
    }
    NoneMissing(required, section);
    CarriesAll(required, base, base);
    AssignLookup(Carrying(required, base), name, Arr([Null]), base);
    AssignLookup(Carrying(required, base), name, Arr([Null]), name);
  }

  lemma PurgeOne(section: seq<Field>, e: Issue)
    ensures Purge(section, [e]).fields == if Removable(section, e) then Omit(section, PropOf(e.path)) else section
  {
    assert ([e])[..0] == [] && Purge(section, []) == Treated(section, []);
  }

  lemma DefeatingErrors(required: seq<string>, name: string)
    requires !SafeName(name) && !Inherited(PropOf(name))
    ensures Errors(Requiring(required, DefeatingProperties(name)), DefeatingSection(required, name)) == [Issue(name + "[0]")]
  {
    UnsafeShape(name);
    DefeatingCarries(required, name);
    ElementErrors(required, name, DefeatingSection(required, name));
    ElementNames(name);
    assert [] + [Issue(name + "[0]")] == [Issue(name + "[0]")];
  }

  lemma DefeatingPurged(required: seq<string>, name: string)
    requires !SafeName(name) && !Inherited(PropOf(name))
    ensures var section := DefeatingSection(required, name);
      Purge(section, [Issue(name + "[0]")]).fields == Omit(section, name)
  {
    var section := DefeatingSection(required, name);
    UnsafeShape(name);
    DefeatingCarries(required, name);
    HasLookup(section, name);
    ElementNames(name);
    PurgeOne(section, Issue(name + "[0]"));
  }

  /** The error of the name's element has the name removed, and then its absence is taken
      for an error of the property it ends in an index of. */
  lemma IndexDefeats(required: seq<string>, name: string)
    requires name in required && !SafeName(name) && !Inherited(PropOf(name))
    ensures var schema, section := Requiring(required, DefeatingProperties(name)), DefeatingSection(required, name);
      !NoneRemovable(schema, Purge(section, Errors(schema, section)).fields)
  {
    var section := DefeatingSection(required, name);
    UnsafeShape(name);
    DefeatingErrors(required, name);
    DefeatingPurged(required, name);
    DefeatingCarries(required, name);
    OmitLookup(section, name, StripIndex(name));
    OmitLookup(section, name, name);
    IndexStaysMissing(required, name, Omit(section, name));
  }

  lemma IndexStaysMissing(required: seq<string>, name: string, after: seq<Field>)
    requires name in required && !SafeName(name) && !Inherited(PropOf(name))
    requires !HasKey(after, name) && HasKey(after, StripIndex(name))
    ensures !NoneRemovable(Requiring(required, DefeatingProperties(name)), after)
  {
    UnsafeShape(name);
    ObjectIsAllowed();
    MissingNames(required, after, Issue(name));
    assert Issue(name) in Errors(Requiring(required, DefeatingProperties(name)), after) && Removable(after, Issue(name));
  }

  lemma DefeatingOrdinary(name: string)
    requires !SafeName(name)
    ensures OrdinaryProperties(DefeatingProperties(name))
  {
    if !Inherited(PropOf(name)) {
      UnsafeShape(name);
      var properties := DefeatingProperties(name);
      assert properties[..0] == [] && OrdinaryProperty(properties[0]);
    }
  }

  lemma UnsafeNameDoesNotSettle(required: seq<string>, name: string)
    requires name in required && !SafeName(name)
    ensures var schema, section := Requiring(required, DefeatingProperties(name)), DefeatingSection(required, name);
      !NoneRemovable(schema, Purge(section, Errors(schema, section)).fields)
  {
    if Inherited(PropOf(name)) {
      InheritedDefeats(required, name);
    } else {
      IndexDefeats(required, name);
    }
  }

  /** So the purge suffices, whatever the section and whatever is said of properties with
      ordinary names, exactly when every required name is safe. */
  lemma SafeNamesExact(required: seq<string>)
    ensures SafeNames(required) <==>
            forall properties: seq<Property>, section :: OrdinaryProperties(properties) ==>
              var schema := Requiring(required, properties);
              NoneRemovable(schema, Purge(section, Errors(schema, section)).fields)
  {
    if SafeNames(required) {
      forall properties: seq<Property>, section | OrdinaryProperties(properties)
        ensures var schema := Requiring(required, properties);
          NoneRemovable(schema, Purge(section, Errors(schema, section)).fields)
      {
        PurgeSuffices(Requiring(required, properties), section);
      }
    } else {
      var i :| 0 <= i < |required| && !SafeName(required[i]);
      UnsafeNameDoesNotSettle(required, required[i]);
      DefeatingOrdinary(required[i]);
    }
  }

  lemma RootNotRemovable(section: seq<Field>)
    ensures !Removable(section, Issue(ROOT_PATH))
  {
    UpToDotAll(ROOT_PATH);
    assert ROOT_PATH[5] == '>';
  }

  lemma {:induction false} UpToDotAll(s: string)
    requires '.' !in s
    ensures UpToDot(s) == s
  {
    if s == "" {
    } else {
      UpToDotAll(s[1..]);
    }
  }

  function Weight(v: Json): nat { if v.Obj? then |v.fields| else 0 }

  function TotalWeight(o: seq<Field>): nat { if o == [] then 0 else Weight(o[0].value) + TotalWeight(o[1..]) }

  lemma {:induction false} AssignWeight(o: seq<Field>, key: string, w: Json)
    requires Lookup(o, key).Some?
    ensures TotalWeight(Assign(o, key, w)) == TotalWeight(o) - Weight(Lookup(o, key).value) + Weight(w)
  {
    if o[0].key == key {
    } else {
      AssignWeight(o[1..], key, w);
    }
  }

  lemma {:induction false} PrintedWeight(o: seq<Field>)
    ensures TotalWeight(PrintedFields(o)) == TotalWeight(o)
  {
    if o == [] {
    } else {
      PrintedWeight(o[1..]);
      if o[0].value.Obj? { PrintedLength(o[0].value.fields); }
    }
  }

  predicate AllObjects(o: seq<Field>) { o == [] || (o[0].value.Obj? && AllObjects(o[1..])) }

  lemma {:induction false} AssignObject(o: seq<Field>, key: string, w: Json)
    requires AllObjects(o) && w.Obj?
    ensures AllObjects(Assign(o, key, w))
  {
    if o == [] || o[0].key == key {
    } else {
      AssignObject(o[1..], key, w);
    }
  }

  lemma {:induction false} LookupObject(o: seq<Field>, key: string)
    requires AllObjects(o)
    ensures Lookup(o, key).Some? ==> Lookup(o, key).value.Obj?
  {
    if o == [] {
    } else {
      LookupObject(o[1..], key);
    }
  }

  lemma SectionShrinks(schema: Schema, v: Json)
    ensures var t := SectionTreat(schema)(v);
      && t.value.Some? && (v.Obj? ==> t.value.value.Obj?)
      && Weight(t.value.value) <= Weight(v)
      && (HasFix(t.findings) && OrdinarySchema(schema) ==> Weight(t.value.value) < Weight(v))
      && (!HasFix(t.findings) ==> t.value == Some(v))
  {
    if v.Obj? {
      PurgeShrinks(v.fields, Errors(schema, v.fields));
      if OrdinarySchema(schema) { OrdinaryNamesOwn(schema, v.fields); }
    }
  }

  /** Plugins whose schemas name nothing that every object inherits. */
  predicate OrdinaryPlugins(plugins: seq<Plugin>) {
    forall i :: 0 <= i < |plugins| ==> OrdinaryPlugin(plugins[i])
  }

  predicate OrdinaryPlugin(p: Plugin) { p.name != PROTO && (p.schema.Some? ==> OrdinarySchema(p.schema.value)) }

  /** The plugins' pass over the sections, even with two plugins of one name: sections
      only lose properties, none without a fix being reported, and with ordinary plugins
      one exactly then. */
  lemma {:induction false} SectionsShrink(o: seq<Field>, plugins: seq<Plugin>)
    ensures var t := ApplyRules(o, PluginRules(plugins));
      && |t.fields| == |o| && (AllObjects(o) ==> AllObjects(t.fields))
      && TotalWeight(t.fields) <= TotalWeight(o)
      && (HasFix(t.findings) && OrdinaryPlugins(plugins) ==> TotalWeight(t.fields) < TotalWeight(o))
      && (!HasFix(t.findings) ==> t.fields == o)
  {
    if plugins == [] {
    } else {
      var init, p := plugins[..|plugins| - 1], plugins[|plugins| - 1];
      SectionsShrink(o, init);
      var rules := PluginRules(init);
      if OrdinaryPlugins(plugins) {
        assert OrdinaryPlugin(p) && forall i :: 0 <= i < |init| ==> init[i] == plugins[i];
      }
      if p.schema.Some? {
        var rule := Rule(p.name, SectionTreat(p.schema.value));
        assert (rules + [rule])[..|rules|] == rules;
        SectionShrinksIn(ApplyRules(o, rules), p.name, p.schema.value);
      } else {
        assert PluginRules(plugins) == rules;
      }
    }
  }

  lemma SectionShrinksIn(t: Treated, name: string, schema: Schema)
    ensures var n := ApplyRule(t, Rule(name, SectionTreat(schema)));
      && |n.fields| == |t.fields| && (AllObjects(t.fields) ==> AllObjects(n.fields))
      && (HasFix(t.findings) ==> HasFix(n.findings))
      && TotalWeight(n.fields) <= TotalWeight(t.fields)
      && (HasFix(n.findings) && !HasFix(t.findings) && OrdinarySchema(schema) ==> TotalWeight(n.fields) < TotalWeight(t.fields))
      && (!HasFix(n.findings) ==> n.fields == t.fields)
  {
    var rule := Rule(name, SectionTreat(schema));
    RuleFindings(t, rule);
    var found := Lookup(t.fields, name);
    if found.Some? {
      var v := found.value;
      SectionShrinks(schema, v);
      var w := SectionTreat(schema)(v).value.value;
      AssignWeight(t.fields, name, w);
      AssignLookup(t.fields, name, w, name);
      HasLookup(t.fields, name);
      AssignSame(t.fields, name);
      if AllObjects(t.fields) {
        LookupObject(t.fields, name);
        AssignObject(t.fields, name, w);
      }
    }
  }

  lemma {:induction false} OmitMembers(o: seq<Field>, key: string, f: Field)
    ensures f in Omit(o, key) <==> f in o && f.key != key
  {
    if o == [] {
    } else {
      OmitMembers(o[1..], key, f);
      assert o == [o[0]] + o[1..];
    }
  }

  lemma {:induction false} ScalarsGo(o: seq<Field>, entries: seq<Field>)
    requires forall e :: e in entries ==> HasKey(o, e.key)
    ensures var t := WithoutScalars(o, entries);
      && |t.fields| <= |o|
      && (if HasFix(t.findings) then |t.fields| < |o| else t.fields == o)
  {
    if entries == [] {
    } else {
      var init, e := entries[..|entries| - 1], entries[|entries| - 1];
      assert entries == init + [e];
      ScalarsGo(o, init);
      var t := WithoutScalars(o, init);
      OmitLookup(t.fields, e.key, "");
      HasFixAppend(t.findings, [Finding([Key(e.key)], Error, Some(Removed))]);
      OneFix(Finding([Key(e.key)], Error, Some(Removed)));
    }
  }

  lemma {:induction false} ObjectsStay(o: seq<Field>, entries: seq<Field>, f: Field)
    ensures f in WithoutScalars(o, entries).fields ==> f in o && (f in entries ==> f.value.Obj?)
  {
    if entries == [] {
    } else {
      var init, e := entries[..|entries| - 1], entries[|entries| - 1];
      assert entries == init + [e];
      ObjectsStay(o, init, f);
      OmitMembers(WithoutScalars(o, init).fields, e.key, f);
    }
  }

  lemma {:induction false} AllObjectsFrom(o: seq<Field>)
    requires forall f :: f in o ==> f.value.Obj?
    ensures AllObjects(o)
  {
    if o == [] {
    } else {
      AllObjectsFrom(o[1..]);
    }
  }

  lemma {:induction false} EachObject(o: seq<Field>, f: Field)
    requires AllObjects(o) && f in o
    ensures f.value.Obj?
  {
    if f == o[0] {
    } else {
      EachObject(o[1..], f);
    }
  }

  lemma {:induction false} NoScalars(o: seq<Field>, entries: seq<Field>)
    requires forall e :: e in entries ==> e.value.Obj?
    ensures WithoutScalars(o, entries) == Treated(o, [])
  {
    if entries == [] {
    } else {
      assert entries == entries[..|entries| - 1] + [entries[|entries| - 1]];
      NoScalars(o, entries[..|entries| - 1]);
    }
  }

  lemma {:induction false} HasOwnKey(o: seq<Field>, f: Field)
    requires f in o
    ensures HasKey(o, f.key)
  {
    if f == o[0] {
    } else {
      HasOwnKey(o[1..], f);
    }
  }

  lemma ExtensionsReport(plugins: seq<Plugin>)
    ensures Reporting(ExtensionsTreat(plugins))
  {
    forall v ensures ReportingAt(ExtensionsTreat(plugins), v) {
      if v.Obj? {
        var sections := WithoutScalars(v.fields, v.fields);
        forall e | e in v.fields ensures HasKey(v.fields, e.key) { HasOwnKey(v.fields, e); }
        ScalarsGo(v.fields, v.fields);
        SectionsShrink(sections.fields, plugins);
        HasFixAppend(sections.findings, ApplyRules(sections.fields, PluginRules(plugins)).findings);
      }
    }
  }

  lemma ExtensionsHonest(plugins: seq<Plugin>)
    requires OrdinaryPlugins(plugins)
    ensures Honest(ExtensionsTreat(plugins))
  {
    forall v ensures HonestAt(ExtensionsTreat(plugins), v) {
      if v.Obj? { ExtensionsHonestAt(plugins, v.fields); }
    }
  }

  /** An object with fewer fields, or fewer fields inside its fields, is written differently. */
  lemma LighterDiffers(o: seq<Field>, after: seq<Field>)
    requires |after| < |o| || TotalWeight(after) < TotalWeight(o)
    ensures PrintedFields(after) != PrintedFields(o)
  {
    PrintedLength(o);
    PrintedLength(after);
    PrintedWeight(o);
    PrintedWeight(after);
  }

  lemma SectionsTold(plugins: seq<Plugin>, o: seq<Field>)
    requires OrdinaryPlugins(plugins)
    ensures var sections := WithoutScalars(o, o);
      var t := ApplyRules(sections.fields, PluginRules(plugins));
      if HasFix(sections.findings + t.findings) then |t.fields| < |o| || TotalWeight(t.fields) < TotalWeight(o)
      else t.fields == o
  {
    var sections := WithoutScalars(o, o);
    forall e | e in o ensures HasKey(o, e.key) { HasOwnKey(o, e); }
    ScalarsGo(o, o);
    SectionsShrink(sections.fields, plugins);
    HasFixAppend(sections.findings, ApplyRules(sections.fields, PluginRules(plugins)).findings);
  }

  lemma ExtensionsHonestAt(plugins: seq<Plugin>, o: seq<Field>)
    requires OrdinaryPlugins(plugins)
    ensures HonestAt(ExtensionsTreat(plugins), Obj(o))
  {
    SectionsTold(plugins, o);
    var sections := WithoutScalars(o, o);
    var t := ApplyRules(sections.fields, PluginRules(plugins));
    if HasFix(sections.findings + t.findings) { LighterDiffers(o, t.fields); }
  }

  /** Plugins with plain schemas, of which only the last of a name has a root `enum`. */
  predicate PlainPlugins(plugins: seq<Plugin>) {
    && (forall i :: 0 <= i < |plugins| ==> PlainPlugin(plugins[i]))
    && (forall i, j :: 0 <= i < j < |plugins| ==> Compatible(plugins[i], plugins[j]))
  }

  predicate PlainPlugin(p: Plugin) { p.name != PROTO && (p.schema.Some? ==> PlainSchema(p.schema.value)) }

  lemma PlainAreOrdinary(plugins: seq<Plugin>)
    requires PlainPlugins(plugins)
    ensures OrdinaryPlugins(plugins)
  {
    forall i | 0 <= i < |plugins| ensures OrdinaryPlugin(plugins[i]) {
      assert PlainPlugin(plugins[i]);
      if plugins[i].schema.Some? { PlainIsOrdinary(plugins[i].schema.value); }
    }
  }

  /** A later plugin of the same name may purge what this one has passed. */
  predicate Compatible(p: Plugin, later: Plugin) {
    p.schema.Some? && later.schema.Some? && p.name == later.name ==> p.schema.value.allows == None
  }

  lemma QuietSection(schema: Schema, v: Json)
    ensures Quiet(SectionTreat(schema), v) <==> (v.Obj? ==> NoneRemovable(schema, v.fields))
  {
    if v.Obj? {
      PurgeIff(v.fields, Errors(schema, v.fields));
      PurgeShrinks(v.fields, Errors(schema, v.fields));
    }
  }

  /** One plugin's purge leaves the section of another quiet if it was. */
  lemma QuietAfterPurge(t: Treated, q: Plugin, p: Plugin)
    requires q.schema.Some? && p.schema.Some? && PlainSchema(q.schema.value) && Compatible(q, p)
    requires QuietAt(t.fields, Rule(q.name, SectionTreat(q.schema.value)))
    ensures QuietAt(ApplyRule(t, Rule(p.name, SectionTreat(p.schema.value))).fields, Rule(q.name, SectionTreat(q.schema.value)))
  {
    RuleTouches(t, Rule(p.name, SectionTreat(p.schema.value)), q.name);
    var found := Lookup(t.fields, q.name);
    if found.Some? && q.name == p.name && found.value.Obj? {
      var section, errors := found.value.fields, Errors(p.schema.value, found.value.fields);
      QuietSection(q.schema.value, found.value);
      StaysPurged(q.schema.value, section, errors);
      QuietSection(q.schema.value, Obj(Purge(section, errors).fields));
    }
  }

  lemma {:induction false} PluginsStayQuiet(t: Treated, plugins: seq<Plugin>, p: Plugin)
    requires p.schema.Some? && QuietOn(t.fields, PluginRules(plugins))
    requires forall i :: 0 <= i < |plugins| ==> PlainPlugin(plugins[i])
    requires forall i :: 0 <= i < |plugins| ==> Compatible(plugins[i], p)
    ensures QuietOn(ApplyRule(t, Rule(p.name, SectionTreat(p.schema.value))).fields, PluginRules(plugins))
  {
    if plugins == [] {
    } else {
      var init, q := plugins[..|plugins| - 1], plugins[|plugins| - 1];
      var rules := PluginRules(init);
      if q.schema.Some? {
        assert (rules + [Rule(q.name, SectionTreat(q.schema.value))])[..|rules|] == rules;
        PluginsStayQuiet(t, init, p);
        QuietAfterPurge(t, q, p);
      } else {
        assert PluginRules(plugins) == rules;
        PluginsStayQuiet(t, init, p);
      }
    }
  }

  /** A plugin's own purge leaves its section quiet. */
  lemma QuietOwnSection(t: Treated, p: Plugin)
    requires p.schema.Some? && PlainSchema(p.schema.value)
    ensures var rule := Rule(p.name, SectionTreat(p.schema.value)); QuietAt(ApplyRule(t, rule).fields, rule)
  {
    RuleTouches(t, Rule(p.name, SectionTreat(p.schema.value)), p.name);
    var found := Lookup(t.fields, p.name);
    if found.Some? && found.value.Obj? {
      PurgeSuffices(p.schema.value, found.value.fields);
      QuietSection(p.schema.value, Obj(Purge(found.value.fields, Errors(p.schema.value, found.value.fields)).fields));
    }
  }

  /** After the plugins' pass every plugin finds its section quiet. */
  lemma {:induction false} PluginsQuieten(o: seq<Field>, plugins: seq<Plugin>)
    requires PlainPlugins(plugins)
    ensures QuietOn(ApplyRules(o, PluginRules(plugins)).fields, PluginRules(plugins))
  {
    if plugins == [] {
    } else {
      var init, p := plugins[..|plugins| - 1], plugins[|plugins| - 1];
      PluginsQuieten(o, init);
      var rules := PluginRules(init);
      if p.schema.Some? {
        assert (rules + [Rule(p.name, SectionTreat(p.schema.value))])[..|rules|] == rules;
        forall i | 0 <= i < |init| ensures Compatible(init[i], p) { assert init[i] == plugins[i]; }
        PluginsStayQuiet(ApplyRules(o, rules), init, p);
        QuietOwnSection(ApplyRules(o, rules), p);
      } else {
        assert PluginRules(plugins) == rules;
      }
    }
  }

  lemma ExtensionsSettled(plugins: seq<Plugin>)
    requires PlainPlugins(plugins)
    ensures Settled(ExtensionsTreat(plugins))
  {
    forall v ensures SettledAt(ExtensionsTreat(plugins), v) {
      if v.Obj? { ExtensionsSettledAt(plugins, v.fields); }
    }
  }

  lemma ExtensionsSettledAt(plugins: seq<Plugin>, o: seq<Field>)
    requires PlainPlugins(plugins)
    ensures SettledAt(ExtensionsTreat(plugins), Obj(o))
  {
    var sections := WithoutScalars(o, o).fields;
    var after := ApplyRules(sections, PluginRules(plugins)).fields;
    forall f | f in sections ensures f.value.Obj? { ObjectsStay(o, o, f); }
    AllObjectsFrom(sections);
    SectionsShrink(sections, plugins);
    forall f | f in after ensures f.value.Obj? { EachObject(after, f); }
    NoScalars(after, after);
    PluginsQuieten(sections, plugins);
    QuietRules(after, PluginRules(plugins));
    HasFixAppend([], ApplyRules(after, PluginRules(plugins)).findings);
  }
}
