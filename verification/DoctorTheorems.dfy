/** What diagnosing promises: `changed` tells whether anything was fixed, and repairing
    reaches a fixpoint. */
module DoctorTheorems {
  import opened Prelude
  import opened Json
  import opened ConfigRepair
  import opened ConfigDoctor
  import opened DoctorSections

  // ------------------------------------------------------ the top-level rules

  lemma TopRulesDistinct(tools: Tools, plugins: seq<Plugin>)
    ensures DistinctRules(TopRules(tools, plugins))
  {
    var rules := TopRules(tools, plugins);
    assert |rules[0].key| == 7 && |rules[1].key| == 5 && |rules[2].key| == 11 && |rules[3].key| == 4;
    assert |rules[4].key| == 14 && |rules[5].key| == 11 && |rules[6].key| == 13 && |rules[7].key| == 8;
    assert |rules[8].key| == 5 && |rules[9].key| == 8 && |rules[10].key| == 7 && |rules[11].key| == 10;
    assert rules[0].key[0] == 'v' && rules[10].key[0] == 'p';
    assert rules[1].key[0] == 'h' && rules[8].key[0] == 'm';
    assert rules[2].key[0] == 'd' && rules[5].key[0] == 'c';
    assert rules[7].key[0] == 'p' && rules[9].key[0] == 'a';
    DistinctFromPairs(rules);
  }

  lemma FirstRulesTrusted(tools: Tools)
    ensures HonestRules(FirstRules(tools)) && SettledRules(FirstRules(tools))
  {
    ScalarsTrusted(tools);
    EnumTrusted(["global", "project"]);
    NumbersTrusted(tools);
    RulesFromEach(FirstRules(tools));
  }

  lemma TopRulesHonest(tools: Tools, plugins: seq<Plugin>)
    requires OrdinaryPlugins(plugins)
    ensures HonestRules(TopRules(tools, plugins))
  {
    FirstRulesTrusted(tools);
    ScalarsTrusted(tools);
    AutonomyTrusted(tools);
    EntriesTrusted(tools);
    ExtensionsHonest(plugins);
    RulesFromEach(LastRules(tools, plugins));
    RulesAppend(FirstRules(tools), LastRules(tools, plugins));
  }

  lemma LastRulesReport(tools: Tools, plugins: seq<Plugin>)
    ensures ReportingRules(LastRules(tools, plugins))
  {
    ScalarsTrusted(tools);
    AutonomyTrusted(tools);
    EntriesTrusted(tools);
    HonestReports(StringTreat);
    HonestReports(ObjectTreat(AutonomyRules(tools)));
    HonestReports(ArrayTreat(EntryTreat));
    ExtensionsReport(plugins);
    RulesFromEach(LastRules(tools, plugins));
  }

  lemma TopRulesReport(tools: Tools, plugins: seq<Plugin>)
    ensures ReportingRules(TopRules(tools, plugins))
  {
    FirstRulesTrusted(tools);
    HonestRulesReport(FirstRules(tools));
    LastRulesReport(tools, plugins);
    RulesAppend(FirstRules(tools), LastRules(tools, plugins));
  }

  lemma TopRulesSettled(tools: Tools, plugins: seq<Plugin>)
    requires PlainPlugins(plugins)
    ensures SettledRules(TopRules(tools, plugins))
  {
    FirstRulesTrusted(tools);
    ScalarsTrusted(tools);
    AutonomyTrusted(tools);
    EntriesTrusted(tools);
    ExtensionsSettled(plugins);
    RulesFromEach(LastRules(tools, plugins));
    RulesAppend(FirstRules(tools), LastRules(tools, plugins));
  }

  // ----------------------------------------------------------------- renames

  lemma {:induction false} ListedAt(keys: seq<string>, i: nat)
    requires i < |keys|
    ensures Listed(keys, keys[i])
  {
    if i == 0 {
    } else {
      ListedAt(keys[1..], i - 1);
    }
  }

  lemma RenameTouches(t: Treated, key: string, lower: string -> string, q: string)
    ensures var n := RenameOne(t, key, lower);
      HasKey(n.fields, q) <==>
        if Renames(t.fields, key, lower) then q == MatchFor(key, lower).value || (HasKey(t.fields, q) && q != key)
        else HasKey(t.fields, q)
    ensures HasFix(RenameOne(t, key, lower).findings) <==> HasFix(t.findings) || Renames(t.fields, key, lower)
    ensures !Renames(t.fields, key, lower) ==> RenameOne(t, key, lower).fields == t.fields
  {
    if !Known(key) {
      var last := RenameOne(t, key, lower).findings[|t.findings|];
      HasFixAppend(t.findings, [last]);
      OneFix(last);
      if Renames(t.fields, key, lower) {
        HasLookup(t.fields, key);
        var m := MatchFor(key, lower).value;
        var withMatch := Assign(t.fields, m, Lookup(t.fields, key).value);
        AssignLookup(t.fields, m, Lookup(t.fields, key).value, q);
        OmitLookup(withMatch, key, q);
      }
    }
  }

  /** No rename reported, nothing changed; otherwise an unknown key is gone for good. */
  lemma {:induction false} RenamesHonest(o: seq<Field>, keys: seq<string>, lower: string -> string) returns (u: string)
    ensures var t := RenameAll(o, keys, lower);
      if HasFix(t.findings) then !Known(u) && HasKey(o, u) && !HasKey(t.fields, u) else t.fields == o
  {
    u := "";
    if keys == [] {
    } else {
      var init, key := keys[..|keys| - 1], keys[|keys| - 1];
      u := RenamesHonest(o, init, lower);
      var t := RenameAll(o, init, lower);
      if !HasFix(t.findings) && Renames(t.fields, key, lower) { u := key; }
      RenameTouches(t, key, lower, u);
    }
  }

  /** Where a key of the renamed object comes from. */
  ghost predicate Origin(cfg: seq<Field>, o: seq<Field>, lower: string -> string, key: string, u: string) {
    HasKey(cfg, key) || (HasKey(cfg, u) && !Known(u) && !HasKey(o, u) && lower(u) == lower(key))
  }

  lemma {:induction false} Origins(cfg: seq<Field>, keys: seq<string>, lower: string -> string, key: string) returns (u: string)
    requires forall k :: k in keys ==> HasKey(cfg, k)
    requires HasKey(RenameAll(cfg, keys, lower).fields, key)
    ensures Origin(cfg, RenameAll(cfg, keys, lower).fields, lower, key, u)
  {
    u := "";
    if keys == [] {
    } else {
      var init, last := keys[..|keys| - 1], keys[|keys| - 1];
      assert keys == init + [last];
      var t := RenameAll(cfg, init, lower);
      RenameTouches(t, last, lower, key);
      if HasKey(t.fields, key) {
        u := Origins(cfg, init, lower, key);
      } else {
        u := last;
      }
      RenameTouches(t, last, lower, u);
    }
  }

  /** Top-level keys distinct ignoring case. */
  ghost predicate DistinctFolded(cfg: seq<Field>, lower: string -> string) {
    forall a, b :: HasKey(cfg, a) && HasKey(cfg, b) && lower(a) == lower(b) ==> a == b
  }

  /** An unknown key still there finds its match's name free. */
  lemma {:induction false} NameIsFree(cfg: seq<Field>, keys: seq<string>, lower: string -> string, u: string)
    requires DistinctFolded(cfg, lower) && forall k :: k in keys ==> HasKey(cfg, k)
    requires HasKey(cfg, u) && !Known(u) && MatchFor(u, lower).Some? && HasKey(RenameAll(cfg, keys, lower).fields, u)
    ensures Renames(RenameAll(cfg, keys, lower).fields, u, lower)
  {
    var m := MatchFor(u, lower).value;
    if HasKey(RenameAll(cfg, keys, lower).fields, m) { var from := Origins(cfg, keys, lower, m); }
  }

  /** With such keys every unknown key that has a match is renamed. */
  lemma {:induction false} RenamesComplete(cfg: seq<Field>, keys: seq<string>, lower: string -> string, u: string)
    requires DistinctFolded(cfg, lower) && forall k :: k in keys ==> HasKey(cfg, k)
    requires u in keys && !Known(u) && MatchFor(u, lower).Some?
    ensures !HasKey(RenameAll(cfg, keys, lower).fields, u)
  {
    var init, last := keys[..|keys| - 1], keys[|keys| - 1];
    assert keys == init + [last];
    var t := RenameAll(cfg, init, lower);
    RenameTouches(t, last, lower, u);
    if u in init {
      RenamesComplete(cfg, init, lower, u);
    } else if HasKey(t.fields, u) {
      NameIsFree(cfg, init, lower, u);
    }
  }

  lemma {:induction false} KeysHave(o: seq<Field>, q: string)
    ensures q in FieldKeys(o) <==> HasKey(o, q)
  {
    if o == [] {
    } else {
      assert FieldKeys(o) == [o[0].key] + FieldKeys(o[1..]);
      KeysHave(o[1..], q);
    }
  }

  lemma NoMatchLeft(cfg: seq<Field>, lower: string -> string, u: string)
    requires DistinctFolded(cfg, lower)
    requires HasKey(RenameAll(cfg, FieldKeys(cfg), lower).fields, u) && !Known(u)
    ensures MatchFor(u, lower) == None
  {
    forall k | k in FieldKeys(cfg) ensures HasKey(cfg, k) { KeysHave(cfg, k); }
    var from := Origins(cfg, FieldKeys(cfg), lower, u);
    if MatchFor(u, lower).Some? {
      if HasKey(cfg, u) {
        KeysHave(cfg, u);
        RenamesComplete(cfg, FieldKeys(cfg), lower, u);
      } else {
        OnlyKnownAdded(cfg, FieldKeys(cfg), lower, u);
      }
    }
  }

  lemma {:induction false} OnlyKnownAdded(cfg: seq<Field>, keys: seq<string>, lower: string -> string, q: string)
    ensures HasKey(RenameAll(cfg, keys, lower).fields, q) ==> HasKey(cfg, q) || Known(q)
  {
    if keys == [] {
    } else {
      OnlyKnownAdded(cfg, keys[..|keys| - 1], lower, q);
      RenameTouches(RenameAll(cfg, keys[..|keys| - 1], lower), keys[|keys| - 1], lower, q);
    }
  }

  /** A rename is reported exactly when some key can be renamed as things stand. */
  lemma {:induction false} RenameIff(o: seq<Field>, keys: seq<string>, lower: string -> string)
    ensures HasFix(RenameAll(o, keys, lower).findings) <==> exists k :: k in keys && Renames(o, k, lower)
    ensures !HasFix(RenameAll(o, keys, lower).findings) ==> RenameAll(o, keys, lower).fields == o
  {
    if keys == [] {
    } else {
      var init, last := keys[..|keys| - 1], keys[|keys| - 1];
      assert keys == init + [last];
      RenameIff(o, init, lower);
      RenameTouches(RenameAll(o, init, lower), last, lower, last);
    }
  }

  lemma {:induction false} ScanOnlyWarns(o: seq<Field>, prefix: seq<Segment>, isSecret: string -> bool)
    ensures !HasFix(Secrets(o, prefix, isSecret))
    decreases o
  {
    if o == [] {
    } else {
      var f := o[0];
      ScanOnlyWarns(o[1..], prefix, isSecret);
      if f.value.Obj? { ScanOnlyWarns(f.value.fields, prefix + [Key(f.key)], isSecret); }
      OneFix(Finding(prefix + [Key(f.key)], Warning, None));
      HasFixAppend(SecretsIn(f, prefix, isSecret), Secrets(o[1..], prefix, isSecret));
    }
  }

  // ------------------------------------------------------------ the theorems

  lemma FixesIn(cfg: seq<Field>, plugins: seq<Plugin>, tools: Tools)
    ensures var r := RenameAll(cfg, FieldKeys(cfg), tools.lower);
      HasFix(Diagnose(cfg, plugins, tools).findings) <==>
      HasFix(r.findings) || HasFix(ApplyRules(r.fields, TopRules(tools, plugins)).findings)
  {
    var r := RenameAll(cfg, FieldKeys(cfg), tools.lower);
    var t := ApplyRules(r.fields, TopRules(tools, plugins));
    HasFixAppend(r.findings, t.findings);
    HasFixAppend(r.findings + t.findings, Secrets(t.fields, [], tools.isSecret));
    ScanOnlyWarns(t.fields, [], tools.isSecret);
  }

  /** For every configuration and any plugins, nothing changes without a finding that
      carries a fix. */
  lemma UnfixedIsUnchanged(cfg: seq<Field>, plugins: seq<Plugin>, tools: Tools)
    ensures var d := Diagnose(cfg, plugins, tools);
      !HasFix(d.findings) ==> !d.changed && d.fixed == cfg
  {
    var rules := TopRules(tools, plugins);
    var r := RenameAll(cfg, FieldKeys(cfg), tools.lower);
    FixesIn(cfg, plugins, tools);
    if !HasFix(Diagnose(cfg, plugins, tools).findings) {
      var u := RenamesHonest(cfg, FieldKeys(cfg), tools.lower);
      TopRulesReport(tools, plugins);
      RulesKeep(cfg, rules);
    }
  }

  /** And with ordinary plugins the report says `changed` exactly when some finding
      carries a fix. */
  lemma ChangedIffFixed(cfg: seq<Field>, plugins: seq<Plugin>, tools: Tools)
    requires OrdinaryPlugins(plugins)
    ensures var d := Diagnose(cfg, plugins, tools);
      && (d.changed <==> HasFix(d.findings))
      && (!d.changed ==> d.fixed == cfg)
  {
    var rules := TopRules(tools, plugins);
    var r := RenameAll(cfg, FieldKeys(cfg), tools.lower);
    var fixed := ApplyRules(r.fields, rules).fields;
    FixesIn(cfg, plugins, tools);
    var u := RenamesHonest(cfg, FieldKeys(cfg), tools.lower);
    if HasFix(r.findings) {
      HasLookup(cfg, u);
      HasLookup(r.fields, u);
      RulesFrame(r.fields, rules, u);
      PrintedLookup(cfg, u);
      PrintedLookup(fixed, u);
    } else {
      TopRulesDistinct(tools, plugins);
      TopRulesHonest(tools, plugins);
      RulesHonest(cfg, rules);
    }
  }

  /** A second diagnosis finds something to fix only if the repairs freed the name an
      unknown key was after. */
  lemma SettlesIff(cfg: seq<Field>, plugins: seq<Plugin>, tools: Tools)
    requires PlainPlugins(plugins)
    ensures var once := Diagnose(cfg, plugins, tools).fixed;
      var again := Diagnose(once, plugins, tools);
      && (!HasFix(again.findings) <==> forall k :: !Renames(once, k, tools.lower))
      && (!HasFix(again.findings) ==> !again.changed && again.fixed == once)
  {
    var rules, lower := TopRules(tools, plugins), tools.lower;
    var renamed := RenameAll(cfg, FieldKeys(cfg), lower).fields;
    var once := ApplyRules(renamed, rules).fields;
    RenameIff(once, FieldKeys(once), lower);
    forall k | Renames(once, k, lower) ensures k in FieldKeys(once) { KeysHave(once, k); }
    TopRulesDistinct(tools, plugins);
    TopRulesSettled(tools, plugins);
    RulesSettle(renamed, rules);
    FixesIn(once, plugins, tools);
    UnfixedIsUnchanged(once, plugins, tools);
  }

  /** The doctor reaches a fixpoint: diagnosing what it repaired reports no fix and
      changes nothing. */
  lemma DoctorSettles(cfg: seq<Field>, plugins: seq<Plugin>, tools: Tools)
    requires DistinctFolded(cfg, tools.lower) && PlainPlugins(plugins)
    ensures var once := Diagnose(cfg, plugins, tools).fixed;
      var again := Diagnose(once, plugins, tools);
      !HasFix(again.findings) && !again.changed && again.fixed == once
  {
    var lower := tools.lower;
    var renamed := RenameAll(cfg, FieldKeys(cfg), lower).fields;
    var once := ApplyRules(renamed, TopRules(tools, plugins)).fields;
    forall k ensures !Renames(once, k, lower) {
      if HasKey(once, k) && !Known(k) {
        HasLookup(once, k);
        HasLookup(renamed, k);
        RulesFrame(renamed, TopRules(tools, plugins), k);
        NoMatchLeft(cfg, lower, k);
      }
    }
    SettlesIff(cfg, plugins, tools);
  }

  lemma HintsTreated(o: seq<Field>, plugins: seq<Plugin>, tools: Tools)
    ensures Lookup(ApplyRules(o, TopRules(tools, plugins)).fields, "hints") ==
            match Lookup(o, "hints") case None => None case Some(v) => BooleanTreat(v).value
  {
    var rules := TopRules(tools, plugins);
    assert rules[1] == Rule("hints", BooleanTreat);
    TopRulesDistinct(tools, plugins);
    RulesGive(o, rules, 1);
  }

  /** `other` is an unknown spelling of `hints`. */
  predicate MisspellsHints(other: string, plugins: seq<Plugin>, tools: Tools) {
    !Known(other) && MatchFor(other, tools.lower) == Some("hints") && NoRuleFor(TopRules(tools, plugins), other)
  }

  /** `hints` is beyond repair while another spelling of it waits for the name. */
  ghost predicate FreesHints(cfg: seq<Field>, other: string, plugins: seq<Plugin>, tools: Tools) {
    && (forall k :: !Renames(cfg, k, tools.lower))
    && MisspellsHints(other, plugins, tools) && HasKey(cfg, other)
    && Lookup(cfg, "hints").Some? && CoerceBoolean(Lookup(cfg, "hints").value) == None
  }

  /** Why the keys must be distinct: the repair removes `hints`, which frees its name, and
      a second diagnosis renames the other spelling. */
  lemma FreedNameDoesNotSettle(cfg: seq<Field>, other: string, plugins: seq<Plugin>, tools: Tools)
    requires PlainPlugins(plugins)
    ensures FreesHints(cfg, other, plugins, tools) ==>
              HasFix(Diagnose(Diagnose(cfg, plugins, tools).fixed, plugins, tools).findings)
  {
    if FreesHints(cfg, other, plugins, tools) {
      var rules := TopRules(tools, plugins);
      var once := ApplyRules(cfg, rules).fields;
      RenameIff(cfg, FieldKeys(cfg), tools.lower);
      assert once == Diagnose(cfg, plugins, tools).fixed;
      HintsTreated(cfg, plugins, tools);
      RulesFrame(cfg, rules, other);
      HasLookup(cfg, other);
      HasLookup(once, other);
      HasLookup(once, "hints");
      assert Renames(once, other, tools.lower);
      SettlesIff(cfg, plugins, tools);
    }
  }

  lemma HasOne(f: Field, k: string)
    ensures HasKey([f], k) <==> k == f.key
    ensures Lookup([f], k) == if k == f.key then Some(f.value) else None
  {
    assert [f][1..] == [];
  }

  lemma OneKeyDistinct(f: Field, lower: string -> string)
    ensures DistinctFolded([f], lower)
  {
    forall a, b | HasKey([f], a) && HasKey([f], b) ensures a == b {
      HasOne(f, a);
      HasOne(f, b);
    }
  }

  lemma HasTwo(a: Field, b: Field, k: string)
    ensures HasKey([a, b], k) <==> k == a.key || k == b.key
    ensures Lookup([a, b], k) == if k == a.key then Some(a.value) else if k == b.key then Some(b.value) else None
  {
    assert [a, b][1..] == [b] && [b][1..] == [];
    assert HasKey([b], k) <==> k == b.key;
    assert Lookup([b], k) == if k == b.key then Some(b.value) else None;
  }

  lemma TwoKeysDistinct(a: Field, b: Field, lower: string -> string)
    requires lower(a.key) != lower(b.key)
    ensures DistinctFolded([a, b], lower)
  {
    forall p, q | HasKey([a, b], p) && HasKey([a, b], q) && lower(p) == lower(q) ensures p == q {
      HasTwo(a, b, p);
      HasTwo(a, b, q);
    }
  }

  lemma MaybeIsNoBoolean()
    ensures CoerceBoolean(Str("maybe")) == None
  {
    assert |"maybe"| == 5 && |"true"| == 4 && |"on"| == 2 && |"false"| == 5 && |"off"| == 3;
    assert "maybe"[0] == 'm' && "false"[0] == 'f';
  }

  /** The smallest such configuration: `{"hints": "maybe", "HINTS": true}`, `other` being
      the second spelling. */
  lemma CollidingKeys(other: string, plugins: seq<Plugin>, tools: Tools)
    requires PlainPlugins(plugins)
    ensures var cfg := [Field("hints", Str("maybe")), Field(other, Bool(true))];
      MisspellsHints(other, plugins, tools) ==>
        HasFix(Diagnose(Diagnose(cfg, plugins, tools).fixed, plugins, tools).findings)
  {
    if MisspellsHints(other, plugins, tools) {
      var a, b := Field("hints", Str("maybe")), Field(other, Bool(true));
      MaybeIsNoBoolean();
      HasTwo(a, b, "hints");
      HasTwo(a, b, other);
      forall k ensures !Renames([a, b], k, tools.lower) { HasTwo(a, b, k); }
      FreedNameDoesNotSettle([a, b], other, plugins, tools);
    }
  }

  // ------------------------------------ the second spelling, with ASCII folding

  lemma {:induction false} FirstMatchAt(known: seq<string>, key: string, lower: string -> string, k: nat)
    requires k < |known| && lower(known[k]) == lower(key) && forall i :: 0 <= i < k ==> lower(known[i]) != lower(key)
    ensures FirstMatch(known, key, lower) == Some(known[k])
  {
    if k == 0 {
    } else {
      FirstMatchAt(known[1..], key, lower, k - 1);
    }
  }

  lemma {:induction false} NotListed(keys: seq<string>, key: string)
    requires forall i :: 0 <= i < |keys| ==> keys[i] != key
    ensures !Listed(keys, key)
  {
    if keys == [] {
    } else {
      NotListed(keys[1..], key);
    }
  }

  predicate StartsLower(s: string) { s != "" && 'a' <= s[0] <= 'z' }

  lemma KnownStartLower(i: nat)
    requires i < |KNOWN_TOP_LEVEL_KEYS|
    ensures StartsLower(KNOWN_TOP_LEVEL_KEYS[i])
  {
  }

  /** Folded, the word starts with other letters or has another length. */
  predicate UnlikeHints(s: string) { |s| != 5 || (LowerChar(s[0]), LowerChar(s[1])) != ('h', 'i') }

  lemma KnownUnlikeHints(i: nat)
    requires i < 22
    ensures UnlikeHints(KNOWN_TOP_LEVEL_KEYS[i])
  {
  }

  lemma HintsFolded(s: string)
    ensures UnlikeHints(s) ==> Lower(s) != Lower("HINTS")
    ensures Lower("hints") == Lower("HINTS")
  {
    assert Lower("HINTS")[0] == 'h' && Lower("HINTS")[1] == 'i';
    if |s| == 5 { assert Lower(s)[0] == LowerChar(s[0]) && Lower(s)[1] == LowerChar(s[1]); }
  }

  lemma UpperHasNoRule(plugins: seq<Plugin>, tools: Tools)
    ensures NoRuleFor(TopRules(tools, plugins), "HINTS")
  {
    var rules := TopRules(tools, plugins);
    forall i | 0 <= i < |rules| ensures rules[i].key != "HINTS" { assert StartsLower(rules[i].key); }
    NoRuleFromEach(rules, "HINTS");
  }

  lemma UpperUnknown()
    ensures !Known("HINTS")
  {
    forall i | 0 <= i < |KNOWN_TOP_LEVEL_KEYS| ensures KNOWN_TOP_LEVEL_KEYS[i] != "HINTS" {
      KnownStartLower(i);
    }
    NotListed(KNOWN_TOP_LEVEL_KEYS, "HINTS");
  }

  lemma HintsAt()
    ensures |KNOWN_TOP_LEVEL_KEYS| > 22 && KNOWN_TOP_LEVEL_KEYS[22] == "hints"
  {
  }

  lemma UpperMatches(known: seq<string>)
    requires |known| > 22 && known[22] == "hints" && forall i :: 0 <= i < 22 ==> UnlikeHints(known[i])
    ensures FirstMatch(known, "HINTS", Lower) == Some("hints")
  {
    forall i | 0 <= i < 22 ensures Lower(known[i]) != Lower("HINTS") { HintsFolded(known[i]); }
    HintsFolded("hints");
    FirstMatchAt(known, "HINTS", Lower, 22);
  }

  lemma UpperMatchesHints()
    ensures MatchFor("HINTS", Lower) == Some("hints")
  {
    HintsAt();
    forall i | 0 <= i < 22 ensures UnlikeHints(KNOWN_TOP_LEVEL_KEYS[i]) { KnownUnlikeHints(i); }
    UpperMatches(KNOWN_TOP_LEVEL_KEYS);
  }

  /** `{"hints": "maybe", "HINTS": true}` itself, with ASCII case folding. */
  lemma HintsAndHINTS(plugins: seq<Plugin>, tools: Tools)
    requires PlainPlugins(plugins) && tools.lower == Lower
    ensures var cfg := [Field("hints", Str("maybe")), Field("HINTS", Bool(true))];
      HasFix(Diagnose(Diagnose(cfg, plugins, tools).fixed, plugins, tools).findings)
  {
    UpperUnknown();
    UpperMatchesHints();
    UpperHasNoRule(plugins, tools);
    CollidingKeys("HINTS", plugins, tools);
  }
}
