/** What the findings say (packages/cli/src/config-doctor.ts): a reported fix is what was
    written, and an error without a fix is a provider or model that is no text. */
module DoctorFindings {
  import opened Prelude
  import opened Json
  import opened ConfigRepair
  import opened ConfigDoctor
  import opened DoctorSections
  import opened DoctorTheorems
  import opened DoctorSaved
  import opened DoctorValues

  function Deeper(s: Segment, g: Finding): Finding { g.(path := [s] + g.path) }

  lemma {:induction false} UnderMembers(s: Segment, fs: seq<Finding>, f: Finding)
    ensures f in Under(s, fs) <==> exists g :: g in fs && f == Deeper(s, g)
  {
    if fs == [] {
    } else {
      var init, last := fs[..|fs| - 1], fs[|fs| - 1];
      UnderMembers(s, init, f);
      assert Under(s, fs) == Under(s, init) + [Deeper(s, last)];
      assert forall g :: g in fs <==> g in init || g == last;
    }
  }

  /** What a rule has to say of its own field. */
  ghost predicate Reports(o: seq<Field>, rule: Rule, f: Finding) {
    && Lookup(o, rule.key).Some?
    && exists g :: g in rule.treat(Lookup(o, rule.key).value).findings && f == Deeper(Key(rule.key), g)
  }

  /** What rules on distinct keys report is what each reports of its field. */
  lemma {:induction false} RulesReport(o: seq<Field>, rules: seq<Rule>, f: Finding)
    requires DistinctRules(rules)
    ensures f in ApplyRules(o, rules).findings <==> exists i :: 0 <= i < |rules| && Reports(o, rules[i], f)
  {
    if rules == [] {
    } else {
      var init, last := rules[..|rules| - 1], rules[|rules| - 1];
      RulesReport(o, init, f);
      RulesFrame(o, init, last.key);
      var v := Lookup(o, last.key);
      if v.Some? { UnderMembers(Key(last.key), last.treat(v.value).findings, f); }
      if f in ApplyRules(o, init).findings {
        var i :| 0 <= i < |init| && Reports(o, init[i], f);
        assert Reports(o, rules[i], f);
      } else {
        assert forall i :: 0 <= i < |init| ==> rules[i] == init[i];
        if Reports(o, last, f) { assert Reports(o, rules[|rules| - 1], f); }
      }
    }
  }

  /** A fix is what was done to the value: the new one, or none at all. */
  predicate Done(fix: Option<Fix>, after: Option<Json>) {
    match fix
    case Some(SetTo(w)) => after == Some(w)
    case Some(Removed) => after == None
    case _ => true
  }

  /** A treatment that says of the value itself what it did with it. */
  ghost predicate Told(treat: Json -> Treatment, v: Json) {
    forall g :: g in treat(v).findings && g.path == [] ==> Done(g.fix, treat(v).value)
  }

  predicate OneFinding(t: Treatment, v: Json) {
    t == Kept(v) || t == Flagged(v) || t == DROPPED || (t.value.Some? && t == Repaired(t.value.value))
  }

  lemma OneFindingIsTold(treat: Json -> Treatment, v: Json)
    requires OneFinding(treat(v), v)
    ensures Told(treat, v)
  {
  }

  lemma WordsAreTold(tools: Tools, allowed: seq<string>, v: Json)
    ensures Told(VersionTreat, v) && Told(EnumTreat(allowed), v) && Told(WordTreat(tools), v) && Told(StringTreat, v)
  {
    OneFindingIsTold(VersionTreat, v);
    OneFindingIsTold(EnumTreat(allowed), v);
    OneFindingIsTold(WordTreat(tools), v);
    OneFindingIsTold(StringTreat, v);
  }

  lemma ScalarsAreTold(tools: Tools, v: Json)
    ensures Told(BooleanTreat, v) && Told(CountTreat(tools), v) && Told(DelayTreat(tools), v)
  {
    OneFindingIsTold(BooleanTreat, v);
    OneFindingIsTold(CountTreat(tools), v);
    OneFindingIsTold(DelayTreat(tools), v);
  }

  lemma {:induction false} UnderDeeper(s: Segment, fs: seq<Finding>, f: Finding)
    requires f in Under(s, fs)
    ensures f.path != [] && f.path[0] == s
  {
    UnderMembers(s, fs, f);
  }

  /** What rules report lies below the object. */
  lemma {:induction false} RulesReportBelow(o: seq<Field>, rules: seq<Rule>, f: Finding)
    requires f in ApplyRules(o, rules).findings
    ensures f.path != []
  {
    var init, last := rules[..|rules| - 1], rules[|rules| - 1];
    if f in ApplyRules(o, init).findings {
      RulesReportBelow(o, init, f);
    } else {
      var v := Lookup(ApplyRules(o, init).fields, last.key);
      UnderDeeper(Key(last.key), last.treat(v.value).findings, f);
    }
  }

  lemma {:induction false} SiftReportsBelow(items: seq<Json>, treat: Json -> Treatment, f: Finding)
    requires f in Sift(items, treat).findings
    ensures f.path != []
  {
    var init, v := items[..|items| - 1], items[|items| - 1];
    if f in Sift(init, treat).findings {
      SiftReportsBelow(init, treat, f);
    } else {
      UnderDeeper(Index(|items| - 1), treat(v).findings, f);
    }
  }

  lemma {:induction false} ScalarsReportBelow(o: seq<Field>, entries: seq<Field>, f: Finding)
    requires f in WithoutScalars(o, entries).findings
    ensures f.path != []
  {
    var init := entries[..|entries| - 1];
    if f !in WithoutScalars(o, init).findings {
    } else {
      ScalarsReportBelow(o, init, f);
    }
  }

  lemma SectionsAreTold(rules: seq<Rule>, treat: Json -> Treatment, plugins: seq<Plugin>, v: Json)
    ensures Told(ObjectTreat(rules), v) && Told(ArrayTreat(treat), v) && Told(ExtensionsTreat(plugins), v)
  {
    forall g | g in ObjectTreat(rules)(v).findings && g.path == [] ensures Done(g.fix, ObjectTreat(rules)(v).value) {
      if v.Obj? { RulesReportBelow(v.fields, rules, g); }
    }
    forall g | g in ArrayTreat(treat)(v).findings && g.path == [] ensures Done(g.fix, ArrayTreat(treat)(v).value) {
      if v.Arr? { SiftReportsBelow(v.items, treat, g); }
    }
    forall g | g in ExtensionsTreat(plugins)(v).findings && g.path == [] ensures Done(g.fix, ExtensionsTreat(plugins)(v).value) {
      if v.Obj? {
        var sections := WithoutScalars(v.fields, v.fields);
        if g in sections.findings {
          ScalarsReportBelow(v.fields, v.fields, g);
        } else {
          RulesReportBelow(sections.fields, PluginRules(plugins), g);
        }
      }
    }
  }

  /** With such rules on distinct keys, a fix reported of a field is what became of it. */
  lemma RulesTold(o: seq<Field>, rules: seq<Rule>, f: Finding, k: string)
    requires DistinctRules(rules) && f.path == [Key(k)] && f in ApplyRules(o, rules).findings
    requires forall i :: 0 <= i < |rules| && Lookup(o, rules[i].key).Some? ==> Told(rules[i].treat, Lookup(o, rules[i].key).value)
    ensures Done(f.fix, Lookup(ApplyRules(o, rules).fields, k))
  {
    RulesReport(o, rules, f);
    var i :| 0 <= i < |rules| && Reports(o, rules[i], f);
    var treat, v := rules[i].treat, Lookup(o, rules[i].key).value;
    var g :| g in treat(v).findings && f == Deeper(Key(rules[i].key), g);
    assert f.path[0] == Key(rules[i].key) && |g.path| == 0;
    RulesGive(o, rules, i);
    assert Told(treat, v);
  }

  lemma {:induction false} RenamesReport(o: seq<Field>, keys: seq<string>, lower: string -> string, f: Finding)
    requires f in RenameAll(o, keys, lower).findings
    ensures |f.path| == 1 && f.path[0].Key? && !Known(f.path[0].name)
    ensures match f.fix
      case None => f.severity == Warning
      case Some(RenamedTo(m)) => f.severity == Error && Known(m) && MatchFor(f.path[0].name, lower) == Some(m)
      case _ => false
  {
    var init, last := keys[..|keys| - 1], keys[|keys| - 1];
    if f in RenameAll(o, init, lower).findings {
      RenamesReport(o, init, lower, f);
    } else {
      assert f == RenameOne(RenameAll(o, init, lower), last, lower).findings[|RenameAll(o, init, lower).findings|];
    }
  }

  lemma {:induction false} SecretsWarn(o: seq<Field>, prefix: seq<Segment>, isSecret: string -> bool, f: Finding)
    requires f in Secrets(o, prefix, isSecret)
    ensures f.severity == Warning && f.fix == None
    decreases o
  {
    if f in Secrets(o[1..], prefix, isSecret) {
      SecretsWarn(o[1..], prefix, isSecret, f);
    } else if o[0].value.Obj? {
      SecretsWarn(o[0].value.fields, prefix + [Key(o[0].key)], isSecret, f);
    }
  }

  lemma FirstRulesTold(tools: Tools, i: nat, v: Json)
    requires i < |FirstRules(tools)|
    ensures Told(FirstRules(tools)[i].treat, v)
  {
    if i == 0 || i == 5 { WordsAreTold(tools, ["global", "project"], v); } else { ScalarsAreTold(tools, v); }
  }

  lemma LastRulesTold(tools: Tools, plugins: seq<Plugin>, i: nat, v: Json)
    requires i < |LastRules(tools, plugins)|
    ensures Told(LastRules(tools, plugins)[i].treat, v)
  {
    if i < 2 { WordsAreTold(tools, [], v); } else { SectionsAreTold(AutonomyRules(tools), EntryTreat, plugins, v); }
  }

  lemma TopRulesTold(o: seq<Field>, plugins: seq<Plugin>, tools: Tools, i: nat)
    requires i < |TopRules(tools, plugins)| && Lookup(o, TopRules(tools, plugins)[i].key).Some?
    ensures Told(TopRules(tools, plugins)[i].treat, Lookup(o, TopRules(tools, plugins)[i].key).value)
  {
    var v, n := Lookup(o, TopRules(tools, plugins)[i].key).value, |FirstRules(tools)|;
    if i < n { FirstRulesTold(tools, i, v); } else { LastRulesTold(tools, plugins, i - n, v); }
  }

  /** A fix reported of a top-level key is what was done: a key set to a value holds it
      afterwards, and a removed one is gone. */
  lemma FixesAreDone(cfg: seq<Field>, plugins: seq<Plugin>, tools: Tools, f: Finding, k: string)
    requires f in Diagnose(cfg, plugins, tools).findings && f.path == [Key(k)]
    ensures Done(f.fix, Lookup(Diagnose(cfg, plugins, tools).fixed, k))
  {
    var o, rules := Renamed(cfg, tools), TopRules(tools, plugins);
    if f in ApplyRules(o, rules).findings {
      TopRulesDistinct(tools, plugins);
      forall i | 0 <= i < |rules| && Lookup(o, rules[i].key).Some? ensures Told(rules[i].treat, Lookup(o, rules[i].key).value) {
        TopRulesTold(o, plugins, tools, i);
      }
      RulesTold(o, rules, f, k);
    } else if f in RenameAll(cfg, FieldKeys(cfg), tools.lower).findings {
      RenamesReport(cfg, FieldKeys(cfg), tools.lower, f);
    } else {
      SecretsWarn(ApplyRules(o, rules).fields, [], tools.isSecret, f);
    }
  }

  /** The same inside the autonomy block. */
  lemma AutonomyFixesAreDone(o: seq<Field>, tools: Tools, f: Finding, k: string)
    requires f in ApplyRules(o, AutonomyRules(tools)).findings && f.path == [Key(k)]
    ensures Done(f.fix, Lookup(ApplyRules(o, AutonomyRules(tools)).fields, k))
  {
    var rules := AutonomyRules(tools);
    AutonomyRulesDistinct(tools);
    forall i | 0 <= i < |rules| && Lookup(o, rules[i].key).Some? ensures Told(rules[i].treat, Lookup(o, rules[i].key).value) {
      AutonomyRulesTold(tools, i, Lookup(o, rules[i].key).value);
    }
    RulesTold(o, rules, f, k);
  }

  lemma AutonomyRulesTold(tools: Tools, i: nat, v: Json)
    requires i < |AutonomyRules(tools)|
    ensures Told(AutonomyRules(tools)[i].treat, v)
  {
    WordsAreTold(tools, ["off", "suggest", "auto"], v);
    WordsAreTold(tools, ["original", "english"], v);
    ScalarsAreTold(tools, v);
  }

  lemma TextRule(tools: Tools, plugins: seq<Plugin>, k: string) returns (at: nat)
    requires k in {"provider", "model"}
    ensures at < |TopRules(tools, plugins)| && TopRules(tools, plugins)[at] == Rule(k, StringTreat)
  {
    at := if k == "provider" then 7 else 8;
    assert TopRules(tools, plugins)[7].key == "provider" && TopRules(tools, plugins)[8].key == "model";
  }

  lemma NotTextIsReported(cfg: seq<Field>, plugins: seq<Plugin>, tools: Tools, k: string)
    requires k in {"provider", "model"}
    requires Lookup(Renamed(cfg, tools), k).Some? && !Lookup(Renamed(cfg, tools), k).value.Str?
    ensures Finding([Key(k)], Error, None) in Diagnose(cfg, plugins, tools).findings
  {
    var o, rules, f, g := Renamed(cfg, tools), TopRules(tools, plugins), Finding([Key(k)], Error, None), Finding([], Error, None);
    var at := TextRule(tools, plugins, k);
    TopRulesDistinct(tools, plugins);
    RulesReport(o, rules, f);
    assert f == Deeper(Key(k), g) && g in StringTreat(Lookup(o, k).value).findings;
    assert Reports(o, rules[at], f);
  }

  lemma ErrorsAreOfRules(cfg: seq<Field>, plugins: seq<Plugin>, tools: Tools, f: Finding)
    requires f in Diagnose(cfg, plugins, tools).findings && f.severity == Error && f.fix == None
    ensures f in ApplyRules(Renamed(cfg, tools), TopRules(tools, plugins)).findings
  {
    var t := ApplyRules(Renamed(cfg, tools), TopRules(tools, plugins));
    if f in RenameAll(cfg, FieldKeys(cfg), tools.lower).findings {
      RenamesReport(cfg, FieldKeys(cfg), tools.lower, f);
    } else if f in Secrets(t.fields, [], tools.isSecret) {
      SecretsWarn(t.fields, [], tools.isSecret, f);
    }
  }

  lemma ReportedIsNotText(cfg: seq<Field>, plugins: seq<Plugin>, tools: Tools, k: string)
    requires k in {"provider", "model"} && Finding([Key(k)], Error, None) in Diagnose(cfg, plugins, tools).findings
    ensures Lookup(Renamed(cfg, tools), k).Some? && !Lookup(Renamed(cfg, tools), k).value.Str?
  {
    var o, rules, f := Renamed(cfg, tools), TopRules(tools, plugins), Finding([Key(k)], Error, None);
    var at := TextRule(tools, plugins, k);
    ErrorsAreOfRules(cfg, plugins, tools, f);
    TopRulesDistinct(tools, plugins);
    RulesReport(o, rules, f);
    var i :| 0 <= i < |rules| && Reports(o, rules[i], f);
    assert f.path[0] == Key(rules[i].key);
    RuleAtKey(tools, plugins, i, at);
  }

  /** A provider or model that is no text is reported as an error with no fix, and no
      other is. */
  lemma NamesMustBeText(cfg: seq<Field>, plugins: seq<Plugin>, tools: Tools, k: string)
    requires k in {"provider", "model"}
    ensures Finding([Key(k)], Error, None) in Diagnose(cfg, plugins, tools).findings <==>
            Lookup(Renamed(cfg, tools), k).Some? && !Lookup(Renamed(cfg, tools), k).value.Str?
  {
    if Finding([Key(k)], Error, None) in Diagnose(cfg, plugins, tools).findings { ReportedIsNotText(cfg, plugins, tools, k); }
    if Lookup(Renamed(cfg, tools), k).Some? && !Lookup(Renamed(cfg, tools), k).value.Str? { NotTextIsReported(cfg, plugins, tools, k); }
  }

  lemma {:induction false} DistinctAt(rules: seq<Rule>, i: nat, j: nat)
    requires DistinctRules(rules) && i < j < |rules|
    ensures rules[i].key != rules[j].key
  {
    if j == |rules| - 1 {
      NoRuleAt(rules[..j], rules[j].key, i);
    } else {
      DistinctAt(rules[..|rules| - 1], i, j);
    }
  }

  lemma RuleAtKey(tools: Tools, plugins: seq<Plugin>, i: nat, j: nat)
    requires i < |TopRules(tools, plugins)| && j < |TopRules(tools, plugins)|
    requires TopRules(tools, plugins)[i].key == TopRules(tools, plugins)[j].key
    ensures i == j
  {
    TopRulesDistinct(tools, plugins);
    if i < j {
      DistinctAt(TopRules(tools, plugins), i, j);
    } else if j < i {
      DistinctAt(TopRules(tools, plugins), j, i);
    }
  }

  // ------------------------------------------------------- plugin sections

  /** The section as it stands when the error at `i` is looked at. */
  function Before(section: seq<Field>, errors: seq<Issue>, i: nat): seq<Field>
    requires i <= |errors|
  {
    Purge(section, errors[..i]).fields
  }

  function ReportOf(section: seq<Field>, e: Issue): Finding {
    Finding(if e.path == "<root>" then [] else [Key(e.path)], Error, if Removable(section, e) then Some(Removed) else None)
  }

  lemma PurgeReportsLast(section: seq<Field>, errors: seq<Issue>, t: Treated, e: Issue)
    requires errors != [] && t == Purge(section, errors[..|errors| - 1]) && e == errors[|errors| - 1]
    ensures Purge(section, errors).findings == t.findings + [ReportOf(t.fields, e)]
  {
    RootNotRemovable(t.fields);
    if Removable(t.fields, e) {
      assert e.path != "<root>";
      assert Purge(section, errors).findings == t.findings + [Finding([Key(e.path)], Error, Some(Removed))];
    } else {
      assert Purge(section, errors).findings == t.findings + [Finding(PathOf(e), Error, None)];
    }
  }

  lemma {:induction false} OneReportEach(section: seq<Field>, errors: seq<Issue>)
    ensures |Purge(section, errors).findings| == |errors|
  {
    if errors == [] {
    } else {
      var init := errors[..|errors| - 1];
      OneReportEach(section, init);
      PurgeReportsLast(section, errors, Purge(section, init), errors[|init|]);
    }
  }

  /** Every schema error is reported once, in order, under its own path, and as removed
      exactly when the property it names is there to remove. */
  lemma {:induction false} EveryErrorIsReported(section: seq<Field>, errors: seq<Issue>, i: nat)
    requires i < |errors|
    ensures var fs := Purge(section, errors).findings;
      |fs| == |errors| && fs[i] == ReportOf(Before(section, errors, i), errors[i])
  {
    var init := errors[..|errors| - 1];
    OneReportEach(section, errors);
    OneReportEach(section, init);
    PurgeReportsLast(section, errors, Purge(section, init), errors[|init|]);
    if i == |init| {
    } else {
      EveryErrorIsReported(section, init, i);
      assert errors[..i] == init[..i];
    }
  }

  predicate Numeral(s: string) { s != "" && forall i :: 0 <= i < |s| ==> '0' <= s[i] <= '9' }

  lemma {:induction false} DigitsAre(s: string, end: nat)
    requires end <= |s|
    ensures var n := DigitsBefore(s, end);
      (forall i :: end - n <= i < end ==> '0' <= s[i] <= '9') && (n < end ==> !('0' <= s[end - n - 1] <= '9'))
  {
    if end == 0 || !('0' <= s[end - 1] <= '9') {
    } else {
      DigitsAre(s, end - 1);
    }
  }

  ghost predicate EndsInIndex(s: string, base: string, digits: string) {
    Numeral(digits) && s == base + "[" + digits + "]"
  }

  /** The property an error is about is its path without one index at the end. */
  lemma OneIndexIsTakenOff(s: string)
    ensures forall base, digits :: EndsInIndex(s, base, digits) ==> StripIndex(s) == base
    ensures (forall base, digits :: !EndsInIndex(s, base, digits)) ==> StripIndex(s) == s
  {
    forall base, digits | EndsInIndex(s, base, digits) ensures StripIndex(s) == base { IndexIsTakenOff(s, base, digits); }
    if StripIndex(s) != s {
      var n := DigitsBefore(s, |s| - 1);
      DigitsAre(s, |s| - 1);
      var base, digits := s[..|s| - n - 2], s[|s| - n - 1..|s| - 1];
      assert s == base + "[" + digits + "]";
      assert EndsInIndex(s, base, digits);
    }
  }

  lemma IndexIsTakenOff(s: string, base: string, digits: string)
    requires EndsInIndex(s, base, digits)
    ensures StripIndex(s) == base
  {
    var n := DigitsBefore(s, |s| - 1);
    DigitsAre(s, |s| - 1);
    assert s[|base|] == '[' && s[|s| - 1] == ']';
    assert forall i :: |base| < i < |s| - 1 ==> s[i] == digits[i - |base| - 1];
    assert n == |digits|;
    assert s[..|base|] == base;
  }
}
