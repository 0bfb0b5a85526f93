/** Repairs as packages/cli/src/config-doctor.ts makes them: a value is kept, replaced or
    removed, and each repair reports a finding. What makes a repair trustworthy is
    stated once, for values, for the fields of an object and for the entries of an
    array. */
module ConfigRepair {
  import opened Prelude
  import opened Json

  /** A step of a finding's dot path. */
  datatype Segment = Key(name: string) | Index(at: nat)

  datatype Severity = Error | Warning

  datatype Fix = RenamedTo(key: string) | SetTo(value: Json) | Removed

  datatype Finding = Finding(path: seq<Segment>, severity: Severity, fix: Option<Fix>)

  /** Some finding carries a fix. */
  predicate HasFix(fs: seq<Finding>) {
    fs != [] && (fs[|fs| - 1].fix.Some? || HasFix(fs[..|fs| - 1]))
  }

  lemma {:induction false} HasFixAppend(a: seq<Finding>, b: seq<Finding>)
    ensures HasFix(a + b) <==> HasFix(a) || HasFix(b)
  {
    if b == [] {
      assert a + b == a;
    } else {
      HasFixAppend(a, b[..|b| - 1]);
      assert (a + b)[..|a + b| - 1] == a + b[..|b| - 1];
    }
  }

  /** The same findings one level further down. */
  function Under(s: Segment, fs: seq<Finding>): seq<Finding> {
    if fs == [] then []
    else Under(s, fs[..|fs| - 1]) + [fs[|fs| - 1].(path := [s] + fs[|fs| - 1].path)]
  }

  lemma {:induction false} HasFixUnder(s: Segment, fs: seq<Finding>)
    ensures HasFix(Under(s, fs)) <==> HasFix(fs)
  {
    if fs == [] {
    } else {
      var init, last := Under(s, fs[..|fs| - 1]), fs[|fs| - 1].(path := [s] + fs[|fs| - 1].path);
      HasFixUnder(s, fs[..|fs| - 1]);
      assert (init + [last])[..|init|] == init;
    }
  }

  // ------------------------------------------------------------- treatments

  /** What becomes of a value, and what is reported; paths are relative to it. */
  datatype Treatment = Treatment(value: Option<Json>, findings: seq<Finding>)

  function Kept(v: Json): Treatment { Treatment(Some(v), []) }

  function Flagged(v: Json): Treatment { Treatment(Some(v), [Finding([], Error, None)]) }

  function Repaired(v: Json): Treatment { Treatment(Some(v), [Finding([], Error, Some(SetTo(v)))]) }

  const DROPPED: Treatment := Treatment(None, [Finding([], Error, Some(Removed))])

  /** A fix is reported exactly when what is written changes. */
  ghost predicate HonestAt(treat: Json -> Treatment, v: Json) {
    var t := treat(v);
    if HasFix(t.findings) then t.value == None || Printed(t.value.value) != Printed(v)
    else t.value == Some(v)
  }

  ghost predicate Honest(treat: Json -> Treatment) { forall v :: HonestAt(treat, v) }

  /** Nothing changes without a fix being reported. */
  predicate ReportingAt(treat: Json -> Treatment, v: Json) { !HasFix(treat(v).findings) ==> treat(v).value == Some(v) }

  ghost predicate Reporting(treat: Json -> Treatment) { forall v :: ReportingAt(treat, v) }

  predicate Quiet(treat: Json -> Treatment, v: Json) {
    treat(v).value == Some(v) && !HasFix(treat(v).findings)
  }

  /** What is left of a value needs no further repair. */
  ghost predicate SettledAt(treat: Json -> Treatment, v: Json) {
    treat(v).value.Some? ==> Quiet(treat, treat(v).value.value)
  }

  ghost predicate Settled(treat: Json -> Treatment) { forall v :: SettledAt(treat, v) }

  // ----------------------------------------------------- fields of an object

  datatype Rule = Rule(key: string, treat: Json -> Treatment)

  datatype Treated = Treated(fields: seq<Field>, findings: seq<Finding>)

  function Store(o: seq<Field>, key: string, v: Option<Json>): seq<Field> {
    match v case None => Omit(o, key) case Some(w) => Assign(o, key, w)
  }

  function ApplyRule(t: Treated, rule: Rule): Treated {
    match Lookup(t.fields, rule.key)
    case None => t
    case Some(v) =>
      var r := rule.treat(v);
      Treated(Store(t.fields, rule.key, r.value), t.findings + Under(Key(rule.key), r.findings))
  }

  function ApplyRules(o: seq<Field>, rules: seq<Rule>): Treated {
    if rules == [] then Treated(o, []) else ApplyRule(ApplyRules(o, rules[..|rules| - 1]), rules[|rules| - 1])
  }

  /** No rule is about `key`. */
  predicate NoRuleFor(rules: seq<Rule>, key: string) {
    rules == [] || (rules[|rules| - 1].key != key && NoRuleFor(rules[..|rules| - 1], key))
  }

  predicate DistinctRules(rules: seq<Rule>) {
    rules == [] || (NoRuleFor(rules[..|rules| - 1], rules[|rules| - 1].key) && DistinctRules(rules[..|rules| - 1]))
  }

  ghost predicate HonestRules(rules: seq<Rule>) {
    rules == [] || (HonestRules(rules[..|rules| - 1]) && Honest(rules[|rules| - 1].treat))
  }

  ghost predicate ReportingRules(rules: seq<Rule>) {
    rules == [] || (ReportingRules(rules[..|rules| - 1]) && Reporting(rules[|rules| - 1].treat))
  }

  ghost predicate SettledRules(rules: seq<Rule>) {
    rules == [] || (SettledRules(rules[..|rules| - 1]) && Settled(rules[|rules| - 1].treat))
  }

  lemma {:induction false} RulesFromEach(rules: seq<Rule>)
    ensures (forall i :: 0 <= i < |rules| ==> Honest(rules[i].treat)) ==> HonestRules(rules)
    ensures (forall i :: 0 <= i < |rules| ==> Reporting(rules[i].treat)) ==> ReportingRules(rules)
    ensures (forall i :: 0 <= i < |rules| ==> Settled(rules[i].treat)) ==> SettledRules(rules)
  {
    if rules == [] {
    } else {
      RulesFromEach(rules[..|rules| - 1]);
    }
  }

  lemma HonestReports(treat: Json -> Treatment)
    requires Honest(treat)
    ensures Reporting(treat)
  {
    forall v ensures ReportingAt(treat, v) { assert HonestAt(treat, v); }
  }

  lemma {:induction false} HonestRulesReport(rules: seq<Rule>)
    requires HonestRules(rules)
    ensures ReportingRules(rules)
  {
    if rules == [] {
    } else {
      HonestRulesReport(rules[..|rules| - 1]);
      HonestReports(rules[|rules| - 1].treat);
    }
  }

  lemma {:induction false} RulesAppend(a: seq<Rule>, b: seq<Rule>)
    ensures HonestRules(a) && HonestRules(b) ==> HonestRules(a + b)
    ensures ReportingRules(a) && ReportingRules(b) ==> ReportingRules(a + b)
    ensures SettledRules(a) && SettledRules(b) ==> SettledRules(a + b)
  {
    if b == [] {
      assert a + b == a;
    } else {
      RulesAppend(a, b[..|b| - 1]);
      assert (a + b)[..|a + b| - 1] == a + b[..|b| - 1];
    }
  }

  lemma {:induction false} NoRuleFromEach(rules: seq<Rule>, key: string)
    requires forall i :: 0 <= i < |rules| ==> rules[i].key != key
    ensures NoRuleFor(rules, key)
  {
    if rules == [] {
    } else {
      NoRuleFromEach(rules[..|rules| - 1], key);
    }
  }

  lemma {:induction false} DistinctFromPairs(rules: seq<Rule>)
    requires forall i, j :: 0 <= i < j < |rules| ==> rules[i].key != rules[j].key
    ensures DistinctRules(rules)
  {
    if rules == [] {
    } else {
      DistinctFromPairs(rules[..|rules| - 1]);
      NoRuleFromEach(rules[..|rules| - 1], rules[|rules| - 1].key);
    }
  }

  /** A rule touches its own key only, and adds none. */
  lemma RuleTouches(t: Treated, rule: Rule, q: string)
    ensures var r := ApplyRule(t, rule);
      Lookup(r.fields, q) == if q == rule.key && Lookup(t.fields, q).Some?
                             then rule.treat(Lookup(t.fields, q).value).value else Lookup(t.fields, q)
  {
    if Lookup(t.fields, rule.key).Some? {
      var value := rule.treat(Lookup(t.fields, rule.key).value).value;
      OmitLookup(t.fields, rule.key, q);
      if value.Some? { AssignLookup(t.fields, rule.key, value.value, q); }
    }
  }

  lemma {:induction false} RulesFrame(o: seq<Field>, rules: seq<Rule>, q: string)
    ensures NoRuleFor(rules, q) ==> Lookup(ApplyRules(o, rules).fields, q) == Lookup(o, q)
    ensures Lookup(o, q) == None ==> Lookup(ApplyRules(o, rules).fields, q) == None
  {
    if rules == [] {
    } else {
      RulesFrame(o, rules[..|rules| - 1], q);
      RuleTouches(ApplyRules(o, rules[..|rules| - 1]), rules[|rules| - 1], q);
    }
  }

  lemma RuleFindings(t: Treated, rule: Rule)
    ensures HasFix(ApplyRule(t, rule).findings) <==>
            HasFix(t.findings) ||
            (Lookup(t.fields, rule.key).Some? && HasFix(rule.treat(Lookup(t.fields, rule.key).value).findings))
  {
    if Lookup(t.fields, rule.key).Some? {
      var fs := rule.treat(Lookup(t.fields, rule.key).value).findings;
      HasFixAppend(t.findings, Under(Key(rule.key), fs));
      HasFixUnder(Key(rule.key), fs);
    }
  }

  lemma QuietRule(t: Treated, rule: Rule)
    requires Lookup(t.fields, rule.key).Some? ==> Quiet(rule.treat, Lookup(t.fields, rule.key).value)
    ensures ApplyRule(t, rule).fields == t.fields && HasFix(ApplyRule(t, rule).findings) == HasFix(t.findings)
  {
    RuleFindings(t, rule);
    if Lookup(t.fields, rule.key).Some? {
      HasLookup(t.fields, rule.key);
      AssignSame(t.fields, rule.key);
    }
  }

  /** If rules with distinct keys report a fix, some key reads differently afterwards. */
  lemma {:induction false} RulesDiffer(o: seq<Field>, rules: seq<Rule>) returns (q: string)
    requires DistinctRules(rules) && HonestRules(rules) && HasFix(ApplyRules(o, rules).findings)
    ensures PrintedAt(ApplyRules(o, rules).fields, q) != PrintedAt(o, q)
  {
    var init, last := rules[..|rules| - 1], rules[|rules| - 1];
    var t := ApplyRules(o, init);
    RuleFindings(t, last);
    RulesFrame(o, init, last.key);
    if Lookup(t.fields, last.key).Some? && HasFix(last.treat(Lookup(t.fields, last.key).value).findings) {
      q := last.key;
      assert HonestAt(last.treat, Lookup(t.fields, q).value);
    } else {
      q := RulesDiffer(o, init);
    }
    RuleTouches(t, last, q);
  }

  lemma {:induction false} RulesKeep(o: seq<Field>, rules: seq<Rule>)
    requires ReportingRules(rules) && !HasFix(ApplyRules(o, rules).findings)
    ensures ApplyRules(o, rules).fields == o
  {
    if rules == [] {
    } else {
      var init, last := rules[..|rules| - 1], rules[|rules| - 1];
      var t := ApplyRules(o, init);
      RuleFindings(t, last);
      RulesKeep(o, init);
      if Lookup(o, last.key).Some? { assert ReportingAt(last.treat, Lookup(o, last.key).value); }
      QuietRule(t, last);
    }
  }

  /** Honest rules make an honest pass over an object. */
  lemma RulesHonest(o: seq<Field>, rules: seq<Rule>)
    requires DistinctRules(rules) && HonestRules(rules)
    ensures var t := ApplyRules(o, rules);
      if HasFix(t.findings) then PrintedFields(t.fields) != PrintedFields(o) else t.fields == o
  {
    if HasFix(ApplyRules(o, rules).findings) {
      var q := RulesDiffer(o, rules);
      PrintedLookup(o, q);
      PrintedLookup(ApplyRules(o, rules).fields, q);
    } else {
      HonestRulesReport(rules);
      RulesKeep(o, rules);
    }
  }

  predicate QuietOn(o: seq<Field>, rules: seq<Rule>) {
    rules == [] ||
    (QuietOn(o, rules[..|rules| - 1]) && QuietAt(o, rules[|rules| - 1]))
  }

  lemma {:induction false} QuietFrame(o: seq<Field>, t: Treated, rule: Rule, rules: seq<Rule>)
    requires QuietOn(o, rules) && NoRuleFor(rules, rule.key) && t.fields == o
    ensures QuietOn(ApplyRule(t, rule).fields, rules)
  {
    if rules == [] {
    } else {
      QuietFrame(o, t, rule, rules[..|rules| - 1]);
      RuleTouches(t, rule, rules[|rules| - 1].key);
    }
  }

  lemma {:induction false} RulesQuieten(o: seq<Field>, rules: seq<Rule>)
    requires DistinctRules(rules) && SettledRules(rules)
    ensures QuietOn(ApplyRules(o, rules).fields, rules)
  {
    if rules == [] {
    } else {
      var init, last := rules[..|rules| - 1], rules[|rules| - 1];
      var t := ApplyRules(o, init);
      RulesQuieten(o, init);
      QuietFrame(t.fields, t, last, init);
      RuleTouches(t, last, last.key);
      if Lookup(t.fields, last.key).Some? { assert SettledAt(last.treat, Lookup(t.fields, last.key).value); }
    }
  }

  /** Rules that give every value back leave the object as it is, whatever they report. */
  lemma {:induction false} RulesGiveBack(o: seq<Field>, rules: seq<Rule>)
    requires forall i :: 0 <= i < |rules| ==> GivesBack(o, rules[i])
    ensures ApplyRules(o, rules).fields == o
  {
    if rules == [] {
    } else {
      var init, last := rules[..|rules| - 1], rules[|rules| - 1];
      RulesGiveBack(o, init);
      assert GivesBack(o, last);
      if Lookup(o, last.key).Some? {
        HasLookup(o, last.key);
        AssignSame(o, last.key);
      }
    }
  }

  predicate GivesBack(o: seq<Field>, rule: Rule) {
    Lookup(o, rule.key).Some? ==> rule.treat(Lookup(o, rule.key).value).value == Lookup(o, rule.key)
  }

  lemma {:induction false} QuietRules(o: seq<Field>, rules: seq<Rule>)
    requires QuietOn(o, rules)
    ensures ApplyRules(o, rules).fields == o && !HasFix(ApplyRules(o, rules).findings)
  {
    if rules == [] {
    } else {
      QuietRules(o, rules[..|rules| - 1]);
      QuietRule(ApplyRules(o, rules[..|rules| - 1]), rules[|rules| - 1]);
    }
  }

  /** Settled rules leave nothing for a second pass. */
  lemma RulesSettle(o: seq<Field>, rules: seq<Rule>)
    requires DistinctRules(rules) && SettledRules(rules)
    ensures var once := ApplyRules(o, rules).fields;
      ApplyRules(once, rules).fields == once && !HasFix(ApplyRules(once, rules).findings)
  {
    RulesQuieten(o, rules);
    QuietRules(ApplyRules(o, rules).fields, rules);
  }

  lemma {:induction false} NoRuleAt(rules: seq<Rule>, key: string, i: nat)
    requires NoRuleFor(rules, key) && i < |rules|
    ensures rules[i].key != key
  {
    if i >= |rules| - 1 {
    } else {
      NoRuleAt(rules[..|rules| - 1], key, i);
    }
  }

  /** Each rule has the last word on its key. */
  lemma {:induction false} RulesGive(o: seq<Field>, rules: seq<Rule>, i: nat)
    requires DistinctRules(rules) && i < |rules|
    ensures Lookup(ApplyRules(o, rules).fields, rules[i].key) ==
            match Lookup(o, rules[i].key) case None => None case Some(v) => rules[i].treat(v).value
  {
    var init, last := rules[..|rules| - 1], rules[|rules| - 1];
    RuleTouches(ApplyRules(o, init), last, rules[i].key);
    if i < |init| {
      RulesGive(o, init, i);
      NoRuleAt(init, last.key, i);
    } else {
      RulesFrame(o, init, last.key);
    }
  }

  /** Rules that report what they change report no fix exactly on an object with nothing
      to treat. */
  lemma {:induction false} NoFixIffQuiet(o: seq<Field>, rules: seq<Rule>)
    requires ReportingRules(rules)
    ensures !HasFix(ApplyRules(o, rules).findings) <==> QuietOn(o, rules)
  {
    if rules == [] {
    } else {
      var init, last := rules[..|rules| - 1], rules[|rules| - 1];
      NoFixIffQuiet(o, init);
      RuleFindings(ApplyRules(o, init), last);
      if !HasFix(ApplyRules(o, init).findings) {
        RulesKeep(o, init);
        if Lookup(o, last.key).Some? { assert ReportingAt(last.treat, Lookup(o, last.key).value); }
      }
    }
  }

  lemma {:induction false} QuietEach(o: seq<Field>, rules: seq<Rule>)
    ensures QuietOn(o, rules) <==>
            forall i :: 0 <= i < |rules| ==> QuietAt(o, rules[i])
  {
    if rules == [] {
    } else {
      QuietEach(o, rules[..|rules| - 1]);
      assert forall i :: 0 <= i < |rules| - 1 ==> rules[..|rules| - 1][i] == rules[i];
    }
  }

  predicate QuietAt(o: seq<Field>, rule: Rule) {
    Lookup(o, rule.key).Some? ==> Quiet(rule.treat, Lookup(o, rule.key).value)
  }

  /** An object is treated field by field; anything else is removed. */
  function ObjectTreat(rules: seq<Rule>): Json -> Treatment {
    (v: Json) =>
      if v.Obj? then
        var t := ApplyRules(v.fields, rules);
        Treatment(Some(Obj(t.fields)), t.findings)
      else DROPPED
  }

  lemma ObjectHonest(rules: seq<Rule>)
    requires DistinctRules(rules) && HonestRules(rules)
    ensures Honest(ObjectTreat(rules))
  {
    forall v ensures HonestAt(ObjectTreat(rules), v) {
      if v.Obj? { RulesHonest(v.fields, rules); }
    }
  }

  lemma {:induction false} ObjectSettled(rules: seq<Rule>)
    requires DistinctRules(rules) && SettledRules(rules)
    ensures Settled(ObjectTreat(rules))
  {
    forall v ensures SettledAt(ObjectTreat(rules), v) {
      if v.Obj? { RulesSettle(v.fields, rules); }
    }
  }

  lemma ObjectQuiet(rules: seq<Rule>, v: Json)
    requires HonestRules(rules)
    ensures Quiet(ObjectTreat(rules), v) <==> v.Obj? && QuietOn(v.fields, rules)
  {
    if v.Obj? {
      HonestRulesReport(rules);
      NoFixIffQuiet(v.fields, rules);
      if QuietOn(v.fields, rules) { QuietRules(v.fields, rules); }
    }
  }

  // ------------------------------------------------------ entries of an array

  datatype Sifted = Sifted(kept: seq<Json>, findings: seq<Finding>)

  function Sift(items: seq<Json>, treat: Json -> Treatment): Sifted {
    if items == [] then Sifted([], [])
    else
      var init, r := Sift(items[..|items| - 1], treat), treat(items[|items| - 1]);
      Sifted(init.kept + (if r.value.Some? then [r.value.value] else []),
             init.findings + Under(Index(|items| - 1), r.findings))
  }

  lemma SiftFindings(items: seq<Json>, treat: Json -> Treatment)
    requires items != []
    ensures HasFix(Sift(items, treat).findings) <==>
            HasFix(Sift(items[..|items| - 1], treat).findings) || HasFix(treat(items[|items| - 1]).findings)
  {
    HasFixAppend(Sift(items[..|items| - 1], treat).findings, Under(Index(|items| - 1), treat(items[|items| - 1]).findings));
    HasFixUnder(Index(|items| - 1), treat(items[|items| - 1]).findings);
  }

  lemma SameLast<T>(a: seq<T>, x: T, b: seq<T>, y: T)
    requires a + [x] == b + [y]
    ensures a == b && x == y
  {
    assert |a + [x]| == |b + [y]|;
    assert (a + [x])[..|a|] == a && (b + [y])[..|b|] == b;
    assert (a + [x])[|a|] == x;
  }

  /** Sifting with an honest treatment: nothing reported, nothing changed; otherwise the
      array is shorter, or as long and written differently. */
  lemma {:induction false} SiftHonest(items: seq<Json>, treat: Json -> Treatment)
    requires Honest(treat)
    ensures var t := Sift(items, treat);
      && |t.kept| <= |items|
      && (if HasFix(t.findings) then PrintedItems(t.kept) != PrintedItems(items) else t.kept == items)
  {
    if items == [] {
    } else {
      var init, v := items[..|items| - 1], items[|items| - 1];
      SiftHonest(init, treat);
      SiftFindings(items, treat);
      assert HonestAt(treat, v);
      assert items == init + [v];
      var t := Sift(items, treat);
      if treat(v).value.Some? {
        PrintedSnoc(Sift(init, treat).kept, treat(v).value.value);
        PrintedSnoc(init, v);
        if PrintedItems(t.kept) == PrintedItems(items) {
          SameLast(PrintedItems(Sift(init, treat).kept), Printed(treat(v).value.value), PrintedItems(init), Printed(v));
        }
      } else {
        PrintedItemsLength(t.kept);
        PrintedItemsLength(items);
      }
    }
  }

  lemma {:induction false} SiftSettled(items: seq<Json>, treat: Json -> Treatment)
    requires Settled(treat)
    ensures var once := Sift(items, treat).kept;
      Sift(once, treat).kept == once && !HasFix(Sift(once, treat).findings)
  {
    if items == [] {
    } else {
      var init, v := items[..|items| - 1], items[|items| - 1];
      SiftSettled(init, treat);
      if treat(v).value.Some? {
        var kept, w := Sift(init, treat).kept, treat(v).value.value;
        assert SettledAt(treat, v);
        assert (kept + [w])[..|kept|] == kept;
        SiftFindings(kept + [w], treat);
      } else {
        assert Sift(items, treat).kept == Sift(init, treat).kept;
      }
    }
  }

  function ArrayTreat(treat: Json -> Treatment): Json -> Treatment {
    (v: Json) =>
      if v.Arr? then
        var t := Sift(v.items, treat);
        Treatment(Some(Arr(t.kept)), t.findings)
      else DROPPED
  }

  lemma ArrayHonest(treat: Json -> Treatment)
    requires Honest(treat)
    ensures Honest(ArrayTreat(treat))
  {
    forall v ensures HonestAt(ArrayTreat(treat), v) {
      if v.Arr? { SiftHonest(v.items, treat); }
    }
  }

  lemma ArraySettled(treat: Json -> Treatment)
    requires Settled(treat)
    ensures Settled(ArrayTreat(treat))
  {
    forall v ensures SettledAt(ArrayTreat(treat), v) {
      if v.Arr? { SiftSettled(v.items, treat); }
    }
  }

  lemma {:induction false} SiftQuiet(items: seq<Json>, treat: Json -> Treatment)
    requires Honest(treat)
    ensures !HasFix(Sift(items, treat).findings) <==> forall i :: 0 <= i < |items| ==> Quiet(treat, items[i])
  {
    if items == [] {
    } else {
      SiftQuiet(items[..|items| - 1], treat);
      SiftFindings(items, treat);
      assert HonestAt(treat, items[|items| - 1]);
    }
  }

  lemma ArrayQuiet(treat: Json -> Treatment, v: Json)
    requires Honest(treat)
    ensures Quiet(ArrayTreat(treat), v) <==> v.Arr? && forall i :: 0 <= i < |v.items| ==> Quiet(treat, v.items[i])
  {
    if v.Arr? {
      SiftQuiet(v.items, treat);
      SiftHonest(v.items, treat);
    }
  }
}
