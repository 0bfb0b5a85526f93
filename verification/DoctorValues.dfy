/** What a repair writes (packages/cli/src/config-doctor.ts): field by field, which values
    stay, which are replaced and by what, and which are removed; which key a misspelled one
    becomes; and where the scan finds a secret. */
module DoctorValues {
  import opened Prelude
  import opened Json
  import opened Sorting
  import opened ConfigRepair
  import opened ConfigDoctor
  import opened DoctorTheorems
  import opened DoctorValidity
  import opened DoctorSaved

  // ------------------------------------------------------------ single values

  predicate SaysYes(v: Json) { v == Bool(true) || v == Str("true") || v == Str("on") || v == Number(Finite(1.0)) }

  predicate SaysNo(v: Json) { v == Bool(false) || v == Str("false") || v == Str("off") || v == Number(Finite(0.0)) }

  /** A switch that says yes or no is that boolean afterwards; any other is gone. */
  ghost predicate SwitchRepaired(was: Option<Json>, now: Option<Json>) {
    && (now == Some(Bool(true)) <==> was.Some? && SaysYes(was.value))
    && (now == Some(Bool(false)) <==> was.Some? && SaysNo(was.value))
    && (now == None <==> was == None || !(SaysYes(was.value) || SaysNo(was.value)))
  }

  /** A choice stays when it is one of the allowed ones. */
  ghost predicate ChoiceRepaired(allowed: set<string>, was: Option<Json>, now: Option<Json>) {
    now == if was.Some? && was.value.Str? && was.value.s in allowed then was else None
  }

  /** The number a value stands for: its own, or that of a text that is not blank. */
  ghost predicate Denotes(v: Json, n: Num, tools: Tools) {
    || v == Number(n)
    || (v.Str? && (exists i :: 0 <= i < |v.s| && v.s[i] !in {' ', '\t', '\n', '\r'}) && tools.toNumber(v.s) == Some(n))
  }

  /** `m` is the whole number at or below `n`, and not below 0. */
  ghost predicate FlooredTo(n: Num, m: Num) {
    match n
    case PosInf => m == PosInf
    case NegInf => m == Finite(0.0)
    case Finite(r) =>
      m.Finite? && m.r.Floor as real == m.r && if r < 0.0 then m.r == 0.0 else m.r <= r < m.r + 1.0
  }

  /** `m` is the whole number nearest to `n`, halves upwards, and not below 0. */
  ghost predicate RoundedTo(n: Num, m: Num) {
    match n
    case PosInf => m == PosInf
    case NegInf => m == Finite(0.0)
    case Finite(r) =>
      m.Finite? && m.r.Floor as real == m.r && if r < 0.0 then m.r == 0.0 else m.r - 0.5 <= r < m.r + 0.5
  }

  ghost predicate CountRepaired(was: Option<Json>, now: Option<Json>, tools: Tools) {
    && (forall n :: was.Some? && Denotes(was.value, n, tools) ==> now.Some? && now.value.Number? && FlooredTo(n, now.value.n))
    && (now == None <==> was == None || forall n :: !Denotes(was.value, n, tools))
  }

  /** A number that is not negative stays, whole or not; anything else is rounded. */
  ghost predicate DelayRepaired(was: Option<Json>, now: Option<Json>, tools: Tools) {
    && (forall n :: was.Some? && Denotes(was.value, n, tools) ==>
          if was.value == Number(n) && (n == PosInf || (n.Finite? && n.r >= 0.0)) then now == was
          else now.Some? && now.value.Number? && RoundedTo(n, now.value.n))
    && (now == None <==> was == None || forall n :: !Denotes(was.value, n, tools))
  }

  lemma SwitchValue(v: Json)
    ensures SwitchRepaired(Some(v), BooleanTreat(v).value)
  {
  }

  lemma {:induction false} TrimLeftBlank(s: string)
    ensures TrimLeft(s) != "" <==> exists i :: 0 <= i < |s| && s[i] !in {' ', '\t', '\n', '\r'}
    ensures TrimLeft(s) != "" ==> TrimLeft(s)[0] !in {' ', '\t', '\n', '\r'}
  {
    if s == "" {
    } else if IsBlank(s[0]) {
      TrimLeftBlank(s[1..]);
      assert forall i :: 0 < i < |s| ==> s[i] == s[1..][i - 1];
      assert forall i :: 0 <= i < |s| - 1 ==> s[1..][i] == s[i + 1];
    } else {
      assert s[0] !in {' ', '\t', '\n', '\r'};
    }
  }

  lemma {:induction false} TrimRightKeeps(s: string)
    requires s != "" && s[0] !in {' ', '\t', '\n', '\r'}
    ensures TrimRight(s) != ""
  {
    if !IsBlank(s[|s| - 1]) {
    } else {
      assert |s| > 1;
      TrimRightKeeps(s[..|s| - 1]);
    }
  }

  lemma Reads(v: Json, tools: Tools)
    ensures forall n :: Denotes(v, n, tools) <==> CoerceNumber(tools, v) == Some(n)
  {
    if v.Str? {
      TrimLeftBlank(v.s);
      if TrimLeft(v.s) != "" { TrimRightKeeps(TrimLeft(v.s)); }
    }
  }

  lemma CountValue(v: Json, tools: Tools)
    ensures CountRepaired(Some(v), CountTreat(tools)(v).value, tools)
  {
    Reads(v, tools);
  }

  lemma DelayValue(v: Json, tools: Tools)
    ensures DelayRepaired(Some(v), DelayTreat(tools)(v).value, tools)
  {
    Reads(v, tools);
  }

  // ---------------------------------------------------------- top-level fields

  lemma TopFieldRepaired(cfg: seq<Field>, plugins: seq<Plugin>, tools: Tools, i: nat)
    requires i < |TopRules(tools, plugins)|
    ensures var rule := TopRules(tools, plugins)[i];
      Lookup(Diagnose(cfg, plugins, tools).fixed, rule.key) ==
      match Lookup(Renamed(cfg, tools), rule.key) case None => None case Some(v) => rule.treat(v).value
  {
    TopRulesDistinct(tools, plugins);
    RulesGive(Renamed(cfg, tools), TopRules(tools, plugins), i);
  }

  /** The four switches, read in the renamed configuration and in the repaired one. */
  lemma SwitchesKeepTheirMeaning(cfg: seq<Field>, plugins: seq<Plugin>, tools: Tools, key: string)
    requires key in {"hints", "debugStream", "yolo", "nextPrediction"}
    ensures SwitchRepaired(Lookup(Renamed(cfg, tools), key), Lookup(Diagnose(cfg, plugins, tools).fixed, key))
  {
    var was := Lookup(Renamed(cfg, tools), key);
    var i := if key == "hints" then 1 else if key == "debugStream" then 2 else if key == "yolo" then 3 else 4;
    assert TopRules(tools, plugins)[i] == Rule(key, BooleanTreat);
    TopFieldRepaired(cfg, plugins, tools, i);
    if was.Some? { SwitchValue(was.value); }
  }

  /** A switch the configuration itself holds, misspelled keys or not. */
  lemma HeldSwitchesKeepTheirMeaning(cfg: seq<Field>, plugins: seq<Plugin>, tools: Tools, key: string)
    requires key in {"hints", "debugStream", "yolo", "nextPrediction"} && HasKey(cfg, key)
    ensures SwitchRepaired(Lookup(cfg, key), Lookup(Diagnose(cfg, plugins, tools).fixed, key))
  {
    SwitchesKeepTheirMeaning(cfg, plugins, tools, key);
    SwitchesAreKnown(key);
    RenamesKeep(cfg, FieldKeys(cfg), tools.lower, key);
  }

  lemma SwitchesAreKnown(key: string)
    requires key in {"hints", "debugStream", "yolo", "nextPrediction"}
    ensures Known(key)
  {
    assert KNOWN_TOP_LEVEL_KEYS[22] == "hints" && KNOWN_TOP_LEVEL_KEYS[23] == "debugStream";
    assert KNOWN_TOP_LEVEL_KEYS[18] == "yolo" && KNOWN_TOP_LEVEL_KEYS[19] == "nextPrediction";
    ListedAt(KNOWN_TOP_LEVEL_KEYS, 22);
    ListedAt(KNOWN_TOP_LEVEL_KEYS, 23);
    ListedAt(KNOWN_TOP_LEVEL_KEYS, 18);
    ListedAt(KNOWN_TOP_LEVEL_KEYS, 19);
  }

  /** The other scalars: the version is 1 wherever there is one, the scope is one of two
      words, the bound a whole number, and a provider or model is never touched. */
  lemma ScalarsRepaired(cfg: seq<Field>, plugins: seq<Plugin>, tools: Tools)
    ensures var o, r := Renamed(cfg, tools), Diagnose(cfg, plugins, tools).fixed;
      && Lookup(r, "version") == (if HasKey(o, "version") then Some(Number(Finite(1.0))) else None)
      && ChoiceRepaired({"global", "project"}, Lookup(o, "configScope"), Lookup(r, "configScope"))
      && CountRepaired(Lookup(o, "maxConcurrent"), Lookup(r, "maxConcurrent"), tools)
      && Lookup(r, "provider") == Lookup(o, "provider") && Lookup(r, "model") == Lookup(o, "model")
  {
    var o, rules := Renamed(cfg, tools), TopRules(tools, plugins);
    assert rules[0].key == "version" && rules[5].key == "configScope" && rules[6].key == "maxConcurrent";
    assert rules[7].key == "provider" && rules[8].key == "model";
    TopFieldRepaired(cfg, plugins, tools, 0);
    TopFieldRepaired(cfg, plugins, tools, 5);
    TopFieldRepaired(cfg, plugins, tools, 6);
    TopFieldRepaired(cfg, plugins, tools, 7);
    TopFieldRepaired(cfg, plugins, tools, 8);
    HasLookup(o, "version");
    var count := Lookup(o, "maxConcurrent");
    if count.Some? { CountValue(count.value, tools); }
  }

  // ------------------------------------------------------------- nested fields

  /** The six checked fields of the autonomy block; every other one is as it was. */
  ghost predicate AutonomyRepaired(o: seq<Field>, r: seq<Field>, tools: Tools) {
    && ChoiceRepaired({"off", "suggest", "auto"}, Lookup(o, "defaultMode"), Lookup(r, "defaultMode"))
    && ChoiceRepaired({"original", "english"}, Lookup(o, "enhanceLanguage"), Lookup(r, "enhanceLanguage"))
    && SwitchRepaired(Lookup(o, "enhance"), Lookup(r, "enhance"))
    && DelayRepaired(Lookup(o, "autoProceedDelayMs"), Lookup(r, "autoProceedDelayMs"), tools)
    && DelayRepaired(Lookup(o, "enhanceDelayMs"), Lookup(r, "enhanceDelayMs"), tools)
    && Lookup(r, "thinkingWord") == WordRepaired(Lookup(o, "thinkingWord"), tools)
    && forall k :: !AutonomyKey(k) ==> Lookup(r, k) == Lookup(o, k)
  }

  predicate AutonomyKey(k: string) {
    k in {"defaultMode", "enhanceLanguage", "enhance", "autoProceedDelayMs", "enhanceDelayMs", "thinkingWord"}
  }

  /** A word stays when it is its own normal form. */
  ghost function WordRepaired(was: Option<Json>, tools: Tools): Option<Json> {
    if was.Some? && was.value.Str? && tools.normalizeWord(was.value) == was.value.s then was else None
  }

  lemma AutonomyRulesDistinct(tools: Tools)
    ensures DistinctRules(AutonomyRules(tools))
  {
    var rules := AutonomyRules(tools);
    assert |rules[0].key| == 11 && |rules[1].key| == 15 && |rules[2].key| == 7;
    assert |rules[3].key| == 18 && |rules[4].key| == 14 && |rules[5].key| == 12;
    DistinctFromPairs(rules);
  }

  lemma AutonomyFieldValue(o: seq<Field>, tools: Tools, i: nat)
    requires i < 6
    ensures var rule := AutonomyRules(tools)[i];
      Lookup(ApplyRules(o, AutonomyRules(tools)).fields, rule.key) ==
      match Lookup(o, rule.key) case None => None case Some(v) => rule.treat(v).value
  {
    AutonomyRulesDistinct(tools);
    RulesGive(o, AutonomyRules(tools), i);
  }

  lemma AutonomyWords(o: seq<Field>, tools: Tools)
    ensures var r := ApplyRules(o, AutonomyRules(tools)).fields;
      && ChoiceRepaired({"off", "suggest", "auto"}, Lookup(o, "defaultMode"), Lookup(r, "defaultMode"))
      && ChoiceRepaired({"original", "english"}, Lookup(o, "enhanceLanguage"), Lookup(r, "enhanceLanguage"))
      && Lookup(r, "thinkingWord") == WordRepaired(Lookup(o, "thinkingWord"), tools)
  {
    var rules := AutonomyRules(tools);
    assert rules[0].key == "defaultMode" && rules[1].key == "enhanceLanguage" && rules[5].key == "thinkingWord";
    AutonomyFieldValue(o, tools, 0);
    AutonomyFieldValue(o, tools, 1);
    AutonomyFieldValue(o, tools, 5);
  }

  lemma AutonomyNumbers(o: seq<Field>, tools: Tools)
    ensures var r := ApplyRules(o, AutonomyRules(tools)).fields;
      && SwitchRepaired(Lookup(o, "enhance"), Lookup(r, "enhance"))
      && DelayRepaired(Lookup(o, "autoProceedDelayMs"), Lookup(r, "autoProceedDelayMs"), tools)
      && DelayRepaired(Lookup(o, "enhanceDelayMs"), Lookup(r, "enhanceDelayMs"), tools)
  {
    var rules := AutonomyRules(tools);
    assert rules[2].key == "enhance" && rules[3].key == "autoProceedDelayMs" && rules[4].key == "enhanceDelayMs";
    AutonomyFieldValue(o, tools, 2);
    AutonomyFieldValue(o, tools, 3);
    AutonomyFieldValue(o, tools, 4);
    var enhance, first, second := Lookup(o, "enhance"), Lookup(o, "autoProceedDelayMs"), Lookup(o, "enhanceDelayMs");
    if enhance.Some? { SwitchValue(enhance.value); }
    if first.Some? { DelayValue(first.value, tools); }
    if second.Some? { DelayValue(second.value, tools); }
  }

  lemma AutonomyOthers(o: seq<Field>, tools: Tools, k: string)
    requires !AutonomyKey(k)
    ensures Lookup(ApplyRules(o, AutonomyRules(tools)).fields, k) == Lookup(o, k)
  {
    NoRuleFromEach(AutonomyRules(tools), k);
    RulesFrame(o, AutonomyRules(tools), k);
  }

  lemma AutonomyFields(o: seq<Field>, r: seq<Field>, tools: Tools)
    requires r == ApplyRules(o, AutonomyRules(tools)).fields
    ensures AutonomyRepaired(o, r, tools)
  {
    AutonomyWords(o, tools);
    AutonomyNumbers(o, tools);
    forall k | !AutonomyKey(k) ensures Lookup(r, k) == Lookup(o, k) { AutonomyOthers(o, tools, k); }
  }

  /** An object with a name that is text: what a plugin entry has to be, unless it is text. */
  predicate IsEntry(v: Json) {
    v.Str? || (v.Obj? && match Lookup(v.fields, "name") case Some(n) => n.Str? case None => false)
  }

  /** A text stays; in an object the switch is coerced and options that are no object go. */
  ghost predicate EntryRepaired(v: Json, w: Json) {
    if v.Str? then w == v
    else
      && v.Obj? && w.Obj?
      && SwitchRepaired(Lookup(v.fields, "enabled"), Lookup(w.fields, "enabled"))
      && Lookup(w.fields, "options") == ObjectOrNothing(Lookup(v.fields, "options"))
      && forall k :: k !in {"enabled", "options"} ==> Lookup(w.fields, k) == Lookup(v.fields, k)
  }

  ghost function ObjectOrNothing(was: Option<Json>): Option<Json> {
    if was.Some? && was.value.Obj? then was else None
  }

  lemma EntryFields(o: seq<Field>)
    ensures EntryRepaired(Obj(o), Obj(ApplyRules(o, ENTRY_RULES).fields))
  {
    assert |ENTRY_RULES[0].key| == 7 && ENTRY_RULES[0].key[0] == 'e' && ENTRY_RULES[1].key[0] == 'o';
    DistinctFromPairs(ENTRY_RULES);
    RulesGive(o, ENTRY_RULES, 0);
    RulesGive(o, ENTRY_RULES, 1);
    var enabled := Lookup(o, "enabled");
    if enabled.Some? { SwitchValue(enabled.value); }
    forall k | k !in {"enabled", "options"} ensures Lookup(ApplyRules(o, ENTRY_RULES).fields, k) == Lookup(o, k) {
      NoRuleFromEach(ENTRY_RULES, k);
      RulesFrame(o, ENTRY_RULES, k);
    }
  }

  lemma EntryValue(v: Json)
    ensures var w := EntryTreat(v).value; (w.Some? <==> IsEntry(v)) && (w.Some? ==> EntryRepaired(v, w.value))
  {
    if v.Obj? { EntryFields(v.fields); }
  }

  /** The entries kept, in order, are those that are entries, each repaired. */
  ghost predicate EntriesRepaired(items: seq<Json>, kept: seq<Json>) {
    var good := Filter(items, IsEntry);
    |kept| == |good| && forall i :: 0 <= i < |good| ==> EntryRepaired(good[i], kept[i])
  }

  lemma {:induction false} EntriesSifted(items: seq<Json>)
    ensures EntriesRepaired(items, Sift(items, EntryTreat).kept)
  {
    if items == [] {
    } else {
      EntriesSifted(items[..|items| - 1]);
      EntryValue(items[|items| - 1]);
    }
  }

  /** The autonomy block and the plugin list: removed when they are no object and no
      array, and repaired inside otherwise. */
  lemma SectionsRepaired(cfg: seq<Field>, plugins: seq<Plugin>, tools: Tools)
    ensures var o, r := Renamed(cfg, tools), Diagnose(cfg, plugins, tools).fixed;
      && (match Lookup(o, "autonomy")
          case Some(Obj(before)) =>
            (match Lookup(r, "autonomy") case Some(Obj(after)) => AutonomyRepaired(before, after, tools) case _ => false)
          case _ => Lookup(r, "autonomy") == None)
      && (match Lookup(o, "plugins")
          case Some(Arr(before)) =>
            (match Lookup(r, "plugins") case Some(Arr(after)) => EntriesRepaired(before, after) case _ => false)
          case _ => Lookup(r, "plugins") == None)
      && (Lookup(r, "extensions").Some? <==> Lookup(o, "extensions").Some? && Lookup(o, "extensions").value.Obj?)
      && (Lookup(r, "extensions").Some? ==> Lookup(r, "extensions").value.Obj?)
  {
    var o, rules := Renamed(cfg, tools), TopRules(tools, plugins);
    assert rules[9].key == "autonomy" && rules[10].key == "plugins" && rules[11].key == "extensions";
    TopFieldRepaired(cfg, plugins, tools, 9);
    TopFieldRepaired(cfg, plugins, tools, 10);
    TopFieldRepaired(cfg, plugins, tools, 11);
    var autonomy, entries := Lookup(o, "autonomy"), Lookup(o, "plugins");
    if autonomy.Some? && autonomy.value.Obj? { AutonomyFields(autonomy.value.fields, ApplyRules(autonomy.value.fields, AutonomyRules(tools)).fields, tools); }
    if entries.Some? && entries.value.Arr? { EntriesSifted(entries.value.items); }
  }

  // ---------------------------------------------------------------- renaming

  /** The first known name, in the order of the list, that reads alike ignoring case. */
  lemma {:induction false} FirstAlike(known: seq<string>, key: string, lower: string -> string)
    ensures match FirstMatch(known, key, lower)
      case None => forall i :: 0 <= i < |known| ==> lower(known[i]) != lower(key)
      case Some(m) => exists i :: 0 <= i < |known| && known[i] == m && lower(m) == lower(key) &&
                                  forall j :: 0 <= j < i ==> lower(known[j]) != lower(key)
  {
    if known == [] {
    } else if lower(known[0]) == lower(key) {
      assert known[0] == FirstMatch(known, key, lower).value;
    } else {
      var rest := known[1..];
      FirstAlike(rest, key, lower);
      assert forall i :: 0 < i < |known| ==> known[i] == rest[i - 1];
      match FirstMatch(rest, key, lower)
      case None =>
      case Some(m) =>
        var i :| 0 <= i < |rest| && rest[i] == m && lower(m) == lower(key) &&
                 forall j :: 0 <= j < i ==> lower(rest[j]) != lower(key);
        assert known[i + 1] == m;
    }
  }

  /** The first of the keys that is unknown and reads like `k`. */
  function Taker(keys: seq<string>, lower: string -> string, k: string): Option<string> {
    if keys == [] then None
    else
      var before, last := Taker(keys[..|keys| - 1], lower, k), keys[|keys| - 1];
      if before.Some? then before
      else if !Known(last) && MatchFor(last, lower) == Some(k) then Some(last)
      else None
  }

  /** What a key reads after the renames: a known one keeps its value or takes that of the
      first misspelled key, which is gone then; nothing else moves. */
  function RenamedValue(cfg: seq<Field>, keys: seq<string>, lower: string -> string, q: string): Option<Json> {
    if HasKey(cfg, q) then
      if !Known(q) && MatchFor(q, lower).Some? && !HasKey(cfg, MatchFor(q, lower).value) &&
         Taker(keys, lower, MatchFor(q, lower).value) == Some(q)
      then None else Lookup(cfg, q)
    else match Taker(keys, lower, q) case Some(u) => Lookup(cfg, u) case None => None
  }

  lemma {:induction false} TakerIsAKey(cfg: seq<Field>, keys: seq<string>, lower: string -> string, k: string)
    ensures Taker(keys, lower, k).Some? ==>
              var u := Taker(keys, lower, k).value; u in keys && !Known(u) && MatchFor(u, lower) == Some(k) && Known(k)
    ensures Taker(keys, lower, k) == None ==> forall u :: u in keys ==> Known(u) || MatchFor(u, lower) != Some(k)
  {
    if keys == [] {
    } else {
      TakerIsAKey(cfg, keys[..|keys| - 1], lower, k);
      assert keys == keys[..|keys| - 1] + [keys[|keys| - 1]];
    }
  }

  lemma RenameMoves(t: Treated, key: string, lower: string -> string, q: string)
    ensures var m := MatchFor(key, lower);
      Lookup(RenameOne(t, key, lower).fields, q) ==
      if !Renames(t.fields, key, lower) then Lookup(t.fields, q)
      else if q == m.value then Lookup(t.fields, key)
      else if q == key then None
      else Lookup(t.fields, q)
  {
    if Renames(t.fields, key, lower) {
      HasLookup(t.fields, key);
      var m, v := MatchFor(key, lower).value, Lookup(t.fields, key).value;
      AssignLookup(t.fields, m, v, q);
      OmitLookup(Assign(t.fields, m, v), key, q);
    }
  }

  /** The first misspelled key is renamed while its match's name is not in use. */
  lemma FirstTakes(cfg: seq<Field>, init: seq<string>, last: string, lower: string -> string)
    requires HasKey(cfg, last) && forall k :: k in init ==> HasKey(cfg, k)
    requires !Known(last) && MatchFor(last, lower).Some?
    ensures var m, t := MatchFor(last, lower).value, RenameAll(cfg, init, lower);
      Renames(t.fields, last, lower) <==> !HasKey(cfg, m) && Taker(init, lower, m) == None
    decreases |init| + 1, 0
  {
    var m, t := MatchFor(last, lower).value, RenameAll(cfg, init, lower);
    RenamesMove(cfg, init, lower, last);
    RenamesMove(cfg, init, lower, m);
    HasLookup(t.fields, last);
    HasLookup(t.fields, m);
    HasLookup(cfg, m);
    HasLookup(cfg, last);
    TakerIsAKey(cfg, init, lower, m);
    if Taker(init, lower, m).Some? { HasLookup(cfg, Taker(init, lower, m).value); }
  }

  lemma {:induction false} RenamesMove(cfg: seq<Field>, keys: seq<string>, lower: string -> string, q: string)
    requires forall k :: k in keys ==> HasKey(cfg, k)
    ensures Lookup(RenameAll(cfg, keys, lower).fields, q) == RenamedValue(cfg, keys, lower, q)
    decreases |keys|, 1
  {
    HasLookup(cfg, q);
    if keys == [] {
    } else {
      var init, last := keys[..|keys| - 1], keys[|keys| - 1];
      assert forall k :: k in init ==> k in keys;
      assert last in keys;
      RenamesMove(cfg, init, lower, q);
      if !Known(last) && MatchFor(last, lower).Some? {
        RenamesMove(cfg, init, lower, last);
        RenameMoves(RenameAll(cfg, init, lower), last, lower, q);
        FirstTakes(cfg, init, last, lower);
        TakerIsAKey(cfg, init, lower, q);
      }
    }
  }

  /** What every key of the renamed configuration reads. */
  lemma RenamedReads(cfg: seq<Field>, tools: Tools, q: string)
    ensures Lookup(Renamed(cfg, tools), q) == RenamedValue(cfg, FieldKeys(cfg), tools.lower, q)
  {
    forall k | k in FieldKeys(cfg) ensures HasKey(cfg, k) { KeysHave(cfg, k); }
    RenamesMove(cfg, FieldKeys(cfg), tools.lower, q);
  }

  // ------------------------------------------------------------------ secrets

  /** Following the names through nested objects leads to a text that is a secret by its
      last name, not empty and not encrypted. */
  ghost predicate PlainSecret(o: seq<Field>, names: seq<string>, isSecret: string -> bool)
    decreases |names|, 1
  {
    names != [] && exists f :: f in o && f.key == names[0] && PlainSecretIn(f.value, names, isSecret)
  }

  ghost predicate PlainSecretIn(v: Json, names: seq<string>, isSecret: string -> bool)
    requires names != []
    decreases |names|, 0
  {
    if |names| == 1 then v.Str? && v.s != "" && isSecret(names[0]) && !("enc:v1:" <= v.s)
    else v.Obj? && PlainSecret(v.fields, names[1..], isSecret)
  }

  ghost function PathTo(names: seq<string>): seq<Segment> { seq(|names|, i requires 0 <= i < |names| => Key(names[i])) }

  ghost predicate Warns(fs: seq<Finding>, path: seq<Segment>) { Finding(path, Warning, None) in fs }

  /** The scan warns of a path exactly when it leads to a plaintext secret. */
  lemma {:induction false} SecretsAreFound(o: seq<Field>, prefix: seq<Segment>, names: seq<string>, isSecret: string -> bool)
    ensures Warns(Secrets(o, prefix, isSecret), prefix + PathTo(names)) <==> PlainSecret(o, names, isSecret)
    decreases o
  {
    if o == [] {
    } else {
      SecretsAreFound(o[1..], prefix, names, isSecret);
      SecretFound(o[0], prefix, names, isSecret);
      assert o == [o[0]] + o[1..];
    }
  }

  lemma {:induction false} SecretFound(f: Field, prefix: seq<Segment>, names: seq<string>, isSecret: string -> bool)
    ensures Warns(SecretsIn(f, prefix, isSecret), prefix + PathTo(names)) <==>
            names != [] && f.key == names[0] && PlainSecretIn(f.value, names, isSecret)
    decreases f
  {
    var below, path := prefix + [Key(f.key)], prefix + PathTo(names);
    if names != [] && f.key == names[0] {
      assert path == below + PathTo(names[1..]);
      assert path == below <==> |names| == 1;
      if f.value.Obj? { SecretsAreFound(f.value.fields, below, names[1..], isSecret); }
    } else {
      assert |path| == |prefix| + |names| && (names != [] ==> path[|prefix|] == Key(names[0]));
      assert below[|prefix|] == Key(f.key) && |below| == |prefix| + 1;
      if f.value.Obj? && Warns(Secrets(f.value.fields, below, isSecret), path) {
        SecretsStartWith(f.value.fields, below, isSecret, path);
      }
    }
  }

  lemma {:induction false} SecretsStartWith(o: seq<Field>, prefix: seq<Segment>, isSecret: string -> bool, path: seq<Segment>)
    requires Warns(Secrets(o, prefix, isSecret), path)
    ensures |prefix| < |path| && prefix == path[..|prefix|]
    decreases o
  {
    if Warns(Secrets(o[1..], prefix, isSecret), path) {
      SecretsStartWith(o[1..], prefix, isSecret, path);
    } else {
      var below := prefix + [Key(o[0].key)];
      assert Warns(SecretsIn(o[0], prefix, isSecret), path);
      if path != below {
        SecretsStartWith(o[0].value.fields, below, isSecret, path);
        assert below[..|prefix|] == prefix && path[..|below|][..|prefix|] == path[..|prefix|];
      }
    }
  }
}
