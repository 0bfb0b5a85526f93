/** packages/cli/src/plugin-management.ts: the `plugins` list of the config file, where
    an entry is a bare name or an object, and the commands that edit it. */
module PluginList {
  import opened Prelude
  import opened Sorting

  datatype Plugin = Bare(spec: string) | Configured(name: string, enabled: Option<bool>, options: Option<string>)

  /** What the audit table says of a built-in plugin. */
  datatype Audit = Audit(activeByDefault: bool, canDisable: bool)

  type AuditTable = map<string, Audit>

  function NameOf(p: Plugin): string { if p.Bare? then p.spec else p.name }

  predicate Disabled(p: Plugin) { p.Configured? && p.enabled == Some(false) }

  function EntryFor(spec: string, enabled: bool): Plugin {
    if enabled then Bare(spec) else Configured(spec, Some(false), None)
  }

  predicate Named(p: Plugin, spec: string) { NameOf(p) == spec }

  /** The telegram plugin goes by two names. */
  predicate Matches(p: Plugin, spec: string) {
    if spec == "telegram" then NameOf(p) == "telegram" || NameOf(p) == "@wrongstack/telegram" else NameOf(p) == spec
  }

  predicate SingleSpelling(spec: string) { spec != "telegram" }

  function First(plugins: seq<Plugin>, p: Plugin -> bool): (at: Option<nat>)
    ensures at.Some? ==> at.value < |plugins| && p(plugins[at.value]) && forall j :: 0 <= j < at.value ==> !p(plugins[j])
    ensures at == None <==> forall j :: 0 <= j < |plugins| ==> !p(plugins[j])
  {
    if plugins == [] then None
    else if p(plugins[0]) then Some(0)
    else match First(plugins[1..], p) case None => None case Some(i) => Some(i + 1)
  }

  function Matching(spec: string): Plugin -> bool { (p: Plugin) => Matches(p, spec) }
  function Others(spec: string): Plugin -> bool { (p: Plugin) => !Matches(p, spec) }
  function WithName(spec: string): Plugin -> bool { (p: Plugin) => Named(p, spec) }
  function WithoutName(spec: string): Plugin -> bool { (p: Plugin) => !Named(p, spec) }

  predicate DefaultActive(audit: AuditTable, spec: string) { spec in audit && audit[spec].activeByDefault }

  /** The entry `Array.prototype.find` yields. */
  function FirstEntry(plugins: seq<Plugin>, p: Plugin -> bool): Option<Plugin> {
    match First(plugins, p) case None => None case Some(i) => Some(plugins[i])
  }

  /** Whether a plugin runs at boot. */
  predicate Effective(plugins: seq<Plugin>, spec: string, audit: AuditTable) {
    match FirstEntry(plugins, Matching(spec))
    case Some(e) => !Disabled(e)
    case None => DefaultActive(audit, spec)
  }

  datatype Command = Upsert(spec: string, enabled: bool) | Remove(spec: string) | Toggle(spec: string)

  /** The list after a command; None when the command reports an error. */
  function Apply(plugins: seq<Plugin>, c: Command, audit: AuditTable): Option<seq<Plugin>> {
    match c
    case Upsert(spec, enabled) =>
      (match First(plugins, WithName(spec))
       case Some(i) => Some(plugins[i := EntryFor(spec, enabled)])
       case None => Some(plugins + [EntryFor(spec, enabled)]))
    case Remove(spec) =>
      var rest := Filter(plugins, WithoutName(spec));
      if |rest| == |plugins| then None else Some(rest)
    case Toggle(spec) =>
      if spec in audit && !audit[spec].canDisable then None
      else if First(plugins, Matching(spec)) == None && spec !in audit then None
      else
        var rest := Filter(plugins, Others(spec));
        if Effective(plugins, spec, audit) then Some(rest + [Configured(spec, Some(false), None)])
        else if DefaultActive(audit, spec) then Some(rest)
        else Some(rest + [Bare(spec)])
  }

  function After(plugins: seq<Plugin>, c: Command, audit: AuditTable): seq<Plugin> {
    match Apply(plugins, c, audit) case Some(r) => r case None => plugins
  }

  function AfterAll(plugins: seq<Plugin>, cs: seq<Command>, audit: AuditTable): seq<Plugin>
    decreases |cs|
  {
    if cs == [] then plugins else AfterAll(After(plugins, cs[0], audit), cs[1..], audit)
  }

  /** An entry for the plugin: under its name, or under telegram's other one. */
  predicate Spells(p: Plugin, spec: string) {
    var name := match p case Bare(s) => s case Configured(n, _, _) => n;
    name == spec || (spec == "telegram" && name == "@wrongstack/telegram")
  }

  /** A plugin runs when its first entry does not switch it off, and without an entry when
      it is built in and on by default. */
  lemma RunsIff(plugins: seq<Plugin>, spec: string, audit: AuditTable)
    ensures Effective(plugins, spec, audit) <==>
            || (exists i :: 0 <= i < |plugins| && Spells(plugins[i], spec) && (forall j :: 0 <= j < i ==> !Spells(plugins[j], spec)) &&
                            (plugins[i].Bare? || plugins[i].enabled != Some(false)))
            || ((forall i :: 0 <= i < |plugins| ==> !Spells(plugins[i], spec)) && spec in audit && audit[spec].activeByDefault)
  {
    var at := First(plugins, Matching(spec));
    assert forall i :: 0 <= i < |plugins| ==> (Matching(spec)(plugins[i]) <==> Spells(plugins[i], spec));
    if at.Some? { assert Spells(plugins[at.value], spec); }
  }

  // ---------------------------------------------------------- the simple map

  datatype Setting = Unset | On | Off

  /** What the list says of one plugin. */
  function SettingOf(plugins: seq<Plugin>, spec: string): Setting {
    match FirstEntry(plugins, WithName(spec))
    case None => Unset
    case Some(e) => if Disabled(e) then Off else On
  }

  predicate Running(s: Setting, byDefault: bool) { s == On || (s == Unset && byDefault) }

  /** The same command on a map from plugin to setting. */
  function OnMap(s: Setting, spec: string, c: Command, audit: AuditTable): Setting {
    if c.spec != spec then s
    else match c
      case Upsert(_, enabled) => if enabled then On else Off
      case Remove(_) => Unset
      case Toggle(_) =>
        if spec in audit && !audit[spec].canDisable then s
        else if s == Unset && spec !in audit then s
        else if Running(s, DefaultActive(audit, spec)) then Off
        else if DefaultActive(audit, spec) then Unset
        else On
  }

  function OnMapAll(s: Setting, spec: string, cs: seq<Command>, audit: AuditTable): Setting
    decreases |cs|
  {
    if cs == [] then s else OnMapAll(OnMap(s, spec, cs[0], audit), spec, cs[1..], audit)
  }

  lemma {:induction false} FirstAppend(plugins: seq<Plugin>, e: Plugin, p: Plugin -> bool)
    ensures FirstEntry(plugins + [e], p) ==
            if FirstEntry(plugins, p).Some? then FirstEntry(plugins, p) else if p(e) then Some(e) else None
  {
    if plugins == [] {
    } else {
      assert (plugins + [e])[1..] == plugins[1..] + [e];
      FirstAppend(plugins[1..], e, p);
    }
  }

  /** The first match survives a filter that keeps all matches. */
  lemma {:induction false} FirstFiltered(plugins: seq<Plugin>, keep: Plugin -> bool, p: Plugin -> bool)
    ensures var rest := Filter(plugins, keep);
      && ((forall x :: p(x) ==> keep(x)) ==> FirstEntry(rest, p) == FirstEntry(plugins, p))
      && ((forall x :: p(x) ==> !keep(x)) ==> FirstEntry(rest, p) == None)
  {
    if plugins == [] {
    } else {
      var init, last := plugins[..|plugins| - 1], plugins[|plugins| - 1];
      assert plugins == init + [last];
      FirstFiltered(init, keep, p);
      FirstAppend(init, last, p);
      FirstAppend(Filter(init, keep), last, p);
      assert Filter(init, keep) + [] == Filter(init, keep);
    }
  }

  /** Overwriting the first entry of a name with another of that name. */
  /** Writing over the first entry of a name leaves the first entry of any other name. */
  lemma {:induction false} FirstUpdated(plugins: seq<Plugin>, spec: string, e: Plugin, q: string)
    requires NameOf(e) == spec && First(plugins, WithName(spec)).Some?
    ensures FirstEntry(plugins[First(plugins, WithName(spec)).value := e], WithName(q))
         == if q == spec then Some(e) else FirstEntry(plugins, WithName(q))
  {
    var i := First(plugins, WithName(spec)).value;
    var next := plugins[i := e];
    EntryStep(plugins, WithName(q));
    EntryStep(next, WithName(q));
    if i == 0 {
      assert next[1..] == plugins[1..];
    } else {
      assert next[1..] == plugins[1..][i - 1 := e];
      FirstUpdated(plugins[1..], spec, e, q);
    }
  }

  lemma EntryStep(plugins: seq<Plugin>, p: Plugin -> bool)
    requires plugins != []
    ensures FirstEntry(plugins, p) == if p(plugins[0]) then Some(plugins[0]) else FirstEntry(plugins[1..], p)
  {
  }

  lemma UpsertSets(plugins: seq<Plugin>, spec: string, enabled: bool, audit: AuditTable, q: string)
    ensures SettingOf(After(plugins, Upsert(spec, enabled), audit), q)
         == if q == spec then (if enabled then On else Off) else SettingOf(plugins, q)
  {
    var e := EntryFor(spec, enabled);
    match First(plugins, WithName(spec))
    case None => FirstAppend(plugins, e, WithName(q));
    case Some(i) => FirstUpdated(plugins, spec, e, q);
  }

  lemma RemoveUnsets(plugins: seq<Plugin>, spec: string, audit: AuditTable, q: string)
    ensures SettingOf(After(plugins, Remove(spec), audit), q) == if q == spec then Unset else SettingOf(plugins, q)
  {
    FirstFiltered(plugins, WithoutName(spec), WithName(q));
    KeptAll(plugins, WithoutName(spec));
  }

  lemma {:induction false} KeptAll(plugins: seq<Plugin>, keep: Plugin -> bool)
    ensures |Filter(plugins, keep)| <= |plugins|
    ensures |Filter(plugins, keep)| == |plugins| <==> FirstEntry(plugins, (p: Plugin) => !keep(p)) == None
  {
    if plugins == [] {
    } else {
      var init, last := plugins[..|plugins| - 1], plugins[|plugins| - 1];
      assert plugins == init + [last];
      KeptAll(init, keep);
      FirstAppend(init, last, (p: Plugin) => !keep(p));
    }
  }

  /** Taking one plugin's entries out, and possibly appending one, moves only it. */
  lemma {:induction false} RestOf(plugins: seq<Plugin>, spec: string, e: Plugin, q: string)
    requires SingleSpelling(spec) && NameOf(e) == spec
    ensures var rest := Filter(plugins, Others(spec));
      && SettingOf(rest, q) == (if q == spec then Unset else SettingOf(plugins, q))
      && SettingOf(rest + [e], q) == (if q == spec then (if Disabled(e) then Off else On) else SettingOf(plugins, q))
  {
    var rest := Filter(plugins, Others(spec));
    FirstFiltered(plugins, Others(spec), WithName(q));
    if q == spec {
      assert forall x :: WithName(q)(x) ==> !Others(spec)(x);
    } else {
      assert forall x :: WithName(q)(x) ==> Others(spec)(x);
    }
    FirstAppend(rest, e, WithName(q));
  }

  lemma ToggleSees(plugins: seq<Plugin>, spec: string, audit: AuditTable)
    requires SingleSpelling(spec)
    ensures Effective(plugins, spec, audit) <==> Running(SettingOf(plugins, spec), DefaultActive(audit, spec))
    ensures First(plugins, Matching(spec)) == None <==> SettingOf(plugins, spec) == Unset
  {
    SameFirst(plugins, spec);
  }

  lemma ToggleMoves(plugins: seq<Plugin>, spec: string, audit: AuditTable, q: string)
    requires SingleSpelling(spec)
    ensures SettingOf(After(plugins, Toggle(spec), audit), q) == OnMap(SettingOf(plugins, q), q, Toggle(spec), audit)
  {
    ToggleSees(plugins, spec, audit);
    RestOf(plugins, spec, Configured(spec, Some(false), None), q);
    RestOf(plugins, spec, Bare(spec), q);
  }

  lemma {:induction false} SameFirst(plugins: seq<Plugin>, spec: string)
    requires SingleSpelling(spec)
    ensures First(plugins, Matching(spec)) == First(plugins, WithName(spec))
  {
    if plugins == [] {
    } else {
      SameFirst(plugins[1..], spec);
    }
  }

  /** The list refines the map: after any sequence of add, enable, disable, remove and
      toggle commands on plugins with one spelling, every plugin's setting is what the
      map gives, and so is whether it runs. */
  lemma {:induction false} ListRefinesMap(plugins: seq<Plugin>, cs: seq<Command>, audit: AuditTable, q: string)
    requires forall i :: 0 <= i < |cs| ==> SingleSpelling(cs[i].spec)
    requires SingleSpelling(q)
    ensures SettingOf(AfterAll(plugins, cs, audit), q) == OnMapAll(SettingOf(plugins, q), q, cs, audit)
    ensures Effective(AfterAll(plugins, cs, audit), q, audit)
        <==> Running(OnMapAll(SettingOf(plugins, q), q, cs, audit), DefaultActive(audit, q))
    decreases |cs|
  {
    SameFirst(AfterAll(plugins, cs, audit), q);
    if cs == [] {
    } else {
      match cs[0] {
        case Upsert(spec, enabled) => UpsertSets(plugins, spec, enabled, audit, q);
        case Remove(spec) => RemoveUnsets(plugins, spec, audit, q);
        case Toggle(spec) => ToggleMoves(plugins, spec, audit, q);
      }
      assert forall i :: 0 <= i < |cs[1..]| ==> cs[1..][i] == cs[i + 1];
      ListRefinesMap(After(plugins, cs[0], audit), cs[1..], audit, q);
    }
  }

  // ---------------------------------------------------------------- toggling

  lemma {:induction false} FilterTwice(plugins: seq<Plugin>, p: Plugin -> bool)
    ensures Filter(Filter(plugins, p), p) == Filter(plugins, p)
  {
    if plugins == [] {
    } else {
      var init, last := plugins[..|plugins| - 1], plugins[|plugins| - 1];
      FilterTwice(init, p);
      FilterAppend(Filter(init, p), [last], p);
      assert Filter(init, p) + [] == Filter(init, p);
    }
  }

  lemma {:induction false} FilterOut(plugins: seq<Plugin>, spec: string)
    ensures Filter(Filter(plugins, Others(spec)), Matching(spec)) == []
  {
    if plugins == [] {
    } else {
      var init, last := plugins[..|plugins| - 1], plugins[|plugins| - 1];
      FilterOut(init, spec);
      FilterAppend(Filter(init, Others(spec)), [last], Matching(spec));
      assert Filter(init, Others(spec)) + [] == Filter(init, Others(spec));
    }
  }

  lemma DropOnly(plugins: seq<Plugin>, spec: string)
    ensures var rest := Filter(plugins, Others(spec));
      && FirstEntry(rest, Matching(spec)) == None
      && Filter(rest, Matching(spec)) == []
      && Filter(rest, Others(spec)) == rest
  {
    assert forall x :: Matching(spec)(x) ==> !Others(spec)(x);
    FirstFiltered(plugins, Others(spec), Matching(spec));
    FilterTwice(plugins, Others(spec));
    FilterOut(plugins, spec);
  }

  lemma DropAndAdd(plugins: seq<Plugin>, e: Plugin, spec: string)
    requires Matches(e, spec)
    ensures var rest := Filter(plugins, Others(spec));
      && Filter(rest + [e], Matching(spec)) == [e]
      && Filter(rest + [e], Others(spec)) == rest
      && FirstEntry(rest + [e], Matching(spec)) == Some(e)
  {
    var rest := Filter(plugins, Others(spec));
    DropOnly(plugins, spec);
    FirstAppend(rest, e, Matching(spec));
    FilterAppend(rest, [e], Others(spec));
    FilterAppend(rest, [e], Matching(spec));
    FilterOne(e, Others(spec));
    FilterOne(e, Matching(spec));
    assert rest + [] == rest && [] + [e] == [e];
  }

  /** A toggle is refused exactly for locked plugins and for unknown ones that are not
      configured. */
  lemma ToggleRefuses(plugins: seq<Plugin>, spec: string, audit: AuditTable)
    ensures Apply(plugins, Toggle(spec), audit) == None <==>
            if spec in audit then !audit[spec].canDisable else forall p :: p in plugins ==> !Matches(p, spec)
  {
  }

  /** An accepted toggle flips what runs (under either telegram spelling too), leaves at
      most one matching entry, and keeps every other entry in order. */
  lemma ToggleFlips(plugins: seq<Plugin>, spec: string, audit: AuditTable)
    requires Apply(plugins, Toggle(spec), audit).Some?
    ensures var r := Apply(plugins, Toggle(spec), audit).value;
      && (Effective(r, spec, audit) <==> !Effective(plugins, spec, audit))
      && |Filter(r, Matching(spec))| <= 1
      && Filter(r, Others(spec)) == Filter(plugins, Others(spec))
  {
    if Effective(plugins, spec, audit) {
      AddedFlips(plugins, Configured(spec, Some(false), None), spec, audit);
    } else if DefaultActive(audit, spec) {
      DroppedFlips(plugins, spec, audit);
    } else {
      AddedFlips(plugins, Bare(spec), spec, audit);
    }
  }

  lemma AddedFlips(plugins: seq<Plugin>, e: Plugin, spec: string, audit: AuditTable)
    requires Matches(e, spec)
    ensures var r := Filter(plugins, Others(spec)) + [e];
      && (Effective(r, spec, audit) <==> !Disabled(e))
      && |Filter(r, Matching(spec))| <= 1
      && Filter(r, Others(spec)) == Filter(plugins, Others(spec))
  {
    DropAndAdd(plugins, e, spec);
  }

  lemma DroppedFlips(plugins: seq<Plugin>, spec: string, audit: AuditTable)
    ensures var r := Filter(plugins, Others(spec));
      && (Effective(r, spec, audit) <==> DefaultActive(audit, spec))
      && |Filter(r, Matching(spec))| <= 1
      && Filter(r, Others(spec)) == r
  {
    DropOnly(plugins, spec);
  }

  lemma FilterOne(p: Plugin, keep: Plugin -> bool)
    ensures Filter([p], keep) == if keep(p) then [p] else []
  {
    assert ([p])[..0] == [];
  }

  /** With two spellings the map view breaks down: enabling one spelling leaves the
      plugin off while the other is listed first and disabled. */
  lemma EnableMissesOtherSpelling(audit: AuditTable)
    ensures var plugins := [Configured("telegram", Some(false), None)];
      !Effective(After(plugins, Upsert("@wrongstack/telegram", true), audit), "telegram", audit)
  {
    var plugins := [Configured("telegram", Some(false), None)];
    assert First(plugins, WithName("@wrongstack/telegram")) == None;
    FirstAppend(plugins, Bare("@wrongstack/telegram"), Matching("telegram"));
  }

  // ------------------------------------------------------------ the commands

  /** The config file the commands rewrite. */
  class PluginFile {
    var plugins: seq<Plugin>
    var features: map<string, bool>

    constructor (ps: seq<Plugin>, fs: map<string, bool>)
      ensures plugins == ps && features == fs
    {
      plugins, features := ps, fs;
    }

    method TogglePlugin(spec: string, audit: AuditTable, runtime: map<string, bool>) returns (ok: bool)
      modifies this
      ensures plugins == After(old(plugins), Toggle(spec), audit)
      ensures ok <==> Apply(old(plugins), Toggle(spec), audit).Some?
      ensures features == if ok then (runtime + old(features))["plugins" := true] else old(features)
    {
      if spec in audit && !audit[spec].canDisable { return false; }
      var idx := First(plugins, Matching(spec));
      var enabled := if idx.Some? then !Disabled(plugins[idx.value]) else spec in audit && audit[spec].activeByDefault;
      if idx == None && spec !in audit { return false; }
      var next := Filter(plugins, Others(spec));
      if enabled {
        next := next + [Configured(spec, Some(false), None)];
      } else if !(spec in audit && audit[spec].activeByDefault) {
        next := next + [Bare(spec)];
      }
      plugins := next;
      features := (runtime + features)["plugins" := true];
      return true;
    }

    method UpsertPlugin(spec: string, enabled: bool, runtime: map<string, bool>)
      modifies this
      ensures plugins == After(old(plugins), Upsert(spec, enabled), map[])
      ensures features == (runtime + old(features))["plugins" := true]
    {
      var idx := First(plugins, WithName(spec));
      if idx.Some? {
        plugins := plugins[idx.value := EntryFor(spec, enabled)];
      } else {
        plugins := plugins + [EntryFor(spec, enabled)];
      }
      features := (runtime + features)["plugins" := true];
    }

    method RemovePlugin(spec: string) returns (ok: bool)
      modifies this
      ensures plugins == After(old(plugins), Remove(spec), map[])
      ensures ok <==> Apply(old(plugins), Remove(spec), map[]).Some?
      ensures features == old(features)
    {
      var next := Filter(plugins, WithoutName(spec));
      if |next| == |plugins| { return false; }
      plugins := next;
      return true;
    }
  }
}
