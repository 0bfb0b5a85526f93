/** packages/cli/src/config-history.ts: the bounded history of config changes, the
    rotating backups next to config.json, and the two restore commands. */
module ConfigHistory {
  import opened Prelude
  import opened OrderedMap
  import opened Sorting
  import opened Json

  const MAX_CONFIG_BACKUPS: nat := 10
  const MAX_CONFIG_HISTORY_ENTRIES: nat := 50

  // ---------------------------------------------------------------- masking

  const REDACTED: Json := Str("[REDACTED]")

  /** `maskConfigSecrets`: secret-named fields are replaced, objects are descended
      into, arrays are copied as they are, and a field named `__proto__` is lost. */
  function Mask(fields: seq<Field>, secret: string -> bool): seq<Field> {
    if fields == [] then [] else MaskField(fields[0], secret) + Mask(fields[1..], secret)
  }

  function MaskField(f: Field, secret: string -> bool): (r: seq<Field>)
    ensures |r| == if f.key == PROTO then 0 else 1
    decreases f
  {
    if f.key == PROTO then []
    else if secret(f.key) then [Field(f.key, REDACTED)]
    else if f.value.Obj? then [Field(f.key, Obj(Mask(f.value.fields, secret)))]
    else [f]
  }

  /** No secret-named field, reached through objects, holds anything but the mark. */
  predicate NothingSecret(fields: seq<Field>, secret: string -> bool) {
    fields == [] ||
    (var f := fields[0];
     && (secret(f.key) ==> f.value == Str("[REDACTED]"))
     && (!secret(f.key) && f.value.Obj? ==> NothingSecret(f.value.fields, secret))
     && NothingSecret(fields[1..], secret))
  }

  /** No field the mask descends to is named `__proto__`. */
  predicate NoProto(fields: seq<Field>, secret: string -> bool) {
    fields == [] ||
    (var f := fields[0];
     && f.key != PROTO
     && (!secret(f.key) && f.value.Obj? ==> NoProto(f.value.fields, secret))
     && NoProto(fields[1..], secret))
  }

  lemma {:induction false} MaskHidesAll(fields: seq<Field>, secret: string -> bool)
    ensures NothingSecret(Mask(fields, secret), secret)
  {
    if fields == [] {
    } else {
      var f := fields[0];
      MaskHidesAll(fields[1..], secret);
      if f.key == PROTO {
        assert Mask(fields, secret) == Mask(fields[1..], secret);
      } else {
        if !secret(f.key) && f.value.Obj? { MaskHidesAll(f.value.fields, secret); }
        assert Mask(fields, secret)[1..] == Mask(fields[1..], secret);
      }
    }
  }

  /** Field by field: a secret one reads as the mark, an object is masked in turn, and
      every other value is as it was; `__proto__` is gone. */
  lemma {:induction false} MaskedReads(fields: seq<Field>, secret: string -> bool, k: string)
    ensures Lookup(Mask(fields, secret), k) ==
            if k == "__proto__" then None
            else match Lookup(fields, k)
              case None => None
              case Some(v) =>
                if secret(k) then Some(Str("[REDACTED]")) else if v.Obj? then Some(Obj(Mask(v.fields, secret))) else Some(v)
  {
    if fields == [] {
    } else {
      MaskedReads(fields[1..], secret, k);
      if fields[0].key == PROTO {
        assert Mask(fields, secret) == Mask(fields[1..], secret);
      } else {
        assert Mask(fields, secret)[1..] == Mask(fields[1..], secret);
      }
    }
  }

  lemma {:induction false} MaskShortens(fields: seq<Field>, secret: string -> bool)
    ensures |Mask(fields, secret)| <= |fields|
  {
    if fields == [] {
    } else {
      MaskShortens(fields[1..], secret);
    }
  }

  /** Masking is the identity exactly on configs with nothing to hide and no field named
      `__proto__`. */
  lemma {:induction false} MaskIsIdentity(fields: seq<Field>, secret: string -> bool)
    ensures Mask(fields, secret) == fields <==> NothingSecret(fields, secret) && NoProto(fields, secret)
  {
    if fields == [] {
    } else {
      var f := fields[0];
      MaskIsIdentity(fields[1..], secret);
      MaskShortens(fields[1..], secret);
      assert fields == [f] + fields[1..];
      if f.key != PROTO {
        assert Mask(fields, secret)[1..] == Mask(fields[1..], secret);
        if !secret(f.key) && f.value.Obj? { MaskIsIdentity(f.value.fields, secret); }
      }
    }
  }

  /** Writing hides nothing and reveals nothing. */
  lemma {:induction false} PrintedKeepsMask(fields: seq<Field>, secret: string -> bool)
    ensures NothingSecret(fields, secret) ==> NothingSecret(PrintedFields(fields), secret)
    ensures NoProto(fields, secret) ==> NoProto(PrintedFields(fields), secret)
  {
    if fields == [] {
    } else {
      PrintedKeepsMask(fields[1..], secret);
      assert PrintedFields(fields)[1..] == PrintedFields(fields[1..]);
      if fields[0].value.Obj? { PrintedKeepsMask(fields[0].value.fields, secret); }
    }
  }

  lemma {:induction false} MaskHasNoProto(fields: seq<Field>, secret: string -> bool)
    ensures NoProto(Mask(fields, secret), secret)
  {
    if fields == [] {
    } else {
      var f := fields[0];
      MaskHasNoProto(fields[1..], secret);
      if f.key == PROTO {
        assert Mask(fields, secret) == Mask(fields[1..], secret);
      } else {
        if !secret(f.key) && f.value.Obj? { MaskHasNoProto(f.value.fields, secret); }
        assert Mask(fields, secret)[1..] == Mask(fields[1..], secret);
      }
    }
  }

  /** What is recorded of a config is the config exactly when there is nothing to hide,
      no field named `__proto__`, and nothing that is written as null. */
  lemma RecordIsFaithful(config: seq<Field>, secret: string -> bool)
    ensures PrintedFields(Mask(config, secret)) == config <==>
            NothingSecret(config, secret) && NoProto(config, secret) && PrintedFields(config) == config
  {
    var masked := Mask(config, secret);
    MaskIsIdentity(config, secret);
    MaskHidesAll(config, secret);
    MaskHasNoProto(config, secret);
    PrintedKeepsMask(masked, secret);
    PrintedFieldsTwice(masked);
  }

  // ----------------------------------------------------- the change summary

  function IndexFields(items: seq<Json>): seq<Field> {
    if items == [] then [] else IndexFields(items[..|items| - 1]) + [Field(Digits(|items| - 1), items[|items| - 1])]
  }

  /** `Object.entries`, as far as objects can be among the values. */
  function FieldsOf(j: Json): seq<Field> {
    match j
    case Obj(fields) => fields
    case Arr(items) => IndexFields(items)
    case _ => []
  }

  /** A template literal throws on this value: an object with a field named `toString`
      has no string form, nor has an array that holds one. */
  predicate Unprintable(j: Json) {
    match j
    case Obj(fields) => HasKey(fields, "toString")
    case Arr(items) => AnyUnprintable(items)
    case _ => false
  }

  predicate AnyUnprintable(items: seq<Json>) {
    items != [] && (Unprintable(items[|items| - 1]) || AnyUnprintable(items[..|items| - 1]))
  }

  /** `typeof newCfg[k] === 'object'`; the prototype of any config is an object. */
  predicate StaysObject(now: seq<Field>, key: string) {
    match Lookup(now, key)
    case None => key == PROTO
    case Some(v) => v.Null? || v.Arr? || v.Obj?
  }

  /** A field that the summary has to print and cannot. */
  predicate Chokes(f: Field, now: seq<Field>, secret: string -> bool) {
    !secret(f.key) && !StaysObject(now, f.key) && Unprintable(f.value)
  }

  predicate AnyChokes(fields: seq<Field>, now: seq<Field>, secret: string -> bool) {
    fields != [] && (Chokes(fields[|fields| - 1], now, secret) || AnyChokes(fields[..|fields| - 1], now, secret))
  }

  /** `diffSummary` throws: a config is null, or an old value has no string form. */
  predicate SummaryThrows(before: Json, after: Json, secret: string -> bool) {
    before.Null? || after.Null? || AnyChokes(FieldsOf(before), FieldsOf(after), secret)
  }

  /** Whether the summary comes to its end; the text it builds is left out. */
  method DiffSummary(before: Json, after: Json, secret: string -> bool) returns (ok: bool)
    ensures ok <==> !SummaryThrows(before, after, secret)
  {
    if before.Null? || after.Null? { return false; }
    var fields, now := FieldsOf(before), FieldsOf(after);
    for i := 0 to |fields|
      invariant !AnyChokes(fields[..i], now, secret)
    {
      assert fields[..i + 1][..i] == fields[..i];
      if !secret(fields[i].key) && !StaysObject(now, fields[i].key) && Unprintable(fields[i].value) {
        ChokesStay(fields, now, secret, i);
        return false;
      }
    }
    assert fields[..|fields|] == fields;
    ok := true;
  }

  lemma {:induction false} ChokesStay(fields: seq<Field>, now: seq<Field>, secret: string -> bool, i: nat)
    requires i < |fields| && Chokes(fields[i], now, secret)
    ensures AnyChokes(fields, now, secret)
  {
    if i == |fields| - 1 {
    } else {
      ChokesStay(fields[..|fields| - 1], now, secret, i);
    }
  }

  /** An object with a `toString` of its own, or an array that holds one at any depth. */
  ghost predicate HoldsToString(v: Json) {
    match v
    case Obj(fields) => exists f :: f in fields && f.key == "toString"
    case Arr(items) => exists x :: x in items && HoldsToString(x)
    case _ => false
  }

  lemma {:induction false} UnprintableIff(v: Json)
    ensures Unprintable(v) <==> HoldsToString(v)
    decreases v, 1
  {
    match v
    case Obj(fields) => HasLookup(fields, "toString");
    case Arr(items) => SomeUnprintable(items);
    case _ =>
  }

  lemma {:induction false} SomeUnprintable(items: seq<Json>)
    ensures AnyUnprintable(items) <==> exists x :: x in items && HoldsToString(x)
    decreases items, 0
  {
    if items == [] {
    } else {
      var init, last := items[..|items| - 1], items[|items| - 1];
      assert items == init + [last];
      SomeUnprintable(init);
      UnprintableIff(last);
    }
  }

  /** A changed field whose old value has no text: it is not secret, what stands under its
      name now is no object, and the old value holds a `toString`. */
  ghost predicate HasNoText(f: Field, after: Json, secret: string -> bool) {
    && !secret(f.key) && HoldsToString(f.value)
    && match Lookup(FieldsOf(after), f.key)
       case None => f.key != "__proto__"
       case Some(v) => v.Bool? || v.Number? || v.Str?
  }

  lemma ChokesIff(f: Field, after: Json, secret: string -> bool)
    ensures Chokes(f, FieldsOf(after), secret) <==> HasNoText(f, after, secret)
  {
    UnprintableIff(f.value);
  }

  lemma {:induction false} SomeChokes(fields: seq<Field>, after: Json, secret: string -> bool)
    ensures AnyChokes(fields, FieldsOf(after), secret) <==> exists f :: f in fields && HasNoText(f, after, secret)
  {
    if fields == [] {
    } else {
      var init, last := fields[..|fields| - 1], fields[|fields| - 1];
      assert fields == init + [last];
      SomeChokes(init, after, secret);
      ChokesIff(last, after, secret);
    }
  }

  /** When the summary throws, in terms of the two configs. */
  lemma SummaryThrowsIff(before: Json, after: Json, secret: string -> bool)
    ensures SummaryThrows(before, after, secret) <==>
            before == Null || after == Null || exists f :: f in FieldsOf(before) && HasNoText(f, after, secret)
  {
    SomeChokes(FieldsOf(before), after, secret);
  }

  // ---------------------------------------------------------------- history

  datatype HistoryEntry = HistoryEntry(id: string, description: string, snapshotMasked: seq<Field>)

  /** An entry as its file holds it. */
  function Saved(e: HistoryEntry): HistoryEntry { e.(snapshotMasked := PrintedFields(e.snapshotMasked)) }

  datatype IndexEntry = IndexEntry(id: string, description: string)

  /** A name in the entries directory: every `*.json` name has a stem. */
  datatype FileName = JsonFile(stem: string) | OtherFile(name: string)

  /** `index` is what `readIndex` yields: empty when the file is missing or corrupt. */
  datatype History = History(files: OMap<FileName, HistoryEntry>, index: seq<IndexEntry>)

  function Ids(index: seq<IndexEntry>): (r: seq<string>)
    ensures |r| == |index| && forall i :: 0 <= i < |r| ==> r[i] == index[i].id
  {
    seq(|index|, i requires 0 <= i < |index| => index[i].id)
  }

  function Take<T>(s: seq<T>, n: nat): seq<T> { if |s| > n then s[..n] else s }

  /** Orphan cleanup: other files stay, and so does every listed entry. */
  function Listed(files: OMap<FileName, HistoryEntry>, keep: seq<string>): OMap<FileName, HistoryEntry> {
    if files == [] then []
    else Listed(files[..|files| - 1], keep) +
         if files[|files| - 1].0.JsonFile? && files[|files| - 1].0.stem !in keep then [] else [files[|files| - 1]]
  }

  function UnlinkAll(files: OMap<FileName, HistoryEntry>, entries: seq<IndexEntry>): OMap<FileName, HistoryEntry> {
    if entries == [] then files
    else Delete(UnlinkAll(files, entries[..|entries| - 1]), JsonFile(entries[|entries| - 1].id))
  }

  /** One successful `appendHistory`. */
  function Append(h: History, e: HistoryEntry): History {
    var index := [IndexEntry(e.id, e.description)] + h.index;
    var kept := Take(index, MAX_CONFIG_HISTORY_ENTRIES);
    var unlinked := UnlinkAll(Put(h.files, JsonFile(e.id), Saved(e)), index[|kept|..]);
    History(Listed(unlinked, Ids(kept)), kept)
  }

  function AppendAll(h: History, es: seq<HistoryEntry>): History {
    if es == [] then h else Append(AppendAll(h, es[..|es| - 1]), es[|es| - 1])
  }

  lemma {:induction false} GetSnoc<K, V>(m: OMap<K, V>, last: (K, V), k: K)
    ensures Get(m + [last], k) == if Get(m, k).Some? then Get(m, k) else if last.0 == k then Some(last.1) else None
    ensures Has(m + [last], k) <==> Has(m, k) || last.0 == k
  {
    if m == [] {
    } else {
      assert (m + [last])[1..] == m[1..] + [last];
      GetSnoc(m[1..], last, k);
    }
  }

  lemma {:induction false} UniqueSnoc<K, V>(m: OMap<K, V>, last: (K, V))
    ensures Unique(m + [last]) <==> Unique(m) && !Has(m, last.0)
  {
    if m == [] {
    } else {
      assert (m + [last])[1..] == m[1..] + [last];
      UniqueSnoc(m[1..], last);
      GetSnoc(m[1..], last, m[0].0);
    }
  }

  lemma {:induction false} ListedGet(files: OMap<FileName, HistoryEntry>, keep: seq<string>, f: FileName)
    requires Unique(files)
    ensures Get(Listed(files, keep), f) == if f.JsonFile? && f.stem !in keep then None else Get(files, f)
    ensures Unique(Listed(files, keep))
  {
    if files == [] {
    } else {
      var init, last := files[..|files| - 1], files[|files| - 1];
      assert files == init + [last];
      UniqueSnoc(init, last);
      ListedGet(init, keep, f);
      ListedGet(init, keep, last.0);
      GetSnoc(init, last, f);
      GetSnoc(Listed(init, keep), last, f);
      HasGet(init, last.0);
      HasGet(Listed(init, keep), last.0);
      UniqueSnoc(Listed(init, keep), last);
      assert Listed(init, keep) + [] == Listed(init, keep);
    }
  }

  lemma {:induction false} UnlinkedGet(files: OMap<FileName, HistoryEntry>, entries: seq<IndexEntry>, f: FileName)
    requires Unique(files)
    ensures Unique(UnlinkAll(files, entries))
    ensures Get(UnlinkAll(files, entries), f) == if f.JsonFile? && f.stem in Ids(entries) then None else Get(files, f)
  {
    if entries == [] {
    } else {
      var init, last := entries[..|entries| - 1], entries[|entries| - 1];
      UnlinkedGet(files, init, f);
      DeleteGet(UnlinkAll(files, init), JsonFile(last.id), f);
      assert Ids(entries) == Ids(init) + [last.id];
    }
  }

  /** The index after an append keeps its ids distinct, and what it drops is listed
      nowhere else. */
  lemma IndexEffect(index: seq<IndexEntry>, e: IndexEntry)
    requires Distinct(Ids(index)) && e.id !in Ids(index)
    ensures var all := [e] + index;
      var kept := Take(all, MAX_CONFIG_HISTORY_ENTRIES);
      && Distinct(Ids(kept)) && e.id in Ids(kept)
      && (forall id :: id in Ids(kept) ==> id == e.id || id in Ids(index))
      && (forall id :: id in Ids(kept) ==> id !in Ids(all[|kept|..]))
  {
    var all := [e] + index;
    var kept := Take(all, MAX_CONFIG_HISTORY_ENTRIES);
    DistinctCons(e.id, Ids(index));
    assert Ids(all) == [e.id] + Ids(index);
    assert Ids(all)[..|kept|] == Ids(kept);
    assert Ids(all)[|kept|..] == Ids(all[|kept|..]);
    DistinctSplit(Ids(all), |kept|);
    assert Ids(kept)[0] == e.id;
  }

  /** One append, from any directory whose index lists distinct ids: the new entry
      heads an index of at most fifty, orphans and overflow are gone, files that are
      not JSON stay. */
  lemma AppendEffect(h: History, e: HistoryEntry, f: FileName)
    requires Unique(h.files) && Distinct(Ids(h.index)) && e.id !in Ids(h.index)
    ensures var r := Append(h, e);
      && Unique(r.files)
      && r.index == Take([IndexEntry(e.id, e.description)] + h.index, 50)
      && Get(r.files, f) == (if f.JsonFile? && f.stem !in Ids(r.index) then None
                             else if f == JsonFile(e.id) then Some(Saved(e)) else Get(h.files, f))
  {
    var index := [IndexEntry(e.id, e.description)] + h.index;
    var kept := Take(index, MAX_CONFIG_HISTORY_ENTRIES);
    var put := Put(h.files, JsonFile(e.id), Saved(e));
    PutUnique(h.files, JsonFile(e.id), Saved(e));
    PutGet(h.files, JsonFile(e.id), Saved(e), f);
    UnlinkedGet(put, index[|kept|..], f);
    ListedGet(UnlinkAll(put, index[|kept|..]), Ids(kept), f);
    IndexEffect(h.index, IndexEntry(e.id, e.description));
  }

  lemma DistinctSplit<T>(s: seq<T>, n: nat)
    requires Distinct(s) && n <= |s|
    ensures Distinct(s[..n]) && forall x :: x in s[..n] ==> x !in s[n..]
  {
  }

  /** Entries newest first. */
  function Newer(es: seq<HistoryEntry>): (r: seq<IndexEntry>)
    ensures |r| == |es| && forall i :: 0 <= i < |r| ==> r[i] == IndexEntry(es[|es| - 1 - i].id, es[|es| - 1 - i].description)
  {
    seq(|es|, i requires 0 <= i < |es| => IndexEntry(es[|es| - 1 - i].id, es[|es| - 1 - i].description))
  }

  function EntryIds(es: seq<HistoryEntry>): (r: seq<string>)
    ensures |r| == |es| && forall i :: 0 <= i < |r| ==> r[i] == es[i].id
  {
    seq(|es|, i requires 0 <= i < |es| => es[i].id)
  }

  /** The newest entry appended under an id, as it was saved. */
  function Appended(es: seq<HistoryEntry>, id: string): Option<HistoryEntry> {
    if es == [] then None
    else if es[|es| - 1].id == id then Some(Saved(es[|es| - 1]))
    else Appended(es[..|es| - 1], id)
  }

  lemma NewerLast(es: seq<HistoryEntry>)
    requires es != []
    ensures Newer(es) == [IndexEntry(es[|es| - 1].id, es[|es| - 1].description)] + Newer(es[..|es| - 1])
  {
  }

  lemma TakeAgain<T>(x: T, s: seq<T>, n: nat)
    ensures Take([x] + Take(s, n), n) == Take([x] + s, n)
  {
  }

  /** The index is the newest fifty appends, newest first. */
  lemma {:induction false} IndexIsNewest(es: seq<HistoryEntry>)
    requires Distinct(EntryIds(es))
    ensures var h := AppendAll(History([], []), es);
      && h.index == Take(Newer(es), 50)
      && Unique(h.files) && Distinct(Ids(h.index))
  {
    if es == [] {
    } else {
      var init, e := es[..|es| - 1], es[|es| - 1];
      FreshLast(es);
      IndexIsNewest(init);
      var h := AppendAll(History([], []), init);
      AppendEffect(h, e, JsonFile(e.id));
      IndexEffect(h.index, IndexEntry(e.id, e.description));
      NewerLast(es);
      TakeAgain(IndexEntry(e.id, e.description), Newer(init), MAX_CONFIG_HISTORY_ENTRIES);
    }
  }

  /** The entry files on disk are exactly the ids in the index, each holding the entry
      appended under it. */
  lemma {:induction false} FilesAreTheIndex(es: seq<HistoryEntry>, f: FileName)
    requires Distinct(EntryIds(es))
    ensures var h := AppendAll(History([], []), es);
      Get(h.files, f) == if f.JsonFile? && f.stem in Ids(h.index) then Appended(es, f.stem) else None
  {
    if es == [] {
    } else {
      var init, e := es[..|es| - 1], es[|es| - 1];
      var h := AppendAll(History([], []), init);
      FreshLast(es);
      IndexIsNewest(init);
      FilesAreTheIndex(init, f);
      AppendEffect(h, e, f);
      IndexEffect(h.index, IndexEntry(e.id, e.description));
    }
  }

  lemma FreshLast(es: seq<HistoryEntry>)
    requires es != [] && Distinct(EntryIds(es))
    ensures Distinct(EntryIds(es[..|es| - 1]))
    ensures es[|es| - 1].id !in Ids(Take(Newer(es[..|es| - 1]), MAX_CONFIG_HISTORY_ENTRIES))
  {
    var init := es[..|es| - 1];
    assert forall i :: 0 <= i < |init| ==> EntryIds(init)[i] == EntryIds(es)[i];
    var ids := Ids(Take(Newer(init), MAX_CONFIG_HISTORY_ENTRIES));
    forall i | 0 <= i < |ids| ensures ids[i] != es[|es| - 1].id {
      assert ids[i] == EntryIds(es)[|init| - 1 - i];
    }
  }
}
