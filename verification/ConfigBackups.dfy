/** The files next to config.json (packages/cli/src/config-history.ts): rotating
    backups, and the two commands that restore a config. */
module ConfigBackups {
  import opened Prelude
  import opened OrderedMap
  import opened Sorting
  import opened Json
  import opened ConfigHistory

  /** A file's text: JSON in some layout, or something that does not parse. */
  datatype Text = Formatted(value: Json, layout: nat) | Garbled(raw: string)

  function Parse(t: Text): Option<Json> {
    if t.Formatted? then Some(t.value) else None
  }

  /** `JSON.stringify(value, null, 2)`: read back, it is the value as it was printed. */
  function Pretty(v: Json): (t: Text)
    ensures Parse(t) == Some(Printed(v))
  {
    Formatted(Printed(v), 0)
  }

  /** The `.wrongstack` directory, in `readdir` order. */
  type Dir = OMap<string, Text>

  const CONFIG := "config.json"
  const LAST := "config.json.last"
  const PROTECTED: set<string> := {"config.json", ".key", "index.json"}

  predicate StartsWith(s: string, prefix: string) { prefix <= s }

  predicate EndsWith(s: string, suffix: string) {
    |suffix| <= |s| && s[|s| - |suffix|..] == suffix
  }

  predicate IsBak(name: string) { StartsWith(name, "config.json.") && EndsWith(name, ".bak") }

  /** `assertSafeToDelete` for a name in the `.wrongstack` directory. */
  predicate SafeToDelete(name: string) { name !in PROTECTED && '/' !in name && IsBak(name) }

  function BakName(stamp: string): string { "config.json." + stamp + ".bak" }

  /** String order by UTF-16 code units, as `Array.prototype.sort` uses. */
  predicate LexLe(a: string, b: string) {
    a == [] || (b != [] && (a[0] < b[0] || (a[0] == b[0] && LexLe(a[1..], b[1..]))))
  }

  lemma {:induction false} LexTotal(a: string, b: string)
    ensures LexLe(a, b) || LexLe(b, a)
    ensures LexLe(a, b) && LexLe(b, a) ==> a == b
  {
    if a == [] || b == [] {
    } else {
      LexTotal(a[1..], b[1..]);
      assert a == [a[0]] + a[1..] && b == [b[0]] + b[1..];
    }
  }

  lemma {:induction false} LexTransitive(a: string, b: string, c: string)
    requires LexLe(a, b) && LexLe(b, c)
    ensures LexLe(a, c)
  {
    if a == [] || a[0] != b[0] || b[0] != c[0] {
    } else {
      LexTransitive(a[1..], b[1..], c[1..]);
    }
  }

  lemma LexOrders()
    ensures TotalPreorder(LexLe)
  {
    forall a, b ensures LexLe(a, b) || LexLe(b, a) { LexTotal(a, b); }
    forall a, b, c | LexLe(a, b) && LexLe(b, c) ensures LexLe(a, c) { LexTransitive(a, b, c); }
  }

  // ---------------------------------------------------------------- pruning

  function Baks(dir: Dir): seq<string> { Filter(Keys(dir), IsBak) }

  function Reverse<T>(s: seq<T>): (r: seq<T>)
    ensures |r| == |s| && forall i :: 0 <= i < |r| ==> r[i] == s[|s| - 1 - i]
  {
    seq(|s|, i requires 0 <= i < |s| => s[|s| - 1 - i])
  }

  /** `sort().reverse().slice(10)`. */
  function PastTen(sorted: seq<string>): seq<string> {
    var down := Reverse(sorted);
    if |down| > MAX_CONFIG_BACKUPS then down[MAX_CONFIG_BACKUPS..] else []
  }

  /** Backup names past the ten greatest. */
  function Doomed(dir: Dir): seq<string> { PastTen(StableSort(Baks(dir), LexLe)) }

  function SafeDelete(dir: Dir, name: string): Dir {
    if SafeToDelete(name) then Delete(dir, name) else dir
  }

  function SafeDeleteAll(dir: Dir, names: seq<string>): Dir {
    if names == [] then dir else SafeDelete(SafeDeleteAll(dir, names[..|names| - 1]), names[|names| - 1])
  }

  function Prune(dir: Dir): Dir { SafeDeleteAll(dir, Doomed(dir)) }

  /** A directory listing: names are distinct and contain no separator. */
  ghost predicate Listing(dir: Dir) {
    Unique(dir) && NoSlash(dir)
  }

  ghost predicate NoSlash(dir: Dir) {
    dir == [] || ('/' !in dir[0].0 && NoSlash(dir[1..]))
  }

  lemma {:induction false} NoSlashHas(dir: Dir, q: string)
    requires NoSlash(dir) && Has(dir, q)
    ensures '/' !in q
  {
    if dir[0].0 == q {
    } else {
      NoSlashHas(dir[1..], q);
    }
  }

  function Above(name: string): string -> bool { (m: string) => !LexLe(m, name) }

  /** How many backups have a greater name. */
  function GreaterBaks(dir: Dir, name: string): nat { |Filter(Baks(dir), Above(name))| }

  lemma {:induction false} SafeDeleteAllGet(dir: Dir, names: seq<string>, q: string)
    requires Unique(dir)
    ensures Unique(SafeDeleteAll(dir, names))
    ensures Get(SafeDeleteAll(dir, names), q) == if q in names && SafeToDelete(q) then None else Get(dir, q)
  {
    if names == [] {
    } else {
      SafeDeleteAllGet(dir, names[..|names| - 1], q);
      DeleteGet(SafeDeleteAll(dir, names[..|names| - 1]), names[|names| - 1], q);
      assert names == names[..|names| - 1] + [names[|names| - 1]];
    }
  }

  lemma {:induction false} NoneAbove(s: seq<string>, name: string)
    requires forall x :: x in s ==> LexLe(x, name)
    ensures Filter(s, Above(name)) == []
  {
    if s == [] {
    } else {
      assert s == s[..|s| - 1] + [s[|s| - 1]];
      NoneAbove(s[..|s| - 1], name);
    }
  }

  /** In a sorted list without repeats, position tells how many are greater. */
  lemma {:induction false} RankFromEnd(s: seq<string>, i: nat)
    requires SortedBy(s, LexLe) && i < |s| && Distinct(s)
    ensures |Filter(s, Above(s[i]))| == |s| - 1 - i
  {
    LexOrders();
    var init, last := s[..|s| - 1], s[|s| - 1];
    assert s == init + [last];
    if i == |s| - 1 {
      forall x | x in s ensures LexLe(x, last) { LastIsGreatest(s, LexLe, x); }
      NoneAbove(s, last);
    } else {
      assert forall a, b :: 0 <= a < b < |init| ==> init[a] != init[b];
      RankFromEnd(init, i);
      LastIsGreatest(s, LexLe, s[i]);
      LexTotal(s[i], last);
      assert s[i] != last;
    }
  }

  lemma {:induction false} DistinctPermutes<T>(a: seq<T>, b: seq<T>)
    requires multiset(a) == multiset(b) && Distinct(a)
    ensures Distinct(b)
  {
    forall i, j | 0 <= i < j < |b| ensures b[i] != b[j] {
      if b[i] == b[j] {
        assert b == b[..i] + [b[i]] + b[i + 1..j] + [b[j]] + b[j + 1..];
        assert multiset(b)[b[i]] >= 2;
        OnceEach(a, b[i]);
      }
    }
  }

  lemma {:induction false} OnceEach<T>(a: seq<T>, x: T)
    requires Distinct(a)
    ensures multiset(a)[x] <= 1
  {
    if a == [] {
    } else {
      OnceEach(a[..|a| - 1], x);
      assert a == a[..|a| - 1] + [a[|a| - 1]];
      if a[|a| - 1] == x { assert x !in a[..|a| - 1]; }
    }
  }

  lemma PastTenMembers(sorted: seq<string>, name: string)
    ensures name in PastTen(sorted) <==> exists i :: 0 <= i < |sorted| - MAX_CONFIG_BACKUPS && sorted[i] == name
  {
    var past := PastTen(sorted);
    var n := |sorted| - MAX_CONFIG_BACKUPS;
    assert forall j :: 0 <= j < |past| ==> past[j] == sorted[n - 1 - j];
    if i :| 0 <= i < n && sorted[i] == name {
      assert past[n - 1 - i] == name;
    }
  }

  lemma {:induction false} PastTenByRank(sorted: seq<string>, name: string)
    requires SortedBy(sorted, LexLe) && Distinct(sorted)
    ensures name in PastTen(sorted) <==> name in sorted && |Filter(sorted, Above(name))| >= MAX_CONFIG_BACKUPS
  {
    PastTenMembers(sorted, name);
    if name in sorted {
      var i :| 0 <= i < |sorted| && sorted[i] == name;
      RankFromEnd(sorted, i);
    }
  }

  /** A backup is doomed exactly when ten or more have greater names. */
  lemma DoomedByRank(dir: Dir, name: string)
    requires Listing(dir)
    ensures name in Doomed(dir) <==> name in Baks(dir) && GreaterBaks(dir, name) >= MAX_CONFIG_BACKUPS
  {
    var baks := Baks(dir);
    SortedBaks(dir);
    PastTenByRank(StableSort(baks, LexLe), name);
    SameElements(baks, StableSort(baks, LexLe));
    FilterPermutes(baks, StableSort(baks, LexLe), Above(name));
  }

  lemma {:induction false} SortedBaks(dir: Dir)
    requires Unique(dir)
    ensures var sorted := StableSort(Baks(dir), LexLe);
      SortedBy(sorted, LexLe) && Distinct(sorted) && multiset(sorted) == multiset(Baks(dir))
  {
    LexOrders();
    UniqueKeys(dir);
    FilterKeepsDistinct(Keys(dir), IsBak);
    SortPermutes(Baks(dir), LexLe);
    SortSorts(Baks(dir), LexLe);
    DistinctPermutes(Baks(dir), StableSort(Baks(dir), LexLe));
  }

  /** The backups kept are exactly the ten with the greatest names, and nothing but a
      backup is ever deleted. */
  lemma PruneKeepsGreatest(dir: Dir, q: string)
    requires Listing(dir)
    ensures Unique(Prune(dir))
    ensures Get(Prune(dir), q) == if IsBak(q) && GreaterBaks(dir, q) >= 10 then None else Get(dir, q)
  {
    SafeDeleteAllGet(dir, Doomed(dir), q);
    DoomedByRank(dir, q);
    FilterMembers(Keys(dir), IsBak, q);
    HasKeys(dir, q);
    HasGet(dir, q);
    ProtectedAreNotBaks(q);
    if Has(dir, q) { NoSlashHas(dir, q); }
  }

  lemma ProtectedAreNotBaks(q: string)
    ensures q in PROTECTED || q == LAST ==> !IsBak(q)
  {
    assert "index.json"[0] != "config.json."[0] && ".key"[0] != "config.json."[0];
    assert LAST[|LAST| - 4..] == "last" && "last"[0] != ".bak"[0];
  }

  // ---------------------------------------------------------------- backups

  /** `backupCurrent`: copy config.json to `.last` and to a stamped backup, then prune. */
  function Backup(dir: Dir, stamp: string): Dir {
    match Get(dir, CONFIG)
    case None => Prune(dir)
    case Some(content) => Prune(Put(Put(dir, LAST, content), BakName(stamp), content))
  }

  lemma BakNameIsBak(stamp: string)
    ensures IsBak(BakName(stamp)) && BakName(stamp) != LAST
  {
    var name := "config.json." + stamp + ".bak";
    assert name[..12] == "config.json.";
    assert name[|name| - 4..] == ".bak";
    ProtectedAreNotBaks(LAST);
  }

  /** After `backupCurrent` no file that is not a backup has changed, except that
      `.last` is a copy of config.json when there is one. */
  lemma {:induction false} BackupEffect(dir: Dir, stamp: string, q: string)
    requires Listing(dir) && '/' !in stamp
    ensures Unique(Backup(dir, stamp))
    ensures !IsBak(q) ==> Get(Backup(dir, stamp), q) == if q == LAST && Has(dir, CONFIG) then Get(dir, CONFIG) else Get(dir, q)
    ensures IsBak(q) && GreaterBaks(Stamped(dir, stamp), q) < MAX_CONFIG_BACKUPS ==>
              Get(Backup(dir, stamp), q) == Get(Stamped(dir, stamp), q)
  {
    BakNameIsBak(stamp);
    StampedGet(dir, stamp, q);
    StampedListing(dir, stamp);
    PruneKeepsGreatest(Stamped(dir, stamp), q);
    HasGet(dir, CONFIG);
  }

  /** The stamped copy, under its full name, is there unless ten backups have greater ones. */
  lemma StampedCopyIsKept(dir: Dir, stamp: string)
    requires Listing(dir) && '/' !in stamp && Has(dir, "config.json")
    ensures var name := "config.json." + stamp + ".bak";
      Get(Backup(dir, stamp), name) == if GreaterBaks(Stamped(dir, stamp), name) >= 10 then None else Get(dir, "config.json")
  {
    var name := BakName(stamp);
    BakNameIsBak(stamp);
    StampedGet(dir, stamp, name);
    StampedListing(dir, stamp);
    PruneKeepsGreatest(Stamped(dir, stamp), name);
    HasGet(dir, CONFIG);
  }

  /** The directory just before pruning. */
  function Stamped(dir: Dir, stamp: string): Dir {
    match Get(dir, CONFIG)
    case None => dir
    case Some(content) => Put(Put(dir, LAST, content), BakName(stamp), content)
  }

  lemma StampedGet(dir: Dir, stamp: string, q: string)
    ensures Get(Stamped(dir, stamp), q) ==
            if Has(dir, CONFIG) && (q == LAST || q == BakName(stamp)) then Get(dir, CONFIG) else Get(dir, q)
  {
    HasGet(dir, CONFIG);
    if Has(dir, CONFIG) {
      var content := Get(dir, CONFIG).value;
      PutGet(dir, LAST, content, q);
      PutGet(Put(dir, LAST, content), BakName(stamp), content, q);
    }
  }

  lemma {:induction false} PutNoSlash(dir: Dir, name: string, t: Text)
    requires '/' !in name && NoSlash(dir)
    ensures NoSlash(Put(dir, name, t))
  {
    if dir == [] || dir[0].0 == name {
    } else {
      PutNoSlash(dir[1..], name, t);
    }
  }

  lemma StampedListing(dir: Dir, stamp: string)
    requires Listing(dir) && '/' !in stamp
    ensures Listing(Stamped(dir, stamp))
  {
    if Get(dir, CONFIG).Some? {
      var content := Get(dir, CONFIG).value;
      PutUnique(dir, LAST, content);
      PutNoSlash(dir, LAST, content);
      PutUnique(Put(dir, LAST, content), BakName(stamp), content);
      PutNoSlash(Put(dir, LAST, content), BakName(stamp), content);
    }
  }

  // --------------------------------------------------------------- restoring

  /** The whole store: the directory and the change history. */
  datatype Store = Store(dir: Dir, history: History)

  /** What a name holds as JSON. */
  function Holds(dir: Dir, name: string): Option<Json> {
    match Get(dir, name) case None => None case Some(t) => Parse(t)
  }

  /** `appendHistory` as far as it gets; ids and descriptions come from outside. None
      when the change summary throws, before anything is written. */
  function Recorded(h: History, id: string, description: string, before: Json, after: Json, secret: string -> bool): Option<History> {
    if SummaryThrows(before, after, secret) then None
    else Some(Append(h, HistoryEntry(id, description, Mask(FieldsOf(after), secret))))
  }

  /** `Threw`: config.json is written already, the change is not recorded. */
  datatype Outcome = Restored | NothingToRestore | NotOwner | Threw

  /** What a restore command takes config.json to be: `{}` if it is missing or corrupt. */
  function OldConfig(dir: Dir): Json {
    match Holds(dir, CONFIG) case None => Obj([]) case Some(v) => v
  }

  /** From the backup on, the two restore commands do the same with their config. */
  function Overwrite(s: Store, value: Json, description: string, stamp: string, id: string, secret: string -> bool): (Store, Outcome) {
    var dir := Put(Backup(s.dir, stamp), CONFIG, Pretty(value));
    match Recorded(s.history, id, description, OldConfig(s.dir), value, secret)
    case None => (Store(dir, s.history), Threw)
    case Some(history) => (Store(dir, history), Restored)
  }

  function RestoreLast(s: Store, owner: bool, stamp: string, id: string, secret: string -> bool): (Store, Outcome) {
    match Holds(s.dir, LAST)
    case None => (s, NothingToRestore)
    case Some(last) =>
      if !owner then (s, NotOwner)
      else Overwrite(s, last, "Restored from config.json.last", stamp, id, secret)
  }

  /** `restoreFromHistory` by entry id. */
  function RestoreFromHistory(s: Store, owner: bool, from: string, stamp: string, id: string, secret: string -> bool): (Store, Outcome) {
    match Get(s.history.files, JsonFile(from))
    case None => (s, NothingToRestore)
    case Some(e) =>
      if !owner then (s, NotOwner)
      else Overwrite(s, Obj(e.snapshotMasked), "Restored from history " + from, stamp, id, secret)
  }

  /** Which files pruning may delete: the stamped backups, and one name in which the prefix
      and the suffix share their dot. */
  lemma BakNames(name: string)
    ensures SafeToDelete(name) <==>
            '/' !in name && (name == "config.json.bak" || exists stamp :: name == BakNamed(stamp))
  {
    if IsBak(name) {
      ProtectedAreNotBaks(name);
      if |name| >= 16 {
        var stamp := name[12..|name| - 4];
        assert name == name[..12] + stamp + name[|name| - 4..];
        assert name == BakNamed(stamp);
      } else {
        ShortBak(name);
      }
    }
    if exists stamp :: name == BakNamed(stamp) {
      var stamp :| name == BakNamed(stamp);
      BakNameIsBak(stamp);
      ProtectedAreNotBaks(name);
    }
    if name == "config.json.bak" {
      assert name[..12] == "config.json." && name[11..] == ".bak";
      ProtectedAreNotBaks(name);
    }
  }

  function BakNamed(stamp: string): string { "config.json." + stamp + ".bak" }

  lemma ShortBak(name: string)
    requires IsBak(name) && |name| < 16
    ensures name == "config.json.bak"
  {
    var at := |name| - 4;
    assert name[..12] == "config.json." && name[at..] == ".bak";
    assert name[at..][0] == '.' == name[at];
    assert at < 12 ==> name[..12][at] == '.';
    assert name == name[..12] + name[at..][1..];
  }

  /** What a restore command leaves on disk, whether or not it throws at the end. */
  lemma OverwriteEffect(s: Store, value: Json, description: string, stamp: string, id: string, secret: string -> bool, q: string)
    requires Listing(s.dir) && '/' !in stamp
    ensures var (r, outcome) := Overwrite(s, value, description, stamp, id, secret);
      && outcome == (if SummaryThrows(OldConfig(s.dir), value, secret) then Threw else Restored)
      && Listing(r.dir)
      && Get(r.dir, CONFIG) == Some(Pretty(value))
      && Get(r.dir, LAST) == (if Has(s.dir, CONFIG) then Get(s.dir, CONFIG) else Get(s.dir, LAST))
      && (!IsBak(q) && q != CONFIG && q != LAST ==> Get(r.dir, q) == Get(s.dir, q))
      && (outcome == Threw ==> r.history == s.history)
  {
    var text, backed := Pretty(value), Backup(s.dir, stamp);
    BackupEffect(s.dir, stamp, q);
    BackupEffect(s.dir, stamp, LAST);
    ProtectedAreNotBaks(LAST);
    PutUnique(backed, CONFIG, text);
    PutGet(backed, CONFIG, text, q);
    PutGet(backed, CONFIG, text, LAST);
    PutGet(backed, CONFIG, text, CONFIG);
    StampedListing(s.dir, stamp);
    SafeDeleteAllNoSlash(Stamped(s.dir, stamp), Doomed(Stamped(s.dir, stamp)));
    PutNoSlash(backed, CONFIG, text);
  }

  /** What the command that restores the last backup tells its caller: there is nothing to
      restore when `config.json.last` is missing or does not parse, whoever asks; then a
      config owned by somebody else is refused; either way nothing changes. Otherwise the
      backup is in config.json, and unless the summary throws the history starts with the
      restore. */
  lemma RestoreLastOutcome(s: Store, owner: bool, stamp: string, id: string, secret: string -> bool)
    requires Listing(s.dir) && '/' !in stamp
    ensures var (r, outcome), last := RestoreLast(s, owner, stamp, id, secret), Holds(s.dir, "config.json.last");
      if last == None then (r, outcome) == (s, NothingToRestore)
      else if !owner then (r, outcome) == (s, NotOwner)
      else
        && outcome == (if SummaryThrows(OldConfig(s.dir), last.value, secret) then Threw else Restored)
        && Holds(r.dir, "config.json") == Some(Printed(last.value))
        && (outcome == Restored ==> [IndexEntry(id, "Restored from config.json.last")] <= r.history.index)
  {
    var last := Holds(s.dir, LAST);
    if last.Some? && owner {
      OverwriteEffect(s, last.value, "Restored from config.json.last", stamp, id, secret, CONFIG);
    }
  }

  /** And the one that restores an entry: it is found by its id's file, and its config is
      written as it was recorded, masked. */
  lemma RestoreEntryOutcome(s: Store, owner: bool, from: string, stamp: string, id: string, secret: string -> bool)
    requires Listing(s.dir) && '/' !in stamp
    ensures var (r, outcome), e := RestoreFromHistory(s, owner, from, stamp, id, secret), Get(s.history.files, JsonFile(from));
      if e == None then (r, outcome) == (s, NothingToRestore)
      else if !owner then (r, outcome) == (s, NotOwner)
      else
        && outcome == (if SummaryThrows(OldConfig(s.dir), Obj(e.value.snapshotMasked), secret) then Threw else Restored)
        && Holds(r.dir, "config.json") == Some(Obj(PrintedFields(e.value.snapshotMasked)))
        && (outcome == Restored ==> [IndexEntry(id, "Restored from history " + from)] <= r.history.index)
  {
    var e := Get(s.history.files, JsonFile(from));
    if e.Some? && owner {
      OverwriteEffect(s, Obj(e.value.snapshotMasked), "Restored from history " + from, stamp, id, secret, CONFIG);
    }
  }

  lemma {:induction false} DeleteNoSlash(dir: Dir, name: string)
    requires NoSlash(dir)
    ensures NoSlash(Delete(dir, name))
  {
    if dir == [] || dir[0].0 == name {
    } else {
      DeleteNoSlash(dir[1..], name);
    }
  }

  lemma {:induction false} SafeDeleteAllNoSlash(dir: Dir, names: seq<string>)
    requires NoSlash(dir)
    ensures NoSlash(SafeDeleteAll(dir, names))
  {
    if names == [] {
    } else {
      SafeDeleteAllNoSlash(dir, names[..|names| - 1]);
      DeleteNoSlash(SafeDeleteAll(dir, names[..|names| - 1]), names[|names| - 1]);
    }
  }

  /** With JSON in both files, restoring the last backup exchanges them: config.json
      says what `.last` said, as it is printed, and `.last` is the old config.json to the
      byte. It succeeds unless the change summary throws. */
  lemma RestoreLastSwaps(s: Store, stamp: string, id: string, secret: string -> bool)
    requires Listing(s.dir) && '/' !in stamp
    requires Holds(s.dir, CONFIG).Some? && Holds(s.dir, LAST).Some?
    ensures var (r, outcome) := RestoreLast(s, true, stamp, id, secret);
      && Holds(r.dir, CONFIG) == Some(Printed(Holds(s.dir, LAST).value))
      && Get(r.dir, LAST) == Get(s.dir, CONFIG)
      && outcome == (if SummaryThrows(Holds(s.dir, CONFIG).value, Holds(s.dir, LAST).value, secret) then Threw else Restored)
  {
    OverwriteEffect(s, Holds(s.dir, LAST).value, "Restored from config.json.last", stamp, id, secret, LAST);
    HasGet(s.dir, CONFIG);
  }

  /** Both files are there as before, and say what they said. */
  predicate FilesBack(before: Dir, after: Dir) {
    && Get(after, CONFIG).Some? == Get(before, CONFIG).Some? && Holds(after, CONFIG) == Holds(before, CONFIG)
    && Get(after, LAST).Some? == Get(before, LAST).Some? && Holds(after, LAST) == Holds(before, LAST)
  }

  /** A file that parses, to a value that is written as it is. */
  predicate Prints(dir: Dir, name: string) {
    Holds(dir, name).Some? && Printed(Holds(dir, name).value) == Holds(dir, name).value
  }

  lemma RestoreLastOnce(s: Store, stamp: string, id: string, secret: string -> bool)
    requires Listing(s.dir) && '/' !in stamp
    ensures var (r, outcome) := RestoreLast(s, true, stamp, id, secret);
      && Listing(r.dir)
      && (Holds(s.dir, LAST) == None ==> r == s && outcome == NothingToRestore)
      && (Holds(s.dir, LAST).Some? ==>
            && Get(r.dir, CONFIG) == Some(Pretty(Holds(s.dir, LAST).value))
            && Get(r.dir, LAST) == (if Has(s.dir, CONFIG) then Get(s.dir, CONFIG) else Get(s.dir, LAST))
            && outcome == (if SummaryThrows(OldConfig(s.dir), Holds(s.dir, LAST).value, secret) then Threw else Restored))
  {
    if Holds(s.dir, LAST).Some? {
      OverwriteEffect(s, Holds(s.dir, LAST).value, "Restored from config.json.last", stamp, id, secret, LAST);
    }
  }

  /** Restoring twice brings both files back (config.json re-formatted) exactly when
      there is nothing to restore, or both parse to values that are written as they are. */
  lemma RestoreLastTwice(s: Store, stamp: string, stamp': string, id: string, id': string, secret: string -> bool)
    requires Listing(s.dir) && '/' !in stamp && '/' !in stamp'
    ensures var once := RestoreLast(s, true, stamp, id, secret).0;
      var twice := RestoreLast(once, true, stamp', id', secret).0;
      FilesBack(s.dir, twice.dir) <==> Holds(s.dir, LAST) == None || (Prints(s.dir, CONFIG) && Prints(s.dir, LAST))
  {
    var once := RestoreLast(s, true, stamp, id, secret).0;
    RestoreLastOnce(s, stamp, id, secret);
    RestoreLastOnce(once, stamp', id', secret);
    HasGet(s.dir, CONFIG);
    HasGet(once.dir, CONFIG);
  }

  /** And both commands succeed exactly when the summary throws neither way, so in
      particular neither file holds null. */
  lemma RestoreLastTwiceSucceeds(s: Store, stamp: string, stamp': string, id: string, id': string, secret: string -> bool)
    requires Listing(s.dir) && '/' !in stamp && '/' !in stamp'
    ensures var (once, first) := RestoreLast(s, true, stamp, id, secret);
      var (twice, second) := RestoreLast(once, true, stamp', id', secret);
      first == Restored && second == Restored && FilesBack(s.dir, twice.dir) <==>
        Prints(s.dir, CONFIG) && Prints(s.dir, LAST) &&
        !SummaryThrows(Holds(s.dir, CONFIG).value, Holds(s.dir, LAST).value, secret) &&
        !SummaryThrows(Holds(s.dir, LAST).value, Holds(s.dir, CONFIG).value, secret)
  {
    var once := RestoreLast(s, true, stamp, id, secret).0;
    RestoreLastOnce(s, stamp, id, secret);
    RestoreLastOnce(once, stamp', id', secret);
    RestoreLastTwice(s, stamp, stamp', id, id', secret);
    HasGet(s.dir, CONFIG);
    HasGet(once.dir, CONFIG);
  }

  /** An over-range numeral does not survive the swap: `{"x": 1e999}` in `.last` comes
      back as `{"x": null}`. */
  lemma OverRangeIsLost(s: Store, stamp: string, id: string, secret: string -> bool)
    requires Listing(s.dir) && '/' !in stamp && Holds(s.dir, LAST) == Some(Obj([Field("x", Number(PosInf))]))
    ensures Holds(RestoreLast(s, true, stamp, id, secret).0.dir, CONFIG) == Some(Obj([Field("x", Null)]))
  {
    RestoreLastOnce(s, stamp, id, secret);
    InfinityPrinted("x");
  }

  lemma InfinityPrinted(key: string)
    ensures Printed(Obj([Field(key, Number(PosInf))])) == Obj([Field(key, Null)])
  {
    var o := [Field(key, Number(PosInf))];
    assert o[1..] == [] && PrintedFields(o[1..]) == [];
    assert Printed(o[0].value) == Null;
    assert PrintedFields(o) == [Field(key, Null)];
  }

  /** A file that holds null makes the command throw after config.json is overwritten,
      with nothing recorded. */
  lemma NullThrowsLate(s: Store, stamp: string, id: string, secret: string -> bool)
    requires Listing(s.dir) && '/' !in stamp && Holds(s.dir, LAST).Some?
    requires Holds(s.dir, CONFIG) == Some(Null) || Holds(s.dir, LAST) == Some(Null)
    ensures var (r, outcome) := RestoreLast(s, true, stamp, id, secret);
      outcome == Threw && r.history == s.history && Holds(r.dir, CONFIG) == Some(Printed(Holds(s.dir, LAST).value))
  {
    RestoreLastOnce(s, stamp, id, secret);
  }

  /** So does a value the summary cannot print: `{"a": {"toString": 1}}` in config.json
      and `{"a": true}` in `.last`. */
  lemma ShadowedToStringThrowsLate(s: Store, stamp: string, id: string, secret: string -> bool)
    requires Listing(s.dir) && '/' !in stamp && !secret("a")
    requires Holds(s.dir, CONFIG) == Some(Obj([Field("a", Obj([Field("toString", Number(Finite(1.0)))]))]))
    requires Holds(s.dir, LAST) == Some(Obj([Field("a", Bool(true))]))
    ensures RestoreLast(s, true, stamp, id, secret).1 == Threw
  {
    RestoreLastOnce(s, stamp, id, secret);
    var fields, now := [Field("a", Obj([Field("toString", Number(Finite(1.0)))]))], [Field("a", Bool(true))];
    assert Lookup(now, "a") == Some(Bool(true));
    ChokesStay(fields, now, secret, 0);
  }

  /** Recording a config and restoring that entry gives the config back exactly when it
      held nothing secret, no field named `__proto__`, and nothing that is written as
      null. The command throws, the config written, when the summary does. */
  lemma {:induction false} HistoryRestoresMasked(s: Store, config: seq<Field>, from: string, stamp: string, id: string, secret: string -> bool)
    requires Listing(s.dir) && '/' !in stamp
    requires Unique(s.history.files) && Distinct(Ids(s.history.index)) && from !in Ids(s.history.index)
    ensures var recorded := s.(history := Append(s.history, HistoryEntry(from, "change", Mask(config, secret))));
      var (r, outcome) := RestoreFromHistory(recorded, true, from, stamp, id, secret);
      var copy := Obj(PrintedFields(Mask(config, secret)));
      && Holds(r.dir, CONFIG) == Some(copy)
      && outcome == (if SummaryThrows(OldConfig(s.dir), copy, secret) then Threw else Restored)
      && (Holds(r.dir, CONFIG) == Some(Obj(config)) <==>
            NothingSecret(config, secret) && NoProto(config, secret) && PrintedFields(config) == config)
  {
    var e := HistoryEntry(from, "change", Mask(config, secret));
    var copy := Obj(PrintedFields(Mask(config, secret)));
    AppendEffect(s.history, e, JsonFile(from));
    IndexEffect(s.history.index, IndexEntry(from, "change"));
    OverwriteEffect(s.(history := Append(s.history, e)), copy, "Restored from history " + from, stamp, id, secret, CONFIG);
    PrintedTwice(Obj(Mask(config, secret)));
    RecordIsFaithful(config, secret);
  }

  /** No command ever loses config.json, `.key` or index.json. */
  lemma NothingPrecious(s: Store, owner: bool, from: string, stamp: string, id: string, secret: string -> bool, q: string)
    requires Listing(s.dir) && '/' !in stamp && q in PROTECTED && Has(s.dir, q)
    ensures Has(Backup(s.dir, stamp), q)
    ensures Has(RestoreLast(s, owner, stamp, id, secret).0.dir, q)
    ensures Has(RestoreFromHistory(s, owner, from, stamp, id, secret).0.dir, q)
  {
    ProtectedAreNotBaks(q);
    BackupEffect(s.dir, stamp, q);
    HasGet(s.dir, q);
    HasGet(Backup(s.dir, stamp), q);
    if Holds(s.dir, LAST).Some? {
      PutGet(Backup(s.dir, stamp), CONFIG, Pretty(Holds(s.dir, LAST).value), q);
    }
    if Get(s.history.files, JsonFile(from)).Some? {
      PutGet(Backup(s.dir, stamp), CONFIG, Pretty(Obj(Get(s.history.files, JsonFile(from)).value.snapshotMasked)), q);
    }
  }

  lemma {:induction false} DeleteOther(dir: Dir, name: string, q: string)
    requires q != name
    ensures Get(Delete(dir, name), q) == Get(dir, q)
  {
    if dir == [] {
    } else {
      DeleteOther(dir[1..], name, q);
    }
  }

  lemma {:induction false} ConfigNeverDeleted(dir: Dir, names: seq<string>)
    ensures Get(SafeDeleteAll(dir, names), CONFIG) == Get(dir, CONFIG)
  {
    if names == [] {
    } else {
      ConfigNeverDeleted(dir, names[..|names| - 1]);
      if names[|names| - 1] != CONFIG { DeleteOther(SafeDeleteAll(dir, names[..|names| - 1]), names[|names| - 1], CONFIG); }
    }
  }

  /** Backing up leaves config.json as it is, whatever the directory. */
  lemma BackupKeepsConfig(dir: Dir, stamp: string)
    ensures Get(Backup(dir, stamp), CONFIG) == Get(dir, CONFIG)
  {
    StampedGet(dir, stamp, CONFIG);
    BakNameIsBak(stamp);
    ProtectedAreNotBaks(CONFIG);
    ConfigNeverDeleted(Stamped(dir, stamp), Doomed(Stamped(dir, stamp)));
  }

  // ------------------------------------------------------------ the commands

  method UnlinkRemoved(files: OMap<FileName, HistoryEntry>, removed: seq<IndexEntry>)
    returns (left: OMap<FileName, HistoryEntry>)
    ensures left == UnlinkAll(files, removed)
  {
    left := files;
    for i := 0 to |removed|
      invariant left == UnlinkAll(files, removed[..i])
    {
      assert removed[..i + 1][..i] == removed[..i];
      left := Delete(left, JsonFile(removed[i].id));
    }
    assert removed[..|removed|] == removed;
  }

  method UnlinkOrphans(files: OMap<FileName, HistoryEntry>, keep: seq<string>)
    returns (left: OMap<FileName, HistoryEntry>)
    ensures left == Listed(files, keep)
  {
    left := [];
    for i := 0 to |files|
      invariant left == Listed(files[..i], keep)
    {
      assert files[..i + 1][..i] == files[..i];
      if !(files[i].0.JsonFile? && files[i].0.stem !in keep) { left := left + [files[i]]; }
    }
    assert files[..|files|] == files;
  }

  /** `pruneHistoryEntries`: the overflow of the index is cut off, and its files and those
      of no entry are unlinked. */
  method PruneHistoryEntries(files: OMap<FileName, HistoryEntry>, index: seq<IndexEntry>)
    returns (left: OMap<FileName, HistoryEntry>, kept: seq<IndexEntry>)
    ensures kept == Take(index, MAX_CONFIG_HISTORY_ENTRIES)
    ensures left == Listed(UnlinkAll(files, index[|kept|..]), Ids(kept))
  {
    var removed := if |index| > MAX_CONFIG_HISTORY_ENTRIES then index[MAX_CONFIG_HISTORY_ENTRIES..] else [];
    kept := if |index| > MAX_CONFIG_HISTORY_ENTRIES then index[..MAX_CONFIG_HISTORY_ENTRIES] else index;
    assert removed == index[|kept|..];
    left := UnlinkRemoved(files, removed);
    left := UnlinkOrphans(left, Ids(kept));
  }

  /** The files on disk, rewritten command by command. */
  class ConfigFiles {
    var dir: Dir
    var history: History

    constructor (s: Store)
      ensures dir == s.dir && history == s.history
    {
      dir, history := s.dir, s.history;
    }

    method PruneBackups()
      modifies this`dir
      ensures dir == Prune(old(dir))
    {
      var baks := Reverse(StableSort(Filter(Keys(dir), IsBak), LexLe));
      var doomed := if |baks| > MAX_CONFIG_BACKUPS then baks[MAX_CONFIG_BACKUPS..] else [];
      for i := 0 to |doomed|
        invariant dir == SafeDeleteAll(old(dir), doomed[..i])
      {
        assert doomed[..i + 1][..i] == doomed[..i];
        if SafeToDelete(doomed[i]) { dir := Delete(dir, doomed[i]); }
      }
      assert doomed[..|doomed|] == doomed;
    }

    method BackupCurrent(stamp: string)
      modifies this`dir
      ensures dir == Backup(old(dir), stamp)
    {
      var content := Get(dir, CONFIG);
      if content.Some? {
        dir := Put(dir, LAST, content.value);
        dir := Put(dir, BakName(stamp), content.value);
      }
      PruneBackups();
    }

    method AppendHistory(id: string, description: string, before: Json, after: Json, secret: string -> bool) returns (ok: bool)
      modifies this`history
      ensures ok <==> Recorded(old(history), id, description, before, after, secret).Some?
      ensures history == if ok then Recorded(old(history), id, description, before, after, secret).value else old(history)
    {
      ok := DiffSummary(before, after, secret);
      if !ok { return; }
      var entry := HistoryEntry(id, description, Mask(FieldsOf(after), secret));
      var files := Put(history.files, JsonFile(id), Saved(entry));
      var left, kept := PruneHistoryEntries(files, [IndexEntry(id, description)] + history.index);
      history := History(left, kept);
    }

    /** What both restore commands end with. */
    method WriteAndRecord(value: Json, description: string, before: Json, id: string, secret: string -> bool) returns (outcome: Outcome)
      modifies this
      ensures dir == Put(old(dir), CONFIG, Pretty(value))
      ensures match Recorded(old(history), id, description, before, value, secret)
        case None => outcome == Threw && history == old(history)
        case Some(h) => outcome == Restored && history == h
    {
      dir := Put(dir, CONFIG, Pretty(value));
      var ok := AppendHistory(id, description, before, value, secret);
      outcome := if ok then Restored else Threw;
    }

    method RestoreLastBackup(owner: bool, stamp: string, id: string, secret: string -> bool) returns (outcome: Outcome)
      modifies this
      ensures (Store(dir, history), outcome) == RestoreLast(Store(old(dir), old(history)), owner, stamp, id, secret)
    {
      var before, last := OldConfig(dir), Holds(dir, LAST);
      if last == None { return NothingToRestore; }
      if !owner { return NotOwner; }
      BackupCurrent(stamp);
      outcome := WriteAndRecord(last.value, "Restored from config.json.last", before, id, secret);
    }

    method RestoreEntry(owner: bool, from: string, stamp: string, id: string, secret: string -> bool) returns (outcome: Outcome)
      modifies this
      ensures (Store(dir, history), outcome) ==
              RestoreFromHistory(Store(old(dir), old(history)), owner, from, stamp, id, secret)
    {
      var e := Get(history.files, JsonFile(from));
      if e == None { return NothingToRestore; }
      if !owner { return NotOwner; }
      BackupKeepsConfig(dir, stamp);
      BackupCurrent(stamp);
      var before := OldConfig(dir);
      outcome := WriteAndRecord(Obj(e.value.snapshotMasked), "Restored from history " + from, before, id, secret);
    }
  }
}
