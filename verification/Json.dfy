/** JSON values as JavaScript holds them after `JSON.parse`: objects keep their keys in
    order, and a numeral too large for a double parses to an infinity. Fields are a
    type of their own so that recursion into an object's values terminates. */
module Json {
  import opened Prelude

  datatype Num = Finite(r: real) | PosInf | NegInf

  datatype Json =
    | Null
    | Bool(b: bool)
    | Number(n: Num)
    | Str(s: string)
    | Arr(items: seq<Json>)
    | Obj(fields: seq<Field>)

  datatype Field = Field(key: string, value: Json)

  /** `key in object`, own keys only. */
  predicate HasKey(o: seq<Field>, key: string) {
    o != [] && (o[0].key == key || HasKey(o[1..], key))
  }

  function Lookup(o: seq<Field>, key: string): Option<Json> {
    if o == [] then None
    else if o[0].key == key then Some(o[0].value)
    else Lookup(o[1..], key)
  }

  /** Assigning a present key keeps its place; an absent one goes to the end. */
  function Assign(o: seq<Field>, key: string, v: Json): seq<Field> {
    if o == [] then [Field(key, v)]
    else if o[0].key == key then [Field(key, v)] + o[1..]
    else [o[0]] + Assign(o[1..], key, v)
  }

  /** `delete object[key]`. */
  function Omit(o: seq<Field>, key: string): seq<Field> {
    if o == [] then []
    else if o[0].key == key then Omit(o[1..], key)
    else [o[0]] + Omit(o[1..], key)
  }

  lemma {:induction false} HasLookup(o: seq<Field>, key: string)
    ensures HasKey(o, key) <==> Lookup(o, key).Some?
    ensures HasKey(o, key) <==> exists i :: 0 <= i < |o| && o[i].key == key
  {
    if o == [] {
    } else {
      HasLookup(o[1..], key);
      assert forall i :: 0 < i < |o| ==> o[i] == o[1..][i - 1];
      assert forall i :: 0 <= i < |o[1..]| ==> o[1..][i] == o[i + 1];
    }
  }

  lemma {:induction false} AssignLookup(o: seq<Field>, key: string, v: Json, q: string)
    ensures Lookup(Assign(o, key, v), q) == if q == key then Some(v) else Lookup(o, q)
    ensures HasKey(Assign(o, key, v), q) <==> q == key || HasKey(o, q)
    ensures |Assign(o, key, v)| == |o| + if HasKey(o, key) then 0 else 1
  {
    if o == [] || o[0].key == key {
    } else {
      AssignLookup(o[1..], key, v, q);
    }
  }

  lemma {:induction false} OmitLookup(o: seq<Field>, key: string, q: string)
    ensures Lookup(Omit(o, key), q) == if q == key then None else Lookup(o, q)
    ensures HasKey(Omit(o, key), q) <==> q != key && HasKey(o, q)
    ensures |Omit(o, key)| <= |o| && (HasKey(o, key) ==> |Omit(o, key)| < |o|)
    ensures !HasKey(o, key) ==> Omit(o, key) == o
  {
    if o == [] {
    } else {
      OmitLookup(o[1..], key, q);
    }
  }

  /** Assigning what is already there changes nothing. */
  lemma {:induction false} AssignSame(o: seq<Field>, key: string)
    requires HasKey(o, key)
    ensures Lookup(o, key).Some? && Assign(o, key, Lookup(o, key).value) == o
  {
    if o[0].key == key {
    } else {
      AssignSame(o[1..], key);
    }
  }

  // ------------------------------------------------- what ends up in the file

  /** A value as `JSON.stringify` writes it: an infinity is written as null. */
  function Printed(j: Json): Json {
    match j
    case Number(n) => if n.Finite? then j else Null
    case Arr(items) => Arr(PrintedItems(items))
    case Obj(fields) => Obj(PrintedFields(fields))
    case _ => j
  }

  function PrintedItems(items: seq<Json>): seq<Json> {
    if items == [] then [] else PrintedItems(items[..|items| - 1]) + [Printed(items[|items| - 1])]
  }

  function PrintedFields(o: seq<Field>): seq<Field> {
    if o == [] then [] else [Field(o[0].key, Printed(o[0].value))] + PrintedFields(o[1..])
  }

  function PrintedAt(o: seq<Field>, q: string): Option<Json> {
    match Lookup(o, q) case None => None case Some(v) => Some(Printed(v))
  }

  lemma {:induction false} PrintedLookup(o: seq<Field>, q: string)
    ensures Lookup(PrintedFields(o), q) == PrintedAt(o, q)
  {
    if o == [] {
    } else {
      PrintedLookup(o[1..], q);
    }
  }

  lemma {:induction false} PrintedLength(o: seq<Field>)
    ensures |PrintedFields(o)| == |o|
  {
    if o == [] {
    } else {
      PrintedLength(o[1..]);
    }
  }

  lemma {:induction false} PrintedItemsLength(items: seq<Json>)
    ensures |PrintedItems(items)| == |items|
  {
    if items == [] {
    } else {
      PrintedItemsLength(items[..|items| - 1]);
    }
  }

  lemma PrintedSnoc(items: seq<Json>, v: Json)
    ensures PrintedItems(items + [v]) == PrintedItems(items) + [Printed(v)]
  {
    assert (items + [v])[..|items|] == items;
  }

  /** What was written once is written the same again. */
  lemma {:induction false} PrintedTwice(j: Json)
    ensures Printed(Printed(j)) == Printed(j)
    decreases j
  {
    match j
    case Arr(items) => PrintedItemsTwice(items);
    case Obj(fields) => PrintedFieldsTwice(fields);
    case _ =>
  }

  lemma {:induction false} PrintedItemsTwice(items: seq<Json>)
    ensures PrintedItems(PrintedItems(items)) == PrintedItems(items)
    decreases items
  {
    if items == [] {
    } else {
      var init, last := items[..|items| - 1], items[|items| - 1];
      PrintedItemsTwice(init);
      PrintedTwice(last);
      PrintedSnoc(PrintedItems(init), Printed(last));
    }
  }

  lemma {:induction false} PrintedFieldsTwice(o: seq<Field>)
    ensures PrintedFields(PrintedFields(o)) == PrintedFields(o)
    decreases o
  {
    if o == [] {
    } else {
      PrintedTwice(o[0].value);
      PrintedFieldsTwice(o[1..]);
      assert PrintedFields(o)[1..] == PrintedFields(o[1..]);
    }
  }
}
