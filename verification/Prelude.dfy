/** Vocabulary shared by every module: options, trimming a list to its newest
    elements, flattening, ASCII case folding, and numerals. */
module Prelude {

  datatype Option<+T> = None | Some(value: T)

  /** The newest `n` elements: what `splice(0, length - n)` leaves behind. */
  function Newest<T>(s: seq<T>, n: nat): (r: seq<T>)
    ensures |r| <= n && |r| <= |s|
    ensures |s| <= n ==> r == s
  {
    if |s| > n then s[|s| - n..] else s
  }

  /** Trimming early does not change what a later trim keeps. */
  lemma NewestOfAppend<T>(a: seq<T>, b: seq<T>, n: nat)
    ensures Newest(Newest(a, n) + b, n) == Newest(a + b, n)
  {
  }

  function Flatten<T>(ss: seq<seq<T>>): seq<T> {
    if ss == [] then [] else ss[0] + Flatten(ss[1..])
  }

  lemma {:induction false} FlattenAppend<T>(a: seq<seq<T>>, b: seq<seq<T>>)
    ensures Flatten(a + b) == Flatten(a) + Flatten(b)
  {
    if a == [] {
      assert a + b == b;
    } else {
      assert (a + b)[1..] == a[1..] + b;
      FlattenAppend(a[1..], b);
    }
  }

  ghost predicate Distinct<T>(s: seq<T>) {
    forall i, j :: 0 <= i < j < |s| ==> s[i] != s[j]
  }

  function Min(a: int, b: int): int { if a < b then a else b }

  function Max(a: int, b: int): int { if a > b then a else b }

  function LowerChar(c: char): char {
    if 'A' <= c <= 'Z' then ((c as int) + 32) as char else c
  }

  function Lower(s: string): (r: string)
    ensures |r| == |s|
  {
    seq(|s|, i requires 0 <= i < |s| => LowerChar(s[i]))
  }

  predicate IsBlank(c: char) { c == ' ' || c == '\t' || c == '\n' || c == '\r' }

  function TrimLeft(s: string): string {
    if s != [] && IsBlank(s[0]) then TrimLeft(s[1..]) else s
  }

  function TrimRight(s: string): string {
    if s != [] && IsBlank(s[|s| - 1]) then TrimRight(s[..|s| - 1]) else s
  }

  function Trim(s: string): string { TrimRight(TrimLeft(s)) }

  const ESC: char := '\U{001B}'

  function DigitChar(d: nat): (c: char)
    requires d < 10
    ensures c != ESC
  {
    (d + 48) as char
  }

  /** A number as JavaScript prints it. */
  function Digits(n: nat): (s: string)
    ensures s != "" && ESC !in s
  {
    if n < 10 then [DigitChar(n)] else Digits(n / 10) + [DigitChar(n % 10)]
  }

  /** Assigning to this key of an object sets its prototype, or does nothing, and adds no key. */
  const PROTO: string := "__proto__"
}
