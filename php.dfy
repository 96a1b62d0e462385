/**
 * The slice of PHP's value model and standard library that the SDK relies on:
 * ordered arrays with integer and string keys, `empty()`, the array writes with
 * their autovivification, decimal conversion, ASCII case mapping and `trim`.
 */
module Php {
  import opened Wrappers

  /** An array key after PHP's normalisation: an integer or a string. */
  datatype Key = Index(n: int) | Name(s: string)

  /** A PHP value as the SDK handles it; arrays keep their insertion order. */
  datatype Value =
    | Null
    | Bool(b: bool)
    | Int(i: int)
    | Str(s: string)
    | Arr(entries: seq<(Key, Value)>)

  /** The exceptions and fatal errors the modelled code can raise. */
  datatype Exception =
    | BadMethodCall(message: string)
    | InvalidArgument(message: string)
    | TypeError(message: string)
    | Error(message: string)

  /** PHP's `empty()` on a string: "" and "0". */
  predicate IsEmptyString(s: string) {
    s == "" || s == "0"
  }

  /** PHP's `empty()`: null, false, 0, "", "0" and the empty array. */
  predicate IsEmpty(v: Value) {
    match v
    case Null => true
    case Bool(b) => !b
    case Int(i) => i == 0
    case Str(s) => IsEmptyString(s)
    case Arr(es) => es == []
  }

  // ---------------------------------------------------------------------------
  // Ordered arrays
  // ---------------------------------------------------------------------------

  /** Position of the first entry whose key is `k`. */
  function Find(es: seq<(Key, Value)>, k: Key): (r: Option<nat>)
    ensures r.Some? ==> r.value < |es| && es[r.value].0 == k
    ensures r.Some? ==> forall j :: 0 <= j < r.value ==> es[j].0 != k
    ensures r.None? <==> forall j :: 0 <= j < |es| ==> es[j].0 != k
  {
    if es == [] then None
    else if es[0].0 == k then Some(0)
    else match Find(es[1..], k)
      case None => None
      case Some(i) => Some(i + 1)
  }

  /** `$a[k]` when the key may be missing. */
  function Get(es: seq<(Key, Value)>, k: Key): Option<Value> {
    match Find(es, k)
    case None => None
    case Some(i) => Some(es[i].1)
  }

  /** `$a[k] = v`: overwrite in place, or append the new key at the end. */
  function Put(es: seq<(Key, Value)>, k: Key, v: Value): (r: seq<(Key, Value)>)
    ensures Get(r, k) == Some(v)
    ensures forall k' :: k' != k ==> Get(r, k') == Get(es, k')
    ensures Get(es, k).None? ==> r == es + [(k, v)]
    ensures Get(es, k).Some? ==> |r| == |es|
  {
    match Find(es, k)
    case None =>
      FindAppend(es, k, v);
      forall k' | k' != k ensures Get(es + [(k, v)], k') == Get(es, k') {
        FindAppendOther(es, k, v, k');
      }
      es + [(k, v)]
    case Some(i) =>
      var r := es[i := (k, v)];
      FindReplace(es, i, k, v);
      forall k' | k' != k ensures Get(r, k') == Get(es, k') {
        FindReplaceOther(es, i, k, v, k');
      }
      r
  }

  /** An entry with key `k` and none before it is what `Find` returns. */
  lemma {:induction false} FindFirst(es: seq<(Key, Value)>, k: Key, i: nat)
    requires i < |es| && es[i].0 == k
    requires forall j :: 0 <= j < i ==> es[j].0 != k
    ensures Find(es, k) == Some(i)
  {
    if i > 0 {
      FindFirst(es[1..], k, i - 1);
    }
  }

  lemma FindAppend(es: seq<(Key, Value)>, k: Key, v: Value)
    requires Find(es, k).None?
    ensures Find(es + [(k, v)], k) == Some(|es|)
  {
    FindFirst(es + [(k, v)], k, |es|);
  }

  lemma FindAppendOther(es: seq<(Key, Value)>, k: Key, v: Value, k': Key)
    requires k' != k
    ensures Find(es + [(k, v)], k') == Find(es, k')
  {
    var xs := es + [(k, v)];
    match Find(es, k')
    case None =>
      assert forall j :: 0 <= j < |xs| ==> xs[j].0 != k' by {
        forall j | 0 <= j < |xs| ensures xs[j].0 != k' {
          if j < |es| { assert xs[j] == es[j]; }
        }
      }
    case Some(i) =>
      FindFirst(xs, k', i);
  }

  lemma FindReplace(es: seq<(Key, Value)>, i: nat, k: Key, v: Value)
    requires Find(es, k) == Some(i)
    ensures Find(es[i := (k, v)], k) == Some(i)
  {
    FindFirst(es[i := (k, v)], k, i);
  }

  lemma FindReplaceOther(es: seq<(Key, Value)>, i: nat, k: Key, v: Value, k': Key)
    requires Find(es, k) == Some(i)
    requires k' != k
    ensures Find(es[i := (k, v)], k') == Find(es, k')
  {
    var xs := es[i := (k, v)];
    match Find(es, k')
    case None =>
      assert forall j :: 0 <= j < |xs| ==> xs[j].0 != k';
    case Some(j) =>
      FindFirst(xs, k', j);
  }

  /** `unset($a[k])`: drop the entry, keep the others in order. */
  function Remove(es: seq<(Key, Value)>, k: Key): (r: seq<(Key, Value)>)
    ensures Find(r, k).None?
    ensures |r| <= |es|
    ensures Find(es, k).None? ==> r == es
  {
    if es == [] then []
    else if es[0].0 == k then Remove(es[1..], k)
    else [es[0]] + Remove(es[1..], k)
  }

  /** Past a first entry with another key, `Get` looks in the rest. */
  lemma FindSkip(es: seq<(Key, Value)>, k: Key)
    requires es != [] && es[0].0 != k
    ensures Get(es, k) == Get(es[1..], k)
  {
  }

  /** Removing a key leaves every other key's value as it was. */
  lemma {:induction false} RemoveKeepsOthers(es: seq<(Key, Value)>, k: Key, k': Key)
    requires k' != k
    ensures Get(Remove(es, k), k') == Get(es, k')
  {
    if es != [] {
      RemoveKeepsOthers(es[1..], k, k');
      var rest := Remove(es[1..], k);
      if es[0].0 == k {
        FindSkip(es, k');
      } else {
        var r := [es[0]] + rest;
        assert r[1..] == rest;
        if es[0].0 != k' {
          FindSkip(es, k');
          FindSkip(r, k');
        }
      }
    }
  }

  /** Key `k` occurs once in the entries, at position `i`, as in every PHP array that has it. */
  predicate OnlyAt(es: seq<(Key, Value)>, k: Key, i: int) {
    0 <= i < |es| && es[i].0 == k && forall j :: 0 <= j < |es| && j != i ==> es[j].0 != k
  }

  /** Removing a key that occurs only at position `i` cuts out exactly that entry. */
  lemma {:induction false} RemoveCutsOne(es: seq<(Key, Value)>, k: Key, i: int)
    requires OnlyAt(es, k, i)
    ensures Remove(es, k) == es[..i] + es[i + 1..]
  {
    var rest := es[1..];
    if i == 0 {
      assert forall j :: 0 <= j < |rest| ==> rest[j].0 == es[j + 1].0;
    } else {
      assert OnlyAt(rest, k, i - 1) by {
        forall j | 0 <= j < |rest| && j != i - 1 ensures rest[j].0 != k {
          assert rest[j] == es[j + 1];
        }
      }
      RemoveCutsOne(rest, k, i - 1);
      assert rest[..i - 1] + rest[i..] == es[1..i] + es[i + 1..];
      assert [es[0]] + es[1..i] == es[..i];
    }
  }

  /**
   * The index `$a[] = v` uses, as far as the entries tell: one past the largest
   * integer key, and 0 when no key is a non-negative integer.
   */
  function NextIndex(es: seq<(Key, Value)>): (r: int)
    ensures r >= 0
    ensures forall j :: 0 <= j < |es| && es[j].0.Index? ==> es[j].0.n < r
  {
    if es == [] then 0
    else
      var rest := NextIndex(es[1..]);
      if es[0].0.Index? && es[0].0.n >= rest then es[0].0.n + 1 else rest
  }

  /** `$a[] = v`. */
  function Push(es: seq<(Key, Value)>, v: Value): (r: seq<(Key, Value)>)
    ensures Get(es, Index(NextIndex(es))).None?
    ensures |r| == |es| + 1 && r[..|es|] == es && r[|es|] == (Index(NextIndex(es)), v)
    ensures Get(r, Index(NextIndex(es))) == Some(v)
    ensures forall k' :: k' != Index(NextIndex(es)) ==> Get(r, k') == Get(es, k')
  {
    var k := Index(NextIndex(es));
    assert Find(es, k).None?;
    FindAppend(es, k, v);
    forall k' | k' != k ensures Get(es + [(k, v)], k') == Get(es, k') {
      FindAppendOther(es, k, v, k');
    }
    es + [(k, v)]
  }

  /** The values of an array in order, as `foreach` visits them. */
  function Values(es: seq<(Key, Value)>): (r: seq<Value>)
    ensures |r| == |es|
    ensures forall j :: 0 <= j < |es| ==> r[j] == es[j].1
  {
    if es == [] then [] else [es[0].1] + Values(es[1..])
  }

  /** A list `[0 => v0, 1 => v1, ...]`. */
  function List(vs: seq<Value>): (r: seq<(Key, Value)>)
    ensures |r| == |vs|
    ensures forall j :: 0 <= j < |vs| ==> r[j] == (Index(j), vs[j])
  {
    seq(|vs|, j requires 0 <= j < |vs| => (Index(j), vs[j]))
  }

  /** The next free index of keys base, base + 1, ... is one past the last of them. */
  lemma {:induction false} NextIndexOfRun(es: seq<(Key, Value)>, base: nat)
    requires forall j :: 0 <= j < |es| ==> es[j].0 == Index(base + j)
    ensures NextIndex(es) == if es == [] then 0 else base + |es|
  {
    if es != [] {
      var rest := es[1..];
      forall j | 0 <= j < |rest| ensures rest[j].0 == Index(base + 1 + j) {
        assert rest[j] == es[j + 1];
      }
      NextIndexOfRun(rest, base + 1);
    }
  }

  /** `$list[] = v` on a list extends the list by `v`. */
  lemma PushOntoList(vs: seq<Value>, v: Value)
    ensures Push(List(vs), v) == List(vs + [v])
  {
    NextIndexOfRun(List(vs), 0);
  }

  /** Reading `$v[k]` where a missing key or a non-array yields null. */
  function Lookup(v: Value, k: Key): (r: Value)
    ensures !v.Arr? ==> r == Null
    ensures v.Arr? && Get(v.entries, k).Some? ==> r == Get(v.entries, k).value
  {
    if v.Arr? then
      match Get(v.entries, k)
      case None => Null
      case Some(x) => x
    else Null
  }

  /** The array a write into `v` starts from: null and false become [], other scalars cannot be written into. */
  function Container(v: Value): Option<seq<(Key, Value)>> {
    match v
    case Null => Some([])
    case Bool(b) => if b then None else Some([])
    case Arr(es) => Some(es)
    case _ => None
  }

  const ScalarWrite := Error("Cannot use a scalar value as an array")

  /** `$v[k] = x` (or `$v[] = x` when no key is given), with PHP's autovivification. */
  function WriteOffset(v: Value, k: Option<Key>, x: Value): (r: Result<Value, Exception>)
    ensures r.Failure? <==> Container(v).None?
    ensures r.Success? && k.Some? ==> r.value.Arr? && Get(r.value.entries, k.value) == Some(x)
    ensures r.Success? && k.None? ==> r.value.Arr? && |r.value.entries| == |Container(v).value| + 1
    ensures r.Success? && k.Some? ==>
              forall k' :: k' != k.value ==> Get(r.value.entries, k') == Get(Container(v).value, k')
    ensures r.Success? && k.None? ==>
              r.value.entries == Container(v).value + [(Index(NextIndex(Container(v).value)), x)]
  {
    match Container(v)
    case None => Failure(ScalarWrite)
    case Some(es) =>
      match k
      case Some(key) => Success(Arr(Put(es, key, x)))
      case None => Success(Arr(Push(es, x)))
  }

  /** `$v[k1][k2] = x`, autovivifying both levels. */
  function WriteNested(v: Value, k1: Key, k2: Key, x: Value): (r: Result<Value, Exception>)
    ensures r.Failure? <==> Container(v).None? || Container(Lookup(v, k1)).None?
    ensures r.Success? ==> Lookup(Lookup(r.value, k1), k2) == x
    ensures r.Success? ==>
              r.value.Arr? && forall k' :: k' != k1 ==> Get(r.value.entries, k') == Get(Container(v).value, k')
    ensures r.Success? ==>
              Lookup(r.value, k1).Arr? &&
              forall k' :: k' != k2 ==> Get(Lookup(r.value, k1).entries, k') == Get(Container(Lookup(v, k1)).value, k')
  {
    match Container(v)
    case None => Failure(ScalarWrite)
    case Some(outer) =>
      var inner := match Get(outer, k1) case None => Null case Some(w) => w;
      match WriteOffset(inner, Some(k2), x)
      case Failure(e) => Failure(e)
      case Success(w) => Success(Arr(Put(outer, k1, w)))
  }

  /**
   * `isset($v[k])`: an array entry that exists and is not null, or a string offset
   * within the string (a negative offset counts from the end).
   */
  predicate IssetOffset(v: Value, k: Key) {
    match v
    case Arr(es) => Get(es, k).Some? && Get(es, k).value != Null
    case Str(s) => k.Index? && -|s| <= k.n < |s|
    case _ => false
  }

  /** `$v[k]` where `isset($v[k])` holds: the array entry, or the one-character string at that offset. */
  function ReadOffset(v: Value, k: Key): (r: Value)
    requires IssetOffset(v, k)
    ensures r != Null
    ensures v.Arr? ==> r == Lookup(v, k)
    ensures v.Str? && k.n >= 0 ==> r == Str([v.s[k.n]])
    ensures v.Str? && k.n < 0 ==> r == Str([v.s[|v.s| + k.n]])
  {
    if v.Arr? then Get(v.entries, k).value
    else
      var i := if k.n < 0 then |v.s| + k.n else k.n;
      Str([v.s[i]])
  }

  const StringOffsetType := TypeError("Cannot access offset of type string on string")

  /**
   * `$v[k]` with no `isset` guard, as PHP 8 reads it: a missing array key and any
   * offset of null, a boolean or an integer give null; an integer offset outside a
   * string gives ""; a string offset into a string throws.
   */
  function ReadKey(v: Value, k: Key): (r: Result<Value, Exception>)
    ensures r.Failure? <==> v.Str? && k.Name?
    ensures r.Failure? ==> r.error == StringOffsetType
    ensures v.Arr? ==> r == Success(Lookup(v, k))
    ensures !v.Arr? && !v.Str? ==> r == Success(Null)
    ensures v.Str? && IssetOffset(v, k) ==> r == Success(ReadOffset(v, k))
    ensures v.Str? && k.Index? && !IssetOffset(v, k) ==> r == Success(Str(""))
  {
    match v
    case Arr(_) => Success(Lookup(v, k))
    case Str(_) =>
      if k.Name? then Failure(StringOffsetType)
      else if IssetOffset(v, k) then Success(ReadOffset(v, k))
      else Success(Str(""))
    case _ => Success(Null)
  }

  const StringUnset := Error("Cannot unset string offsets")
  const ScalarUnset := Error("Cannot unset offset in a non-array variable")

  /**
   * `unset($v[k])`: removes the key from an array; null and false are left alone;
   * a string, an integer or true throws.
   */
  function UnsetOffset(v: Value, k: Key): (r: Result<Value, Exception>)
    ensures r.Failure? <==> v.Str? || v.Int? || v == Bool(true)
    ensures r.Failure? ==> r.error == (if v.Str? then StringUnset else ScalarUnset)
    ensures r.Success? ==> !IssetOffset(r.value, k)
    ensures r.Success? && !v.Arr? ==> r.value == v
    ensures r.Success? && v.Arr? ==> r.value.Arr? && |r.value.entries| <= |v.entries|
    ensures r.Success? && v.Arr? ==> forall k' :: k' != k ==> Get(r.value.entries, k') == Get(v.entries, k')
    ensures r.Success? && v.Arr? ==>
              forall i :: OnlyAt(v.entries, k, i) ==> r.value.entries == v.entries[..i] + v.entries[i + 1..]
  {
    match v
    case Arr(es) =>
      forall k' | k' != k ensures Get(Remove(es, k), k') == Get(es, k') {
        RemoveKeepsOthers(es, k, k');
      }
      forall i | OnlyAt(es, k, i) ensures Remove(es, k) == es[..i] + es[i + 1..] {
        RemoveCutsOne(es, k, i);
      }
      var rest := Remove(es, k);
      assert Get(rest, k).None?;
      Success(Arr(rest))
    case Str(_) => Failure(StringUnset)
    case Int(_) => Failure(ScalarUnset)
    case Bool(b) => if b then Failure(ScalarUnset) else Success(v)
    case Null => Success(v)
  }

  /** `count($v)`: PHP 8 throws a TypeError for anything but an array. */
  function CountOf(v: Value): (r: Result<nat, Exception>)
    ensures r.Success? <==> v.Arr?
    ensures r.Success? ==> r.value == |v.entries|
  {
    if v.Arr? then Success(|v.entries|)
    else
      var r: Result<nat, Exception> := Failure(TypeError("count(): Argument #1 must be of type Countable|array"));
      r
  }

  /** Array keys renumbered as `array_merge` does: integer keys become 0, 1, ... in order. */
  function Renumber(es: seq<(Key, Value)>, next: int): (r: seq<(Key, Value)>)
    ensures |r| == |es|
    ensures forall j :: 0 <= j < |es| ==> r[j].1 == es[j].1
    ensures forall j :: 0 <= j < |es| ==> (r[j].0.Name? <==> es[j].0.Name?)
    ensures forall j :: 0 <= j < |es| && es[j].0.Name? ==> r[j].0 == es[j].0
  {
    if es == [] then []
    else if es[0].0.Index? then [(Index(next), es[0].1)] + Renumber(es[1..], next + 1)
    else [es[0]] + Renumber(es[1..], next)
  }

  /** Renumbering leaves a lookup by name unchanged. */
  lemma RenumberKeepsNames(es: seq<(Key, Value)>, next: int, name: string)
    ensures Get(Renumber(es, next), Name(name)) == Get(es, Name(name))
  {
    var r := Renumber(es, next);
    assert forall j :: 0 <= j < |es| ==> (r[j].0 == Name(name) <==> es[j].0 == Name(name));
    match Find(es, Name(name))
    case None =>
    case Some(i) => FindFirst(r, Name(name), i);
  }

  /** An array with string keys only is left as it is. */
  lemma {:induction false} RenumberNamesOnly(es: seq<(Key, Value)>, next: int)
    requires forall j :: 0 <= j < |es| ==> es[j].0.Name?
    ensures Renumber(es, next) == es
    decreases |es|
  {
    if es != [] {
      RenumberNamesOnly(es[1..], next);
    }
  }

  // ---------------------------------------------------------------------------
  // Strings
  // ---------------------------------------------------------------------------

  predicate IsDigit(c: char) {
    '0' <= c <= '9'
  }

  /** Decimal digits of a natural number, most significant first. */
  function NatToDecimal(n: nat): (r: string)
    ensures |r| > 0
    ensures forall j :: 0 <= j < |r| ==> IsDigit(r[j])
    decreases n
  {
    var d := "0123456789"[n % 10];
    if n < 10 then [d] else NatToDecimal(n / 10) + [d]
  }

  /** PHP's string conversion of an integer. */
  function IntToDecimal(i: int): (r: string)
    ensures |r| > 0
    ensures forall j :: 0 <= j < |r| ==> IsDigit(r[j]) || (j == 0 && r[j] == '-' && i < 0)
  {
    if i < 0 then "-" + NatToDecimal(-i) else NatToDecimal(i)
  }

  function UpperChar(c: char): char {
    if 'a' <= c <= 'z' then (c as int - 32) as char else c
  }

  function LowerChar(c: char): char {
    if 'A' <= c <= 'Z' then (c as int + 32) as char else c
  }

  /** `strtoupper`: ASCII letters only. */
  function Upper(s: string): (r: string)
    ensures |r| == |s|
    ensures forall j :: 0 <= j < |s| ==> r[j] == UpperChar(s[j])
  {
    seq(|s|, j requires 0 <= j < |s| => UpperChar(s[j]))
  }

  /** `strtolower`: ASCII letters only. */
  function Lower(s: string): (r: string)
    ensures |r| == |s|
    ensures forall j :: 0 <= j < |s| ==> r[j] == LowerChar(s[j])
  {
    seq(|s|, j requires 0 <= j < |s| => LowerChar(s[j]))
  }

  /** `strcasecmp(a, b) === 0`. */
  predicate EqualsIgnoreCase(a: string, b: string) {
    Lower(a) == Lower(b)
  }

  /** The characters `trim` strips by default. */
  const Whitespace: set<char> := {' ', '\t', '\n', '\r', 0 as char, 11 as char}

  /** `ltrim($s, $cs)`. */
  function TrimLeft(s: string, cs: set<char>): (r: string)
    ensures |r| <= |s| && r == s[|s| - |r|..]
    ensures r == [] || r[0] !in cs
    ensures forall j :: 0 <= j < |s| - |r| ==> s[j] in cs
  {
    if s != [] && s[0] in cs then TrimLeft(s[1..], cs) else s
  }

  /** `rtrim($s, $cs)`. */
  function TrimRight(s: string, cs: set<char>): (r: string)
    ensures |r| <= |s| && r == s[..|r|]
    ensures r == [] || r[|r| - 1] !in cs
    ensures forall j :: |r| <= j < |s| ==> s[j] in cs
  {
    if s != [] && s[|s| - 1] in cs then TrimRight(s[..|s| - 1], cs) else s
  }

  /** `trim($s, $cs)`: a slice of `s` with no `cs` character at either end, and only `cs` characters cut off. */
  function Trim(s: string, cs: set<char>): (r: string)
    ensures r == [] || (r[0] !in cs && r[|r| - 1] !in cs)
    ensures var i := |s| - |TrimLeft(s, cs)|;
            i + |r| <= |s| && r == s[i..i + |r|] &&
            (forall j :: 0 <= j < i ==> s[j] in cs) &&
            (forall j :: i + |r| <= j < |s| ==> s[j] in cs)
  {
    TrimRight(TrimLeft(s, cs), cs)
  }
}

/**
 * PHP 8's loose `==` on two strings: when both are numeric strings they are
 * compared as numbers, otherwise byte for byte.
 */
module LooseCompare {
  import opened Wrappers
  import opened Php

  predicate AllDigits(s: string) {
    |s| > 0 && forall j :: 0 <= j < |s| ==> IsDigit(s[j])
  }

  /** The number a string of decimal digits denotes. */
  function DigitsValue(s: string): (n: nat)
    requires forall j :: 0 <= j < |s| ==> IsDigit(s[j])
    ensures (forall j :: 0 <= j < |s| ==> s[j] == '0') ==> n == 0
    decreases |s|
  {
    if s == [] then 0
    else
      assert IsDigit(s[|s| - 1]);
      DigitsValue(s[..|s| - 1]) * 10 + (s[|s| - 1] as int - '0' as int)
  }

  function Pow10(e: nat): (p: nat)
    ensures p >= 1
  {
    if e == 0 then 1 else 10 * Pow10(e - 1)
  }

  /** Position of the first exponent marker 'e' or 'E'. */
  function ExponentMarker(s: string): (r: Option<nat>)
    ensures r.Some? ==> r.value < |s| && s[r.value] in "eE"
    ensures r.Some? ==> forall j :: 0 <= j < r.value ==> s[j] !in "eE"
    ensures r.None? ==> forall j :: 0 <= j < |s| ==> s[j] !in "eE"
  {
    if s == [] then None
    else if s[0] in "eE" then Some(0)
    else match ExponentMarker(s[1..])
      case None => None
      case Some(i) => Some(i + 1)
  }

  /** The numeric strings of the form `digits` or `digits e digits`. */
  predicate IsNumeric(s: string) {
    match ExponentMarker(s)
    case None => AllDigits(s)
    case Some(i) => AllDigits(s[..i]) && AllDigits(s[i + 1..])
  }

  function NumericValue(s: string): nat
    requires IsNumeric(s)
  {
    match ExponentMarker(s)
    case None => DigitsValue(s)
    case Some(i) => DigitsValue(s[..i]) * Pow10(DigitsValue(s[i + 1..]))
  }

  /** `$a == $b` for strings of the forms above. */
  predicate LooseEquals(a: string, b: string) {
    if IsNumeric(a) && IsNumeric(b) then NumericValue(a) == NumericValue(b) else a == b
  }

  /** Equal strings are loosely equal; the converse fails for numeric strings. */
  lemma LooseEqualsReflexive(a: string)
    ensures LooseEquals(a, a)
  {
  }

  /** Every string `0e<digits>` is loosely equal to "0". */
  lemma ZeroExponentEqualsZero(digits: string)
    requires AllDigits(digits)
    ensures LooseEquals("0", "0e" + digits)
  {
    var s := "0e" + digits;
    assert ExponentMarker("0") == None;
    assert ExponentMarker(s) == Some(1);
    assert s[..1] == "0" && s[2..] == digits;
    assert DigitsValue("0") == 0;
  }
}
