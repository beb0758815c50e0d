/**
 * The slice of JavaScript's value semantics that the recipe route relies on:
 * the values a JSON document can hold (plus `undefined`), truthiness, property
 * reads that throw on `null`/`undefined`, optional chaining, and object spread.
 */
module Js {

  /** A JavaScript value as produced by `JSON.parse`, plus `undefined`. */
  datatype Value =
    | Undefined
    | Null
    | Bool(b: bool)
    | Num(n: real)
    | Str(s: string)
    | Arr(items: seq<Value>)
    | Obj(fields: map<string, Value>)

  /** How an evaluation ends: with a value, or by throwing (a TypeError). */
  datatype Completion<+T> = Returned(value: T) | Threw

  /** `undefined` and `null`, the two values on which a property read throws. */
  predicate Nullish(v: Value) {
    v.Undefined? || v.Null?
  }

  /** ToBoolean: what `if (v)`, `!v` and `v || w` test. */
  predicate Truthy(v: Value) {
    match v
    case Undefined => false
    case Null => false
    case Bool(b) => b
    case Num(n) => n != 0.0
    case Str(s) => s != []
    case Arr(_) => true
    case Obj(_) => true
  }

  /**
   * The property names the route reads with `.name`. None of them is supplied
   * by a prototype of any JSON value, so a missing own property reads as
   * `undefined`.
   */
  predicate RouteName(name: string) {
    name in {"candidates", "content", "parts", "text", "error", "message",
             "results", "urls", "regular", "sourceUrl", "title"}
  }

  /** The decimal digit character for `d`. */
  function Digit(d: nat): (c: char)
    requires d < 10
    ensures '0' <= c <= '9' && c as int - '0' as int == d
  {
    ('0' as int + d) as char
  }

  /** Decimal digits of a natural number, as used for array-index keys. */
  function NatToString(n: nat): (r: string)
    ensures |r| >= 1
    ensures forall k :: 0 <= k < |r| ==> '0' <= r[k] <= '9'
    ensures |r| == 1 <==> n < 10
    decreases n
  {
    if n < 10 then [Digit(n)]
    else NatToString(n / 10) + [Digit(n % 10)]
  }

  /** Different numbers have different decimal spellings. */
  lemma {:induction false} NatToStringInjective(a: nat, b: nat)
    requires NatToString(a) == NatToString(b)
    ensures a == b
    decreases a
  {
    var ra, rb := NatToString(a), NatToString(b);
    if 10 <= a && 10 <= b {
      assert ra[|ra| - 1] == Digit(a % 10) && rb[|rb| - 1] == Digit(b % 10);
      assert ra[..|ra| - 1] == NatToString(a / 10) && rb[..|rb| - 1] == NatToString(b / 10);
      NatToStringInjective(a / 10, b / 10);
    } else {
      assert ra[0] == Digit(a) && rb[0] == Digit(b);
    }
  }

  /** The key of the last element differs from the keys of all earlier ones. */
  lemma LastKeyFresh(n: nat)
    ensures forall k :: 0 <= k < n ==> NatToString(k) != NatToString(n)
  {
    forall k | 0 <= k < n
      ensures NatToString(k) != NatToString(n)
    {
      if NatToString(k) == NatToString(n) {
        NatToStringInjective(k, n);
      }
    }
  }

  /**
   * Whether `String(v)` throws. A value from JSON has no callable own
   * properties: an object with an own `toString` hides the inherited one, and
   * the inherited `valueOf` returns the object itself, so the conversion
   * throws a TypeError; an array converts by joining its elements, so it
   * throws when one of them does; every other value converts.
   */
  predicate ToStringThrows(v: Value)
    decreases v
  {
    match v
    case Obj(fields) => "toString" in fields
    case Arr(items) => exists k :: 0 <= k < |items| && ToStringThrows(items[k])
    case _ => false
  }

  /** `v.name`: throws on `null`/`undefined`, reads an own field of an object. */
  function Member(v: Value, name: string): (r: Completion<Value>)
    requires RouteName(name)
    ensures r.Threw? <==> Nullish(v)
    ensures r.Returned? && !r.value.Undefined? ==> v.Obj? && name in v.fields && r.value == v.fields[name]
  {
    match v
    case Undefined => Threw
    case Null => Threw
    case Obj(m) => Returned(if name in m then m[name] else Undefined)
    case _ => Returned(Undefined)
  }

  /** `v[i]`: an array element, a one-character string, or an object's field named by the digits of `i`. */
  function Index(v: Value, i: nat): (r: Completion<Value>)
    ensures r.Threw? <==> Nullish(v)
  {
    match v
    case Undefined => Threw
    case Null => Threw
    case Arr(xs) => Returned(if i < |xs| then xs[i] else Undefined)
    case Str(s) => Returned(if i < |s| then Str([s[i]]) else Undefined)
    case Obj(m) => Returned(var key := NatToString(i); if key in m then m[key] else Undefined)
    case _ => Returned(Undefined)
  }

  /** `v?.name`: `undefined` when `v` is nullish, otherwise `v.name`; never throws. */
  function OptMember(v: Value, name: string): (r: Value)
    requires RouteName(name)
    ensures Nullish(v) ==> r == Undefined
    ensures !Nullish(v) ==> Member(v, name) == Returned(r)
    ensures !r.Undefined? ==> v.Obj? && name in v.fields && r == v.fields[name]
    ensures v.Obj? && name in v.fields ==> r == v.fields[name]
  {
    if Nullish(v) then Undefined else Member(v, name).value
  }

  /** `v?.[i]`: `undefined` when `v` is nullish, otherwise `v[i]`; never throws. */
  function OptIndex(v: Value, i: nat): (r: Value)
    ensures Nullish(v) ==> r == Undefined
    ensures !Nullish(v) ==> Index(v, i) == Returned(r)
    ensures v.Arr? && i < |v.items| ==> r == v.items[i]
    ensures v.Str? && i < |v.s| ==> r == Str([v.s[i]])
    ensures v.Obj? && NatToString(i) in v.fields ==> r == v.fields[NatToString(i)]
    ensures !r.Undefined? ==>
              (v.Arr? && i < |v.items|) || (v.Str? && i < |v.s|) || (v.Obj? && NatToString(i) in v.fields)
  {
    if Nullish(v) then Undefined else Index(v, i).value
  }

  /** The own enumerable properties of an array or string, keyed by their decimal index. */
  function Indexed(xs: seq<Value>): (m: map<string, Value>)
    decreases |xs|
  {
    if xs == [] then map[]
    else Indexed(xs[..|xs| - 1])[NatToString(|xs| - 1) := xs[|xs| - 1]]
  }

  /** `key` is the decimal spelling of an index below `n`. */
  ghost predicate IndexKey(key: string, n: nat) {
    exists k :: 0 <= k < n && key == NatToString(k)
  }

  /** `m` holds exactly the elements of `xs`, each under the decimal spelling of its index. */
  ghost predicate KeyedByIndex(m: map<string, Value>, xs: seq<Value>) {
    (forall key :: key in m ==> IndexKey(key, |xs|))
    && forall k :: 0 <= k < |xs| ==> NatToString(k) in m && m[NatToString(k)] == xs[k]
  }

  /** Every key of `Indexed(xs)` spells an index of `xs`. */
  lemma {:induction false} IndexedDomain(xs: seq<Value>)
    ensures forall key :: key in Indexed(xs) ==> IndexKey(key, |xs|)
    decreases |xs|
  {
    if xs != [] {
      var n := |xs| - 1;
      IndexedDomain(xs[..n]);
      forall key | key in Indexed(xs)
        ensures IndexKey(key, |xs|)
      {
        if key == NatToString(n) {
          assert 0 <= n < |xs| && key == NatToString(n);
        } else {
          assert key in Indexed(xs[..n]);
          assert IndexKey(key, n);
          var k :| 0 <= k < n && key == NatToString(k);
          assert 0 <= k < |xs| && key == NatToString(k);
        }
      }
    }
  }

  /** `Indexed(xs)` holds every element of `xs` under its index. */
  lemma {:induction false} IndexedValues(xs: seq<Value>)
    ensures forall k :: 0 <= k < |xs| ==> NatToString(k) in Indexed(xs) && Indexed(xs)[NatToString(k)] == xs[k]
    decreases |xs|
  {
    if xs != [] {
      var n := |xs| - 1;
      var front := xs[..n];
      var m := Indexed(front);
      IndexedValues(front);
      LastKeyFresh(n);
      assert Indexed(xs) == m[NatToString(n) := xs[n]];
      forall k | 0 <= k < n
        ensures NatToString(k) in Indexed(xs) && Indexed(xs)[NatToString(k)] == xs[k]
      {
        assert NatToString(k) != NatToString(n);
        assert m[NatToString(k)] == front[k] == xs[k];
      }
    }
  }

  /** `Indexed` keys every element by its index and holds nothing else. */
  lemma IndexedKeys(xs: seq<Value>)
    ensures KeyedByIndex(Indexed(xs), xs)
  {
    IndexedDomain(xs);
    IndexedValues(xs);
  }

  /** The one-character strings of `s`, in order: what spreading a string enumerates. */
  function Chars(s: string): (r: seq<Value>)
    ensures |r| == |s|
    ensures forall k :: 0 <= k < |s| ==> r[k] == Str([s[k]])
  {
    seq(|s|, k requires 0 <= k < |s| => Str([s[k]]))
  }

  /**
   * The fields `{...v}` copies: an object's own fields, an array's or string's
   * indexed elements, nothing for other primitives.
   */
  function Spread(v: Value): (m: map<string, Value>)
    ensures v.Obj? ==> m == v.fields
    ensures v.Arr? ==> KeyedByIndex(m, v.items)
    ensures v.Str? ==> KeyedByIndex(m, Chars(v.s))
    ensures v.Bool? || v.Num? || Nullish(v) ==> m == map[]
  {
    match v
    case Obj(fields) => fields
    case Arr(xs) => IndexedKeys(xs); Indexed(xs)
    case Str(s) => IndexedKeys(Chars(s)); Indexed(Chars(s))
    case _ => map[]
  }
}
