/** The JavaScript values the SDK handles: optional values, parsed JSON data,
    the truthiness and `??` tests the code branches on, `String(...)` of a
    value, and the mutable plain objects that `Object.assign` writes into. */
module Js {

  datatype Option<+T> = None | Some(value: T)

  datatype Result<+R, +E> = Success(value: R) | Failure(error: E)

  /** A value produced by `JSON.parse`. Numbers are integers in this model. */
  datatype Json =
    | JNull
    | JBool(b: bool)
    | JNum(n: int)
    | JStr(s: string)
    | JArr(items: seq<Json>)
    | JObj(fields: map<string, Json>)

  /** JavaScript truthiness of a JSON value: `null`, `false`, `0` and `""` are falsy. */
  predicate Truthy(j: Json) {
    match j
    case JNull => false
    case JBool(b) => b
    case JNum(n) => n != 0
    case JStr(s) => s != ""
    case _ => true
  }

  /** Truthiness of an optional string (`undefined` and `""` are falsy). */
  predicate NonEmpty(o: Option<string>) {
    o.Some? && o.value != ""
  }

  /** `m[key]` for a string dictionary such as `process.env` or the parsed
      options: the value when the key is there, `undefined` otherwise. */
  function Lookup(m: map<string, string>, key: string): (r: Option<string>)
    ensures r.Some? <==> key in m
    ensures r.Some? ==> r.value == m[key]
  {
    if key in m then Some(m[key]) else None
  }

  /** `v.key` for a parsed value `v` that is not null: only objects have own properties. */
  function Property(v: Json, key: string): (r: Option<Json>)
    ensures r.Some? <==> v.JObj? && key in v.fields
    ensures r.Some? ==> r.value == v.fields[key]
  {
    if v.JObj? && key in v.fields then Some(v.fields[key]) else None
  }

  /** `v` is an object whose property `key` holds something other than null. */
  predicate HasValue(v: Json, key: string) {
    v.JObj? && key in v.fields && v.fields[key] != JNull
  }

  /** `a ?? b`: the left operand unless it is `undefined` or `null`. */
  function Coalesce(a: Option<Json>, b: Json): (r: Json)
    ensures a.Some? && a.value != JNull ==> r == a.value
    ensures a.None? || a.value == JNull ==> r == b
  {
    match a
    case Some(v) => if v == JNull then b else v
    case None => b
  }

  /** `a || b || ...` over optional strings: the first truthy one, if any. */
  function FirstNonEmpty(candidates: seq<Option<string>>): (r: Option<string>)
    ensures r.Some? <==> exists i :: 0 <= i < |candidates| && NonEmpty(candidates[i])
    ensures r.Some? ==> exists i :: 0 <= i < |candidates| && candidates[i] == r
                          && r.value != ""
                          && forall j :: 0 <= j < i ==> !NonEmpty(candidates[j])
  {
    if candidates == [] then None
    else if NonEmpty(candidates[0]) then candidates[0]
    else
      var r := FirstNonEmpty(candidates[1..]);
      assert forall i :: 1 <= i < |candidates| ==> candidates[i] == candidates[1..][i - 1];
      r
  }

  predicate StartsWith(s: string, prefix: string) {
    |prefix| <= |s| && s[..|prefix|] == prefix
  }

  // Decimal text of integers, as `String(n)` writes it.

  predicate IsDigit(c: char) {
    '0' <= c <= '9'
  }

  predicate AllDigits(s: string) {
    forall i :: 0 <= i < |s| ==> IsDigit(s[i])
  }

  function DigitChar(d: nat): (c: char)
    requires d < 10
    ensures IsDigit(c) && c as int - '0' as int == d
  {
    ('0' as int + d) as char
  }

  function DigitValue(c: char): (d: nat)
    requires IsDigit(c)
    ensures d < 10
  {
    c as int - '0' as int
  }

  /** `String(n)` for a natural number: digits, no leading zero. */
  function NatToDecimal(n: nat): (s: string)
    ensures |s| >= 1 && AllDigits(s)
    ensures s[0] == '0' ==> s == "0"
  {
    if n < 10 then [DigitChar(n)] else NatToDecimal(n / 10) + [DigitChar(n % 10)]
  }

  /** The value of a string of decimal digits. */
  function DecimalValue(s: string): nat
    requires AllDigits(s)
  {
    if s == [] then 0 else DecimalValue(s[..|s| - 1]) * 10 + DigitValue(s[|s| - 1])
  }

  /** `Number(s)` on a string of decimal digits; any other text has no integer value here. */
  function ParseDecimal(s: string): (r: Option<nat>)
    ensures r.Some? <==> s != "" && AllDigits(s)
  {
    if s != "" && AllDigits(s) then Some(DecimalValue(s)) else None
  }

  /** A JavaScript number as far as this model needs one: an integer or `NaN`. */
  datatype Number = Num(n: int) | NaN

  /** `Number(s)` for a text of decimal digits with an optional sign; every
      other non-empty text is `NaN` here. */
  function ToNumber(s: string): (r: Number)
    ensures s != "" && AllDigits(s) ==> r == Num(DecimalValue(s))
    ensures |s| >= 2 && s[0] == '-' && AllDigits(s[1..]) ==> r == Num(-(DecimalValue(s[1..]) as int))
    ensures |s| >= 2 && s[0] == '+' && AllDigits(s[1..]) ==> r == Num(DecimalValue(s[1..]))
    ensures r.NaN? <==> s != "" && !AllDigits(s) && !(|s| >= 2 && (s[0] == '-' || s[0] == '+') && AllDigits(s[1..]))
  {
    if AllDigits(s) then Num(DecimalValue(s))
    else if |s| >= 2 && s[0] == '-' && AllDigits(s[1..]) then Num(-(DecimalValue(s[1..]) as int))
    else if |s| >= 2 && s[0] == '+' && AllDigits(s[1..]) then Num(DecimalValue(s[1..]))
    else NaN
  }

  /** Reading back the decimal text of a number gives the number. */
  lemma {:induction false} DecimalRoundTrip(n: nat)
    ensures ParseDecimal(NatToDecimal(n)) == Some(n)
  {
    var s := NatToDecimal(n);
    if n >= 10 {
      var t := NatToDecimal(n / 10);
      DecimalRoundTrip(n / 10);
      assert s == t + [DigitChar(n % 10)];
      assert s[..|s| - 1] == t;
      assert DigitValue(s[|s| - 1]) == n % 10;
      assert DecimalValue(t) == n / 10;
      assert DecimalValue(s) == DecimalValue(t) * 10 + n % 10;
    }
  }

  /** `String(n)` for any integer. */
  function IntToDecimal(n: int): (s: string)
    ensures n >= 0 ==> ParseDecimal(s) == Some(n)
    ensures n < 0 ==> |s| >= 2 && s[0] == '-' && ParseDecimal(s[1..]) == Some(-n)
  {
    DecimalRoundTrip(if n < 0 then -n else n);
    if n < 0 then "-" + NatToDecimal(-n) else NatToDecimal(n)
  }

  /** `Number(String(n))` is `n`: the decimal text of an integer reads back as it. */
  lemma NumberRoundTrip(n: int)
    ensures ToNumber(IntToDecimal(n)) == Num(n)
  {
    var s := IntToDecimal(n);
    if n < 0 {
      assert !AllDigits(s) by { assert !IsDigit(s[0]); }
    }
  }

  function Join(parts: seq<string>, sep: string): string {
    if |parts| == 0 then "" else if |parts| == 1 then parts[0]
    else Join(parts[..|parts| - 1], sep) + sep + parts[|parts| - 1]
  }

  /** `String(v)` for a parsed JSON value, or `None` where it throws a
      `TypeError`. A plain object prints as "[object Object]" through the
      inherited `toString`; an own "toString" property, which JSON can only
      make a non-callable value, leaves no way to a primitive. An array joins
      its elements with "," (a null element is written as nothing) and throws
      when one of them does. */
  function JsString(v: Json): (s: Option<string>)
    ensures v.JStr? ==> s == Some(v.s)
    ensures v.JNum? ==> s.Some? && ToNumber(s.value) == Num(v.n)
    ensures v.JObj? ==> (s.None? <==> "toString" in v.fields)
    ensures v.JObj? && s.Some? ==> s.value == "[object Object]"
    ensures v.JArr? && (forall i :: 0 <= i < |v.items| ==> v.items[i].JStr?) ==> s.Some?
    decreases v
  {
    match v
    case JNull => Some("null")
    case JBool(b) => Some(if b then "true" else "false")
    case JNum(n) => NumberRoundTrip(n); Some(IntToDecimal(n))
    case JStr(s) => Some(s)
    case JArr(items) =>
      var parts := seq(|items|, i requires 0 <= i < |items| =>
                         if items[i] == JNull then Some("") else JsString(items[i]));
      if exists i :: 0 <= i < |parts| && parts[i].None? then None
      else Some(Join(seq(|parts|, i requires 0 <= i < |parts| => parts[i].value), ","))
    case JObj(fields) => if "toString" in fields then None else Some("[object Object]")
  }

  /** The key under which `Object.prototype` keeps the prototype setter. */
  const PROTO_KEY: string := "__proto__"

  /** Assigning property `k` to an object with own keys `target` writes an
      own property: every key does, except "__proto__" on an object without
      such an own property, whose assignment goes to the inherited setter. */
  predicate WritesOwn(target: map<string, Json>, k: string) {
    k != PROTO_KEY || k in target
  }

  /** A plain JavaScript object held by reference: code that shares it sees
      every assignment into it. Its values are immutable JSON data. */
  class Dict {
    var entries: map<string, Json>

    constructor (entries: map<string, Json>)
      ensures this.entries == entries
    {
      this.entries := entries;
    }

    /** `Object.assign(this, src)`: assigns every own property of `src` to
        this object, overwriting properties of the same name. A "__proto__"
        property of `src` reaches the prototype setter unless this object has
        it as an own property, and then adds no key. */
    method AssignFrom(src: Dict)
      modifies this
      ensures entries.Keys == old(entries).Keys + (old(src.entries).Keys - {PROTO_KEY})
      ensures forall k :: k in old(src.entries) && WritesOwn(old(entries), k) ==> entries[k] == old(src.entries)[k]
      ensures forall k :: k in old(entries) && !(k in old(src.entries) && WritesOwn(old(entries), k)) ==>
                entries[k] == old(entries)[k]
    {
      var from := src.entries;
      var todo := from.Keys;
      while todo != {}
        invariant todo <= from.Keys
        invariant entries.Keys == old(entries).Keys + ((from.Keys - todo) - {PROTO_KEY})
        invariant forall k :: k in from && k !in todo && WritesOwn(old(entries), k) ==> entries[k] == from[k]
        invariant forall k :: k in old(entries) && !(k in from && k !in todo && WritesOwn(old(entries), k)) ==>
                    entries[k] == old(entries)[k]
        decreases todo
      {
        var k :| k in todo;
        if WritesOwn(entries, k) {
          entries := entries[k := from[k]];
        }
        todo := todo - {k};
      }
    }
  }
}
