/**
 * JavaScript values as they travel through the server's JSON bodies and the
 * clients' templates: truthiness, `String(v)` / template-literal rendering,
 * property access (which throws on `null` and `undefined`), `Object.keys`
 * and the way `JSON.stringify` drops `undefined` members.
 * Numbers are modelled as integers only.
 */
module JsValues {
  import opened Wrappers

  datatype JsValue =
    | Undefined
    | Null
    | Bool(b: bool)
    | Num(n: int)
    | Str(s: string)
    | Arr(items: seq<JsValue>)
    | Obj(props: seq<Prop>)

  /** One own property of an object, in insertion order. */
  datatype Prop = Prop(key: string, value: JsValue)

  /** JavaScript's ToBoolean. */
  predicate Truthy(v: JsValue) {
    match v
    case Undefined => false
    case Null => false
    case Bool(b) => b
    case Num(n) => n != 0
    case Str(s) => s != ""
    case Arr(_) => true
    case Obj(_) => true
  }

  /** `a || b` on JavaScript values. */
  function Or(a: JsValue, b: JsValue): (r: JsValue)
    ensures Truthy(a) ==> r == a
    ensures !Truthy(a) ==> r == b
  {
    if Truthy(a) then a else b
  }

  /** `a ?? b`: only `null` and `undefined` are replaced. */
  function Coalesce(a: JsValue, b: JsValue): (r: JsValue)
    ensures a.Undefined? || a.Null? ==> r == b
    ensures !(a.Undefined? || a.Null?) ==> r == a
  {
    if a.Undefined? || a.Null? then b else a
  }

  // ---------------------------------------------------------------------
  // Decimal digits

  function DigitChar(d: nat): (c: char)
    requires d < 10
    ensures '0' <= c <= '9' && c as int - '0' as int == d
  {
    ('0' as int + d) as char
  }

  predicate IsDigit(c: char) {
    '0' <= c <= '9'
  }

  /** The decimal numeral of `n`, without leading zeros. */
  function NatToDecimal(n: nat): (s: string)
    ensures |s| >= 1
    ensures forall i :: 0 <= i < |s| ==> IsDigit(s[i])
    ensures |s| > 1 ==> s[0] != '0'
    ensures n < 10 <==> |s| == 1
    decreases n
  {
    if n < 10 then [DigitChar(n)] else NatToDecimal(n / 10) + [DigitChar(n % 10)]
  }

  /** `String(n)` for an integer. */
  function IntToDecimal(i: int): string {
    if i < 0 then "-" + NatToDecimal(-i) else NatToDecimal(i)
  }

  /** The value of a string of decimal digits. */
  function DecimalValue(s: string): nat
    requires forall i :: 0 <= i < |s| ==> IsDigit(s[i])
  {
    if s == [] then 0
    else
      assert IsDigit(s[|s| - 1]);
      10 * DecimalValue(s[..|s| - 1]) + (s[|s| - 1] as int - '0' as int)
  }

  /**
   * A canonical array index: a decimal numeral without a superfluous
   * leading zero (so "01" is not an index, as in ECMAScript).
   */
  function ParseIndex(k: string): (r: Option<nat>)
    ensures r.Some? ==> NatToDecimal(r.value) == k
  {
    if k != [] && (forall i :: 0 <= i < |k| ==> IsDigit(k[i])) && (|k| == 1 || k[0] != '0') then
      DecimalRoundTrip(k);
      Some(DecimalValue(k))
    else
      None
  }

  lemma {:induction false} DecimalValueOfNumeral(n: nat)
    ensures DecimalValue(NatToDecimal(n)) == n
    decreases n
  {
    if n >= 10 {
      var s := NatToDecimal(n);
      assert s[..|s| - 1] == NatToDecimal(n / 10);
      DecimalValueOfNumeral(n / 10);
    }
  }

  /** Printing the value of a canonical numeral gives the numeral back. */
  lemma {:induction false} DecimalRoundTrip(k: string)
    requires k != [] && forall i :: 0 <= i < |k| ==> IsDigit(k[i])
    requires |k| == 1 || k[0] != '0'
    ensures NatToDecimal(DecimalValue(k)) == k
    decreases |k|
  {
    if |k| > 1 {
      var init := k[..|k| - 1];
      DecimalRoundTrip(init);
      DecimalPositive(init);
      var d := k[|k| - 1] as int - '0' as int;
      var v := DecimalValue(k);
      assert v == 10 * DecimalValue(init) + d;
      assert v / 10 == DecimalValue(init) && v % 10 == d;
    }
  }

  lemma {:induction false} DecimalPositive(k: string)
    requires k != [] && forall i :: 0 <= i < |k| ==> IsDigit(k[i])
    requires k[0] != '0'
    ensures DecimalValue(k) >= 1
    decreases |k|
  {
    if |k| > 1 {
      DecimalPositive(k[..|k| - 1]);
    }
  }

  /** An index parses back from its numeral: the partner of `NatToDecimal`. */
  lemma ParseIndexOfNumeral(n: nat)
    ensures ParseIndex(NatToDecimal(n)) == Some(n)
  {
    DecimalValueOfNumeral(n);
  }

  // ---------------------------------------------------------------------
  // String(v)

  /** `String(v)`, which is also what `${v}` renders. */
  function ToString(v: JsValue): string
    decreases v, 1
  {
    match v
    case Undefined => "undefined"
    case Null => "null"
    case Bool(b) => if b then "true" else "false"
    case Num(n) => IntToDecimal(n)
    case Str(s) => s
    case Arr(items) => JoinElements(items)
    case Obj(_) => "[object Object]"
  }

  /** `Array.prototype.join(",")`: `null` and `undefined` elements become empty. */
  function JoinElements(items: seq<JsValue>): string
    decreases items, 0
  {
    if items == [] then ""
    else
      var first := if items[0].Undefined? || items[0].Null? then "" else ToString(items[0]);
      if |items| == 1 then first else first + "," + JoinElements(items[1..])
  }

  // ---------------------------------------------------------------------
  // Properties

  /** The first own property named `k`, if any. */
  function Lookup(props: seq<Prop>, k: string): (r: Option<JsValue>)
    ensures r.Some? <==> exists i :: 0 <= i < |props| && props[i].key == k
    ensures r.Some? ==> Prop(k, r.value) in props
  {
    if props == [] then None
    else if props[0].key == k then Some(props[0].value)
    else Lookup(props[1..], k)
  }

  /** A key that no earlier property uses reads back its own value. */
  lemma {:induction false} LookupAt(props: seq<Prop>, i: nat)
    requires i < |props|
    requires forall j :: 0 <= j < i ==> props[j].key != props[i].key
    ensures Lookup(props, props[i].key) == Some(props[i].value)
  {
    if i > 0 {
      LookupAt(props[1..], i - 1);
    }
  }

  /**
   * `v[k]`. Reading a property of `null` or `undefined` throws a TypeError
   * (None); a missing property reads as `undefined`.
   */
  function GetProp(v: JsValue, k: string): (r: Option<JsValue>)
    ensures r.None? <==> v.Undefined? || v.Null?
  {
    match v
    case Undefined => None
    case Null => None
    case Obj(props) => Some(Lookup(props, k).GetOr(Undefined))
    case Arr(items) =>
      if k == "length" then Some(Num(|items|))
      else
        var idx := ParseIndex(k);
        Some(if idx.Some? && idx.value < |items| then items[idx.value] else Undefined)
    case Str(s) =>
      if k == "length" then Some(Num(|s|))
      else
        var idx := ParseIndex(k);
        Some(if idx.Some? && idx.value < |s| then Str([s[idx.value]]) else Undefined)
    case _ => Some(Undefined)
  }

  /** `v[k]` where `v` is known to be an object. */
  function Get(v: JsValue, k: string): JsValue {
    if v.Obj? then Lookup(v.props, k).GetOr(Undefined) else Undefined
  }

  /** `obj[k] = x`: an existing property keeps its place, a new one goes last. */
  function SetProp(props: seq<Prop>, k: string, x: JsValue): (r: seq<Prop>)
    ensures Lookup(r, k) == Some(x)
    ensures forall j :: j != k ==> Lookup(r, j) == Lookup(props, j)
    ensures Lookup(props, k).None? ==> r == props + [Prop(k, x)]
  {
    if props == [] then [Prop(k, x)]
    else
      var rest := props[1..];
      assert props == [props[0]] + rest;
      LookupCons(props[0], rest);
      if props[0].key == k then
        LookupCons(Prop(k, x), rest);
        [Prop(k, x)] + rest
      else
        var tail := SetProp(rest, k, x);
        LookupCons(props[0], tail);
        [props[0]] + tail
  }

  /** Looking up in a list with one more property in front. */
  lemma LookupCons(p: Prop, rest: seq<Prop>)
    ensures forall j :: Lookup([p] + rest, j) == if p.key == j then Some(p.value) else Lookup(rest, j)
  {
    assert ([p] + rest)[1..] == rest;
  }

  /** The index numerals "0", "1", ... of a sequence of length `n`. */
  function IndexKeys(n: nat): (r: seq<string>)
    ensures |r| == n && forall i :: 0 <= i < n ==> r[i] == NatToDecimal(i)
  {
    seq(n, i requires 0 <= i < n => NatToDecimal(i))
  }

  /** `Object.keys(v)`; throws a TypeError (None) on `null` and `undefined`. */
  function Keys(v: JsValue): (r: Option<seq<string>>)
    ensures r.None? <==> v.Undefined? || v.Null?
  {
    match v
    case Undefined => None
    case Null => None
    case Obj(props) => Some(seq(|props|, i requires 0 <= i < |props| => props[i].key))
    case Arr(items) => Some(IndexKeys(|items|))
    case Str(s) => Some(IndexKeys(|s|))
    case _ => Some([])
  }

  /** Every key of an array reads back its own element. */
  lemma ArrayKeysReadBack(items: seq<JsValue>, i: nat)
    requires i < |items|
    ensures GetProp(Arr(items), Keys(Arr(items)).value[i]) == Some(items[i])
  {
    ParseIndexOfNumeral(i);
    assert NatToDecimal(i) != "length";
  }

  // ---------------------------------------------------------------------
  // JSON.stringify

  /**
   * What survives `JSON.stringify`: object members whose value is
   * `undefined` are dropped, `undefined` array elements become `null`.
   */
  function Jsonify(v: JsValue): JsValue
    decreases v, 1
  {
    match v
    case Arr(items) => Arr(JsonifyItems(items))
    case Obj(props) => Obj(JsonifyProps(props))
    case _ => v
  }

  function JsonifyItems(items: seq<JsValue>): (r: seq<JsValue>)
    ensures |r| == |items|
    decreases items, 0
  {
    if items == [] then []
    else [if items[0].Undefined? then Null else Jsonify(items[0])] + JsonifyItems(items[1..])
  }

  function JsonifyProps(props: seq<Prop>): (r: seq<Prop>)
    ensures forall p :: p in r ==> !p.value.Undefined?
    ensures forall k :: Lookup(r, k).Some? ==> Lookup(props, k).Some?
    decreases props, 0
  {
    if props == [] then []
    else if props[0].value.Undefined? then JsonifyProps(props[1..])
    else [Prop(props[0].key, Jsonify(props[0].value))] + JsonifyProps(props[1..])
  }

  /** A member whose value is undefined does not reach the wire. */
  lemma {:induction false} UndefinedMemberDropped(props: seq<Prop>, k: string)
    requires Lookup(props, k) == Some(Undefined)
    requires forall i, j :: 0 <= i < j < |props| ==> props[i].key != props[j].key
    ensures Lookup(JsonifyProps(props), k).None?
  {
    if props != [] && props[0].key != k {
      UndefinedMemberDropped(props[1..], k);
    } else if props != [] {
      NotInTailDropped(props[1..], k);
    }
  }

  /** A member that is not undefined reaches the wire under its first key, stringified in turn. */
  lemma {:induction false} DefinedMemberKept(props: seq<Prop>, k: string)
    requires Lookup(props, k).Some? && !Lookup(props, k).value.Undefined?
    ensures Lookup(JsonifyProps(props), k) == Some(Jsonify(Lookup(props, k).value))
  {
    if props[0].key != k {
      DefinedMemberKept(props[1..], k);
      if !props[0].value.Undefined? {
        assert JsonifyProps(props) == [Prop(props[0].key, Jsonify(props[0].value))] + JsonifyProps(props[1..]);
      }
    }
  }

  lemma {:induction false} NotInTailDropped(props: seq<Prop>, k: string)
    requires forall i :: 0 <= i < |props| ==> props[i].key != k
    ensures Lookup(JsonifyProps(props), k).None?
  {
    if props != [] {
      NotInTailDropped(props[1..], k);
    }
  }
}
