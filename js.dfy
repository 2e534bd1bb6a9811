/** The JavaScript values that cross the modelled interfaces (port specs, node
  * data, status objects, vault entries, values passed between nodes), with the
  * few language operations the source relies on: truthiness, property read and
  * write, `Object.assign` and string conversion. Numbers are integers here. */
module Js {

  datatype JsValue =
    | Undefined
    | Null
    | Bool(b: bool)
    | Number(n: int)
    | Str(s: string)
    | Array(items: seq<JsValue>)
    | Object(props: map<string, JsValue>)

  /** What `if (v)` accepts. */
  predicate Truthy(v: JsValue) {
    match v
    case Undefined => false
    case Null => false
    case Bool(b) => b
    case Number(n) => n != 0
    case Str(s) => s != ""
    case _ => true
  }

  /** `v[key]` for a value that is not `undefined` or `null`: own properties of
    * objects, `undefined` for everything else. */
  function Get(v: JsValue, key: string): (r: JsValue)
    ensures !v.Object? ==> r == Undefined
  {
    if v.Object? && key in v.props then v.props[key] else Undefined
  }

  /** `v[key] = x` in sloppy mode: objects gain the property, primitives ignore it. */
  function SetProp(v: JsValue, key: string, x: JsValue): (r: JsValue)
    ensures v.Object? ==> r.Object? && Get(r, key) == x
    ensures forall k :: k != key ==> Get(r, k) == Get(v, k)
    ensures !v.Object? ==> r == v
  {
    if v.Object? then Object(v.props[key := x]) else v
  }

  /** The own enumerable properties `Object.assign` copies from a source: an
    * object's properties, the index keys of an array or of a string (whose
    * elements are its one-character strings), and none for the others. */
  function OwnProps(v: JsValue): (r: map<string, JsValue>)
    ensures v.Object? ==> r == v.props
    ensures v.Array? ==> forall i :: 0 <= i < |v.items| ==> NatToString(i) in r && r[NatToString(i)] == v.items[i]
    ensures v.Str? ==> forall i :: 0 <= i < |v.s| ==> NatToString(i) in r && r[NatToString(i)] == Str([v.s[i]])
    ensures v.Array? ==> forall k :: k in r ==> exists i :: 0 <= i < |v.items| && k == NatToString(i)
    ensures v.Str? ==> forall k :: k in r ==> exists i :: 0 <= i < |v.s| && k == NatToString(i)
    ensures !(v.Object? || v.Array? || v.Str?) ==> r == map[]
  {
    match v
    case Object(props) => props
    case Array(items) => Indexed(items)
    case Str(s) => Indexed(seq(|s|, i requires 0 <= i < |s| => Str([s[i]])))
    case _ => map[]
  }

  /** The elements of a sequence under their index keys `"0"`, `"1"`, ... */
  function Indexed(items: seq<JsValue>): (r: map<string, JsValue>)
    ensures forall i :: 0 <= i < |items| ==> NatToString(i) in r && r[NatToString(i)] == items[i]
    ensures forall k :: k in r ==> exists i :: 0 <= i < |items| && k == NatToString(i)
  {
    NatToStringInjectiveAll();
    map i | 0 <= i < |items| :: NatToString(i) := items[i]
  }

  /** `Object.assign(target, source)` on a plain-object target. */
  function Assign(target: map<string, JsValue>, source: JsValue): (r: map<string, JsValue>)
    ensures r.Keys == target.Keys + OwnProps(source).Keys
    ensures forall k :: k in OwnProps(source) ==> r[k] == OwnProps(source)[k]
    ensures forall k :: k in target && k !in OwnProps(source) ==> r[k] == target[k]
  {
    target + OwnProps(source)
  }

  function DigitChar(d: nat): (c: char)
    requires d < 10
    ensures c as int == '0' as int + d
  {
    ('0' as int + d) as char
  }

  /** Decimal notation of a natural number, without leading zeros. */
  function NatToString(n: nat): (s: string)
    ensures |s| >= 1
    ensures forall i :: 0 <= i < |s| ==> '0' <= s[i] <= '9'
    decreases n
  {
    if n < 10 then [DigitChar(n)] else NatToString(n / 10) + [DigitChar(n % 10)]
  }

  /** Different numbers have different decimal notations. */
  lemma {:induction false} NatToStringInjective(m: nat, n: nat)
    requires NatToString(m) == NatToString(n)
    ensures m == n
    decreases m
  {
    var s := NatToString(m);
    if m >= 10 && n >= 10 {
      assert NatToString(m / 10) == s[..|s| - 1];
      assert NatToString(n / 10) == s[..|s| - 1];
      NatToStringInjective(m / 10, n / 10);
      assert DigitChar(m % 10) == s[|s| - 1] == DigitChar(n % 10);
    } else if m < 10 && n < 10 {
      assert DigitChar(m) == s[0] == DigitChar(n);
    }
  }

  lemma NatToStringInjectiveAll()
    ensures forall m: nat, n: nat :: NatToString(m) == NatToString(n) ==> m == n
  {
    forall m: nat, n: nat | NatToString(m) == NatToString(n) ensures m == n {
      NatToStringInjective(m, n);
    }
  }

  /** `'' + v`, the conversion string concatenation applies. */
  function ToString(v: JsValue): (s: string)
    ensures v.Str? ==> s == v.s
  {
    match v
    case Undefined => "undefined"
    case Null => "null"
    case Bool(b) => if b then "true" else "false"
    case Number(n) => if n < 0 then "-" + NatToString(-n) else NatToString(n)
    case Str(s) => s
    case Array(items) => JoinElements(items)
    case Object(_) => "[object Object]"
  }

  /** `Array.prototype.join(',')`, which renders `undefined` and `null` as empty. */
  function JoinElements(items: seq<JsValue>): string
    decreases items
  {
    if items == [] then ""
    else
      var first := if items[0].Undefined? || items[0].Null? then "" else ToString(items[0]);
      if |items| == 1 then first else first + "," + JoinElements(items[1..])
  }
}
