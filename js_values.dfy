/**
 * The slice of JavaScript's value semantics that the client relies on:
 * the values a caller can put into an options record, truthiness, the
 * `in` operator, property assignment, string conversion for `+`, and
 * `JSON.stringify` as an abstract serialiser.
 */
module JsValues {
  import opened Wrappers

  /**
   * A JavaScript value. Numbers are integers here. An array keeps its
   * elements in order and, like any JavaScript object, may carry extra
   * named properties (`props`) besides its indices and `length`.
   */
  datatype Value =
    | Undefined
    | Null
    | Bool(b: bool)
    | Num(n: int)
    | Str(s: string)
    | Arr(elems: seq<Value>, props: map<string, Value>)
    | Obj(fields: map<string, Value>)

  /** The exceptions the client can raise synchronously. */
  datatype Exception =
    | Error(message: string)  // `new Error(message)`, thrown by the library itself
    | TypeError               // e.g. the `in` operator applied to a primitive
    | SyntaxError             // `JSON.parse` given text that is not JSON

  /** JavaScript's truthiness: `if (v)` takes the branch exactly when this holds. */
  predicate Truthy(v: Value) {
    match v
    case Undefined => false
    case Null => false
    case Bool(b) => b
    case Num(n) => n != 0
    case Str(s) => s != ""
    case Arr(_, _) => true
    case Obj(_) => true
  }

  /** Values the `in` operator accepts as its right operand. */
  predicate IsObject(v: Value) {
    v.Arr? || v.Obj?
  }

  /** The character of a decimal digit. */
  function Digit(d: nat): (c: char)
    requires d < 10
    ensures '0' <= c <= '9'
  {
    "0123456789"[d]
  }

  /** Decimal digits of a natural number, most significant first, no leading zeros. */
  function NatDigits(n: nat): (r: string)
    ensures |r| >= 1
    ensures forall i :: 0 <= i < |r| ==> '0' <= r[i] <= '9'
    ensures |r| > 1 ==> r[0] != '0'
  {
    if n < 10 then [Digit(n)] else NatDigits(n / 10) + [Digit(n % 10)]
  }

  /** The number a string of decimal digits denotes, most significant digit first. */
  function DigitsValue(s: string): int {
    if s == [] then 0
    else 10 * DigitsValue(s[..|s| - 1]) + (s[|s| - 1] as int - '0' as int)
  }

  /** Reading back the digits of `n` gives `n`. */
  lemma {:induction false} NatDigitsValue(n: nat)
    ensures DigitsValue(NatDigits(n)) == n
  {
    var d := NatDigits(n);
    if n < 10 {
      assert d[..0] == [];
      assert "0123456789"[n] as int - '0' as int == n;
    } else {
      assert d[..|d| - 1] == NatDigits(n / 10);
      assert "0123456789"[n % 10] as int - '0' as int == n % 10;
      NatDigitsValue(n / 10);
    }
  }

  /** `String(n)` for an integer `n`. */
  function DecimalString(n: int): (r: string)
    ensures |r| >= 1
    ensures r[0] == '-' <==> n < 0
    ensures forall i :: 0 < i < |r| ==> '0' <= r[i] <= '9'
    ensures n >= 0 ==> '0' <= r[0] <= '9'
    ensures n >= 0 && |r| > 1 ==> r[0] != '0'
    ensures n < 0 ==> |r| >= 2 && (|r| > 2 ==> r[1] != '0')
  {
    if n < 0 then "-" + NatDigits(-n) else NatDigits(n)
  }

  /** The digits of `String(n)`, after the sign, denote the magnitude of `n`. */
  lemma DecimalStringValue(n: int)
    ensures n >= 0 ==> DigitsValue(DecimalString(n)) == n
    ensures n < 0 ==> DigitsValue(DecimalString(n)[1..]) == -n
  {
    if n < 0 {
      assert DecimalString(n)[1..] == NatDigits(-n) by {
        assert DecimalString(n) == "-" + NatDigits(-n);
      }
      DigitsValueOf(DecimalString(n)[1..], -n);
    } else {
      NatDigitsValue(n);
    }
  }

  /** NatDigitsValue, for a string known to equal the digits of `m`. */
  lemma DigitsValueOf(s: string, m: nat)
    requires s == NatDigits(m)
    ensures DigitsValue(s) == m
  {
    NatDigitsValue(m);
  }

  /** A key that could be an array index: the decimal name of some `i < n`. */
  predicate IsIndexKey(key: string, n: nat) {
    exists i :: 0 <= i < n && NatDigits(i) == key
  }

  /**
   * A property name that is neither an array index nor `length`: a
   * non-empty name whose first character is not a digit.
   */
  predicate IsNamedKey(key: string) {
    key != [] && !('0' <= key[0] <= '9') && key != "length"
  }

  lemma NamedKeyIsNoIndex(key: string, n: nat)
    requires IsNamedKey(key)
    ensures !IsIndexKey(key, n)
  {
  }

  /** `key in v`, for an object or an array. */
  predicate HasProperty(v: Value, key: string)
    requires IsObject(v)
  {
    match v
    case Obj(fields) => key in fields
    case Arr(elems, props) => key in props || key == "length" || IsIndexKey(key, |elems|)
  }

  /** `v[key]` for a named property of an object or an array; `undefined` when absent. */
  function Property(v: Value, key: string): (r: Value)
    requires IsObject(v) && IsNamedKey(key)
    ensures !HasProperty(v, key) ==> r == Undefined
  {
    NamedKeyIsNoIndex(key, if v.Arr? then |v.elems| else 0);
    match v
    case Obj(fields) => if key in fields then fields[key] else Undefined
    case Arr(_, props) => if key in props then props[key] else Undefined
  }

  /** The object `v` after the assignment `v[key] = x`, for a named property. */
  function WithProperty(v: Value, key: string, x: Value): (r: Value)
    requires IsObject(v) && IsNamedKey(key)
    ensures IsObject(r) && HasProperty(r, key) && Property(r, key) == x
    ensures forall k :: IsNamedKey(k) && k != key ==>
      HasProperty(r, k) == HasProperty(v, k) && Property(r, k) == Property(v, k)
    ensures v.Obj? ==> r.Obj? && forall k :: k != key ==>
      (k in r.fields <==> k in v.fields) && (k in r.fields ==> r.fields[k] == v.fields[k])
    ensures v.Arr? ==> r.Arr? && r.elems == v.elems && forall k :: k != key ==>
      (k in r.props <==> k in v.props) && (k in r.props ==> r.props[k] == v.props[k])
  {
    NamedKeyIsNoIndex(key, if v.Arr? then |v.elems| else 0);
    match v
    case Obj(fields) => Obj(fields[key := x])
    case Arr(elems, props) => Arr(elems, props[key := x])
  }

  /** Joins strings with a separator, as `Array.prototype.join` does. */
  function Join(parts: seq<string>, sep: string): (r: string)
    ensures parts == [] ==> r == ""
    ensures |parts| == 1 ==> r == parts[0]
  {
    if parts == [] then ""
    else if |parts| == 1 then parts[0]
    else parts[0] + sep + Join(parts[1..], sep)
  }

  /** `String(v)`, the conversion that `+` applies when one operand is a string. */
  function ToJsString(v: Value): (r: string)
    ensures v.Str? ==> r == v.s
    ensures v.Num? ==> r == DecimalString(v.n)
    ensures v.Undefined? ==> r == "undefined"
    ensures v.Null? ==> r == "null"
    ensures v.Obj? ==> r == "[object Object]"
    ensures v.Arr? && v.elems == [] ==> r == ""
  {
    match v
    case Undefined => "undefined"
    case Null => "null"
    case Bool(b) => if b then "true" else "false"
    case Num(n) => DecimalString(n)
    case Str(s) => s
    case Arr(elems, _) =>
      // `undefined` and `null` elements print as the empty string
      Join(seq(|elems|, i requires 0 <= i < |elems| =>
        if elems[i].Undefined? || elems[i].Null? then "" else ToJsString(elems[i])), ",")
    case Obj(_) => "[object Object]"
  }

  /**
   * A serialiser standing for `JSON.stringify` on the values above: JSON
   * text is never empty.
   */
  type Serializer = f: Value -> string | forall v :: f(v) != "" witness (v: Value) => "null"

  /**
   * `JSON.stringify(v)`: `undefined` stays `undefined`, every other value
   * becomes a non-empty, hence truthy, string.
   */
  function Stringify(json: Serializer, v: Value): (r: Value)
    ensures r.Undefined? <==> v.Undefined?
    ensures !v.Undefined? ==> r == Str(json(v)) && Truthy(r)
  {
    if v.Undefined? then Undefined else Str(json(v))
  }
}
