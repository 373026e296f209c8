/**
 * The slice of JavaScript's value semantics the library relies on: the values a
 * schema or config object can hold, truthiness (`!v`, `a || b`), property lookup
 * (`obj['@context']`), string conversion (`String(v)`, template literals) and
 * `Array.prototype.join`.
 */
module Js {
  import opened Wrappers

  /** A JavaScript value. Numbers are integral in this model. */
  datatype Value =
    | Undefined
    | Null
    | Bool(b: bool)
    | Num(n: int)
    | Str(s: string)
    | Arr(items: seq<Value>)
    | Obj(fields: seq<Field>)

  /** One own property of a plain object, in insertion order. */
  datatype Field = Field(key: string, val: Value)

  /** JavaScript truthiness: `!!v`. */
  predicate Truthy(v: Value) {
    match v
    case Undefined => false
    case Null => false
    case Bool(b) => b
    case Num(n) => n != 0
    case Str(s) => s != ""
    case Arr(_) => true
    case Obj(_) => true
  }

  /** Truthiness of an optional string prop: `undefined` and `""` are falsy. */
  predicate Present(o: Option<string>) {
    o.Some? && o.value != ""
  }

  /** `a || b` on optional strings. */
  function Or(a: Option<string>, b: Option<string>): Option<string> {
    if Present(a) then a else b
  }

  /** `a || b` on values. */
  function OrValue(a: Value, b: Value): Value {
    if Truthy(a) then a else b
  }

  /** A destructuring default `x = d`: applies only when the prop is `undefined`. */
  function Default(o: Option<string>, d: string): Option<string> {
    if o.None? then Some(d) else o
  }

  /** `a || b` yields one of its operands, and is truthy exactly when either operand is. */
  lemma OrOperand(a: Option<string>, b: Option<string>)
    ensures Or(a, b) == a || Or(a, b) == b
    ensures Present(Or(a, b)) <==> Present(a) || Present(b)
  {
  }

  lemma OrValueOperand(a: Value, b: Value)
    ensures OrValue(a, b) == a || OrValue(a, b) == b
    ensures Truthy(OrValue(a, b)) <==> Truthy(a) || Truthy(b)
  {
  }

  /** A default leaves every defined prop alone, even a falsy one, and fills in `undefined`. */
  lemma DefaultDefined(o: Option<string>, d: string)
    ensures Default(o, d).Some?
    ensures o.Some? ==> Default(o, d) == o
    ensures o.None? ==> Default(o, d) == Some(d)
  {
  }

  /** The value of the first property named `key`, or `undefined`. */
  function Lookup(fields: seq<Field>, key: string): Value {
    if |fields| == 0 then Undefined
    else if fields[0].key == key then fields[0].val
    else Lookup(fields[1..], key)
  }

  /** `v[key]` for a property that only plain objects carry. */
  function Prop(v: Value, key: string): Value {
    if v.Obj? then Lookup(v.fields, key) else Undefined
  }

  /** `Object.keys(obj)`. */
  function Keys(fields: seq<Field>): (ks: seq<string>)
    ensures |ks| == |fields|
    ensures forall i :: 0 <= i < |fields| ==> ks[i] == fields[i].key
  {
    if |fields| == 0 then [] else [fields[0].key] + Keys(fields[1..])
  }

  /** A property that no field carries reads as `undefined`. */
  lemma {:induction false} LookupAbsent(fields: seq<Field>, key: string)
    requires key !in Keys(fields)
    ensures Lookup(fields, key) == Undefined
  {
    if |fields| > 0 {
      assert Keys(fields)[0] == fields[0].key;
      assert Keys(fields[1..]) == Keys(fields)[1..];
      LookupAbsent(fields[1..], key);
    }
  }

  /** `Object.keys(a).concat(Object.keys(b))` is the key list of the two field lists laid end to end. */
  lemma {:induction false} KeysConcat(a: seq<Field>, b: seq<Field>)
    ensures Keys(a + b) == Keys(a) + Keys(b)
  {
    if |a| > 0 {
      assert (a + b)[1..] == a[1..] + b;
      KeysConcat(a[1..], b);
    } else {
      assert a + b == b;
    }
  }

  /** Looking a key up in two field lists laid end to end finds it in the first list when it is there. */
  lemma {:induction false} LookupConcat(a: seq<Field>, b: seq<Field>, key: string)
    ensures Lookup(a + b, key) == if key in Keys(a) then Lookup(a, key) else Lookup(b, key)
  {
    if |a| > 0 {
      assert (a + b)[1..] == a[1..] + b;
      assert (a + b)[0] == a[0];
      assert Keys(a) == [a[0].key] + Keys(a[1..]);
      LookupConcat(a[1..], b, key);
    } else {
      assert a + b == b;
    }
  }

  /** A decimal digit character. */
  function DigitChar(d: nat): char
    requires d < 10
  {
    "0123456789"[d]
  }

  /** The decimal spelling of a natural number, without leading zeros. */
  function NatToDecimal(n: nat): (s: string)
    ensures |s| > 0
    ensures forall i :: 0 <= i < |s| ==> '0' <= s[i] <= '9'
  {
    if n < 10 then [DigitChar(n)] else NatToDecimal(n / 10) + [DigitChar(n % 10)]
  }

  /** `String(n)` for an integral number. */
  function IntToDecimal(n: int): string {
    if n < 0 then "-" + NatToDecimal(-n) else NatToDecimal(n)
  }

  /** `parts.join(sep)`. */
  function Join(parts: seq<string>, sep: string): string {
    if |parts| == 0 then ""
    else if |parts| == 1 then parts[0]
    else parts[0] + sep + Join(parts[1..], sep)
  }

  /** `String(v)`, which is also what a template literal `${v}` inserts. */
  function ToJsString(v: Value): string
    decreases v
  {
    match v
    case Undefined => "undefined"
    case Null => "null"
    case Bool(b) => if b then "true" else "false"
    case Num(n) => IntToDecimal(n)
    case Str(s) => s
    case Arr(items) =>
      // Array.prototype.toString joins with "," and prints undefined and null as "".
      Join(seq(|items|, i requires 0 <= i < |items| =>
        if items[i].Undefined? || items[i].Null? then "" else ToJsString(items[i])), ",")
    case Obj(_) => "[object Object]"
  }
}
