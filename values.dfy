/** The part of Python's value universe that the client passes around:
    keyword arguments, JSON bodies, parsed responses, and the outcome
    datatypes used for Python's exceptions. */
module Values {

  datatype Option<+T> = None | Some(value: T)

  datatype Result<+T, +E> = Success(value: T) | Failure(error: E)

  /** A Python value as it appears in keyword arguments and JSON
      documents. `Exception` is the `ValueError` object that `response`
      stores under the key `error`; it is never produced by a JSON parser. */
  datatype Value =
    | Null
    | Bool(b: bool)
    | Int(i: int)
    | Str(s: string)
    | Arr(items: seq<Value>)
    | Obj(fields: map<string, Value>)
    | Exception(message: string)

  /** Keyword arguments of a call (`**kwargs`). */
  type Kwargs = map<string, Value>

  /** Python's truth test (`if x:`) on the values above. */
  predicate Truthy(v: Value) {
    match v
    case Null => false
    case Bool(b) => b
    case Int(i) => i != 0
    case Str(s) => s != ""
    case Arr(items) => items != []
    case Obj(fields) => fields != map[]
    case Exception(_) => true
  }

  /** A value that a JSON decoder can produce: no exception object anywhere in it. */
  predicate IsJson(v: Value) {
    match v
    case Exception(_) => false
    case Arr(items) => forall i :: 0 <= i < |items| ==> IsJson(items[i])
    case Obj(fields) => forall k :: k in fields ==> IsJson(fields[k])
    case _ => true
  }

  /** The decimal digits of a natural number. */
  function NatToString(n: nat): (r: string)
    ensures |r| >= 1
    ensures forall i :: 0 <= i < |r| ==> '0' <= r[i] <= '9'
    ensures n > 0 ==> r[0] != '0'
    decreases n
  {
    var d := [(('0' as int) + n % 10) as char];
    if n < 10 then d else NatToString(n / 10) + d
  }

  /** The value of a decimal digit string (the inverse of NatToString). */
  function DigitsValue(s: string): int
  {
    if s == [] then 0 else DigitsValue(s[..|s| - 1]) * 10 + (s[|s| - 1] as int - '0' as int)
  }

  lemma {:induction false} NatToStringRoundTrip(n: nat)
    ensures DigitsValue(NatToString(n)) == n
    decreases n
  {
    var r := NatToString(n);
    if n >= 10 {
      NatToStringRoundTrip(n / 10);
      assert r[..|r| - 1] == NatToString(n / 10);
    }
  }

  /** `str(v)` for the scalar values that a URL template can render;
      `None` for lists and dictionaries, whose rendering is not modelled. */
  function Display(v: Value): (r: Option<string>)
    ensures v.Str? ==> r == Some(v.s)
    ensures (v.Arr? || v.Obj? || v.Exception?) <==> r.None?
  {
    match v
    case Null => Some("None")
    case Bool(b) => Some(if b then "True" else "False")
    case Int(i) => Some(if i < 0 then "-" + NatToString(-i) else NatToString(i))
    case Str(s) => Some(s)
    case _ => None
  }
}
