/**
 * The slice of PHP's value model the channel depends on: the values a payload
 * field, a route lookup or a decoded JSON body can hold, and PHP's truthiness,
 * which drives both the `?:` operator and the test that skips a falsy recipient.
 */
module Php {
  /** A PHP value. Arrays are ordered maps; keys are modelled as strings. */
  datatype Value =
    | Null
    | Bool(b: bool)
    | Int(i: int)
    | Str(s: string)
    | Arr(entries: seq<(string, Value)>)

  /** PHP's conversion to bool: null, false, 0, "", "0" and the empty array are falsy. */
  predicate Truthy(v: Value) {
    match v
    case Null => false
    case Bool(b) => b
    case Int(i) => i != 0
    case Str(s) => s != "" && s != "0"
    case Arr(entries) => |entries| > 0
  }

  /** The short ternary `a ?: b`: `a` when it is truthy, otherwise `b`. */
  function Elvis(a: Value, b: Value): (r: Value)
    ensures r == a || r == b
    ensures Truthy(r) <==> Truthy(a) || Truthy(b)
  {
    if Truthy(a) then a else b
  }

  /** Exactly six values are falsy; every other value is truthy. */
  lemma FalsyValues(v: Value)
    ensures !Truthy(v) <==>
      v == Null || v == Bool(false) || v == Int(0) || v == Str("") || v == Str("0") || v == Arr([])
  {
  }

  /** `?:` keeps its left operand exactly when that operand is truthy, and never evaluates to a
      falsy value unless its right operand is that value. */
  lemma ElvisChoosesTruthy(a: Value, b: Value)
    ensures Truthy(a) ==> Elvis(a, b) == a
    ensures !Truthy(a) ==> Elvis(a, b) == b
    ensures Truthy(Elvis(a, b)) <==> Truthy(a) || Truthy(b)
  {
  }
}
