/**
 * The JavaScript values a handler can read out of a parsed JSON request body,
 * and the truthiness test its guards apply to them.
 */
module Js {

  /**
   * A value held by a field of the request body. `Undefined` is what a
   * destructuring read yields for a field the body does not have; the other
   * cases are what a JSON parser produces. Numbers are modelled as reals:
   * the guards observe only whether a number is zero, and an overflowing
   * literal (parsed as an infinity) stands as any nonzero real.
   */
  datatype Value =
    | Undefined
    | Null
    | Bool(b: bool)
    | Num(n: real)
    | Str(s: string)
    | Arr(items: seq<Value>)
    | Obj(members: map<string, Value>)

  /** The parsed request body: an object from field names to values. */
  type Body = map<string, Value>

  /**
   * ToBoolean, section 7.1.2 of ECMA-262: what `!x` negates. Objects and
   * arrays are truthy even when empty.
   */
  predicate Truthy(v: Value) {
    match v
    case Undefined => false
    case Null => false
    case Bool(b) => b
    case Num(n) => n != 0.0
    case Str(s) => s != ""
    case Arr(_) => true
    case Obj(_) => true
  }

  /** `const { name } = body`: the field's value, or `undefined` when it is absent. */
  function Field(body: Body, name: string): Value {
    if name in body then body[name] else Undefined
  }

  /**
   * The guard `!f0 || !f1 || ...` fails exactly when this holds: every field
   * named in `names` is present with a truthy value.
   */
  function AllTruthy(body: Body, names: seq<string>): (ok: bool)
    ensures ok <==> forall i :: 0 <= i < |names| ==> Truthy(Field(body, names[i]))
  {
    |names| == 0 || (Truthy(Field(body, names[0])) && AllTruthy(body, names[1..]))
  }

  /** Two bodies agree on the named fields when a destructuring read sees the same values. */
  predicate AgreeOn(b1: Body, b2: Body, names: seq<string>) {
    forall i :: 0 <= i < |names| ==> Field(b1, names[i]) == Field(b2, names[i])
  }

  /** The falsy values a JSON body can carry, and `undefined`: nothing else is falsy. */
  lemma FalsyValues(v: Value)
    ensures !Truthy(v) <==> v in {Undefined, Null, Bool(false), Num(0.0), Str("")}
  {
  }

  /** A guard that reads only the named fields gives the same verdict on bodies that agree on them. */
  lemma AllTruthyReadsOnlyNamed(b1: Body, b2: Body, names: seq<string>)
    requires AgreeOn(b1, b2, names)
    ensures AllTruthy(b1, names) == AllTruthy(b2, names)
  {
  }
}
