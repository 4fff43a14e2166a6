/**
 * The JavaScript values the component receives from `response.json()`,
 * their truthiness, the `||` operator and property access.
 */
module JsValue {
  import opened Wrappers

  /**
   * A value JSON.parse can produce, plus `undefined`, which reading a missing
   * property yields. An object's pairs are listed in its own-property order
   * (the order Object.entries reports) and, as in any JavaScript object, no key
   * occurs twice; `Lookup` takes the first pair with a key.
   */
  datatype Json =
    | Null
    | Undefined
    | Bool(b: bool)
    | Num(n: real)
    | Str(s: string)
    | Arr(items: seq<Json>)
    | Obj(props: seq<(string, Json)>)

  /** JavaScript truthiness: `null`, `undefined`, `false`, `0` and `''` are falsy. */
  predicate Truthy(v: Json)
    ensures !Truthy(v) <==> v == Null || v == Undefined || v == Bool(false) || v == Num(0.0) || v == Str("")
  {
    match v
    case Null => false
    case Undefined => false
    case Bool(b) => b
    case Num(n) => n != 0.0
    case Str(s) => s != ""
    case Arr(_) => true
    case Obj(_) => true
  }

  /** The value of `a || b`: the left operand when it is truthy, otherwise the right one. */
  function Or(a: Json, b: Json): (r: Json)
    ensures Truthy(r) <==> Truthy(a) || Truthy(b)
    ensures Truthy(a) ==> r == a
    ensures !Truthy(a) ==> r == b
  {
    if Truthy(a) then a else b
  }

  /** The value stored under `key` in an object's pair list, `undefined` when there is none. */
  function Lookup(props: seq<(string, Json)>, key: string): (r: Json)
    ensures (forall i :: 0 <= i < |props| ==> props[i].0 != key) ==> r == Undefined
    ensures forall i :: (0 <= i < |props| && props[i].0 == key &&
                         forall j :: 0 <= j < i ==> props[j].0 != key) ==> r == props[i].1
  {
    if props == [] then Undefined
    else if props[0].0 == key then props[0].1
    else Lookup(props[1..], key)
  }

  /**
   * `v[key]` for a value that is not `null` or `undefined`. A string, number,
   * boolean or array has none of the properties the component reads (none of
   * them names a prototype member such as `length`), so these give `undefined`.
   */
  function Member(v: Json, key: string): (r: Json)
    ensures !v.Obj? ==> r == Undefined
    ensures v.Obj? && (forall i :: 0 <= i < |v.props| ==> v.props[i].0 != key) ==> r == Undefined
    ensures v.Obj? ==> forall i :: (0 <= i < |v.props| && v.props[i].0 == key &&
                                    forall j :: 0 <= j < i ==> v.props[j].0 != key) ==> r == v.props[i].1
  {
    if v.Obj? then Lookup(v.props, key) else Undefined
  }

  /** The message V8 puts in the TypeError thrown by reading a property of `null` or `undefined`. */
  function NullAccessMessage(receiver: string, key: string): (r: string)
    ensures |r| == 26 + |receiver| + 11 + |key| + 2
    ensures r[..26] == "Cannot read properties of " && r[26..26 + |receiver|] == receiver
    ensures r[26 + |receiver|..26 + |receiver| + 11] == " (reading '"
    ensures r[26 + |receiver| + 11..|r| - 2] == key && r[|r| - 2..] == "')"
  {
    "Cannot read properties of " + receiver + " (reading '" + key + "')"
  }

  /** `v.key`, which throws a TypeError when `v` is `null` or `undefined`. */
  function Prop(v: Json, key: string): (r: Result<Json, string>)
    ensures r.Failure? <==> v == Null || v == Undefined
    ensures r.Success? ==> r.value == Member(v, key)
    ensures v == Null ==> r == Failure(NullAccessMessage("null", key))
  {
    match v
    case Null => Failure(NullAccessMessage("null", key))
    case Undefined => Failure(NullAccessMessage("undefined", key))
    case _ => Success(Member(v, key))
  }
}
