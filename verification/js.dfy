/**
 * The JavaScript values the server and its clients pass around: JSON-like
 * values with truthiness, property reads (`v.k` and `v?.k`), property
 * assignment and the `String(v)` conversion used by template literals.
 * An object is the map from its own property names to their values; the
 * order of its keys is not modelled. Numbers are integers.
 */
module Js {
  import opened Wrappers
  import Strings

  datatype Value =
    | Undefined
    | Null
    | Bool(b: bool)
    | Num(n: int)
    | Str(s: string)
    | Arr(items: seq<Value>)
    | Obj(props: map<string, Value>)

  const EmptyObj: Value := Obj(map[])

  /** JavaScript truthiness: undefined, null, false, 0 and '' are falsy. */
  predicate Truthy(v: Value) {
    match v
    case Undefined => false
    case Null => false
    case Bool(b) => b
    case Num(n) => n != 0
    case Str(s) => s != ""
    case _ => true
  }

  predicate IsNullish(v: Value) {
    v.Undefined? || v.Null?
  }

  /** `typeof v === 'object' && v !== null`: arrays and plain objects. */
  predicate IsObjectLike(v: Value) {
    v.Arr? || v.Obj?
  }

  /** `v ?? d`. */
  function OrElse(v: Value, d: Value): (r: Value)
    ensures !IsNullish(v) ==> r == v
    ensures IsNullish(v) ==> r == d
  {
    if IsNullish(v) then d else v
  }

  /** `v?.k`: an own property of an object, undefined for anything else. */
  function Get(v: Value, k: string): Value {
    if v.Obj? && k in v.props then v.props[k] else Undefined
  }

  function TypeErrorReading(v: Value, k: string): string {
    "Cannot read properties of " + (if v.Null? then "null" else "undefined") + " (reading '" + k + "')"
  }

  /** `v.k`: like `v?.k`, but reading from undefined or null throws a TypeError. */
  function Read(v: Value, k: string): (r: Result<Value, string>)
    ensures r.Failure? <==> IsNullish(v)
    ensures r.Success? ==> r.value == Get(v, k)
  {
    if IsNullish(v) then Failure(TypeErrorReading(v, k)) else Success(Get(v, k))
  }

  /**
   * `o[k] = x` on an object or an array; a named property on an array is
   * not one of its JSON-visible items, so the array value is unchanged.
   */
  function SetProp(v: Value, k: string, x: Value): (r: Value)
    requires IsObjectLike(v)
    ensures v.Obj? ==> r.Obj? && r.props.Keys == v.props.Keys + {k}
    ensures v.Obj? ==> Get(r, k) == x && forall k' :: k' != k ==> Get(r, k') == Get(v, k')
    ensures v.Arr? ==> r == v
  {
    if v.Obj? then Obj(v.props[k := x]) else v
  }

  /** `String(v)`, as a template literal `${v}` renders a value. */
  function ToStr(v: Value): string
    decreases v, 1, 0
  {
    match v
    case Undefined => "undefined"
    case Null => "null"
    case Bool(b) => if b then "true" else "false"
    case Num(n) => Strings.IntToString(n)
    case Str(s) => s
    case Arr(items) => ItemsStr(v, 0)
    case Obj(_) => "[object Object]"
  }

  /** Array.prototype.join(',') from item `i` on; undefined and null items render as ''. */
  function ItemsStr(whole: Value, i: nat): string
    requires whole.Arr? && i <= |whole.items|
    decreases whole, 0, |whole.items| - i
  {
    if i == |whole.items| then ""
    else
      var item := whole.items[i];
      var s := if IsNullish(item) then "" else ToStr(item);
      if i + 1 == |whole.items| then s else s + "," + ItemsStr(whole, i + 1)
  }

  /**
   * Values that JSON.stringify renders faithfully: no undefined anywhere,
   * since it would be dropped from an object or turned into null in an array.
   */
  predicate JsonSafe(v: Value) {
    match v
    case Undefined => false
    case Arr(items) => forall i :: 0 <= i < |items| ==> JsonSafe(items[i])
    case Obj(props) => forall k :: k in props ==> JsonSafe(props[k])
    case _ => true
  }
}
