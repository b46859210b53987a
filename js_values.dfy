/**
 * The slice of JavaScript's value model that the client touches: strings,
 * numbers as Redis integer replies deliver them, booleans, `undefined`, and
 * plain objects built from literals.  An object is a map from property name
 * to value; a property that was assigned `undefined` is still a key of the
 * map, exactly as `'quorum' in ret` would report it.
 */
module JsValues {
  datatype Value =
    | Undefined
    | Str(s: string)
    | Num(n: int)
    | Bool(b: bool)
    | Obj(fields: map<string, Value>)

  type Object = map<string, Value>

  /** `a[i]` on a JavaScript array: the element, or `undefined` past the end. */
  function At(a: seq<Value>, i: nat): (v: Value)
    ensures i < |a| ==> v == a[i]
    ensures |a| <= i ==> v == Undefined
  {
    if i < |a| then a[i] else Undefined
  }

  /** `aux[i]` on the array of strings that `split` returns. */
  function TokenAt(aux: seq<string>, i: nat): (v: Value)
    ensures i < |aux| ==> v == Str(aux[i])
    ensures |aux| <= i ==> v == Undefined
  {
    if i < |aux| then Str(aux[i]) else Undefined
  }
}
