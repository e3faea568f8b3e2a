/** JavaScript values as the content script sees them when it reads the
    extension's synchronised key/value storage, and the truthiness test
    (ECMAScript ToBoolean, section 7.1.2 of ECMA-262) it applies to them. */
module JsValues {

  datatype Option<T> = None | Some(value: T)

  /** A value held in storage. The storage area keeps JSON data only, so
      `undefined`, NaN and functions cannot be stored; arrays and objects
      are lumped together as `Composite`, because the script only tests
      their truthiness. */
  datatype Json =
    | Null
    | Bool(b: bool)
    | Number(n: real)
    | Str(s: string)
    | Composite

  /** The value under `key` in the object a storage read returns:
      `None` stands for `undefined`, i.e. the key was absent. */
  function Lookup(items: map<string, Json>, key: string): (v: Option<Json>)
    ensures v.Some? <==> key in items
    ensures v.Some? ==> v.value == items[key]
  {
    if key in items then Some(items[key]) else None
  }

  /** `Boolean(v)`: false exactly for undefined, null, false, zero and the
      empty string (JSON numbers have no NaN, and -0 is the real 0.0). */
  function Truthy(v: Option<Json>): (r: bool)
    ensures !r <==> v in {None, Some(Null), Some(Bool(false)), Some(Number(0.0)), Some(Str(""))}
  {
    match v
    case None => false
    case Some(Null) => false
    case Some(Bool(b)) => b
    case Some(Number(n)) => n != 0.0
    case Some(Str(s)) => s != ""
    case Some(Composite) => true
  }
}
