/** Optional values, as returned by a catalog lookup or a parse that may throw. */
module Optional {
  datatype Option<T> = None | Some(value: T)
}

/**
 * The JavaScript values that the provider payloads carry. Market figures,
 * deltas and history blobs are copied verbatim and never computed with, so
 * the model only needs their shape: `Undefined` stands for an absent
 * property, and the floating-point numbers are reals (NaN is not modelled).
 */
module JsonValues {
  datatype Json =
    | Undefined
    | Null
    | Bool(b: bool)
    | Num(n: real)
    | Str(s: string)
    | Arr(elems: seq<Json>)
    | Obj(props: map<string, Json>)

  /** JavaScript truthiness: undefined, null, false, 0 and "" are falsy. */
  predicate Truthy(v: Json) {
    match v
    case Undefined => false
    case Null => false
    case Bool(b) => b
    case Num(n) => n != 0.0
    case Str(s) => s != ""
    case Arr(_) => true
    case Obj(_) => true
  }

  /** Reading any member of these two throws a TypeError. */
  predicate Nullish(v: Json) {
    v.Undefined? || v.Null?
  }

  /**
   * The value of `v[key]` for a value that is not nullish: an object's own
   * property, or undefined when it is missing or `v` is a primitive.
   */
  function Member(v: Json, key: string): Json {
    match v
    case Obj(props) => if key in props then props[key] else Undefined
    case _ => Undefined
  }

  /** The expression `v || []`. */
  function OrEmpty(v: Json): (r: Json)
    ensures Truthy(r)
    ensures Truthy(v) ==> r == v
    ensures !Truthy(v) ==> r == Arr([])
  {
    if Truthy(v) then v else Arr([])
  }
}
