/** JSON values as the runtime stores them. A record is a map: the integrity
    hash sorts the keys, so key order carries no meaning. */
module Json {
  datatype Json =
    | Null
    | Bool(b: bool)
    | Num(n: real)
    | Str(s: string)
    | Arr(items: seq<Json>)
    | Obj(fields: map<string, Json>)
  {
    /** Values that `===` compares by content. */
    predicate Primitive?() {
      Null? || Bool? || Num? || Str?
    }
  }

  const MAX_SAFE_INTEGER := 9007199254740991

  predicate SafeInteger(n: real) {
    n == n.Floor as real && -MAX_SAFE_INTEGER <= n.Floor <= MAX_SAFE_INTEGER
  }

  /** At most `d` arrays and records are nested inside one another. */
  ghost predicate DepthAtMost(v: Json, d: nat) {
    match v
    case Arr(items) => d > 0 && forall i :: 0 <= i < |items| ==> DepthAtMost(items[i], d - 1)
    case Obj(fields) => d > 0 && forall k :: k in fields ==> DepthAtMost(fields[k], d - 1)
    case _ => true
  }

  /** The value tested as a condition. */
  predicate Truthy(v: Json) {
    match v
    case Null => false
    case Bool(b) => b
    case Num(n) => n != 0.0
    case Str(s) => s != ""
    case _ => true
  }

  predicate IntegerValue(n: real) {
    n == n.Floor as real
  }
}
