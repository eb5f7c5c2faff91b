/** The JSON tree that Jackson's `JsonNode` represents, reduced to what the
    model needs: scalars, arrays and objects. An object is the ordered list of
    its members, as an `ObjectNode` keeps them in insertion order and writes
    them in that order. */
module Json {

  datatype Json =
    | Null
    | Bool(b: bool)
    | Number(n: int)
    | Str(s: string)
    | Array(elems: seq<Json>)
    | Object(fields: seq<(string, Json)>)

  /** No member name occurs twice in `fields`, as in an `ObjectNode`. */
  predicate DistinctNames(fields: seq<(string, Json)>)
  {
    forall i, j :: 0 <= i < j < |fields| ==> fields[i].0 != fields[j].0
  }

  /** `e` is `v` itself or a value nested anywhere inside `v`. */
  predicate Occurs(e: Json, v: Json)
  {
    e == v ||
    match v
    case Array(elems) => exists i :: 0 <= i < |elems| && Occurs(e, elems[i])
    case Object(fields) => exists i :: 0 <= i < |fields| && Occurs(e, fields[i].1)
    case _ => false
  }
}
