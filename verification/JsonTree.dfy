/** Decoded JSON values, as the runner and the server receive them in `map[string]any`. */
module JsonTree {

  datatype Option<+T> = None | Some(value: T)

  /**
   * `Num` is every value the source converts with toFloat64: the Go integer and float types and a
   * well-formed json.Number. `Literal` is a json.Number whose text is not a number.
   */
  datatype Json =
    | Null
    | Bool(b: bool)
    | Num(n: real)
    | Literal(text: string)
    | Str(s: string)
    | Arr(items: seq<Json>)
    | Obj(fields: map<string, Json>)

  /** One step from a container to a child: a map key or an array position. */
  datatype Step = Key(key: string) | Index(index: nat)

  type Path = seq<Step>

  function Child(j: Json, step: Step): (r: Option<Json>)
    ensures r.Some? ==> r.value < j
  {
    match step
    case Key(k) => if j.Obj? && k in j.fields then Some(j.fields[k]) else None
    case Index(i) => if j.Arr? && i < |j.items| then Some(j.items[i]) else None
  }

  /** The value a path leads to, if every step of it exists. */
  function At(j: Json, path: Path): Option<Json>
    decreases |path|
  {
    if path == [] then Some(j) else
      match Child(j, path[0])
      case None => None
      case Some(c) => At(c, path[1..])
  }
}
