/** An already-parsed JSON document, and the three Jackson `JsonNode`
    accessors the transcript extraction uses: `path(field)`, `isArray()` with
    `get(index)`, and `asText(defaultValue)`. The parser itself is not part of
    this model; a document arrives as a `Json` value. */
module JsonTree {
  import opened Values

  /** A JSON value. A number is carried with the text Jackson renders for it;
      an object keeps the last value of a repeated field, as Jackson does. */
  datatype Json =
    | JNull
    | JBool(b: bool)
    | JNumber(text: string)
    | JString(s: string)
    | JArray(items: seq<Json>)
    | JObject(fields: map<string, Json>)

  /** `node.path(field)`. `None` is Jackson's MissingNode: the result for an
      absent field, for any node that is not an object, and for a missing
      node itself. */
  function PathField(node: Option<Json>, field: string): (r: Option<Json>)
    ensures node.None? ==> r.None?
    ensures node.Some? ==> r == Lookup(node.value, [Field(field)])
  {
    if node.Some? && node.value.JObject? && field in node.value.fields
    then Some(node.value.fields[field])
    else None
  }

  /** `node.asText(fallback)`: the fallback for a missing node and for JSON
      null; the text of a scalar; the empty string for an array or object. */
  function AsText(node: Option<Json>, fallback: Option<string>): (r: Option<string>)
    ensures node.None? || node.value.JNull? ==> r == fallback
    ensures node.Some? && !node.value.JNull? ==> r.Some?
    ensures node.Some? && node.value.JString? ==> r == Some(node.value.s)
    ensures node.Some? && (node.value.JArray? || node.value.JObject?) ==> r == Some("")
  {
    match node
    case None => fallback
    case Some(JNull) => fallback
    case Some(JBool(b)) => Some(if b then "true" else "false")
    case Some(JNumber(t)) => Some(t)
    case Some(JString(s)) => Some(s)
    case Some(JArray(_)) => Some("")
    case Some(JObject(_)) => Some("")
  }

  /** One step of a path into a document: a field of an object, or a
      position in an array. */
  datatype Step = Field(name: string) | Index(position: nat)

  /** The node a path leads to, when every step exists: a reference reading
      of a document that does not go through Jackson's accessors. */
  function Lookup(node: Json, path: seq<Step>): Option<Json>
    decreases |path|
  {
    if path == [] then Some(node)
    else
      match path[0]
      case Field(name) =>
        if node.JObject? && name in node.fields then Lookup(node.fields[name], path[1..]) else None
      case Index(k) =>
        if node.JArray? && k < |node.items| then Lookup(node.items[k], path[1..]) else None
  }
}
