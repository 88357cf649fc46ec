/** Decoded JSON request values, and how each language tests and formats them. */
module Json {
  import opened Outcome

  /** A JSON value as decoded by Flask's `request.json` or Express's body parser
      (numbers are restricted to integers). An object keeps its members in insertion
      order, the order in which `json.dumps` and `JSON.stringify` write them back. */
  datatype Json =
    | Null
    | Bool(b: bool)
    | Num(n: int)
    | Str(s: string)
    | Arr(items: seq<Json>)
    | Obj(members: seq<(string, Json)>)

  /** A request body: a JSON object. Only its fields are looked up, never its text,
      so the order of its own keys does not matter. */
  type Body = map<string, Json>

  /** Python truthiness of an optional decoded value (`None` for an absent key). */
  predicate PyTruthy(v: Option<Json>)
  {
    match v
    case None => false
    case Some(Null) => false
    case Some(Bool(b)) => b
    case Some(Num(n)) => n != 0
    case Some(Str(s)) => s != ""
    case Some(Arr(items)) => items != []
    case Some(Obj(members)) => members != []
  }

  /** JavaScript truthiness of a destructured field (`undefined` for an absent key):
      unlike Python, empty arrays and objects are truthy. */
  predicate JsTruthy(v: Option<Json>)
  {
    match v
    case None => false
    case Some(Null) => false
    case Some(Bool(b)) => b
    case Some(Num(n)) => n != 0
    case Some(Str(s)) => s != ""
    case Some(Arr(_)) => true
    case Some(Obj(_)) => true
  }

  /** The field `k` of a body, or `None` when the key is absent. */
  function Field(body: Body, k: string): (r: Option<Json>)
    ensures r.Some? <==> k in body
    ensures r.Some? ==> r.value == body[k]
  {
    if k in body then Some(body[k]) else None
  }

  /** A value as an f-string or template literal writes it: a string as itself, any
      other value by the language's own conversion `other` (Python `str`, JavaScript
      `String`), which this model leaves uninterpreted. */
  function Render(v: Json, other: Json -> string): (r: string)
    ensures v.Str? ==> r == v.s
  {
    if v.Str? then v.s else other(v)
  }
}
