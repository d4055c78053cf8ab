/** JSON values (section 3 of RFC 8259) in the shape Python's decoder hands
    them over, and subscripting one of them with a string key. */
module Json {
  import opened Python

  /** A decoded JSON value. Integer literals become `int`; numbers with a
      fraction or an exponent become `float`, kept here as their literal
      text. Objects become dicts, in which the last duplicate name wins;
      the member order of those dicts is not kept. */
  datatype Json =
    | JNull
    | JBool(b: bool)
    | JInt(i: int)
    | JFloat(literal: string)
    | JString(s: string)
    | JArray(elems: seq<Json>)
    | JObject(members: map<string, Json>)

  /** The text of the `TypeError` raised by `v[key]` with a `str` key when
      `v` is not a dict (CPython 3.11 wording). */
  function NotSubscriptable(v: Json): string {
    match v
    case JArray(_) => "list indices must be integers or slices, not str"
    case JString(_) => "string indices must be integers, not 'str'"
    case JInt(_) => "'int' object is not subscriptable"
    case JFloat(_) => "'float' object is not subscriptable"
    case JBool(_) => "'bool' object is not subscriptable"
    case JNull => "'NoneType' object is not subscriptable"
    case JObject(_) => ""
  }

  /** `v[key]`: the member of a dict, a `KeyError` for a missing name, a
      `TypeError` for anything that is not a dict. */
  function Index(v: Json, key: string): (r: Outcome<Json>)
    ensures r.Value? <==> v.JObject? && key in v.members
    ensures r.Value? ==> r.value == v.members[key]
    ensures v.JObject? && key !in v.members ==> r == Raised(KeyError(key))
    ensures !v.JObject? ==> r.Raised? && r.exc.TypeError? && r.exc.message != ""
  {
    match v
    case JObject(m) => if key in m then Value(m[key]) else Raised(KeyError(key))
    case _ => Raised(TypeError(NotSubscriptable(v)))
  }

  /** `obj.get(key, None)`, with JSON `null` standing for Python's `None`. */
  function GetOrNull(obj: map<string, Json>, key: string): Json
  {
    if key in obj then obj[key] else JNull
  }
}
