/** JSON values as `json.loads` produces them (Python `dict`, `list`, `str`, `int`,
    `bool` and `None`). */
module JsonData {
  import opened Wrappers

  datatype Json =
    | JNull
    | JBool(b: bool)
    | JNum(n: int)
    | JStr(s: string)
    | JArr(items: seq<Json>)
    | JObj(fields: map<string, Json>)

  /** The empty object `{}` that both extractors return when nothing parses. */
  const EmptyObject: Json := JObj(map[])

  /** Python truthiness of a decoded value, as `if not routine_dict:` tests it. */
  function Truthy(j: Json): (r: bool)
    ensures !r <==> j in {JNull, JBool(false), JNum(0), JStr(""), JArr([]), EmptyObject}
  {
    match j
    case JNull => false
    case JBool(b) => b
    case JNum(n) => n != 0
    case JStr(s) => s != ""
    case JArr(items) => items != []
    case JObj(fields) => fields != map[]
  }

  /** `d[key] = value` on a decoded value: only a `dict` supports item assignment by a text key;
      on anything else Python raises `TypeError`, modelled as `None`. */
  function SetKey(j: Json, key: string, value: Json): (r: Option<Json>)
    ensures r.Some? <==> j.JObj?
    ensures r.Some? ==> r.value.JObj? && r.value.fields.Keys == j.fields.Keys + {key}
    ensures r.Some? ==> r.value.fields[key] == value
    ensures r.Some? ==> forall k :: k in j.fields && k != key ==> r.value.fields[k] == j.fields[k]
  {
    if j.JObj? then Some(JObj(j.fields[key := value])) else None
  }

  /** `d.get(key)` on a `dict`: `None` when the key is absent. */
  function Get(fields: map<string, Json>, key: string): Option<Json> {
    if key in fields then Some(fields[key]) else None
  }
}
