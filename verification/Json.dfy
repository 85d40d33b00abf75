/** A JSON tree as Python sees it after `json.loads`, and the defensive reads shared by the handlers. */
module Json {
  import opened Wrappers

  datatype Json =
    | JNull
    | JBool(bit: bool)
    | JInt(number: int)
    | JFloat(decimal: real)
    | JString(text: string)
    | JList(items: seq<Json>)
    | JObject(fields: map<string, Json>)

  type Object = map<string, Json>

  /** `dict.get`: an absent key reads as `None`. */
  function Get(dict: Object, key: string): Json {
    if key in dict then dict[key] else JNull
  }

  /** `isinstance(value, str) and value`. */
  function NonEmptyString(value: Json): Option<string> {
    if value.JString? && value.text != "" then Some(value.text) else None
  }

  /** `isinstance(value, int)`: Python counts a Boolean as the integer 0 or 1. */
  function Integer(value: Json): Option<int> {
    match value
    case JInt(n) => Some(n)
    case JBool(b) => Some(if b then 1 else 0)
    case _ => None
  }

  /** The `data.object` of a Stripe event, when both levels are objects. */
  function DataObject(payload: Object): Option<Object> {
    var data := Get(payload, "data");
    if !data.JObject? then None else
      var inner := Get(data.fields, "object");
      if inner.JObject? then Some(inner.fields) else None
  }
}
