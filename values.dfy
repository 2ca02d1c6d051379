/**
  The dynamically typed values the service passes around: JSON-like documents (Lambda events,
  DynamoDB items, formatted menus, menu snapshots) and timestamps.
 */
module Values {

  /** A JSON / DynamoDB attribute value. Numbers that occur in this service are integers. */
  datatype Json =
    | JNull
    | JBool(b: bool)
    | JNum(n: int)
    | JStr(s: string)
    | JArr(elems: seq<Json>)
    | JObj(fields: map<string, Json>)

  /** A Python `dict[str, Any]`. */
  type Dict = map<string, Json>

  /** `d.get(key, default)`, on any dictionary. */
  function Get<K, V>(d: map<K, V>, key: K, default: V): (v: V)
    ensures key in d ==> v == d[key]
    ensures key !in d ==> v == default
  {
    if key in d then d[key] else default
  }

  /**
    A `datetime`, carried by the text `isoformat()` gives for it; `fromisoformat` of that text
    gives the same value back.
   */
  datatype DateTime = DateTime(iso: string)
}
