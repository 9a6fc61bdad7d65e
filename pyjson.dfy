/**
 * The values a Lambda handler receives from `json.loads` and keeps in DynamoDB
 * items, with the Python operations the handlers apply to them: truthiness,
 * `dict.get`, subscripting and the `in` operator.
 */
module PyJson {
  import opened Wrappers
  import Strings

  datatype Json =
    | JNull
    | JBool(b: bool)
    | JNum(n: int)
    | JStr(s: string)
    | JArr(elems: seq<Json>)
    | JObj(fields: map<string, Json>)

  /** A DynamoDB item / Python dict with string keys. */
  type Item = map<string, Json>

  /** Python's `bool(v)`: None, False, 0 and empty strings, lists and dicts are false. */
  predicate Truthy(v: Json)
  {
    match v
    case JNull => false
    case JBool(b) => b
    case JNum(n) => n != 0
    case JStr(s) => s != ""
    case JArr(e) => e != []
    case JObj(m) => m != map[]
  }

  /** `d.get(k, default)` on a dict. */
  function GetOr(d: Item, k: string, default: Json): (r: Json)
    ensures k in d ==> r == d[k]
    ensures k !in d ==> r == default
  {
    if k in d then d[k] else default
  }

  /** `d.get(k)` on a dict: `None` when the key is absent. */
  function Get(d: Item, k: string): (r: Json)
    ensures k in d ==> r == d[k]
    ensures k !in d ==> r == JNull
  {
    GetOr(d, k, JNull)
  }

  /**
   * Python's `key in v` for a string key: membership for a dict's keys and a
   * list's elements, substring for a string; `None` stands for the `TypeError`
   * raised for None, booleans and numbers.
   */
  function Member(key: string, v: Json): (r: Option<bool>)
    ensures r.None? <==> (v.JNull? || v.JBool? || v.JNum?)
    ensures v.JObj? ==> r == Some(key in v.fields)
  {
    match v
    case JObj(m) => Some(key in m)
    case JArr(e) => Some(JStr(key) in e)
    case JStr(s) => Some(Strings.Contains(s, key))
    case _ => None
  }

  /** `v[key]` for a string key; `None` stands for the `KeyError` or `TypeError` raised. */
  function Subscript(v: Json, key: string): (r: Option<Json>)
    ensures r.Some? <==> v.JObj? && key in v.fields
    ensures r.Some? ==> r.value == v.fields[key]
  {
    if v.JObj? && key in v.fields then Some(v.fields[key]) else None
  }

  /**
   * A field of a request body as the update handlers read it: `"k" in body`,
   * then `body.get("k")` when it is. `Some(None)` means the field is not
   * supplied; `None` stands for an exception (`in` on a value that is not a
   * container, or `.get` on a container that is not a dict).
   */
  function BodyField(body: Json, key: string): (r: Option<Option<Json>>)
    ensures body.JObj? ==> r == Some(if key in body.fields then Some(body.fields[key]) else None)
  {
    match Member(key, body)
    case None => None
    case Some(false) => Some(None)
    case Some(true) => if body.JObj? then Some(Some(body.fields[key])) else None
  }

  function Message(text: string): Json
  {
    JObj(map["message" := JStr(text)])
  }
}
