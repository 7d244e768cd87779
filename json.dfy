/** The decoded JSON documents the endpoints answer with, and the few Python
    dictionary idioms the source applies to them (`d.get(k)`, `x or {}`,
    truthiness). A key that is missing reads as Python's `None`, which is the
    same value as JSON `null`, so both are `JNull` here. */
module JsonModel {
  import opened Wrappers

  datatype Json =
    | JNull
    | JBool(b: bool)
    | JNum(n: int)
    | JStr(s: string)
    | JArr(items: seq<Json>)
    | JObj(fields: map<string, Json>)

  /** Python truthiness of a decoded JSON value. */
  predicate Truthy(j: Json) {
    match j
    case JNull => false
    case JBool(b) => b
    case JNum(n) => n != 0
    case JStr(s) => s != ""
    case JArr(items) => items != []
    case JObj(fields) => fields != map[]
  }

  /** Python's `j or default`. */
  function Or(j: Json, default: Json): (r: Json)
    ensures Truthy(j) ==> r == j
    ensures !Truthy(j) ==> r == default
  {
    if Truthy(j) then j else default
  }

  const EmptyObject: Json := JObj(map[])

  /** The name Python gives the type of a decoded value, for error messages. */
  function TypeName(j: Json): string {
    match j
    case JNull => "NoneType"
    case JBool(_) => "bool"
    case JNum(_) => "int"
    case JStr(_) => "str"
    case JArr(_) => "list"
    case JObj(_) => "dict"
  }

  /** `fields.get(k)` on a dictionary already known to be one. */
  function Lookup(fields: map<string, Json>, k: string): (r: Json)
    ensures k in fields ==> r == fields[k]
    ensures k !in fields ==> r == JNull
  {
    if k in fields then fields[k] else JNull
  }

  /** Python's `j.get(k)`: the value under `k`, `None` when it is missing, and
      an AttributeError when `j` is not a dictionary. */
  function Get(j: Json, k: string): (r: Result<Json, string>)
    ensures r.Success? <==> j.JObj?
    ensures j.JObj? && k in j.fields ==> r.value == j.fields[k]
    ensures j.JObj? && k !in j.fields ==> r.value == JNull
  {
    match j
    case JObj(fields) => Success(Lookup(fields, k))
    case _ => Failure("'" + TypeName(j) + "' object has no attribute 'get'")
  }

  /** `(j.get(k) or {})`: a sub-object, with a falsy member read as empty. */
  function GetObject(j: Json, k: string): (r: Result<Json, string>)
    ensures r.Success? <==> j.JObj?
    ensures r.Success? && k !in j.fields ==> r.value == EmptyObject
    ensures r.Success? && k in j.fields && Truthy(j.fields[k]) ==> r.value == j.fields[k]
  {
    var v :- Get(j, k);
    Success(Or(v, EmptyObject))
  }

  function FromOptInt(o: Option<int>): (r: Json)
    ensures o.None? ==> r == JNull
    ensures o.Some? ==> r == JNum(o.value)
  {
    match o
    case None => JNull
    case Some(n) => JNum(n)
  }

  /** The value at the end of a path of keys, each step through an object;
      `None` as soon as a step is not an object or lacks the key. */
  function At(j: Json, path: seq<string>): Option<Json>
    decreases |path|
  {
    if path == [] then Some(j)
    else if j.JObj? && path[0] in j.fields then At(j.fields[path[0]], path[1..])
    else None
  }
}
