/**
 * Decoded JSON values, as `json.loads` hands them to the client: objects are
 * Python dicts, arrays are lists. Floating-point numbers are not modelled.
 */
module Json {
  import opened Wrappers

  datatype JValue =
    | JNull
    | JBool(b: bool)
    | JInt(i: int)
    | JStr(s: string)
    | JArr(items: seq<JValue>)
    | JObj(fields: map<string, JValue>)

  /** Python truthiness of a decoded value (`if code:`). */
  predicate Truthy(v: JValue) {
    match v
    case JNull => false
    case JBool(b) => b
    case JInt(i) => i != 0
    case JStr(s) => s != ""
    case JArr(items) => items != []
    case JObj(fields) => fields != map[]
  }

  /** `None` becomes `null`, any other optional string becomes a JSON string. */
  function OptStr(s: Option<string>): (v: JValue)
    ensures v == JNull <==> s.None?
    ensures s.Some? ==> v == JStr(s.value)
  {
    match s
    case None => JNull
    case Some(x) => JStr(x)
  }

  /** The JSON strings of a list of strings. */
  function Strs(xs: seq<string>): (r: seq<JValue>)
    ensures |r| == |xs|
    ensures forall i :: 0 <= i < |xs| ==> r[i] == JStr(xs[i])
  {
    if xs == [] then [] else [JStr(xs[0])] + Strs(xs[1..])
  }

  /** No field of the object is `null`. */
  predicate NoNullFields(m: map<string, JValue>) {
    forall k :: k in m ==> m[k] != JNull
  }

  /**
   * The fields of a model dump with `exclude_none=True`: every field whose
   * value is `None` is dropped, every other field is kept as it is.
   */
  function ExcludeNone(m: map<string, JValue>): (r: map<string, JValue>)
    ensures NoNullFields(r)
    ensures forall k :: k in r <==> k in m && m[k] != JNull
    ensures forall k :: k in r ==> r[k] == m[k]
  {
    map k | k in m && m[k] != JNull :: m[k]
  }
}
