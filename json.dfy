/** JSON/BSON values as the tools read and write them. */
module Json {

  datatype Option<+T> = None | Some(value: T)

  /** A decoded JSON (or BSON) value. Numbers are exact reals. */
  datatype Value =
    | Null
    | Bool(b: bool)
    | Num(n: real)
    | Str(s: string)
    | Arr(items: seq<Value>)
    | Obj(fields: map<string, Value>)

  /** A stored document (or a result document): a field map; absent fields are absent keys. */
  type Doc = map<string, Value>

  /** MongoDB's internal identifier field. */
  const IdField := "_id"

  /** Python truthiness of a decoded value (`if x:` / `if not x:`). */
  predicate Truthy(v: Value)
  {
    match v
    case Null => false
    case Bool(b) => b
    case Num(n) => n != 0.0
    case Str(s) => s != ""
    case Arr(items) => items != []
    case Obj(fields) => fields != map[]
  }

  /** Python's `int(x)` on a float: truncation toward zero. */
  function TruncateTowardZero(x: real): (r: int)
    ensures 0.0 <= x ==> r as real <= x < r as real + 1.0
    ensures x < 0.0 ==> r as real - 1.0 < x <= r as real
  {
    if x >= 0.0 then x.Floor else -((-x).Floor)
  }

  /** `d.get(field)` */
  function Get(d: Doc, field: string): Option<Value>
  {
    if field in d then Some(d[field]) else None
  }

  /** An inclusion projection `{f: 1, ..., "_id": 0}`: the listed fields the document has, nothing else. */
  function Project(d: Doc, fields: set<string>): (r: Doc)
    ensures r.Keys == d.Keys * fields
    ensures forall k :: k in r ==> r[k] == d[k]
  {
    map k | k in d && k in fields :: d[k]
  }

  /** The exclusion projection `{"_id": 0}`. */
  function WithoutId(d: Doc): (r: Doc)
    ensures IdField !in r
    ensures r.Keys == d.Keys - {IdField}
    ensures forall k :: k in r ==> r[k] == d[k]
  {
    d - {IdField}
  }
}
