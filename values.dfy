/** JSON values and records as the request handlers see them.
    A JavaScript object is a map from field names to values; a field that
    is `undefined` is simply absent from the map, which is also what
    JSON serialisation does with it. */
module Values {

  datatype Option<+T> = None | Some(value: T)

  /** One JSON value. `Time(ms)` is the ISO-8601 string the server builds
      from the instant `ms` (`createdAt`, `updatedAt`); a parsed request body
      never holds one. `Other(text)` is an object, an array or a fractional
      number, which the handlers never look into; `text` is its JavaScript
      string conversion. */
  datatype Value =
    | Null
    | Bool(b: bool)
    | Num(n: int)
    | Str(s: string)
    | Time(ms: int)
    | Other(text: string)

  type Record = map<string, Value>

  /** JavaScript truthiness of a value; `undefined` is the absent field. */
  predicate Truthy(v: Option<Value>)
  {
    match v
    case None => false
    case Some(Null) => false
    case Some(Bool(b)) => b
    case Some(Num(n)) => n != 0
    case Some(Str(s)) => s != ""
    case Some(Time(_)) => true
    case Some(Other(_)) => true
  }

  /** `r.key`, with `None` for `undefined`. */
  function Field(r: Record, key: string): Option<Value>
  {
    if key in r then Some(r[key]) else None
  }

  /** Strict equality `r.key === v`. */
  predicate Holds(r: Record, key: string, v: Value)
  {
    key in r && r[key] == v
  }

  /** The object literal `{k1: r.k1, ..., kn: r.kn}` once serialised:
      the fields of `r` named in `keys`, the undefined ones dropped. */
  function Pick(r: Record, keys: set<string>): Record
  {
    map k | k in r && k in keys :: r[k]
  }

  /** The log details `{a: r.a, b: r.b}` of a record that has `a`: the field
      `a`, and the field `b` only when the record defines it. */
  lemma PickOfTwo(r: Record, a: string, b: string)
    requires a in r && a != b
    ensures Pick(r, {a, b}) == map[a := r[a]] + (if b in r then map[b := r[b]] else map[])
  {
    var p := Pick(r, {a, b});
    var q := map[a := r[a]] + (if b in r then map[b := r[b]] else map[]);
    assert p.Keys == q.Keys;
  }
}
