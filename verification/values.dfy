/** The values a document field can hold, as the migration observes them, and
    the Python built-ins it applies to them (truthiness, `dict.get`). */
module Values {

  /** A point in time, i.e. the canonical `datetime` the migration stores. Its
      representation is abstract: the migration never computes with it. */
  datatype Instant = Instant(micros: int)

  /** A field value read from the source store. The dynamically typed
      attribute probing of the source becomes an explicit variant. */
  datatype Value =
    | Null                           // Python None
    | Bool(b: bool)
    | Int(i: int)
    | Float(f: real)
    | Str(s: string)
    | NativeTs(ts: Instant)          // a timestamp object with a ToDatetime() method; ts is what it converts to
    | DateTime(dt: Instant)          // a datetime (including the store's datetime subclass)
    | Bytes(bs: seq<bv8>)             // a bytes value
    | List(items: seq<Value>)        // also a vector value: it indexes and tests like a list of floats
    | Dict(fields: map<string, Value>)
    | Other(tag: nat)                // any other object (geo point, document reference, ...): always truthy

  /** A document body: field name to value. */
  type Fields = map<string, Value>

  /** A source document: its intrinsic identifier and its field map. A
      document without a body (`to_dict()` returning None) has the empty map. */
  datatype SourceDoc = SourceDoc(id: string, data: Fields)

  /** The exceptions the core can raise on malformed documents. */
  datatype PyError =
    | KeyError(key: Value)   // a subscript with a missing key
    | TypeError              // a subscript on a value that is not subscriptable
    | IndexError             // a subscript past the end of a string

  /** Python truthiness. */
  predicate Truthy(v: Value)
  {
    match v
    case Null => false
    case Bool(b) => b
    case Int(i) => i != 0
    case Float(f) => f != 0.0
    case Str(s) => s != ""
    case Bytes(bs) => bs != []
    case List(items) => items != []
    case Dict(fields) => fields != map[]
    case NativeTs(_) => true
    case DateTime(_) => true
    case Other(_) => true
  }

  /** `m.get(k, default)`. */
  function Get(m: Fields, k: string, default: Value): Value
  {
    if k in m then m[k] else default
  }

  /** A mapping holding a `$date` key, the JSON-export shape of a timestamp. */
  predicate IsDateWrapper(v: Value)
  {
    v.Dict? && "$date" in v.fields
  }

  /** `{k: v for k, v in m.items() if v is not None}`. */
  function StripNulls(m: Fields): (r: Fields)
    ensures r.Keys == set k | k in m && m[k] != Null
    ensures forall k :: k in r ==> r[k] == m[k] && r[k] != Null
  {
    map k | k in m && m[k] != Null :: m[k]
  }

  /** `s.endswith(suffix)`. */
  predicate EndsWith(s: string, suffix: string)
  {
    |suffix| <= |s| && s[|s| - |suffix|..] == suffix
  }
}
