/** The timestamp normaliser: every shape a timestamp can take in a source
    document becomes one canonical instant, or nothing. */
module Timestamps {
  import opened Wrappers
  import opened Values

  /** ISO 8601 parsing as a partial function: `None` where the parser raises. */
  type IsoParser = string -> Option<Instant>

  /** The string whose characters are the given bytes (their Latin-1
      reading). The model parses a bytes payload as this string. The two
      readings agree on ASCII input; they differ when a non-ASCII byte is the
      date/time separator, which the parser accepts in bytes but rejects in
      a string. */
  function Decoded(bs: seq<bv8>): (s: string)
    ensures |s| == |bs|
    ensures forall i :: 0 <= i < |bs| ==> s[i] as int == bs[i] as int
  {
    seq(|bs|, i requires 0 <= i < |bs| => (bs[i] as int) as char)
  }

  /** `isoparse` applied to the payload of a `$date` wrapper. It reads a
      string or bytes; any other payload makes it raise, which the normaliser
      catches. */
  function ParseWrapped(iso: IsoParser, payload: Value): Option<Instant>
  {
    match payload
    case Str(s) => iso(s)
    case Bytes(bs) => iso(Decoded(bs))
    case _ => None
  }

  /** `to_datetime`. The source probes shapes in a fixed order (timestamp
      object, datetime, `$date` mapping, string); the variants are disjoint
      here, so the order cannot change the result. Parse failures are
      swallowed and read as absent. */
  function ToDatetime(iso: IsoParser, v: Value): (r: Option<Instant>)
    ensures v == Null ==> r == None
    ensures v.NativeTs? ==> r == Some(v.ts)
    ensures v.DateTime? ==> r == Some(v.dt)
    ensures v.Str? ==> r == iso(v.s)
    ensures IsDateWrapper(v) && v.fields["$date"].Str? ==> r == iso(v.fields["$date"].s)
    ensures IsDateWrapper(v) && v.fields["$date"].Bytes? ==> r == iso(Decoded(v.fields["$date"].bs))
    ensures r.Some? ==>
              || v.NativeTs? || v.DateTime? || v.Str?
              || (IsDateWrapper(v) && (v.fields["$date"].Str? || v.fields["$date"].Bytes?))
  {
    match v
    case NativeTs(t) => Some(t)
    case DateTime(t) => Some(t)
    case Dict(m) => if "$date" in m then ParseWrapped(iso, m["$date"]) else None
    case Str(s) => iso(s)
    case _ => None
  }

  /** The normaliser's result stored in a document field: a datetime, or None. */
  function AsValue(t: Option<Instant>): (v: Value)
    ensures v == Null <==> t.None?
    ensures t.Some? ==> v == DateTime(t.value)
    ensures !IsDateWrapper(v)
  {
    match t
    case Some(i) => DateTime(i)
    case None => Null
  }

  /** A `$date` wrapper around a string and the string itself normalise alike. */
  lemma WrapperAgreesWithString(iso: IsoParser, m: map<string, Value>, s: string)
    requires "$date" in m && m["$date"] == Str(s)
    ensures ToDatetime(iso, Dict(m)) == ToDatetime(iso, Str(s))
  {
  }

  /** One instant in all four accepted shapes normalises to that instant. */
  lemma AllShapesAgree(iso: IsoParser, s: string, t: Instant)
    requires iso(s) == Some(t)
    ensures ToDatetime(iso, Dict(map["$date" := Str(s)])) == Some(t)
    ensures ToDatetime(iso, Str(s)) == Some(t)
    ensures ToDatetime(iso, NativeTs(t)) == Some(t)
    ensures ToDatetime(iso, DateTime(t)) == Some(t)
  {
  }

  /** Normalising a stored result again changes nothing. */
  lemma NormaliseIdempotent(iso: IsoParser, v: Value)
    ensures ToDatetime(iso, AsValue(ToDatetime(iso, v))) == ToDatetime(iso, v)
  {
  }
}
