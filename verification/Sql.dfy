// Values as the database driver hands them over, and the typed buffers it scans them into.
module Sql {
  import opened Wrappers

  // A cell of a row. Times are instants, floats are reals, a JSON column holds encoded bytes.
  datatype SqlValue =
    | Null
    | Int(i: int)
    | Text(s: string)
    | Time(t: int)
    | Bool(b: bool)
    | Float(r: real)
    | Encoded(bytes: seq<bv8>)

  datatype Json =
    | JsonNull
    | JsonBool(flag: bool)
    | JsonNumber(number: real)
    | JsonString(text: string)
    | JsonArray(items: seq<Json>)
    | JsonObject(members: map<string, Json>)

  // encoding/json as a parameter: `unmarshal` also receives the value already in the target.
  datatype JsonCodec = JsonCodec(marshal: Json -> seq<bv8>, unmarshal: (Json, seq<bv8>) -> Option<Json>)

  // Bytes that decode, and decode to the same value again on top of it.
  predicate Decodes(codec: JsonCodec, bytes: seq<bv8>) {
    var first := codec.unmarshal(JsonNull, bytes);
    first.Some? && codec.unmarshal(first.value, bytes) == first
  }

  // Encoding the document then decoding it returns it.
  predicate RoundTrips(codec: JsonCodec, doc: Json) {
    && codec.marshal(doc) != []
    && Decodes(codec, codec.marshal(doc))
    && codec.unmarshal(JsonNull, codec.marshal(doc)) == Some(doc)
  }

  // Scan buffers: the sql.Null* types, raw bytes, and the buffer for a column of unknown type.
  datatype Buffer =
    | NullInt64(int64: int, valid: bool)
    | NullString(text: string, valid: bool)
    | NullTime(time: int, valid: bool)
    | NullBool(flag: bool, valid: bool)
    | NullFloat64(float64: real, valid: bool)
    | Bytes(bytes: seq<bv8>)
    | UnknownType(raw: SqlValue)

  // Scanning a cell into a buffer; None is the driver's conversion error.
  function Fill(b: Buffer, v: SqlValue): Option<Buffer> {
    match (b, v)
    case (NullInt64(_, _), Null) => Some(NullInt64(0, false))
    case (NullInt64(_, _), Int(i)) => Some(NullInt64(i, true))
    case (NullString(_, _), Null) => Some(NullString("", false))
    case (NullString(_, _), Text(s)) => Some(NullString(s, true))
    case (NullTime(_, _), Null) => Some(NullTime(0, false))
    case (NullTime(_, _), Time(t)) => Some(NullTime(t, true))
    case (NullBool(_, _), Null) => Some(NullBool(false, false))
    case (NullBool(_, _), Bool(x)) => Some(NullBool(x, true))
    case (NullFloat64(_, _), Null) => Some(NullFloat64(0.0, false))
    case (NullFloat64(_, _), Float(r)) => Some(NullFloat64(r, true))
    case (Bytes(_), Null) => Some(Bytes([]))
    case (Bytes(_), Encoded(bs)) => Some(Bytes(bs))
    case (UnknownType(_), _) => Some(UnknownType(v))
    case _ => None
  }
}
