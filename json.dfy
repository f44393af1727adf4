/**
 * JSON values, as serde_json's `Value` holds them, and the field rules serde's
 * derived `Deserialize` applies when it reads a struct from a JSON object:
 * a `String` field must be present and a string; an `Option<String>` field
 * may be absent or null (None) or a string (Some); keys the struct does not
 * name are ignored. Turning text into a `Json` is serde_json's parser, which
 * the model takes as a parameter.
 */
module Json {
  import opened Wrappers

  /** Numbers are integers here; fractional JSON numbers are not modelled. */
  datatype Json =
    | JNull
    | JBool(b: bool)
    | JNumber(n: int)
    | JString(s: string)
    | JArray(items: seq<Json>)
    | JObject(fields: map<string, Json>)

  const U64Limit: int := 0x1_0000_0000_0000_0000

  /** A required `String` field: Some(s) when present as a string, None when decoding fails. */
  function RequiredString(obj: map<string, Json>, key: string): (r: Option<string>)
    ensures r.Some? <==> key in obj && obj[key].JString?
    ensures r.Some? ==> obj[key] == JString(r.value)
  {
    if key in obj && obj[key].JString? then Some(obj[key].s) else None
  }

  /**
   * An `Option<String>` field: the outer None means decoding fails (wrong type),
   * Some(None) means absent or null, Some(Some(s)) a string.
   */
  function OptionalString(obj: map<string, Json>, key: string): (r: Option<Option<string>>)
    ensures r.None? <==> key in obj && !obj[key].JNull? && !obj[key].JString?
    ensures r == Some(None) <==> key !in obj || obj[key] == JNull
    ensures forall s :: r == Some(Some(s)) <==> key in obj && obj[key] == JString(s)
  {
    if key !in obj || obj[key].JNull? then Some(None)
    else if obj[key].JString? then Some(Some(obj[key].s))
    else None
  }

  /** A required `u64` field. */
  function RequiredU64(obj: map<string, Json>, key: string): (r: Option<nat>)
    ensures r.Some? <==> key in obj && obj[key].JNumber? && 0 <= obj[key].n < U64Limit
    ensures r.Some? ==> obj[key] == JNumber(r.value) && r.value < U64Limit
  {
    if key in obj && obj[key].JNumber? && 0 <= obj[key].n < U64Limit then Some(obj[key].n) else None
  }

  /** The JSON a present `Option<String>` field serializes to. */
  function StringValue(o: Option<string>): Option<Json> {
    match o
    case None => None
    case Some(s) => Some(JString(s))
  }

  /** The JSON a present `Option<bool>` field serializes to. */
  function BoolValue(o: Option<bool>): Option<Json> {
    match o
    case None => None
    case Some(b) => Some(JBool(b))
  }

  /** An `Option<bool>` field: absent or null is None, a boolean is Some, anything else fails. */
  function OptionalBool(obj: map<string, Json>, key: string): (r: Option<Option<bool>>)
    ensures r == Some(None) <==> key !in obj || obj[key] == JNull
    ensures forall b :: r == Some(Some(b)) <==> key in obj && obj[key] == JBool(b)
  {
    if key !in obj || obj[key].JNull? then Some(None)
    else if obj[key].JBool? then Some(Some(obj[key].b))
    else None
  }

  /**
   * An `Option<Value>` field: absent or null is None, any other value is
   * Some. A present `null` therefore reads back as None.
   */
  function OptionalValue(obj: map<string, Json>, key: string): (r: Option<Json>)
    ensures r.None? <==> key !in obj || obj[key] == JNull
    ensures r.Some? ==> obj[key] == r.value
  {
    if key !in obj || obj[key].JNull? then None else Some(obj[key])
  }
}
