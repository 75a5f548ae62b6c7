/**
 * An abstract JSON value, standing in for serde_json's `Value`.
 * Numbers are split into integers (what `as_u64` and `i32` decoding can accept)
 * and non-integral numbers, kept as opaque text; objects are maps, as serde_json's
 * `Map` keeps one value per key.
 */
module Json {
  import opened Wrappers

  datatype Json =
    | Null
    | Bool(b: bool)
    | Int(i: int)
    | Float(text: string)
    | Str(s: string)
    | Arr(items: seq<Json>)
    | Obj(fields: map<string, Json>)

  /** Unsigned 64-bit integers, the type of message ids. */
  const U64_LIMIT: int := 0x1_0000_0000_0000_0000
  type u64 = x: int | 0 <= x < U64_LIMIT

  /** Signed 32-bit integers, the type of error codes. */
  type i32 = x: int | -0x8000_0000 <= x < 0x8000_0000

  /** `Value::as_u64`: the value as an id, when it is an integer that fits. */
  function AsU64(v: Json): (r: Option<u64>)
    ensures r.Some? <==> v.Int? && 0 <= v.i < U64_LIMIT
    ensures r.Some? ==> v == Int(r.value)
  {
    if v.Int? && 0 <= v.i < U64_LIMIT then Some(v.i) else None
  }

  /** `Value::as_str`. */
  function AsStr(v: Json): (r: Option<string>)
    ensures r.Some? <==> v.Str?
    ensures r.Some? ==> v == Str(r.value)
  {
    if v.Str? then Some(v.s) else None
  }

  /** `i32::deserialize` applied to a value. */
  function AsI32(v: Json): (r: Option<i32>)
    ensures r.Some? <==> v.Int? && -0x8000_0000 <= v.i < 0x8000_0000
    ensures r.Some? ==> v == Int(r.value)
  {
    if v.Int? && -0x8000_0000 <= v.i < 0x8000_0000 then Some(v.i) else None
  }

  /** `Map::get`. */
  function Get(fields: map<string, Json>, key: string): (r: Option<Json>)
    ensures r.Some? <==> key in fields
    ensures r.Some? ==> r.value == fields[key]
  {
    if key in fields then Some(fields[key]) else None
  }

  /** One key/value pair of a JSON object, in the order the text gives them. */
  type Entry = (string, Json)

  /** The serde deserialization errors the modelled decoders raise. */
  datatype DeError =
    | DuplicateField(field: string)
    | MissingField(field: string)
    | InvalidType(expected: string)
    | InvalidLength(length: nat)
    | UnknownVariant(variant: string)
    /** `deny_unknown_fields`: the keys a record does not declare (serde names the first of them in the text). */
    | UnknownFields(fields: set<string>)
    /** `de::Error::custom`: a message raised after the fields were read. */
    | Custom(message: string)
    /** `de::Error::invalid_value`: a value of the right type that is not acceptable. */
    | InvalidValue(expected: string)

  /** A map with one key has exactly that key. */
  lemma SingleKey(m: map<string, Json>)
    requires |m| == 1
    ensures exists k :: k in m
    ensures forall a, b :: a in m && b in m ==> a == b
  {
    forall a, b | a in m && b in m
      ensures a == b
    {
      assert |m - {a}| == 0;
    }
  }

  /**
   * serde_json's `deserialize_enum`: an enum value names its variant either as a
   * string or as the one key of a map, whose value is then the variant's content.
   */
  function EnumTag(v: Json): (r: Result<(string, Option<Json>), DeError>)
    ensures r.Ok? <==> v.Str? || (v.Obj? && |v.fields| == 1)
    ensures v.Str? ==> r == Ok((v.s, None))
    ensures r.Ok? && v.Obj? ==> v.fields.Keys == {r.value.0} && r.value.1 == Some(v.fields[r.value.0])
    ensures v.Obj? && |v.fields| != 1 ==> r == Err(InvalidValue("map with a single key"))
  {
    match v
    case Str(s) => Ok((s, None))
    case Obj(fields) =>
      if |fields| != 1 then Err(InvalidValue("map with a single key"))
      else
        SingleKey(fields);
        var k :| k in fields;
        Ok((k, Some(fields[k])))
    case _ => Err(InvalidType("string or map"))
  }

  /** `v` names the unit variant `name`, as a string or as a map from the name to null. */
  predicate NamesUnitVariant(v: Json, name: string) {
    v == Str(name) || v == Obj(map[name := Null])
  }

  /**
   * `VariantAccess::unit_variant`: a unit variant named by a map must have null
   * as its content (serde reads `()` from it).
   */
  function UnitContent(content: Option<Json>): (r: Result<(), DeError>)
    ensures r.Ok? <==> content.None? || content == Some(Null)
  {
    if content.Some? && content.value != Null then Err(InvalidType("unit")) else Ok(())
  }
}
