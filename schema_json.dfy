/**
 * The JSON form of the descriptors of src/definition.rs, as serde derives it for
 * the `*Impl` records: every record refuses keys it does not declare
 * (`deny_unknown_fields`), the flags and lists may be left out (`default`), an
 * `Option` reads null or an absent key as `None`, and on the way out everything
 * empty, false or absent is skipped (`skip_serializing_if`). Keys are renamed as
 * the records say: `$ref`, `type`, `enum`, `items`, `minItems`, `maxItems`, `id`,
 * `domain`, `types` and `returns`.
 */
module SchemaJson {
  import opened Wrappers
  import opened Json
  import opened Schema

  // ---------------------------------------------------------------------------
  // The keys each record declares

  const TYPE_KEYS: set<string> := {"$ref", "type", "enum", "items", "minItems", "maxItems", "properties"}
  const ITEM_KEYS: set<string> := TYPE_KEYS + {"description"}
  const FIELD_KEYS: set<string> := TYPE_KEYS + {"name", "description", "experimental", "deprecated", "optional"}
  const TYPE_DEF_KEYS: set<string> := TYPE_KEYS + {"id", "description", "experimental", "deprecated"}
  const METHOD_KEYS: set<string> := {"name", "description", "experimental", "deprecated", "handlers", "parameters", "returns", "redirect"}
  const DOMAIN_KEYS: set<string> := {"domain", "description", "experimental", "deprecated", "dependencies", "types", "commands", "events"}
  const VERSION_KEYS: set<string> := {"major", "minor"}
  const DEFINITION_KEYS: set<string> := {"version", "domains"}

  const A_STRING: string := "a string"
  const A_BOOLEAN: string := "a boolean"
  const A_U64: string := "u64"
  const A_SEQUENCE: string := "a sequence"
  const A_MAP: string := "a map"
  const A_VARIANT: string := "a variant name"

  // ---------------------------------------------------------------------------
  // Values

  /** The `#[serde(rename)]` name of each primitive. */
  function PrimitiveName(p: Primitive): string {
    match p
    case BooleanPrimitive => "boolean"
    case IntegerPrimitive => "integer"
    case NumberPrimitive => "number"
    case StringPrimitive => "string"
    case ArrayPrimitive => "array"
    case ObjectPrimitive => "object"
    case AnyPrimitive => "any"
  }

  /** The primitive a serde name stands for; any other name is an unknown variant. */
  function PrimitiveNamed(name: string): (r: Result<Primitive, DeError>)
    ensures r.Ok? ==> PrimitiveName(r.value) == name
    ensures (exists p :: name == PrimitiveName(p)) ==> r.Ok?
    ensures r.Err? ==> r.error == UnknownVariant(name)
  {
    if name == "boolean" then Ok(BooleanPrimitive)
    else if name == "integer" then Ok(IntegerPrimitive)
    else if name == "number" then Ok(NumberPrimitive)
    else if name == "string" then Ok(StringPrimitive)
    else if name == "array" then Ok(ArrayPrimitive)
    else if name == "object" then Ok(ObjectPrimitive)
    else if name == "any" then Ok(AnyPrimitive)
    else Err(UnknownVariant(name))
  }

  /**
   * `Primitive::deserialize`: one of the seven names, as a string or as the one key
   * of a map whose value is null; any other name is an unknown variant.
   */
  function DecodePrimitive(j: Json): (r: Result<Primitive, DeError>)
    ensures r.Ok? ==> NamesUnitVariant(j, PrimitiveName(r.value))
    ensures (exists p :: j == Str(PrimitiveName(p))) ==> r.Ok?
    ensures j.Str? && r.Err? ==> r.error == UnknownVariant(j.s)
    ensures !j.Str? && !j.Obj? ==> r.Err?
  {
    var tag :- EnumTag(j);
    var p :- PrimitiveNamed(tag.0);
    var _ :- UnitContent(tag.1);
    assert j.Obj? ==> j.fields == map[tag.0 := Null];
    Ok(p)
  }

  function DecodeString(j: Json): Result<string, DeError> {
    if j.Str? then Ok(j.s) else Err(InvalidType(A_STRING))
  }

  function DecodeU64(j: Json): Result<u64, DeError> {
    if j.Int? && 0 <= j.i < U64_LIMIT then Ok(j.i) else Err(InvalidType(A_U64))
  }

  /** A sequence read element by element, stopping at the first element that does not decode. */
  function DecodeList<T>(j: Json, decode: Json -> Result<T, DeError>): (r: Result<seq<T>, DeError>)
    ensures r.Ok? <==> j.Arr? && forall i :: 0 <= i < |j.items| ==> decode(j.items[i]).Ok?
    ensures r.Ok? ==> |r.value| == |j.items| && forall i :: 0 <= i < |j.items| ==> decode(j.items[i]) == Ok(r.value[i])
  {
    if !j.Arr? then Err(InvalidType(A_SEQUENCE)) else DecodeItems(j.items, decode)
  }

  function DecodeItems<T>(items: seq<Json>, decode: Json -> Result<T, DeError>): (r: Result<seq<T>, DeError>)
    ensures r.Ok? <==> forall i :: 0 <= i < |items| ==> decode(items[i]).Ok?
    ensures r.Ok? ==> |r.value| == |items| && forall i :: 0 <= i < |items| ==> decode(items[i]) == Ok(r.value[i])
  {
    if items == [] then Ok([])
    else
      var first :- decode(items[0]);
      var rest :- DecodeItems(items[1..], decode);
      assert forall i :: 1 <= i < |items| ==> items[i] == items[1..][i - 1];
      Ok([first] + rest)
  }

  function DecodeStrings(j: Json): Result<seq<string>, DeError> {
    DecodeList(j, DecodeString)
  }

  // ---------------------------------------------------------------------------
  // Keys

  /** An `Option<String>` key: absent or null reads as `None`. */
  function OptionalString(fields: map<string, Json>, key: string): Result<Option<string>, DeError> {
    if key !in fields || fields[key].Null? then Ok(None)
    else if fields[key].Str? then Ok(Some(fields[key].s))
    else Err(InvalidType(A_STRING))
  }

  /** An `Option<u64>` key. */
  function OptionalU64(fields: map<string, Json>, key: string): Result<Option<u64>, DeError> {
    if key !in fields || fields[key].Null? then Ok(None)
    else
      var n :- DecodeU64(fields[key]);
      Ok(Some(n))
  }

  /** An `Option<Primitive>` key. */
  function OptionalPrimitive(fields: map<string, Json>, key: string): Result<Option<Primitive>, DeError> {
    if key !in fields || fields[key].Null? then Ok(None)
    else
      var p :- DecodePrimitive(fields[key]);
      Ok(Some(p))
  }

  /** An `Option<Vec<String>>` key. */
  function OptionalStrings(fields: map<string, Json>, key: string): Result<Option<seq<string>>, DeError> {
    if key !in fields || fields[key].Null? then Ok(None)
    else
      var xs :- DecodeStrings(fields[key]);
      Ok(Some(xs))
  }

  /**
   * A `String` key without `default`: read when present; its absence is reported
   * (by `Required`) only once every present key has been read.
   */
  function PresentString(fields: map<string, Json>, key: string): Result<Option<string>, DeError> {
    if key !in fields then Ok(None)
    else if fields[key].Str? then Ok(Some(fields[key].s))
    else Err(InvalidType(A_STRING))
  }

  /** The missing-field error of a required key. */
  function Required<T>(v: Option<T>, key: string): (r: Result<T, DeError>)
    ensures v.None? ==> r == Err(MissingField(key))
    ensures v.Some? ==> r == Ok(v.value)
  {
    if v.Some? then Ok(v.value) else Err(MissingField(key))
  }

  /** A `#[serde(default)]` flag: absent reads as false; present, it must be a boolean (null is refused). */
  function Flag(fields: map<string, Json>, key: string): Result<bool, DeError> {
    if key !in fields then Ok(false)
    else if fields[key].Bool? then Ok(fields[key].b)
    else Err(InvalidType(A_BOOLEAN))
  }

  /** A `#[serde(default)]` list of strings: absent reads as empty. */
  function StringList(fields: map<string, Json>, key: string): Result<seq<string>, DeError> {
    if key !in fields then Ok([]) else DecodeStrings(fields[key])
  }

  /** The `deny_unknown_fields` check. */
  function KnownKeysOnly(j: Json, keys: set<string>): (r: Result<map<string, Json>, DeError>)
    ensures r.Ok? <==> j.Obj? && j.fields.Keys <= keys
    ensures r.Ok? ==> r.value == j.fields
    ensures j.Obj? && r.Err? ==> r.error == UnknownFields(j.fields.Keys - keys)
  {
    if !j.Obj? then Err(InvalidType(A_MAP))
    else if !(j.fields.Keys <= keys) then Err(UnknownFields(j.fields.Keys - keys))
    else Ok(j.fields)
  }

  // ---------------------------------------------------------------------------
  // Decoding the records that nest inside types

  /** The seven type keys every type-carrying record shares (`TypeImpl`'s fields). */
  function DecodeTypeKeys(j: Json): (r: Result<Descriptor, DeError>)
    requires j.Obj?
    ensures r.Ok? ==> (r.value.reference.Some? <==> "$ref" in j.fields && !j.fields["$ref"].Null?)
    ensures r.Ok? ==> (r.value.primitive.Some? <==> "type" in j.fields && !j.fields["type"].Null?)
    ensures r.Ok? ==> (r.value.item.Some? <==> "items" in j.fields && !j.fields["items"].Null?)
    ensures r.Ok? ==> (r.value.properties.Properties? <==> "properties" in j.fields && !j.fields["properties"].Null?)
    decreases j, 0, 0
  {
    var fields := j.fields;
    var reference :- OptionalString(fields, "$ref");
    var primitive :- OptionalPrimitive(fields, "type");
    var enumValues :- OptionalStrings(fields, "enum");
    var item :- if "items" !in fields || fields["items"].Null? then Ok(None)
      else (var i :- DecodeItem(fields["items"]); Ok(Some(i)));
    var minItems :- OptionalU64(fields, "minItems");
    var maxItems :- OptionalU64(fields, "maxItems");
    var properties :- if "properties" !in fields || fields["properties"].Null? then Ok(NoProperties)
      else (var fs :- DecodeFieldList(fields["properties"]); Ok(Properties(fs)));
    Ok(Descriptor(reference, primitive, enumValues, item, minItems, maxItems, properties))
  }

  /** `ItemImpl::deserialize`. */
  function DecodeItem(j: Json): (r: Result<ItemDescriptor, DeError>)
    ensures r.Ok? ==> j.Obj? && j.fields.Keys <= ITEM_KEYS
    ensures j.Obj? && !(j.fields.Keys <= ITEM_KEYS) ==> r == Err(UnknownFields(j.fields.Keys - ITEM_KEYS))
    ensures r.Ok? ==> (r.value.description.Some? <==> "description" in j.fields && j.fields["description"].Str?)
    ensures r.Ok? ==> DecodeTypeKeys(j) == Ok(r.value.ty)
    decreases j, 1, 0
  {
    var fields :- KnownKeysOnly(j, ITEM_KEYS);
    var description :- OptionalString(fields, "description");
    var ty :- DecodeTypeKeys(j);
    Ok(ItemDescriptor(description, ty))
  }

  /** `FieldImpl::deserialize`: `name` is required, the three flags default to false. */
  function DecodeField(j: Json): (r: Result<FieldDescriptor, DeError>)
    ensures r.Ok? ==> j.Obj? && j.fields.Keys <= FIELD_KEYS
    ensures j.Obj? && !(j.fields.Keys <= FIELD_KEYS) ==> r == Err(UnknownFields(j.fields.Keys - FIELD_KEYS))
    ensures j.Obj? && "name" !in j.fields ==> r.Err?
    ensures r.Ok? ==> "name" in j.fields && j.fields["name"] == Str(r.value.name)
    ensures r.Ok? ==> DecodeTypeKeys(j) == Ok(r.value.ty)
    decreases j, 1, 0
  {
    var fields :- KnownKeysOnly(j, FIELD_KEYS);
    var name :- PresentString(fields, "name");
    var description :- OptionalString(fields, "description");
    var experimental :- Flag(fields, "experimental");
    var deprecated :- Flag(fields, "deprecated");
    var optional :- Flag(fields, "optional");
    var ty :- DecodeTypeKeys(j);
    var n :- Required(name, "name");
    Ok(FieldDescriptor(n, description, experimental, deprecated, optional, ty))
  }

  /** `Vec<FieldImpl>`: the fields in order, stopping at the first that does not decode. */
  function DecodeFieldList(j: Json): (r: Result<seq<FieldDescriptor>, DeError>)
    ensures r.Ok? ==> j.Arr? && |r.value| == |j.items|
    decreases j, 3, 0
  {
    if !j.Arr? then Err(InvalidType(A_SEQUENCE)) else DecodeFieldsFrom(j, 0)
  }

  function DecodeFieldsFrom(j: Json, from: nat): (r: Result<seq<FieldDescriptor>, DeError>)
    requires j.Arr? && from <= |j.items|
    ensures r.Ok? ==> |r.value| == |j.items| - from
    decreases j, 2, |j.items| - from
  {
    if from == |j.items| then Ok([])
    else
      var f :- DecodeField(j.items[from]);
      var rest :- DecodeFieldsFrom(j, from + 1);
      Ok([f] + rest)
  }

  /** The field list decoder is the generic list decoder applied to `DecodeField`. */
  lemma {:induction false} FieldListIsList(j: Json)
    ensures DecodeFieldList(j) == DecodeList(j, DecodeField)
  {
    if j.Arr? {
      FieldsFromIsItems(j, 0);
      assert j.items[0..] == j.items;
    }
  }

  lemma {:induction false} FieldsFromIsItems(j: Json, from: nat)
    requires j.Arr? && from <= |j.items|
    ensures DecodeFieldsFrom(j, from) == DecodeItems(j.items[from..], DecodeField)
    decreases |j.items| - from
  {
    if from < |j.items| {
      FieldsFromIsItems(j, from + 1);
      assert j.items[from..][1..] == j.items[from + 1..];
    }
  }

  // ---------------------------------------------------------------------------
  // Decoding the other records

  /** `TypeDefImpl::deserialize`: `id` is required. */
  function DecodeTypeDef(j: Json): (r: Result<TypeDefDescriptor, DeError>)
    ensures r.Ok? ==> j.Obj? && j.fields.Keys <= TYPE_DEF_KEYS
    ensures j.Obj? && !(j.fields.Keys <= TYPE_DEF_KEYS) ==> r == Err(UnknownFields(j.fields.Keys - TYPE_DEF_KEYS))
    ensures j.Obj? && "id" !in j.fields ==> r.Err?
    ensures r.Ok? ==> "id" in j.fields && j.fields["id"] == Str(r.value.name)
    ensures r.Ok? ==> DecodeTypeKeys(j) == Ok(r.value.ty)
  {
    var fields :- KnownKeysOnly(j, TYPE_DEF_KEYS);
    var name :- PresentString(fields, "id");
    var description :- OptionalString(fields, "description");
    var experimental :- Flag(fields, "experimental");
    var deprecated :- Flag(fields, "deprecated");
    var ty :- DecodeTypeKeys(j);
    var n :- Required(name, "id");
    Ok(TypeDefDescriptor(n, description, experimental, deprecated, ty))
  }

  /** `MethodImpl::deserialize`: `name` is required; flags default to false, the lists to empty. */
  function DecodeMethod(j: Json): (r: Result<MethodDescriptor, DeError>)
    ensures r.Ok? ==> j.Obj? && j.fields.Keys <= METHOD_KEYS
    ensures j.Obj? && !(j.fields.Keys <= METHOD_KEYS) ==> r == Err(UnknownFields(j.fields.Keys - METHOD_KEYS))
    ensures j.Obj? && "name" !in j.fields ==> r.Err?
    ensures r.Ok? ==> "name" in j.fields && j.fields["name"] == Str(r.value.name)
  {
    var fields :- KnownKeysOnly(j, METHOD_KEYS);
    var name :- PresentString(fields, "name");
    var description :- OptionalString(fields, "description");
    var experimental :- Flag(fields, "experimental");
    var deprecated :- Flag(fields, "deprecated");
    var handlers :- StringList(fields, "handlers");
    var parameters :- (if "parameters" in fields then DecodeFieldList(fields["parameters"]) else Ok([]));
    var results :- (if "returns" in fields then DecodeFieldList(fields["returns"]) else Ok([]));
    var redirect :- OptionalString(fields, "redirect");
    var n :- Required(name, "name");
    Ok(MethodDescriptor(n, description, experimental, deprecated, handlers, parameters, results, redirect))
  }

  /** `DomainImpl::deserialize`: `domain` is required; flags default to false, the lists to empty. */
  function DecodeDomain(j: Json): (r: Result<DomainDescriptor, DeError>)
    ensures r.Ok? ==> j.Obj? && j.fields.Keys <= DOMAIN_KEYS
    ensures j.Obj? && !(j.fields.Keys <= DOMAIN_KEYS) ==> r == Err(UnknownFields(j.fields.Keys - DOMAIN_KEYS))
    ensures j.Obj? && "domain" !in j.fields ==> r.Err?
    ensures r.Ok? ==> "domain" in j.fields && j.fields["domain"] == Str(r.value.name)
  {
    var fields :- KnownKeysOnly(j, DOMAIN_KEYS);
    var name :- PresentString(fields, "domain");
    var description :- OptionalString(fields, "description");
    var experimental :- Flag(fields, "experimental");
    var deprecated :- Flag(fields, "deprecated");
    var dependencies :- StringList(fields, "dependencies");
    var typeDefs :- (if "types" in fields then DecodeList(fields["types"], DecodeTypeDef) else Ok([]));
    var commands :- (if "commands" in fields then DecodeList(fields["commands"], DecodeMethod) else Ok([]));
    var events :- (if "events" in fields then DecodeList(fields["events"], DecodeMethod) else Ok([]));
    var n :- Required(name, "domain");
    Ok(DomainDescriptor(n, description, experimental, deprecated, dependencies, typeDefs, commands, events))
  }

  /** `Version::deserialize`: both parts required. */
  function DecodeVersion(j: Json): (r: Result<Version, DeError>)
    ensures r.Ok? <==> j.Obj? && j.fields.Keys == VERSION_KEYS && j.fields["major"].Str? && j.fields["minor"].Str?
    ensures r.Ok? ==> j.fields["major"] == Str(r.value.major) && j.fields["minor"] == Str(r.value.minor)
  {
    var fields :- KnownKeysOnly(j, VERSION_KEYS);
    var major :- PresentString(fields, "major");
    var minor :- PresentString(fields, "minor");
    var ma :- Required(major, "major");
    var mi :- Required(minor, "minor");
    Ok(Version(ma, mi))
  }

  /** `DefinitionImpl::deserialize`: both keys required. */
  function DecodeDefinition(j: Json): (r: Result<DefinitionDescriptor, DeError>)
    ensures r.Ok? ==> j.Obj? && j.fields.Keys == DEFINITION_KEYS
    ensures r.Ok? ==> DecodeVersion(j.fields["version"]) == Ok(r.value.version)
    ensures r.Ok? ==> DecodeList(j.fields["domains"], DecodeDomain) == Ok(r.value.domains)
  {
    var fields :- KnownKeysOnly(j, DEFINITION_KEYS);
    var version :- if "version" in fields then (var v :- DecodeVersion(fields["version"]); Ok(Some(v))) else Ok(None);
    var domains :- if "domains" in fields then (var ds :- DecodeList(fields["domains"], DecodeDomain); Ok(Some(ds))) else Ok(None);
    var v :- Required(version, "version");
    var ds :- Required(domains, "domains");
    Ok(DefinitionDescriptor(v, ds))
  }

  // ---------------------------------------------------------------------------
  // What `default` and `Option` mean for a record that decodes

  /** A flag is set exactly when its key holds `true`; a description is read exactly when its key holds a string. */
  lemma FieldDefaults(j: Json)
    requires DecodeField(j).Ok?
    ensures var f := DecodeField(j).value;
      && (f.description.Some? <==> "description" in j.fields && j.fields["description"].Str?)
      && (f.experimental <==> "experimental" in j.fields && j.fields["experimental"] == Bool(true))
      && (f.deprecated <==> "deprecated" in j.fields && j.fields["deprecated"] == Bool(true))
      && (f.optional <==> "optional" in j.fields && j.fields["optional"] == Bool(true))
  {
  }

  lemma TypeDefDefaults(j: Json)
    requires DecodeTypeDef(j).Ok?
    ensures var t := DecodeTypeDef(j).value;
      && (t.description.Some? <==> "description" in j.fields && j.fields["description"].Str?)
      && (t.experimental <==> "experimental" in j.fields && j.fields["experimental"] == Bool(true))
      && (t.deprecated <==> "deprecated" in j.fields && j.fields["deprecated"] == Bool(true))
  {
  }

  /** Flags absent read as false, lists absent read as empty; a present `returns` is the method's results. */
  lemma MethodDefaults(j: Json)
    requires DecodeMethod(j).Ok?
    ensures var m := DecodeMethod(j).value;
      && (m.experimental <==> "experimental" in j.fields && j.fields["experimental"] == Bool(true))
      && (m.deprecated <==> "deprecated" in j.fields && j.fields["deprecated"] == Bool(true))
      && ("handlers" !in j.fields ==> m.handlers == [])
      && ("parameters" !in j.fields ==> m.parameters == [])
      && ("returns" !in j.fields ==> m.results == [])
      && ("returns" in j.fields ==> DecodeFieldList(j.fields["returns"]) == Ok(m.results))
  {
  }

  lemma DomainDefaults(j: Json)
    requires DecodeDomain(j).Ok?
    ensures var d := DecodeDomain(j).value;
      && (d.experimental <==> "experimental" in j.fields && j.fields["experimental"] == Bool(true))
      && (d.deprecated <==> "deprecated" in j.fields && j.fields["deprecated"] == Bool(true))
      && ("dependencies" !in j.fields ==> d.dependencies == [])
      && ("types" !in j.fields ==> d.typeDefs == [])
      && ("commands" !in j.fields ==> d.commands == [])
      && ("events" !in j.fields ==> d.events == [])
  {
  }

  // ---------------------------------------------------------------------------
  // Encoding (`Serialize` of the records). Each record is written as the object
  // holding exactly the keys it has: a `None`, a `false` flag or an empty list
  // is left out (`skip_serializing_if`).

  function EncodeStrings(xs: seq<string>): Json {
    Arr(StringItems(xs))
  }

  function StringItems(xs: seq<string>): (r: seq<Json>)
    ensures |r| == |xs| && forall i :: 0 <= i < |xs| ==> r[i] == Str(xs[i])
  {
    if xs == [] then [] else [Str(xs[0])] + StringItems(xs[1..])
  }

  function EncodePrimitive(p: Primitive): Json {
    Str(PrimitiveName(p))
  }

  function EncodeList<T>(xs: seq<T>, encode: T -> Json): Json {
    Arr(MapSeq(xs, encode))
  }

  /** Which type keys a descriptor writes: its `Some` options, and `properties` whenever present, even empty. */
  predicate TypeHas(d: Descriptor, k: string) {
    if k == "$ref" then d.reference.Some?
    else if k == "type" then d.primitive.Some?
    else if k == "enum" then d.enumValues.Some?
    else if k == "items" then d.item.Some?
    else if k == "minItems" then d.minItems.Some?
    else if k == "maxItems" then d.maxItems.Some?
    else k == "properties" && d.properties.Properties?
  }

  function TypeValue(d: Descriptor, k: string): Json
    requires TypeHas(d, k)
    decreases d, 0
  {
    if k == "$ref" then Str(d.reference.value)
    else if k == "type" then EncodePrimitive(d.primitive.value)
    else if k == "enum" then EncodeStrings(d.enumValues.value)
    else if k == "items" then EncodeItem(d.item.value)
    else if k == "minItems" then Int(d.minItems.value)
    else if k == "maxItems" then Int(d.maxItems.value)
    else EncodeFieldList(d.properties.fields)
  }

  predicate ItemHas(i: ItemDescriptor, k: string) {
    if k in TYPE_KEYS then TypeHas(i.ty, k) else k == "description" && i.description.Some?
  }

  function ItemValue(i: ItemDescriptor, k: string): Json
    requires ItemHas(i, k)
    decreases i, 0
  {
    if k in TYPE_KEYS then TypeValue(i.ty, k) else Str(i.description.value)
  }

  function EncodeItem(i: ItemDescriptor): Json
    decreases i, 1
  {
    Obj(map k | k in ITEM_KEYS && ItemHas(i, k) :: ItemValue(i, k))
  }

  predicate FieldHas(f: FieldDescriptor, k: string) {
    if k in TYPE_KEYS then TypeHas(f.ty, k)
    else if k == "name" then true
    else if k == "description" then f.description.Some?
    else if k == "experimental" then f.experimental
    else if k == "deprecated" then f.deprecated
    else k == "optional" && f.optional
  }

  function FieldValue(f: FieldDescriptor, k: string): Json
    requires FieldHas(f, k)
    decreases f, 0
  {
    if k in TYPE_KEYS then TypeValue(f.ty, k)
    else if k == "name" then Str(f.name)
    else if k == "description" then Str(f.description.value)
    else Bool(true)
  }

  function EncodeField(f: FieldDescriptor): Json
    decreases f, 1
  {
    Obj(map k | k in FIELD_KEYS && FieldHas(f, k) :: FieldValue(f, k))
  }

  function EncodeFieldSeq(fs: seq<FieldDescriptor>): (r: seq<Json>)
    ensures |r| == |fs|
    decreases fs, 0
  {
    if fs == [] then [] else [EncodeField(fs[0])] + EncodeFieldSeq(fs[1..])
  }

  function EncodeFieldList(fs: seq<FieldDescriptor>): Json
    decreases fs, 1
  {
    Arr(EncodeFieldSeq(fs))
  }

  predicate TypeDefHas(t: TypeDefDescriptor, k: string) {
    if k in TYPE_KEYS then TypeHas(t.ty, k)
    else if k == "id" then true
    else if k == "description" then t.description.Some?
    else if k == "experimental" then t.experimental
    else k == "deprecated" && t.deprecated
  }

  function TypeDefValue(t: TypeDefDescriptor, k: string): Json
    requires TypeDefHas(t, k)
  {
    if k in TYPE_KEYS then TypeValue(t.ty, k)
    else if k == "id" then Str(t.name)
    else if k == "description" then Str(t.description.value)
    else Bool(true)
  }

  function EncodeTypeDef(t: TypeDefDescriptor): Json {
    Obj(map k | k in TYPE_DEF_KEYS && TypeDefHas(t, k) :: TypeDefValue(t, k))
  }

  predicate MethodHas(m: MethodDescriptor, k: string) {
    if k == "name" then true
    else if k == "description" then m.description.Some?
    else if k == "experimental" then m.experimental
    else if k == "deprecated" then m.deprecated
    else if k == "handlers" then m.handlers != []
    else if k == "parameters" then m.parameters != []
    else if k == "returns" then m.results != []
    else k == "redirect" && m.redirect.Some?
  }

  function MethodValue(m: MethodDescriptor, k: string): Json
    requires MethodHas(m, k)
  {
    if k == "name" then Str(m.name)
    else if k == "description" then Str(m.description.value)
    else if k == "experimental" || k == "deprecated" then Bool(true)
    else if k == "handlers" then EncodeStrings(m.handlers)
    else if k == "parameters" then EncodeFieldList(m.parameters)
    else if k == "returns" then EncodeFieldList(m.results)
    else Str(m.redirect.value)
  }

  function EncodeMethod(m: MethodDescriptor): Json {
    Obj(map k | k in METHOD_KEYS && MethodHas(m, k) :: MethodValue(m, k))
  }

  predicate DomainHas(d: DomainDescriptor, k: string) {
    if k == "domain" then true
    else if k == "description" then d.description.Some?
    else if k == "experimental" then d.experimental
    else if k == "deprecated" then d.deprecated
    else if k == "dependencies" then d.dependencies != []
    else if k == "types" then d.typeDefs != []
    else if k == "commands" then d.commands != []
    else k == "events" && d.events != []
  }

  function DomainValue(d: DomainDescriptor, k: string): Json
    requires DomainHas(d, k)
  {
    if k == "domain" then Str(d.name)
    else if k == "description" then Str(d.description.value)
    else if k == "experimental" || k == "deprecated" then Bool(true)
    else if k == "dependencies" then EncodeStrings(d.dependencies)
    else if k == "types" then EncodeList(d.typeDefs, EncodeTypeDef)
    else if k == "commands" then EncodeList(d.commands, EncodeMethod)
    else EncodeList(d.events, EncodeMethod)
  }

  function EncodeDomain(d: DomainDescriptor): Json {
    Obj(map k | k in DOMAIN_KEYS && DomainHas(d, k) :: DomainValue(d, k))
  }

  function EncodeVersion(v: Version): Json {
    Obj(map["major" := Str(v.major), "minor" := Str(v.minor)])
  }

  /** `DefinitionImpl` has no `skip_serializing_if`: both keys are always written. */
  function EncodeDefinition(d: DefinitionDescriptor): Json {
    Obj(map["version" := EncodeVersion(d.version), "domains" := EncodeList(d.domains, EncodeDomain)])
  }

  // ---------------------------------------------------------------------------
  // Round trips: what is written reads back as the same descriptor

  lemma PrimitiveJsonRoundTrip(p: Primitive)
    ensures DecodePrimitive(EncodePrimitive(p)) == Ok(p)
  {
  }

  /** The map form `{"<name>": null}` reads as the same primitive. */
  lemma PrimitiveMapForm(p: Primitive)
    ensures DecodePrimitive(Obj(map[PrimitiveName(p) := Null])) == Ok(p)
  {
    assert |map[PrimitiveName(p) := Null]| == 1;
  }

  lemma StringsJsonRoundTrip(xs: seq<string>)
    ensures DecodeStrings(EncodeStrings(xs)) == Ok(xs)
  {
    var r := DecodeStrings(EncodeStrings(xs));
    assert r.Ok? && |r.value| == |xs|;
    assert forall i :: 0 <= i < |xs| ==> r.value[i] == xs[i];
    assert r.value == xs;
  }

  /** `fields` holds, under every type key, what the descriptor writes there. */
  predicate HoldsTypeKeys(fields: map<string, Json>, d: Descriptor) {
    forall k :: k in TYPE_KEYS ==> (k in fields <==> TypeHas(d, k)) && (k in fields ==> fields[k] == TypeValue(d, k))
  }

  lemma {:induction false} TypeKeysJsonRoundTrip(j: Json, d: Descriptor)
    requires j.Obj? && HoldsTypeKeys(j.fields, d)
    ensures DecodeTypeKeys(j) == Ok(d)
    decreases d, 0
  {
    var fields := j.fields;
    assert OptionalString(fields, "$ref") == Ok(d.reference) by {
      assert "$ref" in TYPE_KEYS;
    }
    assert OptionalPrimitive(fields, "type") == Ok(d.primitive) by {
      assert "type" in TYPE_KEYS;
      if d.primitive.Some? {
        PrimitiveJsonRoundTrip(d.primitive.value);
      }
    }
    assert OptionalStrings(fields, "enum") == Ok(d.enumValues) by {
      assert "enum" in TYPE_KEYS;
      if d.enumValues.Some? {
        StringsJsonRoundTrip(d.enumValues.value);
      }
    }
    assert "items" in TYPE_KEYS && ("items" in fields <==> d.item.Some?);
    if d.item.Some? {
      assert fields["items"] == EncodeItem(d.item.value);
      ItemJsonRoundTrip(d.item.value);
    }
    assert OptionalU64(fields, "minItems") == Ok(d.minItems) by {
      assert "minItems" in TYPE_KEYS;
    }
    assert OptionalU64(fields, "maxItems") == Ok(d.maxItems) by {
      assert "maxItems" in TYPE_KEYS;
    }
    assert "properties" in TYPE_KEYS && ("properties" in fields <==> d.properties.Properties?);
    if d.properties.Properties? {
      assert fields["properties"] == EncodeFieldList(d.properties.fields);
      FieldListJsonRoundTrip(d.properties.fields);
    }
  }

  /** An item object holds its description and, under the type keys, its type. */
  lemma ItemKeys(i: ItemDescriptor)
    ensures EncodeItem(i).fields.Keys <= ITEM_KEYS
    ensures HoldsTypeKeys(EncodeItem(i).fields, i.ty)
    ensures "description" in EncodeItem(i).fields <==> i.description.Some?
    ensures i.description.Some? ==> EncodeItem(i).fields["description"] == Str(i.description.value)
  {
    var fields := EncodeItem(i).fields;
    assert "description" in ITEM_KEYS && "description" !in TYPE_KEYS;
    forall k | k in TYPE_KEYS
      ensures (k in fields <==> TypeHas(i.ty, k)) && (k in fields ==> fields[k] == TypeValue(i.ty, k))
    {
      assert k in ITEM_KEYS;
    }
  }

  lemma {:induction false} ItemJsonRoundTrip(i: ItemDescriptor)
    ensures DecodeItem(EncodeItem(i)) == Ok(i)
    decreases i, 1
  {
    var j := EncodeItem(i);
    ItemKeys(i);
    TypeKeysJsonRoundTrip(j, i.ty);
    assert OptionalString(j.fields, "description") == Ok(i.description);
  }

  /** A field object holds its name, description and flags and, under the type keys, its type. */
  lemma FieldKeys(f: FieldDescriptor)
    ensures EncodeField(f).fields.Keys <= FIELD_KEYS
    ensures HoldsTypeKeys(EncodeField(f).fields, f.ty)
  {
    var fields := EncodeField(f).fields;
    forall k | k in TYPE_KEYS
      ensures (k in fields <==> TypeHas(f.ty, k)) && (k in fields ==> fields[k] == TypeValue(f.ty, k))
    {
      assert k in FIELD_KEYS;
    }
  }

  lemma FieldOwnKeys(f: FieldDescriptor)
    ensures "name" in EncodeField(f).fields && EncodeField(f).fields["name"] == Str(f.name)
    ensures "description" in EncodeField(f).fields <==> f.description.Some?
    ensures f.description.Some? ==> EncodeField(f).fields["description"] == Str(f.description.value)
    ensures "experimental" in EncodeField(f).fields <==> f.experimental
    ensures f.experimental ==> EncodeField(f).fields["experimental"] == Bool(true)
    ensures "deprecated" in EncodeField(f).fields <==> f.deprecated
    ensures f.deprecated ==> EncodeField(f).fields["deprecated"] == Bool(true)
    ensures "optional" in EncodeField(f).fields <==> f.optional
    ensures f.optional ==> EncodeField(f).fields["optional"] == Bool(true)
  {
    assert "name" in FIELD_KEYS && "name" !in TYPE_KEYS;
    assert "description" in FIELD_KEYS && "description" !in TYPE_KEYS;
    assert "experimental" in FIELD_KEYS && "experimental" !in TYPE_KEYS;
    assert "deprecated" in FIELD_KEYS && "deprecated" !in TYPE_KEYS;
    assert "optional" in FIELD_KEYS && "optional" !in TYPE_KEYS;
  }

  lemma {:induction false} FieldJsonRoundTrip(f: FieldDescriptor)
    ensures DecodeField(EncodeField(f)) == Ok(f)
    decreases f, 1
  {
    var j := EncodeField(f);
    FieldKeys(f);
    FieldOwnKeys(f);
    TypeKeysJsonRoundTrip(j, f.ty);
  }

  lemma {:induction false} FieldSeqJsonRoundTrip(fs: seq<FieldDescriptor>)
    ensures DecodeItems(EncodeFieldSeq(fs), DecodeField) == Ok(fs)
    decreases fs, 0
  {
    if fs != [] {
      FieldJsonRoundTrip(fs[0]);
      FieldSeqJsonRoundTrip(fs[1..]);
      assert EncodeFieldSeq(fs)[1..] == EncodeFieldSeq(fs[1..]);
      assert [fs[0]] + fs[1..] == fs;
    }
  }

  lemma {:induction false} FieldListJsonRoundTrip(fs: seq<FieldDescriptor>)
    ensures DecodeFieldList(EncodeFieldList(fs)) == Ok(fs)
    decreases fs, 1
  {
    FieldListIsList(EncodeFieldList(fs));
    FieldSeqJsonRoundTrip(fs);
  }

  /** A list whose every element reads back reads back whole. */
  lemma ListJsonRoundTrip<T>(xs: seq<T>, encode: T -> Json, decode: Json -> Result<T, DeError>)
    requires forall x | x in xs :: decode(encode(x)) == Ok(x)
    ensures DecodeList(EncodeList(xs, encode), decode) == Ok(xs)
  {
    var items := MapSeq(xs, encode);
    assert forall i :: 0 <= i < |items| ==> decode(items[i]) == Ok(xs[i]);
    var r := DecodeList(EncodeList(xs, encode), decode);
    assert r.Ok? && |r.value| == |xs|;
    assert forall i :: 0 <= i < |xs| ==> r.value[i] == xs[i];
    assert r.value == xs;
  }

  lemma TypeDefKeys(t: TypeDefDescriptor)
    ensures EncodeTypeDef(t).fields.Keys <= TYPE_DEF_KEYS
    ensures HoldsTypeKeys(EncodeTypeDef(t).fields, t.ty)
  {
    var fields := EncodeTypeDef(t).fields;
    forall k | k in TYPE_KEYS
      ensures (k in fields <==> TypeHas(t.ty, k)) && (k in fields ==> fields[k] == TypeValue(t.ty, k))
    {
      assert k in TYPE_DEF_KEYS;
    }
  }

  lemma TypeDefOwnKeys(t: TypeDefDescriptor)
    ensures "id" in EncodeTypeDef(t).fields && EncodeTypeDef(t).fields["id"] == Str(t.name)
    ensures "description" in EncodeTypeDef(t).fields <==> t.description.Some?
    ensures t.description.Some? ==> EncodeTypeDef(t).fields["description"] == Str(t.description.value)
    ensures "experimental" in EncodeTypeDef(t).fields <==> t.experimental
    ensures t.experimental ==> EncodeTypeDef(t).fields["experimental"] == Bool(true)
    ensures "deprecated" in EncodeTypeDef(t).fields <==> t.deprecated
    ensures t.deprecated ==> EncodeTypeDef(t).fields["deprecated"] == Bool(true)
  {
    assert "id" in TYPE_DEF_KEYS && "id" !in TYPE_KEYS;
    assert "description" in TYPE_DEF_KEYS && "description" !in TYPE_KEYS;
    assert "experimental" in TYPE_DEF_KEYS && "experimental" !in TYPE_KEYS;
    assert "deprecated" in TYPE_DEF_KEYS && "deprecated" !in TYPE_KEYS;
  }

  lemma TypeDefJsonRoundTrip(t: TypeDefDescriptor)
    ensures DecodeTypeDef(EncodeTypeDef(t)) == Ok(t)
  {
    TypeDefKeys(t);
    TypeDefOwnKeys(t);
    TypeKeysJsonRoundTrip(EncodeTypeDef(t), t.ty);
  }

  lemma MethodKeys(m: MethodDescriptor)
    ensures EncodeMethod(m).fields.Keys <= METHOD_KEYS
    ensures "name" in EncodeMethod(m).fields && EncodeMethod(m).fields["name"] == Str(m.name)
    ensures "description" in EncodeMethod(m).fields <==> m.description.Some?
    ensures m.description.Some? ==> EncodeMethod(m).fields["description"] == Str(m.description.value)
    ensures "experimental" in EncodeMethod(m).fields <==> m.experimental
    ensures m.experimental ==> EncodeMethod(m).fields["experimental"] == Bool(true)
    ensures "deprecated" in EncodeMethod(m).fields <==> m.deprecated
    ensures m.deprecated ==> EncodeMethod(m).fields["deprecated"] == Bool(true)
    ensures "handlers" in EncodeMethod(m).fields <==> m.handlers != []
    ensures m.handlers != [] ==> EncodeMethod(m).fields["handlers"] == EncodeStrings(m.handlers)
    ensures "parameters" in EncodeMethod(m).fields <==> m.parameters != []
    ensures m.parameters != [] ==> EncodeMethod(m).fields["parameters"] == EncodeFieldList(m.parameters)
    ensures "returns" in EncodeMethod(m).fields <==> m.results != []
    ensures m.results != [] ==> EncodeMethod(m).fields["returns"] == EncodeFieldList(m.results)
    ensures "redirect" in EncodeMethod(m).fields <==> m.redirect.Some?
    ensures m.redirect.Some? ==> EncodeMethod(m).fields["redirect"] == Str(m.redirect.value)
  {
  }

  /** `DecodeMethod` assembles a method from what each of its keys reads as. */
  lemma MethodRead(j: Json, m: MethodDescriptor)
    requires j.Obj? && j.fields.Keys <= METHOD_KEYS
    requires PresentString(j.fields, "name") == Ok(Some(m.name))
    requires OptionalString(j.fields, "description") == Ok(m.description)
    requires Flag(j.fields, "experimental") == Ok(m.experimental) && Flag(j.fields, "deprecated") == Ok(m.deprecated)
    requires StringList(j.fields, "handlers") == Ok(m.handlers)
    requires (if "parameters" in j.fields then DecodeFieldList(j.fields["parameters"]) else Ok([])) == Ok(m.parameters)
    requires (if "returns" in j.fields then DecodeFieldList(j.fields["returns"]) else Ok([])) == Ok(m.results)
    requires OptionalString(j.fields, "redirect") == Ok(m.redirect)
    ensures DecodeMethod(j) == Ok(m)
  {
  }

  lemma MethodJsonRoundTrip(m: MethodDescriptor)
    ensures DecodeMethod(EncodeMethod(m)) == Ok(m)
  {
    var j := EncodeMethod(m);
    MethodKeys(m);
    assert StringList(j.fields, "handlers") == Ok(m.handlers) by {
      StringsJsonRoundTrip(m.handlers);
    }
    assert (if "parameters" in j.fields then DecodeFieldList(j.fields["parameters"]) else Ok([])) == Ok(m.parameters) by {
      FieldListJsonRoundTrip(m.parameters);
    }
    assert (if "returns" in j.fields then DecodeFieldList(j.fields["returns"]) else Ok([])) == Ok(m.results) by {
      FieldListJsonRoundTrip(m.results);
    }
    MethodRead(j, m);
  }

  lemma DomainKeys(d: DomainDescriptor)
    ensures EncodeDomain(d).fields.Keys <= DOMAIN_KEYS
    ensures "domain" in EncodeDomain(d).fields && EncodeDomain(d).fields["domain"] == Str(d.name)
    ensures "description" in EncodeDomain(d).fields <==> d.description.Some?
    ensures d.description.Some? ==> EncodeDomain(d).fields["description"] == Str(d.description.value)
    ensures "experimental" in EncodeDomain(d).fields <==> d.experimental
    ensures d.experimental ==> EncodeDomain(d).fields["experimental"] == Bool(true)
    ensures "deprecated" in EncodeDomain(d).fields <==> d.deprecated
    ensures d.deprecated ==> EncodeDomain(d).fields["deprecated"] == Bool(true)
    ensures "dependencies" in EncodeDomain(d).fields <==> d.dependencies != []
    ensures d.dependencies != [] ==> EncodeDomain(d).fields["dependencies"] == EncodeStrings(d.dependencies)
    ensures "types" in EncodeDomain(d).fields <==> d.typeDefs != []
    ensures d.typeDefs != [] ==> EncodeDomain(d).fields["types"] == EncodeList(d.typeDefs, EncodeTypeDef)
    ensures "commands" in EncodeDomain(d).fields <==> d.commands != []
    ensures d.commands != [] ==> EncodeDomain(d).fields["commands"] == EncodeList(d.commands, EncodeMethod)
    ensures "events" in EncodeDomain(d).fields <==> d.events != []
    ensures d.events != [] ==> EncodeDomain(d).fields["events"] == EncodeList(d.events, EncodeMethod)
  {
  }

  lemma TypeDefsJsonRoundTrip(ts: seq<TypeDefDescriptor>)
    ensures DecodeList(EncodeList(ts, EncodeTypeDef), DecodeTypeDef) == Ok(ts)
  {
    forall t | t in ts
      ensures DecodeTypeDef(EncodeTypeDef(t)) == Ok(t)
    {
      TypeDefJsonRoundTrip(t);
    }
    ListJsonRoundTrip(ts, EncodeTypeDef, DecodeTypeDef);
  }

  lemma MethodsJsonRoundTrip(ms: seq<MethodDescriptor>)
    ensures DecodeList(EncodeList(ms, EncodeMethod), DecodeMethod) == Ok(ms)
  {
    forall m | m in ms
      ensures DecodeMethod(EncodeMethod(m)) == Ok(m)
    {
      MethodJsonRoundTrip(m);
    }
    ListJsonRoundTrip(ms, EncodeMethod, DecodeMethod);
  }

  /** `DecodeDomain` assembles a domain from what each of its keys reads as. */
  lemma DomainRead(j: Json, d: DomainDescriptor)
    requires j.Obj? && j.fields.Keys <= DOMAIN_KEYS
    requires PresentString(j.fields, "domain") == Ok(Some(d.name))
    requires OptionalString(j.fields, "description") == Ok(d.description)
    requires Flag(j.fields, "experimental") == Ok(d.experimental) && Flag(j.fields, "deprecated") == Ok(d.deprecated)
    requires StringList(j.fields, "dependencies") == Ok(d.dependencies)
    requires (if "types" in j.fields then DecodeList(j.fields["types"], DecodeTypeDef) else Ok([])) == Ok(d.typeDefs)
    requires (if "commands" in j.fields then DecodeList(j.fields["commands"], DecodeMethod) else Ok([])) == Ok(d.commands)
    requires (if "events" in j.fields then DecodeList(j.fields["events"], DecodeMethod) else Ok([])) == Ok(d.events)
    ensures DecodeDomain(j) == Ok(d)
  {
  }

  lemma DomainJsonRoundTrip(d: DomainDescriptor)
    ensures DecodeDomain(EncodeDomain(d)) == Ok(d)
  {
    var j := EncodeDomain(d);
    DomainKeys(d);
    assert StringList(j.fields, "dependencies") == Ok(d.dependencies) by {
      StringsJsonRoundTrip(d.dependencies);
    }
    assert (if "types" in j.fields then DecodeList(j.fields["types"], DecodeTypeDef) else Ok([])) == Ok(d.typeDefs) by {
      TypeDefsJsonRoundTrip(d.typeDefs);
    }
    assert (if "commands" in j.fields then DecodeList(j.fields["commands"], DecodeMethod) else Ok([])) == Ok(d.commands) by {
      MethodsJsonRoundTrip(d.commands);
    }
    assert (if "events" in j.fields then DecodeList(j.fields["events"], DecodeMethod) else Ok([])) == Ok(d.events) by {
      MethodsJsonRoundTrip(d.events);
    }
    DomainRead(j, d);
  }

  lemma VersionJsonRoundTrip(v: Version)
    ensures DecodeVersion(EncodeVersion(v)) == Ok(v)
  {
  }

  /** Every definition descriptor reads back from what it writes. */
  lemma DefinitionDescriptorJsonRoundTrip(d: DefinitionDescriptor)
    ensures DecodeDefinition(EncodeDefinition(d)) == Ok(d)
  {
    VersionJsonRoundTrip(d.version);
    forall x | x in d.domains
      ensures DecodeDomain(EncodeDomain(x)) == Ok(x)
    {
      DomainJsonRoundTrip(x);
    }
    ListJsonRoundTrip(d.domains, EncodeDomain, DecodeDomain);
  }

  // ---------------------------------------------------------------------------
  // `Definition`'s own `Serialize` and `Deserialize`

  /**
   * `Definition::deserialize`: the descriptor is read, then converted; a
   * conversion error is raised through `de::Error::custom`.
   */
  function DeserializeDefinition(j: Json): (r: Result<Definition, DeError>)
    ensures DecodeDefinition(j).Err? ==> r == Err(DecodeDefinition(j).error)
    ensures DecodeDefinition(j).Ok? ==> match IntoDefinition(DecodeDefinition(j).value)
      case Ok(d) => r == Ok(d)
      case Err(e) => r == Err(Custom(e))
  {
    var desc :- DecodeDefinition(j);
    match IntoDefinition(desc)
    case Ok(d) => Ok(d)
    case Err(e) => Err(Custom(e))
  }

  /** `Definition::serialize`: through the descriptor it converts to. */
  function SerializeDefinition(d: Definition): Json {
    EncodeDefinition(FromDefinition(d))
  }

  /** A protocol definition reads back from the JSON it writes. */
  lemma DefinitionJsonRoundTrip(d: Definition)
    ensures DeserializeDefinition(SerializeDefinition(d)) == Ok(d)
  {
    DefinitionDescriptorJsonRoundTrip(FromDefinition(d));
    DefinitionRoundTrip(d);
  }

  // ---------------------------------------------------------------------------
  // Examples

  /** A command given by its name alone reads with every flag false and every list empty. */
  lemma NameOnlyMethod(name: string)
    ensures DecodeMethod(Obj(map["name" := Str(name)])) == Ok(MethodDescriptor(name, None, false, false, [], [], [], None))
  {
    var j := Obj(map["name" := Str(name)]);
    assert j.fields.Keys == {"name"};
    MethodRead(j, MethodDescriptor(name, None, false, false, [], [], [], None));
  }

  /** A key a record does not declare is refused, and named in the error. */
  lemma UnknownKeyRefused(name: string)
    ensures DecodeField(Obj(map["name" := Str(name), "kind" := Str("x")])) == Err(UnknownFields({"kind"}))
  {
    var fields := map["name" := Str(name), "kind" := Str("x")];
    assert fields.Keys - FIELD_KEYS == {"kind"};
  }
}
