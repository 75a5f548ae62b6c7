/**
 * The protocol schema of src/definition.rs: the `Type` sum a generator works on,
 * the flat descriptor it is read from (the `*Impl` records, where `$ref`, `type`,
 * `enum`, `items`, `minItems`, `maxItems` and `properties` sit side by side), the
 * `into_*` conversions from descriptor to schema and the `From` conversions back.
 */
module Schema {
  import opened Wrappers
  import opened Json
  import Text

  // ---------------------------------------------------------------------------
  // The schema

  datatype Version = Version(major: string, minor: string)

  datatype Type =
    | Reference(target: string)
    | Boolean
    | Integer
    | Number
    | String
    | Enum(values: seq<string>)
    | Array(item: Item, minItems: Option<u64>, maxItems: Option<u64>)
    | Object(fields: seq<Field>)
    | Any

  datatype Item = Item(description: Option<string>, ty: Type)

  datatype Field = Field(
    name: string,
    description: Option<string>,
    experimental: bool,
    deprecated: bool,
    optional: bool,
    ty: Type)

  datatype TypeDef = TypeDef(
    name: string,
    description: Option<string>,
    experimental: bool,
    deprecated: bool,
    ty: Type)

  datatype Method = Method(
    name: string,
    description: Option<string>,
    experimental: bool,
    deprecated: bool,
    handlers: seq<string>,
    parameters: seq<Field>,
    results: seq<Field>,
    redirect: Option<string>)

  datatype Domain = Domain(
    name: string,
    description: Option<string>,
    experimental: bool,
    deprecated: bool,
    dependencies: seq<string>,
    typeDefs: seq<TypeDef>,
    commands: seq<Method>,
    events: seq<Method>)

  datatype Definition = Definition(version: Version, domains: seq<Domain>)

  /** `Display for Version`: "major.minor". */
  function VersionText(v: Version): (s: string)
    ensures |s| == |v.major| + 1 + |v.minor|
    ensures s[|v.major|] == '.'
  {
    v.major + "." + v.minor
  }

  predicate NoDot(s: string) {
    forall i :: 0 <= i < |s| ==> s[i] != '.'
  }

  /** With a dot-free major part, the displayed text determines the version. */
  lemma VersionTextInjective(a: Version, b: Version)
    requires NoDot(a.major) && NoDot(b.major)
    requires VersionText(a) == VersionText(b)
    ensures a == b
  {
    Text.SplitAtMarker(a.major, a.minor, b.major, b.minor, '.');
    Text.DropPrefix(a.major + ".", a.minor, b.minor);
  }

  // ---------------------------------------------------------------------------
  // The descriptors

  /** The values of the "type" key. */
  datatype Primitive =
    | BooleanPrimitive
    | IntegerPrimitive
    | NumberPrimitive
    | StringPrimitive
    | ArrayPrimitive
    | ObjectPrimitive
    | AnyPrimitive

  /** `TypeImpl`: every type key, each optional. */
  datatype Descriptor = Descriptor(
    reference: Option<string>,
    primitive: Option<Primitive>,
    enumValues: Option<seq<string>>,
    item: Option<ItemDescriptor>,
    minItems: Option<u64>,
    maxItems: Option<u64>,
    properties: Properties)

  /** The optional "properties" key (kept as its own type so that recursion into the fields is seen to terminate). */
  datatype Properties = NoProperties | Properties(fields: seq<FieldDescriptor>)

  /** `ItemImpl`. */
  datatype ItemDescriptor = ItemDescriptor(description: Option<string>, ty: Descriptor)

  /** `FieldImpl`. */
  datatype FieldDescriptor = FieldDescriptor(
    name: string,
    description: Option<string>,
    experimental: bool,
    deprecated: bool,
    optional: bool,
    ty: Descriptor)

  /** `TypeDefImpl`. */
  datatype TypeDefDescriptor = TypeDefDescriptor(
    name: string,
    description: Option<string>,
    experimental: bool,
    deprecated: bool,
    ty: Descriptor)

  /** `MethodImpl`. */
  datatype MethodDescriptor = MethodDescriptor(
    name: string,
    description: Option<string>,
    experimental: bool,
    deprecated: bool,
    handlers: seq<string>,
    parameters: seq<FieldDescriptor>,
    results: seq<FieldDescriptor>,
    redirect: Option<string>)

  /** `DomainImpl`. */
  datatype DomainDescriptor = DomainDescriptor(
    name: string,
    description: Option<string>,
    experimental: bool,
    deprecated: bool,
    dependencies: seq<string>,
    typeDefs: seq<TypeDefDescriptor>,
    commands: seq<MethodDescriptor>,
    events: seq<MethodDescriptor>)

  /** `DefinitionImpl`. */
  datatype DefinitionDescriptor = DefinitionDescriptor(version: Version, domains: seq<DomainDescriptor>)

  // ---------------------------------------------------------------------------
  // Descriptor to schema (`into_*`)

  function MissingItemsMessage(name: string): string {
    "'items' key not found in array type descriptor for '" + name + "'"
  }

  function NoTypeMessage(name: string): string {
    "neither 'type' nor '$ref' keys found in type descriptor for '" + name + "'"
  }

  /** The name under which a nested array item reports its errors. */
  const ARRAY_ITEM: string := "array item"

  /** The "type" key a schema type is written with, if any. */
  function PrimitiveOf(t: Type): Option<Primitive> {
    match t
    case Reference(_) => None
    case Boolean => Some(BooleanPrimitive)
    case Integer => Some(IntegerPrimitive)
    case Number => Some(NumberPrimitive)
    case String => Some(StringPrimitive)
    case Enum(_) => Some(StringPrimitive)
    case Array(_, _, _) => Some(ArrayPrimitive)
    case Object(_) => Some(ObjectPrimitive)
    case Any => Some(AnyPrimitive)
  }

  /**
   * `TypeImpl::into_type`: `$ref` wins over every other key; otherwise "type"
   * decides, "string" becoming an enumeration when `enum` is given; an array needs
   * `items`, an object without `properties` has no fields; without either key the
   * descriptor is refused. `name` is the descriptor's name, used in the messages.
   */
  function IntoType(d: Descriptor, name: string): (r: Result<Type, string>)
    ensures d.reference.Some? ==> r == Ok(Reference(d.reference.value))
    ensures d.reference.None? && d.primitive.None? ==> r == Err(NoTypeMessage(name))
    ensures r.Ok? && d.reference.None? ==> PrimitiveOf(r.value) == d.primitive
    ensures d.reference.None? && d.primitive.Some? && d.primitive.value in {BooleanPrimitive, IntegerPrimitive, NumberPrimitive, AnyPrimitive} ==> r.Ok?
    ensures d.reference.None? && d.primitive == Some(StringPrimitive) ==>
      r == Ok(if d.enumValues.Some? then Enum(d.enumValues.value) else String)
    ensures d.reference.None? && d.primitive == Some(ArrayPrimitive) && d.item.None? ==> r == Err(MissingItemsMessage(name))
    ensures d.reference.None? && d.primitive == Some(ArrayPrimitive) && d.item.Some? ==>
      && (r.Ok? <==> IntoItem(d.item.value).Ok?)
      && (r.Ok? ==> r.value == Array(IntoItem(d.item.value).value, d.minItems, d.maxItems))
      && (r.Err? ==> IntoItem(d.item.value) == Err(r.error))
    ensures d.reference.None? && d.primitive == Some(ObjectPrimitive) && d.properties.NoProperties? ==> r == Ok(Object([]))
    ensures d.reference.None? && d.primitive == Some(ObjectPrimitive) && d.properties.Properties? ==>
      && (r.Ok? <==> IntoFields(d.properties.fields).Ok?)
      && (r.Ok? ==> r.value == Object(IntoFields(d.properties.fields).value))
      && (r.Err? ==> IntoFields(d.properties.fields) == Err(r.error))
    decreases d
  {
    if d.reference.Some? then Ok(Reference(d.reference.value))
    else if d.primitive.None? then Err(NoTypeMessage(name))
    else
      match d.primitive.value
      case BooleanPrimitive => Ok(Boolean)
      case IntegerPrimitive => Ok(Integer)
      case NumberPrimitive => Ok(Number)
      case StringPrimitive => if d.enumValues.Some? then Ok(Enum(d.enumValues.value)) else Ok(String)
      case ArrayPrimitive =>
        if d.item.None? then Err(MissingItemsMessage(name))
        else
          var item :- IntoItem(d.item.value);
          Ok(Array(item, d.minItems, d.maxItems))
      case ObjectPrimitive =>
        if d.properties.NoProperties? then Ok(Object([]))
        else
          var fields :- IntoFields(d.properties.fields);
          Ok(Object(fields))
      case AnyPrimitive => Ok(Any)
  }

  /** `ItemImpl::into_item`: errors inside an item are reported for "array item". */
  function IntoItem(i: ItemDescriptor): (r: Result<Item, string>)
    ensures r.Ok? ==> r.value.description == i.description && IntoType(i.ty, ARRAY_ITEM) == Ok(r.value.ty)
    ensures r.Err? ==> IntoType(i.ty, ARRAY_ITEM) == Err(r.error)
    decreases i
  {
    var ty :- IntoType(i.ty, ARRAY_ITEM);
    Ok(Item(i.description, ty))
  }

  /** `FieldImpl::into_field`: the type is converted under the field's own name. */
  function IntoField(f: FieldDescriptor): (r: Result<Field, string>)
    ensures r.Ok? ==> r.value.name == f.name && r.value.optional == f.optional
    ensures r.Ok? ==> IntoType(f.ty, f.name) == Ok(r.value.ty)
    ensures r.Err? ==> IntoType(f.ty, f.name) == Err(r.error)
    decreases f
  {
    var ty :- IntoType(f.ty, f.name);
    Ok(Field(f.name, f.description, f.experimental, f.deprecated, f.optional, ty))
  }

  /** `collect::<Result<_, _>>()` over fields: all converted, or the first error. */
  function IntoFields(fs: seq<FieldDescriptor>): (r: Result<seq<Field>, string>)
    ensures r.Ok? ==> |r.value| == |fs| && forall i :: 0 <= i < |fs| ==> IntoField(fs[i]) == Ok(r.value[i])
    ensures r.Err? ==> exists i :: 0 <= i < |fs| && IntoField(fs[i]) == Err(r.error) && forall j :: 0 <= j < i ==> IntoField(fs[j]).Ok?
    decreases fs
  {
    if fs == [] then Ok([])
    else
      var first :- IntoField(fs[0]);
      var rest :- IntoFields(fs[1..]);
      assert forall i :: 1 <= i < |fs| ==> fs[i] == fs[1..][i - 1];
      Ok([first] + rest)
  }

  /** Every element converts. */
  predicate AllConvert<A, B>(xs: seq<A>, f: A -> Result<B, string>) {
    forall i :: 0 <= i < |xs| ==> f(xs[i]).Ok?
  }

  /** `e` is the error of the first element that does not convert. */
  predicate FirstFailure<A, B>(xs: seq<A>, f: A -> Result<B, string>, e: string) {
    exists i :: 0 <= i < |xs| && f(xs[i]) == Err(e) && forall j :: 0 <= j < i ==> f(xs[j]).Ok?
  }

  /** The same first-error collection for the records that do not nest inside types. */
  function Collect<A, B>(xs: seq<A>, f: A -> Result<B, string>): (r: Result<seq<B>, string>)
    ensures r.Ok? <==> AllConvert(xs, f)
    ensures r.Ok? ==> |r.value| == |xs| && forall i :: 0 <= i < |xs| ==> f(xs[i]) == Ok(r.value[i])
    ensures r.Err? ==> FirstFailure(xs, f, r.error)
  {
    if xs == [] then Ok([])
    else
      var first :- f(xs[0]);
      var rest :- Collect(xs[1..], f);
      assert forall i :: 1 <= i < |xs| ==> xs[i] == xs[1..][i - 1];
      Ok([first] + rest)
  }

  /** `TypeDefImpl::into_type_def`. */
  function IntoTypeDef(t: TypeDefDescriptor): (r: Result<TypeDef, string>)
    ensures r.Ok? <==> IntoType(t.ty, t.name).Ok?
    ensures r.Ok? ==> r.value == TypeDef(t.name, t.description, t.experimental, t.deprecated, IntoType(t.ty, t.name).value)
    ensures r.Err? ==> IntoType(t.ty, t.name) == Err(r.error)
  {
    var ty :- IntoType(t.ty, t.name);
    Ok(TypeDef(t.name, t.description, t.experimental, t.deprecated, ty))
  }

  /** `MethodImpl::into_method`: parameters first, then returns; every other key is kept. */
  function IntoMethod(m: MethodDescriptor): (r: Result<Method, string>)
    ensures r.Ok? <==> IntoFields(m.parameters).Ok? && IntoFields(m.results).Ok?
    ensures r.Ok? ==>
      && (r.value.name, r.value.description, r.value.experimental, r.value.deprecated) == (m.name, m.description, m.experimental, m.deprecated)
      && r.value.handlers == m.handlers && r.value.redirect == m.redirect
      && |r.value.parameters| == |m.parameters| && |r.value.results| == |m.results|
      && (forall i :: 0 <= i < |m.parameters| ==> IntoField(m.parameters[i]) == Ok(r.value.parameters[i]))
      && (forall i :: 0 <= i < |m.results| ==> IntoField(m.results[i]) == Ok(r.value.results[i]))
    ensures r.Err? && IntoFields(m.parameters).Err? ==> IntoFields(m.parameters) == Err(r.error)
    ensures r.Err? && IntoFields(m.parameters).Ok? ==> IntoFields(m.results) == Err(r.error)
  {
    var parameters :- IntoFields(m.parameters);
    var results :- IntoFields(m.results);
    Ok(Method(m.name, m.description, m.experimental, m.deprecated, m.handlers, parameters, results, m.redirect))
  }

  /** `DomainImpl::into_domain`: type definitions, then commands, then events; every other key is kept. */
  function IntoDomain(d: DomainDescriptor): (r: Result<Domain, string>)
    ensures r.Ok? <==> AllConvert(d.typeDefs, IntoTypeDef) && AllConvert(d.commands, IntoMethod) && AllConvert(d.events, IntoMethod)
    ensures r.Ok? ==>
      && (r.value.name, r.value.description, r.value.experimental, r.value.deprecated) == (d.name, d.description, d.experimental, d.deprecated)
      && r.value.dependencies == d.dependencies
      && |r.value.typeDefs| == |d.typeDefs| && |r.value.commands| == |d.commands| && |r.value.events| == |d.events|
      && (forall i :: 0 <= i < |d.typeDefs| ==> IntoTypeDef(d.typeDefs[i]) == Ok(r.value.typeDefs[i]))
      && (forall i :: 0 <= i < |d.commands| ==> IntoMethod(d.commands[i]) == Ok(r.value.commands[i]))
      && (forall i :: 0 <= i < |d.events| ==> IntoMethod(d.events[i]) == Ok(r.value.events[i]))
    ensures r.Err? ==>
      || FirstFailure(d.typeDefs, IntoTypeDef, r.error)
      || (AllConvert(d.typeDefs, IntoTypeDef) && FirstFailure(d.commands, IntoMethod, r.error))
      || (AllConvert(d.typeDefs, IntoTypeDef) && AllConvert(d.commands, IntoMethod) && FirstFailure(d.events, IntoMethod, r.error))
  {
    var typeDefs :- Collect(d.typeDefs, IntoTypeDef);
    var commands :- Collect(d.commands, IntoMethod);
    var events :- Collect(d.events, IntoMethod);
    Ok(Domain(d.name, d.description, d.experimental, d.deprecated, d.dependencies, typeDefs, commands, events))
  }

  /** `DefinitionImpl::into_definition`. */
  function IntoDefinition(d: DefinitionDescriptor): (r: Result<Definition, string>)
    ensures r.Ok? <==> AllConvert(d.domains, IntoDomain)
    ensures r.Ok? ==> r.value.version == d.version && |r.value.domains| == |d.domains|
    ensures r.Ok? ==> forall i :: 0 <= i < |d.domains| ==> IntoDomain(d.domains[i]) == Ok(r.value.domains[i])
    ensures r.Err? ==> FirstFailure(d.domains, IntoDomain, r.error)
  {
    var domains :- Collect(d.domains, IntoDomain);
    Ok(Definition(d.version, domains))
  }

  // ---------------------------------------------------------------------------
  // Schema to descriptor (`From<&T> for TImpl`)

  const NO_KEYS: Descriptor := Descriptor(None, None, None, None, None, None, NoProperties)

  /** `From<&Type> for TypeImpl`: each type sets "type" (or `$ref`) and only its own keys. */
  function FromType(t: Type): (d: Descriptor)
    ensures d.primitive == PrimitiveOf(t)
    ensures d.reference.Some? <==> t.Reference?
    decreases t
  {
    match t
    case Reference(target) => NO_KEYS.(reference := Some(target))
    case Enum(values) => NO_KEYS.(primitive := Some(StringPrimitive), enumValues := Some(values))
    case Array(item, minItems, maxItems) =>
      NO_KEYS.(primitive := Some(ArrayPrimitive), item := Some(FromItem(item)), minItems := minItems, maxItems := maxItems)
    case Object(fields) => NO_KEYS.(primitive := Some(ObjectPrimitive), properties := Properties(FromFields(fields)))
    case _ => NO_KEYS.(primitive := PrimitiveOf(t))
  }

  function FromItem(i: Item): ItemDescriptor
    decreases i
  {
    ItemDescriptor(i.description, FromType(i.ty))
  }

  function FromField(f: Field): FieldDescriptor
    decreases f
  {
    FieldDescriptor(f.name, f.description, f.experimental, f.deprecated, f.optional, FromType(f.ty))
  }

  function FromFields(fs: seq<Field>): (r: seq<FieldDescriptor>)
    ensures |r| == |fs|
    decreases fs
  {
    if fs == [] then [] else [FromField(fs[0])] + FromFields(fs[1..])
  }

  function FromTypeDef(t: TypeDef): TypeDefDescriptor {
    TypeDefDescriptor(t.name, t.description, t.experimental, t.deprecated, FromType(t.ty))
  }

  function FromMethod(m: Method): MethodDescriptor {
    MethodDescriptor(m.name, m.description, m.experimental, m.deprecated, m.handlers,
      FromFields(m.parameters), FromFields(m.results), m.redirect)
  }

  function MapSeq<A, B>(xs: seq<A>, f: A -> B): (r: seq<B>)
    ensures |r| == |xs| && forall i :: 0 <= i < |xs| ==> r[i] == f(xs[i])
  {
    if xs == [] then [] else [f(xs[0])] + MapSeq(xs[1..], f)
  }

  function FromDomain(d: Domain): DomainDescriptor {
    DomainDescriptor(d.name, d.description, d.experimental, d.deprecated, d.dependencies,
      MapSeq(d.typeDefs, FromTypeDef), MapSeq(d.commands, FromMethod), MapSeq(d.events, FromMethod))
  }

  function FromDefinition(d: Definition): DefinitionDescriptor {
    DefinitionDescriptor(d.version, MapSeq(d.domains, FromDomain))
  }

  // ---------------------------------------------------------------------------
  // Round trips: `From` is a right inverse of `into_*`

  /** Every schema type survives the trip through its descriptor, whatever name it is read under. */
  lemma {:induction false} TypeRoundTrip(t: Type, name: string)
    ensures IntoType(FromType(t), name) == Ok(t)
    decreases t
  {
    match t
    case Array(item, _, _) =>
      ItemRoundTrip(item);
    case Object(fields) =>
      FieldsRoundTrip(fields);
    case _ =>
  }

  lemma {:induction false} ItemRoundTrip(i: Item)
    ensures IntoItem(FromItem(i)) == Ok(i)
    decreases i
  {
    TypeRoundTrip(i.ty, ARRAY_ITEM);
  }

  lemma {:induction false} FieldsRoundTrip(fs: seq<Field>)
    ensures IntoFields(FromFields(fs)) == Ok(fs)
    decreases fs
  {
    if fs != [] {
      TypeRoundTrip(fs[0].ty, fs[0].name);
      FieldsRoundTrip(fs[1..]);
      assert FromFields(fs) == [FromField(fs[0])] + FromFields(fs[1..]);
      assert FromFields(fs)[1..] == FromFields(fs[1..]);
      assert [fs[0]] + fs[1..] == fs;
    }
  }

  lemma {:induction false} CollectRoundTrip<A, B>(xs: seq<A>, from: A -> B, into: B -> Result<A, string>)
    requires forall x :: x in xs ==> into(from(x)) == Ok(x)
    ensures Collect(MapSeq(xs, from), into) == Ok(xs)
  {
    if xs != [] {
      assert xs[0] in xs;
      assert forall x :: x in xs[1..] ==> x in xs;
      CollectRoundTrip(xs[1..], from, into);
      assert MapSeq(xs, from)[1..] == MapSeq(xs[1..], from);
      assert [xs[0]] + xs[1..] == xs;
    }
  }

  lemma MethodRoundTrip(m: Method)
    ensures IntoMethod(FromMethod(m)) == Ok(m)
  {
    FieldsRoundTrip(m.parameters);
    FieldsRoundTrip(m.results);
  }

  lemma DomainRoundTrip(d: Domain)
    ensures IntoDomain(FromDomain(d)) == Ok(d)
  {
    forall t | t in d.typeDefs
      ensures IntoTypeDef(FromTypeDef(t)) == Ok(t)
    {
      TypeRoundTrip(t.ty, t.name);
    }
    forall m | m in d.commands + d.events
      ensures IntoMethod(FromMethod(m)) == Ok(m)
    {
      MethodRoundTrip(m);
    }
    CollectRoundTrip(d.typeDefs, FromTypeDef, IntoTypeDef);
    CollectRoundTrip(d.commands, FromMethod, IntoMethod);
    CollectRoundTrip(d.events, FromMethod, IntoMethod);
  }

  /** A whole protocol definition survives the trip through its descriptor. */
  lemma DefinitionRoundTrip(d: Definition)
    ensures IntoDefinition(FromDefinition(d)) == Ok(d)
  {
    forall x | x in d.domains
      ensures IntoDomain(FromDomain(x)) == Ok(x)
    {
      DomainRoundTrip(x);
    }
    CollectRoundTrip(d.domains, FromDomain, IntoDomain);
  }

  // ---------------------------------------------------------------------------
  // Which keys are read

  /** The descriptor with only the keys its "type" consults (all of them under `$ref` are dropped). */
  function Consulted(d: Descriptor): Descriptor {
    if d.reference.Some? then NO_KEYS.(reference := d.reference)
    else if d.primitive.None? then NO_KEYS
    else
      match d.primitive.value
      case StringPrimitive => NO_KEYS.(primitive := d.primitive, enumValues := d.enumValues)
      case ArrayPrimitive => NO_KEYS.(primitive := d.primitive, item := d.item, minItems := d.minItems, maxItems := d.maxItems)
      case ObjectPrimitive => NO_KEYS.(primitive := d.primitive, properties := d.properties)
      case _ => NO_KEYS.(primitive := d.primitive)
  }

  /** Keys a descriptor's "type" does not use (an `enum` on an integer, `items` on a string) are ignored. */
  lemma OtherKeysIgnored(d: Descriptor, name: string)
    ensures IntoType(d, name) == IntoType(Consulted(d), name)
  {
  }

  /** An array whose items are an array without `items` is refused under the name "array item". */
  lemma NestedMissingItems(name: string, description: Option<string>)
    ensures var inner := NO_KEYS.(primitive := Some(ArrayPrimitive));
      IntoType(NO_KEYS.(primitive := Some(ArrayPrimitive), item := Some(ItemDescriptor(description, inner))), name)
        == Err(MissingItemsMessage(ARRAY_ITEM))
  {
  }

  /** A field's descriptor error is reported under the field's name and stops the object's conversion. */
  lemma FieldErrorNamesField(name: string, f: FieldDescriptor, rest: seq<FieldDescriptor>)
    requires f.ty.reference.None? && f.ty.primitive.None?
    ensures IntoType(NO_KEYS.(primitive := Some(ObjectPrimitive), properties := Properties([f] + rest)), name)
      == Err(NoTypeMessage(f.name))
  {
    assert ([f] + rest)[0] == f;
  }
}
