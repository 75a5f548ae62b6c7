/**
 * The decisions of the code generator in cdp/src/generate.rs: which Rust type
 * each schema type becomes, which declarations it adds to a domain module, when
 * a declaration carries the `'a` lifetime, and what each method of the protocol
 * turns into.
 *
 * Emitted code is modelled by its shape (`TypeExpr`, `Decl`), not by its text.
 * The generator's `type_defs` vector is the `TypeDefs` class; every `generate_*`
 * function that pushes into it is a method, specified by a function that lists
 * what it pushes.
 */
module Generator {
  import opened Wrappers
  import opened Json
  import opened Schema
  import Naming
  import Deprecation

  // ---------------------------------------------------------------------------
  // Shapes

  /** A Rust type expression. `lifetime` says whether a named type is written with `<'a>`. */
  datatype TypeExpr =
    | Named(path: string, lifetime: bool)
    | Boxed(path: string, lifetime: bool)
    | Bool
    | I32
    | F64
    | CowStr
    | JsonValue
    | SharedEmpty
    | FixedArray(item: TypeExpr, len: u64)
    | Vec(item: TypeExpr)
    | OptionOf(inner: TypeExpr)

  /** What `generate_meta_attrs` is given: the doc string and `#[deprecated]` attribute follow from it. */
  datatype Meta = Meta(status: Deprecation.Status, experimental: bool, description: Option<string>)

  datatype FieldDecl = FieldDecl(jsonName: string, rustName: string, ty: TypeExpr, optional: bool, meta: Meta)

  datatype MethodKind = Command | Event

  /** `Display for MethodKind`. */
  function KindName(kind: MethodKind): string {
    match kind
    case Command => "Command"
    case Event => "Event"
  }

  /** One item pushed onto a domain module's `type_defs`. */
  datatype Decl =
    | EnumDecl(name: string, values: seq<string>, variants: seq<string>, meta: Meta)
    | StructDecl(name: string, lifetime: bool, fields: seq<FieldDecl>, meta: Meta)
    | UnitStruct(name: string, meta: Meta)
    | TypeAlias(name: string, lifetime: bool, expr: TypeExpr, meta: Meta)
    | KindImpl(structName: string, lifetime: bool, kind: MethodKind, qualified: string)
    | SerializeImpl(request: string, lifetime: bool, kind: MethodKind, qualified: string)
    | DeserializeImpl(request: string, lifetime: bool, kind: MethodKind, qualified: string)
    | HasResponseImpl(request: string, requestLifetime: bool, response: string, responseLifetime: bool)
    | HasRequestImpl(response: string, responseLifetime: bool, request: string, requestLifetime: bool, kind: MethodKind)

  /** The domain being generated and the result of `generate_uses_lifetime_set`. */
  datatype Ctx = Ctx(inf: Naming.Inflector, domainSnakeCase: string, usesLifetimeSet: set<string>)

  /** What `generate_type_expr_impl` returns, with what it pushed. */
  datatype Emitted = Emitted(expr: Option<TypeExpr>, lifetime: bool, decls: seq<Decl>)

  /** What `generate_type_expr` returns, with what it pushed. */
  datatype Typed = Typed(expr: TypeExpr, lifetime: bool, decls: seq<Decl>)

  datatype FieldEmitted = FieldEmitted(field: FieldDecl, lifetime: bool, decls: seq<Decl>)

  datatype FieldsEmitted = FieldsEmitted(fields: seq<FieldDecl>, lifetime: bool, decls: seq<Decl>)

  // ---------------------------------------------------------------------------
  // Which types carry the lifetime

  /**
   * Whether the Rust type of `ty` needs `'a`: a string does, a reference does when
   * its target is in the lifetime set, an array when its item does and an inline
   * object when one of its fields does.
   */
  predicate UsesLifetime(c: Ctx, ty: Type)
    decreases ty
  {
    match ty
    case Reference(target) => Naming.ResolveReference(c.inf, c.domainSnakeCase, target) in c.usesLifetimeSet
    case String => true
    case Array(item, _, _) => UsesLifetime(c, item.ty)
    case Object(fields) => exists i :: 0 <= i < |fields| && UsesLifetime(c, fields[i].ty)
    case _ => false
  }

  // ---------------------------------------------------------------------------
  // Type expressions, as a specification

  /** The name of a type declared for a field: `combine_parent_field_idents`. */
  function DeclName(c: Ctx, parent: string, fieldName: Option<string>): string {
    Naming.CombineParentFieldIdents(c.inf, parent, fieldName)
  }

  /** The enum declared for a list of values: one variant per value, in order. */
  function EnumOf(c: Ctx, name: string, values: seq<string>, meta: Meta): (d: Decl)
    ensures d.EnumDecl? && d.values == values && |d.variants| == |values|
    ensures forall i :: 0 <= i < |values| ==> d.variants[i] == Naming.PascalCase(c.inf, values[i])
  {
    EnumDecl(name, values, seq(|values|, i requires 0 <= i < |values| => Naming.PascalCase(c.inf, values[i])), meta)
  }

  /** `d` declares the type `name` (an enum or a struct) with attributes from `meta`. */
  predicate DeclaresType(d: Decl, name: string, meta: Meta) {
    (d.EnumDecl? || d.StructDecl?) && d.name == name && d.meta == meta
  }

  /** `generate_type_expr_impl`. */
  function TypeExprImplOf(c: Ctx, parent: string, fieldName: Option<string>, meta: Meta, ty: Type): (r: Emitted)
    ensures r.lifetime == UsesLifetime(c, ty)
    ensures r.expr.None? ==> |r.decls| > 0 && DeclaresType(r.decls[|r.decls| - 1], DeclName(c, parent, fieldName), meta)
    decreases ty, 1
  {
    match ty
    case Reference(target) =>
      var path := Naming.ResolveReference(c.inf, c.domainSnakeCase, target);
      var lifetime := path in c.usesLifetimeSet;
      var expr := if Naming.PascalCase(c.inf, target) == parent then Boxed(path, lifetime) else Named(path, lifetime);
      Emitted(Some(expr), lifetime, [])
    case Boolean => Emitted(Some(TypeExpr.Bool), false, [])
    case Integer => Emitted(Some(I32), false, [])
    case Number => Emitted(Some(F64), false, [])
    case String => Emitted(Some(CowStr), true, [])
    case Enum(values) =>
      Emitted(None, false, [EnumOf(c, DeclName(c, parent, fieldName), values, meta)])
    case Array(item, minItems, maxItems) =>
      var inner := TypeExprOf(c, parent, fieldName, meta.status, meta.experimental, item.ty);
      var expr :=
        if minItems.Some? && maxItems.Some? && minItems.value == maxItems.value then FixedArray(inner.expr, maxItems.value)
        else Vec(inner.expr);
      Emitted(Some(expr), inner.lifetime, inner.decls)
    case Object(fields) =>
      if |fields| == 0 then Emitted(Some(SharedEmpty), false, [])
      else
        var name := DeclName(c, parent, fieldName);
        var fs := FieldsOf(c, name, meta.status, meta.experimental, fields);
        Emitted(None, fs.lifetime, fs.decls + [StructDecl(name, fs.lifetime, fs.fields, meta)])
    case Any => Emitted(Some(JsonValue), false, [])
  }

  /** `generate_type_expr`: a type declared on the way is named by its fully qualified path. */
  function TypeExprOf(c: Ctx, parent: string, fieldName: Option<string>, status: Deprecation.Status, experimental: bool, ty: Type): (r: Typed)
    ensures r.lifetime == UsesLifetime(c, ty)
    decreases ty, 2
  {
    var e := TypeExprImplOf(c, parent, fieldName, Meta(status, experimental, None), ty);
    match e.expr
    case Some(expr) => Typed(expr, e.lifetime, e.decls)
    case None =>
      Typed(Named(Naming.FullyQualified(c.domainSnakeCase, DeclName(c, parent, fieldName)), e.lifetime), e.lifetime, e.decls)
  }

  /** `generate_field`: a field keeps its own deprecation status; the types declared for it take the parent's. */
  function FieldOf(c: Ctx, parent: string, parentStatus: Deprecation.Status, parentExperimental: bool, f: Field): (r: FieldEmitted)
    ensures r.lifetime == UsesLifetime(c, f.ty)
    ensures r.field.meta == Meta(Deprecation.New(f.deprecated, f.description), f.experimental, f.description)
    ensures r.field.optional == f.optional && r.field.jsonName == f.name
    ensures r.field.rustName == Naming.SnakeCase(c.inf, f.name)
    decreases f, 0
  {
    var t := TypeExprOf(c, parent, Some(f.name), parentStatus, parentExperimental, f.ty);
    var ty := if f.optional then OptionOf(t.expr) else t.expr;
    var meta := Meta(Deprecation.New(f.deprecated, f.description), f.experimental, f.description);
    FieldEmitted(FieldDecl(f.name, Naming.SnakeCase(c.inf, f.name), ty, f.optional, meta), t.lifetime, t.decls)
  }

  /** The fields of a struct, in order: the struct needs `'a` when one of its fields does. */
  function FieldsOf(c: Ctx, parent: string, status: Deprecation.Status, experimental: bool, fields: seq<Field>): (r: FieldsEmitted)
    ensures |r.fields| == |fields|
    ensures r.lifetime <==> exists i :: 0 <= i < |fields| && UsesLifetime(c, fields[i].ty)
    decreases fields, 0
  {
    if |fields| == 0 then FieldsEmitted([], false, [])
    else
      var front := FieldsOf(c, parent, status, experimental, fields[..|fields| - 1]);
      var last := FieldOf(c, parent, status, experimental, fields[|fields| - 1]);
      assert forall i :: 0 <= i < |fields| - 1 ==> fields[..|fields| - 1][i] == fields[i];
      FieldsEmitted(front.fields + [last.field], front.lifetime || last.lifetime, front.decls + last.decls)
  }

  // ---------------------------------------------------------------------------
  // What the type mapping promises

  /** A reference is boxed exactly when it names its enclosing type, and carries `'a` exactly when its target is in the set. */
  lemma ReferenceShape(c: Ctx, parent: string, fieldName: Option<string>, meta: Meta, target: string)
    ensures var r := TypeExprImplOf(c, parent, fieldName, meta, Reference(target));
      var path := Naming.ResolveReference(c.inf, c.domainSnakeCase, target);
      && r.expr.Some? && r.decls == []
      && (r.expr.value.Boxed? <==> Naming.PascalCase(c.inf, target) == parent)
      && (r.expr.value.Boxed? || r.expr.value.Named?)
      && r.expr.value.path == path
      && (r.expr.value.lifetime <==> path in c.usesLifetimeSet)
  {
  }

  /** Booleans, integers, numbers and `any` map to fixed types without the lifetime; strings to a borrowed string with it. */
  lemma ScalarShapes(c: Ctx, parent: string, fieldName: Option<string>, meta: Meta)
    ensures TypeExprImplOf(c, parent, fieldName, meta, Boolean) == Emitted(Some(TypeExpr.Bool), false, [])
    ensures TypeExprImplOf(c, parent, fieldName, meta, Integer) == Emitted(Some(I32), false, [])
    ensures TypeExprImplOf(c, parent, fieldName, meta, Number) == Emitted(Some(F64), false, [])
    ensures TypeExprImplOf(c, parent, fieldName, meta, Any) == Emitted(Some(JsonValue), false, [])
    ensures TypeExprImplOf(c, parent, fieldName, meta, String) == Emitted(Some(CowStr), true, [])
  {
  }

  /** An array is fixed-size exactly when both bounds are given and equal, with that length; its lifetime is its item's. */
  lemma ArrayShape(c: Ctx, parent: string, fieldName: Option<string>, meta: Meta, item: Item, minItems: Option<u64>, maxItems: Option<u64>)
    ensures var r := TypeExprImplOf(c, parent, fieldName, meta, Array(item, minItems, maxItems));
      && r.expr.Some?
      && (r.expr.value.FixedArray? <==> minItems.Some? && maxItems.Some? && minItems.value == maxItems.value)
      && (r.expr.value.FixedArray? ==> r.expr.value.len == maxItems.value)
      && (r.expr.value.FixedArray? || r.expr.value.Vec?)
      && r.expr.value.item == TypeExprOf(c, parent, fieldName, meta.status, meta.experimental, item.ty).expr
      && r.lifetime == UsesLifetime(c, item.ty)
  {
  }

  /** An object without properties is the shared `Empty` and declares nothing; any other object declares one struct, last. */
  lemma ObjectShape(c: Ctx, parent: string, fieldName: Option<string>, meta: Meta, fields: seq<Field>)
    ensures var r := TypeExprImplOf(c, parent, fieldName, meta, Object(fields));
      && (|fields| == 0 ==> r == Emitted(Some(SharedEmpty), false, []))
      && (|fields| > 0 ==>
        && r.expr.None?
        && var last := r.decls[|r.decls| - 1];
        && last.StructDecl? && last.name == DeclName(c, parent, fieldName)
        && |last.fields| == |fields|
        && (last.lifetime <==> exists i :: 0 <= i < |fields| && UsesLifetime(c, fields[i].ty)))
  {
  }

  /** An enum declares one enum type, named after parent and field, whose string values are the schema's, in order. */
  lemma EnumShape(c: Ctx, parent: string, fieldName: Option<string>, meta: Meta, values: seq<string>)
    ensures var r := TypeExprImplOf(c, parent, fieldName, meta, Enum(values));
      && r.expr.None? && !r.lifetime && |r.decls| == 1
      && r.decls[0].EnumDecl? && r.decls[0].name == DeclName(c, parent, fieldName) && r.decls[0].values == values
  {
  }

  /** An optional field is wrapped in `Option`, any other field is not. */
  lemma OptionalFieldShape(c: Ctx, parent: string, status: Deprecation.Status, experimental: bool, f: Field)
    ensures var r := FieldOf(c, parent, status, experimental, f);
      var t := TypeExprOf(c, parent, Some(f.name), status, experimental, f.ty);
      r.field.ty == (if f.optional then OptionOf(t.expr) else t.expr)
  {
  }

  // ---------------------------------------------------------------------------
  // The tables of a generated enum

  /** `ParseEnumError`: the accepted values and the rejected text. */
  datatype ParseEnumError = ParseEnumError(expected: seq<string>, actual: string)

  /** The generated `from_str`: the arms are tried in order; no arm matching gives `ParseEnumError`. */
  function EnumFromStr(values: seq<string>, s: string): (r: Result<nat, ParseEnumError>)
    ensures r.Ok? ==> r.value < |values| && values[r.value] == s
    ensures r.Ok? ==> forall j :: 0 <= j < r.value ==> values[j] != s
    ensures r.Err? <==> s !in values
    ensures r.Err? ==> r.error == ParseEnumError(values, s)
  {
    ArmsFrom(values, 0, s)
  }

  function ArmsFrom(values: seq<string>, k: nat, s: string): (r: Result<nat, ParseEnumError>)
    requires k <= |values|
    requires forall j :: 0 <= j < k ==> values[j] != s
    ensures r.Ok? ==> k <= r.value < |values| && values[r.value] == s
    ensures r.Ok? ==> forall j :: 0 <= j < r.value ==> values[j] != s
    ensures r.Err? <==> s !in values
    ensures r.Err? ==> r.error == ParseEnumError(values, s)
    decreases |values| - k
  {
    if k == |values| then Err(ParseEnumError(values, s))
    else if values[k] == s then Ok(k)
    else ArmsFrom(values, k + 1, s)
  }

  /** The generated `Display`: the variant's value. */
  function EnumDisplay(values: seq<string>, variant: nat): string
    requires variant < |values|
  {
    values[variant]
  }

  /** Parsing then displaying gives back the text. */
  lemma EnumDisplayFromStr(values: seq<string>, s: string)
    requires s in values
    ensures EnumFromStr(values, s).Ok? && EnumDisplay(values, EnumFromStr(values, s).value) == s
  {
  }

  /** With distinct values, displaying then parsing gives back the variant. */
  lemma EnumFromStrDisplay(values: seq<string>, variant: nat)
    requires variant < |values|
    requires forall i, j :: 0 <= i < j < |values| ==> values[i] != values[j]
    ensures EnumFromStr(values, EnumDisplay(values, variant)) == Ok(variant)
  {
  }

  // ---------------------------------------------------------------------------
  // Methods, type definitions and domains, as a specification

  /** The request struct of a method: `{Method}Command` or `{Method}Event`. */
  function RequestName(inf: Naming.Inflector, kind: MethodKind, m: Method): string {
    Naming.PascalCase(inf, m.name) + KindName(kind)
  }

  /** The response struct, `{Method}Response`, which only commands have. */
  function ResponseName(inf: Naming.Inflector, kind: MethodKind, m: Method): (r: Option<string>)
    ensures r.Some? <==> kind == Command
  {
    if kind == Command then Some(Naming.PascalCase(inf, m.name) + "Response") else None
  }

  /** "Domain.method". */
  function Qualified(domainName: string, m: Method): string {
    domainName + "." + m.name
  }

  /** `generate_method_struct`: a unit struct standing for `Empty` when there are no fields, else a struct of them. */
  function MethodStructOf(c: Ctx, name: string, meta: Meta, kind: MethodKind, qualified: string, fields: seq<Field>): (r: Emitted)
    ensures r.lifetime <==> exists i :: 0 <= i < |fields| && UsesLifetime(c, fields[i].ty)
    ensures |fields| == 0 ==> r.decls == [UnitStruct(name, meta), KindImpl(name, false, kind, qualified)]
  {
    if |fields| == 0 then Emitted(None, false, [UnitStruct(name, meta), KindImpl(name, false, kind, qualified)])
    else
      var fs := FieldsOf(c, name, meta.status, meta.experimental, fields);
      Emitted(None, fs.lifetime, fs.decls + [StructDecl(name, fs.lifetime, fs.fields, meta), KindImpl(name, fs.lifetime, kind, qualified)])
  }

  /** The status of a method or type definition: its own, with the domain as parent. */
  function InheritedStatus(deprecated: bool, description: Option<string>, domainStatus: Deprecation.Status): Deprecation.Status {
    Deprecation.AddParent(Deprecation.New(deprecated, description), domainStatus)
  }

  /** `generate_method`. */
  /** The attributes of a method's structs: its own or its domain's deprecation and experimental flag. */
  function MethodMeta(domain: Domain, domainStatus: Deprecation.Status, m: Method): Meta {
    Meta(InheritedStatus(m.deprecated, m.description, domainStatus), domain.experimental || m.experimental, m.description)
  }

  /** The request struct of a method, its `SerializeCdp…` impl and its `DeserializeCdp…` impl. */
  function RequestDecls(c: Ctx, domain: Domain, domainStatus: Deprecation.Status, kind: MethodKind, m: Method): seq<Decl> {
    var qualified := Qualified(domain.name, m);
    var request := RequestName(c.inf, kind, m);
    var req := MethodStructOf(c, request, MethodMeta(domain, domainStatus, m), kind, qualified, m.parameters);
    req.decls + [SerializeImpl(request, req.lifetime, kind, qualified), DeserializeImpl(request, req.lifetime, kind, qualified)]
  }

  /** For a command, the response struct and the `HasCdpResponse`/`HasCdpCommand` links; nothing for an event. */
  function ResponseDecls(c: Ctx, domain: Domain, domainStatus: Deprecation.Status, kind: MethodKind, m: Method): seq<Decl> {
    match ResponseName(c.inf, kind, m)
    case None => []
    case Some(response) =>
      var qualified := Qualified(domain.name, m);
      var request := RequestName(c.inf, kind, m);
      var requestLifetime := UsesLifetimeAnyField(c, m.parameters);
      var resp := MethodStructOf(c, response, MethodMeta(domain, domainStatus, m), kind, qualified, m.results);
      resp.decls + [HasResponseImpl(request, requestLifetime, response, resp.lifetime), HasRequestImpl(response, resp.lifetime, request, requestLifetime, kind)]
  }

  /** `generate_method`. */
  function MethodDecls(c: Ctx, domain: Domain, domainStatus: Deprecation.Status, kind: MethodKind, m: Method): seq<Decl> {
    RequestDecls(c, domain, domainStatus, kind, m) + ResponseDecls(c, domain, domainStatus, kind, m)
  }

  /** The generated `deserialize_command`/`deserialize_event`: it claims the input exactly when the name is "Domain.method". */
  function Claims(d: Decl, name: string): bool
    requires d.DeserializeImpl?
  {
    name == d.qualified
  }

  /** The attributes of a type definition: its own description, its own or its domain's deprecation and experimental flag. */
  function TypeDefMeta(domain: Domain, domainStatus: Deprecation.Status, t: TypeDef): Meta {
    Meta(InheritedStatus(t.deprecated, t.description, domainStatus), domain.experimental || t.experimental, t.description)
  }

  /** `generate_type_def`: an alias is declared unless the type declared itself (an enum or non-empty object). */
  function TypeDefDecls(c: Ctx, domain: Domain, domainStatus: Deprecation.Status, t: TypeDef): seq<Decl> {
    var name := Naming.PascalCase(c.inf, t.name);
    var meta := TypeDefMeta(domain, domainStatus, t);
    var e := TypeExprImplOf(c, name, None, meta, t.ty);
    match e.expr
    case None => e.decls
    case Some(expr) => e.decls + [TypeAlias(name, e.lifetime, expr, meta)]
  }

  function MethodsDecls(c: Ctx, domain: Domain, domainStatus: Deprecation.Status, kind: MethodKind, methods: seq<Method>): seq<Decl> {
    if |methods| == 0 then []
    else MethodsDecls(c, domain, domainStatus, kind, methods[..|methods| - 1]) + MethodDecls(c, domain, domainStatus, kind, methods[|methods| - 1])
  }

  function TypeDefsDecls(c: Ctx, domain: Domain, domainStatus: Deprecation.Status, typeDefs: seq<TypeDef>): seq<Decl> {
    if |typeDefs| == 0 then []
    else TypeDefsDecls(c, domain, domainStatus, typeDefs[..|typeDefs| - 1]) + TypeDefDecls(c, domain, domainStatus, typeDefs[|typeDefs| - 1])
  }

  /** A domain becomes one module: the declarations of its commands, events and types, in that order. */
  datatype ModuleDecl = ModuleDecl(name: string, meta: Meta, typeDefs: seq<Decl>)

  function DomainStatus(d: Domain): Deprecation.Status {
    Deprecation.New(d.deprecated, d.description)
  }

  /** `generate_domain`. */
  function DomainOf(inf: Naming.Inflector, usesLifetimeSet: set<string>, d: Domain): ModuleDecl {
    var c := Ctx(inf, Naming.SnakeCase(inf, d.name), usesLifetimeSet);
    var status := DomainStatus(d);
    ModuleDecl(c.domainSnakeCase, Meta(status, d.experimental, d.description),
      MethodsDecls(c, d, status, Command, d.commands) + MethodsDecls(c, d, status, Event, d.events) + TypeDefsDecls(c, d, status, d.typeDefs))
  }

  // ---------------------------------------------------------------------------
  // What methods and type definitions promise

  /** A command has a `…Response` struct and an event has none; the request is `{Method}Command` or `{Method}Event`. */
  lemma MethodNames(inf: Naming.Inflector, m: Method)
    ensures RequestName(inf, Command, m) == Naming.PascalCase(inf, m.name) + "Command"
    ensures RequestName(inf, Event, m) == Naming.PascalCase(inf, m.name) + "Event"
    ensures ResponseName(inf, Command, m) == Some(Naming.PascalCase(inf, m.name) + "Response")
    ensures ResponseName(inf, Event, m) == None
  {
  }

  /** The request's deserializer claims a name exactly when it is the method's qualified name; otherwise the params go back. */
  lemma DeserializerClaimsOwnName(c: Ctx, domain: Domain, status: Deprecation.Status, kind: MethodKind, m: Method, name: string)
    ensures DeserializeImpl(RequestName(c.inf, kind, m), UsesLifetimeAnyField(c, m.parameters), kind, Qualified(domain.name, m))
      in MethodDecls(c, domain, status, kind, m)
    ensures Claims(DeserializeImpl(RequestName(c.inf, kind, m), UsesLifetimeAnyField(c, m.parameters), kind, Qualified(domain.name, m)), name)
      <==> name == domain.name + "." + m.name
  {
    var qualified := Qualified(domain.name, m);
    var request := RequestName(c.inf, kind, m);
    var meta := Meta(InheritedStatus(m.deprecated, m.description, status), domain.experimental || m.experimental, m.description);
    var req := MethodStructOf(c, request, meta, kind, qualified, m.parameters);
    var ds := MethodDecls(c, domain, status, kind, m);
    assert ds[|req.decls| + 1] == DeserializeImpl(request, req.lifetime, kind, qualified);
  }

  predicate UsesLifetimeAnyField(c: Ctx, fields: seq<Field>) {
    exists i :: 0 <= i < |fields| && UsesLifetime(c, fields[i].ty)
  }

  /** A method without parameters gets a unit request struct that carries no lifetime. */
  lemma NoParametersUnitRequest(c: Ctx, domain: Domain, status: Deprecation.Status, kind: MethodKind, m: Method)
    requires |m.parameters| == 0
    ensures var ds := MethodDecls(c, domain, status, kind, m);
      |ds| >= 4 && ds[0].UnitStruct? && ds[0].name == RequestName(c.inf, kind, m)
      && ds[2] == SerializeImpl(RequestName(c.inf, kind, m), false, kind, Qualified(domain.name, m))
  {
  }

  /**
   * A type definition ends with the declaration of its own name, an alias or the
   * enum or struct it stands for, and that declaration is deprecated exactly when
   * the type definition or its domain is.
   */
  lemma TypeDefDeclaresItself(c: Ctx, domain: Domain, status: Deprecation.Status, t: TypeDef)
    ensures var ds := TypeDefDecls(c, domain, status, t);
      var name := Naming.PascalCase(c.inf, t.name);
      && |ds| > 0
      && var last := ds[|ds| - 1];
      && (last.TypeAlias? || DeclaresType(last, name, TypeDefMeta(domain, status, t)))
      && last.name == name
      && last.meta == TypeDefMeta(domain, status, t)
      && (Deprecation.IsDeprecated(last.meta.status) <==> t.deprecated || Deprecation.IsDeprecated(status))
  {
    Deprecation.AddParentDeprecated(Deprecation.New(t.deprecated, t.description), status);
  }

  // ---------------------------------------------------------------------------
  // The generator, step by step

  /** The `type_defs` vector of one domain module. */
  class TypeDefs {
    var items: seq<Decl>

    constructor ()
      ensures items == []
    {
      items := [];
    }

    method Push(d: Decl)
      modifies this
      ensures items == old(items) + [d]
    {
      items := items + [d];
    }
  }

  lemma Concat3(a: seq<Decl>, b: seq<Decl>, c: seq<Decl>)
    ensures (a + b) + c == a + (b + c)
  {
  }

  /** `generate_type_expr_impl`, pushing the declarations it makes. */
  method GenerateTypeExprImpl(sink: TypeDefs, c: Ctx, parent: string, fieldName: Option<string>, meta: Meta, ty: Type)
    returns (expr: Option<TypeExpr>, lifetime: bool)
    modifies sink
    ensures sink.items == old(sink.items) + TypeExprImplOf(c, parent, fieldName, meta, ty).decls
    ensures expr == TypeExprImplOf(c, parent, fieldName, meta, ty).expr
    ensures lifetime == TypeExprImplOf(c, parent, fieldName, meta, ty).lifetime
    decreases ty, 1
  {
    ghost var start := sink.items;
    match ty {
      case Reference(target) =>
        var path := Naming.ResolveReference(c.inf, c.domainSnakeCase, target);
        lifetime := path in c.usesLifetimeSet;
        if Naming.PascalCase(c.inf, target) == parent {
          expr := Some(Boxed(path, lifetime));
        } else {
          expr := Some(Named(path, lifetime));
        }
      case Boolean => expr, lifetime := Some(TypeExpr.Bool), false;
      case Integer => expr, lifetime := Some(I32), false;
      case Number => expr, lifetime := Some(F64), false;
      case String => expr, lifetime := Some(CowStr), true;
      case Enum(values) =>
        sink.Push(EnumOf(c, DeclName(c, parent, fieldName), values, meta));
        expr, lifetime := None, false;
      case Array(item, minItems, maxItems) =>
        var itemExpr, itemLifetime := GenerateTypeExpr(sink, c, parent, fieldName, meta.status, meta.experimental, item.ty);
        if minItems.Some? && maxItems.Some? && minItems.value == maxItems.value {
          expr := Some(FixedArray(itemExpr, maxItems.value));
        } else {
          expr := Some(Vec(itemExpr));
        }
        lifetime := itemLifetime;
      case Object(fields) =>
        if |fields| == 0 {
          expr, lifetime := Some(SharedEmpty), false;
        } else {
          var name := DeclName(c, parent, fieldName);
          var fieldDecls, fieldsUseLifetime := GenerateFields(sink, c, name, meta.status, meta.experimental, fields);
          sink.Push(StructDecl(name, fieldsUseLifetime, fieldDecls, meta));
          Concat3(start, FieldsOf(c, name, meta.status, meta.experimental, fields).decls, [StructDecl(name, fieldsUseLifetime, fieldDecls, meta)]);
          expr, lifetime := None, fieldsUseLifetime;
        }
      case Any => expr, lifetime := Some(JsonValue), false;
    }
  }

  /** `generate_type_expr`. */
  method GenerateTypeExpr(sink: TypeDefs, c: Ctx, parent: string, fieldName: Option<string>, status: Deprecation.Status, experimental: bool, ty: Type)
    returns (expr: TypeExpr, lifetime: bool)
    modifies sink
    ensures sink.items == old(sink.items) + TypeExprOf(c, parent, fieldName, status, experimental, ty).decls
    ensures expr == TypeExprOf(c, parent, fieldName, status, experimental, ty).expr
    ensures lifetime == TypeExprOf(c, parent, fieldName, status, experimental, ty).lifetime
    decreases ty, 2
  {
    var maybeExpr, usesLifetime := GenerateTypeExprImpl(sink, c, parent, fieldName, Meta(status, experimental, None), ty);
    lifetime := usesLifetime;
    match maybeExpr {
      case Some(e) => expr := e;
      case None => expr := Named(Naming.FullyQualified(c.domainSnakeCase, DeclName(c, parent, fieldName)), usesLifetime);
    }
  }

  /** `generate_field`: sets `fields_use_lifetime` when the field's type needs the lifetime. */
  method GenerateField(sink: TypeDefs, c: Ctx, parent: string, parentStatus: Deprecation.Status, parentExperimental: bool, f: Field, fieldsUseLifetime: bool)
    returns (decl: FieldDecl, fieldsUseLifetime': bool)
    modifies sink
    ensures decl == FieldOf(c, parent, parentStatus, parentExperimental, f).field
    ensures fieldsUseLifetime' == (fieldsUseLifetime || FieldOf(c, parent, parentStatus, parentExperimental, f).lifetime)
    ensures sink.items == old(sink.items) + FieldOf(c, parent, parentStatus, parentExperimental, f).decls
    decreases f, 0
  {
    var status := Deprecation.New(f.deprecated, f.description);
    var meta := Meta(status, f.experimental, f.description);
    var ty, usesLifetime := GenerateTypeExpr(sink, c, parent, Some(f.name), parentStatus, parentExperimental, f.ty);
    fieldsUseLifetime' := fieldsUseLifetime;
    if usesLifetime {
      fieldsUseLifetime' := true;
    }
    if f.optional {
      ty := OptionOf(ty);
    }
    decl := FieldDecl(f.name, Naming.SnakeCase(c.inf, f.name), ty, f.optional, meta);
  }

  /** One more property appends its field, its declarations and its lifetime to those of the ones before. */
  lemma FieldsOfStep(c: Ctx, parent: string, status: Deprecation.Status, experimental: bool, fields: seq<Field>, i: nat)
    requires i < |fields|
    ensures var before := FieldsOf(c, parent, status, experimental, fields[..i]);
      var f := FieldOf(c, parent, status, experimental, fields[i]);
      FieldsOf(c, parent, status, experimental, fields[..i + 1])
        == FieldsEmitted(before.fields + [f.field], before.lifetime || f.lifetime, before.decls + f.decls)
  {
    assert fields[..i + 1][..i] == fields[..i];
  }

  /** The loop over a struct's properties. */
  method GenerateFields(sink: TypeDefs, c: Ctx, parent: string, status: Deprecation.Status, experimental: bool, fields: seq<Field>)
    returns (decls: seq<FieldDecl>, fieldsUseLifetime: bool)
    modifies sink
    ensures sink.items == old(sink.items) + FieldsOf(c, parent, status, experimental, fields).decls
    ensures decls == FieldsOf(c, parent, status, experimental, fields).fields
    ensures fieldsUseLifetime == FieldsOf(c, parent, status, experimental, fields).lifetime
    decreases fields, 1
  {
    ghost var start := sink.items;
    decls, fieldsUseLifetime := [], false;
    for i := 0 to |fields|
      invariant sink.items == start + FieldsOf(c, parent, status, experimental, fields[..i]).decls
      invariant decls == FieldsOf(c, parent, status, experimental, fields[..i]).fields
      invariant fieldsUseLifetime == FieldsOf(c, parent, status, experimental, fields[..i]).lifetime
    {
      ghost var before := FieldsOf(c, parent, status, experimental, fields[..i]);
      ghost var f := FieldOf(c, parent, status, experimental, fields[i]);
      FieldsOfStep(c, parent, status, experimental, fields, i);
      var decl;
      decl, fieldsUseLifetime := GenerateField(sink, c, parent, status, experimental, fields[i], fieldsUseLifetime);
      decls := decls + [decl];
      Concat3(start, before.decls, f.decls);
    }
    assert fields[..|fields|] == fields;
  }

  /** `generate_method_struct`: pushes the struct and its kind impl, and says whether the struct needs `'a`. */
  method GenerateMethodStruct(sink: TypeDefs, c: Ctx, name: string, meta: Meta, kind: MethodKind, qualified: string, fields: seq<Field>)
    returns (usesLifetime: bool)
    modifies sink
    ensures sink.items == old(sink.items) + MethodStructOf(c, name, meta, kind, qualified, fields).decls
    ensures usesLifetime == MethodStructOf(c, name, meta, kind, qualified, fields).lifetime
  {
    if |fields| == 0 {
      sink.Push(UnitStruct(name, meta));
      usesLifetime := false;
    } else {
      var fieldDecls, fieldsUseLifetime := GenerateFields(sink, c, name, meta.status, meta.experimental, fields);
      sink.Push(StructDecl(name, fieldsUseLifetime, fieldDecls, meta));
      usesLifetime := fieldsUseLifetime;
    }
    sink.Push(KindImpl(name, usesLifetime, kind, qualified));
  }

  method GenerateRequest(sink: TypeDefs, c: Ctx, domain: Domain, domainStatus: Deprecation.Status, kind: MethodKind, m: Method)
    returns (requestUsesLifetime: bool)
    modifies sink
    ensures sink.items == old(sink.items) + RequestDecls(c, domain, domainStatus, kind, m)
    ensures requestUsesLifetime == UsesLifetimeAnyField(c, m.parameters)
  {
    var qualified := domain.name + "." + m.name;
    var request := Naming.PascalCase(c.inf, m.name) + KindName(kind);
    var meta := MethodMeta(domain, domainStatus, m);
    requestUsesLifetime := GenerateMethodStruct(sink, c, request, meta, kind, qualified, m.parameters);
    sink.Push(SerializeImpl(request, requestUsesLifetime, kind, qualified));
    sink.Push(DeserializeImpl(request, requestUsesLifetime, kind, qualified));
  }

  method GenerateResponse(sink: TypeDefs, c: Ctx, domain: Domain, domainStatus: Deprecation.Status, kind: MethodKind, m: Method, requestUsesLifetime: bool)
    requires requestUsesLifetime == UsesLifetimeAnyField(c, m.parameters)
    modifies sink
    ensures sink.items == old(sink.items) + ResponseDecls(c, domain, domainStatus, kind, m)
  {
    if kind == Command {
      var qualified := domain.name + "." + m.name;
      var methodPascalCase := Naming.PascalCase(c.inf, m.name);
      var request := methodPascalCase + KindName(kind);
      var response := methodPascalCase + "Response";
      var meta := MethodMeta(domain, domainStatus, m);
      var responseUsesLifetime := GenerateMethodStruct(sink, c, response, meta, kind, qualified, m.results);
      sink.Push(HasResponseImpl(request, requestUsesLifetime, response, responseUsesLifetime));
      sink.Push(HasRequestImpl(response, responseUsesLifetime, request, requestUsesLifetime, kind));
    }
  }

  /** `generate_method`: the request struct and its impls, then for a command the response struct and the two links. */
  method GenerateMethod(sink: TypeDefs, c: Ctx, domain: Domain, domainStatus: Deprecation.Status, kind: MethodKind, m: Method)
    modifies sink
    ensures sink.items == old(sink.items) + MethodDecls(c, domain, domainStatus, kind, m)
  {
    ghost var start := sink.items;
    var requestUsesLifetime := GenerateRequest(sink, c, domain, domainStatus, kind, m);
    GenerateResponse(sink, c, domain, domainStatus, kind, m, requestUsesLifetime);
    Concat3(start, RequestDecls(c, domain, domainStatus, kind, m), ResponseDecls(c, domain, domainStatus, kind, m));
  }

  /** `generate_type_def`: what the type expression declares, then the alias when it declared nothing of its own name. */
  method GenerateTypeDef(sink: TypeDefs, c: Ctx, domain: Domain, domainStatus: Deprecation.Status, t: TypeDef)
    modifies sink
    ensures sink.items == old(sink.items) + TypeDefDecls(c, domain, domainStatus, t)
  {
    var name := Naming.PascalCase(c.inf, t.name);
    var status := Deprecation.AddParent(Deprecation.New(t.deprecated, t.description), domainStatus);
    var meta := Meta(status, domain.experimental || t.experimental, t.description);
    var maybeExpr, usesLifetime := GenerateTypeExprImpl(sink, c, name, None, meta, t.ty);
    if maybeExpr.Some? {
      sink.Push(TypeAlias(name, usesLifetime, maybeExpr.value, meta));
    }
  }

  method GenerateMethods(sink: TypeDefs, c: Ctx, domain: Domain, domainStatus: Deprecation.Status, kind: MethodKind, methods: seq<Method>)
    modifies sink
    ensures sink.items == old(sink.items) + MethodsDecls(c, domain, domainStatus, kind, methods)
  {
    ghost var start := sink.items;
    for i := 0 to |methods|
      invariant sink.items == start + MethodsDecls(c, domain, domainStatus, kind, methods[..i])
    {
      assert methods[..i + 1][..i] == methods[..i];
      ghost var before := MethodsDecls(c, domain, domainStatus, kind, methods[..i]);
      GenerateMethod(sink, c, domain, domainStatus, kind, methods[i]);
      Concat3(start, before, MethodDecls(c, domain, domainStatus, kind, methods[i]));
    }
    assert methods[..|methods|] == methods;
  }

  method GenerateTypeDefs(sink: TypeDefs, c: Ctx, domain: Domain, domainStatus: Deprecation.Status, typeDefs: seq<TypeDef>)
    modifies sink
    ensures sink.items == old(sink.items) + TypeDefsDecls(c, domain, domainStatus, typeDefs)
  {
    ghost var start := sink.items;
    for i := 0 to |typeDefs|
      invariant sink.items == start + TypeDefsDecls(c, domain, domainStatus, typeDefs[..i])
    {
      assert typeDefs[..i + 1][..i] == typeDefs[..i];
      ghost var before := TypeDefsDecls(c, domain, domainStatus, typeDefs[..i]);
      GenerateTypeDef(sink, c, domain, domainStatus, typeDefs[i]);
      Concat3(start, before, TypeDefDecls(c, domain, domainStatus, typeDefs[i]));
    }
    assert typeDefs[..|typeDefs|] == typeDefs;
  }

  /** `generate_domain`: commands, events and types of one domain, into a module of its own. */
  method GenerateDomain(inf: Naming.Inflector, usesLifetimeSet: set<string>, d: Domain) returns (m: ModuleDecl)
    ensures m == DomainOf(inf, usesLifetimeSet, d)
  {
    var c := Ctx(inf, Naming.SnakeCase(inf, d.name), usesLifetimeSet);
    var status := Deprecation.New(d.deprecated, d.description);
    var sink := new TypeDefs();
    ghost var commands := MethodsDecls(c, d, status, Command, d.commands);
    ghost var events := MethodsDecls(c, d, status, Event, d.events);
    GenerateMethods(sink, c, d, status, Command, d.commands);
    assert sink.items == commands;
    GenerateMethods(sink, c, d, status, Event, d.events);
    GenerateTypeDefs(sink, c, d, status, d.typeDefs);
    m := ModuleDecl(c.domainSnakeCase, Meta(status, d.experimental, d.description), sink.items);
  }

  // ---------------------------------------------------------------------------
  // What a domain module promises

  /** Every declaration of a method appears in the declarations of a list holding it. */
  lemma {:induction false} MethodsDeclsInclude(c: Ctx, domain: Domain, status: Deprecation.Status, kind: MethodKind, methods: seq<Method>, k: nat, d: Decl)
    requires k < |methods| && d in MethodDecls(c, domain, status, kind, methods[k])
    ensures d in MethodsDecls(c, domain, status, kind, methods)
    decreases |methods|
  {
    var front := methods[..|methods| - 1];
    if k < |methods| - 1 {
      assert front[k] == methods[k];
      MethodsDeclsInclude(c, domain, status, kind, front, k, d);
    }
  }

  /**
   * The module of a domain can deserialize every one of its commands and events:
   * for each there is a deserializer that claims exactly the name "Domain.method".
   */
  lemma DomainDeserializesEveryMethod(inf: Naming.Inflector, usesLifetimeSet: set<string>, d: Domain, kind: MethodKind, k: nat)
    requires k < (if kind == Command then |d.commands| else |d.events|)
    ensures var m := if kind == Command then d.commands[k] else d.events[k];
      exists decl :: decl in DomainOf(inf, usesLifetimeSet, d).typeDefs
        && decl.DeserializeImpl? && decl.kind == kind
        && forall name :: Claims(decl, name) <==> name == d.name + "." + m.name
  {
    var c := Ctx(inf, Naming.SnakeCase(inf, d.name), usesLifetimeSet);
    var status := DomainStatus(d);
    var methods := if kind == Command then d.commands else d.events;
    var m := methods[k];
    var decl := DeserializeImpl(RequestName(c.inf, kind, m), UsesLifetimeAnyField(c, m.parameters), kind, Qualified(d.name, m));
    DeserializerClaimsOwnName(c, d, status, kind, m, "");
    MethodsDeclsInclude(c, d, status, kind, methods, k, decl);
    assert decl in DomainOf(inf, usesLifetimeSet, d).typeDefs;
  }

  // ---------------------------------------------------------------------------
  // The two protocol files

  /** `main`: the browser and JavaScript protocols must have the same version; their domains are then concatenated. */
  function MergeProtocols(browser: Definition, js: Definition): (r: Option<Definition>)
    ensures r.None? <==> browser.version != js.version
    ensures r.Some? ==> r.value.version == browser.version == js.version
    ensures r.Some? ==> |r.value.domains| == |browser.domains| + |js.domains|
    ensures r.Some? ==> forall i :: 0 <= i < |browser.domains| ==> r.value.domains[i] == browser.domains[i]
    ensures r.Some? ==> forall j :: 0 <= j < |js.domains| ==> r.value.domains[|browser.domains| + j] == js.domains[j]
  {
    if browser.version != js.version then None
    else Some(Definition(browser.version, browser.domains + js.domains))
  }
}
