/**
 * The older code generator, src/generate.rs, which emits one `ws` module: three
 * protocol-wide enums (`Command`, `Response`, `Event`) with one variant per
 * method, their `name` tables, the `Command::parse_command` dispatcher, and one
 * module per domain holding the parameter, response and type-definition types.
 *
 * It differs from cdp/src/generate.rs in the shapes it emits: strings are owned,
 * no type carries a lifetime, paths start with `::ws`, a self-reference is boxed
 * unqualified, event parameters become the fields of the event's variant, and
 * nothing inherits the domain's deprecation.
 */
module LegacyGenerator {
  import opened Wrappers
  import opened Json
  import opened Schema
  import Naming
  import LegacyDeprecation
  import Generator
  import Deprecation

  // ---------------------------------------------------------------------------
  // Shapes

  datatype TypeExpr =
    | Ref(reference: Naming.ReferenceTokens)
    | WsPath(domainModule: string, typeName: string)
    | Bool
    | I32
    | F64
    | OwnedString
    | JsonValue
    | WsEmpty
    | FixedArray(item: TypeExpr, len: u64)
    | Vec(item: TypeExpr)
    | OptionOf(inner: TypeExpr)

  datatype Meta = Meta(status: LegacyDeprecation.Status, experimental: bool, description: Option<string>)

  /** A field; `isPub` is false for the fields of an event's variant and of the types declared beneath them. */
  datatype FieldDecl = FieldDecl(jsonName: string, rustName: string, ty: TypeExpr, optional: bool, isPub: bool, meta: Meta)

  datatype Decl =
    | EnumDecl(name: string, values: seq<string>, variants: seq<string>, meta: Meta)
    | StructDecl(name: string, fields: seq<FieldDecl>, meta: Meta)
    | TypeAlias(name: string, expr: TypeExpr, meta: Meta)

  datatype Emitted = Emitted(expr: Option<TypeExpr>, decls: seq<Decl>)

  datatype FieldsEmitted = FieldsEmitted(fields: seq<FieldDecl>, decls: seq<Decl>)

  datatype Ctx = Ctx(inf: Naming.Inflector, domainSnakeCase: string)

  // ---------------------------------------------------------------------------
  // Type expressions

  function DeclName(c: Ctx, parent: string, fieldName: Option<string>): string {
    Naming.CombineParentFieldIdents(c.inf, parent, fieldName)
  }

  /** `generate_type_expr_impl` of src/generate.rs; `parentVariant` is the event variant the fields belong to, if any. */
  function TypeExprImplOf(c: Ctx, parentVariant: Option<string>, parent: string, fieldName: Option<string>, meta: Meta, ty: Type): (r: Emitted)
    ensures r.expr.None? ==> |r.decls| > 0 && r.decls[|r.decls| - 1].name == DeclName(c, parent, fieldName)
    ensures r.expr.None? <==> ty.Enum? || (ty.Object? && |ty.fields| > 0)
    decreases ty, 1
  {
    match ty
    case Reference(target) => Emitted(Some(Ref(Naming.ResolveReferenceLegacy(c.inf, c.domainSnakeCase, parent, target))), [])
    case Boolean => Emitted(Some(TypeExpr.Bool), [])
    case Integer => Emitted(Some(I32), [])
    case Number => Emitted(Some(F64), [])
    case String => Emitted(Some(OwnedString), [])
    case Enum(values) =>
      var variants := seq(|values|, i requires 0 <= i < |values| => Naming.PascalCase(c.inf, values[i]));
      Emitted(None, [EnumDecl(DeclName(c, parent, fieldName), values, variants, meta)])
    case Array(item, minItems, maxItems) =>
      var inner := TypeExprOf(c, parentVariant, parent, fieldName, meta.status, meta.experimental, item.ty);
      var expr :=
        if minItems.Some? && maxItems.Some? && minItems.value == maxItems.value then FixedArray(inner.0, maxItems.value)
        else Vec(inner.0);
      Emitted(Some(expr), inner.1)
    case Object(fields) =>
      if |fields| == 0 then Emitted(Some(WsEmpty), [])
      else
        var name := DeclName(c, parent, fieldName);
        var fs := FieldsOf(c, parentVariant, name, meta.status, meta.experimental, fields);
        Emitted(None, fs.decls + [StructDecl(name, fs.fields, meta)])
    case Any => Emitted(Some(JsonValue), [])
  }

  /** `generate_type_expr`: a declared type is named `::ws::domain::Name`. */
  function TypeExprOf(c: Ctx, parentVariant: Option<string>, parent: string, fieldName: Option<string>, status: LegacyDeprecation.Status, experimental: bool, ty: Type): (r: (TypeExpr, seq<Decl>))
    ensures r.1 == TypeExprImplOf(c, parentVariant, parent, fieldName, Meta(status, experimental, None), ty).decls
    decreases ty, 2
  {
    var e := TypeExprImplOf(c, parentVariant, parent, fieldName, Meta(status, experimental, None), ty);
    match e.expr
    case Some(expr) => (expr, e.decls)
    case None => (WsPath(c.domainSnakeCase, DeclName(c, parent, fieldName)), e.decls)
  }

  /** `generate_field`: public exactly when it is not a field of an event variant. */
  function FieldOf(c: Ctx, parentVariant: Option<string>, parent: string, parentStatus: LegacyDeprecation.Status, parentExperimental: bool, f: Field): (r: (FieldDecl, seq<Decl>))
    ensures r.0.isPub <==> parentVariant.None?
    ensures r.0.jsonName == f.name && r.0.rustName == Naming.SnakeCase(c.inf, f.name) && r.0.optional == f.optional
    ensures r.0.meta == Meta(LegacyDeprecation.New(f.deprecated, f.description), f.experimental, f.description)
    decreases f, 0
  {
    var t := TypeExprOf(c, parentVariant, parent, Some(f.name), parentStatus, parentExperimental, f.ty);
    var ty := if f.optional then OptionOf(t.0) else t.0;
    var meta := Meta(LegacyDeprecation.New(f.deprecated, f.description), f.experimental, f.description);
    (FieldDecl(f.name, Naming.SnakeCase(c.inf, f.name), ty, f.optional, parentVariant.None?, meta), t.1)
  }

  function FieldsOf(c: Ctx, parentVariant: Option<string>, parent: string, status: LegacyDeprecation.Status, experimental: bool, fields: seq<Field>): (r: FieldsEmitted)
    ensures |r.fields| == |fields|
    ensures forall i :: 0 <= i < |fields| ==> r.fields[i] == FieldOf(c, parentVariant, parent, status, experimental, fields[i]).0
    decreases fields, 0
  {
    if |fields| == 0 then FieldsEmitted([], [])
    else
      var front := FieldsOf(c, parentVariant, parent, status, experimental, fields[..|fields| - 1]);
      var last := FieldOf(c, parentVariant, parent, status, experimental, fields[|fields| - 1]);
      FieldsEmitted(front.fields + [last.0], front.decls + last.1)
  }

  // ---------------------------------------------------------------------------
  // Against the newer generator

  /** A legacy type expression is the newer one with owned strings, `::ws` paths and no lifetimes. */
  predicate Corresponds(newer: Generator.TypeExpr, legacy: TypeExpr) {
    match legacy
    case Ref(r) =>
      if r.BoxedSelf? then newer.Boxed?
      else newer.Named? && newer.path == Naming.FullyQualified(r.domainSnakeCase, r.item)
    case WsPath(d, item) => newer.Named? && newer.path == Naming.FullyQualified(d, item)
    case Bool => newer.Bool?
    case I32 => newer.I32?
    case F64 => newer.F64?
    case OwnedString => newer.CowStr?
    case JsonValue => newer.JsonValue?
    case WsEmpty => newer.SharedEmpty?
    case FixedArray(item, len) => newer.FixedArray? && newer.len == len && Corresponds(newer.item, item)
    case Vec(item) => newer.Vec? && Corresponds(newer.item, item)
    case OptionOf(inner) => newer.OptionOf? && Corresponds(newer.inner, inner)
  }

  /** The two shapes of `ty` under the same parent and field name. */
  predicate SameShape(inf: Naming.Inflector, d: string, uses: set<string>, parentVariant: Option<string>, parent: string,
                      fieldName: Option<string>, status: LegacyDeprecation.Status, newerStatus: Deprecation.Status, experimental: bool, ty: Type)
  {
    Corresponds(
      Generator.TypeExprOf(Generator.Ctx(inf, d, uses), parent, fieldName, newerStatus, experimental, ty).expr,
      TypeExprOf(Ctx(inf, d), parentVariant, parent, fieldName, status, experimental, ty).0)
  }

  lemma ArraySameShape(inf: Naming.Inflector, d: string, uses: set<string>, parentVariant: Option<string>, parent: string,
                       fieldName: Option<string>, status: LegacyDeprecation.Status, newerStatus: Deprecation.Status, experimental: bool,
                       item: Item, minItems: Option<u64>, maxItems: Option<u64>)
    requires SameShape(inf, d, uses, parentVariant, parent, fieldName, status, newerStatus, experimental, item.ty)
    ensures SameShape(inf, d, uses, parentVariant, parent, fieldName, status, newerStatus, experimental, Array(item, minItems, maxItems))
  {
    var fixed := minItems.Some? && maxItems.Some? && minItems.value == maxItems.value;
    var ni := Generator.TypeExprOf(Generator.Ctx(inf, d, uses), parent, fieldName, newerStatus, experimental, item.ty).expr;
    var li := TypeExprOf(Ctx(inf, d), parentVariant, parent, fieldName, status, experimental, item.ty).0;
    var n := Generator.TypeExprImplOf(Generator.Ctx(inf, d, uses), parent, fieldName, Generator.Meta(newerStatus, experimental, None), Array(item, minItems, maxItems));
    var l := TypeExprImplOf(Ctx(inf, d), parentVariant, parent, fieldName, Meta(status, experimental, None), Array(item, minItems, maxItems));
    assert n.expr == Some(if fixed then Generator.FixedArray(ni, maxItems.value) else Generator.Vec(ni));
    assert l.expr == Some(if fixed then FixedArray(li, maxItems.value) else Vec(li));
  }

  lemma DeclaredSameShape(inf: Naming.Inflector, d: string, uses: set<string>, parentVariant: Option<string>, parent: string,
                          fieldName: Option<string>, status: LegacyDeprecation.Status, newerStatus: Deprecation.Status, experimental: bool, ty: Type)
    requires ty.Enum? || (ty.Object? && |ty.fields| > 0)
    ensures SameShape(inf, d, uses, parentVariant, parent, fieldName, status, newerStatus, experimental, ty)
  {
    var n := Generator.TypeExprImplOf(Generator.Ctx(inf, d, uses), parent, fieldName, Generator.Meta(newerStatus, experimental, None), ty);
    var l := TypeExprImplOf(Ctx(inf, d), parentVariant, parent, fieldName, Meta(status, experimental, None), ty);
    if ty.Object? {
      Generator.ObjectShape(Generator.Ctx(inf, d, uses), parent, fieldName, Generator.Meta(newerStatus, experimental, None), ty.fields);
    }
    assert n.expr.None? && l.expr.None?;
  }

  lemma LeafSameShape(inf: Naming.Inflector, d: string, uses: set<string>, parentVariant: Option<string>, parent: string,
                      fieldName: Option<string>, status: LegacyDeprecation.Status, newerStatus: Deprecation.Status, experimental: bool, ty: Type)
    requires !ty.Array? && !ty.Enum? && !(ty.Object? && |ty.fields| > 0)
    ensures SameShape(inf, d, uses, parentVariant, parent, fieldName, status, newerStatus, experimental, ty)
  {
    var n := Generator.TypeExprImplOf(Generator.Ctx(inf, d, uses), parent, fieldName, Generator.Meta(newerStatus, experimental, None), ty);
    var l := TypeExprImplOf(Ctx(inf, d), parentVariant, parent, fieldName, Meta(status, experimental, None), ty);
    match ty
    case Reference(target) =>
      var r := Naming.ResolveReferenceLegacy(inf, d, parent, target);
      assert l.expr == Some(Ref(r));
      if Naming.PascalCase(inf, target) != parent {
        Naming.LegacyResolvesAlike(inf, d, parent, target);
        assert n.expr.value.Named? && n.expr.value.path == Naming.FullyQualified(r.domainSnakeCase, r.item);
      } else {
        assert n.expr.value.Boxed? && r.BoxedSelf?;
      }
    case Boolean => assert n.expr == Some(Generator.TypeExpr.Bool) && l.expr == Some(TypeExpr.Bool);
    case Integer => assert n.expr == Some(Generator.I32) && l.expr == Some(I32);
    case Number => assert n.expr == Some(Generator.F64) && l.expr == Some(F64);
    case String => assert n.expr == Some(Generator.CowStr) && l.expr == Some(OwnedString);
    case Any => assert n.expr == Some(Generator.JsonValue) && l.expr == Some(JsonValue);
    case Object(_) => assert n.expr == Some(Generator.SharedEmpty) && l.expr == Some(WsEmpty);
  }

  /** Both generators give every schema type the same shape and declare the same names. */
  lemma {:induction false} SameShapeAsNewer(inf: Naming.Inflector, d: string, uses: set<string>, parentVariant: Option<string>,
                                            parent: string, fieldName: Option<string>, status: LegacyDeprecation.Status,
                                            newerStatus: Deprecation.Status, experimental: bool, ty: Type)
    ensures SameShape(inf, d, uses, parentVariant, parent, fieldName, status, newerStatus, experimental, ty)
    decreases ty
  {
    match ty
    case Array(item, minItems, maxItems) =>
      SameShapeAsNewer(inf, d, uses, parentVariant, parent, fieldName, status, newerStatus, experimental, item.ty);
      ArraySameShape(inf, d, uses, parentVariant, parent, fieldName, status, newerStatus, experimental, item, minItems, maxItems);
    case Enum(_) =>
      DeclaredSameShape(inf, d, uses, parentVariant, parent, fieldName, status, newerStatus, experimental, ty);
    case Object(fields) =>
      if |fields| > 0 {
        DeclaredSameShape(inf, d, uses, parentVariant, parent, fieldName, status, newerStatus, experimental, ty);
      } else {
        LeafSameShape(inf, d, uses, parentVariant, parent, fieldName, status, newerStatus, experimental, ty);
      }
    case _ =>
      LeafSameShape(inf, d, uses, parentVariant, parent, fieldName, status, newerStatus, experimental, ty);
  }

  /** Strings are owned: a string field is `String` (or `Option<String>`). */
  lemma StringsAreOwned(c: Ctx, parentVariant: Option<string>, parent: string, status: LegacyDeprecation.Status, experimental: bool, f: Field)
    requires f.ty == String
    ensures FieldOf(c, parentVariant, parent, status, experimental, f).0.ty == (if f.optional then OptionOf(OwnedString) else OwnedString)
  {
  }

  // ---------------------------------------------------------------------------
  // Methods

  /** A variant of `Command`, `Response` or `Event`, renamed to "Domain.method" in JSON. */
  datatype VariantContent = Unit | Tuple(path: TypeExpr) | Fields(fields: seq<FieldDecl>)

  datatype Variant = Variant(name: string, qualified: string, content: VariantContent, meta: Meta)

  /** An arm of a `name` table: the variant, and the string it returns. */
  datatype NameArm = NameArm(variant: string, qualified: string)

  /** An arm of `parse_command`: the name it matches, the variant it builds and the parameter struct it reads (`::ws::Empty` if none). */
  datatype ParseArm = ParseArm(qualified: string, variant: string, paramsStruct: Option<TypeExpr>)

  /** All that the generator accumulates across the protocol. */
  datatype Ws = Ws(
    commandVariants: seq<Variant>,
    commandNameArms: seq<NameArm>,
    parseCommandArms: seq<ParseArm>,
    responseVariants: seq<Variant>,
    responseNameArms: seq<NameArm>,
    eventVariants: seq<Variant>,
    eventNameArms: seq<NameArm>,
    modules: seq<ModuleDecl>)

  datatype ModuleDecl = ModuleDecl(name: string, meta: Meta, typeDefs: seq<Decl>)

  const NO_WS: Ws := Ws([], [], [], [], [], [], [], [])

  function Join(a: Ws, b: Ws): Ws {
    Ws(a.commandVariants + b.commandVariants, a.commandNameArms + b.commandNameArms, a.parseCommandArms + b.parseCommandArms,
      a.responseVariants + b.responseVariants, a.responseNameArms + b.responseNameArms,
      a.eventVariants + b.eventVariants, a.eventNameArms + b.eventNameArms, a.modules + b.modules)
  }

  datatype MethodKind = Command | Event

  /** What one method adds: to the protocol-wide tables, and to its domain's types. */
  datatype MethodOut = MethodOut(ws: Ws, decls: seq<Decl>)

  function MethodMeta(domain: Domain, m: Method): Meta {
    Meta(LegacyDeprecation.New(m.deprecated, m.description), domain.experimental || m.experimental, m.description)
  }

  /** `{Method}Params`, only for a command with parameters. */
  function ParamsStruct(c: Ctx, kind: MethodKind, m: Method): (r: Option<string>)
    ensures r.Some? <==> kind == Command && |m.parameters| > 0
  {
    if kind == Command && |m.parameters| > 0 then Some(Naming.PascalCase(c.inf, m.name) + "Params") else None
  }

  /** `{Method}Response`, only for a command with returns. */
  function ResponseStruct(c: Ctx, kind: MethodKind, m: Method): (r: Option<string>)
    ensures r.Some? <==> kind == Command && |m.results| > 0
  {
    if kind == Command && |m.results| > 0 then Some(Naming.PascalCase(c.inf, m.name) + "Response") else None
  }

  /** The variant's name: the domain's and the method's Pascal case run together. */
  function VariantName(c: Ctx, domain: Domain, m: Method): string {
    Naming.PascalCase(c.inf, domain.name) + Naming.PascalCase(c.inf, m.name)
  }

  /** The fields and declarations of an event's variant, generated under the parent `{Method}Event`. */
  function EventFields(c: Ctx, domain: Domain, m: Method): FieldsEmitted {
    var meta := MethodMeta(domain, m);
    FieldsOf(c, Some(VariantName(c, domain, m)), Naming.PascalCase(c.inf, m.name) + "Event", meta.status, meta.experimental, m.parameters)
  }

  /** A struct of the given fields, public and declared in the domain module. */
  function StructDecls(c: Ctx, name: Option<string>, meta: Meta, fields: seq<Field>): seq<Decl> {
    match name
    case None => []
    case Some(n) =>
      var fs := FieldsOf(c, None, n, meta.status, meta.experimental, fields);
      fs.decls + [StructDecl(n, fs.fields, meta)]
  }

  function StructPath(c: Ctx, name: Option<string>): Option<TypeExpr> {
    match name
    case None => None
    case Some(n) => Some(WsPath(c.domainSnakeCase, n))
  }

  function ContentOf(path: Option<TypeExpr>): VariantContent {
    match path
    case None => Unit
    case Some(p) => Tuple(p)
  }

  /** `generate_method` of src/generate.rs. */
  function MethodOf(c: Ctx, domain: Domain, kind: MethodKind, m: Method): MethodOut {
    var qualified := domain.name + "." + m.name;
    var variant := VariantName(c, domain, m);
    var meta := MethodMeta(domain, m);
    var params := ParamsStruct(c, kind, m);
    var response := ResponseStruct(c, kind, m);
    match kind
    case Command =>
      var request := Variant(variant, qualified, ContentOf(StructPath(c, params)), meta);
      var responseVariant := Variant(variant, qualified, ContentOf(StructPath(c, response)), meta);
      MethodOut(
        Ws([request], [NameArm(variant, qualified)], [ParseArm(qualified, variant, StructPath(c, params))],
          [responseVariant], [NameArm(variant, qualified)], [], [], []),
        StructDecls(c, params, meta, m.parameters) + StructDecls(c, response, meta, m.results))
    case Event =>
      var fs := EventFields(c, domain, m);
      var content := if |fs.fields| == 0 then Unit else Fields(fs.fields);
      MethodOut(Ws([], [], [], [], [], [Variant(variant, qualified, content, meta)], [NameArm(variant, qualified)], []), fs.decls)
  }

  function MethodsOf(c: Ctx, domain: Domain, kind: MethodKind, methods: seq<Method>): MethodOut {
    if |methods| == 0 then MethodOut(NO_WS, [])
    else
      var front := MethodsOf(c, domain, kind, methods[..|methods| - 1]);
      var last := MethodOf(c, domain, kind, methods[|methods| - 1]);
      MethodOut(Join(front.ws, last.ws), front.decls + last.decls)
  }

  /** `generate_type_def` of src/generate.rs: no inheritance from the domain. */
  function TypeDefOf(c: Ctx, domain: Domain, t: TypeDef): seq<Decl> {
    var name := Naming.PascalCase(c.inf, t.name);
    var meta := Meta(LegacyDeprecation.New(t.deprecated, t.description), domain.experimental || t.experimental, t.description);
    var e := TypeExprImplOf(c, None, name, None, meta, t.ty);
    match e.expr
    case None => e.decls
    case Some(expr) => e.decls + [TypeAlias(name, expr, meta)]
  }

  function TypeDefsOf(c: Ctx, domain: Domain, typeDefs: seq<TypeDef>): seq<Decl> {
    if |typeDefs| == 0 then []
    else TypeDefsOf(c, domain, typeDefs[..|typeDefs| - 1]) + TypeDefOf(c, domain, typeDefs[|typeDefs| - 1])
  }

  /** `generate_domain` of src/generate.rs: the tables of its commands and events, and its module. */
  function DomainOf(inf: Naming.Inflector, d: Domain): Ws {
    var c := Ctx(inf, Naming.SnakeCase(inf, d.name));
    var commands := MethodsOf(c, d, Command, d.commands);
    var events := MethodsOf(c, d, Event, d.events);
    var module_ := ModuleDecl(c.domainSnakeCase, Meta(LegacyDeprecation.New(d.deprecated, d.description), d.experimental, d.description),
      commands.decls + events.decls + TypeDefsOf(c, d, d.typeDefs));
    Join(Join(commands.ws, events.ws), Ws([], [], [], [], [], [], [], [module_]))
  }

  /** `generate_ws`: the domains in order. */
  function WsOf(inf: Naming.Inflector, domains: seq<Domain>): Ws {
    if |domains| == 0 then NO_WS
    else Join(WsOf(inf, domains[..|domains| - 1]), DomainOf(inf, domains[|domains| - 1]))
  }

  // ---------------------------------------------------------------------------
  // The generated dispatch

  /** The generated `Command::parse_command`: the first arm whose name matches, or `None`. */
  function ParseCommand(arms: seq<ParseArm>, name: string): (r: Option<ParseArm>)
    ensures r.Some? <==> exists i :: 0 <= i < |arms| && arms[i].qualified == name
    ensures r.Some? ==> r.value in arms && r.value.qualified == name
  {
    if |arms| == 0 then None
    else if arms[0].qualified == name then Some(arms[0])
    else
      var r := ParseCommand(arms[1..], name);
      assert forall i :: 1 <= i < |arms| ==> arms[i] == arms[1..][i - 1];
      r
  }

  /** The generated `name` of an enum: the arm of the variant. */
  function NameOf(arms: seq<NameArm>, variant: string): Option<string> {
    if |arms| == 0 then None
    else if arms[0].variant == variant then Some(arms[0].qualified)
    else NameOf(arms[1..], variant)
  }

  /** Each table has one name arm per variant, in the same order, returning the variant's JSON name. */
  predicate NameArmsMatch(variants: seq<Variant>, arms: seq<NameArm>) {
    |arms| == |variants| && forall i :: 0 <= i < |variants| ==> arms[i] == NameArm(variants[i].name, variants[i].qualified)
  }

  /** Commands, responses and events each have matching name arms, and there is one parse arm and one response per command. */
  predicate WellFormed(ws: Ws) {
    && NameArmsMatch(ws.commandVariants, ws.commandNameArms)
    && NameArmsMatch(ws.responseVariants, ws.responseNameArms)
    && NameArmsMatch(ws.eventVariants, ws.eventNameArms)
    && CommandsAligned(ws)
  }

  lemma NameArmsJoin(va: seq<Variant>, aa: seq<NameArm>, vb: seq<Variant>, ab: seq<NameArm>)
    requires NameArmsMatch(va, aa) && NameArmsMatch(vb, ab)
    ensures NameArmsMatch(va + vb, aa + ab)
  {
    assert forall i :: |va| <= i < |va + vb| ==> (va + vb)[i] == vb[i - |va|] && (aa + ab)[i] == ab[i - |aa|];
  }

  /** The command-wide alignment of parse arms, command variants and response variants. */
  predicate CommandsAligned(ws: Ws) {
    && |ws.parseCommandArms| == |ws.commandVariants| == |ws.responseVariants|
    && forall i :: 0 <= i < |ws.commandVariants| ==>
      && ws.parseCommandArms[i].qualified == ws.commandVariants[i].qualified == ws.responseVariants[i].qualified
      && ws.parseCommandArms[i].variant == ws.commandVariants[i].name == ws.responseVariants[i].name
  }

  lemma CommandsAlignedJoin(a: Ws, b: Ws)
    requires CommandsAligned(a) && CommandsAligned(b)
    ensures CommandsAligned(Join(a, b))
  {
    var j := Join(a, b);
    var k := |a.commandVariants|;
    assert forall i :: k <= i < |j.commandVariants| ==>
      j.commandVariants[i] == b.commandVariants[i - k]
      && j.parseCommandArms[i] == b.parseCommandArms[i - k]
      && j.responseVariants[i] == b.responseVariants[i - k];
  }

  lemma JoinWellFormed(a: Ws, b: Ws)
    requires WellFormed(a) && WellFormed(b)
    ensures WellFormed(Join(a, b))
  {
    NameArmsJoin(a.commandVariants, a.commandNameArms, b.commandVariants, b.commandNameArms);
    NameArmsJoin(a.responseVariants, a.responseNameArms, b.responseVariants, b.responseNameArms);
    NameArmsJoin(a.eventVariants, a.eventNameArms, b.eventVariants, b.eventNameArms);
    CommandsAlignedJoin(a, b);
  }

  lemma {:induction false} MethodsWellFormed(c: Ctx, domain: Domain, kind: MethodKind, methods: seq<Method>)
    ensures WellFormed(MethodsOf(c, domain, kind, methods).ws)
    decreases |methods|
  {
    if |methods| > 0 {
      MethodsWellFormed(c, domain, kind, methods[..|methods| - 1]);
      JoinWellFormed(MethodsOf(c, domain, kind, methods[..|methods| - 1]).ws, MethodOf(c, domain, kind, methods[|methods| - 1]).ws);
    }
  }

  /** Whatever the protocol, the generated tables agree with the generated variants. */
  lemma {:induction false} GeneratedTablesWellFormed(inf: Naming.Inflector, domains: seq<Domain>)
    ensures WellFormed(WsOf(inf, domains))
    decreases |domains|
  {
    if |domains| > 0 {
      var d := domains[|domains| - 1];
      var c := Ctx(inf, Naming.SnakeCase(inf, d.name));
      GeneratedTablesWellFormed(inf, domains[..|domains| - 1]);
      MethodsWellFormed(c, d, Command, d.commands);
      MethodsWellFormed(c, d, Event, d.events);
      JoinWellFormed(MethodsOf(c, d, Command, d.commands).ws, MethodsOf(c, d, Event, d.events).ws);
      var module_ := DomainOf(inf, d).modules;
      JoinWellFormed(Join(MethodsOf(c, d, Command, d.commands).ws, MethodsOf(c, d, Event, d.events).ws), Ws([], [], [], [], [], [], [], module_));
      JoinWellFormed(WsOf(inf, domains[..|domains| - 1]), DomainOf(inf, d));
    }
  }

  /** A command's name arm of `Command::name` and its parse arm name it "Domain.method". */
  lemma CommandTables(c: Ctx, domain: Domain, m: Method)
    ensures var ws := MethodOf(c, domain, Command, m).ws;
      && ws.parseCommandArms == [ParseArm(domain.name + "." + m.name, VariantName(c, domain, m), StructPath(c, ParamsStruct(c, Command, m)))]
      && ws.commandNameArms == [NameArm(VariantName(c, domain, m), domain.name + "." + m.name)]
      && ws.eventVariants == []
  {
  }

  /** An event adds no parse arm and no response; its parameters are the variant's private fields. */
  lemma EventTables(c: Ctx, domain: Domain, m: Method)
    ensures var out := MethodOf(c, domain, Event, m);
      && out.ws.parseCommandArms == [] && out.ws.responseVariants == [] && out.ws.commandVariants == []
      && |out.ws.eventVariants| == 1
      && (out.ws.eventVariants[0].content.Fields? <==> |m.parameters| > 0)
      && (out.ws.eventVariants[0].content.Fields? ==>
        |out.ws.eventVariants[0].content.fields| == |m.parameters|
        && forall i :: 0 <= i < |m.parameters| ==> !out.ws.eventVariants[0].content.fields[i].isPub)
  {
  }

  /** A command's variants: a tuple of its parameter struct iff it has parameters, and a response tuple iff it has returns. */
  lemma CommandVariants(c: Ctx, domain: Domain, m: Method)
    ensures var ws := MethodOf(c, domain, Command, m).ws;
      && |ws.commandVariants| == 1 && |ws.responseVariants| == 1
      && (ws.commandVariants[0].content.Tuple? <==> |m.parameters| > 0)
      && (ws.responseVariants[0].content.Tuple? <==> |m.results| > 0)
      && (ws.commandVariants[0].content.Unit? <==> |m.parameters| == 0)
      && (ws.responseVariants[0].content.Unit? <==> |m.results| == 0)
  {
  }

  /** Every command of every domain has a parse arm. */
  /** A domain's parse arms are those of its commands. */
  lemma DomainParseArms(inf: Naming.Inflector, d: Domain)
    ensures DomainOf(inf, d).parseCommandArms == MethodsOf(Ctx(inf, Naming.SnakeCase(inf, d.name)), d, Command, d.commands).ws.parseCommandArms
  {
    EventsAddNoParseArms(Ctx(inf, Naming.SnakeCase(inf, d.name)), d, d.events);
  }

  lemma WsOfParseArms(inf: Naming.Inflector, domains: seq<Domain>)
    requires |domains| > 0
    ensures WsOf(inf, domains).parseCommandArms
      == WsOf(inf, domains[..|domains| - 1]).parseCommandArms + DomainOf(inf, domains[|domains| - 1]).parseCommandArms
  {
  }

  lemma {:induction false} ParseArmForEveryCommand(inf: Naming.Inflector, domains: seq<Domain>, di: nat, ci: nat)
    requires di < |domains| && ci < |domains[di].commands|
    ensures exists i :: (0 <= i < |WsOf(inf, domains).parseCommandArms|
      && WsOf(inf, domains).parseCommandArms[i].qualified == domains[di].name + "." + domains[di].commands[ci].name)
    decreases |domains|
  {
    var n := |domains|;
    var front := WsOf(inf, domains[..n - 1]);
    if di == n - 1 {
      var d := domains[di];
      var c := Ctx(inf, Naming.SnakeCase(inf, d.name));
      var arm := ParseArm(d.name + "." + d.commands[ci].name, VariantName(c, d, d.commands[ci]), StructPath(c, ParamsStruct(c, Command, d.commands[ci])));
      CommandArmsInclude(c, d, d.commands, ci);
      DomainParseArms(inf, d);
      WsOfParseArms(inf, domains);
      assert arm in WsOf(inf, domains).parseCommandArms;
    } else {
      assert domains[..n - 1][di] == domains[di];
      ParseArmForEveryCommand(inf, domains[..n - 1], di, ci);
      var i :| 0 <= i < |front.parseCommandArms| && front.parseCommandArms[i].qualified == domains[di].name + "." + domains[di].commands[ci].name;
      WsOfParseArms(inf, domains);
      assert WsOf(inf, domains).parseCommandArms[i] == front.parseCommandArms[i];
    }
  }

  lemma {:induction false} CommandArmsInclude(c: Ctx, domain: Domain, methods: seq<Method>, k: nat)
    requires k < |methods|
    ensures ParseArm(domain.name + "." + methods[k].name, VariantName(c, domain, methods[k]), StructPath(c, ParamsStruct(c, Command, methods[k])))
      in MethodsOf(c, domain, Command, methods).ws.parseCommandArms
    decreases |methods|
  {
    var n := |methods|;
    if k < n - 1 {
      assert methods[..n - 1][k] == methods[k];
      CommandArmsInclude(c, domain, methods[..n - 1], k);
    }
  }

  /** Every parse arm is that of a command of some domain. */
  lemma {:induction false} ParseArmsAreCommands(inf: Naming.Inflector, domains: seq<Domain>, a: ParseArm)
    requires a in WsOf(inf, domains).parseCommandArms
    ensures exists di, ci :: (0 <= di < |domains| && 0 <= ci < |domains[di].commands|
      && a.qualified == domains[di].name + "." + domains[di].commands[ci].name)
    decreases |domains|
  {
    var n := |domains|;
    var d := domains[n - 1];
    var c := Ctx(inf, Naming.SnakeCase(inf, d.name));
    WsOfParseArms(inf, domains);
    if a in WsOf(inf, domains[..n - 1]).parseCommandArms {
      ParseArmsAreCommands(inf, domains[..n - 1], a);
      var di, ci :| 0 <= di < n - 1 && 0 <= ci < |domains[..n - 1][di].commands|
        && a.qualified == domains[..n - 1][di].name + "." + domains[..n - 1][di].commands[ci].name;
      assert domains[..n - 1][di] == domains[di];
    } else {
      assert a in DomainOf(inf, d).parseCommandArms;
      DomainParseArms(inf, d);
      CommandArmsOnly(c, d, d.commands, a);
      var ci :| 0 <= ci < |d.commands| && a.qualified == d.name + "." + d.commands[ci].name;
      assert domains[n - 1] == d;
    }
  }

  lemma {:induction false} EventsAddNoParseArms(c: Ctx, domain: Domain, methods: seq<Method>)
    ensures MethodsOf(c, domain, Event, methods).ws.parseCommandArms == []
    decreases |methods|
  {
    if |methods| > 0 {
      EventsAddNoParseArms(c, domain, methods[..|methods| - 1]);
    }
  }

  lemma {:induction false} CommandArmsOnly(c: Ctx, domain: Domain, methods: seq<Method>, a: ParseArm)
    requires a in MethodsOf(c, domain, Command, methods).ws.parseCommandArms
    ensures exists k :: 0 <= k < |methods| && a.qualified == domain.name + "." + methods[k].name
    decreases |methods|
  {
    var n := |methods|;
    if a !in MethodOf(c, domain, Command, methods[n - 1]).ws.parseCommandArms {
      CommandArmsOnly(c, domain, methods[..n - 1], a);
      var k :| 0 <= k < n - 1 && a.qualified == domain.name + "." + methods[..n - 1][k].name;
      assert methods[..n - 1][k] == methods[k];
    }
  }

  /** `parse_command` recognises exactly the qualified names of the protocol's commands. */
  lemma ParseCommandRecognisesCommands(inf: Naming.Inflector, domains: seq<Domain>, name: string)
    ensures ParseCommand(WsOf(inf, domains).parseCommandArms, name).Some? <==>
      exists di, ci :: 0 <= di < |domains| && 0 <= ci < |domains[di].commands| && name == domains[di].name + "." + domains[di].commands[ci].name
  {
    var arms := WsOf(inf, domains).parseCommandArms;
    if ParseCommand(arms, name).Some? {
      ParseArmsAreCommands(inf, domains, ParseCommand(arms, name).value);
    }
    if exists di, ci :: 0 <= di < |domains| && 0 <= ci < |domains[di].commands| && name == domains[di].name + "." + domains[di].commands[ci].name {
      var di, ci :| 0 <= di < |domains| && 0 <= ci < |domains[di].commands| && name == domains[di].name + "." + domains[di].commands[ci].name;
      ParseArmForEveryCommand(inf, domains, di, ci);
    }
  }

  // ---------------------------------------------------------------------------
  // The generator, step by step

  /** The vectors `generate_ws` accumulates into while it walks the domains. */
  class WsOutput {
    var commandVariants: seq<Variant>
    var commandNameArms: seq<NameArm>
    var parseCommandArms: seq<ParseArm>
    var responseVariants: seq<Variant>
    var responseNameArms: seq<NameArm>
    var eventVariants: seq<Variant>
    var eventNameArms: seq<NameArm>
    var modules: seq<ModuleDecl>

    function State(): Ws
      reads this
    {
      Ws(commandVariants, commandNameArms, parseCommandArms, responseVariants, responseNameArms, eventVariants, eventNameArms, modules)
    }

    constructor ()
      ensures State() == NO_WS
    {
      commandVariants, commandNameArms, parseCommandArms := [], [], [];
      responseVariants, responseNameArms := [], [];
      eventVariants, eventNameArms := [], [];
      modules := [];
    }

    /** The pushes of `generate_method`: for a command its variant, name arm, parse arm, response variant and name arm; for an event its variant and name arm. */
    method AddMethod(out: MethodOut, kind: MethodKind)
      requires out.ws.modules == []
      requires kind == Command ==> out.ws.eventVariants == [] && out.ws.eventNameArms == []
      requires kind == Event ==> (out.ws.commandVariants == [] && out.ws.commandNameArms == [] && out.ws.parseCommandArms == []
        && out.ws.responseVariants == [] && out.ws.responseNameArms == [])
      modifies this
      ensures State() == Join(old(State()), out.ws)
    {
      if kind == Command {
        commandVariants := commandVariants + out.ws.commandVariants;
        commandNameArms := commandNameArms + out.ws.commandNameArms;
        parseCommandArms := parseCommandArms + out.ws.parseCommandArms;
        responseVariants := responseVariants + out.ws.responseVariants;
        responseNameArms := responseNameArms + out.ws.responseNameArms;
      } else {
        eventVariants := eventVariants + out.ws.eventVariants;
        eventNameArms := eventNameArms + out.ws.eventNameArms;
      }
    }

    method AddModule(m: ModuleDecl)
      modifies this
      ensures State() == Join(old(State()), Ws([], [], [], [], [], [], [], [m]))
    {
      modules := modules + [m];
    }
  }

  lemma DeclsAssoc(a: seq<Decl>, b: seq<Decl>, c: seq<Decl>)
    ensures (a + b) + c == a + (b + c)
  {
  }

  lemma JoinAssoc(a: Ws, b: Ws, c: Ws)
    ensures Join(Join(a, b), c) == Join(a, Join(b, c))
  {
  }

  lemma MethodOfShape(c: Ctx, domain: Domain, kind: MethodKind, m: Method)
    ensures var ws := MethodOf(c, domain, kind, m).ws;
      && ws.modules == []
      && (kind == Command ==> ws.eventVariants == [] && ws.eventNameArms == [])
      && (kind == Event ==> (ws.commandVariants == [] && ws.commandNameArms == [] && ws.parseCommandArms == []
        && ws.responseVariants == [] && ws.responseNameArms == []))
  {
  }

  /** `generate_method`: pushes onto the protocol-wide tables and returns what goes into the domain's types. */
  method GenerateMethod(ws: WsOutput, c: Ctx, domain: Domain, kind: MethodKind, m: Method) returns (decls: seq<Decl>)
    modifies ws
    ensures ws.State() == Join(old(ws.State()), MethodOf(c, domain, kind, m).ws)
    ensures decls == MethodOf(c, domain, kind, m).decls
  {
    var out := MethodOf(c, domain, kind, m);
    MethodOfShape(c, domain, kind, m);
    ws.AddMethod(out, kind);
    decls := out.decls;
  }

  lemma MethodsOfStep(c: Ctx, domain: Domain, kind: MethodKind, methods: seq<Method>, i: nat)
    requires i < |methods|
    ensures var before := MethodsOf(c, domain, kind, methods[..i]);
      var out := MethodOf(c, domain, kind, methods[i]);
      MethodsOf(c, domain, kind, methods[..i + 1]) == MethodOut(Join(before.ws, out.ws), before.decls + out.decls)
  {
    assert methods[..i + 1][..i] == methods[..i];
  }

  /** The loop of `generate_domain` over one kind of method; `typeDefs` is the domain's local vector. */
  method GenerateMethods(ws: WsOutput, c: Ctx, domain: Domain, kind: MethodKind, methods: seq<Method>, typeDefs: seq<Decl>)
    returns (typeDefs': seq<Decl>)
    modifies ws
    ensures ws.State() == Join(old(ws.State()), MethodsOf(c, domain, kind, methods).ws)
    ensures typeDefs' == typeDefs + MethodsOf(c, domain, kind, methods).decls
  {
    ghost var start := ws.State();
    typeDefs' := typeDefs;
    for i := 0 to |methods|
      invariant ws.State() == Join(start, MethodsOf(c, domain, kind, methods[..i]).ws)
      invariant typeDefs' == typeDefs + MethodsOf(c, domain, kind, methods[..i]).decls
    {
      ghost var before := MethodsOf(c, domain, kind, methods[..i]);
      ghost var out := MethodOf(c, domain, kind, methods[i]);
      MethodsOfStep(c, domain, kind, methods, i);
      var decls := GenerateMethod(ws, c, domain, kind, methods[i]);
      JoinAssoc(start, before.ws, out.ws);
      DeclsAssoc(typeDefs, before.decls, decls);
      typeDefs' := typeDefs' + decls;
    }
    assert methods[..|methods|] == methods;
  }

  /** `generate_domain` of src/generate.rs. */
  method GenerateDomain(ws: WsOutput, inf: Naming.Inflector, d: Domain)
    modifies ws
    ensures ws.State() == Join(old(ws.State()), DomainOf(inf, d))
  {
    ghost var start := ws.State();
    var c := Ctx(inf, Naming.SnakeCase(inf, d.name));
    ghost var commands := MethodsOf(c, d, Command, d.commands);
    ghost var events := MethodsOf(c, d, Event, d.events);
    var typeDefs := GenerateMethods(ws, c, d, Command, d.commands, []);
    assert typeDefs == commands.decls;
    typeDefs := GenerateMethods(ws, c, d, Event, d.events, typeDefs);
    JoinAssoc(start, commands.ws, events.ws);
    typeDefs := typeDefs + TypeDefsOf(c, d, d.typeDefs);
    var module_ := ModuleDecl(c.domainSnakeCase, Meta(LegacyDeprecation.New(d.deprecated, d.description), d.experimental, d.description), typeDefs);
    ws.AddModule(module_);
    JoinAssoc(start, Join(commands.ws, events.ws), Ws([], [], [], [], [], [], [], [module_]));
  }

  /** `generate_ws`: the tables and modules of all domains, in order. */
  method GenerateWs(inf: Naming.Inflector, domains: seq<Domain>) returns (result: Ws)
    ensures result == WsOf(inf, domains)
    ensures WellFormed(result)
  {
    var ws := new WsOutput();
    for i := 0 to |domains|
      invariant ws.State() == WsOf(inf, domains[..i])
    {
      assert domains[..i + 1][..i] == domains[..i];
      GenerateDomain(ws, inf, domains[i]);
    }
    assert domains[..|domains|] == domains;
    result := ws.State();
    GeneratedTablesWellFormed(inf, domains);
  }
}
