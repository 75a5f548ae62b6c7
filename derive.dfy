/**
 * The `DeserializeCdpCommand` and `DeserializeCdpEvent` derives of
 * cdp-derive/src/lib.rs. From an enum's variants, in declaration order, they build
 * a `match` from a command or event name to the variant that decodes it: one arm
 * per variant with zero or one field, a catch-all arm for a two-field "wildcard"
 * variant, and `Err(params)` (the name is not recognised, the params are handed
 * back untouched) when there is no wildcard.
 *
 * The emitted tokens are modelled by their shape (`Arm`, `Wildcard`, `Bound`,
 * `Impl`); `Dispatch` is what the emitted `match` does at run time.
 */
module Derive {
  import opened Wrappers
  import Decimal

  // ---------------------------------------------------------------------------
  // Input: what syn gives the derive

  datatype Kind = Command | Event

  function KindName(kind: Kind): string {
    match kind
    case Command => "Command"
    case Event => "Event"
  }

  function KindLower(kind: Kind): string {
    match kind
    case Command => "command"
    case Event => "event"
  }

  function KindUpper(kind: Kind): string {
    match kind
    case Command => "COMMAND"
    case Event => "EVENT"
  }

  /** An attribute on a variant. */
  datatype Attr =
    | NameValueStr(ident: string, text: string)  // #[ident = "text"]
    | NameValueOther(ident: string)              // #[ident = <a literal that is not a string>]
    | Word(ident: string)                        // #[ident]
    | List(ident: string)                        // #[ident(...)]

  /** A field: named in a struct variant, unnamed in a tuple variant. */
  datatype Field = Field(ident: Option<string>, ty: string)

  datatype VariantData = UnitData | TupleData(fields: seq<Field>) | StructData(fields: seq<Field>)

  datatype Variant = Variant(ident: string, attrs: seq<Attr>, data: VariantData)

  datatype Body = EnumBody(variants: seq<Variant>) | StructBody

  /** The derive input; `lifetimes` are the enum's lifetime names without their leading quote. */
  datatype Input = Input(ident: string, lifetimes: seq<string>, wherePredicates: seq<string>, body: Body)

  function FieldsOf(data: VariantData): seq<Field> {
    if data.UnitData? then [] else data.fields
  }

  /** The path `Enum::Variant` the arms construct. */
  function Ctor(enumIdent: string, variantIdent: string): string {
    enumIdent + "::" + variantIdent
  }

  // ---------------------------------------------------------------------------
  // Errors: each is the message the derive panics with

  datatype DeriveError =
    | NotAnEnum
    | WildcardNotLast(kind: Kind)
    | MissingUnitName(ctor: string, kind: Kind)
    | WrongFieldCount(ctor: string, count: nat)
    | MultipleAttrs(target: string)
    | AttrForm

  function Message(e: DeriveError): string {
    match e
    case NotAnEnum => "expected an enum definition"
    case WildcardNotLast(kind) =>
      "any 'wildcard' " + KindLower(kind) + " variant (with 2 fields) must come last in the enumeration"
    case MissingUnitName(ctor, kind) =>
      "unit variant `" + ctor + "` is missing a #[cdp = \"...\"] attribute to specify the " + KindLower(kind) + " name"
    case WrongFieldCount(ctor, n) =>
      "expected 0, 1, or 2 fields on " + ctor + ", but found " + Decimal.NatToString(n)
    case MultipleAttrs(target) => "multiple `cdp` attributes attached to `" + target + "`"
    case AttrForm => "`cdp` attribute must be used in #[cdp = \"...\"] form"
  }

  // ---------------------------------------------------------------------------
  // extract_method_name_from_attrs

  const CDP := "cdp"

  /** The attribute loop, started with `found` already extracted, over `attrs`. */
  function MethodNameFrom(target: string, attrs: seq<Attr>, found: Option<string>): Result<Option<string>, DeriveError>
    decreases |attrs|
  {
    if attrs == [] then Ok(found)
    else if attrs[0].ident != CDP then MethodNameFrom(target, attrs[1..], found)
    else if !attrs[0].NameValueStr? then Err(AttrForm)
    else if found.Some? then Err(MultipleAttrs(target))
    else MethodNameFrom(target, attrs[1..], Some(attrs[0].text))
  }

  function MethodName(target: string, attrs: seq<Attr>): Result<Option<string>, DeriveError> {
    MethodNameFrom(target, attrs, None)
  }

  /** The attributes named `cdp`, in order; every other attribute is ignored. */
  function CdpAttrs(attrs: seq<Attr>): (r: seq<Attr>)
    ensures forall a :: a in r ==> a in attrs && a.ident == CDP
    ensures forall a :: a in attrs && a.ident == CDP ==> a in r
  {
    if attrs == [] then []
    else (if attrs[0].ident == CDP then [attrs[0]] else []) + CdpAttrs(attrs[1..])
  }

  /** Every `cdp` attribute has the `#[cdp = "..."]` form, and there is at most one, counting one already found. */
  predicate CdpAttrsAccepted(attrs: seq<Attr>, found: Option<string>) {
    var cdp := CdpAttrs(attrs);
    (forall a :: a in cdp ==> a.NameValueStr?) && |cdp| + (if found.Some? then 1 else 0) <= 1
  }

  /**
   * The loop succeeds exactly when every `cdp` attribute has the `#[cdp = "..."]`
   * form and there is at most one (counting one already found), and it then
   * yields that one's text.
   */
  lemma {:induction false} MethodNameFromSpec(target: string, attrs: seq<Attr>, found: Option<string>)
    ensures MethodNameFrom(target, attrs, found).Ok? <==> CdpAttrsAccepted(attrs, found)
    ensures var cdp := CdpAttrs(attrs);
      MethodNameFrom(target, attrs, found).Ok? ==>
        MethodNameFrom(target, attrs, found).value == if cdp == [] then found else Some(cdp[0].text)
    decreases |attrs|
  {
    if attrs != [] {
      var rest := attrs[1..];
      assert attrs == [attrs[0]] + rest;
      if attrs[0].ident != CDP {
        MethodNameFromSpec(target, rest, found);
      } else if attrs[0].NameValueStr? && found.None? {
        MethodNameFromSpec(target, rest, Some(attrs[0].text));
      }
    }
  }

  /** `extract_method_name_from_attrs`: a loop that records the first `cdp` name and rejects a second. */
  method ExtractMethodName(target: string, attrs: seq<Attr>) returns (r: Result<Option<string>, DeriveError>)
    ensures r == MethodName(target, attrs)
  {
    var found: Option<string> := None;
    var i := 0;
    while i < |attrs|
      invariant 0 <= i <= |attrs|
      invariant MethodNameFrom(target, attrs[i..], found) == MethodName(target, attrs)
    {
      assert attrs[i..][1..] == attrs[i + 1..];
      var a := attrs[i];
      if a.NameValueStr? {
        if a.ident == CDP {
          if found.None? {
            found := Some(a.text);
          } else {
            return Err(MultipleAttrs(target));
          }
        }
      } else if a.ident == CDP {
        return Err(AttrForm);
      }
      i := i + 1;
    }
    return Ok(found);
  }

  // ---------------------------------------------------------------------------
  // generate_cdp_deserialize_impl_generics

  /** The longest lifetime name, or 0 for none. */
  function MaxLength(names: seq<string>): (m: nat)
    ensures forall i :: 0 <= i < |names| ==> |names[i]| <= m
    ensures names == [] ==> m == 0
    ensures names != [] ==> exists i :: 0 <= i < |names| && |names[i]| == m
  {
    if names == [] then 0
    else
      var rest := MaxLength(names[1..]);
      assert forall i :: 1 <= i < |names| ==> names[i] == names[1..][i - 1];
      if |names[0]| >= rest then |names[0]| else rest
  }

  function Underscores(n: nat): (s: string)
    ensures |s| == n && forall i :: 0 <= i < n ==> s[i] == '_'
  {
    seq(n, _ => '_')
  }

  datatype Generics = Generics(prefix: string, deLifetime: string, strLifetime: string, quantification: seq<string>)

  /**
   * The lifetimes the derive introduces, `'<prefix>de` and `'<prefix>a`, are
   * longer than (hence distinct from) every lifetime the enum declares; the
   * impl quantifies over the new `'de` ahead of the enum's own lifetimes.
   */
  function GenericsOf(lifetimes: seq<string>): (g: Generics)
    ensures forall i :: 0 <= i < |lifetimes| ==>
      && |"'" + lifetimes[i]| < |g.deLifetime| && "'" + lifetimes[i] != g.deLifetime
      && |"'" + lifetimes[i]| < |g.strLifetime| && "'" + lifetimes[i] != g.strLifetime
    ensures |g.quantification| == |lifetimes| + 1 && g.quantification[0] == g.deLifetime
    ensures forall i :: 0 <= i < |lifetimes| ==> g.quantification[i + 1] == "'" + lifetimes[i]
    ensures forall i :: 0 <= i < |g.prefix| ==> g.prefix[i] == '_'
  {
    var prefix := Underscores(MaxLength(lifetimes));
    var de := "'" + prefix + "de";
    Generics(prefix, de, "'" + prefix + "a", [de] + seq(|lifetimes|, i requires 0 <= i < |lifetimes| => "'" + lifetimes[i]))
  }

  // ---------------------------------------------------------------------------
  // generate_cdp_deserialize_impl_arm

  /** What follows the constructor when a unit arm rebuilds its variant. */
  datatype Suffix = NoSuffix | Parens | Braces

  function SuffixOf(data: VariantData): Suffix {
    match data
    case UnitData => NoSuffix
    case TupleData(_) => Parens
    case StructData(_) => Braces
  }

  /** What an arm matches: a string literal, or `<T as cdp::Cdp{Kind}>::{KIND}_NAME` of the field type. */
  datatype Pattern = Literal(name: string) | NameConst(paramsType: string)

  /**
   * What an arm builds from the params: a unit form after they decode as
   * `cdp::Empty`, or the variant around the decoded field.
   */
  datatype Build = UnitBuild(ctor: string, suffix: Suffix) | FieldBuild(ctor: string, fieldIdent: Option<string>)

  datatype Arm = Arm(pattern: Pattern, build: Build)

  /** The catch-all arm: the name through `From<&str>`, the params decoded; struct form when both fields are named. */
  datatype Wildcard = Wildcard(ctor: string, fieldIdents: Option<(string, string)>)

  /** A where-clause predicate the derive adds. */
  datatype Bound =
    | DeserializeBound(ty: string, kindTrait: Option<Kind>, deLifetime: string)
    | FromStrBound(ty: string, strLifetime: string)

  /** The three accumulators the variant loop threads through: `match_arms`, `maybe_wildcard_arm`, `new_predicates`. */
  datatype ArmState = ArmState(arms: seq<Arm>, wildcard: Option<Wildcard>, predicates: seq<Bound>)

  predicate IsWildcard(v: Variant) {
    |FieldsOf(v.data)| == 2
  }

  /** One step of the variant loop. */
  function ArmStep(kind: Kind, enumIdent: string, g: Generics, s: ArmState, v: Variant): Result<ArmState, DeriveError> {
    if s.wildcard.Some? then Err(WildcardNotLast(kind))
    else
      var ctor := Ctor(enumIdent, v.ident);
      var name :- MethodName(ctor, v.attrs);
      var fields := FieldsOf(v.data);
      if |fields| == 0 then
        if name.None? then Err(MissingUnitName(ctor, kind))
        else Ok(s.(arms := s.arms + [Arm(Literal(name.value), UnitBuild(ctor, SuffixOf(v.data)))]))
      else if |fields| == 1 then
        var pattern := if name.Some? then Literal(name.value) else NameConst(fields[0].ty);
        var kindTrait := if name.Some? then None else Some(kind);
        Ok(s.(arms := s.arms + [Arm(pattern, FieldBuild(ctor, fields[0].ident))],
              predicates := s.predicates + [DeserializeBound(fields[0].ty, kindTrait, g.deLifetime)]))
      else if |fields| == 2 then
        var idents := if fields[0].ident.Some? && fields[1].ident.Some? then Some((fields[0].ident.value, fields[1].ident.value)) else None;
        Ok(s.(wildcard := Some(Wildcard(ctor, idents)),
              predicates := s.predicates + [FromStrBound(fields[0].ty, g.strLifetime), DeserializeBound(fields[1].ty, None, g.deLifetime)]))
      else Err(WrongFieldCount(ctor, |fields|))
  }

  /** The variant loop from state `s`, stopping at the first error as `?` does. */
  function ArmsFrom(kind: Kind, enumIdent: string, g: Generics, s: ArmState, vs: seq<Variant>): Result<ArmState, DeriveError>
    decreases |vs|
  {
    if vs == [] then Ok(s)
    else
      var s' :- ArmStep(kind, enumIdent, g, s, vs[0]);
      ArmsFrom(kind, enumIdent, g, s', vs[1..])
  }

  // ---------------------------------------------------------------------------
  // generate_cdp_deserialize_impl

  /** The catch-all arm: the wildcard's, or `_ => Err(params)`. */
  datatype Fallback = WildcardArm(wildcard: Wildcard) | Decline

  /** The where clause: the enum's own predicates followed by the new ones, or none when both are empty. */
  datatype Impl = Impl(
    constIdent: string,
    traitName: string,
    fnName: string,
    enumIdent: string,
    generics: Generics,
    arms: seq<Arm>,
    fallback: Fallback,
    whereClause: Option<(seq<string>, seq<Bound>)>)

  function ImplOf(kind: Kind, input: Input, g: Generics, s: ArmState): Impl {
    Impl(
      "_IMPL_DESERIALIZE_CDP_" + KindUpper(kind) + "_FOR_" + input.ident,
      "DeserializeCdp" + KindName(kind),
      "deserialize_" + KindLower(kind),
      input.ident,
      g,
      s.arms,
      if s.wildcard.Some? then WildcardArm(s.wildcard.value) else Decline,
      if input.wherePredicates == [] && s.predicates == [] then None else Some((input.wherePredicates, s.predicates)))
  }

  function DeriveOf(kind: Kind, input: Input): Result<Impl, DeriveError> {
    var g := GenericsOf(input.lifetimes);
    match input.body
    case StructBody => Err(NotAnEnum)
    case EnumBody(variants) =>
      var s :- ArmsFrom(kind, input.ident, g, ArmState([], None, []), variants);
      Ok(ImplOf(kind, input, g, s))
  }

  /** The accumulators `generate_cdp_deserialize_impl_arm` pushes into. */
  class ArmSink {
    var matchArms: seq<Arm>
    var maybeWildcardArm: Option<Wildcard>
    var newPredicates: seq<Bound>

    function State(): ArmState
      reads this
    {
      ArmState(matchArms, maybeWildcardArm, newPredicates)
    }

    constructor ()
      ensures State() == ArmState([], None, [])
    {
      matchArms := [];
      maybeWildcardArm := None;
      newPredicates := [];
    }
  }

  /** `generate_cdp_deserialize_impl_arm`: nothing is pushed when it fails. */
  method GenerateArm(kind: Kind, enumIdent: string, g: Generics, v: Variant, sink: ArmSink) returns (r: Result<(), DeriveError>)
    modifies sink
    ensures r.Ok? <==> ArmStep(kind, enumIdent, g, old(sink.State()), v).Ok?
    ensures r.Err? ==> r.error == ArmStep(kind, enumIdent, g, old(sink.State()), v).error && sink.State() == old(sink.State())
    ensures r.Ok? ==> sink.State() == ArmStep(kind, enumIdent, g, old(sink.State()), v).value
  {
    if sink.maybeWildcardArm.Some? {
      return Err(WildcardNotLast(kind));
    }
    var ctor := Ctor(enumIdent, v.ident);
    var maybeName := ExtractMethodName(ctor, v.attrs);
    if maybeName.Err? {
      return Err(maybeName.error);
    }
    var name := maybeName.value;
    var fields := FieldsOf(v.data);
    if |fields| == 0 {
      if name.None? {
        return Err(MissingUnitName(ctor, kind));
      }
      sink.matchArms := sink.matchArms + [Arm(Literal(name.value), UnitBuild(ctor, SuffixOf(v.data)))];
      return Ok(());
    } else if |fields| == 1 {
      var pattern, kindTrait;
      if name.Some? {
        pattern, kindTrait := Literal(name.value), None;
      } else {
        pattern, kindTrait := NameConst(fields[0].ty), Some(kind);
      }
      sink.matchArms := sink.matchArms + [Arm(pattern, FieldBuild(ctor, fields[0].ident))];
      sink.newPredicates := sink.newPredicates + [DeserializeBound(fields[0].ty, kindTrait, g.deLifetime)];
      return Ok(());
    } else if |fields| == 2 {
      var idents := None;
      if fields[0].ident.Some? && fields[1].ident.Some? {
        idents := Some((fields[0].ident.value, fields[1].ident.value));
      }
      sink.maybeWildcardArm := Some(Wildcard(ctor, idents));
      sink.newPredicates := sink.newPredicates + [FromStrBound(fields[0].ty, g.strLifetime)];
      sink.newPredicates := sink.newPredicates + [DeserializeBound(fields[1].ty, None, g.deLifetime)];
      return Ok(());
    }
    return Err(WrongFieldCount(ctor, |fields|));
  }

  lemma ArmsFromStep(kind: Kind, enumIdent: string, g: Generics, s: ArmState, vs: seq<Variant>)
    requires vs != []
    ensures var step := ArmStep(kind, enumIdent, g, s, vs[0]);
      ArmsFrom(kind, enumIdent, g, s, vs) == if step.Err? then Err(step.error) else ArmsFrom(kind, enumIdent, g, step.value, vs[1..])
  {
  }

  /** One step of the variant loop at index `i`, seen from the whole list. */
  lemma ArmsFromAdvance(kind: Kind, enumIdent: string, g: Generics, s: ArmState, vs: seq<Variant>, i: nat)
    requires i < |vs|
    ensures var step := ArmStep(kind, enumIdent, g, s, vs[i]);
      ArmsFrom(kind, enumIdent, g, s, vs[i..]) == if step.Err? then Err(step.error) else ArmsFrom(kind, enumIdent, g, step.value, vs[i + 1..])
  {
    assert vs[i..][0] == vs[i];
    assert vs[i..][1..] == vs[i + 1..];
    ArmsFromStep(kind, enumIdent, g, s, vs[i..]);
  }

  /** `generate_cdp_deserialize_impl`: the variant loop, then the impl around its arms. */
  method GenerateImpl(kind: Kind, input: Input) returns (r: Result<Impl, DeriveError>)
    ensures r == DeriveOf(kind, input)
  {
    var g := GenericsOf(input.lifetimes);
    if input.body.StructBody? {
      return Err(NotAnEnum);
    }
    var variants := input.body.variants;
    ghost var spec := ArmsFrom(kind, input.ident, g, ArmState([], None, []), variants);
    assert DeriveOf(kind, input) == if spec.Err? then Err(spec.error) else Ok(ImplOf(kind, input, g, spec.value));
    var sink := new ArmSink();
    var i := 0;
    while i < |variants|
      invariant 0 <= i <= |variants|
      invariant ArmsFrom(kind, input.ident, g, sink.State(), variants[i..]) == spec
    {
      ArmsFromAdvance(kind, input.ident, g, sink.State(), variants, i);
      var step := GenerateArm(kind, input.ident, g, variants[i], sink);
      if step.Err? {
        return Err(step.error);
      }
      i := i + 1;
    }
    assert variants[i..] == [];
    return Ok(ImplOf(kind, input, g, sink.State()));
  }

  // ---------------------------------------------------------------------------
  // What the derive accepts

  /** A variant the derive accepts wherever it stands: a well-formed name attribute, a name on a unit variant, at most two fields. */
  predicate AcceptedVariant(enumIdent: string, v: Variant) {
    var name := MethodName(Ctor(enumIdent, v.ident), v.attrs);
    && name.Ok?
    && |FieldsOf(v.data)| <= 2
    && (|FieldsOf(v.data)| == 0 ==> name.value.Some?)
  }

  lemma {:induction false} ArmsFromAccepts(kind: Kind, enumIdent: string, g: Generics, s: ArmState, vs: seq<Variant>)
    requires s.wildcard.None?
    ensures ArmsFrom(kind, enumIdent, g, s, vs).Ok? <==>
      && (forall i :: 0 <= i < |vs| ==> AcceptedVariant(enumIdent, vs[i]))
      && (forall i :: 0 <= i < |vs| - 1 ==> !IsWildcard(vs[i]))
    decreases |vs|
  {
    if vs != [] {
      var step := ArmStep(kind, enumIdent, g, s, vs[0]);
      var rest := vs[1..];
      assert forall i :: 1 <= i < |vs| ==> vs[i] == rest[i - 1];
      if step.Ok? {
        if IsWildcard(vs[0]) {
          if rest != [] {
            assert ArmStep(kind, enumIdent, g, step.value, rest[0]).Err?;
          }
        } else {
          ArmsFromAccepts(kind, enumIdent, g, step.value, rest);
        }
      }
    }
  }

  /**
   * The derive succeeds exactly on an enum whose every variant is accepted and
   * whose only two-field variant, if any, is the last.
   */
  lemma DeriveAccepts(kind: Kind, input: Input)
    ensures DeriveOf(kind, input).Ok? <==>
      && input.body.EnumBody?
      && (forall i :: 0 <= i < |input.body.variants| ==> AcceptedVariant(input.ident, input.body.variants[i]))
      && (forall i :: 0 <= i < |input.body.variants| - 1 ==> !IsWildcard(input.body.variants[i]))
  {
    if input.body.EnumBody? {
      ArmsFromAccepts(kind, input.ident, GenericsOf(input.lifetimes), ArmState([], None, []), input.body.variants);
    }
  }

  /** The name a variant is matched by: its attribute's text, if it has one. */
  function VariantName(enumIdent: string, v: Variant): Option<string> {
    var name := MethodName(Ctor(enumIdent, v.ident), v.attrs);
    if name.Ok? then name.value else None
  }

  /** The pattern a non-wildcard variant's arm matches. */
  function PatternFor(enumIdent: string, v: Variant): Pattern {
    match VariantName(enumIdent, v)
    case Some(n) => Literal(n)
    case None => NameConst(if |FieldsOf(v.data)| > 0 then FieldsOf(v.data)[0].ty else "")
  }

  /** The wildcard arm a two-field variant becomes. */
  function WildcardFor(enumIdent: string, v: Variant): Wildcard
    requires IsWildcard(v)
  {
    var fields := FieldsOf(v.data);
    Wildcard(Ctor(enumIdent, v.ident),
      if fields[0].ident.Some? && fields[1].ident.Some? then Some((fields[0].ident.value, fields[1].ident.value)) else None)
  }

  /** `arms` are the arms of the first `|arms|` variants, in order: none of them a wildcard, each matching its name and building it. */
  predicate ArmsFollow(enumIdent: string, arms: seq<Arm>, vs: seq<Variant>) {
    && |arms| <= |vs|
    && forall i :: 0 <= i < |arms| ==>
      && !IsWildcard(vs[i])
      && arms[i].pattern == PatternFor(enumIdent, vs[i])
      && arms[i].build.ctor == Ctor(enumIdent, vs[i].ident)
  }

  lemma ArmsFollowCons(enumIdent: string, arm: Arm, arms: seq<Arm>, vs: seq<Variant>)
    requires vs != [] && !IsWildcard(vs[0])
    requires arm.pattern == PatternFor(enumIdent, vs[0]) && arm.build.ctor == Ctor(enumIdent, vs[0].ident)
    requires ArmsFollow(enumIdent, arms, vs[1..])
    ensures ArmsFollow(enumIdent, [arm] + arms, vs)
  {
    assert forall i :: 1 <= i < |arms| + 1 ==> ([arm] + arms)[i] == arms[i - 1] && vs[i] == vs[1..][i - 1];
  }

  /** A successful step either appends the variant's arm or, for a two-field variant, sets the wildcard. */
  lemma ArmStepShape(kind: Kind, enumIdent: string, g: Generics, s: ArmState, v: Variant)
    requires ArmStep(kind, enumIdent, g, s, v).Ok?
    ensures s.wildcard.None?
    ensures var step := ArmStep(kind, enumIdent, g, s, v).value;
      if IsWildcard(v) then
        step.arms == s.arms && step.wildcard == Some(WildcardFor(enumIdent, v))
      else
        && step.wildcard.None?
        && |step.arms| == |s.arms| + 1
        && step.arms[..|s.arms|] == s.arms
        && step.arms[|s.arms|].pattern == PatternFor(enumIdent, v)
        && step.arms[|s.arms|].build.ctor == Ctor(enumIdent, v.ident)
  {
  }

  /** Once the wildcard is set, the loop succeeds only on an empty rest. */
  lemma ArmsFromAfterWildcard(kind: Kind, enumIdent: string, g: Generics, s: ArmState, vs: seq<Variant>)
    requires s.wildcard.Some? && ArmsFrom(kind, enumIdent, g, s, vs).Ok?
    ensures vs == [] && ArmsFrom(kind, enumIdent, g, s, vs).value == s
  {
  }

  /**
   * On success the loop appends one arm per variant, in order, each matching the
   * variant's name and building that variant, and the wildcard arm is the last
   * variant's exactly when that variant has two fields.
   */
  lemma {:induction false} ArmsFromArms(kind: Kind, enumIdent: string, g: Generics, s: ArmState, vs: seq<Variant>)
    requires s.wildcard.None?
    requires ArmsFrom(kind, enumIdent, g, s, vs).Ok?
    ensures var t := ArmsFrom(kind, enumIdent, g, s, vs).value;
      && |s.arms| <= |t.arms|
      && t.arms[..|s.arms|] == s.arms
      && |t.arms| - |s.arms| == |vs| - (if t.wildcard.Some? then 1 else 0)
      && ArmsFollow(enumIdent, t.arms[|s.arms|..], vs)
      && (t.wildcard.Some? <==> vs != [] && IsWildcard(vs[|vs| - 1]))
      && (t.wildcard.Some? ==> t.wildcard.value == WildcardFor(enumIdent, vs[|vs| - 1]))
    decreases |vs|
  {
    if vs != [] {
      ArmsFromStep(kind, enumIdent, g, s, vs);
      ArmStepShape(kind, enumIdent, g, s, vs[0]);
      var step := ArmStep(kind, enumIdent, g, s, vs[0]).value;
      var rest := vs[1..];
      var t := ArmsFrom(kind, enumIdent, g, s, vs).value;
      assert t == ArmsFrom(kind, enumIdent, g, step, rest).value;
      if IsWildcard(vs[0]) {
        ArmsFromAfterWildcard(kind, enumIdent, g, step, rest);
        assert t.arms[|s.arms|..] == [];
      } else {
        ArmsFromArms(kind, enumIdent, g, step, rest);
        ArmsFromArmsCons(enumIdent, s.arms, step.arms, t, vs);
      }
    }
  }

  /** The inductive step of `ArmsFromArms` for a variant that appends an arm. */
  lemma ArmsFromArmsCons(enumIdent: string, before: seq<Arm>, after: seq<Arm>, t: ArmState, vs: seq<Variant>)
    requires vs != [] && !IsWildcard(vs[0])
    requires |after| == |before| + 1 && after[..|before|] == before
    requires after[|before|].pattern == PatternFor(enumIdent, vs[0]) && after[|before|].build.ctor == Ctor(enumIdent, vs[0].ident)
    requires |after| <= |t.arms| && t.arms[..|after|] == after
    requires |t.arms| - |after| == |vs[1..]| - (if t.wildcard.Some? then 1 else 0)
    requires ArmsFollow(enumIdent, t.arms[|after|..], vs[1..])
    requires t.wildcard.Some? <==> vs[1..] != [] && IsWildcard(vs[1..][|vs[1..]| - 1])
    requires t.wildcard.Some? ==> t.wildcard.value == WildcardFor(enumIdent, vs[1..][|vs[1..]| - 1])
    ensures |before| <= |t.arms| && t.arms[..|before|] == before
    ensures |t.arms| - |before| == |vs| - (if t.wildcard.Some? then 1 else 0)
    ensures ArmsFollow(enumIdent, t.arms[|before|..], vs)
    ensures t.wildcard.Some? <==> IsWildcard(vs[|vs| - 1])
    ensures t.wildcard.Some? ==> t.wildcard.value == WildcardFor(enumIdent, vs[|vs| - 1])
  {
    var arm := after[|before|];
    assert t.arms[..|before|] == after[..|before|];
    assert t.arms[|before|..] == [arm] + t.arms[|after|..];
    ArmsFollowCons(enumIdent, arm, t.arms[|after|..], vs);
    if |vs| > 1 {
      assert vs[|vs| - 1] == vs[1..][|vs[1..]| - 1];
    }
  }

  // ---------------------------------------------------------------------------
  // The generated `deserialize_command` / `deserialize_event`

  /** Whether an arm's pattern equals `name`; `nameOf` gives each type's `COMMAND_NAME` / `EVENT_NAME`. */
  predicate PatternMatches(p: Pattern, nameOf: string -> string, name: string) {
    match p
    case Literal(n) => n == name
    case NameConst(ty) => nameOf(ty) == name
  }

  /** The first arm at or after `from` whose pattern matches. */
  function FirstMatch(arms: seq<Arm>, nameOf: string -> string, name: string, from: nat): (r: Option<nat>)
    requires from <= |arms|
    ensures r.Some? ==> from <= r.value < |arms| && PatternMatches(arms[r.value].pattern, nameOf, name)
    ensures r.Some? ==> forall j :: from <= j < r.value ==> !PatternMatches(arms[j].pattern, nameOf, name)
    ensures r.None? ==> forall j :: from <= j < |arms| ==> !PatternMatches(arms[j].pattern, nameOf, name)
    decreases |arms| - from
  {
    if from == |arms| then None
    else if PatternMatches(arms[from].pattern, nameOf, name) then Some(from)
    else FirstMatch(arms, nameOf, name, from + 1)
  }

  /** Which arm takes a message; every outcome carries the params it was given. */
  datatype Outcome<P> = ArmClaims(index: nat, params: P) | WildcardClaims(name: string, params: P) | Declined(params: P)

  /**
   * The emitted `match name { arms..., fallback }`: the first matching arm wins;
   * otherwise the wildcard takes the name, or the params come back as `Err(params)`.
   */
  function Dispatch<P>(impl: Impl, nameOf: string -> string, name: string, params: P): (r: Outcome<P>)
    ensures r.params == params
    ensures r.Declined? <==> impl.fallback.Decline? && forall j :: 0 <= j < |impl.arms| ==> !PatternMatches(impl.arms[j].pattern, nameOf, name)
    ensures r.ArmClaims? ==> r.index < |impl.arms| && PatternMatches(impl.arms[r.index].pattern, nameOf, name)
    ensures r.ArmClaims? ==> forall j :: 0 <= j < r.index ==> !PatternMatches(impl.arms[j].pattern, nameOf, name)
    ensures r.WildcardClaims? ==> r.name == name && impl.fallback.WildcardArm?
  {
    match FirstMatch(impl.arms, nameOf, name, 0)
    case Some(i) => ArmClaims(i, params)
    case None => if impl.fallback.WildcardArm? then WildcardClaims(name, params) else Declined(params)
  }

  /** A variant that answers to `name`: not the wildcard, and its pattern equals `name`. */
  predicate Answers(enumIdent: string, v: Variant, nameOf: string -> string, name: string) {
    !IsWildcard(v) && PatternMatches(PatternFor(enumIdent, v), nameOf, name)
  }

  /** The derived impl's arms and fallback, in terms of the enum's variants. */
  lemma DerivedArms(kind: Kind, input: Input, impl: Impl)
    requires DeriveOf(kind, input) == Ok(impl)
    ensures input.body.EnumBody?
    ensures var vs := input.body.variants;
      && |impl.arms| == |vs| - (if impl.fallback.WildcardArm? then 1 else 0)
      && ArmsFollow(input.ident, impl.arms, vs)
      && (impl.fallback.WildcardArm? <==> vs != [] && IsWildcard(vs[|vs| - 1]))
      && (impl.fallback.WildcardArm? ==> impl.fallback == WildcardArm(WildcardFor(input.ident, vs[|vs| - 1])))
  {
    var vs := input.body.variants;
    var g := GenericsOf(input.lifetimes);
    var s0 := ArmState([], None, []);
    var res := ArmsFrom(kind, input.ident, g, s0, vs);
    assert res.Ok? && impl == ImplOf(kind, input, g, res.value);
    ArmsFromArms(kind, input.ident, g, s0, vs);
    assert res.value.arms[|s0.arms|..] == res.value.arms;
  }

  /** Dispatch over arms that follow the variants, in terms of the variants. */
  lemma DispatchFollows<P>(enumIdent: string, vs: seq<Variant>, impl: Impl, nameOf: string -> string, name: string, params: P)
    requires |impl.arms| == |vs| - (if impl.fallback.WildcardArm? then 1 else 0)
    requires ArmsFollow(enumIdent, impl.arms, vs)
    requires impl.fallback.WildcardArm? <==> vs != [] && IsWildcard(vs[|vs| - 1])
    ensures var r := Dispatch(impl, nameOf, name, params);
      && (r.ArmClaims? ==>
            && r.index < |vs|
            && Answers(enumIdent, vs[r.index], nameOf, name)
            && impl.arms[r.index].build.ctor == Ctor(enumIdent, vs[r.index].ident)
            && forall j :: 0 <= j < r.index ==> !Answers(enumIdent, vs[j], nameOf, name))
      && (r.WildcardClaims? ==> forall j :: 0 <= j < |vs| ==> !Answers(enumIdent, vs[j], nameOf, name))
      && (r.Declined? <==> forall j :: 0 <= j < |vs| ==> !IsWildcard(vs[j]) && !Answers(enumIdent, vs[j], nameOf, name))
  {
    assert forall j :: 0 <= j < |impl.arms| ==>
      (PatternMatches(impl.arms[j].pattern, nameOf, name) <==> Answers(enumIdent, vs[j], nameOf, name));
    if impl.fallback.WildcardArm? {
      assert !Answers(enumIdent, vs[|vs| - 1], nameOf, name);
    }
  }

  /**
   * In terms of the enum's variants: a message goes to the first variant that
   * answers to its name; failing that, to the wildcard if the enum ends in one;
   * failing that, it is declined with its params untouched.
   */
  lemma DerivedDispatch<P>(kind: Kind, input: Input, impl: Impl, nameOf: string -> string, name: string, params: P)
    requires DeriveOf(kind, input) == Ok(impl)
    ensures input.body.EnumBody?
    ensures var vs := input.body.variants;
      var r := Dispatch(impl, nameOf, name, params);
      && (r.ArmClaims? ==>
            && r.index < |vs|
            && Answers(input.ident, vs[r.index], nameOf, name)
            && impl.arms[r.index].build.ctor == Ctor(input.ident, vs[r.index].ident)
            && forall j :: 0 <= j < r.index ==> !Answers(input.ident, vs[j], nameOf, name))
      && (r.WildcardClaims? ==>
            && vs != [] && IsWildcard(vs[|vs| - 1])
            && impl.fallback == WildcardArm(WildcardFor(input.ident, vs[|vs| - 1]))
            && forall j :: 0 <= j < |vs| ==> !Answers(input.ident, vs[j], nameOf, name))
      && (r.Declined? <==> forall j :: 0 <= j < |vs| ==> !IsWildcard(vs[j]) && !Answers(input.ident, vs[j], nameOf, name))
  {
    DerivedArms(kind, input, impl);
    DispatchFollows(input.ident, input.body.variants, impl, nameOf, name, params);
  }
}
