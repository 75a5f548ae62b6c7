/**
 * How both code generators (cdp/src/generate.rs and the older src/generate.rs)
 * turn protocol names into Rust identifiers and paths.
 *
 * The inflector crate's `to_snake_case` and `to_pascal_case` are left
 * uninterpreted: they are the two functions of an `Inflector` value, and only the
 * rewrites the generators apply around them are modelled.
 */
module Naming {
  import opened Wrappers
  import Text

  /** The inflector's two case conversions. */
  datatype Inflector = Inflector(toSnakeCase: string -> string, toPascalCase: string -> string)

  const NEGATIVE: string := "Negative"

  /** `replace_unsafe_chars`: a leading '-' (the only one) becomes "Negative". */
  function ReplaceUnsafeChars(s: string): (r: string)
    ensures |s| > 0 && s[0] == '-' ==> r == NEGATIVE + s[1..]
    ensures !(|s| > 0 && s[0] == '-') ==> r == s
    ensures |r| == 0 || r[0] != '-'
  {
    if |s| > 0 && s[0] == '-' then NEGATIVE + s[1..] else s
  }

  /** `snake_case`: the inflected name, with the Rust keywords "type" and "override" replaced. */
  function SnakeCase(inf: Inflector, s: string): (r: string)
    ensures r != "type" && r != "override"
    ensures var raw := inf.toSnakeCase(ReplaceUnsafeChars(s));
      && (raw == "type" ==> r == "ty")
      && (raw == "override" ==> r == "overridden")
      && (raw != "type" && raw != "override" ==> r == raw)
  {
    var raw := inf.toSnakeCase(ReplaceUnsafeChars(s));
    if raw == "type" then "ty"
    else if raw == "override" then "overridden"
    else raw
  }

  /** `pascal_case`: the name is made snake case first, then Pascal case. */
  function PascalCase(inf: Inflector, s: string): string {
    inf.toPascalCase(inf.toSnakeCase(ReplaceUnsafeChars(s)))
  }

  /** The leading-dash rewrite is what both conversions see. */
  lemma LeadingDashReadsNegative(inf: Inflector, rest: string)
    ensures PascalCase(inf, "-" + rest) == inf.toPascalCase(inf.toSnakeCase(NEGATIVE + rest))
    ensures inf.toSnakeCase(NEGATIVE + rest) !in {"type", "override"} ==> SnakeCase(inf, "-" + rest) == inf.toSnakeCase(NEGATIVE + rest)
  {
    assert ("-" + rest)[1..] == rest;
  }

  // ---------------------------------------------------------------------------
  // References

  /** The ASCII letters and digits, which the regex class `[[:alnum:]]` denotes. */
  predicate IsAlnum(c: char) {
    ('0' <= c <= '9') || ('a' <= c <= 'z') || ('A' <= c <= 'Z')
  }

  predicate AlnumWord(s: string) {
    |s| > 0 && forall i :: 0 <= i < |s| ==> IsAlnum(s[i])
  }

  /** `^([[:alnum:]]+)\.([[:alnum:]]+)$`: a reference into another domain, split into domain and item. */
  function SplitQualified(target: string): (r: Option<(string, string)>)
    ensures r.Some? ==> target == r.value.0 + "." + r.value.1
    ensures r.Some? ==> AlnumWord(r.value.0) && AlnumWord(r.value.1)
  {
    var k := Text.FirstIndexOf(target, '.');
    if k < |target| && AlnumWord(target[..k]) && AlnumWord(target[k + 1..]) then
      assert target == target[..k] + "." + target[k + 1..];
      Some((target[..k], target[k + 1..]))
    else None
  }

  /** Every `Domain.Item` of two alphanumeric words is recognised, with those two words. */
  lemma SplitQualifiedComplete(domain: string, item: string)
    requires AlnumWord(domain) && AlnumWord(item)
    ensures SplitQualified(domain + "." + item) == Some((domain, item))
  {
    var t := domain + "." + item;
    assert forall i :: 0 <= i < |domain| ==> t[i] == domain[i];
    Text.FirstIndexOfAt(t, '.', |domain|);
    assert t[..|domain|] == domain;
    assert t[|domain| + 1..] == item;
  }

  /** A name without a dot is never a reference into another domain. */
  lemma SplitQualifiedNeedsDot(target: string)
    requires forall i :: 0 <= i < |target| ==> target[i] != '.'
    ensures SplitQualified(target) == None
  {
  }

  /** `fully_qualified_ident`: "::domain::Item". */
  function FullyQualified(domainSnakeCase: string, item: string): string {
    "::" + domainSnakeCase + "::" + item
  }

  /**
   * `resolve_reference` of cdp/src/generate.rs: `Domain.Item` names the item of
   * that domain, anything else an item of the current domain. (Every caller passes
   * the Pascal case of `target` as the item name, so it is computed here.)
   */
  function ResolveReference(inf: Inflector, domainSnakeCase: string, target: string): (path: string)
    ensures SplitQualified(target).None? ==> path == FullyQualified(domainSnakeCase, PascalCase(inf, target))
    ensures SplitQualified(target).Some? ==>
      path == FullyQualified(SnakeCase(inf, SplitQualified(target).value.0), PascalCase(inf, SplitQualified(target).value.1))
  {
    match SplitQualified(target)
    case None => FullyQualified(domainSnakeCase, PascalCase(inf, target))
    case Some((domain, item)) => FullyQualified(SnakeCase(inf, domain), PascalCase(inf, item))
  }

  /** A qualified reference leaves the current domain for the named one. */
  lemma ResolveQualified(inf: Inflector, domainSnakeCase: string, domain: string, item: string)
    requires AlnumWord(domain) && AlnumWord(item)
    ensures ResolveReference(inf, domainSnakeCase, domain + "." + item) == FullyQualified(SnakeCase(inf, domain), PascalCase(inf, item))
  {
    SplitQualifiedComplete(domain, item);
  }

  /** The type expression the older generator writes for a reference. */
  datatype ReferenceTokens =
    | BoxedSelf(item: string)
    | WsPath(domainSnakeCase: string, item: string)

  /** `resolve_reference` of src/generate.rs: a reference to the enclosing type is boxed and left unqualified. */
  function ResolveReferenceLegacy(inf: Inflector, domainSnakeCase: string, parentPascalCase: string, target: string): (r: ReferenceTokens)
    ensures PascalCase(inf, target) == parentPascalCase ==> r == BoxedSelf(parentPascalCase)
    ensures PascalCase(inf, target) != parentPascalCase ==> r.WsPath?
  {
    var targetPascalCase := PascalCase(inf, target);
    if targetPascalCase == parentPascalCase then BoxedSelf(targetPascalCase)
    else
      match SplitQualified(target)
      case None => WsPath(domainSnakeCase, targetPascalCase)
      case Some((domain, item)) => WsPath(SnakeCase(inf, domain), PascalCase(inf, item))
  }

  /** Outside self-references the two generators resolve to the same domain and item, under `::ws` in the older one. */
  lemma LegacyResolvesAlike(inf: Inflector, domainSnakeCase: string, parentPascalCase: string, target: string)
    requires PascalCase(inf, target) != parentPascalCase
    ensures var r := ResolveReferenceLegacy(inf, domainSnakeCase, parentPascalCase, target);
      FullyQualified(r.domainSnakeCase, r.item) == ResolveReference(inf, domainSnakeCase, target)
  {
  }

  /** The self-reference check comes first, even for a reference written `Domain.Item`. */
  lemma LegacySelfReferenceFirst(inf: Inflector, domainSnakeCase: string, domain: string, item: string)
    requires AlnumWord(domain) && AlnumWord(item)
    ensures var parent := PascalCase(inf, domain + "." + item);
      ResolveReferenceLegacy(inf, domainSnakeCase, parent, domain + "." + item) == BoxedSelf(parent)
  {
  }

  // ---------------------------------------------------------------------------
  // Synthesized names

  /** `combine_parent_field_idents`: the name of a type declared for a field is parent ++ Pascal(field). */
  function CombineParentFieldIdents(inf: Inflector, parentPascalCase: string, fieldName: Option<string>): (r: string)
    ensures fieldName.None? ==> r == parentPascalCase
    ensures fieldName.Some? ==> r == parentPascalCase + PascalCase(inf, fieldName.value)
  {
    match fieldName
    case None => parentPascalCase
    case Some(name) => parentPascalCase + PascalCase(inf, name)
  }

  /** Under one parent, distinct synthesized names come from fields with distinct Pascal names. */
  lemma CombinedNamesDetermineField(inf: Inflector, parent: string, a: string, b: string)
    requires CombineParentFieldIdents(inf, parent, Some(a)) == CombineParentFieldIdents(inf, parent, Some(b))
    ensures PascalCase(inf, a) == PascalCase(inf, b)
  {
    Text.DropPrefix(parent, PascalCase(inf, a), PascalCase(inf, b));
  }
}
