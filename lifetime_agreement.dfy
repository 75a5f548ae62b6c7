/**
 * The two halves of cdp/src/generate.rs agree on lifetimes: a type definition's
 * generated type carries `'a` (the flag `generate_type_expr_impl` computes)
 * exactly when its fully qualified path is in the set that
 * `generate_uses_lifetime_set` computes by searching the reference graph.
 *
 * This holds under two conditions on the protocol, stated as hypotheses: no two
 * units of the traversal share a fully qualified name, and a reference whose Pascal
 * case equals its enclosing type's name (which neither half follows) does name
 * that enclosing type.
 */
module LifetimeAgreement {
  import opened Schema
  import Naming
  import opened Lifetimes
  import Generator

  /** Every reference in `ty` that the traversal treats as a self-reference names the enclosing type. */
  predicate SelfReferencesResolveHome(inf: Naming.Inflector, domainSnakeCase: string, parentPascalCase: string, ty: Type)
    decreases ty
  {
    match ty
    case Reference(target) =>
      Naming.PascalCase(inf, target) == parentPascalCase ==>
        Naming.ResolveReference(inf, domainSnakeCase, target) == Naming.FullyQualified(domainSnakeCase, parentPascalCase)
    case Array(item, _, _) => SelfReferencesResolveHome(inf, domainSnakeCase, parentPascalCase, item.ty)
    case Object(fields) => forall i :: 0 <= i < |fields| ==> SelfReferencesResolveHome(inf, domainSnakeCase, parentPascalCase, fields[i].ty)
    case _ => true
  }

  /** No two units of the traversal have the same node. */
  predicate UniqueUnitNodes(units: seq<Unit>) {
    forall i, j :: 0 <= i < j < |units| ==>
      ParentNode(units[i].domainSnakeCase, units[i].parentPascalCase) != ParentNode(units[j].domainSnakeCase, units[j].parentPascalCase)
  }

  /** `s` is the set of items reachable from the string node. */
  ghost predicate IsLifetimeSet(edges: seq<Edge>, s: set<string>) {
    forall p :: p in s <==> Reachable(edges, StringNode, ItemNode(p))
  }

  // ---------------------------------------------------------------------------
  // Edges of fields

  lemma {:induction false} FieldsEdgesMember(inf: Naming.Inflector, d: string, parent: string, fields: seq<Field>, e: Edge)
    requires e in FieldsEdges(inf, d, parent, fields)
    ensures exists i :: 0 <= i < |fields| && e in TypeEdges(inf, d, parent, fields[i].ty)
    decreases |fields|
  {
    var n := |fields|;
    if e !in TypeEdges(inf, d, parent, fields[n - 1].ty) {
      FieldsEdgesMember(inf, d, parent, fields[..n - 1], e);
      var i :| 0 <= i < n - 1 && e in TypeEdges(inf, d, parent, fields[..n - 1][i].ty);
      assert fields[..n - 1][i] == fields[i];
    }
  }

  lemma {:induction false} FieldEdgesIncluded(inf: Naming.Inflector, d: string, parent: string, fields: seq<Field>, i: nat, e: Edge)
    requires i < |fields| && e in TypeEdges(inf, d, parent, fields[i].ty)
    ensures e in FieldsEdges(inf, d, parent, fields)
    decreases |fields|
  {
    var n := |fields|;
    if i < n - 1 {
      assert fields[..n - 1][i] == fields[i];
      FieldEdgesIncluded(inf, d, parent, fields[..n - 1], i, e);
    }
  }

  // ---------------------------------------------------------------------------
  // The two directions, for one type

  /** An edge of `ty` whose source holds a borrowed string makes `ty` carry the lifetime. */
  lemma {:induction false} FlagFromEdge(inf: Naming.Inflector, edges: seq<Edge>, s: set<string>, d: string, parent: string, ty: Type, e: Edge)
    requires IsLifetimeSet(edges, s)
    requires e in TypeEdges(inf, d, parent, ty) && Reachable(edges, StringNode, e.0)
    ensures Generator.UsesLifetime(Generator.Ctx(inf, d, s), ty)
    decreases ty
  {
    match ty
    case Array(item, _, _) =>
      FlagFromEdge(inf, edges, s, d, parent, item.ty, e);
    case Object(fields) =>
      FieldsEdgesMember(inf, d, parent, fields, e);
      var i :| 0 <= i < |fields| && e in TypeEdges(inf, d, parent, fields[i].ty);
      assert fields[i] in fields;
      FlagFromEdge(inf, edges, s, d, parent, fields[i].ty, e);
    case _ =>
  }

  /** A type that carries the lifetime makes its parent reachable from the string node. */
  lemma {:induction false} ReachableFromFlag(inf: Naming.Inflector, edges: seq<Edge>, s: set<string>, d: string, parent: string, ty: Type)
    requires IsLifetimeSet(edges, s)
    requires forall e :: e in TypeEdges(inf, d, parent, ty) ==> e in edges
    requires SelfReferencesResolveHome(inf, d, parent, ty)
    requires Generator.UsesLifetime(Generator.Ctx(inf, d, s), ty)
    ensures Reachable(edges, StringNode, ParentNode(d, parent))
    decreases ty
  {
    match ty
    case String =>
      ReachableSelf(edges, StringNode);
      ReachableStep(edges, StringNode, StringNode, ParentNode(d, parent));
    case Reference(target) =>
      var path := Naming.ResolveReference(inf, d, target);
      if Naming.PascalCase(inf, target) != parent {
        assert (ItemNode(path), ParentNode(d, parent)) in TypeEdges(inf, d, parent, ty);
        ReachableStep(edges, StringNode, ItemNode(path), ParentNode(d, parent));
      }
    case Array(item, _, _) =>
      ReachableFromFlag(inf, edges, s, d, parent, item.ty);
    case Object(fields) =>
      var i :| 0 <= i < |fields| && Generator.UsesLifetime(Generator.Ctx(inf, d, s), fields[i].ty);
      forall e | e in TypeEdges(inf, d, parent, fields[i].ty)
        ensures e in edges
      {
        FieldEdgesIncluded(inf, d, parent, fields, i, e);
      }
      assert fields[i] in fields;
      ReachableFromFlag(inf, edges, s, d, parent, fields[i].ty);
  }

  // ---------------------------------------------------------------------------
  // Locating a type definition among the units

  lemma TypeDefIsDomainUnit(inf: Naming.Inflector, d: Domain, ti: nat)
    requires ti < |d.typeDefs|
    ensures TypeDefUnit(inf, Naming.SnakeCase(inf, d.name), d.typeDefs[ti]) in DomainUnits(inf, d)
  {
    var dsc := Naming.SnakeCase(inf, d.name);
    var ms := MethodUnits(inf, dsc, d.commands + d.events);
    assert DomainUnits(inf, d)[|ms| + ti] == TypeDefUnit(inf, dsc, d.typeDefs[ti]);
  }

  lemma {:induction false} TypeDefIsUnit(inf: Naming.Inflector, domains: seq<Domain>, di: nat, ti: nat)
    requires di < |domains| && ti < |domains[di].typeDefs|
    ensures TypeDefUnit(inf, Naming.SnakeCase(inf, domains[di].name), domains[di].typeDefs[ti]) in AllUnits(inf, domains)
    decreases |domains|
  {
    var n := |domains|;
    var u := TypeDefUnit(inf, Naming.SnakeCase(inf, domains[di].name), domains[di].typeDefs[ti]);
    var front, last := AllUnits(inf, domains[..n - 1]), DomainUnits(inf, domains[n - 1]);
    assert AllUnits(inf, domains) == front + last;
    if di == n - 1 {
      TypeDefIsDomainUnit(inf, domains[di], ti);
      assert u in last;
    } else {
      assert domains[..n - 1][di] == domains[di];
      TypeDefIsUnit(inf, domains[..n - 1], di, ti);
      assert u in front;
    }
  }

  /** Under unique nodes, an edge into a unit's node is an edge of that unit. */
  lemma EdgeIntoUnit(inf: Naming.Inflector, units: seq<Unit>, k: nat, e: Edge)
    requires UniqueUnitNodes(units)
    requires k < |units| && e in UnitsEdges(inf, units)
    requires e.1 == ParentNode(units[k].domainSnakeCase, units[k].parentPascalCase)
    ensures e in UnitEdges(inf, units[k])
  {
    UnitsEdgesMember(inf, units, e);
    var j :| 0 <= j < |units| && e in UnitEdges(inf, units[j]);
    EdgesEndAtParent(inf, units[j].domainSnakeCase, units[j].parentPascalCase, units[j].ty);
  }

  // ---------------------------------------------------------------------------
  // The theorem

  /**
   * A type definition's generated type carries `'a` exactly when the search of the
   * reference graph discovered it.
   */
  lemma TypeDefLifetimeAgreement(inf: Naming.Inflector, domains: seq<Domain>, s: set<string>, di: nat, ti: nat)
    requires di < |domains| && ti < |domains[di].typeDefs|
    requires IsLifetimeSet(GraphEdges(inf, domains), s)
    requires UniqueUnitNodes(AllUnits(inf, domains))
    requires var dsc := Naming.SnakeCase(inf, domains[di].name);
      var t := domains[di].typeDefs[ti];
      SelfReferencesResolveHome(inf, dsc, Naming.PascalCase(inf, t.name), t.ty)
    ensures var dsc := Naming.SnakeCase(inf, domains[di].name);
      var t := domains[di].typeDefs[ti];
      Generator.UsesLifetime(Generator.Ctx(inf, dsc, s), t.ty) <==> Naming.FullyQualified(dsc, Naming.PascalCase(inf, t.name)) in s
  {
    var edges := GraphEdges(inf, domains);
    var units := AllUnits(inf, domains);
    var dsc := Naming.SnakeCase(inf, domains[di].name);
    var t := domains[di].typeDefs[ti];
    var parent := Naming.PascalCase(inf, t.name);
    var node := ParentNode(dsc, parent);
    TypeDefIsUnit(inf, domains, di, ti);
    var k :| 0 <= k < |units| && units[k] == TypeDefUnit(inf, dsc, t);
    if Generator.UsesLifetime(Generator.Ctx(inf, dsc, s), t.ty) {
      forall e | e in TypeEdges(inf, dsc, parent, t.ty)
        ensures e in edges
      {
        UnitEdgesIncluded(inf, units, k, e);
      }
      ReachableFromFlag(inf, edges, s, dsc, parent, t.ty);
    }
    if Naming.FullyQualified(dsc, parent) in s {
      assert Reachable(edges, StringNode, node);
      ReachableByLastEdge(edges, StringNode, node);
      var e :| e in edges && e.1 == node && Reachable(edges, StringNode, e.0);
      EdgeIntoUnit(inf, units, k, e);
      FlagFromEdge(inf, edges, s, dsc, parent, t.ty, e);
    }
  }

  /** What the generator computes from the graph therefore agrees with each type definition's own flag. */
  method GeneratedSetAgrees(inf: Naming.Inflector, domains: seq<Domain>, di: nat, ti: nat) returns (s: set<string>)
    requires di < |domains| && ti < |domains[di].typeDefs|
    requires UniqueUnitNodes(AllUnits(inf, domains))
    requires var dsc := Naming.SnakeCase(inf, domains[di].name);
      var t := domains[di].typeDefs[ti];
      SelfReferencesResolveHome(inf, dsc, Naming.PascalCase(inf, t.name), t.ty)
    ensures var dsc := Naming.SnakeCase(inf, domains[di].name);
      var t := domains[di].typeDefs[ti];
      Generator.UsesLifetime(Generator.Ctx(inf, dsc, s), t.ty) <==> Naming.FullyQualified(dsc, Naming.PascalCase(inf, t.name)) in s
  {
    s := GenerateUsesLifetimeSet(inf, domains);
    TypeDefLifetimeAgreement(inf, domains, s, di, ti);
  }
}
