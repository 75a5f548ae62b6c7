/**
 * `generate_uses_lifetime_set` of cdp/src/generate.rs: which generated types must
 * carry the `'a` lifetime because a borrowed string (`Cow<'a, str>`) sits inside
 * them, directly or through a chain of references.
 *
 * The generator builds a reference graph with one node for "raw string" and one
 * node per fully qualified item, with an edge from every string or referenced
 * item to the item that contains it, and collects every item a depth-first search
 * from the string node discovers. Here nodes are named by their fully qualified
 * path instead of by graph index.
 */
module Lifetimes {
  import opened Schema
  import Naming

  datatype Node = StringNode | ItemNode(path: string)

  type Edge = (Node, Node)

  /** The node of the item `parentPascalCase` of the domain module `domainSnakeCase`. */
  function ParentNode(domainSnakeCase: string, parentPascalCase: string): Node {
    ItemNode(Naming.FullyQualified(domainSnakeCase, parentPascalCase))
  }

  // ---------------------------------------------------------------------------
  // The edges, as a specification

  /**
   * The edges one type contributes inside `parentPascalCase`: a string adds
   * string → parent, a reference to another item adds item → parent, arrays and
   * inline objects are looked into under the same parent, and the other types add
   * nothing.
   */
  function TypeEdges(inf: Naming.Inflector, domainSnakeCase: string, parentPascalCase: string, ty: Type): seq<Edge>
    decreases ty
  {
    match ty
    case String => [(StringNode, ParentNode(domainSnakeCase, parentPascalCase))]
    case Reference(target) =>
      if Naming.PascalCase(inf, target) != parentPascalCase then
        [(ItemNode(Naming.ResolveReference(inf, domainSnakeCase, target)), ParentNode(domainSnakeCase, parentPascalCase))]
      else []
    case Array(item, _, _) => TypeEdges(inf, domainSnakeCase, parentPascalCase, item.ty)
    case Object(fields) => FieldsEdges(inf, domainSnakeCase, parentPascalCase, fields)
    case _ => []
  }

  /** The edges of a list of fields, in order. */
  function FieldsEdges(inf: Naming.Inflector, domainSnakeCase: string, parentPascalCase: string, fields: seq<Field>): seq<Edge>
    decreases fields
  {
    if |fields| == 0 then []
    else
      var last := fields[|fields| - 1];
      FieldsEdges(inf, domainSnakeCase, parentPascalCase, fields[..|fields| - 1]) + TypeEdges(inf, domainSnakeCase, parentPascalCase, last.ty)
  }

  /** Every edge ends at the parent. */
  lemma {:induction false} EdgesEndAtParent(inf: Naming.Inflector, d: string, parent: string, ty: Type)
    ensures forall e :: e in TypeEdges(inf, d, parent, ty) ==> e.1 == ParentNode(d, parent)
    decreases ty
  {
    match ty
    case Array(item, _, _) => EdgesEndAtParent(inf, d, parent, item.ty);
    case Object(fields) => FieldsEndAtParent(inf, d, parent, fields);
    case _ =>
  }

  lemma {:induction false} FieldsEndAtParent(inf: Naming.Inflector, d: string, parent: string, fields: seq<Field>)
    ensures forall e :: e in FieldsEdges(inf, d, parent, fields) ==> e.1 == ParentNode(d, parent)
    decreases fields
  {
    if |fields| > 0 {
      FieldsEndAtParent(inf, d, parent, fields[..|fields| - 1]);
      EdgesEndAtParent(inf, d, parent, fields[|fields| - 1].ty);
    }
  }

  /** The fields of an inline object are looked into exactly as a list of fields. */
  lemma ObjectEdges(inf: Naming.Inflector, d: string, parent: string, fields: seq<Field>)
    ensures TypeEdges(inf, d, parent, Object(fields)) == FieldsEdges(inf, d, parent, fields)
  {
  }

  /**
   * A unit of the traversal: a type definition, or a method whose parameters and
   * returns are traversed together under the method's name (as the fields of one
   * object).
   */
  datatype Unit = Unit(domainSnakeCase: string, parentPascalCase: string, ty: Type)

  function UnitEdges(inf: Naming.Inflector, u: Unit): seq<Edge> {
    TypeEdges(inf, u.domainSnakeCase, u.parentPascalCase, u.ty)
  }

  function MethodUnit(inf: Naming.Inflector, domainSnakeCase: string, m: Method): Unit {
    Unit(domainSnakeCase, Naming.PascalCase(inf, m.name), Object(m.parameters + m.results))
  }

  function TypeDefUnit(inf: Naming.Inflector, domainSnakeCase: string, t: TypeDef): Unit {
    Unit(domainSnakeCase, Naming.PascalCase(inf, t.name), t.ty)
  }

  function MethodUnits(inf: Naming.Inflector, domainSnakeCase: string, methods: seq<Method>): (us: seq<Unit>)
    ensures |us| == |methods|
    ensures forall i :: 0 <= i < |methods| ==> us[i] == MethodUnit(inf, domainSnakeCase, methods[i])
  {
    if |methods| == 0 then []
    else MethodUnits(inf, domainSnakeCase, methods[..|methods| - 1]) + [MethodUnit(inf, domainSnakeCase, methods[|methods| - 1])]
  }

  function TypeDefUnits(inf: Naming.Inflector, domainSnakeCase: string, typeDefs: seq<TypeDef>): (us: seq<Unit>)
    ensures |us| == |typeDefs|
    ensures forall i :: 0 <= i < |typeDefs| ==> us[i] == TypeDefUnit(inf, domainSnakeCase, typeDefs[i])
  {
    if |typeDefs| == 0 then []
    else TypeDefUnits(inf, domainSnakeCase, typeDefs[..|typeDefs| - 1]) + [TypeDefUnit(inf, domainSnakeCase, typeDefs[|typeDefs| - 1])]
  }

  /** A domain's units: its commands, then its events, then its type definitions. */
  function DomainUnits(inf: Naming.Inflector, d: Domain): seq<Unit> {
    var domainSnakeCase := Naming.SnakeCase(inf, d.name);
    MethodUnits(inf, domainSnakeCase, d.commands + d.events) + TypeDefUnits(inf, domainSnakeCase, d.typeDefs)
  }

  function AllUnits(inf: Naming.Inflector, domains: seq<Domain>): seq<Unit> {
    if |domains| == 0 then []
    else AllUnits(inf, domains[..|domains| - 1]) + DomainUnits(inf, domains[|domains| - 1])
  }

  function UnitsEdges(inf: Naming.Inflector, units: seq<Unit>): seq<Edge> {
    if |units| == 0 then []
    else UnitsEdges(inf, units[..|units| - 1]) + UnitEdges(inf, units[|units| - 1])
  }

  /** The reference graph of a whole protocol. */
  function GraphEdges(inf: Naming.Inflector, domains: seq<Domain>): seq<Edge> {
    UnitsEdges(inf, AllUnits(inf, domains))
  }

  lemma {:induction false} UnitsEdgesAppend(inf: Naming.Inflector, a: seq<Unit>, b: seq<Unit>)
    ensures UnitsEdges(inf, a + b) == UnitsEdges(inf, a) + UnitsEdges(inf, b)
    decreases |b|
  {
    if |b| > 0 {
      assert (a + b)[..|a + b| - 1] == a + b[..|b| - 1];
      UnitsEdgesAppend(inf, a, b[..|b| - 1]);
    } else {
      assert a + b == a;
    }
  }

  /** An edge of the graph is an edge of one of its units. */
  lemma {:induction false} UnitsEdgesMember(inf: Naming.Inflector, units: seq<Unit>, e: Edge)
    requires e in UnitsEdges(inf, units)
    ensures exists k :: 0 <= k < |units| && e in UnitEdges(inf, units[k])
    decreases |units|
  {
    var n := |units|;
    if e !in UnitEdges(inf, units[n - 1]) {
      UnitsEdgesMember(inf, units[..n - 1], e);
      var k :| 0 <= k < n - 1 && e in UnitEdges(inf, units[..n - 1][k]);
      assert units[..n - 1][k] == units[k];
    }
  }

  /** Every edge of every unit is an edge of the graph. */
  lemma {:induction false} UnitEdgesIncluded(inf: Naming.Inflector, units: seq<Unit>, k: nat, e: Edge)
    requires k < |units| && e in UnitEdges(inf, units[k])
    ensures e in UnitsEdges(inf, units)
    decreases |units|
  {
    var n := |units|;
    if k < n - 1 {
      assert units[..n - 1][k] == units[k];
      UnitEdgesIncluded(inf, units[..n - 1], k, e);
    }
  }

  lemma ConcatAssoc(x: seq<Edge>, a: seq<Edge>, b: seq<Edge>)
    ensures (x + a) + b == x + (a + b)
  {
  }

  lemma MethodUnitsStep(inf: Naming.Inflector, d: string, methods: seq<Method>, j: nat)
    requires j < |methods|
    ensures UnitsEdges(inf, MethodUnits(inf, d, methods[..j + 1])) == UnitsEdges(inf, MethodUnits(inf, d, methods[..j]))
      + FieldsEdges(inf, d, Naming.PascalCase(inf, methods[j].name), methods[j].parameters + methods[j].results)
  {
    assert methods[..j + 1][..j] == methods[..j];
    var us := MethodUnits(inf, d, methods[..j + 1]);
    assert us[..j] == MethodUnits(inf, d, methods[..j]);
  }

  lemma TypeDefUnitsStep(inf: Naming.Inflector, d: string, typeDefs: seq<TypeDef>, j: nat)
    requires j < |typeDefs|
    ensures UnitsEdges(inf, TypeDefUnits(inf, d, typeDefs[..j + 1])) == UnitsEdges(inf, TypeDefUnits(inf, d, typeDefs[..j]))
      + TypeEdges(inf, d, Naming.PascalCase(inf, typeDefs[j].name), typeDefs[j].ty)
  {
    assert typeDefs[..j + 1][..j] == typeDefs[..j];
    var us := TypeDefUnits(inf, d, typeDefs[..j + 1]);
    assert us[..j] == TypeDefUnits(inf, d, typeDefs[..j]);
  }

  // ---------------------------------------------------------------------------
  // Reachability

  /** `p` walks along edges of `edges`. */
  ghost predicate IsPath(edges: seq<Edge>, p: seq<Node>) {
    |p| >= 1 && forall i :: 0 <= i < |p| - 1 ==> (p[i], p[i + 1]) in edges
  }

  ghost predicate Reachable(edges: seq<Edge>, source: Node, target: Node) {
    exists p :: IsPath(edges, p) && p[0] == source && p[|p| - 1] == target
  }

  lemma ReachableSelf(edges: seq<Edge>, n: Node)
    ensures Reachable(edges, n, n)
  {
    assert IsPath(edges, [n]);
  }

  lemma ReachableStep(edges: seq<Edge>, source: Node, n: Node, m: Node)
    requires Reachable(edges, source, n) && (n, m) in edges
    ensures Reachable(edges, source, m)
  {
    var p :| IsPath(edges, p) && p[0] == source && p[|p| - 1] == n;
    var q := p + [m];
    assert forall i :: 0 <= i < |p| ==> q[i] == p[i];
    assert q[|p| - 1] == n && q[|p|] == m;
    assert IsPath(edges, q);
  }

  /** A node other than the source is reachable exactly when one of its predecessors is. */
  lemma ReachableByLastEdge(edges: seq<Edge>, source: Node, target: Node)
    requires target != source
    ensures Reachable(edges, source, target) <==>
      exists e :: e in edges && e.1 == target && Reachable(edges, source, e.0)
  {
    if Reachable(edges, source, target) {
      var p :| IsPath(edges, p) && p[0] == source && p[|p| - 1] == target;
      var n := |p|;
      var q := p[..n - 1];
      assert IsPath(edges, q);
      assert (p[n - 2], p[n - 1]) in edges;
      assert Reachable(edges, source, p[n - 2]);
    }
    if exists e :: e in edges && e.1 == target && Reachable(edges, source, e.0) {
      var e :| e in edges && e.1 == target && Reachable(edges, source, e.0);
      ReachableStep(edges, source, e.0, target);
    }
  }

  /** A node set that holds the source and is closed under edges holds everything reachable. */
  lemma ClosedHoldsReachable(edges: seq<Edge>, source: Node, closed: set<Node>, target: Node)
    requires source in closed
    requires forall i :: 0 <= i < |edges| && edges[i].0 in closed ==> edges[i].1 in closed
    requires Reachable(edges, source, target)
    ensures target in closed
  {
    var p :| IsPath(edges, p) && p[0] == source && p[|p| - 1] == target;
    var k := 0;
    while k < |p| - 1
      invariant 0 <= k < |p|
      invariant p[k] in closed
    {
      var i :| 0 <= i < |edges| && edges[i] == (p[k], p[k + 1]);
      k := k + 1;
    }
  }

  // ---------------------------------------------------------------------------
  // The generator's graph and search

  /** The graph the generator builds: its nodes and its edges in insertion order. */
  class ReferenceGraph {
    var nodes: set<Node>
    var edges: seq<Edge>

    ghost predicate Valid()
      reads this
    {
      StringNode in nodes && forall i :: 0 <= i < |edges| ==> edges[i].0 in nodes && edges[i].1 in nodes
    }

    /** A graph holding only the string node. */
    constructor ()
      ensures Valid()
      ensures nodes == {StringNode} && edges == []
    {
      nodes := {StringNode};
      edges := [];
    }

    /** `item_index`: the item's node, added on first use. */
    method ItemIndex(n: Node)
      modifies this
      requires Valid()
      ensures Valid()
      ensures nodes == old(nodes) + {n} && edges == old(edges)
    {
      nodes := nodes + {n};
    }

    method AddEdge(a: Node, b: Node)
      modifies this
      requires Valid() && a in nodes && b in nodes
      ensures Valid()
      ensures nodes == old(nodes) && edges == old(edges) + [(a, b)]
    {
      edges := edges + [(a, b)];
    }

    /** `traverse_type`. */
    method TraverseType(inf: Naming.Inflector, d: string, parent: string, ty: Type)
      modifies this
      requires Valid()
      ensures Valid()
      ensures edges == old(edges) + TypeEdges(inf, d, parent, ty)
      decreases ty, 1
    {
      match ty {
        case String =>
          var parentNode := ParentNode(d, parent);
          ItemIndex(parentNode);
          AddEdge(StringNode, parentNode);
        case Reference(target) =>
          if Naming.PascalCase(inf, target) != parent {
            var targetNode := ItemNode(Naming.ResolveReference(inf, d, target));
            ItemIndex(targetNode);
            var parentNode := ParentNode(d, parent);
            ItemIndex(parentNode);
            AddEdge(targetNode, parentNode);
          }
        case Array(item, _, _) =>
          TraverseType(inf, d, parent, item.ty);
        case Object(fields) =>
          TraverseFields(inf, d, parent, fields);
        case _ =>
      }
    }

    /** `traverse_fields`. */
    method TraverseFields(inf: Naming.Inflector, d: string, parent: string, fields: seq<Field>)
      modifies this
      requires Valid()
      ensures Valid()
      ensures edges == old(edges) + FieldsEdges(inf, d, parent, fields)
      decreases fields, 0
    {
      for i := 0 to |fields|
        invariant Valid()
        invariant edges == old(edges) + FieldsEdges(inf, d, parent, fields[..i])
      {
        assert fields[..i + 1][..i] == fields[..i];
        TraverseType(inf, d, parent, fields[i].ty);
      }
      assert fields[..|fields|] == fields;
    }

    /** The loop over a domain's commands and events. */
    method TraverseMethods(inf: Naming.Inflector, domainSnakeCase: string, methods: seq<Method>)
      modifies this
      requires Valid()
      ensures Valid()
      ensures edges == old(edges) + UnitsEdges(inf, MethodUnits(inf, domainSnakeCase, methods))
    {
      ghost var start := edges;
      for j := 0 to |methods|
        invariant Valid()
        invariant edges == start + UnitsEdges(inf, MethodUnits(inf, domainSnakeCase, methods[..j]))
      {
        MethodUnitsStep(inf, domainSnakeCase, methods, j);
        var method_ := methods[j];
        TraverseFields(inf, domainSnakeCase, Naming.PascalCase(inf, method_.name), method_.parameters + method_.results);
        ConcatAssoc(start, UnitsEdges(inf, MethodUnits(inf, domainSnakeCase, methods[..j])),
          FieldsEdges(inf, domainSnakeCase, Naming.PascalCase(inf, method_.name), method_.parameters + method_.results));
      }
      assert methods[..|methods|] == methods;
    }

    /** The loop over a domain's type definitions. */
    method TraverseTypeDefs(inf: Naming.Inflector, domainSnakeCase: string, typeDefs: seq<TypeDef>)
      modifies this
      requires Valid()
      ensures Valid()
      ensures edges == old(edges) + UnitsEdges(inf, TypeDefUnits(inf, domainSnakeCase, typeDefs))
    {
      ghost var start := edges;
      for j := 0 to |typeDefs|
        invariant Valid()
        invariant edges == start + UnitsEdges(inf, TypeDefUnits(inf, domainSnakeCase, typeDefs[..j]))
      {
        TypeDefUnitsStep(inf, domainSnakeCase, typeDefs, j);
        var typeDef := typeDefs[j];
        TraverseType(inf, domainSnakeCase, Naming.PascalCase(inf, typeDef.name), typeDef.ty);
        ConcatAssoc(start, UnitsEdges(inf, TypeDefUnits(inf, domainSnakeCase, typeDefs[..j])),
          TypeEdges(inf, domainSnakeCase, Naming.PascalCase(inf, typeDef.name), typeDef.ty));
      }
      assert typeDefs[..|typeDefs|] == typeDefs;
    }

    /** One domain's part of the loop in `generate_uses_lifetime_set`: its methods, then its type definitions. */
    method TraverseDomain(inf: Naming.Inflector, domain: Domain)
      modifies this
      requires Valid()
      ensures Valid()
      ensures edges == old(edges) + UnitsEdges(inf, DomainUnits(inf, domain))
    {
      var domainSnakeCase := Naming.SnakeCase(inf, domain.name);
      ghost var methodUnits := MethodUnits(inf, domainSnakeCase, domain.commands + domain.events);
      ghost var typeDefUnits := TypeDefUnits(inf, domainSnakeCase, domain.typeDefs);
      ghost var start := edges;
      TraverseMethods(inf, domainSnakeCase, domain.commands + domain.events);
      TraverseTypeDefs(inf, domainSnakeCase, domain.typeDefs);
      ConcatAssoc(start, UnitsEdges(inf, methodUnits), UnitsEdges(inf, typeDefUnits));
      UnitsEdgesAppend(inf, methodUnits, typeDefUnits);
    }

    /**
     * The search from the string node. Every node it discovers is reachable, and
     * when its stack is empty the discovered set is closed under edges, so it holds
     * every reachable node.
     */
    method UsesLifetimeSet() returns (result: set<string>)
      requires Valid()
      ensures forall p :: p in result <==> Reachable(edges, StringNode, ItemNode(p))
    {
      var discovered: set<Node> := {StringNode};
      var stack: seq<Node> := [StringNode];
      result := {};
      ReachableSelf(edges, StringNode);
      while |stack| > 0
        invariant discovered <= nodes && StringNode in discovered
        invariant forall n :: n in stack ==> n in discovered
        invariant forall n :: n in discovered ==> Reachable(edges, StringNode, n)
        invariant forall i :: 0 <= i < |edges| && edges[i].0 in discovered && edges[i].0 !in stack ==> edges[i].1 in discovered
        invariant forall p :: p in result <==> ItemNode(p) in discovered
        decreases nodes - discovered, |stack|
      {
        var n := stack[|stack| - 1];
        stack := stack[..|stack| - 1];
        ghost var discovered0, stack0 := discovered, stack;
        var j := 0;
        while j < |edges|
          invariant j <= |edges|
          invariant discovered0 <= discovered <= nodes && n in discovered
          invariant discovered == discovered0 ==> stack == stack0
          invariant forall m :: m in stack ==> m in discovered
          invariant forall m :: m in discovered ==> Reachable(edges, StringNode, m)
          invariant forall i :: 0 <= i < |edges| && edges[i].0 in discovered && edges[i].0 !in stack ==>
            edges[i].1 in discovered || (edges[i].0 == n && j <= i)
          invariant forall p :: p in result <==> ItemNode(p) in discovered
        {
          var (from, to) := edges[j];
          if from == n && to !in discovered {
            ReachableStep(edges, StringNode, n, to);
            discovered := discovered + {to};
            stack := stack + [to];
            if to.ItemNode? {
              result := result + {to.path};
            }
          }
          j := j + 1;
        }
      }
      forall p | Reachable(edges, StringNode, ItemNode(p))
        ensures p in result
      {
        ClosedHoldsReachable(edges, StringNode, discovered, ItemNode(p));
      }
    }
  }

  /** `generate_uses_lifetime_set`: builds the graph of all domains, then searches it. */
  method GenerateUsesLifetimeSet(inf: Naming.Inflector, domains: seq<Domain>) returns (result: set<string>)
    ensures forall p :: p in result <==> Reachable(GraphEdges(inf, domains), StringNode, ItemNode(p))
  {
    var graph := new ReferenceGraph();
    for i := 0 to |domains|
      invariant graph.Valid()
      invariant graph.edges == GraphEdges(inf, domains[..i])
    {
      assert domains[..i + 1][..i] == domains[..i];
      ghost var before := AllUnits(inf, domains[..i]);
      UnitsEdgesAppend(inf, before, DomainUnits(inf, domains[i]));
      graph.TraverseDomain(inf, domains[i]);
      assert AllUnits(inf, domains[..i + 1]) == before + DomainUnits(inf, domains[i]);
    }
    assert domains[..|domains|] == domains;
    result := graph.UsesLifetimeSet();
  }
}
