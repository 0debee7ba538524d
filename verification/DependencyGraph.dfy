/**
 Dependency graphs and the depth-first ordering that the resource reconciler,
 the component registry and the forwarding rules all run over them.

 An edge `a -> b` reads "a requires b". A node without an entry has no
 requirements, as a missing key of a Go map reads as the empty slice.
 */
module DependencyGraph {
  import opened Collections

  type Graph<Id> = map<Id, seq<Id>>

  function Deps<Id(==, !new)>(g: Graph<Id>, id: Id): seq<Id> {
    if id in g then g[id] else []
  }

  predicate Edge<Id(==, !new)>(g: Graph<Id>, a: Id, b: Id) {
    b in Deps(g, a)
  }

  predicate Linked<Id(==, !new)>(g: Graph<Id>, p: seq<Id>, i: nat)
    requires i + 1 < |p|
  {
    Edge(g, p[i], p[i + 1])
  }

  ghost predicate Walk<Id(!new)>(g: Graph<Id>, p: seq<Id>) {
    forall i: nat :: i + 1 < |p| ==> Linked(g, p, i)
  }

  ghost predicate Cycle<Id(!new)>(g: Graph<Id>, p: seq<Id>) {
    |p| >= 2 && Walk(g, p) && p[0] == p[|p| - 1]
  }

  ghost predicate Acyclic<Id(!new)>(g: Graph<Id>) {
    forall p :: !Cycle(g, p)
  }

  /** Every requirement of a declared node is itself declared. */
  ghost predicate Known<Id(!new)>(g: Graph<Id>) {
    forall a, b :: Edge(g, a, b) ==> b in g
  }

  /** `order` lists nodes once each, every requirement before its user. */
  ghost predicate ProvidersFirst<Id(!new)>(g: Graph<Id>, order: seq<Id>) {
    && Distinct(order)
    && forall i, d :: 0 <= i < |order| && Edge(g, order[i], d) ==> d in order[..i]
  }

  /** A duplicate-free listing of exactly the declared nodes, requirements first. */
  ghost predicate Ordering<Id(!new)>(g: Graph<Id>, order: seq<Id>) {
    ProvidersFirst(g, order) && Members(order) == g.Keys
  }

  // ---- what an ordering says about the graph ----

  lemma {:induction false} WalkDescends<Id(!new)>(g: Graph<Id>, order: seq<Id>, p: seq<Id>, i: nat) returns (j: nat)
    requires ProvidersFirst(g, order)
    requires Walk(g, p) && |p| >= 2
    requires i < |order| && order[i] == p[0]
    ensures j < i && order[j] == p[|p| - 1]
  {
    assert Linked(g, p, 0);
    j :| 0 <= j < i && order[..i][j] == p[1];
    if |p| > 2 {
      assert Walk(g, p[1..]) by {
        forall k: nat | k + 1 < |p[1..]| ensures Linked(g, p[1..], k) {
          assert Linked(g, p, k + 1);
        }
      }
      j := WalkDescends(g, order, p[1..], j);
    }
  }

  /** An order that lists every declared node after what it requires leaves no room for a cycle. */
  lemma OrderRefutesCycles<Id(!new)>(g: Graph<Id>, order: seq<Id>)
    requires ProvidersFirst(g, order) && g.Keys <= Members(order)
    ensures Acyclic(g)
  {
    forall p | Cycle(g, p) ensures false {
      assert Linked(g, p, 0);
      assert p[0] in Members(order);
      var i :| 0 <= i < |order| && order[i] == p[0];
      var j := WalkDescends(g, order, p, i);
    }
  }

  /** An ordering exists only for graphs with known requirements and no cycle. */
  lemma {:induction false} OrderingRefutesCycles<Id(!new)>(g: Graph<Id>, order: seq<Id>)
    requires Ordering(g, order)
    ensures Known(g) && Acyclic(g)
  {
    OrderRefutesCycles(g, order);
    forall a, b | Edge(g, a, b) ensures b in g {
      assert a in Members(order);
      var i :| 0 <= i < |order| && order[i] == a;
      assert b in order[..i];
      assert b in Members(order);
    }
  }

  lemma {:induction false} ClosedWalk<Id(!new)>(g: Graph<Id>, stack: seq<Id>, k: nat, id: Id)
    requires Walk(g, stack) && k < |stack| && stack[k] == id
    requires Edge(g, stack[|stack| - 1], id)
    ensures Cycle(g, stack[k..] + [id])
  {
    var p := stack[k..] + [id];
    forall i: nat | i + 1 < |p| ensures Linked(g, p, i) {
      if i + 2 < |p| {
        assert Linked(g, stack, k + i);
      }
    }
  }

  lemma PushedWalk<Id(!new)>(g: Graph<Id>, stack: seq<Id>, id: Id)
    requires Walk(g, stack)
    requires stack != [] ==> Edge(g, stack[|stack| - 1], id)
    ensures Walk(g, stack + [id])
    ensures Members(stack + [id]) == Members(stack) + {id}
  {
    var p := stack + [id];
    forall i: nat | i + 1 < |p| ensures Linked(g, p, i) {
      if i + 2 < |p| {
        assert Linked(g, stack, i);
      }
    }
    forall x | x in Members(stack) + {id} ensures x in Members(p) {
      if x == id {
        assert p[|stack|] == id;
      } else {
        var i :| 0 <= i < |stack| && stack[i] == x;
        assert p[i] == x;
      }
    }
  }

  lemma AppendedOrder<Id(!new)>(g: Graph<Id>, order: seq<Id>, id: Id)
    requires ProvidersFirst(g, order) && id !in Members(order)
    requires forall d :: Edge(g, id, d) ==> d in Members(order)
    ensures ProvidersFirst(g, order + [id])
    ensures Members(order + [id]) == Members(order) + {id}
  {
    var longer := order + [id];
    forall i, d | 0 <= i < |longer| && Edge(g, longer[i], d) ensures d in longer[..i] {
      assert longer[..i] == order[..i];
    }
    assert forall i :: 0 <= i < |order| ==> order[i] in Members(order);
    assert longer[|order|] == id;
    assert forall i :: 0 <= i < |order| ==> longer[i] == order[i];
  }

  lemma {:induction false} WalkStays<Id(!new)>(g: Graph<Id>, p: seq<Id>, inside: set<Id>, i: nat, j: nat)
    requires Walk(g, p) && i <= j < |p| && p[i] in inside
    requires forall a, b :: a in inside && Edge(g, a, b) ==> b in inside
    ensures p[j] in inside
    decreases j
  {
    if i < j {
      WalkStays(g, p, inside, i, j - 1);
      assert Linked(g, p, j - 1);
    }
  }

  /** A graph whose nodes split into a closed part and a rest is acyclic when both parts are. */
  lemma SplitAcyclic<Id(!new)>(g: Graph<Id>, inside: set<Id>, g1: Graph<Id>, g2: Graph<Id>)
    requires forall a, b :: a in inside && Edge(g, a, b) ==> b in inside && Edge(g1, a, b)
    requires forall a, b :: a !in inside && Edge(g, a, b) ==> Edge(g2, a, b)
    requires Acyclic(g1) && Acyclic(g2)
    ensures Acyclic(g)
  {
    forall p | Cycle(g, p) ensures false {
      forall i: nat | i < |p| ensures p[i] in inside <==> p[0] in inside {
        if p[0] in inside {
          WalkStays(g, p, inside, 0, i);
        } else if p[i] in inside {
          WalkStays(g, p, inside, i, |p| - 1);
        }
      }
      var part := if p[0] in inside then g1 else g2;
      forall i: nat | i + 1 < |p| ensures Linked(part, p, i) {
        assert Linked(g, p, i);
      }
      assert Cycle(part, p);
    }
  }

  // ---- the depth-first search ----

  datatype VisitResult<Id> =
    | Visited
    | CycleAt(at: Id)
    | UnknownDependency(user: Id, dependency: Id)

  /** A reported cycle is a closed walk of the graph; a reported unknown requirement is declared nowhere. */
  ghost predicate Genuine<Id(!new)>(g: Graph<Id>, r: VisitResult<Id>) {
    match r
    case Visited => true
    case CycleAt(at) => exists p :: Cycle(g, p) && p[0] == at
    case UnknownDependency(user, dependency) => Edge(g, user, dependency) && dependency !in g
  }

  ghost function Nodes<Id(!new)>(g: Graph<Id>): set<Id> {
    g.Keys + (set a, b | a in g && b in g[a] :: b)
  }

  /** The `visiting`/`visited` maps and the `order` slice that one search shares. */
  class DepthFirst<Id(==, !new)> {
    const g: Graph<Id>
    const strict: bool  // whether requirements must be declared nodes
    var visiting: set<Id>
    var visited: set<Id>
    var order: seq<Id>

    constructor (g: Graph<Id>, strict: bool)
      ensures this.g == g && this.strict == strict
      ensures Valid([]) && visited == {} && order == []
    {
      this.g, this.strict := g, strict;
      visiting, visited, order := {}, {}, [];
    }

    /** `stack` is the chain of calls in progress: a walk over exactly the `visiting` nodes. */
    ghost predicate Valid(stack: seq<Id>)
      reads this
    {
      && Walk(g, stack)
      && Members(stack) == visiting <= Nodes(g)
      && visiting !! visited
      && ProvidersFirst(g, order)
      && Members(order) == visited
    }

    method Visit(id: Id, ghost stack: seq<Id>) returns (r: VisitResult<Id>)
      requires Valid(stack) && id in Nodes(g)
      requires stack != [] ==> Edge(g, stack[|stack| - 1], id)
      modifies this
      decreases Nodes(g) - visiting
      ensures Genuine(g, r)
      ensures !strict ==> !r.UnknownDependency?
      ensures r.Visited? ==> Valid(stack) && id in visited && old(visited) <= visited
      ensures r.Visited? ==> visiting == old(visiting)
      ensures r.Visited? && strict ==> visited <= old(visited) + g.Keys + {id}
    {
      if id in visiting {
        assert id in Members(stack);
        ghost var k :| 0 <= k < |stack| && stack[k] == id;
        ClosedWalk(g, stack, k, id);
        return CycleAt(id);
      }
      if id in visited {
        return Visited;
      }
      visiting := visiting + {id};
      ghost var inner := stack + [id];
      PushedWalk(g, stack, id);
      var deps := Deps(g, id);
      for i := 0 to |deps|
        invariant Valid(inner) && visiting == old(visiting) + {id}
        invariant old(visited) <= visited
        invariant forall d :: d in deps[..i] ==> d in visited
        invariant strict ==> visited <= old(visited) + g.Keys
      {
        var dependency := deps[i];
        assert Edge(g, id, dependency);
        if strict && dependency !in g {
          return UnknownDependency(id, dependency);
        }
        r := Visit(dependency, inner);
        if !r.Visited? {
          return r;
        }
      }
      visiting := visiting - {id};
      AppendedOrder(g, order, id);
      visited := visited + {id};
      order := order + [id];
      return Visited;
    }
  }

  datatype OrderResult<Id> =
    | Ordered(order: seq<Id>)
    | Rejected(reason: VisitResult<Id>)

  /** `orderUnits`: an ordering exactly for acyclic graphs whose requirements are all known. The search may
      be rooted at the nodes in any sequence; the source uses the sorted one. */
  method OrderUnits<Id(==, !new)>(g: Graph<Id>) returns (r: OrderResult<Id>)
    ensures r.Ordered? <==> Known(g) && Acyclic(g)
    ensures r.Ordered? ==> Ordering(g, r.order)
    ensures r.Rejected? ==> !r.reason.Visited? && Genuine(g, r.reason)
  {
    var search := new DepthFirst<Id>(g, true);
    var names := g.Keys;
    while names != {}
      invariant names <= g.Keys && search.g == g && search.strict
      invariant search.Valid([])
      invariant search.visited <= g.Keys
      invariant g.Keys - names <= search.visited
      invariant fresh(search)
    {
      var id :| id in names;
      var v := search.Visit(id, []);
      if !v.Visited? {
        return Rejected(v);
      }
      names := names - {id};
    }
    OrderingRefutesCycles(g, search.order);
    return Ordered(search.order);
  }

  /** The search without the check for unknown requirements: it reports a cycle exactly when there is one. */
  method FindCycle<Id(==, !new)>(g: Graph<Id>) returns (r: VisitResult<Id>)
    ensures r.Visited? <==> Acyclic(g)
    ensures r.Visited? || r.CycleAt?
    ensures Genuine(g, r)
  {
    var search := new DepthFirst<Id>(g, false);
    var names := g.Keys;
    while names != {}
      invariant names <= g.Keys && search.g == g && !search.strict
      invariant search.Valid([]) && g.Keys - names <= search.visited
      invariant fresh(search)
    {
      var id :| id in names;
      r := search.Visit(id, []);
      if !r.Visited? {
        return;
      }
      names := names - {id};
    }
    OrderRefutesCycles(g, search.order);
    return Visited;
  }
}
