/** Finite directed graphs, and the depth-first search for a cycle. */
module Graph {

  type Graph = map<string, seq<string>>

  function Succ(g: Graph, a: string): seq<string> {
    if a in g then g[a] else []
  }

  predicate Path(g: Graph, p: seq<string>) {
    |p| > 0 && forall i :: 0 <= i < |p| - 1 ==> p[i + 1] in Succ(g, p[i])
  }

  predicate PathFromTo(g: Graph, p: seq<string>, a: string, b: string) {
    Path(g, p) && p[0] == a && p[|p| - 1] == b
  }

  ghost predicate Reaches(g: Graph, a: string, b: string) {
    exists p :: PathFromTo(g, p, a, b)
  }

  ghost predicate HasCycle(g: Graph) {
    exists p :: Path(g, p) && |p| >= 2 && p[0] == p[|p| - 1]
  }

  lemma ReachesSelf(g: Graph, a: string)
    ensures Reaches(g, a, a)
  {
    assert PathFromTo(g, [a], a, a);
  }

  lemma ReachesStep(g: Graph, a: string, b: string, c: string)
    requires Reaches(g, a, b) && c in Succ(g, b)
    ensures Reaches(g, a, c)
  {
    var p :| PathFromTo(g, p, a, b);
    assert PathFromTo(g, p + [c], a, c);
  }

  lemma ReachesTrans(g: Graph, a: string, b: string, c: string)
    requires Reaches(g, a, b) && Reaches(g, b, c)
    ensures Reaches(g, a, c)
  {
    var p :| PathFromTo(g, p, a, b);
    var q :| PathFromTo(g, q, b, c);
    var r := p + q[1..];
    forall i | 0 <= i < |r| - 1 ensures r[i + 1] in Succ(g, r[i]) {
      if i >= |p| - 1 {
        assert r[i] == q[i - (|p| - 1)] && r[i + 1] == q[i - (|p| - 1) + 1];
      }
    }
    assert PathFromTo(g, r, a, c);
  }

  /** Two graphs with the same successors have the same paths. */
  lemma SameSuccessorsSameCycles(g: Graph, h: Graph)
    requires forall a :: Succ(g, a) == Succ(h, a)
    ensures HasCycle(g) <==> HasCycle(h)
  {
    assert forall p :: Path(g, p) <==> Path(h, p);
  }

  /** A listing of nodes, closed under successors, in which every edge leads to an earlier entry. */
  predicate Topological(g: Graph, order: seq<string>) {
    && (forall i, j :: 0 <= i < j < |order| ==> order[i] != order[j])
    && (forall i, b :: 0 <= i < |order| && b in Succ(g, order[i]) ==> b in order[..i])
  }

  function IndexOf(order: seq<string>, a: string): (i: nat)
    requires a in order
    ensures i < |order| && order[i] == a
  {
    if order[0] == a then 0 else 1 + IndexOf(order[1..], a)
  }

  /** Every edge from a listed node leads to a listed node with a smaller index. */
  lemma EdgeDescends(g: Graph, order: seq<string>, a: string, b: string)
    requires Topological(g, order) && a in order && b in Succ(g, a)
    ensures b in order && IndexOf(order, b) < IndexOf(order, a)
  {
    var i := IndexOf(order, a);
    assert b in order[..i];
    var j :| 0 <= j < i && order[..i][j] == b;
    assert order[j] == b;
    assert IndexOf(order, b) == j;
  }

  lemma {:induction false} PathDescends(g: Graph, order: seq<string>, p: seq<string>)
    requires Topological(g, order) && Path(g, p) && p[0] in order
    ensures p[|p| - 1] in order
    ensures |p| >= 2 ==> IndexOf(order, p[|p| - 1]) < IndexOf(order, p[0])
    decreases |p|
  {
    if |p| >= 2 {
      EdgeDescends(g, order, p[0], p[1]);
      var q := p[1..];
      assert forall i :: 0 <= i < |q| - 1 ==> q[i + 1] in Succ(g, q[i]);
      PathDescends(g, order, q);
    }
  }

  /** A topological listing of all nodes with successors rules out cycles. */
  lemma TopologicalHasNoCycle(g: Graph, order: seq<string>)
    requires Topological(g, order)
    requires forall a :: Succ(g, a) != [] ==> a in order
    ensures !HasCycle(g)
  {
    if HasCycle(g) {
      var p :| Path(g, p) && |p| >= 2 && p[0] == p[|p| - 1];
      assert p[1] in Succ(g, p[0]);
      PathDescends(g, order, p);
    }
  }

  function Targets(s: seq<string>): set<string> {
    set i | 0 <= i < |s| :: s[i]
  }

  lemma TargetsAppend(s: seq<string>, a: string)
    ensures Targets(s + [a]) == Targets(s) + {a}
    ensures a in Targets(s) <==> a in s
  {
    var longer := s + [a];
    assert longer[|s|] == a;
    assert forall i :: 0 <= i < |s| ==> longer[i] == s[i];
  }

  function Nodes(g: Graph): set<string> {
    g.Keys + set a, b | a in g.Keys && b in Targets(g[a]) :: b
  }

  lemma SuccessorIsNode(g: Graph, a: string, b: string)
    requires b in Succ(g, a)
    ensures a in Nodes(g) && b in Nodes(g)
  {
    assert b in Targets(g[a]);
  }

  lemma TopologicalAppend(g: Graph, order: seq<string>, a: string)
    requires Topological(g, order) && a !in order
    requires forall b :: b in Succ(g, a) ==> b in order
    ensures Topological(g, order + [a])
  {
    var longer := order + [a];
    forall i, b | 0 <= i < |longer| && b in Succ(g, longer[i]) ensures b in longer[..i] {
      if i == |order| {
        assert longer[..i] == order;
      } else {
        assert longer[..i] == order[..i];
      }
    }
  }

  lemma PathAppend(g: Graph, p: seq<string>, a: string)
    requires p == [] || (Path(g, p) && a in Succ(g, p[|p| - 1]))
    ensures Path(g, p + [a])
  {
  }

  /** Meeting a node of the current path again closes a cycle. */
  lemma BackEdgeClosesCycle(g: Graph, p: seq<string>, a: string)
    requires Path(g, p) && a in Succ(g, p[|p| - 1]) && a in p
    ensures HasCycle(g)
  {
    var j :| 0 <= j < |p| && p[j] == a;
    var q := p[j..];
    assert forall i :: 0 <= i < |q| - 1 ==> q[i + 1] in Succ(g, q[i]);
    PathAppend(g, q, a);
    var c := q + [a];
    assert Path(g, c) && |c| >= 2 && c[0] == c[|c| - 1];
  }

  /** Walking on from `p` through unlisted nodes ends at one whose successors are all listed. */
  lemma {:induction false} FindSink(g: Graph, order: seq<string>, p: seq<string>) returns (a: string)
    requires !HasCycle(g) && Path(g, p)
    requires p[|p| - 1] !in order
    ensures a !in order && (a == p[0] || a in Nodes(g)) && forall b :: b in Succ(g, a) ==> b in order
    decreases Nodes(g) + {p[0]} - Targets(p)
  {
    a := p[|p| - 1];
    if b :| b in Succ(g, a) && b !in order {
      if b in p {
        BackEdgeClosesCycle(g, p, b);
      }
      SuccessorIsNode(g, a, b);
      PathAppend(g, p, b);
      TargetsAppend(p, b);
      a := FindSink(g, order, p + [b]);
    } else if |p| > 1 {
      assert p[|p| - 2 + 1] in Succ(g, p[|p| - 2]);
      SuccessorIsNode(g, p[|p| - 2], a);
    }
  }

  /** A graph without cycles has a topological listing of any given nodes. */
  lemma {:induction false} AcyclicHasOrder(g: Graph, ids: set<string>, order: seq<string>) returns (full: seq<string>)
    requires !HasCycle(g) && Topological(g, order)
    ensures Topological(g, full) && forall a :: a in ids ==> a in full
    ensures forall a :: a in full ==> a in order || a in ids || a in Nodes(g)
    decreases Nodes(g) + ids - Targets(order)
  {
    if a :| a in ids && a !in order {
      var b := FindSink(g, order, [a]);
      TopologicalAppend(g, order, b);
      TargetsAppend(order, b);
      full := AcyclicHasOrder(g, ids, order + [b]);
    } else {
      full := order;
    }
  }

  ghost predicate IsCycle(g: Graph, p: seq<string>) {
    Path(g, p) && |p| >= 2 && p[0] == p[|p| - 1]
  }

  ghost predicate LeadsInto(g: Graph, a: string, p: seq<string>) {
    IsCycle(g, p) && Reaches(g, a, p[0])
  }

  /** From `a` one can walk on for ever: to some cycle, and around it. */
  ghost predicate Endless(g: Graph, a: string) {
    exists p :: LeadsInto(g, a, p)
  }

  lemma PathTail(g: Graph, p: seq<string>)
    requires Path(g, p) && |p| >= 2
    ensures Path(g, p[1..]) && p[1] in Succ(g, p[0])
  {
    var q := p[1..];
    assert p[0 + 1] in Succ(g, p[0]);
    assert forall i :: 0 <= i < |q| - 1 ==> q[i + 1] in Succ(g, q[i]);
  }

  /** Walking on for ever goes over some successor. */
  lemma EndlessGoesOn(g: Graph, a: string) returns (b: string)
    requires Endless(g, a)
    ensures b in Succ(g, a) && Endless(g, b)
  {
    var p :| LeadsInto(g, a, p);
    var q :| PathFromTo(g, q, a, p[0]);
    if |q| >= 2 {
      PathTail(g, q);
      b := q[1];
      assert PathFromTo(g, q[1..], b, p[0]);
    } else {
      PathTail(g, p);
      b := p[1];
      assert PathFromTo(g, p[1..], b, p[0]);
    }
    assert LeadsInto(g, b, p);
  }

  lemma EndlessBefore(g: Graph, a: string, b: string)
    requires b in Succ(g, a) && Endless(g, b)
    ensures Endless(g, a)
  {
    var p :| LeadsInto(g, b, p);
    var q :| PathFromTo(g, q, b, p[0]);
    var r := [a] + q;
    assert forall i :: 0 <= i < |r| - 1 ==> r[i + 1] in Succ(g, r[i]);
    assert PathFromTo(g, r, a, p[0]);
    assert LeadsInto(g, a, p);
  }

  lemma NoCycleNoEndless(g: Graph, a: string)
    requires !HasCycle(g)
    ensures !Endless(g, a)
  {
  }

  /** Three steps along a cycle. */
  lemma ThreeOn(g: Graph, p: seq<string>) returns (b: string, c: string, d: string)
    requires IsCycle(g, p)
    ensures b in Succ(g, p[0]) && c in Succ(g, b) && d in Succ(g, c)
  {
    assert PathFromTo(g, [p[0]], p[0], p[0]);
    assert LeadsInto(g, p[0], p);
    b := EndlessGoesOn(g, p[0]);
    c := EndlessGoesOn(g, b);
    d := EndlessGoesOn(g, c);
  }

  /** What can be reached from `a`, with its successors. */
  ghost function Reachable(g: Graph, a: string): Graph {
    map x | x in g && Reaches(g, a, x) :: g[x]
  }

  lemma ReachableNodes(g: Graph, a: string, x: string)
    requires x in Nodes(Reachable(g, a)) || x == a
    ensures Reaches(g, a, x) && Succ(Reachable(g, a), x) == Succ(g, x)
  {
    hide Reaches;
    var sub := Reachable(g, a);
    ReachesSelf(g, a);
    if x != a && x !in sub {
      var y :| y in sub && x in Targets(sub[y]);
      assert x in Succ(g, y);
      ReachesStep(g, a, y, x);
    }
  }

  lemma ReachablePath(g: Graph, a: string, p: seq<string>)
    requires IsCycle(Reachable(g, a), p)
    ensures LeadsInto(g, a, p)
  {
    var sub := Reachable(g, a);
    forall i | 0 <= i < |p| - 1 ensures p[i + 1] in Succ(g, p[i]) {
      assert p[i + 1] in Succ(sub, p[i]);
    }
    assert p[0 + 1] in Succ(sub, p[0]);
    SuccessorIsNode(sub, p[0], p[1]);
    ReachableNodes(g, a, p[0]);
  }

  /** Where one cannot walk on for ever there is a topological listing of what can be reached. */
  lemma NotEndlessHasOrder(g: Graph, a: string) returns (order: seq<string>)
    requires !Endless(g, a)
    ensures Topological(g, order) && a in order
  {
    var sub := Reachable(g, a);
    if p :| Path(sub, p) && |p| >= 2 && p[0] == p[|p| - 1] {
      ReachablePath(g, a, p);
    }
    order := AcyclicHasOrder(sub, {a}, []);
    forall i, b | 0 <= i < |order| && b in Succ(g, order[i]) ensures b in order[..i] {
      ReachableNodes(g, a, order[i]);
      assert b in Succ(sub, order[i]);
    }
  }

  /** The closure `visit` of validateAcyclic together with the two maps it flips. */
  class CycleFinder {
    const edges: Graph
    var visiting: set<string>
    var visited: set<string>
    ghost var order: seq<string>
    ghost var stack: seq<string>

    ghost predicate Valid()
      reads this
    {
      && (forall a :: a in visited <==> a in order)
      && (forall a :: a in visiting <==> a in stack)
      && visited !! visiting
      && Topological(edges, order)
      && (stack == [] || Path(edges, stack))
    }

    constructor (edges: Graph)
      ensures Valid() && this.edges == edges && visiting == visited == {} && stack == []
    {
      this.edges := edges;
      visiting, visited, order, stack := {}, {}, [], [];
    }

    /** Visiting a node succeeds and lists it, or there is a cycle. */
    method Visit(id: string) returns (ok: bool)
      requires Valid()
      requires stack != [] ==> id in Succ(edges, stack[|stack| - 1])
      modifies this
      decreases Nodes(edges) + {id} - visiting
      ensures ok ==> Valid() && id in visited && stack == old(stack) && visiting == old(visiting)
      ensures ok ==> old(visited) <= visited
      ensures !ok ==> HasCycle(edges)
    {
      if id in visiting {
        BackEdgeClosesCycle(edges, stack, id);
        return false;
      }
      if id in visited {
        return true;
      }
      ghost var before := stack;
      PathAppend(edges, stack, id);
      visiting := visiting + {id};
      stack := stack + [id];
      var next := Succ(edges, id);
      for i := 0 to |next|
        invariant Valid() && stack == before + [id] && visiting == old(visiting) + {id}
        invariant old(visited) <= visited && forall k :: 0 <= k < i ==> next[k] in visited
      {
        SuccessorIsNode(edges, id, next[i]);
        assert stack[|stack| - 1] == id;
        var sub := Visit(next[i]);
        if !sub {
          return false;
        }
      }
      TopologicalAppend(edges, order, id);
      visiting := visiting - {id};
      visited := visited + {id};
      order := order + [id];
      stack := before;
      ok := true;
    }
  }

  /** The loop over `ids`, in whatever order the map yields them: it succeeds exactly on acyclic graphs. */
  method FindCycle(edges: Graph, ids: set<string>) returns (ok: bool, ghost order: seq<string>)
    requires forall a :: a in edges && edges[a] != [] ==> a in ids
    ensures ok <==> !HasCycle(edges)
    ensures ok ==> Topological(edges, order) && forall a :: a in ids ==> a in order
  {
    var finder := new CycleFinder(edges);
    var rest := ids;
    while rest != {}
      invariant finder.Valid() && finder.edges == edges && finder.stack == []
      invariant rest <= ids && ids - rest <= finder.visited
      invariant fresh(finder)
    {
      var id :| id in rest;
      ok := finder.Visit(id);
      if !ok {
        order := [];
        return;
      }
      rest := rest - {id};
    }
    TopologicalHasNoCycle(edges, finder.order);
    return true, finder.order;
  }
}
