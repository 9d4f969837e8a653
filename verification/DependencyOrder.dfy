/** Depth-first ordering of the captured Configurations, with cycle detection. */
module DependencyOrder {
  import opened Pigeonhole
  import opened Wrappers

  /** Declared dependency names of every indexed Configuration, in declaration order. */
  type Graph = map<string, seq<string>>

  predicate Edge(g: Graph, a: string, b: string) {
    a in g && b in g && b in g[a]
  }

  ghost predicate IsPath(g: Graph, p: seq<string>) {
    && |p| > 0 && (forall n :: n in p ==> n in g)
    && forall i :: 0 <= i < |p| - 1 ==> Edge(g, p[i], p[i + 1])
  }

  ghost predicate OnCycle(g: Graph, name: string) {
    exists p :: IsPath(g, p) && |p| > 1 && p[0] == name && p[|p| - 1] == name
  }

  ghost predicate Acyclic(g: Graph) {
    forall name :: !OnCycle(g, name)
  }

  /** Every in-set dependency stands before its dependent. */
  ghost predicate DependenciesFirst(g: Graph, order: seq<string>) {
    forall i, d :: 0 <= i < |order| && Edge(g, order[i], d) ==> d in order[..i]
  }

  /** Each indexed name once, dependencies first. */
  ghost predicate Ordered(g: Graph, order: seq<string>) {
    && Distinct(order) && DependenciesFirst(g, order)
    && forall name :: name in g <==> name in order
  }

  class Walk {
    const graph: Graph
    var visiting: set<string>
    var visited: set<string>
    var ordered: seq<string>

    constructor (g: Graph)
      ensures graph == g && visiting == {} && visited == {} && ordered == []
    {
      graph, visiting, visited, ordered := g, {}, {}, [];
    }

    ghost predicate Valid()
      reads this
    {
      && visiting <= graph.Keys && visiting !! visited
      && (forall name :: name in visited <==> name in ordered)
      && (forall name :: name in visited ==> name in graph)
      && Distinct(ordered) && DependenciesFirst(graph, ordered)
    }

    /** Visit one name; `stack` is the chain of dependents being visited above it. */
    method Visit(name: string, ghost stack: seq<string>) returns (cycle: Option<string>)
      requires Valid() && IsPath(graph, stack + [name])
      requires visiting == set n | n in stack
      modifies this
      ensures cycle.None? ==>
                && Valid() && visiting == old(visiting) && name in visited
                && old(ordered) <= ordered && old(visited) <= visited
      ensures cycle.Some? ==> OnCycle(graph, cycle.value)
      decreases graph.Keys - visiting
    {
      if name in visiting {
        ClosesCycle(graph, stack, name);
        return Some(name);
      }
      if name in visited {
        return None;
      }
      visiting := visiting + {name};
      assert name in stack + [name];
      var dependencies := graph[name];
      ghost var chain := stack + [name];
      assert forall n :: n in chain <==> n in stack || n == name;
      for k := 0 to |dependencies|
        invariant Valid() && visiting == old(visiting) + {name}
        invariant old(ordered) <= ordered && old(visited) <= visited && name !in visited
        invariant forall d :: d in dependencies[..k] && d in graph ==> d in visited
      {
        var dependency := dependencies[k];
        if dependency in graph {
          assert IsPath(graph, chain + [dependency]) by { Extends(graph, chain, dependency); }
          cycle := Visit(dependency, chain);
          if cycle.Some? {
            return;
          }
        }
      }
      visiting := visiting - {name};
      visited := visited + {name};
      AppendsInOrder(graph, ordered, name);
      ordered := ordered + [name];
      return None;
    }
  }

  lemma Extends(g: Graph, p: seq<string>, d: string)
    requires IsPath(g, p) && Edge(g, p[|p| - 1], d)
    ensures IsPath(g, p + [d])
  {
    var q := p + [d];
    forall i | 0 <= i < |q| - 1
      ensures Edge(g, q[i], q[i + 1])
    {
      if i < |p| - 1 { assert Edge(g, p[i], p[i + 1]); }
    }
  }

  /** Meeting a name that is still being visited closes a path from it back to itself. */
  lemma ClosesCycle(g: Graph, stack: seq<string>, name: string)
    requires IsPath(g, stack + [name]) && name in stack
    ensures OnCycle(g, name)
  {
    var whole := stack + [name];
    var i :| 0 <= i < |stack| && stack[i] == name;
    var p := whole[i..];
    forall k | 0 <= k < |p| - 1
      ensures Edge(g, p[k], p[k + 1])
    {
      assert Edge(g, whole[i + k], whole[i + k + 1]);
    }
    assert IsPath(g, p) && p[0] == name && p[|p| - 1] == name;
  }

  lemma AppendsInOrder(g: Graph, order: seq<string>, name: string)
    requires Distinct(order) && DependenciesFirst(g, order) && name !in order
    requires forall d :: Edge(g, name, d) ==> d in order
    ensures Distinct(order + [name]) && DependenciesFirst(g, order + [name])
  {
    var next := order + [name];
    forall i, d | 0 <= i < |next| && Edge(g, next[i], d)
      ensures d in next[..i]
    {
      if i < |order| {
        assert d in order[..i];
        assert next[..i] == order[..i];
      } else {
        assert next[..i] == order;
      }
    }
  }

  function IndexOf(order: seq<string>, name: string): (i: nat)
    requires name in order
    ensures i < |order| && order[i] == name
  {
    if order[0] == name then 0 else 1 + IndexOf(order[1..], name)
  }

  lemma EdgeGoesBack(g: Graph, order: seq<string>, a: string, b: string)
    requires Ordered(g, order) && Edge(g, a, b)
    ensures IndexOf(order, b) < IndexOf(order, a)
  {
    var i := IndexOf(order, a);
    assert b in order[..i];
    var j :| 0 <= j < i && order[j] == b;
    assert j == IndexOf(order, b);
  }

  lemma {:induction false} PathGoesBack(g: Graph, order: seq<string>, p: seq<string>)
    requires Ordered(g, order) && IsPath(g, p)
    ensures p[|p| - 1] in g
    ensures IndexOf(order, p[|p| - 1]) + |p| - 1 <= IndexOf(order, p[0])
    decreases |p|
  {
    if |p| > 1 {
      var q := p[..|p| - 1];
      assert forall i :: 0 <= i < |q| - 1 ==> Edge(g, p[i], p[i + 1]);
      PathGoesBack(g, order, q);
      assert Edge(g, p[|p| - 2], p[|p| - 1]);
      EdgeGoesBack(g, order, p[|p| - 2], p[|p| - 1]);
    }
  }

  /** A dependencies-first order exists only when nothing depends on itself, however indirectly. */
  lemma OrderedIsAcyclic(g: Graph, order: seq<string>)
    requires Ordered(g, order)
    ensures Acyclic(g)
  {
    forall name | OnCycle(g, name)
      ensures false
    {
      var p :| IsPath(g, p) && |p| > 1 && p[0] == name && p[|p| - 1] == name;
      PathGoesBack(g, order, p);
    }
  }

  /** Order the graph, visiting roots in the given order of its names; the error names a cycle. */
  method Order(g: Graph, roots: seq<string>) returns (result: Result<seq<string>, string>)
    requires forall name :: name in g <==> name in roots
    ensures result.Ok? <==> Acyclic(g)
    ensures result.Ok? ==> Ordered(g, result.value)
    ensures result.Err? ==> OnCycle(g, result.error)
  {
    var walk := new Walk(g);
    for k := 0 to |roots|
      invariant walk.graph == g && walk.Valid() && walk.visiting == {}
      invariant forall name :: name in roots[..k] ==> name in walk.visited
    {
      assert IsPath(g, [] + [roots[k]]);
      var cycle := walk.Visit(roots[k], []);
      if cycle.Some? {
        return Err(cycle.value);
      }
    }
    OrderedIsAcyclic(g, walk.ordered);
    return Ok(walk.ordered);
  }
}
