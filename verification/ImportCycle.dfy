/**
 The import-cycle finder of the architecture check (tools/check_architecture.py).

 A depth-first search with an active list, its set, and a set of completed modules. It finds a cycle exactly when there
 is one: what it returns is a closed walk of imports, and it returns nothing only for an acyclic graph.
 */
module ImportCycle {
  import opened Graphs

  datatype Found = NoCycle | Cycle(modules: seq<string>)

  class CycleFinder {
    const graph: Graph<string>
    var active: seq<string>
    var activeSet: set<string>
    var complete: set<string>
    /** The completed modules in the order in which they were completed. */
    ghost var order: seq<string>

    ghost predicate Valid()
      reads this
    {
      && (forall m :: m in graph ==> graph[m] <= graph.Keys)
      && (forall m :: m in activeSet <==> m in active)
      && (forall m :: m in active ==> m in graph)
      && IsWalk(graph, active)
      && (forall m :: m in complete <==> m in order)
      && (forall i, j :: 0 <= i < j < |order| ==> order[i] != order[j])
      && LeadsBack(graph, order)
      && activeSet !! complete
    }

    constructor (graph: Graph<string>)
      requires forall m :: m in graph ==> graph[m] <= graph.Keys
      ensures this.graph == graph && Valid() && active == [] && complete == {}
    {
      this.graph := graph;
      active, activeSet, complete, order := [], {}, {}, [];
    }

    /** Searches from one module, reached from the last active one; sorted order is one of the orders allowed here. */
    method Visit(name: string) returns (found: Found)
      requires Valid() && name in graph
      requires active != [] ==> name in graph[active[|active| - 1]]
      modifies this
      ensures found.NoCycle? ==>
              Valid() && active == old(active) && activeSet == old(activeSet) && old(complete) + {name} <= complete
      ensures found.Cycle? ==> IsClosedWalk(graph, found.modules)
      decreases graph.Keys - activeSet
    {
      if name in complete {
        return NoCycle;
      }
      if name in activeSet {
        var start := IndexOf(active, name);
        ClosesWalk(graph, active, start, name);
        found := Cycle(active[start..] + [name]);
        return;
      }
      ExtendsWalk(graph, active, name);
      active := active + [name];
      activeSet := activeSet + {name};
      var remaining := graph[name];
      while remaining != {}
        invariant Valid() && active == old(active) + [name] && activeSet == old(activeSet) + {name}
        invariant remaining <= graph[name] && old(complete) <= complete
        invariant forall m :: m in graph[name] && m !in remaining ==> m in complete
        decreases remaining
      {
        var dependency :| dependency in remaining;
        var inner := Visit(dependency);
        if inner.Cycle? {
          return inner;
        }
        remaining := remaining - {dependency};
      }
      assert active[..|active| - 1] == old(active) && activeSet - {name} == old(activeSet);
      Leave(name);
      return NoCycle;
    }

    /** The last active module is done with. */
    method Leave(name: string)
      requires Valid() && active != [] && active[|active| - 1] == name && name !in active[..|active| - 1]
      requires forall m :: m in graph[name] ==> m in complete
      modifies this
      ensures Valid() && active == old(active)[..|old(active)| - 1] && activeSet == old(activeSet) - {name}
      ensures complete == old(complete) + {name}
    {
      active := active[..|active| - 1];
      activeSet := activeSet - {name};
      complete := complete + {name};
      CompletesOrder(graph, order, name);
      order := order + [name];
    }

    /** Searches the whole graph: finds a closed walk exactly when there is one. */
    method Find() returns (found: Found)
      requires Valid() && active == [] && complete == {}
      modifies this
      ensures found.Cycle? ==> IsClosedWalk(graph, found.modules)
      ensures found.NoCycle? <==> Acyclic(graph)
    {
      var remaining := graph.Keys;
      while remaining != {}
        invariant Valid() && active == [] && remaining <= graph.Keys
        invariant forall m :: m in graph && m !in remaining ==> m in complete
        decreases remaining
      {
        var name :| name in remaining;
        found := Visit(name);
        if found.Cycle? {
          return;
        }
        remaining := remaining - {name};
      }
      OrderedIsAcyclic(graph, order);
      return NoCycle;
    }
  }

  function IndexOf(names: seq<string>, name: string): (i: nat)
    requires name in names
    ensures i < |names| && names[i] == name && name !in names[..i]
  {
    if names[0] == name then 0 else 1 + IndexOf(names[1..], name)
  }

  lemma CompletesOrder(g: Graph<string>, order: seq<string>, name: string)
    requires LeadsBack(g, order) && name in g && forall m :: m in g[name] ==> m in order
    ensures LeadsBack(g, order + [name])
  {
    var order' := order + [name];
    forall i, m | 0 <= i < |order'| && order'[i] in g && m in g[order'[i]] && m in g
      ensures m in order'[..i]
    {
      assert order'[..i] == order[..i];
    }
  }

  lemma ExtendsWalk(g: Graph<string>, walk: seq<string>, name: string)
    requires IsWalk(g, walk) && forall m :: m in walk ==> m in g
    requires walk != [] ==> name in g[walk[|walk| - 1]]
    ensures IsWalk(g, walk + [name])
  {
  }

  /** Stepping from the last active module to an active one closes a walk. */
  lemma ClosesWalk(g: Graph<string>, active: seq<string>, start: nat, name: string)
    requires IsWalk(g, active) && forall m :: m in active ==> m in g
    requires start < |active| && active[start] == name && name in g[active[|active| - 1]]
    ensures IsClosedWalk(g, active[start..] + [name])
  {
  }
}
