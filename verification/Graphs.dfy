/** Closed walks in finite graphs, shared by the cycle finders. */
module Graphs {

  type Graph<T(==)> = map<T, set<T>>

  /** A closed walk: at least one step, every step an edge, ending where it starts. */
  ghost predicate IsClosedWalk<T>(g: Graph<T>, walk: seq<T>) {
    && |walk| >= 2
    && walk[0] == walk[|walk| - 1]
    && IsWalk(g, walk)
  }

  ghost predicate IsWalk<T>(g: Graph<T>, walk: seq<T>) {
    forall i :: 0 <= i < |walk| - 1 ==> walk[i] in g && walk[i + 1] in g[walk[i]]
  }

  ghost predicate Acyclic<T(!new)>(g: Graph<T>) {
    forall walk :: !IsClosedWalk(g, walk)
  }

  /** An order of the nodes in which every edge leads to an earlier one. */
  ghost predicate LeadsBack<T>(g: Graph<T>, order: seq<T>) {
    forall i, m :: 0 <= i < |order| && order[i] in g && m in g[order[i]] && m in g ==> m in order[..i]
  }

  lemma {:induction false} WalkDescends<T>(g: Graph<T>, order: seq<T>, walk: seq<T>, from: nat) returns (last: nat)
    requires LeadsBack(g, order) && IsWalk(g, walk) && walk != []
    requires from < |order| && order[from] == walk[0]
    requires forall i :: 0 <= i < |walk| ==> walk[i] in g
    ensures last < |order| && order[last] == walk[|walk| - 1] && last + |walk| - 1 <= from
    decreases |walk|
  {
    if |walk| == 1 {
      last := from;
    } else {
      assert walk[1] in g[walk[0]] && walk[1] in order[..from];
      var next :| 0 <= next < from && order[next] == walk[1];
      var tail := walk[1..];
      assert forall i :: 0 <= i < |tail| ==> tail[i] == walk[i + 1];
      last := WalkDescends(g, order, tail, next);
    }
  }

  /** A graph whose nodes can be ordered so that every edge leads back has no closed walk. */
  lemma OrderedIsAcyclic<T(!new)>(g: Graph<T>, order: seq<T>)
    requires LeadsBack(g, order)
    requires forall n :: n in g ==> n in order
    requires forall i, j :: 0 <= i < j < |order| ==> order[i] != order[j]
    ensures Acyclic(g)
  {
    forall walk: seq<T> | IsClosedWalk(g, walk)
      ensures false
    {
      assert walk[|walk| - 1] in g;
      assert walk[0] in order;
      var from :| 0 <= from < |order| && order[from] == walk[0];
      var last := WalkDescends(g, order, walk, from);
    }
  }
}
