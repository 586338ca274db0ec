/**
 The parent-hierarchy check on captured annotations (src/runtime_tools/annotations.py).

 Accepts a list of edges exactly when every child has one parent and no event is its own ancestor, although the walk up
 from each child stops at whatever an earlier walk has already cleared.
 */
module ParentHierarchy {
  import opened Graphs

  datatype Edge = Edge(source: string, target: string, kind: string)

  datatype Verdict = Accepted | MultipleParents | ParentCycle

  const PARENT := "parent"

  /** Every child is given one parent only. */
  ghost predicate SingleParents(edges: seq<Edge>) {
    forall i, j :: 0 <= i < |edges| && 0 <= j < |edges|
      && edges[i].kind == PARENT && edges[j].kind == PARENT && edges[i].target == edges[j].target
      ==> edges[i].source == edges[j].source
  }

  /** The graph that leads from each child to its parents. */
  ghost function Parents(edges: seq<Edge>): Graph<string> {
    map child | child in Children(edges) ::
      set i | 0 <= i < |edges| && edges[i].kind == PARENT && edges[i].target == child :: edges[i].source
  }

  ghost function Children(edges: seq<Edge>): set<string> {
    set i | 0 <= i < |edges| && edges[i].kind == PARENT :: edges[i].target
  }

  ghost function AsGraph(parents: map<string, string>): Graph<string> {
    map child | child in parents :: {parents[child]}
  }

  lemma ParentsAreGraph(edges: seq<Edge>, parents: map<string, string>)
    requires forall i :: 0 <= i < |edges| && edges[i].kind == PARENT ==>
               edges[i].target in parents && parents[edges[i].target] == edges[i].source
    requires forall child :: child in parents ==>
               exists i :: 0 <= i < |edges| && edges[i].kind == PARENT && edges[i].target == child
    ensures AsGraph(parents) == Parents(edges)
  {
    forall child | child in parents
      ensures AsGraph(parents)[child] == Parents(edges)[child]
    {
    }
  }

  /** Following parents upwards from one event, each step to the parent of the one before. */
  ghost predicate Climbs(parents: map<string, string>, trail: seq<string>) {
    forall i :: 0 <= i < |trail| - 1 ==> trail[i] in parents && parents[trail[i]] == trail[i + 1]
  }

  method ValidateParentHierarchy(edges: seq<Edge>) returns (verdict: Verdict)
    ensures verdict.MultipleParents? <==> !SingleParents(edges)
    ensures verdict.Accepted? <==> SingleParents(edges) && Acyclic(Parents(edges))
  {
    var parents: map<string, string> := map[];
    for n := 0 to |edges|
      invariant forall i :: 0 <= i < n && edges[i].kind == PARENT ==>
        edges[i].target in parents && parents[edges[i].target] == edges[i].source
      invariant forall child :: child in parents ==>
        exists i :: 0 <= i < n && edges[i].kind == PARENT && edges[i].target == child
    {
      var edge := edges[n];
      if edge.kind == PARENT {
        if edge.target in parents && parents[edge.target] != edge.source {
          return MultipleParents;
        }
        parents := parents[edge.target := edge.source];
      }
    }
    ParentsAreGraph(edges, parents);
    var acyclic := FollowParents(parents);
    return if acyclic then Accepted else ParentCycle;
  }

  /** The second half of the check: no event is its own ancestor. */
  method FollowParents(parents: map<string, string>) returns (acyclic: bool)
    ensures acyclic <==> Acyclic(AsGraph(parents))
  {
    var g: Graph<string> := map child | child in parents :: {parents[child]};
    var complete: set<string> := {};
    ghost var order: seq<string> := [];
    var remaining := parents.Keys;
    while remaining != {}
      invariant remaining <= parents.Keys
      invariant forall child :: child in parents && child !in remaining ==> child in complete
      invariant forall child :: child in complete <==> child in order
      invariant forall i, j :: 0 <= i < j < |order| ==> order[i] != order[j]
      invariant complete <= parents.Keys
      invariant LeadsBack(g, order)
      decreases remaining
    {
      var child :| child in remaining;
      var trail: set<string> := {};
      ghost var climbed: seq<string> := [child];
      var current := child;
      while current in parents && current !in complete
        invariant Climbs(parents, climbed) && climbed != [] && climbed[|climbed| - 1] == current
        invariant forall x :: x in trail <==> x in climbed[..|climbed| - 1]
        invariant forall i, j :: 0 <= i < j < |climbed| - 1 ==> climbed[i] != climbed[j]
        invariant trail <= parents.Keys && trail !! complete
        invariant current != child ==> child in trail
        decreases parents.Keys - trail
      {
        if current in trail {
          TrailCloses(parents, climbed, current);
          return false;
        }
        trail := trail + {current};
        current := parents[current];
        climbed := climbed + [current];
      }
      ghost var cleared := Downwards(climbed[..|climbed| - 1]);
      ClearTrail(parents, order, climbed);
      AppendsDistinct(order, cleared);
      order := order + cleared;
      complete := complete + trail;
      remaining := remaining - {child};
    }
    OrderedIsAcyclic(g, order);
    return true;
  }

  /** A trail from the top down. */
  ghost function Downwards(trail: seq<string>): (down: seq<string>)
    ensures |down| == |trail|
    ensures forall i :: 0 <= i < |trail| ==> down[i] == trail[|trail| - 1 - i]
    ensures forall x :: x in down <==> x in trail
  {
    if trail == [] then [] else Downwards(trail[1..]) + [trail[0]]
  }

  lemma AppendsDistinct(order: seq<string>, more: seq<string>)
    requires forall i, j :: 0 <= i < j < |order| ==> order[i] != order[j]
    requires forall i, j :: 0 <= i < j < |more| ==> more[i] != more[j]
    requires forall x :: x in more ==> x !in order
    ensures forall i, j :: 0 <= i < j < |order + more| ==> (order + more)[i] != (order + more)[j]
  {
    var both := order + more;
    forall i, j | 0 <= i < j < |both|
      ensures both[i] != both[j]
    {
      if i < |order| <= j {
        assert both[j] in more;
      }
    }
  }

  lemma TrailCloses(parents: map<string, string>, climbed: seq<string>, current: string)
    requires Climbs(parents, climbed) && climbed != [] && climbed[|climbed| - 1] == current
    requires current in climbed[..|climbed| - 1]
    ensures !Acyclic(AsGraph(parents))
  {
    var i :| 0 <= i < |climbed| - 1 && climbed[i] == current;
    assert IsClosedWalk(AsGraph(parents), climbed[i..]);
  }

  /** Clearing a finished trail keeps every cleared event's parent, if it has one, ahead of it. */
  lemma ClearTrail(parents: map<string, string>, order: seq<string>, climbed: seq<string>)
    requires Climbs(parents, climbed) && climbed != []
    requires LeadsBack(AsGraph(parents), order)
    requires climbed[|climbed| - 1] in parents ==> climbed[|climbed| - 1] in order
    ensures LeadsBack(AsGraph(parents), order + Downwards(climbed[..|climbed| - 1]))
  {
    var g := AsGraph(parents);
    var trail := climbed[..|climbed| - 1];
    var down := Downwards(trail);
    var order' := order + down;
    forall i, m | 0 <= i < |order'| && order'[i] in g && m in g[order'[i]] && m in g
      ensures m in order'[..i]
    {
      if i < |order| {
        assert order'[i] == order[i] && order'[..i] == order[..i];
      } else {
        var k := |trail| - 1 - (i - |order|);
        assert order'[i] == climbed[k] && m == climbed[k + 1];
        if k + 1 < |trail| {
          assert order'[i - 1] == climbed[k + 1];
        } else {
          var j :| 0 <= j < |order| && order[j] == m;
          assert order'[j] == m;
        }
      }
    }
  }
}
