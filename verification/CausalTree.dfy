/**
 The text rendering of a run's causal structure (src/runtime_tools/inspect.py).

 The renderer walks the hierarchy with an explicit stack that holds a marker for leaving each event again, a set of the
 events it is inside of, and a cap on the number of items. `Show` is the same walk as a plain recursion that carries the
 path of ancestors. The two agree on every graph, cyclic or not; the cap only cuts the result short.
 */
module CausalTree {
  import opened Sums
  import opened Graphs

  datatype Marker = Fresh | Cycle | AlreadyShown

  datatype Line = Line(id: string, depth: nat, marker: Marker)

  /** The children of each event, in the order in which they are to be shown. */
  type Hierarchy = map<string, seq<string>>

  predicate Closed(h: Hierarchy) {
    forall id, child :: id in h && child in h[id] ==> child in h
  }

  // ----- building the hierarchy

  datatype Edge = Edge(source: string, target: string)

  predicate Resolves(edge: Edge, events: seq<string>) {
    edge.source in events && edge.target in events
  }

  function TargetsOf(edges: seq<Edge>, events: seq<string>, source: string): seq<string> {
    if edges == [] then []
    else
      var edge := edges[|edges| - 1];
      var before := TargetsOf(edges[..|edges| - 1], events, source);
      if edge.source == source && Resolves(edge, events) then before + [edge.target] else before
  }

  function IncomingOf(edges: seq<Edge>, events: seq<string>): set<string> {
    if edges == [] then {}
    else
      var edge := edges[|edges| - 1];
      IncomingOf(edges[..|edges| - 1], events) + if Resolves(edge, events) then {edge.target} else {}
  }

  function ResolvedCount(edges: seq<Edge>, events: seq<string>): nat {
    if edges == [] then 0
    else ResolvedCount(edges[..|edges| - 1], events) + if Resolves(edges[|edges| - 1], events) then 1 else 0
  }

  lemma {:induction false} TargetsResolve(edges: seq<Edge>, events: seq<string>, source: string, target: string)
    ensures target in TargetsOf(edges, events, source)
            <==> Edge(source, target) in edges && Resolves(Edge(source, target), events)
    ensures target in TargetsOf(edges, events, source) ==> target in IncomingOf(edges, events)
    decreases |edges|
  {
    if edges != [] {
      var before := edges[..|edges| - 1];
      TargetsResolve(before, events, source, target);
      assert edges == before + [edges[|edges| - 1]];
    }
  }

  lemma {:induction false} IncomingResolve(edges: seq<Edge>, events: seq<string>,
                                           target: string) returns (source: string)
    requires target in IncomingOf(edges, events)
    ensures source in events && target in TargetsOf(edges, events, source)
    decreases |edges|
  {
    var edge := edges[|edges| - 1];
    if Resolves(edge, events) && edge.target == target {
      source := edge.source;
    } else {
      source := IncomingResolve(edges[..|edges| - 1], events, target);
    }
  }

  /** Children and events with a parent, from the hierarchy edges in their stored order. */
  method BuildChildren(events: seq<string>, edges: seq<Edge>) returns (children: Hierarchy, incoming: set<string>)
    ensures forall id :: id in children <==> id in events
    ensures forall id :: id in children ==> children[id] == TargetsOf(edges, events, id)
    ensures incoming == IncomingOf(edges, events)
    ensures Out(children, children.Keys) == ResolvedCount(edges, events)
    ensures Closed(children)
  {
    children := map id | id in events :: [];
    incoming := {};
    EmptyOut(children);
    for n := 0 to |edges|
      invariant forall id :: id in children <==> id in events
      invariant forall id :: id in children ==> children[id] == TargetsOf(edges[..n], events, id)
      invariant incoming == IncomingOf(edges[..n], events)
      invariant Out(children, children.Keys) == ResolvedCount(edges[..n], events)
    {
      assert edges[..n + 1][..n] == edges[..n];
      var edge := edges[n];
      if edge.source in children && edge.target in children {
        AddOut(children, edge.source, edge.target);
        children := children[edge.source := children[edge.source] + [edge.target]];
        incoming := incoming + {edge.target};
      }
    }
    assert edges[..|edges|] == edges;
    ChildrenClosed(events, edges, children);
  }

  lemma ChildrenClosed(events: seq<string>, edges: seq<Edge>, children: Hierarchy)
    requires forall id :: id in children <==> id in events
    requires forall id :: id in children ==> children[id] == TargetsOf(edges, events, id)
    ensures Closed(children)
  {
    forall id, child | id in children && child in children[id]
      ensures child in children
    {
      TargetsResolve(edges, events, id, child);
    }
  }

  /** How many children the given events have together. */
  ghost function Out(h: Hierarchy, ids: set<string>): int {
    MapSum(map id | id in ids && id in h :: |h[id]|)
  }

  lemma EmptyOut(h: Hierarchy)
    requires forall id :: id in h ==> h[id] == []
    ensures Out(h, h.Keys) == 0
  {
    AllZero(map id | id in h.Keys && id in h :: |h[id]|);
  }

  lemma {:induction false} AllZero(m: map<string, int>)
    requires forall k :: k in m ==> m[k] == 0
    ensures MapSum(m) == 0
    decreases |m|
  {
    if m != map[] {
      var k :| k in m;
      MapSumRemove(m, k);
      AllZero(m - {k});
    }
  }

  lemma AddOut(h: Hierarchy, source: string, target: string)
    requires source in h
    ensures var h' := h[source := h[source] + [target]];
            Out(h', h'.Keys) == Out(h, h.Keys) + 1
  {
    var h' := h[source := h[source] + [target]];
    var sizes := map id | id in h.Keys && id in h :: |h[id]|;
    MapSumUpdate(sizes, source, |h[source]| + 1);
    assert (map id | id in h'.Keys && id in h' :: |h'[id]|) == sizes[source := |h[source]| + 1];
  }

  lemma {:induction false} OutAdd(h: Hierarchy, ids: set<string>, id: string)
    requires id in h && id !in ids
    ensures Out(h, ids + {id}) == Out(h, ids) + |h[id]|
  {
    var sizes := map x | x in ids && x in h :: |h[x]|;
    MapSumUpdate(sizes, id, |h[id]|);
    assert (map x | x in ids + {id} && x in h :: |h[x]|) == sizes[id := |h[id]|];
  }

  // ----- the recursive walk

  /** What has been shown: the lines, the events expanded, and those of them that have been left again, in that order. */
  datatype Page = Page(lines: seq<Line>, visited: set<string>, left: seq<string>)

  const BLANK := Page([], {}, [])

  predicate Sane(h: Hierarchy, page: Page) {
    Closed(h) && page.visited <= h.Keys
  }

  function MarkerFor(id: string, path: seq<string>, visited: set<string>): Marker {
    if id in path then Cycle else if id in visited then AlreadyShown else Fresh
  }

  /** Shows an event under its ancestors: marked if it is one of them or has been shown, else with its children. */
  function Show(h: Hierarchy, id: string, path: seq<string>, page: Page): (page': Page)
    requires Sane(h, page) && id in h
    ensures Sane(h, page') && page.visited <= page'.visited && page.lines <= page'.lines
    decreases |h.Keys - page.visited|, 0
  {
    var line := Line(id, |path|, MarkerFor(id, path, page.visited));
    if line.marker != Fresh then page.(lines := page.lines + [line])
    else
      Shrinks(h.Keys, page.visited, id);
      var shown := ShowAll(h, h[id], path + [id], Page(page.lines + [line], page.visited + {id}, page.left));
      shown.(left := shown.left + [id])
  }

  function ShowAll(h: Hierarchy, ids: seq<string>, path: seq<string>, page: Page): (page': Page)
    requires Sane(h, page) && forall id :: id in ids ==> id in h
    ensures Sane(h, page') && page.visited <= page'.visited && page.lines <= page'.lines
    decreases |h.Keys - page.visited|, 1 + |ids|
  {
    if ids == [] then page
    else
      var shown := Show(h, ids[0], path, page);
      Keeps(h.Keys, page.visited, shown.visited);
      ShowAll(h, ids[1..], path, shown)
  }

  lemma Shrinks(all: set<string>, visited: set<string>, id: string)
    requires id in all && id !in visited
    ensures |all - (visited + {id})| < |all - visited|
  {
    assert all - visited == (all - (visited + {id})) + {id};
  }

  lemma Keeps(all: set<string>, visited: set<string>, visited': set<string>)
    requires visited <= visited'
    ensures |all - visited'| <= |all - visited|
  {
    assert all - visited == (all - visited') + ((all - visited) - (all - visited'));
  }

  /** Every event that is still missing becomes the start of another tree. */
  function ShowMissing(h: Hierarchy, ids: seq<string>, page: Page): (page': Page)
    requires Sane(h, page) && forall id :: id in ids ==> id in h
    ensures Sane(h, page') && page.visited <= page'.visited && page.lines <= page'.lines
    decreases |ids|
  {
    if ids == [] then page
    else ShowMissing(h, ids[1..], if ids[0] in page.visited then page else Show(h, ids[0], [], page))
  }

  /** The whole rendering, without a cap: first the trees under the roots, then whatever they do not reach. */
  function Rendering(h: Hierarchy, roots: seq<string>, events: seq<string>): Page
    requires Closed(h) && (forall id :: id in roots ==> id in h) && (forall id :: id in events ==> id in h)
  {
    ShowMissing(h, events, ShowAll(h, roots, [], BLANK))
  }

  // ----- how many lines there are

  lemma {:induction false} ShowCount(h: Hierarchy, id: string, path: seq<string>, page: Page)
    requires Sane(h, page) && id in h
    ensures var page' := Show(h, id, path, page);
            |page'.lines| == |page.lines| + 1 + Out(h, page'.visited) - Out(h, page.visited)
    decreases |h.Keys - page.visited|, 0
  {
    var line := Line(id, |path|, MarkerFor(id, path, page.visited));
    if line.marker == Fresh {
      Shrinks(h.Keys, page.visited, id);
      OutAdd(h, page.visited, id);
      ShowAllCount(h, h[id], path + [id], Page(page.lines + [line], page.visited + {id}, page.left));
    }
  }

  lemma {:induction false} ShowAllCount(h: Hierarchy, ids: seq<string>, path: seq<string>, page: Page)
    requires Sane(h, page) && forall id :: id in ids ==> id in h
    ensures var page' := ShowAll(h, ids, path, page);
            |page'.lines| == |page.lines| + |ids| + Out(h, page'.visited) - Out(h, page.visited)
    decreases |h.Keys - page.visited|, 1 + |ids|
  {
    if ids != [] {
      var shown := Show(h, ids[0], path, page);
      Keeps(h.Keys, page.visited, shown.visited);
      ShowCount(h, ids[0], path, page);
      ShowAllCount(h, ids[1..], path, shown);
    }
  }

  /** How many of the events still start a tree of their own. */
  function MissingStarts(h: Hierarchy, ids: seq<string>, page: Page): nat
    requires Sane(h, page) && forall id :: id in ids ==> id in h
    decreases |ids|
  {
    if ids == [] then 0
    else if ids[0] in page.visited then MissingStarts(h, ids[1..], page)
    else 1 + MissingStarts(h, ids[1..], Show(h, ids[0], [], page))
  }

  lemma {:induction false} ShowMissingCount(h: Hierarchy, ids: seq<string>, page: Page)
    requires Sane(h, page) && forall id :: id in ids ==> id in h
    ensures var page' := ShowMissing(h, ids, page);
            && |page'.lines| == |page.lines| + MissingStarts(h, ids, page) + Out(h, page'.visited) - Out(h, page.visited)
            && (forall id :: id in ids ==> id in page'.visited)
    decreases |ids|
  {
    if ids != [] {
      if ids[0] in page.visited {
        ShowMissingCount(h, ids[1..], page);
      } else {
        ShowCount(h, ids[0], [], page);
        ShowMissingCount(h, ids[1..], Show(h, ids[0], [], page));
        ShownIsVisited(h, ids[0], [], page);
      }
    }
  }

  lemma ShownIsVisited(h: Hierarchy, id: string, path: seq<string>, page: Page)
    requires Sane(h, page) && id in h && id !in path
    ensures id in Show(h, id, path, page).visited
  {
  }

  /** The lines of the whole rendering: one for every tree started and one for every hierarchy edge. */
  lemma RenderingCount(h: Hierarchy, roots: seq<string>, events: seq<string>)
    requires Closed(h) && (forall id :: id in roots ==> id in h) && (forall id :: id in events <==> id in h)
    ensures var page := Rendering(h, roots, events);
            && page.visited == h.Keys
            && |page.lines| == |roots| + MissingStarts(h, events, ShowAll(h, roots, [], BLANK)) + Out(h, h.Keys)
  {
    ShowAllCount(h, roots, [], BLANK);
    ShowMissingCount(h, events, ShowAll(h, roots, [], BLANK));
    assert Rendering(h, roots, events).visited == h.Keys;
    assert Out(h, {}) == 0;
  }

  // ----- what the markers mean, read off the lines themselves

  /** The events a next line of the given depth would be indented under, outermost first. */
  function Enclosing(lines: seq<Line>, depth: nat): seq<string>
    decreases |lines|
  {
    if depth == 0 || lines == [] then []
    else
      var last := lines[|lines| - 1];
      var before := lines[..|lines| - 1];
      if last.depth == depth - 1 then Enclosing(before, depth - 1) + [last.id] else Enclosing(before, depth)
  }

  /** The events shown without a marker. */
  function ShownIn(lines: seq<Line>): set<string>
    decreases |lines|
  {
    if lines == [] then {}
    else
      var last := lines[|lines| - 1];
      ShownIn(lines[..|lines| - 1]) + if last.marker == Fresh then {last.id} else {}
  }

  /** A line is indented under a chain of parents, and marked by what stands above it and before it. */
  ghost predicate Explained(h: Hierarchy, lines: seq<Line>, i: nat)
    requires i < |lines|
  {
    var line := lines[i];
    var up := Enclosing(lines[..i], line.depth);
    && |up| == line.depth
    && (up != [] ==> up[|up| - 1] in h && line.id in h[up[|up| - 1]])
    && (line.marker.Cycle? <==> line.id in up)
    && (line.marker.AlreadyShown? <==> line.id !in up && line.id in ShownIn(lines[..i]))
  }

  ghost predicate AllExplained(h: Hierarchy, page: Page) {
    && page.visited == ShownIn(page.lines)
    && forall i :: 0 <= i < |page.lines| ==> Explained(h, page.lines, i)
  }

  lemma AppendExplained(h: Hierarchy, lines: seq<Line>, line: Line)
    requires forall i :: 0 <= i < |lines| ==> Explained(h, lines, i)
    requires Explained(h, lines + [line], |lines|)
    ensures forall i :: 0 <= i < |lines + [line]| ==> Explained(h, lines + [line], i)
  {
    var lines' := lines + [line];
    forall i | 0 <= i < |lines'|
      ensures Explained(h, lines', i)
    {
      if i < |lines| {
        assert lines'[..i] == lines[..i];
        assert Explained(h, lines, i);
      }
    }
  }

  lemma AppendLaws(lines: seq<Line>, line: Line, depth: nat)
    ensures ShownIn(lines + [line]) == ShownIn(lines) + if line.marker == Fresh then {line.id} else {}
    ensures line.depth >= depth ==> Enclosing(lines + [line], depth) == Enclosing(lines, depth)
    ensures line.depth == depth ==> Enclosing(lines + [line], depth + 1) == Enclosing(lines, depth) + [line.id]
  {
    assert (lines + [line])[..|lines|] == lines;
  }

  lemma {:induction false} ShowExplained(h: Hierarchy, id: string, path: seq<string>, page: Page)
    requires Sane(h, page) && id in h && AllExplained(h, page)
    requires Enclosing(page.lines, |path|) == path
    requires path != [] ==> path[|path| - 1] in h && id in h[path[|path| - 1]]
    ensures AllExplained(h, Show(h, id, path, page))
    ensures forall d :: 0 <= d <= |path| ==> Enclosing(Show(h, id, path, page).lines, d) == Enclosing(page.lines, d)
    decreases |h.Keys - page.visited|, 0
  {
    var line := Line(id, |path|, MarkerFor(id, path, page.visited));
    var lines := page.lines + [line];
    LineExplained(h, id, path, page);
    forall d | 0 <= d <= |path|
      ensures Enclosing(lines, d) == Enclosing(page.lines, d)
    {
      AppendLaws(page.lines, line, d);
    }
    if line.marker == Fresh {
      Shrinks(h.Keys, page.visited, id);
      AppendLaws(page.lines, line, |path|);
      ShowAllExplained(h, h[id], path + [id], Page(lines, page.visited + {id}, page.left));
    }
  }

  lemma LineExplained(h: Hierarchy, id: string, path: seq<string>, page: Page)
    requires Sane(h, page) && id in h && AllExplained(h, page)
    requires Enclosing(page.lines, |path|) == path
    requires path != [] ==> path[|path| - 1] in h && id in h[path[|path| - 1]]
    ensures var line := Line(id, |path|, MarkerFor(id, path, page.visited));
            var lines := page.lines + [line];
            && (forall i :: 0 <= i < |lines| ==> Explained(h, lines, i))
            && ShownIn(lines) == page.visited + if line.marker == Fresh then {id} else {}
  {
    var line := Line(id, |path|, MarkerFor(id, path, page.visited));
    assert (page.lines + [line])[..|page.lines|] == page.lines;
    AppendExplained(h, page.lines, line);
    AppendLaws(page.lines, line, |path|);
  }

  lemma {:induction false} ShowAllExplained(h: Hierarchy, ids: seq<string>, path: seq<string>, page: Page)
    requires Sane(h, page) && (forall id :: id in ids ==> id in h) && AllExplained(h, page)
    requires Enclosing(page.lines, |path|) == path
    requires path != [] ==> path[|path| - 1] in h && forall id :: id in ids ==> id in h[path[|path| - 1]]
    ensures AllExplained(h, ShowAll(h, ids, path, page))
    ensures forall d :: 0 <= d <= |path| ==> Enclosing(ShowAll(h, ids, path, page).lines, d) == Enclosing(page.lines, d)
    decreases |h.Keys - page.visited|, 1 + |ids|
  {
    if ids != [] {
      var shown := Show(h, ids[0], path, page);
      Keeps(h.Keys, page.visited, shown.visited);
      assert ids[0] in ids && forall id :: id in ids[1..] ==> id in ids;
      ShowExplained(h, ids[0], path, page);
      ShowAllExplained(h, ids[1..], path, shown);
    }
  }

  lemma {:induction false} ShowMissingExplained(h: Hierarchy, ids: seq<string>, page: Page)
    requires Sane(h, page) && (forall id :: id in ids ==> id in h) && AllExplained(h, page)
    ensures AllExplained(h, ShowMissing(h, ids, page))
    decreases |ids|
  {
    if ids != [] {
      if ids[0] !in page.visited {
        ShowExplained(h, ids[0], [], page);
      }
      ShowMissingExplained(h, ids[1..], if ids[0] in page.visited then page else Show(h, ids[0], [], page));
    }
  }

  /**
   On every graph: each line is indented under a chain of parents; "(cycle)" marks exactly the lines whose event is one
   of those above it, "(already shown)" exactly the other repetitions; and every event is shown once without a marker.
   */
  lemma RenderingExplained(h: Hierarchy, roots: seq<string>, events: seq<string>)
    requires Closed(h) && (forall id :: id in roots ==> id in h) && (forall id :: id in events <==> id in h)
    ensures var lines := Rendering(h, roots, events).lines;
            && (forall i :: 0 <= i < |lines| ==> Explained(h, lines, i))
            && ShownIn(lines) == h.Keys
            && (forall i, j :: 0 <= i < j < |lines| && lines[i].marker == Fresh && lines[j].marker == Fresh
                  ==> lines[i].id != lines[j].id)
  {
    ShowAllExplained(h, roots, [], BLANK);
    ShowMissingExplained(h, events, ShowAll(h, roots, [], BLANK));
    RenderingCount(h, roots, events);
    var lines := Rendering(h, roots, events).lines;
    forall i, j | 0 <= i < j < |lines| && lines[i].marker == Fresh && lines[j].marker == Fresh
      ensures lines[i].id != lines[j].id
    {
      assert Explained(h, lines, j);
      ShownBefore(lines[..j], i);
    }
  }

  lemma {:induction false} ShownBefore(lines: seq<Line>, i: nat)
    requires i < |lines| && lines[i].marker == Fresh
    ensures lines[i].id in ShownIn(lines)
    decreases |lines|
  {
    if i < |lines| - 1 {
      ShownBefore(lines[..|lines| - 1], i);
    }
  }

  // ----- the order of the lines

  /** The events one level below the given depth, up to the first line that is not below it. */
  function Under(lines: seq<Line>, depth: int): seq<string> {
    if lines == [] || lines[0].depth <= depth then []
    else (if lines[0].depth == depth + 1 then [lines[0].id] else []) + Under(lines[1..], depth)
  }

  function ChildrenShown(h: Hierarchy, line: Line): seq<string> {
    if line.marker.Fresh? && line.id in h then h[line.id] else []
  }

  /** Below an event shown without a marker are its children, all of them and in order; below a marked one is nothing. */
  predicate InOrder(h: Hierarchy, lines: seq<Line>) {
    lines == [] || (Under(lines[1..], lines[0].depth) == ChildrenShown(h, lines[0]) && InOrder(h, lines[1..]))
  }

  ghost predicate AllBelow(lines: seq<Line>, depth: int) {
    forall i :: 0 <= i < |lines| ==> lines[i].depth > depth
  }

  lemma {:induction false} UnderStops(lines: seq<Line>, more: seq<Line>, depth: int)
    requires more == [] || more[0].depth <= depth
    ensures Under(lines + more, depth) == Under(lines, depth)
  {
    if lines == [] {
      assert lines + more == more;
    } else {
      assert (lines + more)[1..] == lines[1..] + more;
      UnderStops(lines[1..], more, depth);
    }
  }

  lemma {:induction false} UnderJoins(lines: seq<Line>, more: seq<Line>, depth: int)
    requires AllBelow(lines, depth)
    ensures Under(lines + more, depth) == Under(lines, depth) + Under(more, depth)
  {
    if lines == [] {
      assert lines + more == more;
    } else {
      assert (lines + more)[1..] == lines[1..] + more;
      UnderJoins(lines[1..], more, depth);
    }
  }

  /** Lines of trees at one depth: in order, none above that depth, and starting with the given events. */
  ghost predicate Trees(h: Hierarchy, lines: seq<Line>, depth: nat, ids: seq<string>) {
    && InOrder(h, lines) && AllBelow(lines, depth - 1) && (lines == [] || lines[0].depth == depth)
    && Under(lines, depth - 1) == ids
  }

  lemma {:induction false} OrderJoins(h: Hierarchy, lines: seq<Line>, more: seq<Line>, depth: int)
    requires InOrder(h, lines) && InOrder(h, more) && AllBelow(lines, depth - 1)
    requires more == [] || more[0].depth == depth
    ensures InOrder(h, lines + more)
  {
    if lines == [] {
      assert lines + more == more;
    } else {
      assert (lines + more)[1..] == lines[1..] + more;
      UnderStops(lines[1..], more, lines[0].depth);
      OrderJoins(h, lines[1..], more, depth);
    }
  }

  lemma TreesJoin(h: Hierarchy, lines: seq<Line>, ids: seq<string>, more: seq<Line>, others: seq<string>, depth: nat)
    requires Trees(h, lines, depth, ids) && Trees(h, more, depth, others)
    ensures Trees(h, lines + more, depth, ids + others)
  {
    OrderJoins(h, lines, more, depth);
    UnderJoins(lines, more, depth - 1);
    if lines == [] {
      assert lines + more == more;
    }
  }

  /** An event above its children. */
  lemma OrderBelow(h: Hierarchy, line: Line, below: seq<Line>)
    requires Trees(h, below, line.depth + 1, ChildrenShown(h, line))
    ensures Trees(h, [line] + below, line.depth, [line.id])
  {
    var all := [line] + below;
    assert all[1..] == below;
    NothingUnder(below, line.depth - 1);
  }

  /** What a walk adds to the lines. */
  function Added(before: Page, after: Page): seq<Line>
    requires before.lines <= after.lines
  {
    after.lines[|before.lines|..]
  }

  lemma {:induction false} ShowInOrder(h: Hierarchy, id: string, path: seq<string>, page: Page)
    requires Sane(h, page) && id in h
    ensures Trees(h, Added(page, Show(h, id, path, page)), |path|, [id])
    decreases |h.Keys - page.visited|, 0
  {
    var line := Line(id, |path|, MarkerFor(id, path, page.visited));
    var added := Added(page, Show(h, id, path, page));
    if line.marker != Fresh {
      OrderBelow(h, line, []);
      assert added == [line] + [];
    } else {
      Shrinks(h.Keys, page.visited, id);
      var inside := Page(page.lines + [line], page.visited + {id}, page.left);
      ShowAllInOrder(h, h[id], path + [id], inside);
      var below := Added(inside, ShowAll(h, h[id], path + [id], inside));
      assert added == [line] + below;
      OrderBelow(h, line, below);
    }
  }

  lemma {:induction false} NothingUnder(lines: seq<Line>, depth: int)
    requires AllBelow(lines, depth + 1)
    ensures Under(lines, depth) == []
  {
    if lines != [] {
      NothingUnder(lines[1..], depth);
    }
  }

  lemma {:induction false} ShowAllInOrder(h: Hierarchy, ids: seq<string>, path: seq<string>, page: Page)
    requires Sane(h, page) && forall id :: id in ids ==> id in h
    ensures Trees(h, Added(page, ShowAll(h, ids, path, page)), |path|, ids)
    decreases |h.Keys - page.visited|, 1 + |ids|
  {
    if ids != [] {
      var shown := Show(h, ids[0], path, page);
      Keeps(h.Keys, page.visited, shown.visited);
      ShowInOrder(h, ids[0], path, page);
      ShowAllInOrder(h, ids[1..], path, shown);
      AddedJoins(h, page, shown, ShowAll(h, ids[1..], path, shown), |path|, [ids[0]], ids[1..]);
      assert [ids[0]] + ids[1..] == ids;
    }
  }

  lemma AddedJoins(h: Hierarchy, page: Page, shown: Page, after: Page, depth: nat, ids: seq<string>, others: seq<string>)
    requires page.lines <= shown.lines <= after.lines
    requires Trees(h, Added(page, shown), depth, ids) && Trees(h, Added(shown, after), depth, others)
    ensures Trees(h, Added(page, after), depth, ids + others)
  {
    assert Added(page, after) == Added(page, shown) + Added(shown, after);
    TreesJoin(h, Added(page, shown), ids, Added(shown, after), others, depth);
  }

  /** The events that start a tree although they are no roots. */
  function Started(h: Hierarchy, ids: seq<string>, page: Page): seq<string>
    requires Sane(h, page) && forall id :: id in ids ==> id in h
    decreases |ids|
  {
    if ids == [] then []
    else if ids[0] in page.visited then Started(h, ids[1..], page)
    else [ids[0]] + Started(h, ids[1..], Show(h, ids[0], [], page))
  }

  lemma {:induction false} ShowMissingInOrder(h: Hierarchy, ids: seq<string>, page: Page)
    requires Sane(h, page) && forall id :: id in ids ==> id in h
    ensures Trees(h, Added(page, ShowMissing(h, ids, page)), 0, Started(h, ids, page))
    decreases |ids|
  {
    if ids != [] {
      if ids[0] in page.visited {
        ShowMissingInOrder(h, ids[1..], page);
      } else {
        var shown := Show(h, ids[0], [], page);
        ShowInOrder(h, ids[0], [], page);
        ShowMissingInOrder(h, ids[1..], shown);
        AddedJoins(h, page, shown, ShowMissing(h, ids[1..], shown), 0, [ids[0]], Started(h, ids[1..], shown));
      }
    }
  }

  lemma {:induction false} OrderAt(h: Hierarchy, lines: seq<Line>, i: nat)
    requires InOrder(h, lines) && i < |lines|
    ensures Under(lines[i + 1..], lines[i].depth) == ChildrenShown(h, lines[i])
  {
    if i > 0 {
      OrderAt(h, lines[1..], i - 1);
      assert lines[1..][i..] == lines[i + 1..];
    }
  }

  /**
   On every graph: the trees are those of the roots, in order, and then those of events that were still missing, in order; and
   directly below each event shown without a marker stand its children, all of them and in order.
   */
  lemma RenderingInOrder(h: Hierarchy, roots: seq<string>, events: seq<string>)
    requires Closed(h) && (forall id :: id in roots ==> id in h) && (forall id :: id in events ==> id in h)
    ensures var lines := Rendering(h, roots, events).lines;
            && Under(lines, -1) == roots + Started(h, events, ShowAll(h, roots, [], BLANK))
            && forall i :: 0 <= i < |lines| ==> Under(lines[i + 1..], lines[i].depth) == ChildrenShown(h, lines[i])
  {
    var rooted, lines := ShowAll(h, roots, [], BLANK), Rendering(h, roots, events).lines;
    ShowAllInOrder(h, roots, [], BLANK);
    ShowMissingInOrder(h, events, rooted);
    AddedJoins(h, BLANK, rooted, ShowMissing(h, events, rooted), 0, roots, Started(h, events, rooted));
    assert Added(BLANK, Rendering(h, roots, events)) == lines;
    forall i | 0 <= i < |lines|
      ensures Under(lines[i + 1..], lines[i].depth) == ChildrenShown(h, lines[i])
    {
      OrderAt(h, lines, i);
    }
  }

  // ----- cycles are shown exactly when there are some

  ghost function AsGraph(h: Hierarchy): Graph<string> {
    map id | id in h :: set child | child in h[id]
  }

  ghost predicate ShowsNoCycle(page: Page) {
    forall line :: line in page.lines ==> line.marker != Cycle
  }

  lemma CycleOnPath(h: Hierarchy, id: string, path: seq<string>)
    requires IsWalk(AsGraph(h), path + [id]) && id in path
    ensures !Acyclic(AsGraph(h))
  {
    var i :| 0 <= i < |path| && path[i] == id;
    var walk := (path + [id])[i..];
    assert forall k :: 0 <= k < |walk| ==> walk[k] == (path + [id])[i + k];
    assert IsClosedWalk(AsGraph(h), walk);
  }

  lemma StepDown(h: Hierarchy, id: string, path: seq<string>, child: string)
    requires IsWalk(AsGraph(h), path + [id]) && id in h && child in h[id]
    ensures IsWalk(AsGraph(h), (path + [id]) + [child])
  {
    var walk := (path + [id]) + [child];
    forall i | 0 <= i < |walk| - 1
      ensures walk[i] in AsGraph(h) && walk[i + 1] in AsGraph(h)[walk[i]]
    {
      if i < |path| {
        assert walk[i] == (path + [id])[i] && walk[i + 1] == (path + [id])[i + 1];
      }
    }
  }

  lemma {:induction false} ShowAcyclic(h: Hierarchy, id: string, path: seq<string>, page: Page)
    requires Sane(h, page) && id in h && Acyclic(AsGraph(h)) && ShowsNoCycle(page)
    requires IsWalk(AsGraph(h), path + [id])
    ensures ShowsNoCycle(Show(h, id, path, page))
    decreases |h.Keys - page.visited|, 0
  {
    if id in path {
      CycleOnPath(h, id, path);
    } else if id !in page.visited {
      Shrinks(h.Keys, page.visited, id);
      forall child | child in h[id]
        ensures IsWalk(AsGraph(h), (path + [id]) + [child])
      {
        StepDown(h, id, path, child);
      }
      ShowAllAcyclic(h, h[id], path + [id], Page(page.lines + [Line(id, |path|, Fresh)], page.visited + {id}, page.left));
    }
  }

  lemma {:induction false} ShowAllAcyclic(h: Hierarchy, ids: seq<string>, path: seq<string>, page: Page)
    requires Sane(h, page) && (forall id :: id in ids ==> id in h) && Acyclic(AsGraph(h)) && ShowsNoCycle(page)
    requires forall id :: id in ids ==> IsWalk(AsGraph(h), path + [id])
    ensures ShowsNoCycle(ShowAll(h, ids, path, page))
    decreases |h.Keys - page.visited|, 1 + |ids|
  {
    if ids != [] {
      var shown := Show(h, ids[0], path, page);
      Keeps(h.Keys, page.visited, shown.visited);
      ShowAcyclic(h, ids[0], path, page);
      ShowAllAcyclic(h, ids[1..], path, shown);
    }
  }

  lemma {:induction false} ShowMissingAcyclic(h: Hierarchy, ids: seq<string>, page: Page)
    requires Sane(h, page) && (forall id :: id in ids ==> id in h) && Acyclic(AsGraph(h)) && ShowsNoCycle(page)
    ensures ShowsNoCycle(ShowMissing(h, ids, page))
    decreases |ids|
  {
    if ids != [] {
      if ids[0] !in page.visited {
        assert IsWalk(AsGraph(h), [] + [ids[0]]);
        ShowAcyclic(h, ids[0], [], page);
      }
      ShowMissingAcyclic(h, ids[1..], if ids[0] in page.visited then page else Show(h, ids[0], [], page));
    }
  }

  /** The events left so far are in an order in which every edge leads back; the others visited are on the path. */
  ghost predicate Ordered(h: Hierarchy, path: seq<string>, page: Page) {
    && (forall id :: id in page.visited <==> id in path || id in page.left)
    && (forall id :: id in path ==> id !in page.left)
    && (forall i, j :: 0 <= i < j < |page.left| ==> page.left[i] != page.left[j])
    && LeadsBack(AsGraph(h), page.left)
  }

  lemma {:induction false} ShowOrdered(h: Hierarchy, id: string, path: seq<string>, page: Page)
    requires Sane(h, page) && id in h && Ordered(h, path, page)
    requires ShowsNoCycle(Show(h, id, path, page))
    ensures Ordered(h, path, Show(h, id, path, page)) && id in Show(h, id, path, page).left
    ensures page.left <= Show(h, id, path, page).left
    decreases |h.Keys - page.visited|, 0
  {
    var page' := Show(h, id, path, page);
    var line := Line(id, |path|, MarkerFor(id, path, page.visited));
    if line.marker != Fresh {
      assert page'.lines[|page.lines|] == line;
    } else {
      Shrinks(h.Keys, page.visited, id);
      var begun := Page(page.lines + [line], page.visited + {id}, page.left);
      var inner := ShowAll(h, h[id], path + [id], begun);
      assert Ordered(h, path + [id], begun);
      ShowAllOrdered(h, h[id], path + [id], begun);
      assert id in path + [id];
      LeavesLast(h, inner.left, id);
    }
  }

  lemma LeavesLast(h: Hierarchy, left: seq<string>, id: string)
    requires LeadsBack(AsGraph(h), left) && id in h && forall child :: child in h[id] ==> child in left
    ensures LeadsBack(AsGraph(h), left + [id])
  {
    var left' := left + [id];
    forall i, m | 0 <= i < |left'| && left'[i] in AsGraph(h) && m in AsGraph(h)[left'[i]] && m in AsGraph(h)
      ensures m in left'[..i]
    {
      assert left'[..i] == left[..i];
    }
  }

  lemma {:induction false} ShowAllOrdered(h: Hierarchy, ids: seq<string>, path: seq<string>, page: Page)
    requires Sane(h, page) && (forall id :: id in ids ==> id in h) && Ordered(h, path, page)
    requires ShowsNoCycle(ShowAll(h, ids, path, page))
    ensures Ordered(h, path, ShowAll(h, ids, path, page))
    ensures forall id :: id in ids ==> id in ShowAll(h, ids, path, page).left
    ensures page.left <= ShowAll(h, ids, path, page).left
    decreases |h.Keys - page.visited|, 1 + |ids|
  {
    if ids != [] {
      var shown := Show(h, ids[0], path, page);
      Keeps(h.Keys, page.visited, shown.visited);
      assert shown.lines <= ShowAll(h, ids, path, page).lines;
      ShowOrdered(h, ids[0], path, page);
      ShowAllOrdered(h, ids[1..], path, shown);
    }
  }

  lemma {:induction false} ShowMissingOrdered(h: Hierarchy, ids: seq<string>, page: Page)
    requires Sane(h, page) && (forall id :: id in ids ==> id in h) && Ordered(h, [], page)
    requires ShowsNoCycle(ShowMissing(h, ids, page))
    ensures Ordered(h, [], ShowMissing(h, ids, page))
    decreases |ids|
  {
    if ids != [] {
      var next := if ids[0] in page.visited then page else Show(h, ids[0], [], page);
      assert next.lines <= ShowMissing(h, ids, page).lines;
      if ids[0] !in page.visited {
        ShowOrdered(h, ids[0], [], page);
      }
      ShowMissingOrdered(h, ids[1..], next);
    }
  }

  /** The whole rendering marks a cycle somewhere exactly when the hierarchy has one. */
  lemma CyclesShown(h: Hierarchy, roots: seq<string>, events: seq<string>)
    requires Closed(h) && (forall id :: id in roots ==> id in h) && (forall id :: id in events <==> id in h)
    ensures ShowsNoCycle(Rendering(h, roots, events)) <==> Acyclic(AsGraph(h))
  {
    var trees := ShowAll(h, roots, [], BLANK);
    var page := Rendering(h, roots, events);
    if Acyclic(AsGraph(h)) {
      forall id | id in roots
        ensures IsWalk(AsGraph(h), [] + [id])
      {
      }
      ShowAllAcyclic(h, roots, [], BLANK);
      ShowMissingAcyclic(h, events, trees);
    }
    if ShowsNoCycle(page) {
      assert trees.lines <= page.lines;
      ShowAllOrdered(h, roots, [], BLANK);
      ShowMissingOrdered(h, events, trees);
      RenderingCount(h, roots, events);
      OrderedIsAcyclic(AsGraph(h), page.left);
    }
  }

  // ----- the walk with an explicit stack

  /** What is still to do, next item first: visit an event at some depth, or leave one again. */
  datatype Work = Done | Visit(id: string, depth: nat, rest: Work) | Leave(id: string, rest: Work)

  predicate WorkWithin(h: Hierarchy, work: Work) {
    match work
    case Done => true
    case Visit(id, _, rest) => id in h && WorkWithin(h, rest)
    case Leave(_, rest) => WorkWithin(h, rest)
  }

  function Size(work: Work): nat {
    match work
    case Done => 0
    case Visit(_, _, rest) => 1 + Size(rest)
    case Leave(_, rest) => 1 + Size(rest)
  }

  function VisitAll(ids: seq<string>, depth: nat, rest: Work): (work: Work)
    ensures Size(work) == |ids| + Size(rest)
  {
    if ids == [] then rest else Visit(ids[0], depth, VisitAll(ids[1..], depth, rest))
  }

  lemma {:induction false} VisitAllWithin(h: Hierarchy, ids: seq<string>, depth: nat, rest: Work)
    requires WorkWithin(h, rest) && forall id :: id in ids ==> id in h
    ensures WorkWithin(h, VisitAll(ids, depth, rest))
  {
    if ids != [] {
      assert ids[0] in ids;
      VisitAllWithin(h, ids[1..], depth, rest);
    }
  }

  function MarkerIn(id: string, active: set<string>, visited: set<string>): Marker {
    if id in active then Cycle else if id in visited then AlreadyShown else Fresh
  }

  function Walk(h: Hierarchy, work: Work, active: set<string>, page: Page): (page': Page)
    requires Sane(h, page) && WorkWithin(h, work)
    ensures page.lines <= page'.lines
    decreases |h.Keys - page.visited|, Size(work)
  {
    match work
    case Done => page
    case Leave(id, rest) => Walk(h, rest, active - {id}, page.(left := page.left + [id]))
    case Visit(id, depth, rest) =>
      var marker := MarkerIn(id, active, page.visited);
      var lines := page.lines + [Line(id, depth, marker)];
      if marker != Fresh then Walk(h, rest, active, page.(lines := lines))
      else
        Shrinks(h.Keys, page.visited, id);
        VisitAllWithin(h, h[id], depth + 1, Leave(id, rest));
        Walk(h, VisitAll(h[id], depth + 1, Leave(id, rest)), active + {id}, Page(lines, page.visited + {id}, page.left))
  }

  ghost predicate IsPath(path: seq<string>, active: set<string>) {
    forall id :: id in path <==> id in active
  }

  /** One item of work on an event is the recursive walk from it. */
  lemma {:induction false} WalkShows(h: Hierarchy, id: string, path: seq<string>, rest: Work, active: set<string>,
                                     page: Page)
    requires Sane(h, page) && id in h && WorkWithin(h, rest) && IsPath(path, active)
    ensures Walk(h, Visit(id, |path|, rest), active, page) == Walk(h, rest, active, Show(h, id, path, page))
    decreases |h.Keys - page.visited|, 0
  {
    var line := Line(id, |path|, MarkerFor(id, path, page.visited));
    assert line.marker == MarkerIn(id, active, page.visited);
    if line.marker == Fresh {
      Shrinks(h.Keys, page.visited, id);
      VisitAllWithin(h, h[id], |path| + 1, Leave(id, rest));
      var begun := Page(page.lines + [line], page.visited + {id}, page.left);
      WalkShowsAll(h, h[id], path + [id], Leave(id, rest), active + {id}, begun);
      assert (active + {id}) - {id} == active;
    }
  }

  lemma {:induction false} WalkShowsAll(h: Hierarchy, ids: seq<string>, path: seq<string>, rest: Work,
                                        active: set<string>, page: Page)
    requires Sane(h, page) && (forall id :: id in ids ==> id in h) && WorkWithin(h, rest) && IsPath(path, active)
    ensures WorkWithin(h, VisitAll(ids, |path|, rest))
    ensures Walk(h, VisitAll(ids, |path|, rest), active, page) == Walk(h, rest, active, ShowAll(h, ids, path, page))
    decreases |h.Keys - page.visited|, 1 + |ids|
  {
    VisitAllWithin(h, ids, |path|, rest);
    if ids != [] {
      var shown := Show(h, ids[0], path, page);
      Keeps(h.Keys, page.visited, shown.visited);
      VisitAllWithin(h, ids[1..], |path|, rest);
      WalkShows(h, ids[0], path, VisitAll(ids[1..], |path|, rest), active, page);
      WalkShowsAll(h, ids[1..], path, rest, active, shown);
    }
  }

  /** Every event the walk is inside of has one marker for leaving it, innermost first. */
  predicate Balanced(work: Work, active: set<string>) {
    match work
    case Done => active == {}
    case Visit(_, _, rest) => Balanced(rest, active)
    case Leave(id, rest) => id in active && Balanced(rest, active - {id})
  }

  lemma {:induction false} VisitAllBalanced(ids: seq<string>, depth: nat, rest: Work, active: set<string>)
    requires Balanced(rest, active)
    ensures Balanced(VisitAll(ids, depth, rest), active)
  {
    if ids != [] {
      VisitAllBalanced(ids[1..], depth, rest, active);
    }
  }

  // ----- the renderer

  datatype Item = Item(id: string, depth: nat, exiting: bool)

  function AsWork(stack: seq<Item>): Work {
    if stack == [] then Done
    else
      var item := stack[|stack| - 1];
      var rest := AsWork(stack[..|stack| - 1]);
      if item.exiting then Leave(item.id, rest) else Visit(item.id, item.depth, rest)
  }

  function Reversed(ids: seq<string>, depth: nat): (items: seq<Item>)
    ensures |items| == |ids|
    ensures forall i :: 0 <= i < |ids| ==> items[i] == Item(ids[|ids| - 1 - i], depth, false)
  {
    seq(|ids|, i requires 0 <= i < |ids| => Item(ids[|ids| - 1 - i], depth, false))
  }

  lemma {:induction false} ReversedIsVisitAll(stack: seq<Item>, ids: seq<string>, depth: nat)
    ensures AsWork(stack + Reversed(ids, depth)) == VisitAll(ids, depth, AsWork(stack))
    decreases |ids|
  {
    var pushed := stack + Reversed(ids, depth);
    if ids == [] {
      assert pushed == stack;
    } else {
      assert pushed[|pushed| - 1] == Item(ids[0], depth, false);
      assert pushed[..|pushed| - 1] == stack + Reversed(ids[1..], depth);
      ReversedIsVisitAll(stack, ids[1..], depth);
    }
  }

  /** The stack, walked from the given state, leads to the full page. */
  ghost predicate Pending(h: Hierarchy, stack: seq<Item>, active: set<string>, page: Page, full: Page) {
    && Sane(h, page) && WorkWithin(h, AsWork(stack)) && Balanced(AsWork(stack), active)
    && Walk(h, AsWork(stack), active, page) == full
  }

  lemma StartsTree(h: Hierarchy, start: string, page: Page)
    requires Sane(h, page) && start in h
    ensures Pending(h, [Item(start, 0, false)], {}, page, Show(h, start, [], page))
  {
    var stack := [Item(start, 0, false)];
    assert stack[..0] == [];
    assert AsWork(stack) == Visit(start, 0, Done);
    WalkShows(h, start, [], Done, {}, page);
  }

  lemma LeavesEvent(h: Hierarchy, stack: seq<Item>, active: set<string>, page: Page, full: Page)
    requires Pending(h, stack, active, page, full) && stack != [] && stack[|stack| - 1].exiting
    ensures var id := stack[|stack| - 1].id;
            id in active && Pending(h, stack[..|stack| - 1], active - {id}, page.(left := page.left + [id]), full)
  {
  }

  /** Whatever stands on top of the stack next gets the next line of the full page. */
  lemma ShowsNext(h: Hierarchy, stack: seq<Item>, active: set<string>, page: Page, full: Page)
    requires Pending(h, stack, active, page, full) && stack != [] && !stack[|stack| - 1].exiting
    ensures |full.lines| > |page.lines| && page.lines == full.lines[..|page.lines|]
  {
    var item := stack[|stack| - 1];
    assert page.lines + [Line(item.id, item.depth, MarkerIn(item.id, active, page.visited))] <= full.lines;
  }

  lemma RepeatsEvent(h: Hierarchy, stack: seq<Item>, active: set<string>, page: Page, full: Page)
    requires Pending(h, stack, active, page, full) && stack != [] && !stack[|stack| - 1].exiting
    requires MarkerIn(stack[|stack| - 1].id, active, page.visited) != Fresh
    ensures var item := stack[|stack| - 1];
            var line := Line(item.id, item.depth, MarkerIn(item.id, active, page.visited));
            Pending(h, stack[..|stack| - 1], active, page.(lines := page.lines + [line]), full)
  {
  }

  lemma EntersEvent(h: Hierarchy, stack: seq<Item>, active: set<string>, page: Page, full: Page)
    requires Pending(h, stack, active, page, full) && stack != [] && !stack[|stack| - 1].exiting
    requires MarkerIn(stack[|stack| - 1].id, active, page.visited) == Fresh
    ensures var item := stack[|stack| - 1];
            && item.id in h
            && Pending(h, stack[..|stack| - 1] + [Item(item.id, item.depth, true)] + Reversed(h[item.id], item.depth + 1),
                       active + {item.id},
                       Page(page.lines + [Line(item.id, item.depth, Fresh)], page.visited + {item.id}, page.left), full)
  {
    PushedWork(h, stack[..|stack| - 1], stack[|stack| - 1], active);
  }

  class TreeRenderer {
    const children: Hierarchy
    const cap: nat
    var lines: seq<Line>
    var visited: set<string>
    var rendered: nat
    var truncated: bool
    ghost var left: seq<string>

    ghost function Shown(): Page
      reads this
    {
      Page(lines, visited, left)
    }

    /** The state between two trees, as long as the cap has not been hit. */
    ghost predicate Valid()
      reads this
    {
      Sane(children, Shown()) && !truncated && rendered == |lines| <= cap
    }

    /** After a step whose uncapped result is `full`. */
    ghost predicate CutTo(full: Page)
      reads this
    {
      if truncated then |full.lines| > cap && lines == full.lines[..cap]
      else Valid() && Shown() == full
    }

    constructor (children: Hierarchy, cap: nat)
      requires Closed(children)
      ensures this.children == children && this.cap == cap && Valid() && Shown() == BLANK
    {
      this.children, this.cap := children, cap;
      lines, visited, rendered, truncated, left := [], {}, 0, false, [];
    }

    /** Between two pops of the stack, which leads on to the full page. */
    ghost predicate Underway(stack: seq<Item>, active: set<string>, full: Page)
      reads this
    {
      !truncated && rendered == |lines| <= cap && Pending(children, stack, active, Shown(), full)
    }

    /** What is done with an event popped for the first time: it gets its line and, unless marked, is entered. */
    method AppendEvent(stack: seq<Item>, active: set<string>, ghost full: Page)
      returns (stack': seq<Item>, active': set<string>)
      requires stack != [] && !stack[|stack| - 1].exiting && Underway(stack, active, full)
      modifies this
      ensures if truncated then CutTo(full) else Underway(stack', active', full)
      ensures !truncated ==> children.Keys - visited < children.Keys - old(visited)
                             || (visited == old(visited) && |stack'| < |stack|)
    {
      var item := stack[|stack| - 1];
      stack', active' := stack[..|stack| - 1], active;
      if rendered >= cap {
        ShowsNext(children, stack, active, Shown(), full);
        truncated := true;
        return;
      }
      var marker := MarkerIn(item.id, active, visited);
      if marker != Fresh {
        RepeatsEvent(children, stack, active, Shown(), full);
      } else {
        EntersEvent(children, stack, active, Shown(), full);
      }
      rendered := rendered + 1;
      lines := lines + [Line(item.id, item.depth, marker)];
      if marker != Fresh {
        return;
      }
      visited := visited + {item.id};
      active' := active' + {item.id};
      stack' := stack' + [Item(item.id, item.depth, true)] + Reversed(children[item.id], item.depth + 1);
    }

    method AppendTree(start: string)
      requires Valid() && start in children
      modifies this
      ensures CutTo(Show(children, start, [], old(Shown())))
    {
      var active: set<string> := {};
      var stack := [Item(start, 0, false)];
      ghost var full := Show(children, start, [], Shown());
      StartsTree(children, start, Shown());
      while stack != []
        invariant Underway(stack, active, full)
        decreases children.Keys - visited, |stack|
      {
        var item := stack[|stack| - 1];
        if item.exiting {
          LeavesEvent(children, stack, active, Shown(), full);
          stack := stack[..|stack| - 1];
          active := active - {item.id};
          left := left + [item.id];
          continue;
        }
        stack, active := AppendEvent(stack, active, full);
        if truncated {
          return;
        }
      }
    }

    method Render(roots: seq<string>, events: seq<string>)
      requires Valid() && Shown() == BLANK
      requires (forall id :: id in roots ==> id in children) && (forall id :: id in events ==> id in children)
      modifies this
      ensures truncated <==> |Rendering(children, roots, events).lines| > cap
      ensures lines == if truncated then Rendering(children, roots, events).lines[..cap]
                       else Rendering(children, roots, events).lines
    {
      ghost var trees := ShowAll(children, roots, [], BLANK);
      ghost var full := Rendering(children, roots, events);
      assert roots[0..] == roots && events[0..] == events;
      var i := 0;
      while i < |roots| && !truncated
        invariant 0 <= i <= |roots|
        invariant !truncated ==> Valid() && ShowAll(children, roots[i..], [], Shown()) == trees
        invariant truncated ==> |full.lines| > cap && lines == full.lines[..cap]
      {
        ghost var next := Show(children, roots[i], [], Shown());
        assert roots[i..][0] == roots[i] && roots[i..][1..] == roots[i + 1..];
        assert next.lines <= trees.lines <= full.lines;
        AppendTree(roots[i]);
        i := i + 1;
      }
      i := 0;
      while i < |events| && !truncated
        invariant 0 <= i <= |events|
        invariant !truncated ==> Valid() && ShowMissing(children, events[i..], Shown()) == full
        invariant truncated ==> |full.lines| > cap && lines == full.lines[..cap]
      {
        assert events[i..][0] == events[i] && events[i..][1..] == events[i + 1..];
        if events[i] !in visited {
          ghost var next := Show(children, events[i], [], Shown());
          assert next.lines <= full.lines;
          AppendTree(events[i]);
        }
        i := i + 1;
      }
    }
  }

  /** Pushing the marker for leaving an event and then its children, last child first. */
  lemma PushedWork(h: Hierarchy, stack: seq<Item>, item: Item, active: set<string>)
    requires item.id in h && item.id !in active && Closed(h)
    requires WorkWithin(h, AsWork(stack)) && Balanced(AsWork(stack), active)
    ensures var stack' := stack + [Item(item.id, item.depth, true)] + Reversed(h[item.id], item.depth + 1);
            && AsWork(stack') == VisitAll(h[item.id], item.depth + 1, Leave(item.id, AsWork(stack)))
            && WorkWithin(h, AsWork(stack')) && Balanced(AsWork(stack'), active + {item.id})
  {
    var marked := stack + [Item(item.id, item.depth, true)];
    var leave := Leave(item.id, AsWork(stack));
    assert marked[..|marked| - 1] == stack;
    ReversedIsVisitAll(marked, h[item.id], item.depth + 1);
    VisitAllWithin(h, h[item.id], item.depth + 1, leave);
    assert (active + {item.id}) - {item.id} == active;
    VisitAllBalanced(h[item.id], item.depth + 1, leave, active + {item.id});
  }
}
