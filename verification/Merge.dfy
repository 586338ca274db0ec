/**
 Merging the profiles of many processes (src/runtime_tools/deep_profile/_aggregation.py, _ranking.py, _loader.py).

 Functions and then edges are selected by rank; what is selected is summed up per function and per edge, what is not is
 counted as dropped. Nothing is lost on the way, except exceptions of native functions that were not selected.
 */
module Merge {
  import opened Integers
  import opened Profiler
  import opened Ranking
  import opened Results
  import opened Sums

  /** One function of one process's report, and one of its edges with the functions its ends stand for. */
  datatype Row = Row(pid: int, key: Key, figures: Figures)

  datatype Call = Call(source: Key, target: Key, figures: EdgeFigures)

  /** The digest that ranks a function, and the digests of functions and edges selected. */
  datatype Choice = Choice(digest: Key -> nat, functions: set<nat>, edges: set<nat>)

  /** Digests have 256 bits; an edge's digest is that of its source followed by that of its target. */
  const DIGESTS: nat := 0x1_0000_0000_0000_0000_0000_0000_0000_0000_0000_0000_0000_0000_0000_0000_0000_0000

  function EdgeDigest(digest: Key -> nat, source: Key, target: Key): nat {
    digest(source) * DIGESTS + digest(target)
  }

  predicate Kept(choice: Choice, key: Key) {
    choice.digest(key) in choice.functions
  }

  predicate IsNative(key: Key) {
    key.filename == NATIVE_FILENAME
  }

  datatype Aggregate = Aggregate(figures: Figures, processes: map<int, Figures>)

  datatype Counts = Counts(calls: nat, exceptions: nat, escapes: nat)

  datatype Merged = Merged(functions: map<Key, Aggregate>, dropped: Counts)

  function AggregateOf(functions: map<Key, Aggregate>, key: Key): Aggregate {
    if key in functions then functions[key] else Aggregate(ZERO, map[])
  }

  function ProcessOf(processes: map<int, Figures>, pid: int): Figures {
    if pid in processes then processes[pid] else ZERO
  }

  function AddedTo(aggregate: Aggregate, row: Row): Aggregate {
    Aggregate(Plus(aggregate.figures, row.figures),
              aggregate.processes[row.pid := Plus(ProcessOf(aggregate.processes, row.pid), row.figures)])
  }

  function AlsoDropped(dropped: Counts, row: Row): Counts {
    if IsNative(row.key) then dropped.(calls := dropped.calls + row.figures.calls)
    else Counts(dropped.calls + row.figures.calls, dropped.exceptions + row.figures.exceptions, dropped.escapes + row.figures.escapes)
  }

  function WithRow(m: Merged, row: Row, choice: Choice): Merged {
    if !Kept(choice, row.key) then m.(dropped := AlsoDropped(m.dropped, row))
    else m.(functions := m.functions[row.key := AddedTo(AggregateOf(m.functions, row.key), row)])
  }

  function MergedOf(rows: seq<Row>, choice: Choice): Merged {
    if rows == [] then Merged(map[], Counts(0, 0, 0))
    else WithRow(MergedOf(rows[..|rows| - 1], choice), rows[|rows| - 1], choice)
  }

  // ----- The order of the rows does not matter -----

  lemma PlusRegroups(a: Figures, b: Figures, c: Figures)
    ensures Plus(Plus(a, b), c) == Plus(Plus(a, c), b)
  {
  }

  lemma AddedCommutes(aggregate: Aggregate, first: Row, second: Row)
    ensures AddedTo(AddedTo(aggregate, first), second) == AddedTo(AddedTo(aggregate, second), first)
  {
    PlusRegroups(aggregate.figures, first.figures, second.figures);
    PlusRegroups(ProcessOf(aggregate.processes, first.pid), first.figures, second.figures);
    var one, other := AddedTo(AddedTo(aggregate, first), second).processes, AddedTo(AddedTo(aggregate, second), first).processes;
    assert forall pid :: pid in one <==> pid in other;
    assert forall pid :: pid in one ==> one[pid] == other[pid];
    assert one == other;
  }

  lemma FunctionsCommute(functions: map<Key, Aggregate>, first: Row, second: Row)
    ensures var one := functions[first.key := AddedTo(AggregateOf(functions, first.key), first)];
            var other := functions[second.key := AddedTo(AggregateOf(functions, second.key), second)];
            one[second.key := AddedTo(AggregateOf(one, second.key), second)]
            == other[first.key := AddedTo(AggregateOf(other, first.key), first)]
  {
    if first.key == second.key {
      AddedCommutes(AggregateOf(functions, first.key), first, second);
    }
  }

  lemma RowsCommute(m: Merged, first: Row, second: Row, choice: Choice)
    ensures WithRow(WithRow(m, first, choice), second, choice) == WithRow(WithRow(m, second, choice), first, choice)
  {
    if Kept(choice, first.key) && Kept(choice, second.key) {
      FunctionsCommute(m.functions, first, second);
    }
  }

  /** A row may as well come last. */
  lemma {:induction false} RowComesLast(before: seq<Row>, row: Row, after: seq<Row>, choice: Choice)
    ensures MergedOf(before + [row] + after, choice) == WithRow(MergedOf(before + after, choice), row, choice)
    decreases |after|
  {
    if after == [] {
      assert before + [row] + after == before + [row] && before + after == before;
      assert (before + [row])[..|before|] == before;
    } else {
      var n := |after| - 1;
      RowComesLast(before, row, after[..n], choice);
      assert (before + [row] + after)[..|before| + 1 + n] == before + [row] + after[..n];
      assert (before + after)[..|before| + n] == before + after[..n];
      RowsCommute(MergedOf(before + after[..n], choice), row, after[n], choice);
    }
  }

  lemma WithoutOne<T>(before: seq<T>, item: T, after: seq<T>)
    ensures multiset(before + [item] + after) - multiset{item} == multiset(before + after)
  {
    assert multiset(before + after) == multiset(before) + multiset(after);
    assert multiset(before + [item] + after) == multiset(before) + multiset{item} + multiset(after);
  }

  /** An item of a list is in the reordered list too, where the others are around it. */
  lemma Found<T>(first: seq<T>, item: T, second: seq<T>, reordered: seq<T>) returns (before: seq<T>, after: seq<T>)
    requires multiset(first + [item] + second) == multiset(reordered)
    ensures reordered == before + [item] + after && multiset(before + after) == multiset(first + second)
  {
    assert item in first + [item] + second;
    assert item in multiset(reordered);
    var i :| 0 <= i < |reordered| && reordered[i] == item;
    before, after := reordered[..i], reordered[i + 1..];
    assert reordered == before + [item] + after;
    WithoutOne(first, item, second);
    WithoutOne(before, item, after);
  }

  /** Merging depends on what rows there are, not on their order. */
  lemma {:induction false} AnyOrderMerges(rows: seq<Row>, reordered: seq<Row>, choice: Choice)
    requires multiset(rows) == multiset(reordered)
    ensures MergedOf(rows, choice) == MergedOf(reordered, choice)
    decreases |rows|
  {
    if rows == [] {
      assert |multiset(reordered)| == |reordered|;
    } else {
      var n := |rows| - 1;
      assert rows == rows[..n] + [rows[n]] + [] && rows[..n] + [] == rows[..n];
      var before, after := Found(rows[..n], rows[n], [], reordered);
      AnyOrderMerges(rows[..n], before + after, choice);
      RowComesLast(before, rows[n], after, choice);
    }
  }

  // ----- Each function's figures are the sums of its parts -----

  /** The figures of all rows of a function, of one process or, if there is none given, of all. */
  function SumOf(rows: seq<Row>, key: Key, pid: Option<int>): Figures {
    if rows == [] then ZERO
    else
      var row := rows[|rows| - 1];
      var before := SumOf(rows[..|rows| - 1], key, pid);
      if row.key == key && (pid == None || pid == Some(row.pid)) then Plus(before, row.figures) else before
  }

  ghost predicate Occurs(rows: seq<Row>, key: Key) {
    exists i :: 0 <= i < |rows| && rows[i].key == key
  }

  lemma {:induction false} MergedFigures(rows: seq<Row>, choice: Choice, key: Key, pid: int)
    ensures var m := MergedOf(rows, choice);
            && (key in m.functions <==> Kept(choice, key) && Occurs(rows, key))
            && (Kept(choice, key) ==>
                  && AggregateOf(m.functions, key).figures == SumOf(rows, key, None)
                  && ProcessOf(AggregateOf(m.functions, key).processes, pid) == SumOf(rows, key, Some(pid)))
  {
    if rows != [] {
      var n := |rows| - 1;
      var before := rows[..n];
      MergedFigures(before, choice, key, pid);
      assert rows == before + [rows[n]];
      assert Occurs(rows, key) <==> Occurs(before, key) || rows[n].key == key by {
        if Occurs(before, key) {
          var i :| 0 <= i < n && before[i].key == key;
          assert rows[i].key == key;
        }
        if Occurs(rows, key) && rows[n].key != key {
          var i :| 0 <= i < n + 1 && rows[i].key == key;
          assert before[i].key == key;
        }
      }
    }
  }

  /** The rows of a function, of one process or, if there is none given, of all. */
  function PartsOf(rows: seq<Row>, key: Key, pid: Option<int>): seq<Figures> {
    if rows == [] then []
    else
      var row := rows[|rows| - 1];
      PartsOf(rows[..|rows| - 1], key, pid)
      + (if row.key == key && (pid == None || pid == Some(row.pid)) then [row.figures] else [])
  }

  lemma {:induction false} PartsAre(rows: seq<Row>, key: Key, pid: Option<int>, part: Figures)
    ensures part in PartsOf(rows, key, pid) <==>
              exists i ::
                && 0 <= i < |rows| && rows[i].key == key && (pid == None || pid == Some(rows[i].pid))
                && rows[i].figures == part
  {
    if rows != [] {
      var n := |rows| - 1;
      PartsAre(rows[..n], key, pid, part);
      assert forall i :: 0 <= i < n ==> rows[..n][i] == rows[i];
    }
  }

  /** One of the figures that add up. */
  datatype Measure = CallCount | TotalTime | SelfTime | ExceptionCount | EscapeCount

  function MeasureOf(f: Figures, measure: Measure): nat {
    match measure
    case CallCount => f.calls
    case TotalTime => f.total
    case SelfTime => f.self
    case ExceptionCount => f.exceptions
    case EscapeCount => f.escapes
  }

  function Measured(parts: seq<Figures>, measure: Measure): seq<nat> {
    seq(|parts|, i requires 0 <= i < |parts| => MeasureOf(parts[i], measure))
  }

  /** The longest of some calls, or 0 if there are none. */
  predicate IsLongest(parts: seq<Figures>, longest: nat) {
    && (forall part :: part in parts ==> part.max <= longest)
    && (if parts == [] then longest == 0 else exists part :: part in parts && part.max == longest)
  }

  lemma MorePart(before: Figures, part: Figures, parts: seq<Figures>)
    requires IsLongest(parts, before.max)
    requires forall measure :: MeasureOf(before, measure) == Total(Measured(parts, measure))
    ensures IsLongest(parts + [part], Plus(before, part).max)
    ensures forall measure :: MeasureOf(Plus(before, part), measure) == Total(Measured(parts + [part], measure))
  {
    var sum := Plus(before, part);
    assert part in parts + [part] && forall p :: p in parts ==> p in parts + [part];
    assert sum.max == part.max || sum.max == before.max;
    forall measure
      ensures MeasureOf(sum, measure) == Total(Measured(parts + [part], measure))
    {
      var one := [MeasureOf(part, measure)];
      assert Measured(parts + [part], measure) == Measured(parts, measure) + one;
      TotalJoins(Measured(parts, measure), one);
      assert Total(one) == one[0] + Total(one[1..]);
    }
  }

  /** The figures of a function, in all or for one process, are the sums of those of its rows, and the longest call of them. */
  lemma {:induction false} SumsAdd(rows: seq<Row>, key: Key, pid: Option<int>)
    ensures var parts := PartsOf(rows, key, pid);
            && IsLongest(parts, SumOf(rows, key, pid).max)
            && forall measure :: MeasureOf(SumOf(rows, key, pid), measure) == Total(Measured(parts, measure))
  {
    if rows != [] {
      var n := |rows| - 1;
      SumsAdd(rows[..n], key, pid);
      if rows[n].key == key && (pid == None || pid == Some(rows[n].pid)) {
        MorePart(SumOf(rows[..n], key, pid), rows[n].figures, PartsOf(rows[..n], key, pid));
      } else {
        assert PartsOf(rows, key, pid) == PartsOf(rows[..n], key, pid);
      }
    }
  }

  /** So is what a merge keeps of a function. */
  lemma MergedAdds(rows: seq<Row>, choice: Choice, key: Key, pid: int)
    requires Kept(choice, key)
    ensures var kept := AggregateOf(MergedOf(rows, choice).functions, key);
            && IsLongest(PartsOf(rows, key, None), kept.figures.max)
            && IsLongest(PartsOf(rows, key, Some(pid)), ProcessOf(kept.processes, pid).max)
            && (forall measure ::
                  && MeasureOf(kept.figures, measure) == Total(Measured(PartsOf(rows, key, None), measure))
                  && MeasureOf(ProcessOf(kept.processes, pid), measure)
                     == Total(Measured(PartsOf(rows, key, Some(pid)), measure)))
  {
    MergedFigures(rows, choice, key, pid);
    SumsAdd(rows, key, None);
    SumsAdd(rows, key, Some(pid));
  }

  // ----- Conservation -----

  /** What is counted: calls, exceptions, or exceptions other than iterator control flow. */
  datatype Counted = Calls | Exceptions | Escapes

  function In(f: Figures, counted: Counted): nat {
    match counted
    case Calls => f.calls
    case Exceptions => f.exceptions
    case Escapes => f.escapes
  }

  function DroppedIn(dropped: Counts, counted: Counted): nat {
    match counted
    case Calls => dropped.calls
    case Exceptions => dropped.exceptions
    case Escapes => dropped.escapes
  }

  function TotalOf(rows: seq<Row>, counted: Counted): nat {
    if rows == [] then 0 else TotalOf(rows[..|rows| - 1], counted) + In(rows[|rows| - 1].figures, counted)
  }

  /** Exceptions of native functions that were not selected, which nobody counts. */
  function Uncounted(rows: seq<Row>, choice: Choice, counted: Counted): nat {
    if rows == [] then 0
    else
      var row := rows[|rows| - 1];
      Uncounted(rows[..|rows| - 1], choice, counted)
      + (if Kept(choice, row.key) || !IsNative(row.key) || counted.Calls? then 0 else In(row.figures, counted))
  }

  ghost function CountsIn(functions: map<Key, Aggregate>, counted: Counted): map<Key, int> {
    map k | k in functions :: In(functions[k].figures, counted)
  }

  lemma AddsCounts(functions: map<Key, Aggregate>, row: Row, counted: Counted)
    ensures MapSum(CountsIn(functions[row.key := AddedTo(AggregateOf(functions, row.key), row)], counted))
            == MapSum(CountsIn(functions, counted)) + In(row.figures, counted)
  {
    var added := AddedTo(AggregateOf(functions, row.key), row);
    MapSumUpdate(CountsIn(functions, counted), row.key, In(added.figures, counted));
    assert CountsIn(functions[row.key := added], counted)
        == CountsIn(functions, counted)[row.key := In(added.figures, counted)];
  }

  /** Every call is in the figures of a function or was dropped; so is every exception, but for those left uncounted. */
  lemma {:induction false} Conserves(rows: seq<Row>, choice: Choice, counted: Counted)
    ensures var m := MergedOf(rows, choice);
            MapSum(CountsIn(m.functions, counted)) + DroppedIn(m.dropped, counted) + Uncounted(rows, choice, counted)
            == TotalOf(rows, counted)
  {
    if rows == [] {
      assert CountsIn(map[], counted) == map[];
    } else {
      var before := rows[..|rows| - 1];
      Conserves(before, choice, counted);
      AddsCounts(MergedOf(before, choice).functions, rows[|rows| - 1], counted);
    }
  }

  lemma CallsConserved(rows: seq<Row>, choice: Choice)
    ensures var m := MergedOf(rows, choice);
            MapSum(CountsIn(m.functions, Calls)) + m.dropped.calls == TotalOf(rows, Calls)
  {
    Conserves(rows, choice, Calls);
    CallsCounted(rows, choice);
  }

  lemma {:induction false} CallsCounted(rows: seq<Row>, choice: Choice)
    ensures Uncounted(rows, choice, Calls) == 0
  {
    if rows != [] {
      CallsCounted(rows[..|rows| - 1], choice);
    }
  }

  ghost predicate DroppedNativesAre(rows: seq<Row>, choice: Choice, counted: Counted) {
    forall i :: 0 <= i < |rows| && !Kept(choice, rows[i].key) && IsNative(rows[i].key) ==> In(rows[i].figures, counted) == 0
  }

  lemma {:induction false} NothingUncounted(rows: seq<Row>, choice: Choice, counted: Counted)
    requires !counted.Calls?
    ensures Uncounted(rows, choice, counted) == 0 <==> DroppedNativesAre(rows, choice, counted)
  {
    if rows != [] {
      NothingUncounted(rows[..|rows| - 1], choice, counted);
      assert forall i :: 0 <= i < |rows| - 1 ==> rows[i] == rows[..|rows| - 1][i];
    }
  }

  /** Exceptions are conserved exactly when no native function that raised was left out. */
  lemma ExceptionsConservedIff(rows: seq<Row>, choice: Choice, counted: Counted)
    requires !counted.Calls?
    ensures var m := MergedOf(rows, choice);
            MapSum(CountsIn(m.functions, counted)) + DroppedIn(m.dropped, counted) == TotalOf(rows, counted)
            <==> DroppedNativesAre(rows, choice, counted)
  {
    Conserves(rows, choice, counted);
    NothingUncounted(rows, choice, counted);
  }

  // ----- Edges -----

  datatype Pair = Pair(source: Key, target: Key)

  datatype MergedEdges = MergedEdges(edges: map<Pair, EdgeFigures>, dropped: nat, truncated: bool)

  /** An edge between distinct selected functions. */
  predicate Joins(choice: Choice, call: Call) {
    call.source != call.target && Kept(choice, call.source) && Kept(choice, call.target)
  }

  predicate EdgeKept(choice: Choice, call: Call) {
    EdgeDigest(choice.digest, call.source, call.target) in choice.edges
  }

  function PairFigures(edges: map<Pair, EdgeFigures>, pair: Pair): EdgeFigures {
    if pair in edges then edges[pair] else EdgeFigures(0, 0)
  }

  function Both(a: EdgeFigures, b: EdgeFigures): EdgeFigures {
    EdgeFigures(a.calls + b.calls, a.total + b.total)
  }

  function WithCall(m: MergedEdges, call: Call, choice: Choice): MergedEdges {
    var pair := Pair(call.source, call.target);
    if !Joins(choice, call) then m
    else if !EdgeKept(choice, call) then m.(dropped := m.dropped + call.figures.calls, truncated := true)
    else m.(edges := m.edges[pair := Both(PairFigures(m.edges, pair), call.figures)])
  }

  function EdgesOf(calls: seq<Call>, choice: Choice): MergedEdges {
    if calls == [] then MergedEdges(map[], 0, false)
    else WithCall(EdgesOf(calls[..|calls| - 1], choice), calls[|calls| - 1], choice)
  }

  function SumOfCalls(calls: seq<Call>, pair: Pair): EdgeFigures {
    if calls == [] then EdgeFigures(0, 0)
    else
      var call := calls[|calls| - 1];
      var before := SumOfCalls(calls[..|calls| - 1], pair);
      if call.source == pair.source && call.target == pair.target then Both(before, call.figures) else before
  }

  /** Each kept edge joins two distinct kept functions and has the sum of what was reported for it. */
  lemma {:induction false} EdgesAreSums(calls: seq<Call>, choice: Choice, pair: Pair)
    ensures var m := EdgesOf(calls, choice);
            && (pair in m.edges ==>
                  && pair.source != pair.target && Kept(choice, pair.source) && Kept(choice, pair.target)
                  && EdgeDigest(choice.digest, pair.source, pair.target) in choice.edges
                  && m.edges[pair] == SumOfCalls(calls, pair)
                  && exists i :: 0 <= i < |calls| && calls[i].source == pair.source && calls[i].target == pair.target)
            && (Joins(choice, Call(pair.source, pair.target, EdgeFigures(0, 0)))
                && EdgeKept(choice, Call(pair.source, pair.target, EdgeFigures(0, 0))) ==>
                  PairFigures(m.edges, pair) == SumOfCalls(calls, pair))
  {
    if calls != [] {
      var n := |calls| - 1;
      EdgesAreSums(calls[..n], choice, pair);
      if pair in EdgesOf(calls[..n], choice).edges {
        var i :| 0 <= i < n && calls[..n][i].source == pair.source && calls[..n][i].target == pair.target;
        assert calls[i].source == pair.source && calls[i].target == pair.target;
      } else if pair in EdgesOf(calls, choice).edges {
        assert calls[n].source == pair.source && calls[n].target == pair.target;
      }
    }
  }

  /** What was reported for an edge. */
  function EdgeParts(calls: seq<Call>, pair: Pair): seq<EdgeFigures> {
    if calls == [] then []
    else
      var call := calls[|calls| - 1];
      EdgeParts(calls[..|calls| - 1], pair)
      + (if call.source == pair.source && call.target == pair.target then [call.figures] else [])
  }

  function EdgeMeasured(parts: seq<EdgeFigures>, times: bool): seq<nat> {
    seq(|parts|, i requires 0 <= i < |parts| => if times then parts[i].total else parts[i].calls)
  }

  /** The figures of an edge are the sums of what was reported for it. */
  lemma {:induction false} EdgeSumsAdd(calls: seq<Call>, pair: Pair)
    ensures SumOfCalls(calls, pair).calls == Total(EdgeMeasured(EdgeParts(calls, pair), false))
    ensures SumOfCalls(calls, pair).total == Total(EdgeMeasured(EdgeParts(calls, pair), true))
  {
    if calls != [] {
      var n := |calls| - 1;
      var before := EdgeParts(calls[..n], pair);
      EdgeSumsAdd(calls[..n], pair);
      if calls[n].source == pair.source && calls[n].target == pair.target {
        MoreMeasured(before, calls[n].figures, false);
        MoreMeasured(before, calls[n].figures, true);
      } else {
        assert EdgeParts(calls, pair) == before;
      }
    }
  }

  lemma MoreMeasured(before: seq<EdgeFigures>, part: EdgeFigures, times: bool)
    ensures Total(EdgeMeasured(before + [part], times))
            == Total(EdgeMeasured(before, times)) + if times then part.total else part.calls
  {
    var one := [if times then part.total else part.calls];
    assert EdgeMeasured(before + [part], times) == EdgeMeasured(before, times) + one;
    TotalJoins(EdgeMeasured(before, times), one);
    assert Total(one) == one[0] + Total(one[1..]);
  }

  /** The merge says that it is truncated exactly when an edge between distinct selected functions was not selected. */
  lemma {:induction false} TruncatedIff(calls: seq<Call>, choice: Choice)
    ensures EdgesOf(calls, choice).truncated
            <==> exists i :: 0 <= i < |calls| && Joins(choice, calls[i]) && !EdgeKept(choice, calls[i])
  {
    if calls != [] {
      var n := |calls| - 1;
      TruncatedIff(calls[..n], choice);
      assert forall i :: 0 <= i < n ==> calls[..n][i] == calls[i];
    }
  }

  /** In a report every edge joins functions of the report, so every kept edge finds both its functions kept. */
  lemma EdgesJoinFunctions(rows: seq<Row>, calls: seq<Call>, choice: Choice, pair: Pair)
    requires forall i :: 0 <= i < |calls| ==> Occurs(rows, calls[i].source) && Occurs(rows, calls[i].target)
    requires pair in EdgesOf(calls, choice).edges
    ensures pair.source in MergedOf(rows, choice).functions && pair.target in MergedOf(rows, choice).functions
  {
    EdgesAreSums(calls, choice, pair);
    MergedFigures(rows, choice, pair.source, 0);
    MergedFigures(rows, choice, pair.target, 0);
  }

  function CallsJoining(calls: seq<Call>, choice: Choice): nat {
    if calls == [] then 0
    else
      CallsJoining(calls[..|calls| - 1], choice)
      + (if Joins(choice, calls[|calls| - 1]) then calls[|calls| - 1].figures.calls else 0)
  }

  ghost function EdgeCallsIn(edges: map<Pair, EdgeFigures>): map<Pair, int> {
    map pair | pair in edges :: edges[pair].calls
  }

  /** Kept and dropped edge calls together are all calls between distinct kept functions. */
  lemma {:induction false} EdgeCallsConserved(calls: seq<Call>, choice: Choice)
    ensures var m := EdgesOf(calls, choice);
            MapSum(EdgeCallsIn(m.edges)) + m.dropped == CallsJoining(calls, choice)
  {
    if calls == [] {
      assert EdgeCallsIn(map[]) == map[];
    } else {
      var before := EdgesOf(calls[..|calls| - 1], choice).edges;
      var call := calls[|calls| - 1];
      var pair := Pair(call.source, call.target);
      var both := Both(PairFigures(before, pair), call.figures);
      EdgeCallsConserved(calls[..|calls| - 1], choice);
      MapSumUpdate(EdgeCallsIn(before), pair, both.calls);
      assert EdgeCallsIn(before[pair := both]) == EdgeCallsIn(before)[pair := both.calls];
    }
  }

  // ----- Ranks -----

  /** What the ranking of functions is given: self time first, then total time. */
  function Contributions(rows: seq<Row>, choice: Choice): (contributions: seq<Contribution<Key>>)
    ensures |contributions| == |rows|
    ensures forall i :: 0 <= i < |rows| ==>
              contributions[i] == Contribution(choice.digest(rows[i].key), rows[i].key, rows[i].figures.self, rows[i].figures.total)
  {
    seq(|rows|, i requires 0 <= i < |rows| =>
      Contribution(choice.digest(rows[i].key), rows[i].key, rows[i].figures.self, rows[i].figures.total))
  }

  /** Unless digests collide, which the ranking refuses, a function's rank is its summed self time, then its total time. */
  lemma RanksAreSums(rows: seq<Row>, choice: Choice, key: Key)
    requires Consistent(Contributions(rows, choice)) && Occurs(rows, key)
    ensures ScoresOf(Contributions(rows, choice), choice.digest(key))
            == Scores(SumOf(rows, key, None).self, SumOf(rows, key, None).total)
  {
    var w :| 0 <= w < |rows| && rows[w].key == key;
    PrefixScores(rows, choice, key, |rows|, w);
    assert rows[..|rows|] == rows;
    assert Contributions(rows, choice)[..|rows|] == Contributions(rows, choice);
  }

  lemma {:induction false} PrefixScores(rows: seq<Row>, choice: Choice, key: Key, n: nat, w: nat)
    requires Consistent(Contributions(rows, choice)) && n <= |rows| && w < |rows| && rows[w].key == key
    ensures ScoresOf(Contributions(rows, choice)[..n], choice.digest(key))
            == Scores(SumOf(rows[..n], key, None).self, SumOf(rows[..n], key, None).total)
  {
    if n > 0 {
      PrefixScores(rows, choice, key, n - 1, w);
      ScoresOfMore(Contributions(rows, choice), n - 1, choice.digest(key));
      assert rows[..n][..n - 1] == rows[..n - 1];
      assert Contributions(rows, choice)[n - 1].key == Contributions(rows, choice)[w].key ==> rows[n - 1].key == key;
    }
  }

  // ----- Merging step by step, with bounded sums -----

  predicate Representable(f: Figures) {
    && f.calls <= MAX_INTEGER && f.total <= MAX_INTEGER && f.self <= MAX_INTEGER
    && f.exceptions <= MAX_INTEGER && f.escapes <= MAX_INTEGER
  }

  predicate CountsRepresentable(c: Counts) {
    c.calls <= MAX_INTEGER && c.exceptions <= MAX_INTEGER && c.escapes <= MAX_INTEGER
  }

  /** All sums of selected functions and all sums of what was dropped are in range. */
  ghost predicate AllRepresentable(rows: seq<Row>, choice: Choice) {
    && (forall key :: Kept(choice, key) ==> Representable(SumOf(rows, key, None)))
    && CountsRepresentable(MergedOf(rows, choice).dropped)
  }

  /** So whether rows can be merged does not depend on their order either. */
  lemma AnyOrderRepresentable(rows: seq<Row>, reordered: seq<Row>, choice: Choice)
    requires multiset(rows) == multiset(reordered)
    ensures AllRepresentable(rows, choice) <==> AllRepresentable(reordered, choice)
  {
    AnyOrderMerges(rows, reordered, choice);
    forall key | Kept(choice, key)
      ensures SumOf(rows, key, None) == SumOf(reordered, key, None)
    {
      MergedFigures(rows, choice, key, 0);
      MergedFigures(reordered, choice, key, 0);
    }
  }

  predicate NoMore(a: Figures, b: Figures) {
    && a.calls <= b.calls && a.total <= b.total && a.self <= b.self
    && a.exceptions <= b.exceptions && a.escapes <= b.escapes
  }

  lemma {:induction false} PartIsNoMore(rows: seq<Row>, key: Key, pid: int)
    ensures NoMore(SumOf(rows, key, Some(pid)), SumOf(rows, key, None))
  {
    if rows != [] {
      PartIsNoMore(rows[..|rows| - 1], key, pid);
    }
  }

  lemma {:induction false} SumsGrow(rows: seq<Row>, i: nat, key: Key)
    requires i <= |rows|
    ensures NoMore(SumOf(rows[..i], key, None), SumOf(rows, key, None))
    decreases |rows|
  {
    if i == |rows| {
      assert rows[..i] == rows;
    } else {
      SumsGrow(rows[..|rows| - 1], i, key);
      assert rows[..|rows| - 1][..i] == rows[..i];
    }
  }

  lemma {:induction false} DroppedGrows(rows: seq<Row>, i: nat, choice: Choice)
    requires i <= |rows|
    ensures CountsRepresentable(MergedOf(rows, choice).dropped) ==> CountsRepresentable(MergedOf(rows[..i], choice).dropped)
    decreases |rows|
  {
    if i == |rows| {
      assert rows[..i] == rows;
    } else {
      DroppedGrows(rows[..|rows| - 1], i, choice);
      assert rows[..|rows| - 1][..i] == rows[..i];
    }
  }

  /** The sum of two counters, unless it is out of range. */
  function BoundedSum(a: nat, b: nat): (sum: Option<nat>)
    ensures sum.Some? <==> a + b <= MAX_INTEGER
    ensures sum.Some? ==> sum.value == a + b
  {
    if a + b > MAX_INTEGER then None else Some(a + b)
  }

  function Total(terms: seq<nat>): nat {
    if terms == [] then 0 else terms[0] + Total(terms[1..])
  }

  /** Terms added to a counter one after the other. */
  function AddedUp(sum: nat, terms: seq<nat>): Option<nat>
    decreases |terms|
  {
    if terms == [] then Some(sum)
    else
      match BoundedSum(sum, terms[0])
      case None => None
      case Some(next) => AddedUp(next, terms[1..])
  }

  /** Adding up is refused exactly when the total is out of range, at whatever term that shows. */
  lemma {:induction false} BoundedTotal(sum: nat, terms: seq<nat>)
    requires sum <= MAX_INTEGER
    ensures AddedUp(sum, terms).Some? <==> sum + Total(terms) <= MAX_INTEGER
    ensures AddedUp(sum, terms).Some? ==> AddedUp(sum, terms).value == sum + Total(terms)
    decreases |terms|
  {
    if terms != [] && sum + terms[0] <= MAX_INTEGER {
      BoundedTotal(sum + terms[0], terms[1..]);
    }
  }

  lemma {:induction false} TotalJoins(first: seq<nat>, second: seq<nat>)
    ensures Total(first + second) == Total(first) + Total(second)
  {
    if first == [] {
      assert first + second == second;
    } else {
      TotalJoins(first[1..], second);
      assert (first + second)[1..] == first[1..] + second;
    }
  }

  /** So the order of the terms matters neither for the refusal nor for the sum. */
  lemma AnyOrderAddsUp(sum: nat, terms: seq<nat>, reordered: seq<nat>)
    requires sum <= MAX_INTEGER && multiset(terms) == multiset(reordered)
    ensures AddedUp(sum, terms) == AddedUp(sum, reordered)
  {
    SameTotal(terms, reordered);
    BoundedTotal(sum, terms);
    BoundedTotal(sum, reordered);
  }

  lemma TotalWithoutOne(before: seq<nat>, term: nat, after: seq<nat>)
    ensures Total(before + [term] + after) == term + Total(before + after)
  {
    TotalJoins(before, after);
    TotalJoins(before + [term], after);
    TotalJoins(before, [term]);
    assert Total([term]) == term + Total([]);
  }

  lemma {:induction false} SameTotal(terms: seq<nat>, reordered: seq<nat>)
    requires multiset(terms) == multiset(reordered)
    ensures Total(terms) == Total(reordered)
    decreases |terms|
  {
    if terms == [] {
      assert |multiset(reordered)| == |reordered|;
    } else {
      assert terms == [] + [terms[0]] + terms[1..] && [] + terms[1..] == terms[1..];
      var before, after := Found([], terms[0], terms[1..], reordered);
      SameTotal(terms[1..], before + after);
      TotalWithoutOne(before, terms[0], after);
    }
  }

  /** The calls of the rows that are not selected. */
  function DroppedTerms(rows: seq<Row>, choice: Choice): seq<nat> {
    if rows == [] then []
    else
      var row := rows[|rows| - 1];
      DroppedTerms(rows[..|rows| - 1], choice) + (if Kept(choice, row.key) then [] else [row.figures.calls])
  }

  lemma {:induction false} DroppedTotal(rows: seq<Row>, choice: Choice)
    ensures Total(DroppedTerms(rows, choice)) == MergedOf(rows, choice).dropped.calls
  {
    if rows != [] {
      var row := rows[|rows| - 1];
      var before := DroppedTerms(rows[..|rows| - 1], choice);
      DroppedTotal(rows[..|rows| - 1], choice);
      TotalJoins(before, if Kept(choice, row.key) then [] else [row.figures.calls]);
      assert Total([row.figures.calls]) == row.figures.calls + Total([]);
    }
  }

  /** Adding up the dropped calls one by one gives what a merge counts as dropped, unless that is out of range. */
  lemma DroppedAddsUp(rows: seq<Row>, choice: Choice)
    ensures var dropped := MergedOf(rows, choice).dropped.calls;
            AddedUp(0, DroppedTerms(rows, choice)) == if dropped <= MAX_INTEGER then Some(dropped) else None
  {
    DroppedTotal(rows, choice);
    BoundedTotal(0, DroppedTerms(rows, choice));
  }

  method AddFigures(a: Figures, b: Figures) returns (sum: Option<Figures>)
    ensures sum.Some? <==> Representable(Plus(a, b))
    ensures sum.Some? ==> sum.value == Plus(a, b)
  {
    var calls := BoundedSum(a.calls, b.calls);
    var total := BoundedSum(a.total, b.total);
    var self := BoundedSum(a.self, b.self);
    var max := Max(a.max, b.max);
    var exceptions := BoundedSum(a.exceptions, b.exceptions);
    var escapes := BoundedSum(a.escapes, b.escapes);
    if calls.None? || total.None? || self.None? || exceptions.None? || escapes.None? {
      return None;
    }
    return Some(Figures(calls.value, total.value, self.value, max, exceptions.value, escapes.value));
  }

  class Merger {
    const choice: Choice
    var functions: map<Key, Aggregate>
    var dropped: Counts
    var edges: map<Pair, EdgeFigures>
    var droppedEdges: nat
    var truncated: bool

    constructor (choice: Choice)
      ensures this.choice == choice && Functions() == MergedOf([], choice) && Edges() == EdgesOf([], choice)
    {
      this.choice, functions, dropped := choice, map[], Counts(0, 0, 0);
      edges, droppedEdges, truncated := map[], 0, false;
    }

    ghost function Functions(): Merged
      reads this
    {
      Merged(functions, dropped)
    }

    ghost function Edges(): MergedEdges
      reads this
    {
      MergedEdges(edges, droppedEdges, truncated)
    }

    method DropRow(row: Row) returns (ok: bool)
      modifies this`dropped
      ensures ok ==> dropped == AlsoDropped(old(dropped), row)
      ensures ok <==> if IsNative(row.key) then old(dropped).calls + row.figures.calls <= MAX_INTEGER
                      else CountsRepresentable(AlsoDropped(old(dropped), row))
    {
      var calls := BoundedSum(dropped.calls, row.figures.calls);
      if calls.None? {
        return false;
      }
      dropped := dropped.(calls := calls.value);
      if !IsNative(row.key) {
        var exceptions := BoundedSum(dropped.exceptions, row.figures.exceptions);
        var escapes := BoundedSum(dropped.escapes, row.figures.escapes);
        if exceptions.None? || escapes.None? {
          return false;
        }
        dropped := dropped.(exceptions := exceptions.value, escapes := escapes.value);
      }
      return true;
    }

    method KeepRow(row: Row) returns (ok: bool)
      modifies this`functions
      ensures ok ==> functions == old(functions)[row.key := AddedTo(AggregateOf(old(functions), row.key), row)]
      ensures ok <==> && Representable(Plus(AggregateOf(old(functions), row.key).figures, row.figures))
                      && Representable(Plus(ProcessOf(AggregateOf(old(functions), row.key).processes, row.pid), row.figures))
    {
      var aggregate := AggregateOf(functions, row.key);
      var figures := AddFigures(aggregate.figures, row.figures);
      var process := AddFigures(ProcessOf(aggregate.processes, row.pid), row.figures);
      if figures.None? || process.None? {
        return false;
      }
      functions := functions[row.key := Aggregate(figures.value, aggregate.processes[row.pid := process.value])];
      return true;
    }

    /** Merging all rows goes through exactly when all final sums are in range. */
    method AddRows(rows: seq<Row>) returns (ok: bool)
      requires Functions() == MergedOf([], choice)
      modifies this`functions, this`dropped
      ensures ok <==> AllRepresentable(rows, choice)
      ensures ok ==> Functions() == MergedOf(rows, choice)
    {
      assert rows[..0] == [];
      for i := 0 to |rows|
        invariant Functions() == MergedOf(rows[..i], choice)
        invariant AllRepresentable(rows[..i], choice)
      {
        RowAllowed(rows, i, choice);
        if !Kept(choice, rows[i].key) {
          ok := DropRow(rows[i]);
        } else {
          ok := KeepRow(rows[i]);
        }
        if !ok {
          return;
        }
      }
      assert rows[..|rows|] == rows;
      ok := true;
    }

    method AddCalls(calls: seq<Call>) returns (ok: bool)
      requires Edges() == EdgesOf([], choice)
      modifies this`edges, this`droppedEdges, this`truncated
      ensures ok <==> EdgesRepresentable(calls, choice)
      ensures ok ==> Edges() == EdgesOf(calls, choice)
    {
      assert calls[..0] == [];
      for i := 0 to |calls|
        invariant Edges() == EdgesOf(calls[..i], choice)
        invariant EdgesRepresentable(calls[..i], choice)
      {
        CallAllowed(calls, i, choice);
        ok := AddCall(calls[i]);
        if !ok {
          return;
        }
      }
      assert calls[..|calls|] == calls;
      ok := true;
    }

    method AddCall(call: Call) returns (ok: bool)
      modifies this`edges, this`droppedEdges, this`truncated
      ensures ok <==> CallFits(old(Edges()), call, choice)
      ensures ok ==> Edges() == WithCall(old(Edges()), call, choice)
    {
      if call.source == call.target || !Kept(choice, call.source) || !Kept(choice, call.target) {
        return true;
      }
      if !EdgeKept(choice, call) {
        truncated := true;
        var sum := BoundedSum(droppedEdges, call.figures.calls);
        if sum.None? {
          return false;
        }
        droppedEdges := sum.value;
        return true;
      }
      var pair := Pair(call.source, call.target);
      var figures := PairFigures(edges, pair);
      var calls := BoundedSum(figures.calls, call.figures.calls);
      var total := BoundedSum(figures.total, call.figures.total);
      if calls.None? || total.None? {
        return false;
      }
      edges := edges[pair := EdgeFigures(calls.value, total.value)];
      return true;
    }
  }

  /** One row goes through exactly when the sums up to and including it are in range, and if not, neither are all. */
  lemma RowAllowed(rows: seq<Row>, i: nat, choice: Choice)
    requires i < |rows| && AllRepresentable(rows[..i], choice)
    ensures MergedOf(rows[..i + 1], choice) == WithRow(MergedOf(rows[..i], choice), rows[i], choice)
    ensures var row := rows[i];
            var before := MergedOf(rows[..i], choice);
            var aggregate := AggregateOf(before.functions, row.key);
            var goes := if Kept(choice, row.key) then
                          && Representable(Plus(aggregate.figures, row.figures))
                          && Representable(Plus(ProcessOf(aggregate.processes, row.pid), row.figures))
                        else CountsRepresentable(AlsoDropped(before.dropped, row));
            && (goes <==> AllRepresentable(rows[..i + 1], choice))
            && (!goes ==> !AllRepresentable(rows, choice))
  {
    var row := rows[i];
    var more := rows[..i + 1];
    assert more[..i] == rows[..i];
    MergedFigures(rows[..i], choice, row.key, row.pid);
    PartIsNoMore(more, row.key, row.pid);
    SumsGrow(rows, i + 1, row.key);
    DroppedGrows(rows, i + 1, choice);
    forall key | Kept(choice, key) && key != row.key
      ensures SumOf(more, key, None) == SumOf(rows[..i], key, None)
    {
    }
  }

  predicate EdgeRepresentable(f: EdgeFigures) {
    f.calls <= MAX_INTEGER && f.total <= MAX_INTEGER
  }

  ghost predicate EdgesRepresentable(calls: seq<Call>, choice: Choice) {
    && EdgesOf(calls, choice).dropped <= MAX_INTEGER
    && (forall pair :: pair in EdgesOf(calls, choice).edges ==> EdgeRepresentable(EdgesOf(calls, choice).edges[pair]))
  }

  predicate CallFits(m: MergedEdges, call: Call, choice: Choice) {
    if !Joins(choice, call) then true
    else if !EdgeKept(choice, call) then m.dropped + call.figures.calls <= MAX_INTEGER
    else EdgeRepresentable(Both(PairFigures(m.edges, Pair(call.source, call.target)), call.figures))
  }

  lemma CallAllowed(calls: seq<Call>, i: nat, choice: Choice)
    requires i < |calls| && EdgesRepresentable(calls[..i], choice)
    ensures EdgesOf(calls[..i + 1], choice) == WithCall(EdgesOf(calls[..i], choice), calls[i], choice)
    ensures var fits := CallFits(EdgesOf(calls[..i], choice), calls[i], choice);
            && (fits <==> EdgesRepresentable(calls[..i + 1], choice))
            && (!fits ==> !EdgesRepresentable(calls, choice))
  {
    assert calls[..i + 1][..i] == calls[..i];
    EdgesGrow(calls, i + 1, choice);
    if !CallFits(EdgesOf(calls[..i], choice), calls[i], choice) && EdgeKept(choice, calls[i]) {
      assert Pair(calls[i].source, calls[i].target) in EdgesOf(calls[..i + 1], choice).edges;
    }
  }

  lemma {:induction false} EdgesGrow(calls: seq<Call>, i: nat, choice: Choice)
    requires i <= |calls|
    ensures EdgesRepresentable(calls, choice) ==> EdgesRepresentable(calls[..i], choice)
    decreases |calls|
  {
    if i == |calls| {
      assert calls[..i] == calls;
    } else {
      var n := |calls| - 1;
      EdgesGrow(calls[..n], i, choice);
      assert calls[..n][..i] == calls[..i];
      var before, after := EdgesOf(calls[..n], choice).edges, EdgesOf(calls, choice).edges;
      forall pair | pair in before && EdgesRepresentable(calls, choice)
        ensures EdgeRepresentable(before[pair])
      {
        assert EdgeRepresentable(after[pair]);
      }
    }
  }
}
