/**
 What the profiler's rows say in plain terms: how many calls there were, how long they took, the longest of them, how many
 raised. Each figure is stated over a list of the calls themselves, for every interleaving and with all caps live.
 */
module ProfilerCalls {
  import opened Profiler
  import opened ProfilerForest

  /** A completed call: what it stands for, who made it, its time, and what its own calls leave over of it. */
  datatype Ran = Ran(slot: Slot, native: bool, caller: Caller, elapsed: nat, own: nat, raised: bool)

  /** The calls of a forest, each once. */
  function RanIn(a: Admission, limit: nat, depth: nat, caller: Caller, f: Forest): seq<Ran>
    requires Timed(f)
    decreases f
  {
    if f.Empty? then []
    else
      var frame := FrameFor(a, limit, depth, caller, f.key, f.native, f.observer, f.started);
      var elapsed := f.ended - f.started;
      [Ran(frame.slot, frame.native, caller, elapsed, elapsed - Span(f.inner), f.raised)]
      + RanIn(a, limit, depth + 1, Caller(frame.slot, frame.native), f.inner) + RanIn(a, limit, depth, caller, f.next)
  }

  function AllRan(a: Admission, limit: nat, ts: seq<int>, forests: map<int, Forest>): seq<Ran>
    requires AllTimed(ts, forests)
  {
    if ts == [] then [] else RanIn(a, limit, 0, NoCaller, forests[ts[0]]) + AllRan(a, limit, ts[1..], forests)
  }

  /** A call from one function to another that both have their places. */
  predicate AlongEdge(r: Ran) {
    r.slot.Tracked? && r.caller.Caller? && !r.caller.slot.Dropped? && r.caller.slot != r.slot
  }

  predicate OnEdge(r: Ran, edge: EdgeKey, native: bool) {
    AlongEdge(r) && EdgeKey(r.caller.slot, r.slot.key) == edge && (r.native || r.caller.native) == native
  }

  /** Whether a call counts for a figure. */
  predicate CountsFor(a: Admission, r: Ran, sel: Selector) {
    match sel
    case OfFunction(key, native) => r.slot == Tracked(key) && r.native == native
    case OfEdge(edge, native) => OnEdge(r, edge, native) && EdgeAdmitted(a, edge, native)
    case DroppedCalls => r.slot.Dropped?
    case DroppedEdges =>
      AlongEdge(r) && !EdgeAdmitted(a, EdgeKey(r.caller.slot, r.slot.key), r.native || r.caller.native)
    case Everything => true
  }

  function Filtered(a: Admission, rs: seq<Ran>, sel: Selector): seq<Ran> {
    if rs == [] then [] else (if CountsFor(a, rs[0], sel) then [rs[0]] else []) + Filtered(a, rs[1..], sel)
  }

  lemma {:induction false} FilteredJoins(a: Admission, rs: seq<Ran>, more: seq<Ran>, sel: Selector)
    ensures Filtered(a, rs + more, sel) == Filtered(a, rs, sel) + Filtered(a, more, sel)
  {
    if rs == [] {
      assert rs + more == more;
    } else {
      assert (rs + more)[1..] == rs[1..] + more;
      FilteredJoins(a, rs[1..], more, sel);
    }
  }

  // ----- plain figures of a list of calls

  function TimeOf(rs: seq<Ran>): nat {
    if rs == [] then 0 else rs[0].elapsed + TimeOf(rs[1..])
  }

  function OwnTimeOf(rs: seq<Ran>): nat {
    if rs == [] then 0 else rs[0].own + OwnTimeOf(rs[1..])
  }

  function RaisedOf(rs: seq<Ran>): nat {
    if rs == [] then 0 else (if rs[0].raised then 1 else 0) + RaisedOf(rs[1..])
  }

  lemma {:induction false} SumsJoin(rs: seq<Ran>, more: seq<Ran>)
    ensures TimeOf(rs + more) == TimeOf(rs) + TimeOf(more)
    ensures OwnTimeOf(rs + more) == OwnTimeOf(rs) + OwnTimeOf(more)
    ensures RaisedOf(rs + more) == RaisedOf(rs) + RaisedOf(more)
  {
    if rs == [] {
      assert rs + more == more;
    } else {
      assert (rs + more)[1..] == rs[1..] + more;
      SumsJoin(rs[1..], more);
    }
  }

  /** No call was longer, and one was as long, if there was any. */
  predicate IsLongest(rs: seq<Ran>, longest: nat) {
    && (forall r :: r in rs ==> r.elapsed <= longest)
    && (if rs == [] then longest == 0 else exists r :: r in rs && r.elapsed == longest)
  }

  lemma LongestJoins(rs: seq<Ran>, first: nat, more: seq<Ran>, second: nat)
    requires IsLongest(rs, first) && IsLongest(more, second)
    ensures IsLongest(rs + more, Max(first, second))
  {
    if rs != [] && first >= second {
      var r :| r in rs && r.elapsed == first;
      assert r in rs + more;
    }
    if more != [] && second >= first {
      var r :| r in more && r.elapsed == second;
      assert r in rs + more;
    }
  }

  /** What some figures say of some calls, as far as a kind of figure goes. */
  predicate Tells(figures: Figures, rs: seq<Ran>, sel: Selector) {
    && figures.calls == |rs|
    && (sel.OfFunction? || sel.OfEdge? ==> figures.total == TimeOf(rs))
    && (sel.OfFunction? ==>
          && figures.self == OwnTimeOf(rs) && IsLongest(rs, figures.max)
          && figures.exceptions == RaisedOf(rs) && figures.escapes == 0)
  }

  lemma PlusIs(a: Figures, b: Figures)
    ensures var sum := Plus(a, b);
            && sum.calls == a.calls + b.calls && sum.total == a.total + b.total && sum.self == a.self + b.self
            && sum.max == Max(a.max, b.max)
            && sum.exceptions == a.exceptions + b.exceptions && sum.escapes == a.escapes + b.escapes
  {
  }

  lemma TellsMore(a: Figures, rs: seq<Ran>, b: Figures, more: seq<Ran>, sel: Selector)
    requires Tells(a, rs, sel) && Tells(b, more, sel)
    ensures Tells(Plus(a, b), rs + more, sel)
  {
    PlusIs(a, b);
    SumsJoin(rs, more);
    if sel.OfFunction? {
      LongestJoins(rs, a.max, more, b.max);
    }
  }

  lemma OneTells(a: Admission, r: Ran, call: Figures, sel: Selector)
    requires !sel.Everything?
    requires call == Figures(1, r.elapsed, r.own, r.elapsed, if r.raised then 1 else 0, 0)
    ensures Tells(Share(a, Ended(r.slot, r.native, r.caller, call), sel), Filtered(a, [r], sel), sel)
  {
    assert Filtered(a, [r][1..], sel) == [];
    if CountsFor(a, r, sel) {
      assert Filtered(a, [r], sel) == [r];
      assert r in [r] && TimeOf([r]) == r.elapsed && OwnTimeOf([r]) == r.own;
      assert RaisedOf([r]) == if r.raised then 1 else 0;
    }
  }

  lemma TellsOfThree(a: Admission, sel: Selector, own: Figures, r: seq<Ran>, inner: Figures, within: seq<Ran>,
                     next: Figures, after: seq<Ran>)
    requires Tells(own, Filtered(a, r, sel), sel) && Tells(inner, Filtered(a, within, sel), sel)
    requires Tells(next, Filtered(a, after, sel), sel)
    ensures Tells(Plus(Plus(own, inner), next), Filtered(a, r + within + after, sel), sel)
  {
    TellsMore(own, Filtered(a, r, sel), inner, Filtered(a, within, sel), sel);
    FilteredJoins(a, r, within, sel);
    TellsMore(Plus(own, inner), Filtered(a, r + within, sel), next, Filtered(a, after, sel), sel);
    FilteredJoins(a, r + within, after, sel);
  }

  /** The tally of a forest tells of the calls in it. */
  lemma {:induction false} TallyTells(a: Admission, limit: nat, depth: nat, caller: Caller, f: Forest, sel: Selector)
    requires Timed(f) && !sel.Everything?
    ensures Tells(Tally(a, limit, depth, caller, f, sel), Filtered(a, RanIn(a, limit, depth, caller, f), sel), sel)
    decreases f
  {
    if f.Call? {
      var call := EndedCall(a, limit, depth, caller, f);
      var inside := Caller(call.slot, call.native);
      var r := Ran(call.slot, call.native, caller, f.ended - f.started, f.ended - f.started - Span(f.inner), f.raised);
      var within, after := RanIn(a, limit, depth + 1, inside, f.inner), RanIn(a, limit, depth, caller, f.next);
      OneTells(a, r, OwnFigures(f), sel);
      TallyTells(a, limit, depth + 1, inside, f.inner, sel);
      TallyTells(a, limit, depth, caller, f.next, sel);
      var own, inner := Share(a, call, sel), Tally(a, limit, depth + 1, inside, f.inner, sel);
      var next := Tally(a, limit, depth, caller, f.next, sel);
      TellsOfThree(a, sel, own, [r], inner, within, next, after);
    }
  }

  lemma {:induction false} ForestsTell(a: Admission, limit: nat, ts: seq<int>, forests: map<int, Forest>, sel: Selector)
    requires AllTimed(ts, forests) && !sel.Everything?
    ensures Tells(ForestsTally(a, limit, ts, forests, sel), Filtered(a, AllRan(a, limit, ts, forests), sel), sel)
    decreases |ts|
  {
    if ts != [] {
      var first, others := RanIn(a, limit, 0, NoCaller, forests[ts[0]]), AllRan(a, limit, ts[1..], forests);
      TallyTells(a, limit, 0, NoCaller, forests[ts[0]], sel);
      ForestsTell(a, limit, ts[1..], forests, sel);
      TellsMore(Tally(a, limit, 0, NoCaller, forests[ts[0]], sel), Filtered(a, first, sel),
                ForestsTally(a, limit, ts[1..], forests, sel), Filtered(a, others, sel), sel);
      FilteredJoins(a, first, others, sel);
    }
  }

  // ----- exceptions traced

  /** The exceptions traced in some functions, other than iterator control flow or all of them. */
  function Traces(es: seq<Event>, keys: set<Key>, escapesOnly: bool): nat {
    if es == [] then 0
    else
      (if es[0].Raise? && !es[0].observer && es[0].key in keys && !(escapesOnly && es[0].controlFlow) then 1 else 0)
      + Traces(es[1..], keys, escapesOnly)
  }

  lemma {:induction false} TracesTold(a: Admission, es: seq<Event>, key: Key, native: bool)
    ensures var tally := TraceTally(a, es, OfFunction(key, native));
            var keys := if !native && key in a.python then {key} else {};
            tally == Figures(0, 0, 0, 0, Traces(es, keys, false), Traces(es, keys, true))
    decreases |es|
  {
    if es != [] {
      TracesTold(a, es[1..], key, native);
      var share := if es[0].Raise? then TraceShare(a, es[0], OfFunction(key, native)) else ZERO;
      PlusIs(share, TraceTally(a, es[1..], OfFunction(key, native)));
    }
  }

  /** The exceptions traced outside the observer in functions that are not among the given ones. */
  function TracesElsewhere(es: seq<Event>, keys: set<Key>, escapesOnly: bool): nat {
    if es == [] then 0
    else
      (if es[0].Raise? && !es[0].observer && es[0].key !in keys && !(escapesOnly && es[0].controlFlow) then 1 else 0)
      + TracesElsewhere(es[1..], keys, escapesOnly)
  }

  lemma {:induction false} DropsTraces(l: Limits, s: State, es: seq<Event>, a: Admission)
    requires Settled(l, Run(l, s, es), a)
    ensures Run(l, s, es).droppedExceptions == s.droppedExceptions + TracesElsewhere(es, a.python, false)
    ensures Run(l, s, es).droppedEscapes == s.droppedEscapes + TracesElsewhere(es, a.python, true)
    decreases |es|
  {
    if es != [] {
      var next := Step(l, s, es[0]);
      DropsTraces(l, next, es[1..], a);
      RunSettled(l, next, es[1..], a);
      StepSettled(l, s, es[0], a);
      StepDropsTraces(l, s, es[0], a);
    }
  }

  lemma StepDropsTraces(l: Limits, s: State, e: Event, a: Admission)
    requires Decides(l, s, e, a)
    ensures var dropped := e.Raise? && !e.observer && e.key !in a.python;
            && Step(l, s, e).droppedExceptions == s.droppedExceptions + (if dropped then 1 else 0)
            && Step(l, s, e).droppedEscapes == s.droppedEscapes + (if dropped && !e.controlFlow then 1 else 0)
  {
    if !e.Raise? || e.observer || e.key in a.python {
      StepDropsNoException(l, s, e, a);
    }
  }

  /** For any events, the exceptions dropped are those traced in functions that found no room. */
  lemma DroppedTraces(l: Limits, es: seq<Event>)
    ensures var s := Run(l, INITIAL, es);
            && s.droppedExceptions == TracesElsewhere(es, s.trackedPython, false)
            && s.droppedEscapes == TracesElsewhere(es, s.trackedPython, true)
  {
    DropsTraces(l, INITIAL, es, AdmissionOf(Run(l, INITIAL, es)));
  }

  // ----- main results

  /**
   In every interleaving, a function's row counts the calls that stand for it, with their time, what their own calls leave
   over of it, the longest of them and how many raised; and the exceptions traced in it.
   */
  lemma RowTells(l: Limits, es: seq<Event>, ts: seq<int>, forests: map<int, Forest>, key: Key, native: bool)
    requires Interleaves(es, ts, forests)
    ensures AllTimed(ts, forests)
    ensures var s := Run(l, INITIAL, es);
            var row := FiguresOf(if native then s.native else s.python, key);
            var calls := Filtered(AdmissionOf(s), AllRan(AdmissionOf(s), l.depth, ts, forests), OfFunction(key, native));
            var traced := if !native && key in s.trackedPython then {key} else {};
            && row.calls == |calls| && row.total == TimeOf(calls) && row.self == OwnTimeOf(calls)
            && IsLongest(calls, row.max)
            && row.exceptions == RaisedOf(calls) + Traces(es, traced, false) && row.escapes == Traces(es, traced, true)
  {
    var s := Run(l, INITIAL, es);
    var a := AdmissionOf(s);
    FinalAccounting(l, es, ts, forests, OfFunction(key, native));
    ForestsTell(a, l.depth, ts, forests, OfFunction(key, native));
    TracesTold(a, es, key, native);
    PlusIs(ForestsTally(a, l.depth, ts, forests, OfFunction(key, native)), TraceTally(a, es, OfFunction(key, native)));
  }

  /** An edge's row counts the calls along it and their time, and the drop counters those that found no room. */
  lemma EdgesTell(l: Limits, es: seq<Event>, ts: seq<int>, forests: map<int, Forest>, edge: EdgeKey, native: bool)
    requires Interleaves(es, ts, forests)
    ensures AllTimed(ts, forests)
    ensures var s := Run(l, INITIAL, es);
            var a := AdmissionOf(s);
            var row := EdgeFiguresOf(if native then s.nativeEdges else s.edges, edge);
            var all := AllRan(a, l.depth, ts, forests);
            && row.calls == |Filtered(a, all, OfEdge(edge, native))|
            && row.total == TimeOf(Filtered(a, all, OfEdge(edge, native)))
            && s.droppedEdges == |Filtered(a, all, DroppedEdges)|
            && s.droppedCalls == |Filtered(a, all, DroppedCalls)|
  {
    CountTells(l, es, ts, forests, OfEdge(edge, native));
    CountTells(l, es, ts, forests, DroppedEdges);
    CountTells(l, es, ts, forests, DroppedCalls);
  }

  lemma CountTells(l: Limits, es: seq<Event>, ts: seq<int>, forests: map<int, Forest>, sel: Selector)
    requires Interleaves(es, ts, forests) && !sel.OfFunction? && !sel.Everything?
    ensures AllTimed(ts, forests)
    ensures var s := Run(l, INITIAL, es);
            Tells(Value(s, sel), Filtered(AdmissionOf(s), AllRan(AdmissionOf(s), l.depth, ts, forests), sel), sel)
  {
    var a := AdmissionOf(Run(l, INITIAL, es));
    FinalAccounting(l, es, ts, forests, sel);
    ForestsTell(a, l.depth, ts, forests, sel);
    OnlyFunctionsTraced(a, es, sel);
    PlusIs(ForestsTally(a, l.depth, ts, forests, sel), ZERO);
  }
}
