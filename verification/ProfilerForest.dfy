/**
 The profiler's figures against the call trees they summarize.

 The profiler adds up figures event by event, for many threads at once and with every cap live. Here the
 same figures are defined by recursion on each thread's forest of calls, and the two are proved equal for
 every interleaving of the threads. A cap never makes a figure wrong: a function or an edge that found room in its
 table is complete, and everything else is counted as dropped.
 */
module ProfilerForest {
  import opened Profiler
  import opened Sets

  /** Which functions and edges ever found room in their tables. */
  datatype Admission = Admission(python: set<Key>, native: set<Key>, edges: set<EdgeKey>, nativeEdges: set<EdgeKey>)

  function AdmissionOf(s: State): Admission {
    Admission(s.trackedPython, s.trackedNative, s.edges.Keys, s.nativeEdges.Keys)
  }

  ghost predicate Within<T(!new)>(limit: nat, table: set<T>, settled: set<T>) {
    table <= settled && (|table| >= limit ==> table == settled)
  }

  /** `a` is what the tables of `s` can still become: once a table is full it no longer changes. */
  ghost predicate Settled(l: Limits, s: State, a: Admission) {
    && Within(l.functions, s.trackedPython, a.python)
    && Within(l.nativeFunctions, s.trackedNative, a.native)
    && Within(l.edges, s.edges.Keys, a.edges)
    && Within(l.nativeEdges, s.nativeEdges.Keys, a.nativeEdges)
  }

  lemma WithinTakes<T(!new)>(limit: nat, table: set<T>, item: T, settled: set<T>)
    requires Within(limit, if Takes(limit, table, item) then table + {item} else table, settled)
    ensures Within(limit, table, settled)
    ensures Takes(limit, table, item) <==> item in settled
  {
    if item in table {
      assert table + {item} == table;
    }
  }

  /** The room each table has for the event is what `a` says about its key. */
  predicate Decides(l: Limits, s: State, e: Event, a: Admission) {
    match e
    case Enter(thread, key, native, observer, _) =>
      InObserver(StackOf(s.stacks, thread), observer)
      || (if native then Takes(l.nativeFunctions, s.trackedNative, key) <==> key in a.native
          else Takes(l.functions, s.trackedPython, key) <==> key in a.python)
    case Raise(key, observer, _) => observer || (Takes(l.functions, s.trackedPython, key) <==> key in a.python)
    case Leave(thread, _, _) =>
      var stack := StackOf(s.stacks, thread);
      |stack| < 2 || EdgeDecides(l, s, Top(stack), Rest(stack), a)
  }

  predicate EdgeDecides(l: Limits, s: State, frame: Frame, below: seq<Frame>, a: Admission)
    requires below != []
  {
    frame.slot.Tracked? && HasEdge(below, frame.slot.key) ==>
      var edge := EdgeKey(Top(below).slot, frame.slot.key);
      if frame.native || Top(below).native then Takes(l.nativeEdges, s.nativeEdges.Keys, edge) <==> edge in a.nativeEdges
      else Takes(l.edges, s.edges.Keys, edge) <==> edge in a.edges
  }

  lemma EdgeWithinTakes(limit: nat, table: map<EdgeKey, EdgeFigures>, edge: EdgeKey, elapsed: nat,
                        settled: set<EdgeKey>)
    requires Within(limit, if Takes(limit, table.Keys, edge) then WithEdge(table, edge, elapsed).Keys else table.Keys, settled)
    ensures Within(limit, table.Keys, settled)
    ensures Takes(limit, table.Keys, edge) <==> edge in settled
  {
    assert WithEdge(table, edge, elapsed).Keys == table.Keys + {edge};
    WithinTakes(limit, table.Keys, edge, settled);
  }

  lemma CountEdgeSettled(l: Limits, s: State, edge: EdgeKey, elapsed: nat, native: bool, a: Admission)
    requires Settled(l, CountEdge(l, s, edge, elapsed, native), a)
    ensures Settled(l, s, a)
    ensures if native then Takes(l.nativeEdges, s.nativeEdges.Keys, edge) <==> edge in a.nativeEdges
            else Takes(l.edges, s.edges.Keys, edge) <==> edge in a.edges
  {
    if native {
      EdgeWithinTakes(l.nativeEdges, s.nativeEdges, edge, elapsed, a.nativeEdges);
    } else {
      EdgeWithinTakes(l.edges, s.edges, edge, elapsed, a.edges);
    }
  }

  lemma FinishSettled(l: Limits, s: State, frame: Frame, call: Figures, below: seq<Frame>, a: Admission)
    requires Settled(l, Finish(l, s, frame, call, below), a)
    ensures Settled(l, s, a)
    ensures below != [] ==> EdgeDecides(l, s, frame, below, a)
  {
    if frame.slot.Tracked? {
      var counted := CountCall(s, frame.slot.key, call, frame.native);
      if HasEdge(below, frame.slot.key) {
        CountEdgeSettled(l, counted, EdgeKey(Top(below).slot, frame.slot.key), call.total,
                         frame.native || Top(below).native, a);
      }
      assert AdmissionOf(counted) == AdmissionOf(s);
    }
  }

  lemma StepSettled(l: Limits, s: State, e: Event, a: Admission)
    requires Settled(l, Step(l, s, e), a)
    ensures Settled(l, s, a) && Decides(l, s, e, a)
  {
    match e
    case Enter(thread, key, native, observer, _) =>
      if !InObserver(StackOf(s.stacks, thread), observer) {
        if native {
          WithinTakes(l.nativeFunctions, s.trackedNative, key, a.native);
        } else {
          WithinTakes(l.functions, s.trackedPython, key, a.python);
        }
      }
    case Raise(key, observer, _) =>
      if !observer {
        WithinTakes(l.functions, s.trackedPython, key, a.python);
      }
    case Leave(thread, raised, now) =>
      var stack := StackOf(s.stacks, thread);
      if stack != [] {
        var call := Completed(Top(stack), raised, now);
        var below := Credit(Rest(stack), call.total);
        FinishSettled(l, s.(stacks := s.stacks[thread := below]), Top(stack), call, below, a);
      }
  }

  lemma {:induction false} RunSettled(l: Limits, s: State, es: seq<Event>, a: Admission)
    requires Settled(l, Run(l, s, es), a)
    ensures Settled(l, s, a)
    decreases |es|
  {
    if es != [] {
      RunSettled(l, Step(l, s, es[0]), es[1..], a);
      StepSettled(l, s, es[0], a);
    }
  }

  // ----- one thread by itself

  /** A thread's stack as a list, innermost call first. */
  datatype Stack = Bottom | On(top: Frame, below: Stack)

  function AsStack(stack: seq<Frame>): Stack {
    if stack == [] then Bottom else On(Top(stack), AsStack(Rest(stack)))
  }

  function Depth(stack: Stack): nat {
    match stack
    case Bottom => 0
    case On(_, below) => 1 + Depth(below)
  }

  /** Credits time spent in a callee to the innermost open call. */
  function Lend(stack: Stack, elapsed: nat): Stack {
    match stack
    case Bottom => Bottom
    case On(top, below) => On(top.(child := top.child + elapsed), below)
  }

  datatype Caller = NoCaller | Caller(slot: Slot, native: bool)

  function CallerOf(stack: Stack): Caller {
    match stack
    case Bottom => NoCaller
    case On(top, _) => Caller(top.slot, top.native)
  }

  /** One figure of the profiler: a function's row, an edge's row, a drop counter, or every call whatsoever. */
  datatype Selector =
    | OfFunction(key: Key, native: bool)
    | OfEdge(edge: EdgeKey, native: bool)
    | DroppedCalls
    | DroppedEdges
    | Everything

  function Value(s: State, sel: Selector): Figures
    requires !sel.Everything?
  {
    match sel
    case OfFunction(key, native) => FiguresOf(if native then s.native else s.python, key)
    case OfEdge(edge, native) =>
      var figures := EdgeFiguresOf(if native then s.nativeEdges else s.edges, edge);
      Figures(figures.calls, figures.total, 0, 0, 0, 0)
    case DroppedCalls => Figures(s.droppedCalls, 0, 0, 0, 0, 0)
    case DroppedEdges => Figures(s.droppedEdges, 0, 0, 0, 0, 0)
  }

  predicate InObserverOf(caller: Caller, observer: bool) {
    observer || (caller.Caller? && caller.slot.Ignored?)
  }

  /** The slot a call gets at a given depth under a given caller. */
  function SlotFor(a: Admission, limit: nat, depth: nat, caller: Caller, key: Key, native: bool, observer: bool): Slot {
    if depth >= limit then Dropped
    else if InObserverOf(caller, observer) then Ignored
    else if key in (if native then a.native else a.python) then Tracked(key)
    else Dropped
  }

  /** What one call along an edge adds to the selected figure. */
  function EdgeShare(a: Admission, edge: EdgeKey, elapsed: nat, native: bool, sel: Selector): Figures {
    var admitted := edge in (if native then a.nativeEdges else a.edges);
    if sel == OfEdge(edge, native) && admitted then Figures(1, elapsed, 0, 0, 0, 0)
    else if sel.DroppedEdges? && !admitted then Figures(1, 0, 0, 0, 0, 0)
    else ZERO
  }

  /** What one completed call adds to the selected figure. */
  function Share(a: Admission, ended: Ended, sel: Selector): Figures {
    var Ended(slot, native, caller, call) := ended;
    match sel
    case Everything => call
    case DroppedCalls => if slot.Dropped? then Figures(1, 0, 0, 0, 0, 0) else ZERO
    case OfFunction(key, table) => if slot == Tracked(key) && native == table then call else ZERO
    case _ =>
      if slot.Tracked? && caller.Caller? && !caller.slot.Dropped? && caller.slot != slot
      then EdgeShare(a, EdgeKey(caller.slot, slot.key), call.total, native || caller.native, sel)
      else ZERO
  }

  /** The frame a call pushes on its thread's stack. */
  function FrameFor(a: Admission, limit: nat, depth: nat, caller: Caller, key: Key, native: bool, observer: bool,
                    now: int)
    : Frame
  {
    Frame(SlotFor(a, limit, depth, caller, key, native, observer), now, 0, native && !InObserverOf(caller, observer))
  }

  function LocalStep(a: Admission, limit: nat, stack: Stack, e: Event): Stack {
    match e
    case Raise(_, _, _) => stack
    case Enter(_, key, native, observer, now) =>
      On(FrameFor(a, limit, Depth(stack), CallerOf(stack), key, native, observer, now), stack)
    case Leave(_, _, now) =>
      if stack.Bottom? then stack else Lend(stack.below, Elapsed(stack.top, now))
  }

  /** A call that has ended: what it stands for, who made it, and its figures. */
  datatype Ended = Ended(slot: Slot, native: bool, caller: Caller, figures: Figures)

  function EndedBy(stack: Stack, e: Event): Ended
    requires e.Leave? && stack.On?
  {
    Ended(stack.top.slot, stack.top.native, CallerOf(stack.below), Completed(stack.top, e.raised, e.now))
  }

  /** What one event adds to the selected figure, seen from its own thread's stack. */
  function Own(a: Admission, stack: Stack, e: Event, sel: Selector): Figures {
    if e.Leave? && stack.On? then Share(a, EndedBy(stack, e), sel) else ZERO
  }

  /** The call and return events of one thread, in order. */
  datatype Trail = End | Then(event: Event, rest: Trail)

  /** What a thread's events come to: calls in the order in which they end, and then the calls still open. */
  datatype Outcome = Open(stack: Stack) | After(ended: Ended, rest: Outcome)

  function Perform(a: Admission, limit: nat, stack: Stack, trail: Trail): Outcome
    decreases trail
  {
    match trail
    case End => Open(stack)
    case Then(e, rest) =>
      var performed := Perform(a, limit, LocalStep(a, limit, stack, e), rest);
      if e.Leave? && stack.On? then After(EndedBy(stack, e), performed) else performed
  }

  function Sum(a: Admission, outcome: Outcome, sel: Selector): Figures {
    match outcome
    case Open(_) => ZERO
    case After(ended, rest) => Plus(Share(a, ended, sel), Sum(a, rest, sel))
  }

  function StackLeft(outcome: Outcome): Stack {
    match outcome
    case Open(stack) => stack
    case After(_, rest) => StackLeft(rest)
  }

  /** What an exception event adds to the selected figure. */
  function TraceShare(a: Admission, e: Event, sel: Selector): Figures
    requires e.Raise?
  {
    if && !e.observer && sel == OfFunction(e.key, false) && e.key in a.python
    then Figures(0, 0, 0, 0, 1, if e.controlFlow then 0 else 1)
    else ZERO
  }

  function Delta(a: Admission, stacks: map<int, seq<Frame>>, e: Event, sel: Selector): Figures {
    if e.Raise? then TraceShare(a, e, sel) else Own(a, AsStack(StackOf(stacks, e.thread)), e, sel)
  }

  // ----- the machine performs, on each thread's stack, that thread's own steps

  lemma PlusLaws(a: Figures, b: Figures, c: Figures)
    ensures Plus(a, b) == Plus(b, a)
    ensures Plus(Plus(a, b), c) == Plus(a, Plus(b, c))
  {
  }

  lemma {:induction false} StackLaws(stack: seq<Frame>)
    ensures Depth(AsStack(stack)) == |stack|
    ensures CallerOf(AsStack(stack)) == if stack == [] then NoCaller else Caller(Top(stack).slot, Top(stack).native)
  {
    if stack != [] {
      StackLaws(Rest(stack));
    }
  }

  lemma CreditIsLend(stack: seq<Frame>, n: nat)
    ensures AsStack(Credit(stack, n)) == Lend(AsStack(stack), n)
  {
    if stack != [] {
      PushedFrame(Rest(stack), Top(stack).(child := Top(stack).child + n));
    }
  }

  lemma PushedFrame(stack: seq<Frame>, frame: Frame)
    ensures AsStack(stack + [frame]) == On(frame, AsStack(stack))
  {
    assert Rest(stack + [frame]) == stack;
  }

  lemma EnterStack(l: Limits, s: State, e: Event, a: Admission)
    requires e.Enter? && Decides(l, s, e, a)
    ensures AsStack(StackOf(Push(l, s, e).stacks, e.thread))
         == LocalStep(a, l.depth, AsStack(StackOf(s.stacks, e.thread)), e)
  {
    var stack := StackOf(s.stacks, e.thread);
    StackLaws(stack);
    var frame := FrameFor(a, l.depth, |stack|, CallerOf(AsStack(stack)), e.key, e.native, e.observer, e.now);
    PushedFrame(stack, frame);
    assert Push(l, s, e).stacks[e.thread] == stack + [frame];
  }

  lemma LeaveStack(l: Limits, s: State, e: Event, a: Admission)
    requires e.Leave?
    ensures AsStack(StackOf(Pop(l, s, e).stacks, e.thread))
         == LocalStep(a, l.depth, AsStack(StackOf(s.stacks, e.thread)), e)
  {
    var stack := StackOf(s.stacks, e.thread);
    if stack != [] {
      CreditIsLend(Rest(stack), Elapsed(Top(stack), e.now));
    }
  }

  lemma StepStack(l: Limits, s: State, e: Event, a: Admission, thread: int)
    requires Decides(l, s, e, a)
    ensures var stack := AsStack(StackOf(s.stacks, thread));
            AsStack(StackOf(Step(l, s, e).stacks, thread))
            == if !e.Raise? && e.thread == thread then LocalStep(a, l.depth, stack, e) else stack
  {
    if !e.Raise? && e.thread == thread {
      if e.Enter? {
        EnterStack(l, s, e, a);
      } else {
        LeaveStack(l, s, e, a);
      }
    } else if !e.Raise? {
      assert StackOf(Step(l, s, e).stacks, thread) == StackOf(s.stacks, thread);
    }
  }

  lemma FinishValue(l: Limits, s: State, frame: Frame, call: Figures, below: seq<Frame>, a: Admission, sel: Selector)
    requires !sel.Everything?
    requires below != [] ==> EdgeDecides(l, s, frame, below, a)
    ensures Value(Finish(l, s, frame, call, below), sel)
         == Plus(Value(s, sel), Share(a, Ended(frame.slot, frame.native, CallerOf(AsStack(below)), call), sel))
  {
    match frame.slot
    case Ignored =>
      assert Value(Finish(l, s, frame, call, below), sel) == Value(s, sel);

    case Dropped =>
      if !sel.DroppedCalls? {
        assert Value(Finish(l, s, frame, call, below), sel) == Value(s, sel);
      }
    case Tracked(key) =>
      if sel.OfFunction? {
        FinishFunctionValue(l, s, frame, call, below, a, sel);
      } else {
        FinishEdgeValue(l, s, frame, call, below, a, sel);
      }
  }

  lemma FinishFunctionValue(l: Limits, s: State, frame: Frame, call: Figures, below: seq<Frame>, a: Admission,
                            sel: Selector)
    requires sel.OfFunction? && frame.slot.Tracked?
    ensures Value(Finish(l, s, frame, call, below), sel)
         == Plus(Value(s, sel), Share(a, Ended(frame.slot, frame.native, CallerOf(AsStack(below)), call), sel))
  {
    var counted := CountCall(s, frame.slot.key, call, frame.native);
    assert Value(Finish(l, s, frame, call, below), sel) == Value(counted, sel);
    CountCallValue(s, frame.slot.key, call, frame.native, sel);
    if sel != OfFunction(frame.slot.key, frame.native) {
    }
  }

  lemma FinishEdgeValue(l: Limits, s: State, frame: Frame, call: Figures, below: seq<Frame>, a: Admission,
                        sel: Selector)
    requires !sel.Everything? && !sel.OfFunction? && frame.slot.Tracked?
    requires below != [] ==> EdgeDecides(l, s, frame, below, a)
    ensures Value(Finish(l, s, frame, call, below), sel)
         == Plus(Value(s, sel), Share(a, Ended(frame.slot, frame.native, CallerOf(AsStack(below)), call), sel))
  {
    var key := frame.slot.key;
    var counted := CountCall(s, key, call, frame.native);
    CountCallValue(s, key, call, frame.native, sel);
    if HasEdge(below, key) {
      CountEdgeValue(l, counted, EdgeKey(Top(below).slot, key), call.total, frame.native || Top(below).native, a, sel);
    } else {
      assert Value(Finish(l, s, frame, call, below), sel) == Value(s, sel);
    }
  }

  lemma CountCallValue(s: State, key: Key, call: Figures, native: bool, sel: Selector)
    requires !sel.Everything?
    ensures Value(CountCall(s, key, call, native), sel)
         == if sel == OfFunction(key, native) then Plus(Value(s, sel), call) else Value(s, sel)
  {
  }

  lemma CountEdgeValue(l: Limits, s: State, edge: EdgeKey, elapsed: nat, native: bool, a: Admission, sel: Selector)
    requires !sel.Everything?
    requires if native then Takes(l.nativeEdges, s.nativeEdges.Keys, edge) <==> edge in a.nativeEdges
             else Takes(l.edges, s.edges.Keys, edge) <==> edge in a.edges
    ensures Value(CountEdge(l, s, edge, elapsed, native), sel)
         == Plus(Value(s, sel), EdgeShare(a, edge, elapsed, native, sel))
  {
    if EdgeShare(a, edge, elapsed, native, sel) == ZERO {
      assert Value(CountEdge(l, s, edge, elapsed, native), sel) == Value(s, sel);
    }
  }

  lemma PopValue(l: Limits, s: State, e: Event, a: Admission, sel: Selector)
    requires !sel.Everything?
    requires e.Leave? && StackOf(s.stacks, e.thread) != [] && Decides(l, s, e, a)
    ensures Value(Pop(l, s, e), sel) == Plus(Value(s, sel), Own(a, AsStack(StackOf(s.stacks, e.thread)), e, sel))
  {
    var stack := StackOf(s.stacks, e.thread);
    var call := Completed(Top(stack), e.raised, e.now);
    var below := Credit(Rest(stack), call.total);
    var popped := s.(stacks := s.stacks[e.thread := below]);
    assert Value(popped, sel) == Value(s, sel);
    CreditIsLend(Rest(stack), call.total);
    FinishValue(l, popped, Top(stack), call, below, a, sel);
  }

  lemma StepValue(l: Limits, s: State, e: Event, a: Admission, sel: Selector)
    requires !sel.Everything?
    requires Decides(l, s, e, a)
    ensures Value(Step(l, s, e), sel) == Plus(Value(s, sel), Delta(a, s.stacks, e, sel))
  {
    match e
    case Enter(_, _, _, _, _) =>
      assert Value(Step(l, s, e), sel) == Value(s, sel);

    case Leave(thread, raised, now) =>
      var stack := StackOf(s.stacks, thread);
      if stack == [] {
        assert Value(Step(l, s, e), sel) == Value(s, sel);
      } else {
        PopValue(l, s, e, a, sel);
      }
    case Raise(key, observer, controlFlow) =>
      if sel == OfFunction(key, false) && !observer && key in a.python {
        var figures := FiguresOf(s.python, key);
        assert WithException(figures, controlFlow) == Plus(figures, TraceShare(a, e, sel));
      } else {
        assert Value(Step(l, s, e), sel) == Value(s, sel);
      }
  }

  // ----- any interleaving of threads

  function Project(es: seq<Event>, thread: int): Trail
    decreases |es|
  {
    if es == [] then End
    else if !es[0].Raise? && es[0].thread == thread then Then(es[0], Project(es[1..], thread))
    else Project(es[1..], thread)
  }

  predicate Distinct(ts: seq<int>) {
    forall i, j :: 0 <= i < j < |ts| ==> ts[i] != ts[j]
  }

  predicate ThreadsAmong(es: seq<Event>, ts: seq<int>) {
    forall i :: 0 <= i < |es| && !es[i].Raise? ==> es[i].thread in ts
  }

  function ThreadsTally(a: Admission, limit: nat, stacks: map<int, seq<Frame>>, es: seq<Event>, ts: seq<int>,
                        sel: Selector): Figures
    decreases |ts|
  {
    if ts == [] then ZERO
    else Plus(Sum(a, Perform(a, limit, AsStack(StackOf(stacks, ts[0])), Project(es, ts[0])), sel),
              ThreadsTally(a, limit, stacks, es, ts[1..], sel))
  }

  function TraceTally(a: Admission, es: seq<Event>, sel: Selector): Figures
    decreases |es|
  {
    if es == [] then ZERO
    else Plus(if es[0].Raise? then TraceShare(a, es[0], sel) else ZERO, TraceTally(a, es[1..], sel))
  }

  lemma {:induction false} OtherThreads(l: Limits, s: State, es: seq<Event>, a: Admission, ts: seq<int>, sel: Selector)
    requires es != [] && Decides(l, s, es[0], a)
    requires es[0].Raise? || es[0].thread !in ts
    ensures ThreadsTally(a, l.depth, s.stacks, es, ts, sel)
         == ThreadsTally(a, l.depth, Step(l, s, es[0]).stacks, es[1..], ts, sel)
    decreases |ts|
  {
    if ts != [] {
      StepStack(l, s, es[0], a, ts[0]);
      assert ts[0] in ts;
      OtherThreads(l, s, es, a, ts[1..], sel);
    }
  }

  lemma {:induction false} ThreadsStep(l: Limits, s: State, es: seq<Event>, a: Admission, ts: seq<int>, sel: Selector)
    requires es != [] && Decides(l, s, es[0], a)
    requires Distinct(ts) && !es[0].Raise? && es[0].thread in ts
    ensures ThreadsTally(a, l.depth, s.stacks, es, ts, sel)
         == Plus(Own(a, AsStack(StackOf(s.stacks, es[0].thread)), es[0], sel),
                 ThreadsTally(a, l.depth, Step(l, s, es[0]).stacks, es[1..], ts, sel))
    decreases |ts|
  {
    var own := Own(a, AsStack(StackOf(s.stacks, es[0].thread)), es[0], sel);
    var s' := Step(l, s, es[0]);
    StepStack(l, s, es[0], a, ts[0]);
    var first := Sum(a, Perform(a, l.depth, AsStack(StackOf(s'.stacks, ts[0])), Project(es[1..], ts[0])), sel);
    var others := ThreadsTally(a, l.depth, s'.stacks, es[1..], ts[1..], sel);
    if ts[0] == es[0].thread {
      OtherThreads(l, s, es, a, ts[1..], sel);
      PlusLaws(own, first, others);
    } else {
      ThreadsStep(l, s, es, a, ts[1..], sel);
      PlusLaws(first, own, others);
      PlusLaws(own, first, others);
    }
  }

  /** The tables after a run are the tables before it plus what each thread, by itself, contributes. */
  lemma {:induction false} InterleavingAccounting(l: Limits, s: State, es: seq<Event>, a: Admission, ts: seq<int>,
                                                  sel: Selector)
    requires !sel.Everything?
    requires Settled(l, Run(l, s, es), a)
    requires Distinct(ts) && ThreadsAmong(es, ts)
    ensures Value(Run(l, s, es), sel)
         == Plus(Value(s, sel), Plus(ThreadsTally(a, l.depth, s.stacks, es, ts, sel), TraceTally(a, es, sel)))
    decreases |es|
  {
    if es == [] {
      NothingLeft(a, l.depth, s.stacks, ts, sel);
    } else {
      var s' := Step(l, s, es[0]);
      InterleavingAccounting(l, s', es[1..], a, ts, sel);
      RunSettled(l, s', es[1..], a);
      StepSettled(l, s, es[0], a);
      StepValue(l, s, es[0], a, sel);
      var threads := ThreadsTally(a, l.depth, s'.stacks, es[1..], ts, sel);
      var traces := TraceTally(a, es[1..], sel);
      var delta := Delta(a, s.stacks, es[0], sel);
      if es[0].Raise? {
        OtherThreads(l, s, es, a, ts, sel);
        RegroupTrace(Value(s, sel), delta, threads, traces);
      } else {
        ThreadsStep(l, s, es, a, ts, sel);

        RegroupOwn(Value(s, sel), delta, threads, traces);
      }
    }
  }

  lemma NothingLeft(a: Admission, limit: nat, stacks: map<int, seq<Frame>>, ts: seq<int>, sel: Selector)
    ensures ThreadsTally(a, limit, stacks, [], ts, sel) == ZERO
    decreases |ts|
  {
    if ts != [] {
      NothingLeft(a, limit, stacks, ts[1..], sel);
    }
  }

  lemma RegroupTrace(v: Figures, d: Figures, ths: Figures, trs: Figures)
    ensures Plus(Plus(v, d), Plus(ths, trs)) == Plus(v, Plus(ths, Plus(d, trs)))
  {
    PlusLaws(v, d, Plus(ths, trs));
    PlusLaws(d, ths, trs);
    PlusLaws(ths, d, trs);
  }

  lemma RegroupOwn(v: Figures, d: Figures, ths: Figures, trs: Figures)
    ensures Plus(Plus(v, d), Plus(ths, trs)) == Plus(v, Plus(Plus(d, ths), trs))
  {
    PlusLaws(v, d, Plus(ths, trs));
    PlusLaws(d, ths, trs);
  }

  lemma {:induction false} RunStack(l: Limits, s: State, es: seq<Event>, a: Admission, thread: int)
    requires Settled(l, Run(l, s, es), a)
    ensures AsStack(StackOf(Run(l, s, es).stacks, thread))
         == StackLeft(Perform(a, l.depth, AsStack(StackOf(s.stacks, thread)), Project(es, thread)))
    decreases |es|
  {
    if es != [] {
      var s' := Step(l, s, es[0]);
      RunStack(l, s', es[1..], a, thread);
      RunSettled(l, s', es[1..], a);
      StepSettled(l, s, es[0], a);
      StepStack(l, s, es[0], a, thread);
      if !es[0].Raise? && es[0].thread == thread {
      }
    }
  }

  // ----- call trees

  /** A thread's completed calls: the first call, the calls it made, and the calls that follow it. */
  datatype Forest =
    | Empty
    | Call(key: Key, native: bool, observer: bool, started: int, inner: Forest, ended: int, raised: bool, next: Forest)

  /** The events by which a thread performs the calls of a forest, and then goes on with `tail`. */
  function Events(thread: int, f: Forest, tail: Trail): Trail {
    match f
    case Empty => tail
    case Call(key, native, observer, started, inner, ended, raised, next) =>
      Then(Enter(thread, key, native, observer, started),
           Events(thread, inner, Then(Leave(thread, raised, ended), Events(thread, next, tail))))
  }

  /** Time spent in the outermost calls of a forest. */
  function Span(f: Forest): nat {
    match f
    case Empty => 0
    case Call(_, _, _, started, _, ended, _, next) => (if ended > started then ended - started else 0) + Span(next)
  }

  /** Calls end after they start, and a call lasts at least as long as the calls it makes. */
  predicate Timed(f: Forest) {
    match f
    case Empty => true
    case Call(_, _, _, started, inner, ended, _, next) =>
      started <= ended && Span(inner) <= ended - started && Timed(inner) && Timed(next)
  }

  /** The clock never runs backwards, starting at `from`. */
  predicate Clocked(es: seq<Event>, from: int)
    decreases |es|
  {
    if es == [] then true
    else if es[0].Raise? then Clocked(es[1..], from)
    else from <= es[0].now && Clocked(es[1..], es[0].now)
  }

  predicate Later(trail: Trail, from: int) {
    match trail
    case End => true
    case Then(e, rest) => !e.Raise? && from <= e.now && Later(rest, e.now)
  }

  function EndOf(f: Forest, from: int): int {
    match f
    case Empty => from
    case Call(_, _, _, _, _, ended, _, next) => EndOf(next, ended)
  }

  lemma {:induction false} ClockedProject(es: seq<Event>, from: int, lo: int, thread: int)
    requires Clocked(es, from) && lo <= from
    ensures Later(Project(es, thread), lo)
    decreases |es|
  {
    if es != [] {
      if es[0].Raise? {
        ClockedProject(es[1..], from, lo, thread);
      } else if es[0].thread == thread {
        ClockedProject(es[1..], es[0].now, es[0].now, thread);
      } else {
        ClockedProject(es[1..], es[0].now, lo, thread);
      }
    }
  }

  /** With a clock that never runs backwards, the clamp on self time never fires. */
  lemma {:induction false} ClockFitsCalls(thread: int, f: Forest, tail: Trail, from: int)
    requires Later(Events(thread, f, tail), from)
    ensures Timed(f) && from <= EndOf(f, from) && Span(f) <= EndOf(f, from) - from
    ensures Later(tail, EndOf(f, from))
    decreases f
  {
    match f
    case Empty =>
    case Call(_, _, _, started, inner, ended, raised, next) =>
      ClockFitsCalls(thread, inner, Then(Leave(thread, raised, ended), Events(thread, next, tail)), started);
      ClockFitsCalls(thread, next, tail, ended);
  }

  /** The figures of a forest's first call alone: its self time is what its own calls leave over. */
  function OwnFigures(f: Forest): Figures
    requires f.Call? && Timed(f)
  {
    var elapsed := f.ended - f.started;
    Figures(1, elapsed, elapsed - Span(f.inner), elapsed, if f.raised then 1 else 0, 0)
  }

  /** A forest's first call as it ends, made at a given depth by a given caller. */
  function EndedCall(a: Admission, limit: nat, depth: nat, caller: Caller, f: Forest): Ended
    requires f.Call? && Timed(f)
  {
    var frame := FrameFor(a, limit, depth, caller, f.key, f.native, f.observer, f.started);
    Ended(frame.slot, frame.native, caller, OwnFigures(f))
  }

  /** The selected figure of a forest, by recursion on its calls. */
  function Tally(a: Admission, limit: nat, depth: nat, caller: Caller, f: Forest, sel: Selector): Figures
    requires Timed(f)
    decreases f
  {
    if f.Empty? then ZERO
    else
      var call := EndedCall(a, limit, depth, caller, f);
      Plus(Plus(Share(a, call, sel), Tally(a, limit, depth + 1, Caller(call.slot, call.native), f.inner, sel)),
           Tally(a, limit, depth, caller, f.next, sel))
  }

  /** The calls of a forest in the order in which they end, put in front of what follows. */
  function CallsThen(a: Admission, limit: nat, depth: nat, caller: Caller, f: Forest, after: Outcome): Outcome
    requires Timed(f)
    decreases f
  {
    if f.Empty? then after
    else
      var call := EndedCall(a, limit, depth, caller, f);
      CallsThen(a, limit, depth + 1, Caller(call.slot, call.native), f.inner,
                After(call, CallsThen(a, limit, depth, caller, f.next, after)))
  }

  lemma LendLaws(stack: Stack, m: nat, n: nat)
    ensures CallerOf(Lend(stack, m)) == CallerOf(stack) && Depth(Lend(stack, m)) == Depth(stack)
    ensures Lend(Lend(stack, m), n) == Lend(stack, m + n)
    ensures Lend(stack, 0) == stack
  {
  }

  /**
   A thread that performs the calls of a forest ends exactly those calls, leaves the stack as it found it, and credits
   the innermost open call with the time of the forest's outermost calls.
   */
  lemma {:induction false} PerformForest(a: Admission, limit: nat, stack: Stack, thread: int, f: Forest, tail: Trail)
    requires Timed(f)
    ensures Perform(a, limit, stack, Events(thread, f, tail))
         == CallsThen(a, limit, Depth(stack), CallerOf(stack), f, Perform(a, limit, Lend(stack, Span(f)), tail))
    decreases f
  {
    match f
    case Empty =>
      LendLaws(stack, 0, 0);
    case Call(key, native, observer, started, inner, ended, raised, next) =>
      var frame := FrameFor(a, limit, Depth(stack), CallerOf(stack), key, native, observer, started);
      var leave := Leave(thread, raised, ended);
      var afterCall := Events(thread, next, tail);
      PerformForest(a, limit, On(frame, stack), thread, inner, Then(leave, afterCall));
      PerformLeave(a, limit, stack, thread, f, afterCall);
      PerformForest(a, limit, Lend(stack, ended - started), thread, next, tail);
      LendLaws(stack, ended - started, Span(next));
  }

  lemma PerformLeave(a: Admission, limit: nat, stack: Stack, thread: int, f: Forest, rest: Trail)
    requires f.Call? && Timed(f)
    ensures var depth, caller := Depth(stack), CallerOf(stack);
            var frame := FrameFor(a, limit, depth, caller, f.key, f.native, f.observer, f.started);
            Perform(a, limit, Lend(On(frame, stack), Span(f.inner)), Then(Leave(thread, f.raised, f.ended), rest))
            == After(EndedCall(a, limit, depth, caller, f), Perform(a, limit, Lend(stack, f.ended - f.started), rest))
  {
    var frame := FrameFor(a, limit, Depth(stack), CallerOf(stack), f.key, f.native, f.observer, f.started);
    assert Completed(frame.(child := Span(f.inner)), f.raised, f.ended) == OwnFigures(f);
  }

  lemma RegroupCall(call: Figures, inner: Figures, next: Figures, after: Figures)
    ensures Plus(inner, Plus(call, Plus(next, after))) == Plus(Plus(Plus(call, inner), next), after)
  {
    PlusLaws(inner, call, Plus(next, after));
    PlusLaws(call, inner, Plus(next, after));
    PlusLaws(Plus(call, inner), next, after);
  }

  /** Added up in the order in which they end, the calls of a forest come to its tally. */
  lemma {:induction false} SumOfCalls(a: Admission, limit: nat, depth: nat, caller: Caller, f: Forest, after: Outcome,
                                      sel: Selector)
    requires Timed(f)
    ensures Sum(a, CallsThen(a, limit, depth, caller, f, after), sel)
         == Plus(Tally(a, limit, depth, caller, f, sel), Sum(a, after, sel))
    ensures StackLeft(CallsThen(a, limit, depth, caller, f, after)) == StackLeft(after)
    decreases f
  {
    if f.Call? {
      var call := EndedCall(a, limit, depth, caller, f);
      var inside := Caller(call.slot, call.native);
      var rest := CallsThen(a, limit, depth, caller, f.next, after);
      SumOfCalls(a, limit, depth, caller, f.next, after, sel);
      SumOfCalls(a, limit, depth + 1, inside, f.inner, After(call, rest), sel);
      RegroupCall(Share(a, call, sel), Tally(a, limit, depth + 1, inside, f.inner, sel),
                  Tally(a, limit, depth, caller, f.next, sel), Sum(a, after, sel));
    }
  }

  // ----- main results

  function ForestsTally(a: Admission, limit: nat, ts: seq<int>, forests: map<int, Forest>, sel: Selector): Figures
    requires forall i :: 0 <= i < |ts| ==> ts[i] in forests && Timed(forests[ts[i]])
    decreases |ts|
  {
    if ts == [] then ZERO
    else Plus(Tally(a, limit, 0, NoCaller, forests[ts[0]], sel), ForestsTally(a, limit, ts[1..], forests, sel))
  }

  /** The events are some interleaving of the threads' forests of well-nested calls, under a nondecreasing clock. */
  ghost predicate Interleaves(es: seq<Event>, ts: seq<int>, forests: map<int, Forest>) {
    && Distinct(ts) && ThreadsAmong(es, ts)
    && (exists from :: Clocked(es, from))
    && forall t :: t in ts ==> t in forests && Project(es, t) == Events(t, forests[t], End)
  }

  lemma InterleavedTimed(es: seq<Event>, ts: seq<int>, forests: map<int, Forest>, t: int)
    requires Interleaves(es, ts, forests) && t in ts
    ensures Timed(forests[t])
  {
    var from :| Clocked(es, from);
    ClockedProject(es, from, from, t);
    ClockFitsCalls(t, forests[t], End, from);
  }

  lemma {:induction false} ThreadsAreForests(a: Admission, limit: nat, es: seq<Event>, ts: seq<int>,
                                             forests: map<int, Forest>, sel: Selector)
    requires forall i :: 0 <= i < |ts| ==> ts[i] in forests && Timed(forests[ts[i]])
    requires forall i :: 0 <= i < |ts| ==> Project(es, ts[i]) == Events(ts[i], forests[ts[i]], End)
    ensures ThreadsTally(a, limit, map[], es, ts, sel) == ForestsTally(a, limit, ts, forests, sel)
    decreases |ts|
  {
    if ts != [] {
      var f := forests[ts[0]];
      PerformForest(a, limit, Bottom, ts[0], f, End);
      SumOfCalls(a, limit, 0, NoCaller, f, Open(Bottom), sel);

      ThreadsAreForests(a, limit, es, ts[1..], forests, sel);
    }
  }

  /**
   For every interleaving of well-nested calls, with all caps live: each figure the profiler holds is the sum over the
   threads of the figure computed on their call trees (plus the exceptions traced), and no call is left open.
   */
  lemma ForestAccounting(l: Limits, es: seq<Event>, ts: seq<int>, forests: map<int, Forest>, a: Admission,
                         sel: Selector)
    requires !sel.Everything?
    requires Interleaves(es, ts, forests)
    requires Settled(l, Run(l, INITIAL, es), a)
    ensures forall t :: t in ts ==> StackOf(Run(l, INITIAL, es).stacks, t) == []
    ensures forall i :: 0 <= i < |ts| ==> ts[i] in forests && Timed(forests[ts[i]])
    ensures Value(Run(l, INITIAL, es), sel)
         == Plus(ForestsTally(a, l.depth, ts, forests, sel), TraceTally(a, es, sel))
  {
    forall t | t in ts
      ensures Timed(forests[t]) && StackOf(Run(l, INITIAL, es).stacks, t) == []
    {
      InterleavedTimed(es, ts, forests, t);
      RunStack(l, INITIAL, es, a, t);
      PerformForest(a, l.depth, Bottom, t, forests[t], End);
      SumOfCalls(a, l.depth, 0, NoCaller, forests[t], Open(Bottom), Everything);
    }
    InterleavingAccounting(l, INITIAL, es, a, ts, sel);
    ThreadsAreForests(a, l.depth, es, ts, forests, sel);
  }

  /**
   What found room in the end is what the final tables hold: so for every interleaving, a function or an edge that has a
   row at all has the figures of all of its calls in the call trees, as if it had been admitted from the beginning.
   */
  lemma FinalAccounting(l: Limits, es: seq<Event>, ts: seq<int>, forests: map<int, Forest>, sel: Selector)
    requires !sel.Everything? && Interleaves(es, ts, forests)
    ensures forall i :: 0 <= i < |ts| ==> ts[i] in forests && Timed(forests[ts[i]])
    ensures var s := Run(l, INITIAL, es);
            Value(s, sel) == Plus(ForestsTally(AdmissionOf(s), l.depth, ts, forests, sel), TraceTally(AdmissionOf(s), es, sel))
  {
    ForestAccounting(l, es, ts, forests, AdmissionOf(Run(l, INITIAL, es)), sel);
  }

  function CallCount(f: Forest): nat {
    match f
    case Empty => 0
    case Call(_, _, _, _, inner, _, _, next) => 1 + CallCount(inner) + CallCount(next)
  }

  lemma PlusSelf(a: Figures, b: Figures)
    ensures Plus(a, b).self == a.self + b.self && Plus(a, b).calls == a.calls + b.calls
  {
  }

  /** The self times of all calls, ignored and dropped ones included, add up to the time of the outermost calls. */
  lemma {:induction false} SelfTimesTelescope(a: Admission, limit: nat, depth: nat, caller: Caller, f: Forest)
    requires Timed(f)
    ensures Tally(a, limit, depth, caller, f, Everything).self == Span(f)
    ensures Tally(a, limit, depth, caller, f, Everything).calls == CallCount(f)
    decreases f
  {
    if f.Call? {
      var call := EndedCall(a, limit, depth, caller, f);
      var inside := Caller(call.slot, call.native);
      SelfTimesTelescope(a, limit, depth + 1, inside, f.inner);
      SelfTimesTelescope(a, limit, depth, caller, f.next);
      var inner := Tally(a, limit, depth + 1, inside, f.inner, Everything);
      PlusSelf(OwnFigures(f), inner);
      PlusSelf(Plus(OwnFigures(f), inner), Tally(a, limit, depth, caller, f.next, Everything));
    }
  }

  /**
   In every interleaving, what each thread's stack machine credits as self time to the calls that end, whatever becomes of
   them in the tables, adds up to the elapsed time of that thread's outermost calls.
   */
  lemma ThreadTime(es: seq<Event>, ts: seq<int>, forests: map<int, Forest>, a: Admission, limit: nat, t: int)
    requires Interleaves(es, ts, forests) && t in ts
    ensures Timed(forests[t])
    ensures Sum(a, Perform(a, limit, Bottom, Project(es, t)), Everything).self == Span(forests[t])
    ensures Sum(a, Perform(a, limit, Bottom, Project(es, t)), Everything).calls == CallCount(forests[t])
  {
    InterleavedTimed(es, ts, forests, t);
    PerformForest(a, limit, Bottom, t, forests[t], End);
    SumOfCalls(a, limit, 0, NoCaller, forests[t], Open(Bottom), Everything);
    SelfTimesTelescope(a, limit, 0, NoCaller, forests[t]);
    PlusSelf(Tally(a, limit, 0, NoCaller, forests[t], Everything), ZERO);
  }

  // ----- below the caps

  function Height(f: Forest): nat {
    match f
    case Empty => 0
    case Call(_, _, _, _, inner, _, _, next) => Max(1 + Height(inner), Height(next))
  }

  /** A function's figures on a forest, without any cap. */
  function FreeTally(f: Forest, inObserver: bool, key: Key, native: bool): Figures
    requires Timed(f)
  {
    match f
    case Empty => ZERO
    case Call(k, n, observer, started, inner, ended, raised, next) =>
      var hidden := inObserver || observer;
      Plus(Plus(if !hidden && k == key && n == native then OwnFigures(f) else ZERO, FreeTally(inner, hidden, key, native)),
           FreeTally(next, inObserver, key, native))
  }

  /** The functions called are among the given ones, but for those that only an observer calls or is. */
  predicate KeysAmong(f: Forest, inObserver: bool, python: set<Key>, native: set<Key>) {
    match f
    case Empty => true
    case Call(k, n, observer, _, inner, _, _, next) =>
      var hidden := inObserver || observer;
      && (hidden || k in (if n then native else python))
      && KeysAmong(inner, hidden, python, native) && KeysAmong(next, inObserver, python, native)
  }

  /** The call is hidden from the profiler, or its function has room. */
  predicate HasRoom(a: Admission, caller: Caller, f: Forest)
    requires f.Call?
  {
    InObserverOf(caller, f.observer) || f.key in (if f.native then a.native else a.python)
  }

  lemma UncappedCall(a: Admission, limit: nat, depth: nat, caller: Caller, f: Forest, key: Key, native: bool)
    requires f.Call? && Timed(f) && depth < limit && HasRoom(a, caller, f)
    ensures var call := EndedCall(a, limit, depth, caller, f);
            var hidden := InObserverOf(caller, f.observer);
            && call.slot == (if hidden then Ignored else Tracked(f.key))
            && Share(a, call, DroppedCalls) == ZERO
            && Share(a, call, OfFunction(key, native))
               == if !hidden && f.key == key && f.native == native then OwnFigures(f) else ZERO
  {
  }

  lemma {:induction false} CapsUnreached(a: Admission, limit: nat, depth: nat, caller: Caller, f: Forest, key: Key,
                                         native: bool)
    requires Timed(f) && KeysAmong(f, InObserverOf(caller, false), a.python, a.native) && depth + Height(f) <= limit
    ensures Tally(a, limit, depth, caller, f, OfFunction(key, native))
         == FreeTally(f, InObserverOf(caller, false), key, native)
    ensures Tally(a, limit, depth, caller, f, DroppedCalls) == ZERO
    decreases f
  {
    if f.Call? {
      var call := EndedCall(a, limit, depth, caller, f);
      UncappedCall(a, limit, depth, caller, f, key, native);
      CapsUnreached(a, limit, depth + 1, Caller(call.slot, call.native), f.inner, key, native);
      CapsUnreached(a, limit, depth, caller, f.next, key, native);
    }
  }

  // ----- who asks for room, and who gets it

  /** The event asks for room for a function: a call outside the observer, or an exception there. */
  predicate Asks(s: State, e: Event, native: bool) {
    match e
    case Enter(thread, _, isNative, observer, _) => isNative == native && !InObserver(StackOf(s.stacks, thread), observer)
    case Raise(_, observer, _) => !native && !observer
    case Leave(_, _, _) => false
  }

  /** The functions that room is asked for, in order. */
  function Asked(l: Limits, s: State, es: seq<Event>, native: bool): seq<Key>
    decreases |es|
  {
    if es == [] then []
    else (if Asks(s, es[0], native) then [es[0].key] else []) + Asked(l, Step(l, s, es[0]), es[1..], native)
  }

  function KeySet(keys: seq<Key>): set<Key> {
    set key | key in keys
  }

  /** A bounded table after some items asked for room. */
  function Admitted(limit: nat, table: set<Key>, keys: seq<Key>): set<Key>
    decreases |keys|
  {
    if keys == [] then table
    else Admitted(limit, if Takes(limit, table, keys[0]) then table + {keys[0]} else table, keys[1..])
  }

  function TrackedIn(s: State, native: bool): set<Key> {
    if native then s.trackedNative else s.trackedPython
  }

  function LimitOf(l: Limits, native: bool): nat {
    if native then l.nativeFunctions else l.functions
  }

  lemma StepAdmits(l: Limits, s: State, e: Event, native: bool)
    ensures TrackedIn(Step(l, s, e), native)
            == if Asks(s, e, native) then Admitted(LimitOf(l, native), TrackedIn(s, native), [e.key]) else TrackedIn(s, native)
  {
    if Asks(s, e, native) {
      var table := TrackedIn(s, native);
      var more := if Takes(LimitOf(l, native), table, e.key) then table + {e.key} else table;
      assert [e.key][1..] == [];
      assert Admitted(LimitOf(l, native), table, [e.key]) == more;
    }
  }

  lemma {:induction false} RunAdmits(l: Limits, s: State, es: seq<Event>, native: bool)
    ensures TrackedIn(Run(l, s, es), native) == Admitted(LimitOf(l, native), TrackedIn(s, native), Asked(l, s, es, native))
    decreases |es|
  {
    if es != [] {
      var next := Step(l, s, es[0]);
      StepAdmits(l, s, es[0], native);
      RunAdmits(l, next, es[1..], native);
      if Asks(s, es[0], native) {
        var keys := Asked(l, s, es, native);
        assert keys[0] == es[0].key && keys[1..] == Asked(l, next, es[1..], native);
        assert [es[0].key][1..] == [];
      } else {
        assert Asked(l, s, es, native) == Asked(l, next, es[1..], native);
      }
    }
  }

  /** What is admitted was there before, or asked when fewer different ones than the limit were there or had asked. */
  lemma {:induction false} AdmittedIff(limit: nat, table: set<Key>, keys: seq<Key>, key: Key)
    ensures key in Admitted(limit, table, keys) <==> key in table || AsksInTime(limit, table, keys, key)
    decreases |keys|
  {
    if keys != [] {
      var taken := Takes(limit, table, keys[0]);
      var more := if taken then table + {keys[0]} else table;
      AdmittedIff(limit, more, keys[1..], key);
      if taken {
        TimeShifts(limit, table, keys, key);
      } else {
        NoTimeLeft(limit, table, keys, key);
        NoTimeLeft(limit, table, keys[1..], key);
      }
    }
  }

  predicate InTime(limit: nat, table: set<Key>, keys: seq<Key>, key: Key, i: nat)
    requires i < |keys|
  {
    keys[i] == key && |table + KeySet(keys[..i])| < limit
  }

  ghost predicate AsksInTime(limit: nat, table: set<Key>, keys: seq<Key>, key: Key) {
    exists i :: 0 <= i < |keys| && InTime(limit, table, keys, key, i)
  }

  lemma NoTimeLeft(limit: nat, table: set<Key>, keys: seq<Key>, key: Key)
    requires |table| >= limit
    ensures !AsksInTime(limit, table, keys, key)
  {
    forall i | 0 <= i < |keys|
      ensures !InTime(limit, table, keys, key, i)
    {
      SubsetSize(table, table + KeySet(keys[..i]));
    }
  }

  lemma Shifts(table: set<Key>, keys: seq<Key>, i: nat)
    requires i < |keys|
    ensures table + {keys[0]} + KeySet(keys[1..][..i]) == table + KeySet(keys[..i + 1])
  {
    assert keys[..i + 1] == [keys[0]] + keys[1..][..i];
  }

  lemma ShiftsTime(limit: nat, table: set<Key>, keys: seq<Key>, key: Key, i: nat)
    requires i + 1 < |keys|
    ensures InTime(limit, table + {keys[0]}, keys[1..], key, i) <==> InTime(limit, table, keys, key, i + 1)
  {
    Shifts(table, keys, i);
  }

  lemma TimeShifts(limit: nat, table: set<Key>, keys: seq<Key>, key: Key)
    requires keys != [] && Takes(limit, table, keys[0])
    ensures key in table || AsksInTime(limit, table, keys, key)
            <==> key in table + {keys[0]} || AsksInTime(limit, table + {keys[0]}, keys[1..], key)
  {
    if AsksInTime(limit, table, keys, key) && key != keys[0] {
      var i :| 0 <= i < |keys| && InTime(limit, table, keys, key, i);
      ShiftsTime(limit, table, keys, key, i - 1);
    }
    if AsksInTime(limit, table + {keys[0]}, keys[1..], key) {
      var i :| 0 <= i < |keys[1..]| && InTime(limit, table + {keys[0]}, keys[1..], key, i);
      ShiftsTime(limit, table, keys, key, i);
    }
    if key == keys[0] && key !in table {
      assert table + KeySet(keys[..0]) == table;
      assert InTime(limit, table, keys, key, 0);
    }
  }

  /** For any events, the functions that have room are the first different ones that asked, up to the cap. */
  lemma AdmittedAreFirst(l: Limits, es: seq<Event>, native: bool, key: Key)
    ensures key in TrackedIn(Run(l, INITIAL, es), native)
            <==> AsksInTime(LimitOf(l, native), {}, Asked(l, INITIAL, es, native), key)
  {
    RunAdmits(l, INITIAL, es, native);
    AdmittedIff(LimitOf(l, native), {}, Asked(l, INITIAL, es, native), key);
  }

  lemma TrackedAsked(l: Limits, es: seq<Event>, native: bool)
    ensures TrackedIn(Run(l, INITIAL, es), native) <= KeySet(Asked(l, INITIAL, es, native))
  {
    forall key | key in TrackedIn(Run(l, INITIAL, es), native)
      ensures key in KeySet(Asked(l, INITIAL, es, native))
    {
      AdmittedAreFirst(l, es, native, key);
    }
  }

  // ----- the calls of a forest ask for room

  /** What a thread's events ask room for, by itself. */
  function AskedAlone(a: Admission, limit: nat, stack: Stack, trail: Trail, native: bool): set<Key>
    decreases trail
  {
    match trail
    case End => {}
    case Then(e, rest) =>
      (if e.Enter? && e.native == native && !InObserverOf(CallerOf(stack), e.observer) then {e.key} else {})
      + AskedAlone(a, limit, LocalStep(a, limit, stack, e), rest, native)
  }

  function KeyIf(asks: bool, key: Key): set<Key> {
    if asks then {key} else {}
  }

  lemma AskedMore(l: Limits, s: State, es: seq<Event>, native: bool)
    requires es != []
    ensures KeySet(Asked(l, Step(l, s, es[0]), es[1..], native)) <= KeySet(Asked(l, s, es, native))
    ensures Asks(s, es[0], native) ==> es[0].key in KeySet(Asked(l, s, es, native))
  {
    if Asks(s, es[0], native) {
      assert Asked(l, s, es, native)[0] == es[0].key;
    }
  }

  /** A call asks for room on its thread's stack as it does in the machine. */
  lemma AsksAlone(s: State, e: Event, native: bool)
    requires e.Enter?
    ensures Asks(s, e, native)
            <==> e.native == native && !InObserverOf(CallerOf(AsStack(StackOf(s.stacks, e.thread))), e.observer)
  {
    StackLaws(StackOf(s.stacks, e.thread));
  }

  lemma {:induction false} ThreadAsks(l: Limits, s: State, es: seq<Event>, a: Admission, thread: int, native: bool)
    requires Settled(l, Run(l, s, es), a)
    ensures AskedAlone(a, l.depth, AsStack(StackOf(s.stacks, thread)), Project(es, thread), native)
            <= KeySet(Asked(l, s, es, native))
    decreases |es|
  {
    if es != [] {
      var next := Step(l, s, es[0]);
      ThreadAsks(l, next, es[1..], a, thread, native);
      RunSettled(l, next, es[1..], a);
      StepSettled(l, s, es[0], a);
      StepAsks(l, s, es, a, thread, native, KeySet(Asked(l, s, es, native)));
    }
  }

  lemma StepAsks(l: Limits, s: State, es: seq<Event>, a: Admission, thread: int, native: bool, keys: set<Key>)
    requires es != [] && Decides(l, s, es[0], a) && KeySet(Asked(l, s, es, native)) == keys
    requires var next := Step(l, s, es[0]);
             AskedAlone(a, l.depth, AsStack(StackOf(next.stacks, thread)), Project(es[1..], thread), native)
             <= KeySet(Asked(l, next, es[1..], native))
    ensures AskedAlone(a, l.depth, AsStack(StackOf(s.stacks, thread)), Project(es, thread), native) <= keys
  {
    AskedMore(l, s, es, native);
    StepStack(l, s, es[0], a, thread);
    if es[0].Enter? {
      AsksAlone(s, es[0], native);
    }
  }

  /** What a forest's first call asks for, and the events that follow within it. */
  lemma AskedByCall(a: Admission, limit: nat, stack: Stack, thread: int, f: Forest, tail: Trail, native: bool)
    requires f.Call?
    ensures var frame := FrameFor(a, limit, Depth(stack), CallerOf(stack), f.key, f.native, f.observer, f.started);
            var within := Then(Leave(thread, f.raised, f.ended), Events(thread, f.next, tail));
            AskedAlone(a, limit, stack, Events(thread, f, tail), native)
            == KeyIf(f.native == native && !InObserverOf(CallerOf(stack), f.observer), f.key)
               + AskedAlone(a, limit, On(frame, stack), Events(thread, f.inner, within), native)
  {
  }

  lemma LendsSpan(stack: Stack, f: Forest)
    requires f.Call? && Timed(f)
    ensures var lent := Lend(stack, f.ended - f.started);
            && Lend(lent, Span(f.next)) == Lend(stack, Span(f))
            && CallerOf(lent) == CallerOf(stack) && Depth(lent) == Depth(stack)
  {
    LendLaws(stack, f.ended - f.started, Span(f.next));
  }

  /** A forest whose events ask for some functions only calls no others outside the observer. */
  lemma {:induction false} ForestAsks(a: Admission, limit: nat, stack: Stack, thread: int, f: Forest, tail: Trail,
                                      python: set<Key>, native: set<Key>)
    requires Timed(f) && Depth(stack) + Height(f) <= limit
    requires AskedAlone(a, limit, stack, Events(thread, f, tail), false) <= python
    requires AskedAlone(a, limit, stack, Events(thread, f, tail), true) <= native
    ensures KeysAmong(f, InObserverOf(CallerOf(stack), false), python, native)
    ensures AskedAlone(a, limit, Lend(stack, Span(f)), tail, false) <= python
    ensures AskedAlone(a, limit, Lend(stack, Span(f)), tail, true) <= native
    decreases f
  {
    if f.Empty? {
      LendLaws(stack, 0, 0);
    } else {
      var frame := FrameFor(a, limit, Depth(stack), CallerOf(stack), f.key, f.native, f.observer, f.started);
      var afterCall := Events(thread, f.next, tail);
      AskedByCall(a, limit, stack, thread, f, tail, false);
      AskedByCall(a, limit, stack, thread, f, tail, true);
      ForestAsks(a, limit, On(frame, stack), thread, f.inner, Then(Leave(thread, f.raised, f.ended), afterCall), python, native);
      AskedAfterCall(a, limit, stack, thread, f, afterCall, false);
      AskedAfterCall(a, limit, stack, thread, f, afterCall, true);
      LendsSpan(stack, f);
      ForestAsks(a, limit, Lend(stack, f.ended - f.started), thread, f.next, tail, python, native);
      assert f.key in (if f.native then native else python) || InObserverOf(CallerOf(stack), f.observer);
    }
  }

  lemma AskedAfterCall(a: Admission, limit: nat, stack: Stack, thread: int, f: Forest, rest: Trail, native: bool)
    requires f.Call? && Timed(f)
    ensures var frame := FrameFor(a, limit, Depth(stack), CallerOf(stack), f.key, f.native, f.observer, f.started);
            AskedAlone(a, limit, Lend(On(frame, stack), Span(f.inner)), Then(Leave(thread, f.raised, f.ended), rest), native)
            == AskedAlone(a, limit, Lend(stack, f.ended - f.started), rest, native)
  {
  }

  function FreeForests(ts: seq<int>, forests: map<int, Forest>, key: Key, native: bool): Figures
    requires forall i :: 0 <= i < |ts| ==> ts[i] in forests && Timed(forests[ts[i]])
    decreases |ts|
  {
    if ts == [] then ZERO
    else Plus(FreeTally(forests[ts[0]], false, key, native), FreeForests(ts[1..], forests, key, native))
  }

  lemma {:induction false} FreeOfCaps(a: Admission, limit: nat, ts: seq<int>, forests: map<int, Forest>, key: Key,
                                      native: bool)
    requires forall i :: 0 <= i < |ts| ==> ts[i] in forests && Timed(forests[ts[i]]) && Height(forests[ts[i]]) <= limit
    requires forall i :: 0 <= i < |ts| ==> KeysAmong(forests[ts[i]], false, a.python, a.native)
    ensures ForestsTally(a, limit, ts, forests, OfFunction(key, native)) == FreeForests(ts, forests, key, native)
    ensures ForestsTally(a, limit, ts, forests, DroppedCalls) == ZERO
    decreases |ts|
  {
    if ts != [] {
      CapsUnreached(a, limit, 0, NoCaller, forests[ts[0]], key, native);
      FreeOfCaps(a, limit, ts[1..], forests, key, native);
    }
  }

  /** What is admitted when there is room for everyone who asks. */
  function EveryoneAsking(l: Limits, es: seq<Event>): Admission {
    var s := Run(l, INITIAL, es);
    Admission(KeySet(Asked(l, INITIAL, es, false)), KeySet(Asked(l, INITIAL, es, true)), s.edges.Keys, s.nativeEdges.Keys)
  }

  /** The function caps leave room for everyone who asks; the observer does not. */
  predicate Roomy(l: Limits, es: seq<Event>) {
    && |KeySet(Asked(l, INITIAL, es, false))| <= l.functions
    && |KeySet(Asked(l, INITIAL, es, true))| <= l.nativeFunctions
  }

  /** Then everyone who asks is let in. */
  lemma RoomForAll(l: Limits, es: seq<Event>)
    requires Roomy(l, es)
    ensures Settled(l, Run(l, INITIAL, es), EveryoneAsking(l, es))
  {
    var s := Run(l, INITIAL, es);
    TrackedAsked(l, es, false);
    TrackedAsked(l, es, true);
    SubsetSize(s.trackedPython, KeySet(Asked(l, INITIAL, es, false)));
    SubsetSize(s.trackedNative, KeySet(Asked(l, INITIAL, es, true)));
  }

  /**
   Below the caps, for every interleaving: each function's figures are the sums over the threads' call trees of the
   figures defined without any cap, plus its traced exceptions, and no call and no exception was dropped.
   */
  lemma BelowCaps(l: Limits, es: seq<Event>, ts: seq<int>, forests: map<int, Forest>, key: Key, native: bool)
    requires Interleaves(es, ts, forests)
    requires Roomy(l, es)
    requires forall t :: t in ts ==> Height(forests[t]) <= l.depth
    ensures forall i :: 0 <= i < |ts| ==> ts[i] in forests && Timed(forests[ts[i]])
    ensures var s := Run(l, INITIAL, es);
            var a := EveryoneAsking(l, es);
            && FiguresOf(if native then s.native else s.python, key)
               == Plus(FreeForests(ts, forests, key, native), TraceTally(a, es, OfFunction(key, native)))
            && s.droppedCalls == s.droppedExceptions == s.droppedEscapes == 0
  {
    var s := Run(l, INITIAL, es);
    var a := EveryoneAsking(l, es);
    RoomForAll(l, es);
    NoExceptionDropped(l, INITIAL, es, a);
    ForestAccounting(l, es, ts, forests, a, OfFunction(key, native));
    UncappedForests(l, es, ts, forests, a);
    FreeOfCaps(a, l.depth, ts, forests, key, native);
    NothingDropped(l, es, ts, forests, a);
  }

  lemma UncappedForests(l: Limits, es: seq<Event>, ts: seq<int>, forests: map<int, Forest>, a: Admission)
    requires Interleaves(es, ts, forests) && Settled(l, Run(l, INITIAL, es), a)
    requires forall i :: 0 <= i < |ts| ==> ts[i] in forests && Timed(forests[ts[i]]) && Height(forests[ts[i]]) <= l.depth
    requires KeySet(Asked(l, INITIAL, es, false)) <= a.python && KeySet(Asked(l, INITIAL, es, true)) <= a.native
    ensures forall i :: 0 <= i < |ts| ==> KeysAmong(forests[ts[i]], false, a.python, a.native)
  {
    forall i | 0 <= i < |ts|
      ensures KeysAmong(forests[ts[i]], false, a.python, a.native)
    {
      ThreadAsks(l, INITIAL, es, a, ts[i], false);
      ThreadAsks(l, INITIAL, es, a, ts[i], true);
      ForestAsks(a, l.depth, Bottom, ts[i], forests[ts[i]], End, a.python, a.native);
    }
  }

  lemma NothingDropped(l: Limits, es: seq<Event>, ts: seq<int>, forests: map<int, Forest>, a: Admission)
    requires Interleaves(es, ts, forests) && Settled(l, Run(l, INITIAL, es), a)
    requires forall t :: t in ts ==> Height(forests[t]) <= l.depth
    requires forall i :: 0 <= i < |ts| ==> ts[i] in forests && KeysAmong(forests[ts[i]], false, a.python, a.native)
    ensures Run(l, INITIAL, es).droppedCalls == 0
  {
    ForestAccounting(l, es, ts, forests, a, DroppedCalls);
    FreeOfCaps(a, l.depth, ts, forests, Key("", "", "", 0, ""), false);
    OnlyFunctionsTraced(a, es, DroppedCalls);
    assert Value(Run(l, INITIAL, es), DroppedCalls) == ZERO;
  }

  lemma StepDropsNoException(l: Limits, s: State, e: Event, a: Admission)
    requires Decides(l, s, e, a) && (e.Raise? && !e.observer ==> e.key in a.python)
    ensures Step(l, s, e).droppedExceptions == s.droppedExceptions && Step(l, s, e).droppedEscapes == s.droppedEscapes
  {
    match e
    case Enter(_, _, _, _, _) =>
      assert Step(l, s, e) == s.(stacks := Step(l, s, e).stacks, trackedPython := Step(l, s, e).trackedPython,
                                 trackedNative := Step(l, s, e).trackedNative);
    case Raise(_, _, _) =>
    case Leave(thread, raised, now) =>
      var stack := StackOf(s.stacks, thread);
      if stack != [] {
        var call := Completed(Top(stack), raised, now);
        var below := Credit(Rest(stack), call.total);
        FinishDropsNoException(l, s.(stacks := s.stacks[thread := below]), Top(stack), call, below);
      }
  }

  lemma FinishDropsNoException(l: Limits, s: State, frame: Frame, call: Figures, below: seq<Frame>)
    ensures Finish(l, s, frame, call, below).droppedExceptions == s.droppedExceptions
    ensures Finish(l, s, frame, call, below).droppedEscapes == s.droppedEscapes
  {
  }

  lemma {:induction false} NoExceptionDropped(l: Limits, s: State, es: seq<Event>, a: Admission)
    requires Settled(l, Run(l, s, es), a) && KeySet(Asked(l, s, es, false)) <= a.python
    ensures Run(l, s, es).droppedExceptions == s.droppedExceptions && Run(l, s, es).droppedEscapes == s.droppedEscapes
    decreases |es|
  {
    if es != [] {
      var s' := Step(l, s, es[0]);
      RunSettled(l, s', es[1..], a);
      StepSettled(l, s, es[0], a);
      var keys, rest := Asked(l, s, es, false), Asked(l, s', es[1..], false);
      assert KeySet(rest) <= KeySet(keys);
      assert Asks(s, es[0], false) ==> keys[0] == es[0].key;
      StepDropsNoException(l, s, es[0], a);
      NoExceptionDropped(l, s', es[1..], a);
    }
  }

  // ----- edges below the caps

  /** What a forest's first call is to the calls it makes when no cap is reached. */
  function FreeCaller(f: Forest, caller: Caller): Caller
    requires f.Call?
  {
    var hidden := InObserverOf(caller, f.observer);
    Caller(if hidden then Ignored else Tracked(f.key), f.native && !hidden)
  }

  predicate MakesEdge(f: Forest, caller: Caller, native: bool)
    requires f.Call?
  {
    && caller.Caller? && !InObserverOf(caller, f.observer) && caller.slot != Tracked(f.key)
    && native == (f.native || caller.native)
  }

  function EdgeOf(f: Forest, caller: Caller): EdgeKey
    requires f.Call? && caller.Caller?
  {
    EdgeKey(caller.slot, f.key)
  }

  /** The edges a forest's calls make, without any cap. */
  function EdgesIn(f: Forest, caller: Caller, native: bool): set<EdgeKey> {
    if f.Empty? then {}
    else
      (if MakesEdge(f, caller, native) then {EdgeOf(f, caller)} else {})
      + EdgesIn(f.inner, FreeCaller(f, caller), native) + EdgesIn(f.next, caller, native)
  }

  /** An edge's calls and time on a forest, without any cap. */
  function FreeEdge(f: Forest, caller: Caller, edge: EdgeKey, native: bool): Figures
    requires Timed(f)
  {
    if f.Empty? then ZERO
    else
      Plus(Plus(FirstEdge(f, caller, edge, native), FreeEdge(f.inner, FreeCaller(f, caller), edge, native)),
           FreeEdge(f.next, caller, edge, native))
  }

  function FirstEdge(f: Forest, caller: Caller, edge: EdgeKey, native: bool): Figures
    requires f.Call? && Timed(f)
  {
    if MakesEdge(f, caller, native) && EdgeOf(f, caller) == edge then Figures(1, f.ended - f.started, 0, 0, 0, 0) else ZERO
  }

  predicate EdgeAdmitted(a: Admission, edge: EdgeKey, native: bool) {
    edge in (if native then a.nativeEdges else a.edges)
  }

  lemma UncappedEdge(a: Admission, limit: nat, depth: nat, caller: Caller, f: Forest, edge: EdgeKey, native: bool)
    requires f.Call? && Timed(f) && depth < limit && HasRoom(a, caller, f)
    requires caller.Caller? ==> !caller.slot.Dropped?
    ensures var call := EndedCall(a, limit, depth, caller, f);
            && Caller(call.slot, call.native) == FreeCaller(f, caller)
            && Share(a, call, OfEdge(edge, native))
               == if EdgeAdmitted(a, edge, native) then FirstEdge(f, caller, edge, native) else ZERO
  {
  }

  lemma UncappedDrop(a: Admission, limit: nat, depth: nat, caller: Caller, f: Forest)
    requires f.Call? && Timed(f) && depth < limit && HasRoom(a, caller, f)
    requires caller.Caller? ==> !caller.slot.Dropped?
    requires forall native :: MakesEdge(f, caller, native) ==> EdgeAdmitted(a, EdgeOf(f, caller), native)
    ensures Share(a, EndedCall(a, limit, depth, caller, f), DroppedEdges) == ZERO
  {
    if caller.Caller? {
      assert MakesEdge(f, caller, f.native || caller.native) ==>
          EdgeAdmitted(a, EdgeOf(f, caller), f.native || caller.native);
    }
  }

  /** An admitted edge has all of its calls; one that was not admitted has none. */
  lemma {:induction false} EdgeUncapped(a: Admission, limit: nat, depth: nat, caller: Caller, f: Forest, edge: EdgeKey,
                                        native: bool)
    requires Timed(f) && KeysAmong(f, InObserverOf(caller, false), a.python, a.native) && depth + Height(f) <= limit
    requires caller.Caller? ==> !caller.slot.Dropped?
    ensures Tally(a, limit, depth, caller, f, OfEdge(edge, native))
         == if EdgeAdmitted(a, edge, native) then FreeEdge(f, caller, edge, native) else ZERO
    decreases f
  {
    if f.Call? {
      UncappedEdge(a, limit, depth, caller, f, edge, native);
      EdgeUncapped(a, limit, depth + 1, FreeCaller(f, caller), f.inner, edge, native);
      EdgeUncapped(a, limit, depth, caller, f.next, edge, native);
    }
  }

  lemma {:induction false} DropsUncapped(a: Admission, limit: nat, depth: nat, caller: Caller, f: Forest)
    requires Timed(f) && KeysAmong(f, InObserverOf(caller, false), a.python, a.native) && depth + Height(f) <= limit
    requires caller.Caller? ==> !caller.slot.Dropped?
    requires EdgesIn(f, caller, false) <= a.edges && EdgesIn(f, caller, true) <= a.nativeEdges
    ensures Tally(a, limit, depth, caller, f, DroppedEdges) == ZERO
    decreases f
  {
    if f.Call? {
      forall native | MakesEdge(f, caller, native)
        ensures EdgeAdmitted(a, EdgeOf(f, caller), native)
      {
        assert EdgeOf(f, caller) in EdgesIn(f, caller, native);
      }
      UncappedDrop(a, limit, depth, caller, f);
      UncappedEdge(a, limit, depth, caller, f, EdgeKey(Dropped, f.key), false);
      DropsUncapped(a, limit, depth + 1, FreeCaller(f, caller), f.inner);
      DropsUncapped(a, limit, depth, caller, f.next);
    }
  }

  /** An edge that has calls is one that the forest makes. */
  lemma {:induction false} EdgeIsMade(f: Forest, caller: Caller, edge: EdgeKey, native: bool)
    requires Timed(f) && edge !in EdgesIn(f, caller, native)
    ensures FreeEdge(f, caller, edge, native) == ZERO
    decreases f
  {
    if f.Call? {
      EdgeIsMade(f.inner, FreeCaller(f, caller), edge, native);
      EdgeIsMade(f.next, caller, edge, native);
    }
  }

  predicate AllTimed(ts: seq<int>, forests: map<int, Forest>) {
    forall i :: 0 <= i < |ts| ==> ts[i] in forests && Timed(forests[ts[i]])
  }

  function ForestEdges(ts: seq<int>, forests: map<int, Forest>, native: bool): set<EdgeKey>
    requires AllTimed(ts, forests)
  {
    if ts == [] then {} else EdgesIn(forests[ts[0]], NoCaller, native) + ForestEdges(ts[1..], forests, native)
  }

  function FreeForestEdge(ts: seq<int>, forests: map<int, Forest>, edge: EdgeKey, native: bool): Figures
    requires AllTimed(ts, forests)
  {
    if ts == [] then ZERO
    else Plus(FreeEdge(forests[ts[0]], NoCaller, edge, native), FreeForestEdge(ts[1..], forests, edge, native))
  }

  predicate Uncapped(a: Admission, limit: nat, ts: seq<int>, forests: map<int, Forest>)
    requires AllTimed(ts, forests)
  {
    forall i :: 0 <= i < |ts| ==>
      Height(forests[ts[i]]) <= limit && KeysAmong(forests[ts[i]], false, a.python, a.native)
  }

  lemma {:induction false} EdgesUncapped(a: Admission, limit: nat, ts: seq<int>, forests: map<int, Forest>, edge: EdgeKey,
                                         native: bool)
    requires AllTimed(ts, forests) && Uncapped(a, limit, ts, forests)
    ensures ForestsTally(a, limit, ts, forests, OfEdge(edge, native))
         == if EdgeAdmitted(a, edge, native) then FreeForestEdge(ts, forests, edge, native) else ZERO
    decreases |ts|
  {
    if ts != [] {
      EdgeUncapped(a, limit, 0, NoCaller, forests[ts[0]], edge, native);
      EdgesUncapped(a, limit, ts[1..], forests, edge, native);
    }
  }

  lemma {:induction false} NoEdgeDrops(a: Admission, limit: nat, ts: seq<int>, forests: map<int, Forest>)
    requires AllTimed(ts, forests) && Uncapped(a, limit, ts, forests)
    requires ForestEdges(ts, forests, false) <= a.edges && ForestEdges(ts, forests, true) <= a.nativeEdges
    ensures ForestsTally(a, limit, ts, forests, DroppedEdges) == ZERO
    decreases |ts|
  {
    if ts != [] {
      DropsUncapped(a, limit, 0, NoCaller, forests[ts[0]]);
      NoEdgeDrops(a, limit, ts[1..], forests);
    }
  }

  lemma {:induction false} EdgeIsMadeByOne(ts: seq<int>, forests: map<int, Forest>, edge: EdgeKey, native: bool)
    requires AllTimed(ts, forests) && edge !in ForestEdges(ts, forests, native)
    ensures FreeForestEdge(ts, forests, edge, native) == ZERO
  {
    if ts != [] {
      EdgeIsMade(forests[ts[0]], NoCaller, edge, native);
      EdgeIsMadeByOne(ts[1..], forests, edge, native);
    }
  }

  lemma {:induction false} OnlyFunctionsTraced(a: Admission, es: seq<Event>, sel: Selector)
    requires !sel.OfFunction?
    ensures TraceTally(a, es, sel) == ZERO
    decreases |es|
  {
    if es != [] {
      OnlyFunctionsTraced(a, es[1..], sel);
    }
  }

  /** Every edge in a table was called. */
  ghost predicate EdgesCalled(s: State) {
    && (forall edge :: edge in s.edges ==> s.edges[edge].calls > 0)
    && (forall edge :: edge in s.nativeEdges ==> s.nativeEdges[edge].calls > 0)
  }

  lemma CountEdgeCalled(l: Limits, s: State, edge: EdgeKey, elapsed: nat, native: bool)
    requires EdgesCalled(s)
    ensures EdgesCalled(CountEdge(l, s, edge, elapsed, native))
  {
  }

  lemma FinishCalled(l: Limits, s: State, frame: Frame, call: Figures, below: seq<Frame>)
    requires EdgesCalled(s)
    ensures EdgesCalled(Finish(l, s, frame, call, below))
  {
    if frame.slot.Tracked? && HasEdge(below, frame.slot.key) {
      CountEdgeCalled(l, CountCall(s, frame.slot.key, call, frame.native), EdgeKey(Top(below).slot, frame.slot.key),
                      call.total, frame.native || Top(below).native);
    }
  }

  lemma StepCalled(l: Limits, s: State, e: Event)
    requires EdgesCalled(s)
    ensures EdgesCalled(Step(l, s, e))
  {
    match e
    case Enter(_, _, _, _, _) =>
      assert Step(l, s, e).edges == s.edges && Step(l, s, e).nativeEdges == s.nativeEdges;
    case Raise(_, _, _) =>
      assert Step(l, s, e).edges == s.edges && Step(l, s, e).nativeEdges == s.nativeEdges;
    case Leave(thread, raised, now) =>
      var stack := StackOf(s.stacks, thread);
      if stack != [] {
        var call := Completed(Top(stack), raised, now);
        var below := Credit(Rest(stack), call.total);
        FinishCalled(l, s.(stacks := s.stacks[thread := below]), Top(stack), call, below);
      }
  }

  lemma {:induction false} RunCalled(l: Limits, s: State, es: seq<Event>)
    requires EdgesCalled(s)
    ensures EdgesCalled(Run(l, s, es))
    decreases |es|
  {
    if es != [] {
      StepCalled(l, s, es[0]);
      RunCalled(l, Step(l, s, es[0]), es[1..]);
    }
  }

  /** What is in an edge table was made by some call. */
  lemma TableEdgeIsMade(l: Limits, es: seq<Event>, ts: seq<int>, forests: map<int, Forest>, a: Admission, edge: EdgeKey,
                        native: bool)
    requires Interleaves(es, ts, forests) && AllTimed(ts, forests) && Uncapped(a, l.depth, ts, forests)
    requires Settled(l, Run(l, INITIAL, es), a)
    requires var s := Run(l, INITIAL, es); edge in (if native then s.nativeEdges else s.edges)
    ensures edge in ForestEdges(ts, forests, native)
  {
    RunCalled(l, INITIAL, es);
    ForestAccounting(l, es, ts, forests, a, OfEdge(edge, native));
    EdgesUncapped(a, l.depth, ts, forests, edge, native);
    OnlyFunctionsTraced(a, es, OfEdge(edge, native));
    assert Value(Run(l, INITIAL, es), OfEdge(edge, native)).calls > 0;
    if edge !in ForestEdges(ts, forests, native) {
      EdgeIsMadeByOne(ts, forests, edge, native);
      assert false;
    }
  }

  /** With room for the edges made as well as for the functions, everything that occurs can be admitted. */
  lemma RoomForEdges(l: Limits, es: seq<Event>, ts: seq<int>, forests: map<int, Forest>)
    requires Interleaves(es, ts, forests) && AllTimed(ts, forests)
    requires Roomy(l, es)
    requires forall t :: t in ts ==> Height(forests[t]) <= l.depth
    requires |ForestEdges(ts, forests, false)| <= l.edges && |ForestEdges(ts, forests, true)| <= l.nativeEdges
    ensures var a := EveryoneAsking(l, es).(edges := ForestEdges(ts, forests, false),
                                            nativeEdges := ForestEdges(ts, forests, true));
            Settled(l, Run(l, INITIAL, es), a) && Uncapped(a, l.depth, ts, forests)
  {
    var s := Run(l, INITIAL, es);
    var now := EveryoneAsking(l, es);
    RoomForAll(l, es);
    UncappedForests(l, es, ts, forests, now);
    forall edge, native | edge in (if native then s.nativeEdges else s.edges)
      ensures edge in ForestEdges(ts, forests, native)
    {
      TableEdgeIsMade(l, es, ts, forests, now, edge, native);
    }
    SubsetSize(s.edges.Keys, ForestEdges(ts, forests, false));
    SubsetSize(s.nativeEdges.Keys, ForestEdges(ts, forests, true));
  }

  /**
   With room for the edges, too, each edge's calls and time are the sums over the threads' call trees of those defined
   without any cap, and no edge was dropped.
   */
  lemma EdgesBelowCaps(l: Limits, es: seq<Event>, ts: seq<int>, forests: map<int, Forest>, edge: EdgeKey, native: bool)
    requires Interleaves(es, ts, forests) && AllTimed(ts, forests)
    requires Roomy(l, es)
    requires forall t :: t in ts ==> Height(forests[t]) <= l.depth
    requires |ForestEdges(ts, forests, false)| <= l.edges && |ForestEdges(ts, forests, true)| <= l.nativeEdges
    ensures var s := Run(l, INITIAL, es);
            var free := FreeForestEdge(ts, forests, edge, native);
            && EdgeFiguresOf(if native then s.nativeEdges else s.edges, edge) == EdgeFigures(free.calls, free.total)
            && s.droppedEdges == 0
  {
    var s := Run(l, INITIAL, es);
    var a := EveryoneAsking(l, es).(edges := ForestEdges(ts, forests, false), nativeEdges := ForestEdges(ts, forests, true));
    RoomForEdges(l, es, ts, forests);
    ForestAccounting(l, es, ts, forests, a, OfEdge(edge, native));
    EdgesUncapped(a, l.depth, ts, forests, edge, native);
    OnlyFunctionsTraced(a, es, OfEdge(edge, native));
    if !EdgeAdmitted(a, edge, native) {
      EdgeIsMadeByOne(ts, forests, edge, native);
    }
    assert Value(s, OfEdge(edge, native)) == FreeForestEdge(ts, forests, edge, native);
    ForestAccounting(l, es, ts, forests, a, DroppedEdges);
    NoEdgeDrops(a, l.depth, ts, forests);
    OnlyFunctionsTraced(a, es, DroppedEdges);
    assert Value(s, DroppedEdges) == ZERO;
  }
}
