/**
 The deep profiler's stack machine (src/runtime_tools/_deep_profile_bootstrap.py).

 Call and return events of interleaved threads drive one stack per thread. Completed calls are added to
 bounded tables of per-function figures and of caller/callee edges. `Step` is the effect of one event on
 the whole state; class `DeepProfiler` performs it by updating its tables in place.
 */
module Profiler {

  /** The identity of a function: module, qualified name, file, first line, scope. */
  datatype Key = Key(moduleName: string, qualname: string, filename: string, line: nat, scope: string)

  const NATIVE_FILENAME := "<native>"

  /** What a stack entry stands for: a dropped call, a frame of the observer itself, or a tracked function. */
  datatype Slot = Dropped | Ignored | Tracked(key: Key)

  datatype Frame = Frame(slot: Slot, started: int, child: nat, native: bool)

  /** Calls, total time, self time, longest call, exceptions, exceptions other than iterator control flow. */
  datatype Figures = Figures(calls: nat, total: nat, self: nat, max: nat, exceptions: nat, escapes: nat)

  const ZERO := Figures(0, 0, 0, 0, 0, 0)

  datatype EdgeKey = EdgeKey(source: Slot, target: Key)

  datatype EdgeFigures = EdgeFigures(calls: nat, total: nat)

  datatype Limits = Limits(functions: nat, nativeFunctions: nat, edges: nat, nativeEdges: nat, depth: nat)

  /**
   `Enter` is a "call" or, when native, a "c_call"; `Leave` is a "return", "c_return" or, when raised,
   "c_exception"; `Raise` is the trace function's "exception". `observer` tells whether the event's frame
   belongs to the semantic observer.
   */
  datatype Event =
    | Enter(thread: int, key: Key, native: bool, observer: bool, now: int)
    | Leave(thread: int, raised: bool, now: int)
    | Raise(key: Key, observer: bool, controlFlow: bool)

  datatype State = State(
    stacks: map<int, seq<Frame>>,
    python: map<Key, Figures>,
    native: map<Key, Figures>,
    edges: map<EdgeKey, EdgeFigures>,
    nativeEdges: map<EdgeKey, EdgeFigures>,
    trackedPython: set<Key>,
    trackedNative: set<Key>,
    droppedCalls: nat,
    droppedEdges: nat,
    droppedExceptions: nat,
    droppedEscapes: nat)

  const INITIAL := State(map[], map[], map[], map[], map[], {}, {}, 0, 0, 0, 0)

  function Max(a: nat, b: nat): nat {
    if a >= b then a else b
  }

  /** Figures of two disjoint groups of calls taken together. */
  function Plus(a: Figures, b: Figures): Figures {
    if b == ZERO then a
    else if a == ZERO then b
    else
      Figures(a.calls + b.calls, a.total + b.total, a.self + b.self, Max(a.max, b.max),
              a.exceptions + b.exceptions, a.escapes + b.escapes)
  }

  function StackOf(stacks: map<int, seq<Frame>>, thread: int): seq<Frame> {
    if thread in stacks then stacks[thread] else []
  }

  function Top(stack: seq<Frame>): Frame
    requires stack != []
  {
    stack[|stack| - 1]
  }

  function Rest(stack: seq<Frame>): seq<Frame>
    requires stack != []
  {
    stack[..|stack| - 1]
  }

  /** Credits time spent in a callee to the innermost open call. */
  function Credit(stack: seq<Frame>, elapsed: nat): seq<Frame> {
    if stack == [] then []
    else Rest(stack) + [Top(stack).(child := Top(stack).child + elapsed)]
  }

  function Elapsed(frame: Frame, now: int): nat {
    if now > frame.started then now - frame.started else 0
  }

  /** The figures one completed call contributes, with the clamp of the source on its self time. */
  function Completed(frame: Frame, raised: bool, now: int): Figures {
    var elapsed := Elapsed(frame, now);
    Figures(1, elapsed, if elapsed > frame.child then elapsed - frame.child else 0, elapsed,
            if raised then 1 else 0, 0)
  }

  function WithException(figures: Figures, controlFlow: bool): Figures {
    figures.(exceptions := figures.exceptions + 1,
             escapes := figures.escapes + (if controlFlow then 0 else 1))
  }

  function FiguresOf(table: map<Key, Figures>, key: Key): Figures {
    if key in table then table[key] else ZERO
  }

  function EdgeFiguresOf(table: map<EdgeKey, EdgeFigures>, key: EdgeKey): EdgeFigures {
    if key in table then table[key] else EdgeFigures(0, 0)
  }

  /** Whether a call made now belongs to the observer: its own frame does, or the innermost open call does. */
  predicate InObserver(stack: seq<Frame>, observer: bool) {
    observer || (stack != [] && Top(stack).slot.Ignored?)
  }

  /** Whether a bounded table takes an item: it holds it already or has room for one more. */
  predicate Takes<T>(limit: nat, table: set<T>, item: T) {
    item in table || |table| < limit
  }

  function Push(l: Limits, s: State, e: Event): State
    requires e.Enter?
  {
    var stack := StackOf(s.stacks, e.thread);
    var ignored := InObserver(stack, e.observer);
    var known := if e.native then s.trackedNative else s.trackedPython;
    var limit := if e.native then l.nativeFunctions else l.functions;
    var admitted := !ignored && Takes(limit, known, e.key);
    var slot :=
      if |stack| >= l.depth then Dropped
      else if ignored then Ignored
      else if admitted then Tracked(e.key)
      else Dropped;
    s.(stacks := s.stacks[e.thread := stack + [Frame(slot, e.now, 0, e.native && !ignored)]],
       trackedPython := if admitted && !e.native then s.trackedPython + {e.key} else s.trackedPython,
       trackedNative := if admitted && e.native then s.trackedNative + {e.key} else s.trackedNative)
  }

  function CountCall(s: State, key: Key, call: Figures, native: bool): (s': State)
    ensures s' == s.(python := s'.python, native := s'.native)
  {
    if native then s.(native := s.native[key := Plus(FiguresOf(s.native, key), call)])
    else s.(python := s.python[key := Plus(FiguresOf(s.python, key), call)])
  }

  function WithEdge(table: map<EdgeKey, EdgeFigures>, edge: EdgeKey, elapsed: nat): map<EdgeKey, EdgeFigures> {
    var figures := EdgeFiguresOf(table, edge);
    table[edge := EdgeFigures(figures.calls + 1, figures.total + elapsed)]
  }

  function CountEdge(l: Limits, s: State, edge: EdgeKey, elapsed: nat, native: bool): (s': State)
    ensures s' == s.(edges := s'.edges, nativeEdges := s'.nativeEdges, droppedEdges := s'.droppedEdges)
  {
    var table := if native then s.nativeEdges else s.edges;
    var limit := if native then l.nativeEdges else l.edges;
    if !Takes(limit, table.Keys, edge) then s.(droppedEdges := s.droppedEdges + 1)
    else if native then s.(nativeEdges := WithEdge(table, edge, elapsed))
    else s.(edges := WithEdge(table, edge, elapsed))
  }

  /** Whether the call that just ended is counted as an edge from the call below it. */
  predicate HasEdge(below: seq<Frame>, key: Key) {
    below != [] && !Top(below).slot.Dropped? && Top(below).slot != Tracked(key)
  }

  /** What an ended call adds to the tables, once its frame is off the stack `below`. */
  function Finish(l: Limits, s: State, frame: Frame, call: Figures, below: seq<Frame>): (s': State)
    ensures s'.stacks == s.stacks && s'.trackedPython == s.trackedPython && s'.trackedNative == s.trackedNative
  {
    match frame.slot
    case Ignored => s
    case Dropped => s.(droppedCalls := s.droppedCalls + 1)
    case Tracked(key) =>
      var counted := CountCall(s, key, call, frame.native);
      if HasEdge(below, key) then
        CountEdge(l, counted, EdgeKey(Top(below).slot, key), call.total, frame.native || Top(below).native)
      else counted
  }

  function Pop(l: Limits, s: State, e: Event): State
    requires e.Leave?
  {
    var stack := StackOf(s.stacks, e.thread);
    if stack == [] then s.(stacks := s.stacks[e.thread := []])
    else
      var call := Completed(Top(stack), e.raised, e.now);
      var below := Credit(Rest(stack), call.total);
      Finish(l, s.(stacks := s.stacks[e.thread := below]), Top(stack), call, below)
  }

  function TraceException(l: Limits, s: State, e: Event): State
    requires e.Raise?
  {
    if e.observer then s
    else if !Takes(l.functions, s.trackedPython, e.key) then
      s.(droppedExceptions := s.droppedExceptions + 1,
         droppedEscapes := s.droppedEscapes + (if e.controlFlow then 0 else 1))
    else
      s.(trackedPython := s.trackedPython + {e.key},
         python := s.python[e.key := WithException(FiguresOf(s.python, e.key), e.controlFlow)])
  }

  function Step(l: Limits, s: State, e: Event): State {
    match e
    case Enter(_, _, _, _, _) => Push(l, s, e)
    case Leave(_, _, _) => Pop(l, s, e)
    case Raise(_, _, _) => TraceException(l, s, e)
  }

  function Run(l: Limits, s: State, es: seq<Event>): State
    decreases |es|
  {
    if es == [] then s else Run(l, Step(l, s, es[0]), es[1..])
  }

  /** The module-level tables of the bootstrap, updated in place by its profile and trace functions. */
  class DeepProfiler {
    const limits: Limits
    var stacks: map<int, seq<Frame>>
    var python: map<Key, Figures>
    var native: map<Key, Figures>
    var edges: map<EdgeKey, EdgeFigures>
    var nativeEdges: map<EdgeKey, EdgeFigures>
    var trackedPython: set<Key>
    var trackedNative: set<Key>
    var droppedCalls: nat
    var droppedEdges: nat
    var droppedExceptions: nat
    var droppedEscapes: nat

    ghost function Contents(): State
      reads this
    {
      State(stacks, python, native, edges, nativeEdges, trackedPython, trackedNative,
            droppedCalls, droppedEdges, droppedExceptions, droppedEscapes)
    }

    constructor (limits: Limits)
      ensures this.limits == limits && Contents() == INITIAL
    {
      this.limits := limits;
      stacks, python, native, edges, nativeEdges := map[], map[], map[], map[], map[];
      trackedPython, trackedNative := {}, {};
      droppedCalls, droppedEdges, droppedExceptions, droppedEscapes := 0, 0, 0, 0;
    }

    /** The profile function on a call event. */
    method ProfileCall(thread: int, key: Key, isNative: bool, observer: bool, now: int)
      modifies this
      ensures Contents() == Step(limits, old(Contents()), Enter(thread, key, isNative, observer, now))
    {
      var stack := StackOf(stacks, thread);
      var slot := Dropped;
      var frameNative := isNative;
      if observer || (stack != [] && Top(stack).slot.Ignored?) {
        slot := Ignored;
        frameNative := false;
      } else if isNative {
        if key in trackedNative || |trackedNative| < limits.nativeFunctions {
          trackedNative := trackedNative + {key};
          slot := Tracked(key);
        }
      } else if key in trackedPython || |trackedPython| < limits.functions {
        trackedPython := trackedPython + {key};
        slot := Tracked(key);
      }
      if |stack| >= limits.depth {
        slot := Dropped;
      }
      stacks := stacks[thread := stack + [Frame(slot, now, 0, frameNative)]];
    }

    /** The profile function on a return event. */
    method ProfileReturn(thread: int, raised: bool, now: int)
      modifies this
      ensures Contents() == Step(limits, old(Contents()), Leave(thread, raised, now))
    {
      var stack := StackOf(stacks, thread);
      if stack == [] {
        stacks := stacks[thread := []];
        return;
      }
      var frame := stack[|stack| - 1];
      stack := stack[..|stack| - 1];
      var elapsed: nat := if now > frame.started then now - frame.started else 0;
      if stack != [] {
        var parent := stack[|stack| - 1];
        stack := stack[..|stack| - 1] + [parent.(child := parent.child + elapsed)];
      }
      stacks := stacks[thread := stack];
      assert stack == Credit(Rest(StackOf(old(stacks), thread)), elapsed);
      FinishCall(frame, elapsed, raised, now, stack);
    }

    /** The part of a return event that follows the pop. */
    method FinishCall(frame: Frame, elapsed: nat, raised: bool, ghost now: int, stack: seq<Frame>)
      requires elapsed == Elapsed(frame, now)
      modifies this`python, this`native, this`edges, this`nativeEdges, this`droppedCalls, this`droppedEdges
      ensures Contents() == Finish(limits, old(Contents()), frame, Completed(frame, raised, now), stack)
    {
      if frame.slot.Ignored? {
        return;
      }
      if frame.slot.Dropped? {
        droppedCalls := droppedCalls + 1;
        return;
      }
      var key := frame.slot.key;
      RecordCall(key, frame, elapsed, raised, now);
      if stack == [] || Top(stack).slot.Dropped? || Top(stack).slot == Tracked(key) {
        return;
      }
      RecordEdge(EdgeKey(Top(stack).slot, key), elapsed, frame.native || Top(stack).native);
    }

    /** The part of a return event that adds the ended call to its function's figures, one figure after the other. */
    method RecordCall(key: Key, frame: Frame, elapsed: nat, raised: bool, ghost now: int)
      requires elapsed == Elapsed(frame, now)
      modifies this`python, this`native
      ensures Contents() == CountCall(old(Contents()), key, Completed(frame, raised, now), frame.native)
    {
      var aggregate := FiguresOf(if frame.native then native else python, key);
      aggregate := aggregate.(calls := aggregate.calls + 1);
      aggregate := aggregate.(total := aggregate.total + elapsed);
      if elapsed > frame.child {
        aggregate := aggregate.(self := aggregate.self + (elapsed - frame.child));
      }
      if elapsed > aggregate.max {
        aggregate := aggregate.(max := elapsed);
      }
      if raised {
        aggregate := aggregate.(exceptions := aggregate.exceptions + 1);
      }
      if frame.native {
        native := native[key := aggregate];
      } else {
        python := python[key := aggregate];
      }
    }

    /** The part of a return event that counts the caller/callee edge. */
    method RecordEdge(edge: EdgeKey, elapsed: nat, isNative: bool)
      modifies this`edges, this`nativeEdges, this`droppedEdges
      ensures Contents() == CountEdge(limits, old(Contents()), edge, elapsed, isNative)
    {
      var table := if isNative then nativeEdges else edges;
      var limit := if isNative then limits.nativeEdges else limits.edges;
      if edge !in table && |table| >= limit {
        droppedEdges := droppedEdges + 1;
        return;
      }
      table := WithEdge(table, edge, elapsed);
      if isNative {
        nativeEdges := table;
      } else {
        edges := table;
      }
    }

    /** The trace function on an exception event. */
    method Trace(key: Key, observer: bool, controlFlow: bool)
      modifies this
      ensures Contents() == Step(limits, old(Contents()), Raise(key, observer, controlFlow))
    {
      if observer {
        return;
      }
      if key !in trackedPython {
        if |trackedPython| >= limits.functions {
          droppedExceptions := droppedExceptions + 1;
          if !controlFlow {
            droppedEscapes := droppedEscapes + 1;
          }
          return;
        }
        trackedPython := trackedPython + {key};
      }
      assert trackedPython == old(trackedPython) + {key};
      var figures := FiguresOf(python, key);
      figures := figures.(exceptions := figures.exceptions + 1);
      if !controlFlow {
        figures := figures.(escapes := figures.escapes + 1);
      }
      python := python[key := figures];
    }
  }
}
