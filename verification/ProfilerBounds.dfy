/**
 What every sequence of profiler events keeps, well nested or not: the tables stay within their caps, every call is
 accounted for exactly once, the observer never appears in an edge, and the figures agree with each other.

 Nothing is asked of the events. A thread may return from calls it never made, profiling may begin in the middle of a call
 and end in the middle of another, and the clock may run backwards. What holds of all such runs is what the report and the
 loader rely on, whereas the figures themselves are the subject of the accounting of call trees.
 */
module ProfilerBounds {
  import opened Sums
  import opened Profiler

  // ----- tables and stacks

  /** An entry at or past the depth cap is dropped; a tracked entry's function is in the table of tracked functions. */
  predicate EntryFits(l: Limits, s: State, frame: Frame, index: nat) {
    && (index >= l.depth ==> frame.slot.Dropped?)
    && (frame.slot.Tracked? ==> frame.slot.key in (if frame.native then s.trackedNative else s.trackedPython))
  }

  /** Whatever is called from inside the observer belongs to the observer, up to the depth cap. */
  predicate EntryAbove(l: Limits, below: Frame, frame: Frame, index: nat) {
    below.slot.Ignored? ==> frame.slot.Ignored? || index >= l.depth
  }

  ghost predicate StackFits(l: Limits, s: State, stack: seq<Frame>) {
    && (forall i :: 0 <= i < |stack| ==> EntryFits(l, s, stack[i], i))
    && (forall i :: 0 < i < |stack| ==> EntryAbove(l, stack[i - 1], stack[i], i))
  }

  ghost predicate StacksFit(l: Limits, s: State) {
    forall t :: t in s.stacks ==> StackFits(l, s, s.stacks[t])
  }

  /** An edge runs from one tracked function to another. */
  predicate EdgeFits(s: State, edge: EdgeKey) {
    && edge.source.Tracked? && edge.source != Tracked(edge.target)
    && (edge.source.key in s.trackedPython || edge.source.key in s.trackedNative)
    && (edge.target in s.python || edge.target in s.native)
  }

  ghost predicate TablesFit(l: Limits, s: State) {
    && |s.trackedPython| <= l.functions && |s.trackedNative| <= l.nativeFunctions
    && |s.edges| <= l.edges && |s.nativeEdges| <= l.nativeEdges
    && s.python.Keys <= s.trackedPython && s.native.Keys <= s.trackedNative
    && (forall e :: e in s.edges ==> EdgeFits(s, e))
    && (forall e :: e in s.nativeEdges ==> EdgeFits(s, e))
  }

  ghost predicate Fits(l: Limits, s: State) {
    TablesFit(l, s) && StacksFit(l, s)
  }

  lemma CreditFits(l: Limits, s: State, stack: seq<Frame>, n: nat)
    requires StackFits(l, s, stack)
    ensures StackFits(l, s, Credit(stack, n))
  {
    var credited := Credit(stack, n);
    forall i | 0 <= i < |credited|
      ensures EntryFits(l, s, credited[i], i)
    {
      assert EntryFits(l, s, stack[i], i);
    }
    forall i | 0 < i < |credited|
      ensures EntryAbove(l, credited[i - 1], credited[i], i)
    {
      assert EntryAbove(l, stack[i - 1], stack[i], i);
    }
  }

  lemma RestFits(l: Limits, s: State, stack: seq<Frame>)
    requires StackFits(l, s, stack) && stack != []
    ensures StackFits(l, s, Rest(stack))
  {
    var rest := Rest(stack);
    assert forall i :: 0 <= i < |rest| ==> rest[i] == stack[i];
  }

  lemma GrownFits(l: Limits, s: State, s': State, stack: seq<Frame>)
    requires StackFits(l, s, stack)
    requires s.trackedPython <= s'.trackedPython && s.trackedNative <= s'.trackedNative
    ensures StackFits(l, s', stack)
  {
    forall i | 0 <= i < |stack|
      ensures EntryFits(l, s', stack[i], i)
    {
      assert EntryFits(l, s, stack[i], i);
    }
  }

  lemma PushedFits(l: Limits, s: State, e: Event)
    requires e.Enter? && Fits(l, s)
    ensures StackFits(l, Push(l, s, e), Push(l, s, e).stacks[e.thread])
  {
    var s' := Push(l, s, e);
    var stack := StackOf(s.stacks, e.thread);
    GrownFits(l, s, s', stack);
    var pushed := s'.stacks[e.thread];
    assert |pushed| == |stack| + 1 && pushed[..|stack|] == stack;
    assert EntryFits(l, s', pushed[|stack|], |stack|);
    forall i | 0 <= i < |pushed|
      ensures EntryFits(l, s', pushed[i], i)
      ensures i > 0 ==> EntryAbove(l, pushed[i - 1], pushed[i], i)
    {
      if i < |stack| {
        assert pushed[i] == stack[i] && EntryFits(l, s', stack[i], i);
      }
      if 0 < i < |stack| {
        assert pushed[i - 1] == stack[i - 1] && EntryAbove(l, stack[i - 1], stack[i], i);
      }
    }
  }

  lemma PushFits(l: Limits, s: State, e: Event)
    requires e.Enter? && Fits(l, s)
    ensures Fits(l, Push(l, s, e))
  {
    var s' := Push(l, s, e);
    PushedFits(l, s, e);
    forall t | t in s'.stacks
      ensures StackFits(l, s', s'.stacks[t])
    {
      if t != e.thread {
        GrownFits(l, s, s', s.stacks[t]);
      }
    }
    forall x | x in s'.edges || x in s'.nativeEdges
      ensures EdgeFits(s', x)
    {
      assert EdgeFits(s, x);
    }
  }

  /** The call under a tracked call is never the observer. */
  lemma CallerIsNotObserver(l: Limits, s: State, stack: seq<Frame>)
    requires StackFits(l, s, stack) && |stack| >= 2 && Top(stack).slot.Tracked?
    ensures !Top(Rest(stack)).slot.Ignored?
  {
    var i := |stack| - 1;
    assert EntryAbove(l, stack[i - 1], stack[i], i);
    assert EntryFits(l, s, stack[i], i);
  }

  lemma CountEdgeFits(l: Limits, s: State, edge: EdgeKey, elapsed: nat, native: bool)
    requires TablesFit(l, s) && EdgeFits(s, edge)
    ensures TablesFit(l, CountEdge(l, s, edge, elapsed, native))
  {
    var s' := CountEdge(l, s, edge, elapsed, native);
    var table := if native then s.nativeEdges else s.edges;
    assert |table.Keys| == |table|;
    var table' := WithEdge(table, edge, elapsed);
    assert |table'| <= |table| + (if edge in table then 0 else 1);
    forall x | x in s'.edges || x in s'.nativeEdges
      ensures EdgeFits(s', x)
    {
      assert x == edge || EdgeFits(s, x);
    }
  }

  lemma CountCallFits(l: Limits, s: State, key: Key, call: Figures, native: bool)
    requires TablesFit(l, s) && key in (if native then s.trackedNative else s.trackedPython)
    ensures TablesFit(l, CountCall(s, key, call, native))
  {
    var s' := CountCall(s, key, call, native);
    forall x | x in s'.edges || x in s'.nativeEdges
      ensures EdgeFits(s', x)
    {
      assert EdgeFits(s, x);
    }
  }

  lemma PopFits(l: Limits, s: State, e: Event)
    requires e.Leave? && Fits(l, s)
    ensures Fits(l, Pop(l, s, e))
  {
    var s' := Pop(l, s, e);
    var stack := StackOf(s.stacks, e.thread);
    if stack != [] {
      var frame := Top(stack);
      var call := Completed(frame, e.raised, e.now);
      var below := Credit(Rest(stack), call.total);
      RestFits(l, s, stack);
      CreditFits(l, s, Rest(stack), call.total);
      var popped := s.(stacks := s.stacks[e.thread := below]);
      TablesSame(l, s, popped);
      if frame.slot.Tracked? {
        FinishFits(l, s, popped, stack, call);
      } else {
        TablesSame(l, s, s');
      }
      forall t | t in s'.stacks
        ensures StackFits(l, s', s'.stacks[t])
      {
        GrownFits(l, s, s', if t == e.thread then below else s.stacks[t]);
      }
    } else {
      TablesSame(l, s, s');
      forall t | t in s'.stacks
        ensures StackFits(l, s', s'.stacks[t])
      {
        if t in s.stacks {
          GrownFits(l, s, s', s.stacks[t]);
        }
      }
    }
  }

  lemma TablesSame(l: Limits, s: State, s': State)
    requires TablesFit(l, s)
    requires s'.python == s.python && s'.native == s.native && s'.edges == s.edges && s'.nativeEdges == s.nativeEdges
    requires s'.trackedPython == s.trackedPython && s'.trackedNative == s.trackedNative
    ensures TablesFit(l, s')
  {
    forall x | x in s'.edges || x in s'.nativeEdges
      ensures EdgeFits(s', x)
    {
      assert EdgeFits(s, x);
    }
  }

  lemma FinishFits(l: Limits, s: State, popped: State, stack: seq<Frame>, call: Figures)
    requires stack != [] && Top(stack).slot.Tracked? && StackFits(l, s, stack)
    requires TablesFit(l, popped)
    requires popped.trackedPython == s.trackedPython && popped.trackedNative == s.trackedNative
    ensures TablesFit(l, Finish(l, popped, Top(stack), call, Credit(Rest(stack), call.total)))
  {
    var frame := Top(stack);
    var below := Credit(Rest(stack), call.total);
    var key := frame.slot.key;
    assert EntryFits(l, s, stack[|stack| - 1], |stack| - 1);
    var counted := CountCall(popped, key, call, frame.native);
    CountCallFits(l, popped, key, call, frame.native);
    if HasEdge(below, key) {
      CallerIsNotObserver(l, s, stack);
      assert EntryFits(l, s, stack[|stack| - 2], |stack| - 2);
      assert Top(below).slot == stack[|stack| - 2].slot;
      CountEdgeFits(l, counted, EdgeKey(Top(below).slot, key), call.total, frame.native || Top(below).native);
    }
  }

  lemma TraceFits(l: Limits, s: State, e: Event)
    requires e.Raise? && Fits(l, s)
    ensures Fits(l, TraceException(l, s, e))
  {
    var s' := TraceException(l, s, e);
    if s' != s {
      assert s.trackedPython <= s'.trackedPython && s'.trackedNative == s.trackedNative;
      forall t | t in s'.stacks
        ensures StackFits(l, s', s'.stacks[t])
      {
        GrownFits(l, s, s', s.stacks[t]);
      }
      TraceTables(l, s, e);
    }
  }

  lemma TakenFits<T>(limit: nat, table: set<T>, item: T)
    requires |table| <= limit && Takes(limit, table, item)
    ensures |table + {item}| <= limit
  {
    if item in table {
      assert table + {item} == table;
    }
  }

  lemma TraceTables(l: Limits, s: State, e: Event)
    requires e.Raise? && TablesFit(l, s)
    ensures TablesFit(l, TraceException(l, s, e))
  {
    var s' := TraceException(l, s, e);
    if Takes(l.functions, s.trackedPython, e.key) {
      TakenFits(l.functions, s.trackedPython, e.key);
    }
    forall x | x in s'.edges || x in s'.nativeEdges
      ensures EdgeFits(s', x)
    {
      assert EdgeFits(s, x);
    }
  }

  /**
   For any event sequence: every table stays within its cap, entries past the depth cap are dropped ones, and every
   edge joins two tracked functions, so the observer is never one of them.
   */
  lemma {:induction false} RunFits(l: Limits, s: State, es: seq<Event>)
    requires Fits(l, s)
    ensures Fits(l, Run(l, s, es))
    decreases |es|
  {
    if es != [] {
      match es[0] {
        case Enter(_, _, _, _, _) => PushFits(l, s, es[0]);
        case Leave(_, _, _) => PopFits(l, s, es[0]);
        case Raise(_, _, _) => TraceFits(l, s, es[0]);
      }
      RunFits(l, Step(l, s, es[0]), es[1..]);
    }
  }

  lemma InitialFits(l: Limits)
    ensures Fits(l, INITIAL)
  {
  }

  // ----- every call is accounted for exactly once

  ghost function Calls(table: map<Key, Figures>): int {
    MapSum(map k | k in table :: table[k].calls)
  }

  ghost function OpenCalls(stacks: map<int, seq<Frame>>): int {
    MapSum(map t | t in stacks :: |stacks[t]|)
  }

  /** Calls recorded, dropped, or still open. */
  ghost function Accounted(s: State): int {
    Calls(s.python) + Calls(s.native) + s.droppedCalls + OpenCalls(s.stacks)
  }

  lemma CallsUpdate(table: map<Key, Figures>, key: Key, figures: Figures)
    ensures Calls(table[key := figures]) == Calls(table) + figures.calls - FiguresOf(table, key).calls
  {
    var calls := map k | k in table :: table[k].calls;
    MapSumUpdate(calls, key, figures.calls);
    var table' := table[key := figures];
    assert (map k | k in table' :: table'[k].calls) == calls[key := figures.calls];
  }

  lemma OpenCallsUpdate(stacks: map<int, seq<Frame>>, thread: int, stack: seq<Frame>)
    ensures OpenCalls(stacks[thread := stack]) == OpenCalls(stacks) + |stack| - |StackOf(stacks, thread)|
  {
    var open := map t | t in stacks :: |stacks[t]|;
    MapSumUpdate(open, thread, |stack|);
    var stacks' := stacks[thread := stack];
    assert (map t | t in stacks' :: |stacks'[t]|) == open[thread := |stack|];
  }

  function IsCall(e: Event): nat {
    if e.Enter? then 1 else 0
  }

  /** Whether the event takes a frame of the observer off its stack. */
  function LeavesObserver(s: State, e: Event): nat {
    if e.Leave? && StackOf(s.stacks, e.thread) != [] && Top(StackOf(s.stacks, e.thread)).slot.Ignored? then 1 else 0
  }

  lemma CountCallAccounts(s: State, key: Key, call: Figures, native: bool)
    requires call.calls == 1
    ensures Accounted(CountCall(s, key, call, native)) == Accounted(s) + 1
  {
    var table := if native then s.native else s.python;
    CallsUpdate(table, key, Plus(FiguresOf(table, key), call));
  }

  lemma FinishAccounts(l: Limits, s: State, frame: Frame, call: Figures, below: seq<Frame>)
    requires call.calls == 1
    ensures Accounted(Finish(l, s, frame, call, below)) == Accounted(s) + if frame.slot.Ignored? then 0 else 1
  {
    if frame.slot.Tracked? {
      CountCallAccounts(s, frame.slot.key, call, frame.native);
    }
  }

  lemma PopAccounts(l: Limits, s: State, e: Event)
    requires e.Leave?
    ensures Accounted(Pop(l, s, e)) + LeavesObserver(s, e) == Accounted(s)
  {
    var stack := StackOf(s.stacks, e.thread);
    if stack == [] {
      OpenCallsUpdate(s.stacks, e.thread, []);
    } else {
      var call := Completed(Top(stack), e.raised, e.now);
      var below := Credit(Rest(stack), call.total);
      OpenCallsUpdate(s.stacks, e.thread, below);
      FinishAccounts(l, s.(stacks := s.stacks[e.thread := below]), Top(stack), call, below);
    }
  }

  lemma PushAccounts(l: Limits, s: State, e: Event)
    requires e.Enter?
    ensures Accounted(Push(l, s, e)) == Accounted(s) + 1
  {
    var s' := Push(l, s, e);
    OpenCallsUpdate(s.stacks, e.thread, s'.stacks[e.thread]);
    assert s'.stacks == s.stacks[e.thread := s'.stacks[e.thread]];
  }

  lemma TraceAccounts(l: Limits, s: State, e: Event)
    requires e.Raise?
    ensures Accounted(TraceException(l, s, e)) == Accounted(s)
  {
    var s' := TraceException(l, s, e);
    assert s' == s.(python := s'.python, trackedPython := s'.trackedPython,
                    droppedExceptions := s'.droppedExceptions, droppedEscapes := s'.droppedEscapes);
    if s'.python != s.python {
      CallsUpdate(s.python, e.key, s'.python[e.key]);
    }
  }

  lemma StepAccounts(l: Limits, s: State, e: Event)
    ensures Accounted(Step(l, s, e)) + LeavesObserver(s, e) == Accounted(s) + IsCall(e)
  {
    match e
    case Enter(_, _, _, _, _) => PushAccounts(l, s, e);
    case Leave(_, _, _) => PopAccounts(l, s, e);
    case Raise(_, _, _) => TraceAccounts(l, s, e);
  }

  function CallEvents(es: seq<Event>): nat
    decreases |es|
  {
    if es == [] then 0 else IsCall(es[0]) + CallEvents(es[1..])
  }

  /** Frames of the observer taken off during a run; the profiler itself does not count them. */
  function ObserverReturns(l: Limits, s: State, es: seq<Event>): nat
    decreases |es|
  {
    if es == [] then 0 else LeavesObserver(s, es[0]) + ObserverReturns(l, Step(l, s, es[0]), es[1..])
  }

  /**
   For any event sequence: the calls made are the calls recorded, plus the dropped ones, plus the frames of the observer
   that returned, plus the frames still open.
   */
  lemma {:induction false} RunAccounts(l: Limits, s: State, es: seq<Event>)
    ensures Accounted(Run(l, s, es)) + ObserverReturns(l, s, es) == Accounted(s) + CallEvents(es)
    decreases |es|
  {
    if es != [] {
      StepAccounts(l, s, es[0]);
      RunAccounts(l, Step(l, s, es[0]), es[1..]);
    }
  }
}
