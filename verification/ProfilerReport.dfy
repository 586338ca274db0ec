/**
 The profiler's report and the loader that re-checks it (src/runtime_tools/deep_profile/_aggregation.py).

 Every report built from a reachable state passes the loader's checks, as long as no Python source file is called
 `<native>`; and the edges into a function never claim more calls or time than the function itself has.
 */
module ProfilerReport {
  import opened Integers
  import opened Profiler
  import opened ProfilerBounds
  import opened Results
  import opened Sums

  // ----- the figures of a reachable state agree with each other

  predicate FiguresAgree(f: Figures) {
    f.self <= f.total && f.max <= f.total && f.escapes <= f.exceptions
  }

  predicate NativeFiguresAgree(f: Figures) {
    FiguresAgree(f) && f.exceptions <= f.calls && f.escapes == 0
  }

  ghost predicate Agrees(s: State) {
    && (forall k :: k in s.python ==> FiguresAgree(s.python[k]))
    && (forall k :: k in s.native ==> NativeFiguresAgree(s.native[k]))
  }

  lemma CountCallAgrees(s: State, key: Key, frame: Frame, raised: bool, now: int, native: bool)
    requires Agrees(s)
    ensures Agrees(CountCall(s, key, Completed(frame, raised, now), native))
  {
  }

  lemma StepAgrees(l: Limits, s: State, e: Event)
    requires Agrees(s)
    ensures Agrees(Step(l, s, e))
  {
    if e.Leave? {
      PopAgrees(l, s, e);
    }
  }

  lemma PopAgrees(l: Limits, s: State, e: Event)
    requires e.Leave? && Agrees(s)
    ensures Agrees(Pop(l, s, e))
  {
    var stack := StackOf(s.stacks, e.thread);
    if stack != [] && Top(stack).slot.Tracked? {
      var call := Completed(Top(stack), e.raised, e.now);
      var popped := s.(stacks := s.stacks[e.thread := Credit(Rest(stack), call.total)]);
      CountCallAgrees(popped, Top(stack).slot.key, Top(stack), e.raised, e.now, Top(stack).native);
    }
  }

  lemma {:induction false} RunAgrees(l: Limits, s: State, es: seq<Event>)
    requires Agrees(s)
    ensures Agrees(Run(l, s, es))
    decreases |es|
  {
    if es != [] {
      StepAgrees(l, s, es[0]);
      RunAgrees(l, Step(l, s, es[0]), es[1..]);
    }
  }

  // ----- the edges into a function

  ghost function CallsInto(table: map<EdgeKey, EdgeFigures>, target: Key): int {
    MapSum(map e | e in table && e.target == target :: table[e].calls)
  }

  ghost function TimeInto(table: map<EdgeKey, EdgeFigures>, target: Key): int {
    MapSum(map e | e in table && e.target == target :: table[e].total)
  }

  lemma WithEdgeCalls(table: map<EdgeKey, EdgeFigures>, edge: EdgeKey, elapsed: nat, target: Key)
    ensures CallsInto(WithEdge(table, edge, elapsed), target)
         == CallsInto(table, target) + if edge.target == target then 1 else 0
  {
    var table' := WithEdge(table, edge, elapsed);
    var calls := map e | e in table && e.target == target :: table[e].calls;
    var calls' := map e | e in table' && e.target == target :: table'[e].calls;
    var count := EdgeFiguresOf(table, edge).calls + 1;
    MapSumUpdate(calls, edge, count);
    assert calls' == if edge.target == target then calls[edge := count] else calls;
  }

  lemma WithEdgeTime(table: map<EdgeKey, EdgeFigures>, edge: EdgeKey, elapsed: nat, target: Key)
    ensures TimeInto(WithEdge(table, edge, elapsed), target)
         == TimeInto(table, target) + if edge.target == target then elapsed else 0
  {
    var table' := WithEdge(table, edge, elapsed);
    var times := map e | e in table && e.target == target :: table[e].total;
    var times' := map e | e in table' && e.target == target :: table'[e].total;
    var total := EdgeFiguresOf(table, edge).total + elapsed;
    MapSumUpdate(times, edge, total);
    assert times' == if edge.target == target then times[edge := total] else times;
  }

  ghost function CallsIntoAll(s: State, target: Key): int {
    CallsInto(s.edges, target) + CallsInto(s.nativeEdges, target)
  }

  ghost function TimeIntoAll(s: State, target: Key): int {
    TimeInto(s.edges, target) + TimeInto(s.nativeEdges, target)
  }

  ghost predicate EdgesWithin(s: State, target: Key) {
    && CallsIntoAll(s, target) <= FiguresOf(s.python, target).calls + FiguresOf(s.native, target).calls
    && TimeIntoAll(s, target) <= FiguresOf(s.python, target).total + FiguresOf(s.native, target).total
  }

  lemma CountEdgeInto(l: Limits, s: State, edge: EdgeKey, elapsed: nat, native: bool, target: Key)
    ensures CallsIntoAll(CountEdge(l, s, edge, elapsed, native), target)
         <= CallsIntoAll(s, target) + if edge.target == target then 1 else 0
    ensures TimeIntoAll(CountEdge(l, s, edge, elapsed, native), target)
         <= TimeIntoAll(s, target) + if edge.target == target then elapsed else 0
  {
    var s' := CountEdge(l, s, edge, elapsed, native);
    if native {
      assert s'.edges == s.edges;
      WithEdgeCalls(s.nativeEdges, edge, elapsed, target);
      WithEdgeTime(s.nativeEdges, edge, elapsed, target);
    } else {
      assert s'.nativeEdges == s.nativeEdges;
      WithEdgeCalls(s.edges, edge, elapsed, target);
      WithEdgeTime(s.edges, edge, elapsed, target);
    }
  }

  lemma CountCallInto(s: State, key: Key, call: Figures, native: bool, target: Key)
    requires call.calls == 1
    ensures CallsIntoAll(CountCall(s, key, call, native), target) == CallsIntoAll(s, target)
    ensures TimeIntoAll(CountCall(s, key, call, native), target) == TimeIntoAll(s, target)
    ensures var s' := CountCall(s, key, call, native);
            var hit := key == target;
            && FiguresOf(s'.python, target).calls + FiguresOf(s'.native, target).calls
               == FiguresOf(s.python, target).calls + FiguresOf(s.native, target).calls + (if hit then 1 else 0)
            && FiguresOf(s'.python, target).total + FiguresOf(s'.native, target).total
               == FiguresOf(s.python, target).total + FiguresOf(s.native, target).total + (if hit then call.total else 0)
  {
  }

  lemma FinishWithin(l: Limits, s: State, frame: Frame, call: Figures, below: seq<Frame>, target: Key)
    requires EdgesWithin(s, target) && call.calls == 1
    ensures EdgesWithin(Finish(l, s, frame, call, below), target)
  {
    if frame.slot.Tracked? {
      var key := frame.slot.key;
      var counted := CountCall(s, key, call, frame.native);
      CountCallInto(s, key, call, frame.native, target);
      if HasEdge(below, key) {
        CountEdgeInto(l, counted, EdgeKey(Top(below).slot, key), call.total, frame.native || Top(below).native, target);
      }
    }
  }

  lemma PopWithin(l: Limits, s: State, e: Event, target: Key)
    requires e.Leave? && EdgesWithin(s, target)
    ensures EdgesWithin(Pop(l, s, e), target)
  {
    var stack := StackOf(s.stacks, e.thread);
    if stack != [] {
      var call := Completed(Top(stack), e.raised, e.now);
      var below := Credit(Rest(stack), call.total);
      FinishWithin(l, s.(stacks := s.stacks[e.thread := below]), Top(stack), call, below, target);
    }
  }

  lemma SameFiguresWithin(s: State, s': State, target: Key)
    requires EdgesWithin(s, target)
    requires s'.edges == s.edges && s'.nativeEdges == s.nativeEdges && s'.native == s.native
    requires FiguresOf(s'.python, target).calls == FiguresOf(s.python, target).calls
    requires FiguresOf(s'.python, target).total == FiguresOf(s.python, target).total
    ensures EdgesWithin(s', target)
  {
  }

  lemma StepWithin(l: Limits, s: State, e: Event, target: Key)
    requires EdgesWithin(s, target)
    ensures EdgesWithin(Step(l, s, e), target)
  {
    if e.Leave? {
      PopWithin(l, s, e, target);
    } else {
      SameFiguresWithin(s, Step(l, s, e), target);
    }
  }

  lemma {:induction false} RunWithin(l: Limits, s: State, es: seq<Event>, target: Key)
    requires EdgesWithin(s, target)
    ensures EdgesWithin(Run(l, s, es), target)
    decreases |es|
  {
    if es != [] {
      StepWithin(l, s, es[0], target);
      RunWithin(l, Step(l, s, es[0]), es[1..], target);
    }
  }

  /** For any event sequence, the edges into a function count no more calls and time than the function itself. */
  lemma IncomingEdges(l: Limits, es: seq<Event>, target: Key)
    ensures EdgesWithin(Run(l, INITIAL, es), target)
  {
    assert CallsInto(map[], target) == 0 && TimeInto(map[], target) == 0;
    RunWithin(l, INITIAL, es, target);
  }

  // ----- the report

  /** A function record; `filtered` tells whether it counts exceptions other than iterator control flow by themselves. */
  datatype RawFunction = RawFunction(id: int, key: Key, native: bool, figures: Figures, filtered: bool)

  datatype RawEdge = RawEdge(source: int, target: int, figures: EdgeFigures)

  /** One row of a function table; `native` tells which table. */
  datatype Row = Row(key: Key, native: bool, figures: Figures)

  /** The rows of both function tables, in whatever order the report ranks them. */
  ghost predicate Ranks(s: State, rows: seq<Row>) {
    && (forall i :: 0 <= i < |rows| ==>
          var table := if rows[i].native then s.native else s.python;
          rows[i].key in table && table[rows[i].key] == rows[i].figures)
    && (forall i, j :: 0 <= i < j < |rows| ==> rows[i].key != rows[j].key || rows[i].native != rows[j].native)
    && (forall k :: k in s.python ==> Row(k, false, s.python[k]) in rows)
    && (forall k :: k in s.native ==> Row(k, true, s.native[k]) in rows)
  }

  /** The number a key has in the report: the last of its positions. */
  function IdOf(rows: seq<Row>, key: Key): (id: int)
    ensures -1 <= id < |rows|
    ensures id >= 0 ==> rows[id].key == key
    ensures id < 0 ==> forall i :: 0 <= i < |rows| ==> rows[i].key != key
    decreases |rows|
  {
    if rows == [] then -1
    else if rows[|rows| - 1].key == key then |rows| - 1
    else IdOf(rows[..|rows| - 1], key)
  }

  function ReportFunctions(rows: seq<Row>): (raws: seq<RawFunction>)
    ensures |raws| == |rows|
  {
    seq(|rows|, i requires 0 <= i < |rows| =>
      RawFunction(IdOf(rows, rows[i].key), rows[i].key, rows[i].key.filename == NATIVE_FILENAME, rows[i].figures, true))
  }

  /** An edge is reported when both its ends are; the observer and functions still open have no number. */
  predicate Reported(rows: seq<Row>, edge: EdgeKey) {
    edge.source.Tracked? && IdOf(rows, edge.source.key) >= 0 && IdOf(rows, edge.target) >= 0
  }

  function ReportEdge(rows: seq<Row>, edge: EdgeKey, figures: EdgeFigures): RawEdge
    requires Reported(rows, edge)
  {
    RawEdge(IdOf(rows, edge.source.key), IdOf(rows, edge.target), figures)
  }

  /** One row of an edge table. */
  datatype EdgeRow = EdgeRow(edge: EdgeKey, figures: EdgeFigures)

  /** The rows of both edge tables, in whatever order. */
  ghost predicate RanksEdges(s: State, edges: seq<EdgeRow>) {
    && (forall i :: 0 <= i < |edges| ==>
          var EdgeRow(edge, figures) := edges[i];
          (edge in s.edges && s.edges[edge] == figures) || (edge in s.nativeEdges && s.nativeEdges[edge] == figures))
    && (forall edge :: edge in s.edges ==> EdgeRow(edge, s.edges[edge]) in edges)
    && (forall edge :: edge in s.nativeEdges ==> EdgeRow(edge, s.nativeEdges[edge]) in edges)
  }

  function ReportEdges(rows: seq<Row>, edges: seq<EdgeRow>): seq<RawEdge> {
    if edges == [] then []
    else
      var last := edges[|edges| - 1];
      ReportEdges(rows, edges[..|edges| - 1])
      + (if Reported(rows, last.edge) then [ReportEdge(rows, last.edge, last.figures)] else [])
  }

  /** Every function of the tables is reported with its figures, and nothing else is. */
  lemma ReportTells(s: State, rows: seq<Row>, key: Key, figures: Figures)
    requires Ranks(s, rows)
    ensures (exists raw :: raw in ReportFunctions(rows) && raw.key == key && raw.figures == figures)
            <==> (key in s.python && s.python[key] == figures) || (key in s.native && s.native[key] == figures)
  {
    var raws := ReportFunctions(rows);
    if key in s.python && s.python[key] == figures {
      var i :| 0 <= i < |rows| && rows[i] == Row(key, false, figures);
      assert raws[i] in raws;
    } else if key in s.native && s.native[key] == figures {
      var i :| 0 <= i < |rows| && rows[i] == Row(key, true, figures);
      assert raws[i] in raws;
    }
  }

  /** An edge's record, with the numbers of the functions it joins. */
  predicate IsEdgeRecord(rows: seq<Row>, row: EdgeRow, raw: RawEdge) {
    && Reported(rows, row.edge) && raw.figures == row.figures
    && raw.source == IdOf(rows, row.edge.source.key) && raw.target == IdOf(rows, row.edge.target)
  }

  /** The edges reported are those of the tables that join reported functions, each with its figures. */
  lemma {:induction false} EdgesTold(rows: seq<Row>, edges: seq<EdgeRow>, raw: RawEdge)
    ensures raw in ReportEdges(rows, edges) <==> exists row :: row in edges && IsEdgeRecord(rows, row, raw)
  {
    if edges != [] {
      var n := |edges| - 1;
      EdgesTold(rows, edges[..n], raw);
      assert raw in ReportEdges(rows, edges) <==> raw in ReportEdges(rows, edges[..n]) || IsEdgeRecord(rows, edges[n], raw);
      forall row
        ensures row in edges <==> row in edges[..n] || row == edges[n]
      {
        assert edges == edges[..n] + [edges[n]];
      }
    }
  }

  // ----- names

  const MAX_TEXT_CHARACTERS: nat := 1024
  const MAX_TEXT_BYTES: nat := 4096

  /** Bytes of a text in UTF-8. */
  function Utf8Length(text: string): nat {
    if text == [] then 0
    else
      var c := text[0] as int;
      (if c < 0x80 then 1 else if c < 0x800 then 2 else if c < 0x1_0000 then 3 else 4) + Utf8Length(text[1..])
  }

  lemma {:induction false} Utf8AtMost(text: string)
    ensures |text| <= Utf8Length(text) <= 4 * |text|
  {
    if text != [] {
      Utf8AtMost(text[1..]);
    }
  }

  /** A name as the bootstrap stores it: cut off, and never empty. */
  function BoundedText(text: string, fallback: string): (bounded: string)
    requires fallback != ""
    ensures IsName(bounded) && bounded <= (if text != "" then text else fallback)
  {
    var named := if text != "" then text else fallback;
    if |named| <= MAX_TEXT_CHARACTERS then named else named[..MAX_TEXT_CHARACTERS]
  }

  predicate IsName(text: string) {
    0 < |text| <= MAX_TEXT_CHARACTERS
  }

  // ----- the loader

  /** Text as the loader wants it. */
  predicate IsText(text: string) {
    text != "" && Utf8Length(text) <= MAX_TEXT_BYTES
  }

  lemma NameIsText(text: string)
    requires IsName(text)
    ensures IsText(text)
  {
    Utf8AtMost(text);
  }

  /** Whatever a function is called, the loader takes what the bootstrap stores of it. */
  lemma StoredNameIsText(text: string, fallback: string)
    requires fallback != ""
    ensures IsText(BoundedText(text, fallback))
  {
    NameIsText(BoundedText(text, fallback));
  }

  predicate Bounded(n: int) {
    0 <= n <= MAX_INTEGER
  }

  predicate InRange(f: Figures) {
    Bounded(f.calls) && Bounded(f.total) && Bounded(f.self) && Bounded(f.max) && Bounded(f.exceptions) && Bounded(f.escapes)
  }

  predicate KnownScope(scope: string) {
    scope == "application" || scope == "library" || scope == "runtime"
  }

  /** What the loader asks of one function record. */
  predicate FunctionAccepted(raw: RawFunction) {
    && Bounded(raw.id) && KnownScope(raw.key.scope) && Bounded(raw.key.line) && InRange(raw.figures)
    && IsText(raw.key.moduleName) && IsText(raw.key.qualname) && IsText(raw.key.filename)
    && raw.native == (raw.key.filename == NATIVE_FILENAME)
    && FiguresAgree(raw.figures)
    && (raw.native ==> raw.figures.exceptions <= raw.figures.calls && raw.figures.escapes == 0)
  }

  /** The report says whether its records tell control flow apart, and each must. */
  predicate FilterAgrees(raw: RawFunction, filter: Option<bool>) {
    filter.Some? ==> raw.filtered == filter.value
  }

  datatype Loaded = Rejected | Accepted(functions: map<int, (Key, Figures)>)

  /** Reads the function records of one report, one by one. */
  method DeepFunctions(raws: seq<RawFunction>, filter: Option<bool>) returns (loaded: Loaded)
    ensures loaded.Accepted? <==> FunctionsLoad(raws, filter)
    ensures loaded.Accepted? ==>
            && (forall i :: 0 <= i < |raws| ==>
                  raws[i].id in loaded.functions && loaded.functions[raws[i].id] == (raws[i].key, raws[i].figures))
            && (forall id :: id in loaded.functions ==> exists i :: 0 <= i < |raws| && raws[i].id == id)
  {
    var byIdentifier: map<int, (Key, Figures)> := map[];
    for n := 0 to |raws|
      invariant forall i :: 0 <= i < n ==> FunctionAccepted(raws[i]) && FilterAgrees(raws[i], filter)
      invariant forall i, j :: 0 <= i < j < n ==> raws[i].id != raws[j].id
      invariant forall i :: 0 <= i < n ==>
        raws[i].id in byIdentifier && byIdentifier[raws[i].id] == (raws[i].key, raws[i].figures)
      invariant forall id :: id in byIdentifier ==> exists i :: 0 <= i < n && raws[i].id == id
    {
      var raw := raws[n];
      if filter.Some? && raw.filtered != filter.value {
        return Rejected;
      }
      if !FunctionAccepted(raw) {
        return Rejected;
      }
      if raw.id in byIdentifier {
        return Rejected;
      }
      byIdentifier := byIdentifier[raw.id := (raw.key, raw.figures)];
    }
    return Accepted(byIdentifier);
  }

  datatype LoadedEdge = EdgeRejected | LoadedEdge(source: Key, target: Key, figures: EdgeFigures)

  /** Reads one edge record: numbers in range, both ends known. */
  function DeepEdge(raw: RawEdge, functions: map<int, (Key, Figures)>): (loaded: LoadedEdge)
    ensures loaded.LoadedEdge? <==>
            && Bounded(raw.source) && Bounded(raw.target) && Bounded(raw.figures.calls) && Bounded(raw.figures.total)
            && raw.source in functions && raw.target in functions
  {
    if !Bounded(raw.source) || !Bounded(raw.target) then EdgeRejected
    else if raw.source !in functions || raw.target !in functions then EdgeRejected
    else if !Bounded(raw.figures.calls) || !Bounded(raw.figures.total) then EdgeRejected
    else LoadedEdge(functions[raw.source].0, functions[raw.target].0, raw.figures)
  }

  /** The edge records that go with function records. */
  ghost predicate EdgeAccepted(raws: seq<RawFunction>, edge: RawEdge) {
    && Bounded(edge.figures.calls) && Bounded(edge.figures.total) && Bounded(edge.source) && Bounded(edge.target)
    && (exists i :: 0 <= i < |raws| && raws[i].id == edge.source)
    && (exists i :: 0 <= i < |raws| && raws[i].id == edge.target)
  }

  ghost predicate FunctionsLoad(raws: seq<RawFunction>, filter: Option<bool>) {
    && (forall i :: 0 <= i < |raws| ==> FunctionAccepted(raws[i]) && FilterAgrees(raws[i], filter))
    && (forall i, j :: 0 <= i < j < |raws| ==> raws[i].id != raws[j].id)
  }

  ghost predicate ReportLoads(raws: seq<RawFunction>, edges: seq<RawEdge>, filter: Option<bool>) {
    && FunctionsLoad(raws, filter)
    && (forall i :: 0 <= i < |edges| ==> EdgeAccepted(raws, edges[i]))
  }

  /** Reads all function and edge records of one report. */
  method LoadReport(raws: seq<RawFunction>, edges: seq<RawEdge>, filter: Option<bool>) returns (loaded: Loaded)
    ensures loaded.Accepted? <==> ReportLoads(raws, edges, filter)
  {
    loaded := DeepFunctions(raws, filter);
    if loaded.Rejected? {
      return;
    }
    for n := 0 to |edges|
      invariant forall i :: 0 <= i < n ==> EdgeAccepted(raws, edges[i])
    {
      if DeepEdge(edges[n], loaded.functions).EdgeRejected? {
        EdgeAcceptedIff(raws, loaded.functions, edges[n]);
        return Rejected;
      }
      EdgeAcceptedIff(raws, loaded.functions, edges[n]);
    }
  }

  lemma EdgeAcceptedIff(raws: seq<RawFunction>, functions: map<int, (Key, Figures)>, edge: RawEdge)
    requires forall i :: 0 <= i < |raws| ==> raws[i].id in functions
    requires forall id :: id in functions ==> exists i :: 0 <= i < |raws| && raws[i].id == id
    ensures DeepEdge(edge, functions).LoadedEdge? <==> EdgeAccepted(raws, edge)
  {
  }

  // ----- every report is accepted

  /**
   Names as the bootstrap makes them. Native functions are all in `<native>`; `strict` says that nothing else is.
   */
  predicate WellNamed(key: Key, native: bool, strict: bool) {
    && IsName(key.moduleName) && IsName(key.qualname) && IsName(key.filename) && KnownScope(key.scope) && Bounded(key.line)
    && (native ==> key.filename == NATIVE_FILENAME)
    && (strict && key.filename == NATIVE_FILENAME ==> native)
  }

  predicate WellNamedEvents(es: seq<Event>, strict: bool) {
    forall i :: 0 <= i < |es| ==>
      match es[i]
      case Enter(_, key, native, _, _) => WellNamed(key, native, strict)
      case Raise(key, _, _) => WellNamed(key, false, strict)
      case Leave(_, _, _) => true
  }

  ghost predicate TablesNamed(s: State, strict: bool) {
    && (forall k :: k in s.trackedPython ==> WellNamed(k, false, strict))
    && (forall k :: k in s.trackedNative ==> WellNamed(k, true, strict))
  }

  lemma {:induction false} RunNamed(l: Limits, s: State, es: seq<Event>, strict: bool)
    requires TablesNamed(s, strict) && WellNamedEvents(es, strict)
    ensures TablesNamed(Run(l, s, es), strict)
    decreases |es|
  {
    if es != [] {
      StepNamed(l, s, es[0], strict);
      assert forall i :: 0 <= i < |es[1..]| ==> es[1..][i] == es[i + 1];
      RunNamed(l, Step(l, s, es[0]), es[1..], strict);
    }
  }

  lemma StepNamed(l: Limits, s: State, e: Event, strict: bool)
    requires TablesNamed(s, strict) && WellNamedEvents([e], strict)
    ensures TablesNamed(Step(l, s, e), strict)
  {
    assert [e][0] == e;
  }

  ghost predicate InRangeTables(s: State) {
    && (forall k :: k in s.python ==> InRange(s.python[k]))
    && (forall k :: k in s.native ==> InRange(s.native[k]))
  }

  predicate InRangeEdge(f: EdgeFigures) {
    Bounded(f.calls) && Bounded(f.total)
  }

  ghost predicate InRangeEdges(s: State) {
    && (forall k :: k in s.edges ==> InRangeEdge(s.edges[k]))
    && (forall k :: k in s.nativeEdges ==> InRangeEdge(s.nativeEdges[k]))
  }

  /** A Python function whose file is called like that of native functions. */
  predicate Pretends(row: Row) {
    !row.native && row.key.filename == NATIVE_FILENAME
  }

  predicate SharesKey(rows: seq<Row>, row: Row) {
    exists j :: 0 <= j < |rows| && rows[j].native && rows[j].key == row.key
  }

  /** What the loader accepts of such a function: figures fit for a native one, and no native one of the same name. */
  predicate Passes(rows: seq<Row>, row: Row) {
    NativeFiguresAgree(row.figures) && !SharesKey(rows, row)
  }

  /** The loader takes the function records, whose report says that they tell control flow apart. */
  ghost predicate Loads(rows: seq<Row>) {
    FunctionsLoad(ReportFunctions(rows), Some(true))
  }

  /** The state a report is made from: figures that agree, in range, under names of functions. */
  ghost predicate Reportable(s: State, strict: bool) {
    && Agrees(s) && TablesNamed(s, strict) && InRangeTables(s)
    && s.python.Keys <= s.trackedPython && s.native.Keys <= s.trackedNative
  }

  lemma RowAcceptedIff(s: State, rows: seq<Row>, i: nat, strict: bool)
    requires Ranks(s, rows) && i < |rows| <= MAX_INTEGER && Reportable(s, strict)
    ensures FunctionAccepted(ReportFunctions(rows)[i]) <==> (Pretends(rows[i]) ==> NativeFiguresAgree(rows[i].figures))
    ensures strict ==> !Pretends(rows[i])
  {
    var row := rows[i];
    assert WellNamed(row.key, row.native, strict);
    NameIsText(row.key.moduleName);
    NameIsText(row.key.qualname);
    NameIsText(row.key.filename);
    if row.native {
      assert NativeFiguresAgree(s.native[row.key]) && InRange(s.native[row.key]);
    } else {
      assert FiguresAgree(s.python[row.key]) && InRange(s.python[row.key]);
    }
  }

  /** Two rows get one number exactly when they are a native function and a Python function of the same name. */
  lemma SameNumber(s: State, rows: seq<Row>, i: nat, j: nat, strict: bool)
    requires Ranks(s, rows) && i < j < |rows| && Reportable(s, strict)
    ensures ReportFunctions(rows)[i].id == ReportFunctions(rows)[j].id <==> rows[i].key == rows[j].key
    ensures rows[i].key == rows[j].key ==>
              || (Pretends(rows[i]) && SharesKey(rows, rows[i]))
              || (Pretends(rows[j]) && SharesKey(rows, rows[j]))
  {
    assert WellNamed(rows[i].key, rows[i].native, strict) && WellNamed(rows[j].key, rows[j].native, strict);
  }

  lemma SharedIsTwice(rows: seq<Row>, i: nat)
    requires i < |rows| && Pretends(rows[i]) && SharesKey(rows, rows[i])
    ensures exists a, b :: 0 <= a < b < |rows| && ReportFunctions(rows)[a].id == ReportFunctions(rows)[b].id
  {
    var j :| 0 <= j < |rows| && rows[j].native && rows[j].key == rows[i].key;
    var a, b := if i < j then i else j, if i < j then j else i;
    assert ReportFunctions(rows)[a].id == ReportFunctions(rows)[b].id;
  }

  lemma LoadsIff(s: State, rows: seq<Row>, strict: bool)
    requires Ranks(s, rows) && |rows| <= MAX_INTEGER && Reportable(s, strict)
    ensures Loads(rows) <==> forall i :: 0 <= i < |rows| && Pretends(rows[i]) ==> Passes(rows, rows[i])
    ensures strict ==> Loads(rows)
  {
    forall i | 0 <= i < |rows|
      ensures FunctionAccepted(ReportFunctions(rows)[i]) <==> (Pretends(rows[i]) ==> NativeFiguresAgree(rows[i].figures))
      ensures strict ==> !Pretends(rows[i])
      ensures Pretends(rows[i]) && SharesKey(rows, rows[i]) ==> !Loads(rows)
    {
      RowAcceptedIff(s, rows, i, strict);
      if Pretends(rows[i]) && SharesKey(rows, rows[i]) {
        SharedIsTwice(rows, i);
      }
    }
    forall i, j | 0 <= i < j < |rows| && ReportFunctions(rows)[i].id == ReportFunctions(rows)[j].id
      ensures (Pretends(rows[i]) && SharesKey(rows, rows[i])) || (Pretends(rows[j]) && SharesKey(rows, rows[j]))
    {
      SameNumber(s, rows, i, j, strict);
    }
  }

  /** Reported edges never stand in the way: their numbers are those of function records, and their figures in range. */
  lemma {:induction false} EdgesLoad(s: State, rows: seq<Row>, edges: seq<EdgeRow>)
    requires |rows| <= MAX_INTEGER && InRangeEdges(s)
    requires forall i :: 0 <= i < |edges| ==>
               var EdgeRow(edge, figures) := edges[i];
               (edge in s.edges && s.edges[edge] == figures) || (edge in s.nativeEdges && s.nativeEdges[edge] == figures)
    ensures forall edge :: edge in ReportEdges(rows, edges) ==> EdgeAccepted(ReportFunctions(rows), edge)
  {
    if edges != [] {
      var last := edges[|edges| - 1];
      EdgesLoad(s, rows, edges[..|edges| - 1]);
      if Reported(rows, last.edge) {
        EdgeLoads(rows, last.edge, last.figures);
      }
    }
  }

  lemma EdgeLoads(rows: seq<Row>, edge: EdgeKey, figures: EdgeFigures)
    requires |rows| <= MAX_INTEGER && Reported(rows, edge) && InRangeEdge(figures)
    ensures EdgeAccepted(ReportFunctions(rows), ReportEdge(rows, edge, figures))
  {
    var source, target := IdOf(rows, edge.source.key), IdOf(rows, edge.target);
    var raws := ReportFunctions(rows);
    assert raws[source].id == source && raws[target].id == target;
  }

  /**
   For every event sequence, and whatever the order of its rows, the report with its functions and its edges passes the
   loader, exactly if each Python function in a file called `<native>` has figures fit for a native function and a name of
   its own. Without such files the report passes.
   */
  lemma ReportAccepted(l: Limits, es: seq<Event>, rows: seq<Row>, edges: seq<EdgeRow>, strict: bool)
    requires WellNamedEvents(es, strict)
    requires var s := Run(l, INITIAL, es);
             && Ranks(s, rows) && RanksEdges(s, edges) && InRangeTables(s) && InRangeEdges(s) && |rows| <= MAX_INTEGER
    ensures ReportLoads(ReportFunctions(rows), ReportEdges(rows, edges), Some(true))
            <==> forall i :: 0 <= i < |rows| && Pretends(rows[i]) ==> Passes(rows, rows[i])
    ensures strict ==> ReportLoads(ReportFunctions(rows), ReportEdges(rows, edges), Some(true))
  {
    RunAgrees(l, INITIAL, es);
    RunNamed(l, INITIAL, es, strict);
    InitialFits(l);
    RunFits(l, INITIAL, es);
    LoadsIff(Run(l, INITIAL, es), rows, strict);
    EdgesLoad(Run(l, INITIAL, es), rows, edges);
  }

  /** Every reported edge resolves, in the loader, to the two functions it was recorded between. */
  lemma EdgeResolves(rows: seq<Row>, functions: map<int, (Key, Figures)>, edge: EdgeKey, figures: EdgeFigures)
    requires Reported(rows, edge) && InRangeEdge(figures) && |rows| <= MAX_INTEGER
    requires forall raw :: raw in ReportFunctions(rows) ==>
               raw.id in functions && functions[raw.id] == (raw.key, raw.figures)
    ensures DeepEdge(ReportEdge(rows, edge, figures), functions) == LoadedEdge(edge.source.key, edge.target, figures)
  {
    var source, target := IdOf(rows, edge.source.key), IdOf(rows, edge.target);
    var raws := ReportFunctions(rows);
    assert raws[source] in raws && raws[target] in raws;
    assert raws[source].id == source && raws[target].id == target;
  }

  /** An edge between functions that have figures is reported. */
  lemma EdgeReported(l: Limits, es: seq<Event>, rows: seq<Row>, edge: EdgeKey)
    requires var s := Run(l, INITIAL, es);
             && Ranks(s, rows) && (edge in s.edges || edge in s.nativeEdges)
             && (edge.source.Tracked? ==> edge.source.key in s.python || edge.source.key in s.native)
    ensures Reported(rows, edge)
  {
    var s := Run(l, INITIAL, es);
    InitialFits(l);
    RunFits(l, INITIAL, es);
    assert EdgeFits(s, edge);
    KeyRanked(s, rows, edge.source.key);
    KeyRanked(s, rows, edge.target);
  }

  lemma KeyRanked(s: State, rows: seq<Row>, key: Key)
    requires Ranks(s, rows) && (key in s.python || key in s.native)
    ensures IdOf(rows, key) >= 0
  {
    var row := if key in s.python then Row(key, false, s.python[key]) else Row(key, true, s.native[key]);
    assert row in rows;
    var i :| 0 <= i < |rows| && rows[i] == row;
  }

  /** A Python function from a file called `<native>` that raises makes the loader reject the report. */
  lemma NativeFilenameRejected(l: Limits, key: Key)
    requires l.functions > 0 && key.filename == NATIVE_FILENAME
    ensures var s := Run(l, INITIAL, [Raise(key, false, false)]);
            var rows := [Row(key, false, Figures(0, 0, 0, 0, 1, 1))];
            Ranks(s, rows) && !FunctionAccepted(ReportFunctions(rows)[0])
  {
    var es := [Raise(key, false, false)];
    var s := Step(l, INITIAL, es[0]);
    assert es[1..] == [];
    assert Run(l, INITIAL, es) == s;
    var figures := Figures(0, 0, 0, 0, 1, 1);
    assert s.python == map[key := figures];
    assert [Row(key, false, figures)][0] == Row(key, false, s.python[key]);
  }
}
