/**
 Lifecycle of HTTP request records (src/runtime_tools/_semantic_capture_bootstrap/_boundaries.py and _network_hooks.py) and their
 validation and ranking (src/runtime_tools/deep_profile/_http.py).

 The hooks around `http.client` run on any number of threads and connections, and one within the call that another one wraps;
 what they do to the shared state happens in regions guarded by one lock, between which any other thread may act.
 */
module HttpRecords {
  import opened Integers
  import opened Results
  import opened Ranking

  const MAX_RECORDS: nat := 256
  const MAX_METHOD: nat := 32
  const MAX_ERROR_TYPE: nat := 256
  const MAX_CLOCK: nat := 0x4000_0000_0000_0000
  const STDLIB := "stdlib.http.client"

  datatype Scheme = Http | Https

  datatype Outcome = Unknown | Response | RequestError | Closed

  datatype Record = Record(
    id: nat,
    verb: string,
    scheme: Scheme,
    port: Option<int>,
    adapter: string,
    pid: int,
    startedAt: int,
    startedMonotonic: int,
    duration: Option<int>,
    status: Option<int>,
    outcome: Outcome,
    errorType: Option<string>)

  /** A method argument: text, bytes that may be ASCII, or something else. */
  datatype MethodValue = Text(text: string) | Bytes(ascii: Option<string>) | Other

  datatype PortValue = Port(number: int) | NoPort | OtherPort

  predicate IsAdapter(adapter: string) {
    adapter == STDLIB || adapter == "httpcore.sync" || adapter == "httpcore.async" || adapter == "aiohttp.async"
  }

  const UNSUPPORTED := "<method>"

  predicate IsMethod(verb: string) {
    0 < |verb| <= MAX_METHOD && forall c :: c in verb ==> 'A' <= c <= 'Z' || c == '-'
  }

  /** What a caller meant for a method, if it can be read as text. */
  function TextOf(value: MethodValue): Option<string> {
    match value
    case Text(text) => Some(text)
    case Bytes(ascii) => ascii
    case Other => None
  }

  function HttpMethod(value: MethodValue): (verb: string)
    ensures IsMethod(verb) <==> TextOf(value).Some? && IsMethod(TextOf(value).value)
    ensures IsMethod(verb) ==> TextOf(value) == Some(verb)
    ensures !IsMethod(verb) ==> verb == UNSUPPORTED
  {
    assert UNSUPPORTED[0] !in "-" && UNSUPPORTED[0] in UNSUPPORTED;
    match value
    case Text(text) => if IsMethod(text) then text else UNSUPPORTED
    case Bytes(Some(text)) => if IsMethod(text) then text else UNSUPPORTED
    case _ => UNSUPPORTED
  }

  function HttpPort(value: PortValue, scheme: Scheme): (port: Option<int>)
    ensures port.Some? ==> 0 < port.value <= 65535
    ensures value.Port? ==> port == if 0 < value.number <= 65535 then Some(value.number) else None
    ensures value.NoPort? ==> port == Some(if scheme.Https? then 443 else 80)
    ensures port.None? <==> value.OtherPort? || (value.Port? && !(0 < value.number <= 65535))
  {
    match value
    case Port(number) => if 0 < number <= 65535 then Some(number) else None
    case NoPort => Some(if scheme.Https? then 443 else 80)
    case OtherPort => None
  }

  // ----- What the reader of the records demands -----

  predicate AcceptedShape(r: Record) {
    match r.outcome
    case Response => r.duration.Some? && r.errorType.None?
    case RequestError => r.duration.Some? && r.status.None? && r.errorType.Some?
    case Closed => r.duration.Some? && r.status.None? && r.errorType.None?
    case Unknown => r.duration.None? && r.status.None? && r.errorType.None?
  }

  predicate AcceptedRecord(r: Record, pid: int) {
    && r.id <= MAX_INTEGER
    && (r.verb == UNSUPPORTED || IsMethod(r.verb))
    && IsAdapter(r.adapter)
    && (r.port.Some? ==> 0 < r.port.value <= 65535)
    && 0 < r.pid == pid
    && 0 < r.startedAt <= MAX_INTEGER
    && (r.duration.Some? ==> 0 <= r.duration.value && r.startedAt + r.duration.value <= MAX_INTEGER)
    && (r.status.Some? ==> 100 <= r.status.value <= 999)
    && (r.errorType.Some? ==> IsText(r.errorType.value) && |r.errorType.value| <= MAX_ERROR_TYPE)
    && AcceptedShape(r)
  }

  /** Text is not empty. */
  predicate IsText(s: string) {
    s != ""
  }

  // ----- The regions guarded by the lock -----

  /** `reservations` counts the attempts to reserve a record with a supported scheme and adapter. */
  datatype Store = Store(
    records: map<nat, Record>,
    next: nat,
    dropped: nat,
    bindings: map<int, nat>,
    reservations: nat)

  function Increment(counter: nat): nat {
    if counter + 1 <= MAX_INTEGER then counter + 1 else MAX_INTEGER
  }

  function ReserveBoundary(s: Store, verb: MethodValue, scheme: Scheme, port: PortValue, adapter: string, pid: int,
                           now: int, monotonic: int): (Store, Option<nat>)
  {
    if !IsAdapter(adapter) then (s, None)
    else if |s.records| >= MAX_RECORDS then
      (s.(dropped := Increment(s.dropped), reservations := s.reservations + 1), None)
    else
      var record := Record(s.next, HttpMethod(verb), scheme, HttpPort(port, scheme), adapter, pid, now, monotonic,
                           None, None, Unknown, None);
      (s.(records := s.records[s.next := record], next := Increment(s.next), reservations := s.reservations + 1), Some(s.next))
  }

  function Bind(s: Store, connection: int, identifier: Option<nat>): Store {
    if identifier.None? then s.(bindings := s.bindings - {connection})
    else s.(bindings := s.bindings[connection := identifier.value])
  }

  function Bound(s: Store, connection: int): Option<nat> {
    if connection in s.bindings then Some(s.bindings[connection]) else None
  }

  /** How a record is finished. */
  datatype Ending = Responded(status: Option<int>) | Failed(errorType: string) | Shut

  function OutcomeOf(ending: Ending): Outcome {
    match ending
    case Responded(_) => Response
    case Failed(_) => RequestError
    case Shut => Closed
  }

  function Finished(r: Record, ending: Ending, monotonic: int): Record {
    if r.duration.Some? && !(r.outcome.Closed? && !ending.Shut?) then r
    else
      var elapsed := if monotonic - r.startedMonotonic > 0 then monotonic - r.startedMonotonic else 0;
      r.(duration := if r.duration.Some? then r.duration else Some(elapsed),
         status := if ending.Responded? then ending.status else None,
         outcome := OutcomeOf(ending),
         errorType := if ending.Failed? then Some(Clipped(ending.errorType)) else r.errorType)
  }

  function Clipped(errorType: string): string {
    if |errorType| <= MAX_ERROR_TYPE then errorType else errorType[..MAX_ERROR_TYPE]
  }

  function Finish(s: Store, identifier: Option<nat>, ending: Ending, monotonic: int): Store {
    if identifier.None? || identifier.value !in s.records then s
    else s.(records := s.records[identifier.value := Finished(s.records[identifier.value], ending, monotonic)])
  }

  // ----- The hooks, thread by thread -----

  datatype Hook = PutRequest(verb: MethodValue, port: PortValue, https: bool) | EndHeaders | GetResponse | Close

  datatype Point =
    | Start
    | ClosingPrevious(previous: nat)
    | Reserving
    | Binding(reserved: Option<nat>)
    | Original(identifier: Option<nat>)
    | Ending(identifier: Option<nat>, ending: Ending)
    | Releasing

  datatype Local = Local(hook: Hook, connection: int, point: Point)

  /** The hooks a thread is in, the innermost first: a wrapped call may call other hooked ones. */
  datatype Calls = Idle | In(top: Local, rest: Calls)

  datatype System = System(store: Store, threads: map<int, Calls>, pid: int)

  /** How the wrapped call goes. */
  datatype Answer = Returned(status: Option<int>) | Raised(name: string)

  datatype Action =
    | Call(thread: int, hook: Hook, connection: int)
    | Go(thread: int, now: int, monotonic: int, answer: Answer)
    | GivesUp(thread: int)

  function AfterOriginal(hook: Hook, identifier: Option<nat>, answer: Answer): Option<Point> {
    match hook
    case Close => Some(Ending(identifier, Shut))
    case GetResponse =>
      if answer.Raised? then Some(Ending(identifier, Failed(answer.name)))
      else Some(Ending(identifier, Responded(HttpStatus(answer.status))))
    case _ => if answer.Raised? then Some(Ending(identifier, Failed(answer.name))) else None
  }

  function HttpStatus(status: Option<int>): Option<int> {
    if status.Some? && 100 <= status.value <= 999 then status else None
  }

  function CallsOf(s: System, thread: int): Calls {
    if thread in s.threads then s.threads[thread] else Idle
  }

  function Put(s: System, thread: int, calls: Calls): System {
    s.(threads := s.threads[thread := calls])
  }

  function At(s: System, thread: int, point: Point): System
    requires CallsOf(s, thread).In?
  {
    var calls := CallsOf(s, thread);
    Put(s, thread, In(calls.top.(point := point), calls.rest))
  }

  function Done(s: System, thread: int): System
    requires CallsOf(s, thread).In?
  {
    Put(s, thread, CallsOf(s, thread).rest)
  }

  /** After a look at what the connection is bound to. */
  function Opened(l: Local, bound: Option<nat>): Point {
    if !l.hook.PutRequest? then Original(bound) else if bound.Some? then ClosingPrevious(bound.value) else Reserving
  }

  /** The next region, or the wrapped call, of the innermost hook of one thread. */
  function Gone(s: System, a: Action): System
    requires a.Go? && CallsOf(s, a.thread).In?
  {
    var l := CallsOf(s, a.thread).top;
    match l.point
    case Start => At(s, a.thread, Opened(l, Bound(s.store, l.connection)))
    case ClosingPrevious(previous) =>
      At(s.(store := Finish(s.store, Some(previous), Shut, a.monotonic)), a.thread, Reserving)
    case Reserving =>
      if l.hook.PutRequest? then
        var reserved := Reserves(s, l.hook, a);
        At(s.(store := reserved.0), a.thread, Binding(reserved.1))
      else s
    case Binding(reserved) =>
      At(s.(store := Bind(s.store, l.connection, reserved)), a.thread, Original(reserved))
    case Original(identifier) =>
      var next := AfterOriginal(l.hook, identifier, a.answer);
      if next.None? then Done(s, a.thread) else At(s, a.thread, next.value)
    case Ending(identifier, ending) =>
      At(s.(store := Finish(s.store, identifier, ending, a.monotonic)), a.thread, Releasing)
    case Releasing =>
      Done(s.(store := Bind(s.store, l.connection, None)), a.thread)
  }

  function SchemeOf(hook: Hook): Scheme
    requires hook.PutRequest?
  {
    if hook.https then Https else Http
  }

  function Reserves(s: System, hook: Hook, a: Action): (Store, Option<nat>)
    requires hook.PutRequest? && a.Go?
  {
    ReserveBoundary(s.store, hook.verb, SchemeOf(hook), hook.port, STDLIB, s.pid, a.now, a.monotonic)
  }

  /** A hook is called from outside of all hooks, or from the call that one of them wraps. */
  predicate MayCall(calls: Calls) {
    calls.In? ==> calls.top.point.Original?
  }

  /** An error in a hook: one in a reservation leaves the request without a record, another ends the hook. */
  function GaveUp(s: System, thread: int): System
    requires CallsOf(s, thread).In?
  {
    var l := CallsOf(s, thread).top;
    if l.hook.PutRequest? && (l.point.Start? || l.point.ClosingPrevious? || l.point.Reserving? || l.point.Binding?) then
      At(s, thread, Original(None))
    else Done(s, thread)
  }

  function Step(s: System, a: Action): System {
    var calls := CallsOf(s, a.thread);
    match a
    case Call(thread, hook, connection) =>
      if MayCall(calls) then Put(s, thread, In(Local(hook, connection, Start), calls)) else s
    case Go(_, _, _, _) => if calls.In? then Gone(s, a) else s
    case GivesUp(thread) => if calls.In? then GaveUp(s, thread) else s
  }

  function Run(s: System, actions: seq<Action>): System
    decreases |actions|
  {
    if actions == [] then s else Run(Step(s, actions[0]), actions[1..])
  }

  function Initial(pid: int): System {
    System(Store(map[], 0, 0, map[], 0), map[], pid)
  }

  /** Clock readings far from the end of the integer range. */
  predicate Plausible(a: Action) {
    a.Go? ==> 0 < a.now < MAX_CLOCK && 0 <= a.monotonic < MAX_CLOCK
  }

  // ----- What every step keeps -----

  /** All that is demanded of a record, but that its error type is text. */
  predicate Sound(r: Record, pid: int) {
    && (r.verb == UNSUPPORTED || IsMethod(r.verb))
    && IsAdapter(r.adapter)
    && (r.port.Some? ==> 0 < r.port.value <= 65535)
    && 0 < r.pid == pid
    && 0 < r.startedAt < MAX_CLOCK && 0 <= r.startedMonotonic
    && (r.duration.Some? ==> 0 <= r.duration.value < MAX_CLOCK)
    && (r.status.Some? ==> 100 <= r.status.value <= 999)
    && (r.errorType.Some? ==> |r.errorType.value| <= MAX_ERROR_TYPE)
    && AcceptedShape(r)
  }

  ghost predicate Numbered(s: Store) {
    && (forall id: nat :: id in s.records <==> id < s.next)
    && (forall id :: id in s.records ==> s.records[id].id == id)
    && |s.records| == s.next <= MAX_RECORDS
  }

  /** Every reservation is a record or was dropped, as far as the counter of drops reaches. */
  predicate Counted(s: Store) {
    && s.next == (if s.reservations <= MAX_RECORDS then s.reservations else MAX_RECORDS)
    && s.dropped == (if s.reservations - s.next <= MAX_INTEGER then s.reservations - s.next else MAX_INTEGER)
  }

  ghost predicate ValidStore(s: Store, pid: int) {
    && Numbered(s) && Counted(s)
    && (forall id :: id in s.records ==> Sound(s.records[id], pid))
  }

  predicate SoundEnding(ending: Ending) {
    ending.Responded? && ending.status.Some? ==> 100 <= ending.status.value <= 999
  }

  predicate Below(identifier: Option<nat>, next: nat) {
    identifier.Some? ==> identifier.value < next
  }

  /** What a hook is at mentions records that exist, and endings that are sound. */
  predicate PointFits(point: Point, next: nat) {
    match point
    case ClosingPrevious(previous) => previous < next
    case Binding(reserved) => Below(reserved, next)
    case Original(identifier) => Below(identifier, next)
    case Ending(identifier, ending) => Below(identifier, next) && SoundEnding(ending)
    case _ => true
  }

  predicate CallsFit(calls: Calls, next: nat) {
    calls.In? ==> PointFits(calls.top.point, next) && CallsFit(calls.rest, next)
  }

  ghost predicate Valid(s: System) {
    && 0 < s.pid && ValidStore(s.store, s.pid)
    && (forall t :: t in s.threads ==> CallsFit(s.threads[t], s.store.next))
    && (forall k :: k in s.store.bindings ==> s.store.bindings[k] < s.store.next)
  }

  lemma FinishedSound(r: Record, ending: Ending, monotonic: int, pid: int)
    requires Sound(r, pid) && SoundEnding(ending) && 0 <= monotonic < MAX_CLOCK
    ensures Sound(Finished(r, ending, monotonic), pid)
  {
  }

  lemma FinishNumbered(s: Store, identifier: Option<nat>, ending: Ending, monotonic: int)
    requires Numbered(s)
    ensures Numbered(Finish(s, identifier, ending, monotonic))
  {
    if identifier.Some? && identifier.value in s.records {
      assert Finish(s, identifier, ending, monotonic).records.Keys == s.records.Keys;
    }
  }

  lemma FinishKeeps(s: Store, identifier: Option<nat>, ending: Ending, monotonic: int, pid: int)
    requires ValidStore(s, pid) && SoundEnding(ending) && 0 <= monotonic < MAX_CLOCK
    ensures ValidStore(Finish(s, identifier, ending, monotonic), pid)
  {
    FinishNumbered(s, identifier, ending, monotonic);
    if identifier.Some? && identifier.value in s.records {
      FinishedSound(s.records[identifier.value], ending, monotonic, pid);
    }
  }

  lemma ReserveNumbered(s: Store, r: Record)
    requires Numbered(s) && |s.records| < MAX_RECORDS && r.id == s.next
    ensures Numbered(s.(records := s.records[s.next := r], next := s.next + 1))
  {
    var more := s.records[s.next := r];
    assert s.next !in s.records;
    CountsOneMore(s.records, s.next, r);
    forall id: nat
      ensures id in more <==> id < s.next + 1
    {
    }
  }

  lemma CountsOneMore(records: map<nat, Record>, id: nat, r: Record)
    requires id !in records
    ensures |records[id := r]| == |records| + 1
  {
    assert records[id := r].Keys == records.Keys + {id};
  }

  lemma ReserveKeeps(s: Store, verb: MethodValue, scheme: Scheme, port: PortValue, pid: int, now: int, monotonic: int)
    requires ValidStore(s, pid) && 0 < pid && 0 < now < MAX_CLOCK && 0 <= monotonic < MAX_CLOCK
    ensures ValidStore(ReserveBoundary(s, verb, scheme, port, STDLIB, pid, now, monotonic).0, pid)
  {
    var s' := ReserveBoundary(s, verb, scheme, port, STDLIB, pid, now, monotonic).0;
    if |s.records| < MAX_RECORDS {
      ReserveNumbered(s, s'.records[s.next]);
    }
  }

  lemma {:induction false} FitsMore(calls: Calls, next: nat, more: nat)
    requires CallsFit(calls, next) && next <= more
    ensures CallsFit(calls, more)
  {
    if calls.In? {
      FitsMore(calls.rest, next, more);
    }
  }

  /** Moving a thread on keeps the state valid, whatever valid store it leaves. */
  lemma MoveKeeps(s: System, store: Store, thread: int, point: Point)
    requires Valid(s) && CallsOf(s, thread).In? && ValidStore(store, s.pid) && s.store.next <= store.next
    requires forall k :: k in store.bindings ==> store.bindings[k] < store.next
    requires PointFits(point, store.next)
    ensures Valid(At(s.(store := store), thread, point)) && Valid(Done(s.(store := store), thread))
  {
    forall t | t in s.threads
      ensures CallsFit(s.threads[t], store.next)
    {
      FitsMore(s.threads[t], s.store.next, store.next);
    }
  }

  lemma GoReserves(s: System, a: Action)
    requires Valid(s) && Plausible(a) && a.Go? && CallsOf(s, a.thread).In? && CallsOf(s, a.thread).top.point.Reserving?
    ensures Valid(Gone(s, a))
  {
    var hook := CallsOf(s, a.thread).top.hook;
    if hook.PutRequest? {
      var reserved := Reserves(s, hook, a);
      ReserveKeeps(s.store, hook.verb, SchemeOf(hook), hook.port, s.pid, a.now, a.monotonic);
      MoveKeeps(s, reserved.0, a.thread, Binding(reserved.1));
    }
  }

  lemma GoFinishes(s: System, a: Action, identifier: Option<nat>, ending: Ending, point: Point)
    requires Valid(s) && Plausible(a) && a.Go? && CallsOf(s, a.thread).In?
    requires SoundEnding(ending) && PointFits(point, s.store.next)
    ensures Valid(At(s.(store := Finish(s.store, identifier, ending, a.monotonic)), a.thread, point))
  {
    FinishKeeps(s.store, identifier, ending, a.monotonic, s.pid);
    MoveKeeps(s, Finish(s.store, identifier, ending, a.monotonic), a.thread, point);
  }

  lemma BindKeeps(s: System, thread: int, identifier: Option<nat>, point: Point)
    requires Valid(s) && CallsOf(s, thread).In? && Below(identifier, s.store.next) && PointFits(point, s.store.next)
    ensures var s' := s.(store := Bind(s.store, CallsOf(s, thread).top.connection, identifier));
            Valid(At(s', thread, point)) && Valid(Done(s', thread))
  {
    MoveKeeps(s, Bind(s.store, CallsOf(s, thread).top.connection, identifier), thread, point);
  }

  lemma FitsAt(s: System, thread: int)
    requires Valid(s) && CallsOf(s, thread).In?
    ensures PointFits(CallsOf(s, thread).top.point, s.store.next)
  {
  }

  lemma GoKeeps(s: System, a: Action)
    requires Valid(s) && Plausible(a) && a.Go? && CallsOf(s, a.thread).In?
    ensures Valid(Gone(s, a))
  {
    var l := CallsOf(s, a.thread).top;
    FitsAt(s, a.thread);
    match l.point {
      case Start => MoveKeeps(s, s.store, a.thread, Opened(l, Bound(s.store, l.connection)));
      case ClosingPrevious(previous) => GoFinishes(s, a, Some(previous), Shut, Reserving);
      case Reserving => GoReserves(s, a);
      case Binding(reserved) => BindKeeps(s, a.thread, reserved, Original(reserved));
      case Original(identifier) => {
        var next := AfterOriginal(l.hook, identifier, a.answer);
        MoveKeeps(s, s.store, a.thread, if next.Some? then next.value else Releasing);
      }
      case Ending(identifier, ending) => GoFinishes(s, a, identifier, ending, Releasing);
      case Releasing => BindKeeps(s, a.thread, None, Releasing);
    }
  }

  lemma StepKeeps(s: System, a: Action)
    requires Valid(s) && Plausible(a)
    ensures Valid(Step(s, a))
  {
    var calls := CallsOf(s, a.thread);
    if a.Go? && calls.In? {
      GoKeeps(s, a);
    } else if a.GivesUp? && calls.In? {
      MoveKeeps(s, s.store, a.thread, Original(None));
    }
  }

  ghost predicate AllPlausible(actions: seq<Action>) {
    forall i :: 0 <= i < |actions| ==> Plausible(actions[i])
  }

  lemma {:induction false} RunKeeps(s: System, actions: seq<Action>)
    requires Valid(s) && AllPlausible(actions)
    ensures Valid(Run(s, actions)) && Run(s, actions).pid == s.pid
    decreases |actions|
  {
    if actions != [] {
      StepKeeps(s, actions[0]);
      RunKeeps(Step(s, actions[0]), actions[1..]);
    }
  }

  /** A record is accepted exactly when its error type, if it has one, is not empty. */
  lemma AcceptedIff(s: Store, pid: int, id: nat)
    requires ValidStore(s, pid) && id in s.records
    ensures var r := s.records[id];
            AcceptedRecord(r, pid) <==> (r.errorType.Some? ==> IsText(r.errorType.value))
  {
  }

  /** Errors whose class name is not empty. */
  ghost predicate Named(actions: seq<Action>) {
    forall i :: 0 <= i < |actions| && actions[i].Go? && actions[i].answer.Raised? ==> actions[i].answer.name != ""
  }

  predicate PointNamed(point: Point) {
    point.Ending? && point.ending.Failed? ==> point.ending.errorType != ""
  }

  predicate CallsNamed(calls: Calls) {
    calls.In? ==> PointNamed(calls.top.point) && CallsNamed(calls.rest)
  }

  ghost predicate ErrorsNamed(s: System) {
    && (forall id :: id in s.store.records && s.store.records[id].errorType.Some? ==> s.store.records[id].errorType.value != "")
    && (forall t :: t in s.threads ==> CallsNamed(s.threads[t]))
  }

  lemma FinishNamed(s: Store, identifier: Option<nat>, ending: Ending, monotonic: int)
    requires forall id :: id in s.records && s.records[id].errorType.Some? ==> s.records[id].errorType.value != ""
    requires ending.Failed? ==> ending.errorType != ""
    ensures var s' := Finish(s, identifier, ending, monotonic);
            forall id :: id in s'.records && s'.records[id].errorType.Some? ==> s'.records[id].errorType.value != ""
  {
  }

  lemma StepNamed(s: System, a: Action)
    requires ErrorsNamed(s) && (a.Go? && a.answer.Raised? ==> a.answer.name != "")
    ensures ErrorsNamed(Step(s, a))
  {
    if a.Go? && CallsOf(s, a.thread).In? {
      match CallsOf(s, a.thread).top.point {
        case ClosingPrevious(previous) => FinishNamed(s.store, Some(previous), Shut, a.monotonic);
        case Ending(identifier, ending) => FinishNamed(s.store, identifier, ending, a.monotonic);
        case _ =>
      }
    }
  }

  lemma {:induction false} RunNamed(s: System, actions: seq<Action>)
    requires ErrorsNamed(s) && Named(actions)
    ensures ErrorsNamed(Run(s, actions))
    decreases |actions|
  {
    if actions != [] {
      StepNamed(s, actions[0]);
      RunNamed(Step(s, actions[0]), actions[1..]);
    }
  }

  /**
   However the hooks of all threads are interleaved: as long as no exception class has an empty name, every record passes
   the reader's check at every moment; and records and drops add up to the reservations.
   */
  lemma EveryRecordAccepted(pid: int, actions: seq<Action>)
    requires 0 < pid && AllPlausible(actions) && Named(actions)
    ensures var s := Run(Initial(pid), actions).store;
            && (forall id :: id in s.records ==> AcceptedRecord(s.records[id], pid) && s.records[id].id == id)
            && (s.dropped < MAX_INTEGER ==> |s.records| + s.dropped == s.reservations)
            && |s.records| <= MAX_RECORDS
  {
    assert Numbered(Initial(pid).store);
    RunKeeps(Initial(pid), actions);
    RunNamed(Initial(pid), actions);
  }

  // ----- How a record may still change -----

  predicate Final(outcome: Outcome) {
    outcome.Response? || outcome.RequestError?
  }

  /** What a record may become: its duration is set once, and only a closed one is given another outcome. */
  predicate Becomes(r: Record, r': Record) {
    && r'.(duration := r.duration, status := r.status, outcome := r.outcome, errorType := r.errorType) == r
    && (r.duration.Some? ==> r'.duration == r.duration)
    && (Final(r.outcome) ==> r' == r)
    && (r.outcome.Closed? ==> r' == r || Final(r'.outcome))
  }

  lemma StepBecomes(s: System, a: Action, id: nat)
    requires Valid(s) && id in s.store.records
    ensures id in Step(s, a).store.records && Becomes(s.store.records[id], Step(s, a).store.records[id])
  {
    if a.Go? && CallsOf(s, a.thread).In? {
      match CallsOf(s, a.thread).top.point {
        case ClosingPrevious(previous) => FinishBecomes(s.store, Some(previous), Shut, a.monotonic, id);
        case Ending(identifier, ending) => FinishBecomes(s.store, identifier, ending, a.monotonic, id);
        case Reserving => assert id != s.store.next;
        case _ =>
      }
    }
  }

  lemma FinishBecomes(s: Store, identifier: Option<nat>, ending: Ending, monotonic: int, id: nat)
    requires id in s.records && AcceptedShape(s.records[id])
    ensures id in Finish(s, identifier, ending, monotonic).records
    ensures Becomes(s.records[id], Finish(s, identifier, ending, monotonic).records[id])
  {
  }

  /** No run unsets a record's duration, changes it, or takes back a response or an error. */
  lemma {:induction false} RunBecomes(s: System, actions: seq<Action>, id: nat)
    requires Valid(s) && AllPlausible(actions) && id in s.store.records
    ensures id in Run(s, actions).store.records && Becomes(s.store.records[id], Run(s, actions).store.records[id])
    decreases |actions|
  {
    if actions != [] {
      StepKeeps(s, actions[0]);
      StepBecomes(s, actions[0], id);
      RunBecomes(Step(s, actions[0]), actions[1..], id);
    }
  }

  // ----- What a record says -----

  function Clamped(n: int): nat {
    if n > 0 then n else 0
  }

  /** A text cut off at the bound. */
  predicate IsCut(text: string, whole: string) {
    if |whole| <= MAX_ERROR_TYPE then text == whole else |text| == MAX_ERROR_TYPE && text == whole[..MAX_ERROR_TYPE]
  }

  /** How a wrapped call went, as its record says. */
  predicate IsAnswer(r: Record, answer: Answer) {
    match answer
    case Returned(status) =>
      && r.outcome.Response? && r.errorType.None?
      && r.status == (if status.Some? && 100 <= status.value <= 999 then status else None)
    case Raised(name) =>
      r.outcome.RequestError? && r.status.None? && r.errorType.Some? && IsCut(r.errorType.value, name)
  }

  /** A thread that has put down how its call went goes on to write it, unless the record is finished already. */
  lemma EndingTells(s: System, a: Action, id: nat)
    requires Valid(s) && a.Go? && CallsOf(s, a.thread).In? && id in s.store.records
    requires CallsOf(s, a.thread).top.point.Ending? && CallsOf(s, a.thread).top.point.identifier == Some(id)
    ensures var r, r' := s.store.records[id], Gone(s, a).store.records[id];
            match CallsOf(s, a.thread).top.point.ending
            case Shut => if r.outcome.Unknown? then r'.outcome.Closed? && r'.status.None? && r'.errorType.None? else r' == r
            case Failed(name) => if Final(r.outcome) then r' == r else IsAnswer(r', Raised(name))
            case Responded(status) =>
              if Final(r.outcome) then r' == r else r'.outcome.Response? && r'.status == status && r'.errorType.None?
  {
  }

  /** A new request on a connection closes the record of the one before it, unless that is finished already. */
  lemma ClosingTells(s: System, a: Action, id: nat)
    requires Valid(s) && a.Go? && CallsOf(s, a.thread).In? && id in s.store.records
    requires CallsOf(s, a.thread).top.point == ClosingPrevious(id)
    ensures var r, r' := s.store.records[id], Gone(s, a).store.records[id];
            if r.outcome.Unknown? then r'.outcome.Closed? && r'.status.None? && r'.errorType.None? else r' == r
  {
  }

  /** What the wrapped call does decides what is put down. */
  lemma AnswerTells(s: System, a: Action)
    requires a.Go? && CallsOf(s, a.thread).In? && CallsOf(s, a.thread).top.point.Original?
    ensures var l := CallsOf(s, a.thread).top;
            var after := CallsOf(Gone(s, a), a.thread);
            if l.hook.Close? || l.hook.GetResponse? || a.answer.Raised? then
              && after.In? && after.top.point.Ending? && after.top.point.identifier == l.point.identifier
              && var ending := after.top.point.ending;
                 if l.hook.Close? then ending == Shut
                 else if a.answer.Raised? then ending == Failed(a.answer.name)
                 else ending == Responded(if a.answer.status.Some? && 100 <= a.answer.status.value <= 999 then a.answer.status
                                          else None)
            else after == CallsOf(s, a.thread).rest
  {
  }

  /** A hook that has written its ending lets go of the connection, and returns to the call it was in. */
  lemma ReleasingTells(s: System, a: Action)
    requires a.Go? && CallsOf(s, a.thread).In? && CallsOf(s, a.thread).top.point.Releasing?
    ensures var s', k := Gone(s, a), CallsOf(s, a.thread).top.connection;
            && CallsOf(s', a.thread) == CallsOf(s, a.thread).rest && s'.store.records == s.store.records
            && Bound(s'.store, k) == None
            && forall l :: l != k ==> Bound(s'.store, l) == Bound(s.store, l)
  {
  }

  /** A hook that fails leaves records and connections alone; one that reserves lets the request go on without a record. */
  lemma GivesUpTells(s: System, thread: int)
    requires CallsOf(s, thread).In?
    ensures var s', l := Step(s, GivesUp(thread)), CallsOf(s, thread).top;
            && s'.store == s.store
            && if l.hook.PutRequest? && !l.point.Original? && !l.point.Ending? && !l.point.Releasing? then
                 CallsOf(s', thread) == In(l.(point := Original(None)), CallsOf(s, thread).rest)
               else CallsOf(s', thread) == CallsOf(s, thread).rest
  {
  }

  /** The readings of the clock when a record was made, and when it was first finished. */
  datatype Times = Times(started: int, ended: Option<int>)

  predicate HasTimes(store: Store, id: nat, times: Option<Times>) {
    if times.None? then id !in store.records
    else
      && id in store.records && store.records[id].startedMonotonic == times.value.started
      && store.records[id].duration
         == if times.value.ended.None? then None else Some(Clamped(times.value.ended.value - times.value.started))
  }

  /** The readings are those of the step that brings a record about, and of the one that gives it a duration. */
  function TimesAfter(s: System, a: Action, id: nat, times: Option<Times>): Option<Times> {
    var records := Step(s, a).store.records;
    if !a.Go? || id !in records then times
    else if times.None? then Some(Times(a.monotonic, None))
    else if times.value.ended.None? && records[id].duration.Some? then Some(times.value.(ended := Some(a.monotonic)))
    else times
  }

  function TimesOf(s: System, actions: seq<Action>, id: nat, times: Option<Times>): Option<Times>
    decreases |actions|
  {
    if actions == [] then times
    else TimesOf(Step(s, actions[0]), actions[1..], id, TimesAfter(s, actions[0], id, times))
  }

  lemma FinishTimes(s: Store, identifier: Option<nat>, ending: Ending, monotonic: int, id: nat)
    requires id in s.records
    ensures var r, r' := s.records[id], Finish(s, identifier, ending, monotonic).records[id];
            && r'.startedMonotonic == r.startedMonotonic
            && (r'.duration == r.duration
                || (r.duration.None? && r'.duration == Some(Clamped(monotonic - r.startedMonotonic))))
  {
  }

  /** Finishing a record, this one or another, keeps to its times. */
  lemma FinishKeepsTimes(s: System, a: Action, identifier: Option<nat>, ending: Ending, point: Point, id: nat,
                         times: Option<Times>)
    requires Valid(s) && HasTimes(s.store, id, times) && a.Go? && CallsOf(s, a.thread).In?
    requires Step(s, a) == At(s.(store := Finish(s.store, identifier, ending, a.monotonic)), a.thread, point)
    ensures HasTimes(Step(s, a).store, id, TimesAfter(s, a, id, times))
  {
    if id in s.store.records {
      FinishTimes(s.store, identifier, ending, a.monotonic, id);
    }
  }

  lemma ReserveTimes(s: System, a: Action, id: nat, times: Option<Times>)
    requires Valid(s) && HasTimes(s.store, id, times) && a.Go? && CallsOf(s, a.thread).In?
    requires CallsOf(s, a.thread).top.point.Reserving?
    ensures HasTimes(Step(s, a).store, id, TimesAfter(s, a, id, times))
  {
    assert id == s.store.next ==> id !in s.store.records;
  }

  lemma StepTimes(s: System, a: Action, id: nat, times: Option<Times>)
    requires Valid(s) && HasTimes(s.store, id, times)
    ensures HasTimes(Step(s, a).store, id, TimesAfter(s, a, id, times))
  {
    if a.Go? && CallsOf(s, a.thread).In? {
      match CallsOf(s, a.thread).top.point {
        case ClosingPrevious(previous) => FinishKeepsTimes(s, a, Some(previous), Shut, Reserving, id, times);
        case Ending(identifier, ending) => FinishKeepsTimes(s, a, identifier, ending, Releasing, id, times);
        case Reserving => ReserveTimes(s, a, id, times);
        case _ => assert Step(s, a).store.records == s.store.records;
      }
    } else {
      assert Step(s, a).store == s.store;
    }
  }

  lemma {:induction false} RunTimes(s: System, actions: seq<Action>, id: nat, times: Option<Times>)
    requires Valid(s) && AllPlausible(actions) && HasTimes(s.store, id, times)
    ensures HasTimes(Run(s, actions).store, id, TimesOf(s, actions, id, times))
    decreases |actions|
  {
    if actions != [] {
      StepKeeps(s, actions[0]);
      StepTimes(s, actions[0], id, times);
      RunTimes(Step(s, actions[0]), actions[1..], id, TimesAfter(s, actions[0], id, times));
    }
  }

  /** In every run a record lasted from the reading that made it to the one that first finished it, or not less than nothing. */
  lemma DurationsTold(pid: int, actions: seq<Action>, id: nat)
    requires 0 < pid && AllPlausible(actions)
    ensures HasTimes(Run(Initial(pid), actions).store, id, TimesOf(Initial(pid), actions, id, None))
  {
    assert Numbered(Initial(pid).store);
    RunTimes(Initial(pid), actions, id, None);
  }

  /** A record is made of what was asked for, when it was, in the process that asked. */
  lemma ReservedTells(s: System, a: Action)
    requires Valid(s) && a.Go? && CallsOf(s, a.thread).In?
    requires CallsOf(s, a.thread).top.point.Reserving? && CallsOf(s, a.thread).top.hook.PutRequest?
    ensures var s', request := Gone(s, a), CallsOf(s, a.thread).top.hook;
            if |s.store.records| < MAX_RECORDS then
              && s.store.next !in s.store.records && s.store.next in s'.store.records
              && CallsOf(s', a.thread).top.point == Binding(Some(s.store.next))
              && var r := s'.store.records[s.store.next];
                 && Asked(r, request) && r.pid == s.pid && r.startedAt == a.now && r.startedMonotonic == a.monotonic
                 && r.adapter == STDLIB && r.outcome.Unknown?
            else s'.store.records == s.store.records && CallsOf(s', a.thread).top.point == Binding(None)
  {
  }

  /** An exception whose class has no name leaves a record the reader rejects. */
  lemma UnnamedErrorRejected(r: Record, pid: int, monotonic: int)
    requires r.outcome.Unknown? && Sound(r, pid)
    ensures !AcceptedRecord(Finished(r, Failed(""), monotonic), pid)
  {
  }

  /** Such a record comes about: a program's first request, whose wrapped call raises an exception without a name. */
  lemma UnnamedErrorReached(pid: int, thread: int, request: Hook, connection: int)
    requires 0 < pid && request.PutRequest?
    ensures var go := Go(thread, 1, 0, Raised(""));
            var actions := [Call(thread, request, connection), go, go, go, go, go];
            var records := Run(Initial(pid), actions).store.records;
            AllPlausible(actions) && 0 in records && !AcceptedRecord(records[0], pid)
  {
    var go := Go(thread, 1, 0, Raised(""));
    var called := Step(Initial(pid), Call(thread, request, connection));
    var looked := Step(called, go);
    var reserved := Step(looked, go);
    assert reserved.store.records[0] == Reserves(looked, request, go).0.records[0];
    var bound := Step(reserved, go);
    var raised := Step(bound, go);
    assert CallsOf(raised, thread).top.point == Ending(Some(0), Failed(""));
    var ended := Step(raised, go);
    RunOfSix(Initial(pid), Call(thread, request, connection), go, go, go, go, go);
    assert ended.store.records[0].errorType == Some("");
  }

  lemma RunsFirst(s: System, a: Action, rest: seq<Action>, all: seq<Action>)
    requires all == [a] + rest
    ensures Run(s, all) == Run(Step(s, a), rest)
  {
    assert all[0] == a && all[1..] == rest;
  }

  lemma RunOfSix(s: System, a: Action, b: Action, c: Action, d: Action, e: Action, f: Action)
    ensures Run(s, [a, b, c, d, e, f]) == Step(Step(Step(Step(Step(Step(s, a), b), c), d), e), f)
  {
    RunsFirst(s, a, [b, c, d, e, f], [a, b, c, d, e, f]);
    RunsFirst(Step(s, a), b, [c, d, e, f], [b, c, d, e, f]);
    var third := Step(Step(s, a), b);
    RunsFirst(third, c, [d, e, f], [c, d, e, f]);
    RunsFirst(Step(third, c), d, [e, f], [d, e, f]);
    RunsFirst(Step(Step(third, c), d), e, [f], [e, f]);
    RunsFirst(Step(Step(Step(third, c), d), e), f, [], [f]);
  }

  // ----- What is done on other connections -----

  predicate Mentions(point: Point, id: nat) {
    match point
    case ClosingPrevious(previous) => previous == id
    case Binding(reserved) => reserved == Some(id)
    case Original(identifier) => identifier == Some(id)
    case Ending(identifier, _) => identifier == Some(id)
    case _ => false
  }

  /** The calls that are on one connection. */
  function On(calls: Calls, k: int): Calls {
    if calls.Idle? then Idle
    else if calls.top.connection == k then In(calls.top, On(calls.rest, k))
    else On(calls.rest, k)
  }

  /** Calls on other connections do not know of the record. */
  predicate Apart(calls: Calls, k: int, id: nat) {
    calls.In? ==> (calls.top.connection == k || !Mentions(calls.top.point, id)) && Apart(calls.rest, k, id)
  }

  /** Outside of connection `k` nobody knows of the record. */
  ghost predicate Alone(s: System, k: int, id: nat) {
    && (forall t :: t in s.threads ==> Apart(s.threads[t], k, id))
    && KnownElsewhere(s.store, k, id)
  }

  ghost predicate KnownElsewhere(store: Store, k: int, id: nat) {
    id < store.next && forall l :: l in store.bindings && l != k ==> store.bindings[l] != id
  }

  /** An action on the connection. */
  predicate Touches(s: System, a: Action, k: int) {
    if a.Call? then a.connection == k else CallsOf(s, a.thread).In? && CallsOf(s, a.thread).top.connection == k
  }

  /** What record and connection are at. */
  ghost predicate Same(s: System, s': System, k: int, id: nat) {
    SameCalls(s, s', k) && SameRecord(s.store, s'.store, k, id)
  }

  ghost predicate SameCalls(s: System, s': System, k: int) {
    forall t :: On(CallsOf(s', t), k) == On(CallsOf(s, t), k)
  }

  ghost predicate SameRecord(store: Store, store': Store, k: int, id: nat) {
    && Bound(store', k) == Bound(store, k)
    && (id in store.records <==> id in store'.records)
    && (id in store.records ==> store'.records[id] == store.records[id])
  }

  /** What one region of a hook elsewhere may leave behind. */
  lemma MoveElsewhere(s: System, store: Store, u: int, point: Point, k: int, id: nat)
    requires Alone(s, k, id) && CallsOf(s, u).In? && CallsOf(s, u).top.connection != k
    requires KnownElsewhere(store, k, id) && SameRecord(s.store, store, k, id) && !Mentions(point, id)
    ensures var s' := At(s.(store := store), u, point);
            Alone(s', k, id) && Same(s, s', k, id)
    ensures var s' := Done(s.(store := store), u);
            Alone(s', k, id) && Same(s, s', k, id)
  {
  }

  lemma ReservesElsewhere(s: System, a: Action, k: int, id: nat)
    requires Valid(s) && Alone(s, k, id) && a.Go? && CallsOf(s, a.thread).In?
    requires CallsOf(s, a.thread).top.connection != k && CallsOf(s, a.thread).top.point.Reserving?
    ensures Alone(Gone(s, a), k, id) && Same(s, Gone(s, a), k, id)
  {
    var l := CallsOf(s, a.thread).top;
    if l.hook.PutRequest? {
      var reserved := Reserves(s, l.hook, a);
      assert reserved.1 != Some(id);
      MoveElsewhere(s, reserved.0, a.thread, Binding(reserved.1), k, id);
    }
  }

  lemma BindsElsewhere(s: System, u: int, identifier: Option<nat>, point: Point, k: int, id: nat)
    requires Alone(s, k, id) && CallsOf(s, u).In? && CallsOf(s, u).top.connection != k
    requires identifier != Some(id) && !Mentions(point, id)
    ensures var s' := s.(store := Bind(s.store, CallsOf(s, u).top.connection, identifier));
            && Alone(At(s', u, point), k, id) && Same(s, At(s', u, point), k, id)
            && Alone(Done(s', u), k, id) && Same(s, Done(s', u), k, id)
  {
    MoveElsewhere(s, Bind(s.store, CallsOf(s, u).top.connection, identifier), u, point, k, id);
  }

  lemma FinishesElsewhere(s: System, u: int, identifier: Option<nat>, ending: Ending, monotonic: int, point: Point, k: int,
                          id: nat)
    requires Alone(s, k, id) && CallsOf(s, u).In? && CallsOf(s, u).top.connection != k
    requires identifier != Some(id) && !Mentions(point, id)
    ensures var s' := At(s.(store := Finish(s.store, identifier, ending, monotonic)), u, point);
            Alone(s', k, id) && Same(s, s', k, id)
  {
    MoveElsewhere(s, Finish(s.store, identifier, ending, monotonic), u, point, k, id);
  }

  lemma GoElsewhere(s: System, a: Action, k: int, id: nat)
    requires Valid(s) && Alone(s, k, id) && a.Go? && CallsOf(s, a.thread).In?
    requires CallsOf(s, a.thread).top.connection != k
    ensures Alone(Gone(s, a), k, id) && Same(s, Gone(s, a), k, id)
  {
    var u := a.thread;
    var l := CallsOf(s, u).top;
    assert !Mentions(l.point, id);
    match l.point {
      case Start => MoveElsewhere(s, s.store, u, Opened(l, Bound(s.store, l.connection)), k, id);
      case ClosingPrevious(previous) => FinishesElsewhere(s, u, Some(previous), Shut, a.monotonic, Reserving, k, id);
      case Reserving => ReservesElsewhere(s, a, k, id);
      case Binding(reserved) => BindsElsewhere(s, u, reserved, Original(reserved), k, id);
      case Original(identifier) => {
        var next := AfterOriginal(l.hook, identifier, a.answer);
        MoveElsewhere(s, s.store, u, if next.Some? then next.value else Releasing, k, id);
      }
      case Ending(identifier, ending) => FinishesElsewhere(s, u, identifier, ending, a.monotonic, Releasing, k, id);
      case Releasing => BindsElsewhere(s, u, None, Releasing, k, id);
    }
  }

  lemma StepElsewhere(s: System, a: Action, k: int, id: nat)
    requires Valid(s) && Alone(s, k, id) && !Touches(s, a, k)
    ensures Alone(Step(s, a), k, id) && Same(s, Step(s, a), k, id)
  {
    if a.Go? && CallsOf(s, a.thread).In? {
      GoElsewhere(s, a, k, id);
    } else if a.GivesUp? && CallsOf(s, a.thread).In? {
      MoveElsewhere(s, s.store, a.thread, Original(None), k, id);
    }
  }

  ghost predicate NeverTouches(s: System, actions: seq<Action>, k: int)
    decreases |actions|
  {
    actions == [] || (!Touches(s, actions[0], k) && NeverTouches(Step(s, actions[0]), actions[1..], k))
  }

  /** Whatever any thread does on other connections, it leaves a request's record, its binding and its calls as they are. */
  lemma {:induction false} RunElsewhere(s: System, actions: seq<Action>, k: int, id: nat)
    requires Valid(s) && Alone(s, k, id) && AllPlausible(actions) && NeverTouches(s, actions, k)
    ensures Alone(Run(s, actions), k, id) && Same(s, Run(s, actions), k, id)
    decreases |actions|
  {
    if actions != [] {
      StepKeeps(s, actions[0]);
      StepElsewhere(s, actions[0], k, id);
      RunElsewhere(Step(s, actions[0]), actions[1..], k, id);
    }
  }

  /** Before anything is reserved, too, other connections leave the calls on this one alone. */
  lemma CallsElsewhere(s: System, a: Action, k: int)
    requires !Touches(s, a, k)
    ensures SameCalls(s, Step(s, a), k)
  {
    var calls := CallsOf(s, a.thread);
    if calls.In? {
      assert On(calls, k) == (if calls.top.connection == k then In(calls.top, On(calls.rest, k)) else On(calls.rest, k));
    }
  }

  // ----- One request and its response -----

  /**
   How far a thread has come with a request on a connection: the readings of the clock when its record was made and when it
   was first finished, and how the wrapped call went that ended the request.
   */
  datatype Stage =
    | Opening
    | Unrecorded
    | Flying(id: nat, started: int, ended: Option<int>)
    | Answered(id: nat, started: int, ended: Option<int>, answer: Answer)
    | Recorded(id: nat, started: int, finished: int, answer: Answer)

  /** The stage after one action of the thread on the connection. */
  function NextStage(s: System, a: Action, t: int, k: int, stage: Stage): Stage {
    if !(a.Go? && a.thread == t && Touches(s, a, k)) then stage
    else
      var l := CallsOf(s, t).top;
      match stage
      case Opening =>
        if l.point.Reserving? && l.hook.PutRequest? then
          if |s.store.records| < MAX_RECORDS then Flying(s.store.next, a.monotonic, None) else Unrecorded
        else Opening
      case Flying(id, started, ended) =>
        if l.hook.Close? then
          if l.point.Ending? && l.point.identifier == Some(id) && ended.None? then Flying(id, started, Some(a.monotonic))
          else stage
        else if l.point.Original? && (l.hook.GetResponse? || a.answer.Raised?) then Answered(id, started, ended, a.answer)
        else stage
      case Answered(id, started, ended, answer) =>
        Recorded(id, started, if ended.Some? then ended.value else a.monotonic, answer)
      case _ => stage
  }

  /**
   How a request is made. Nobody but the thread works on its connection, and its hooks run without an error; after `putrequest`
   it calls `endheaders`, any number of times, and then `getresponse`, within which the connection may be closed, until one of
   the calls raises or `getresponse` returns. What happens on other connections, by the thread itself too, is free.
   */
  predicate Orderly(s: System, a: Action, t: int, k: int, stage: Stage) {
    Touches(s, a, k) ==>
      a.thread == t && OrderlyHere(a, CallsOf(s, t), On(CallsOf(s, t), k), stage)
  }

  predicate OrderlyHere(a: Action, calls: Calls, here: Calls, stage: Stage) {
    match a
    case Call(_, hook, _) =>
      && stage.Flying?
      && (here.Idle? ==> hook.EndHeaders? || hook.GetResponse?)
      && (here.In? ==> here.top.hook.GetResponse? && here.top.point.Original? && hook.Close?)
    case Go(_, _, _, _) => true
    case GivesUp(_) => false
  }

  ghost predicate OrderlyRun(s: System, actions: seq<Action>, t: int, k: int, stage: Stage)
    decreases |actions|
  {
    actions == [] || stage.Recorded? || stage.Unrecorded?
    || (Orderly(s, actions[0], t, k, stage)
        && OrderlyRun(Step(s, actions[0]), actions[1..], t, k, NextStage(s, actions[0], t, k, stage)))
  }

  function StageAfter(s: System, actions: seq<Action>, t: int, k: int, stage: Stage): Stage
    decreases |actions|
  {
    if actions == [] then stage
    else StageAfter(Step(s, actions[0]), actions[1..], t, k, NextStage(s, actions[0], t, k, stage))
  }

  /** No thread but this one is in a call on the connection. */
  ghost predicate Alien(s: System, t: int, k: int) {
    forall u :: u != t ==> On(CallsOf(s, u), k) == Idle
  }

  /** The record of the request, which no answer has ended yet; it may have been closed. */
  predicate Pending(store: Store, id: nat, request: Hook, started: int, ended: Option<int>)
    requires request.PutRequest?
  {
    && id in store.records && Asked(store.records[id], request)
    && HasTimes(store, id, Some(Times(started, ended)))
    && (if ended.None? then store.records[id].outcome.Unknown? else store.records[id].outcome.Closed?)
  }

  predicate Asked(r: Record, request: Hook)
    requires request.PutRequest?
  {
    r.verb == HttpMethod(request.verb) && r.scheme == SchemeOf(request) && r.port == HttpPort(request.port, r.scheme)
  }

  /** The calls on the connection while the request is under way, and what it is bound to. */
  predicate Held(here: Calls, bound: Option<nat>, id: nat) {
    match here
    case Idle => bound == Some(id)
    case In(l, Idle) => (
        match l.hook
        case PutRequest(_, _, _) => l.point == Binding(Some(id)) || (l.point == Original(Some(id)) && bound == Some(id))
        case EndHeaders => bound == Some(id) && (l.point.Start? || l.point == Original(Some(id)))
        case GetResponse => (l.point.Start? && bound == Some(id)) || l.point == Original(Some(id))
        case Close => false)
    case In(closing, In(l, rest)) =>
      l.hook.GetResponse? && l.point == Original(Some(id)) && rest.Idle? && closing.hook.Close?
      && !closing.point.ClosingPrevious? && !closing.point.Reserving? && !closing.point.Binding?
      && (closing.point.Ending? ==> closing.point.ending.Shut?)
  }

  ghost predicate Stands(s: System, t: int, k: int, request: Hook, stage: Stage)
    requires request.PutRequest?
  {
    var here := On(CallsOf(s, t), k);
    match stage
    case Opening =>
      Alien(s, t, k) && here.In? && here.rest.Idle? && here.top.hook == request
      && (here.top.point.Start? || here.top.point.ClosingPrevious? || here.top.point.Reserving?)
    case Unrecorded => true
    case Flying(id, started, ended) =>
      && Alien(s, t, k) && Alone(s, k, id) && Pending(s.store, id, request, started, ended)
      && Held(here, Bound(s.store, k), id)
    case Answered(id, started, ended, answer) =>
      && Alien(s, t, k) && Alone(s, k, id) && Pending(s.store, id, request, started, ended)
      && here.In? && here.rest.Idle? && here.top.point == Ending(Some(id), EndingOf(answer))
    case Recorded(id, started, finished, answer) =>
      && id in s.store.records && Asked(s.store.records[id], request) && IsAnswer(s.store.records[id], answer)
      && HasTimes(s.store, id, Some(Times(started, Some(finished))))
  }

  function EndingOf(answer: Answer): Ending {
    if answer.Raised? then Failed(answer.name) else Responded(HttpStatus(answer.status))
  }

  lemma PutAlien(s: System, store: Store, t: int, calls: Calls, k: int)
    requires Alien(s, t, k)
    ensures Alien(Put(s.(store := store), t, calls), t, k)
  {
    var s' := Put(s.(store := store), t, calls);
    forall u | u != t
      ensures On(CallsOf(s', u), k) == Idle
    {
      assert CallsOf(s', u) == CallsOf(s, u);
    }
  }

  /** A move of a thread that is on the connection itself. */
  lemma OwnMove(s: System, store: Store, t: int, point: Point, k: int)
    requires Alien(s, t, k) && CallsOf(s, t).In? && CallsOf(s, t).top.connection == k
    ensures var s' := At(s.(store := store), t, point);
            && Alien(s', t, k)
            && On(CallsOf(s', t), k) == In(CallsOf(s, t).top.(point := point), On(CallsOf(s, t).rest, k))
    ensures var s' := Done(s.(store := store), t);
            Alien(s', t, k) && On(CallsOf(s', t), k) == On(CallsOf(s, t).rest, k)
  {
    var calls := CallsOf(s, t);
    PutAlien(s, store, t, In(calls.top.(point := point), calls.rest), k);
    PutAlien(s, store, t, calls.rest, k);
  }

  lemma OwnAlone(s: System, store: Store, t: int, point: Point, k: int, id: nat)
    requires Alone(s, k, id) && CallsOf(s, t).In? && CallsOf(s, t).top.connection == k && KnownElsewhere(store, k, id)
    ensures Alone(At(s.(store := store), t, point), k, id) && Alone(Done(s.(store := store), t), k, id)
  {
  }

  /** A number that nobody was given yet is known to nobody. */
  lemma {:induction false} FitsApart(calls: Calls, k: int, next: nat)
    requires CallsFit(calls, next)
    ensures Apart(calls, k, next)
  {
    if calls.In? {
      FitsApart(calls.rest, k, next);
    }
  }

  lemma NewIsAlone(s: System, store: Store, k: int)
    requires Valid(s) && store.bindings == s.store.bindings && s.store.next < store.next
    ensures Alone(s.(store := store), k, s.store.next)
  {
    forall t | t in s.threads
      ensures Apart(s.threads[t], k, s.store.next)
    {
      FitsApart(s.threads[t], k, s.store.next);
    }
  }

  /** What `putrequest` does until it has a record. */
  lemma OpeningGoes(s: System, a: Action, t: int, k: int, request: Hook)
    requires Valid(s) && Plausible(a) && request.PutRequest? && Stands(s, t, k, request, Opening)
    requires a.Go? && a.thread == t && Touches(s, a, k)
    ensures Stands(Gone(s, a), t, k, request, NextStage(s, a, t, k, Opening))
  {
    var l := CallsOf(s, t).top;
    match l.point {
      case Start => OwnMove(s, s.store, t, Opened(l, Bound(s.store, k)), k);
      case ClosingPrevious(previous) => OwnMove(s, Finish(s.store, Some(previous), Shut, a.monotonic), t, Reserving, k);
      case Reserving => OpeningReserves(s, a, t, k, request);
      case _ =>
    }
  }

  lemma OpeningReserves(s: System, a: Action, t: int, k: int, request: Hook)
    requires Valid(s) && Plausible(a) && request.PutRequest? && Stands(s, t, k, request, Opening)
    requires a.Go? && a.thread == t && Touches(s, a, k) && CallsOf(s, t).top.point.Reserving?
    ensures Stands(Gone(s, a), t, k, request, NextStage(s, a, t, k, Opening))
  {
    var reserved := Reserves(s, request, a);
    if reserved.1.Some? {
      var id := reserved.1.value;
      OwnMove(s, reserved.0, t, Binding(reserved.1), k);
      NewIsAlone(s, reserved.0, k);
      OwnAlone(s.(store := reserved.0), reserved.0, t, Binding(reserved.1), k, id);
      assert Pending(reserved.0, id, request, a.monotonic, None);
    }
  }

  /** The request's next call of a hook. */
  lemma FlyingCalls(s: System, a: Action, t: int, k: int, request: Hook, stage: Stage)
    requires request.PutRequest? && stage.Flying? && Stands(s, t, k, request, stage) && Orderly(s, a, t, k, stage)
    requires a.Call? && Touches(s, a, k)
    ensures Stands(Step(s, a), t, k, request, stage)
  {
    var calls := CallsOf(s, t);
    if MayCall(calls) {
      var more := In(Local(a.hook, k, Start), calls);
      assert On(more, k) == In(more.top, On(calls, k));
      PutAlien(s, s.store, t, more, k);
      assert Alone(Put(s, t, more), k, stage.id);
    }
  }

  lemma BindsAlone(store: Store, k: int, id: nat, identifier: Option<nat>)
    requires KnownElsewhere(store, k, id)
    ensures KnownElsewhere(Bind(store, k, identifier), k, id) && Bound(Bind(store, k, identifier), k) == identifier
  {
  }

  /** A record closed within the wrapped call still waits for its answer. */
  lemma ClosesPending(store: Store, identifier: Option<nat>, monotonic: int, k: int, id: nat, request: Hook, started: int,
                      ended: Option<int>)
    requires request.PutRequest? && Pending(store, id, request, started, ended) && KnownElsewhere(store, k, id)
    ensures var store' := Finish(store, identifier, Shut, monotonic);
            var ended' := if identifier == Some(id) && ended.None? then Some(monotonic) else ended;
            && Pending(store', id, request, started, ended') && KnownElsewhere(store', k, id)
            && Bound(store', k) == Bound(store, k)
  {
  }

  predicate OwnGo(s: System, a: Action, t: int, k: int) {
    a.Go? && a.thread == t && Touches(s, a, k)
  }

  /** A region that leaves the records alone. */
  lemma OwnPoint(s: System, t: int, k: int, id: nat, point: Point)
    requires Alien(s, t, k) && Alone(s, k, id) && CallsOf(s, t).In? && CallsOf(s, t).top.connection == k
    ensures var s' := At(s, t, point);
            && Alien(s', t, k) && Alone(s', k, id)
            && On(CallsOf(s', t), k) == In(CallsOf(s, t).top.(point := point), On(CallsOf(s, t).rest, k))
    ensures var s' := Done(s, t);
            Alien(s', t, k) && Alone(s', k, id) && On(CallsOf(s', t), k) == On(CallsOf(s, t).rest, k)
  {
    OwnMove(s, s.store, t, point, k);
    OwnAlone(s, s.store, t, point, k, id);
  }

  lemma PutRequestGoes(s: System, a: Action, t: int, k: int, request: Hook, stage: Stage)
    requires request.PutRequest? && stage.Flying? && Stands(s, t, k, request, stage)
    requires OwnGo(s, a, t, k) && CallsOf(s, t).top.hook.PutRequest?
    ensures Stands(Gone(s, a), t, k, request, NextStage(s, a, t, k, stage))
  {
    var l, id := CallsOf(s, t).top, stage.id;
    if l.point.Binding? {
      BindsAlone(s.store, k, id, Some(id));
      OwnMove(s, Bind(s.store, k, Some(id)), t, Original(Some(id)), k);
      OwnAlone(s, Bind(s.store, k, Some(id)), t, Original(Some(id)), k, id);
    } else {
      OwnPoint(s, t, k, id, if a.answer.Raised? then Ending(Some(id), Failed(a.answer.name)) else Releasing);
    }
  }

  lemma EndHeadersGoes(s: System, a: Action, t: int, k: int, request: Hook, stage: Stage)
    requires request.PutRequest? && stage.Flying? && Stands(s, t, k, request, stage)
    requires OwnGo(s, a, t, k) && CallsOf(s, t).top.hook.EndHeaders?
    ensures Stands(Gone(s, a), t, k, request, NextStage(s, a, t, k, stage))
  {
    var l, id := CallsOf(s, t).top, stage.id;
    if l.point.Start? {
      OwnPoint(s, t, k, id, Original(Some(id)));
    } else {
      OwnPoint(s, t, k, id, if a.answer.Raised? then Ending(Some(id), Failed(a.answer.name)) else Releasing);
    }
  }

  lemma GetResponseGoes(s: System, a: Action, t: int, k: int, request: Hook, stage: Stage)
    requires request.PutRequest? && stage.Flying? && Stands(s, t, k, request, stage)
    requires OwnGo(s, a, t, k) && CallsOf(s, t).top.hook.GetResponse?
    ensures Stands(Gone(s, a), t, k, request, NextStage(s, a, t, k, stage))
  {
    var l, id := CallsOf(s, t).top, stage.id;
    OwnPoint(s, t, k, id, if l.point.Start? then Original(Some(id)) else AfterOriginal(GetResponse, Some(id), a.answer).value);
  }

  lemma CloseGoes(s: System, a: Action, t: int, k: int, request: Hook, stage: Stage)
    requires request.PutRequest? && stage.Flying? && Stands(s, t, k, request, stage)
    requires OwnGo(s, a, t, k) && CallsOf(s, t).top.hook.Close?
    ensures Stands(Gone(s, a), t, k, request, NextStage(s, a, t, k, stage))
  {
    var l, id := CallsOf(s, t).top, stage.id;
    match l.point {
      case Start => OwnPoint(s, t, k, id, Original(Bound(s.store, k)));
      case Original(identifier) => OwnPoint(s, t, k, id, Ending(identifier, Shut));
      case Ending(identifier, ending) => {
        ClosesPending(s.store, identifier, a.monotonic, k, id, request, stage.started, stage.ended);
        OwnMove(s, Finish(s.store, identifier, Shut, a.monotonic), t, Releasing, k);
        OwnAlone(s, Finish(s.store, identifier, Shut, a.monotonic), t, Releasing, k, id);
      }
      case Releasing => {
        BindsAlone(s.store, k, id, None);
        OwnMove(s, Bind(s.store, k, None), t, Releasing, k);
        OwnAlone(s, Bind(s.store, k, None), t, Releasing, k, id);
      }
      case _ =>
    }
  }

  lemma AnsweredGoes(s: System, a: Action, t: int, k: int, request: Hook, stage: Stage)
    requires Valid(s) && request.PutRequest? && stage.Answered? && Stands(s, t, k, request, stage) && OwnGo(s, a, t, k)
    ensures Stands(Gone(s, a), t, k, request, NextStage(s, a, t, k, stage))
  {
    EndingTells(s, a, stage.id);
  }

  lemma FlyingGoes(s: System, a: Action, t: int, k: int, request: Hook, stage: Stage)
    requires request.PutRequest? && stage.Flying? && Stands(s, t, k, request, stage) && OwnGo(s, a, t, k)
    ensures Stands(Gone(s, a), t, k, request, NextStage(s, a, t, k, stage))
  {
    match CallsOf(s, t).top.hook
    case PutRequest(_, _, _) => PutRequestGoes(s, a, t, k, request, stage);
    case EndHeaders => EndHeadersGoes(s, a, t, k, request, stage);
    case GetResponse => GetResponseGoes(s, a, t, k, request, stage);
    case Close => CloseGoes(s, a, t, k, request, stage);
  }

  lemma OwnStep(s: System, a: Action, t: int, k: int, request: Hook, stage: Stage)
    requires Valid(s) && Plausible(a) && request.PutRequest? && Stands(s, t, k, request, stage)
    requires Orderly(s, a, t, k, stage) && Touches(s, a, k) && !stage.Unrecorded? && !stage.Recorded?
    ensures Stands(Step(s, a), t, k, request, NextStage(s, a, t, k, stage))
  {
    if stage.Opening? {
      OpeningGoes(s, a, t, k, request);
    } else if stage.Answered? {
      AnsweredGoes(s, a, t, k, request, stage);
    } else if a.Call? {
      FlyingCalls(s, a, t, k, request, stage);
    } else {
      FlyingGoes(s, a, t, k, request, stage);
    }
  }

  /** What others do, or the thread on other connections. */
  lemma OtherStep(s: System, a: Action, t: int, k: int, request: Hook, stage: Stage)
    requires Valid(s) && request.PutRequest? && Stands(s, t, k, request, stage)
    requires !Touches(s, a, k) && !stage.Unrecorded? && !stage.Recorded?
    ensures Stands(Step(s, a), t, k, request, stage)
  {
    CallsElsewhere(s, a, k);
    if !stage.Opening? {
      StepElsewhere(s, a, k, stage.id);
    }
  }

  lemma RecordedStep(s: System, a: Action, t: int, k: int, request: Hook, stage: Stage)
    requires Valid(s) && request.PutRequest? && Stands(s, t, k, request, stage) && stage.Recorded?
    ensures Stands(Step(s, a), t, k, request, stage)
  {
    StepBecomes(s, a, stage.id);
    StepTimes(s, a, stage.id, Some(Times(stage.started, Some(stage.finished))));
  }

  lemma {:induction false} RequestRuns(s: System, actions: seq<Action>, t: int, k: int, request: Hook, stage: Stage)
    requires Valid(s) && AllPlausible(actions) && request.PutRequest? && Stands(s, t, k, request, stage)
    requires OrderlyRun(s, actions, t, k, stage)
    ensures Stands(Run(s, actions), t, k, request, StageAfter(s, actions, t, k, stage))
    decreases |actions|
  {
    if actions != [] {
      var a := actions[0];
      StepKeeps(s, a);
      if stage.Recorded? {
        RecordedStep(s, a, t, k, request, stage);
      } else if !stage.Unrecorded? {
        if Touches(s, a, k) {
          OwnStep(s, a, t, k, request, stage);
        } else {
          OtherStep(s, a, t, k, request, stage);
        }
      }
      RequestRuns(Step(s, a), actions[1..], t, k, request, NextStage(s, a, t, k, stage));
    }
  }

  /**
   An answer ends the record of the request it belongs to. From any state a program can be in, once a thread calls
   `putrequest` on a connection that nobody is working on: in every orderly run the record reserved in it, and no other, says
   how the request ended, by the response to `getresponse` or by the exception of one of the calls, even if the connection was
   closed within `getresponse`; it lasted from the reading that made it to the one that closed or ended it; and it stays so.
   */
  lemma ResponseReachesRequest(s: System, actions: seq<Action>, t: int, k: int, request: Hook)
    requires Valid(s) && AllPlausible(actions) && request.PutRequest?
    requires MayCall(CallsOf(s, t)) && forall u :: On(CallsOf(s, u), k) == Idle
    requires OrderlyRun(Step(s, Call(t, request, k)), actions, t, k, Opening)
    ensures var called := Step(s, Call(t, request, k));
            var store := Run(called, actions).store;
            match StageAfter(called, actions, t, k, Opening)
            case Opening => true
            case Unrecorded => true
            case Recorded(id, started, finished, answer) =>
              && id in store.records && Asked(store.records[id], request) && IsAnswer(store.records[id], answer)
              && store.records[id].duration == Some(Clamped(finished - started))
            case Flying(id, started, ended) => Pending(store, id, request, started, ended)
            case Answered(id, started, ended, _) => Pending(store, id, request, started, ended)
  {
    var called := Step(s, Call(t, request, k));
    StepKeeps(s, Call(t, request, k));
    var more := In(Local(request, k, Start), CallsOf(s, t));
    assert On(more, k) == In(more.top, On(CallsOf(s, t), k));
    PutAlien(s, s.store, t, more, k);
    RequestRuns(called, actions, t, k, request, Opening);
  }

  // ----- Orderly runs do get responses -----

  ghost predicate Reaches(s: System, t: int, k: int, stage: Stage, status: Option<int>) {
    exists actions: seq<Action> ::
      && AllPlausible(actions) && OrderlyRun(s, actions, t, k, stage)
      && IsRecorded(StageAfter(s, actions, t, k, stage), status)
  }

  predicate IsRecorded(stage: Stage, status: Option<int>) {
    stage.Recorded? && stage.answer == Returned(status)
  }

  lemma ReachesFrom(s: System, a: Action, t: int, k: int, stage: Stage, status: Option<int>)
    requires Plausible(a) && Orderly(s, a, t, k, stage)
    requires Reaches(Step(s, a), t, k, NextStage(s, a, t, k, stage), status)
    ensures Reaches(s, t, k, stage, status)
  {
    var rest: seq<Action> :| AllPlausible(rest) && OrderlyRun(Step(s, a), rest, t, k, NextStage(s, a, t, k, stage))
                             && IsRecorded(StageAfter(Step(s, a), rest, t, k, NextStage(s, a, t, k, stage)), status);
    var actions := [a] + rest;
    assert actions[0] == a && actions[1..] == rest;
    assert AllPlausible(actions);
    assert OrderlyRun(s, actions, t, k, stage);
    assert StageAfter(s, actions, t, k, stage) == StageAfter(Step(s, a), rest, t, k, NextStage(s, a, t, k, stage));
  }

  predicate IsAt(s: System, t: int, k: int, hook: Hook, point: Point) {
    CallsOf(s, t) == In(Local(hook, k, point), Idle)
  }

  lemma AnswerComes(s: System, t: int, k: int, stage: Stage, status: Option<int>)
    requires stage.Flying? && IsAt(s, t, k, GetResponse, Original(Some(stage.id)))
    ensures Reaches(s, t, k, stage, status)
  {
    var go := Go(t, 1, 0, Returned(status));
    var answered := Step(s, go);
    var waiting := NextStage(s, go, t, k, stage);
    var recorded := NextStage(answered, go, t, k, waiting);
    assert OrderlyRun(Step(answered, go), [], t, k, recorded);
    assert IsRecorded(StageAfter(Step(answered, go), [], t, k, recorded), status);
    ReachesFrom(answered, go, t, k, waiting, status);
    ReachesFrom(s, go, t, k, stage, status);
  }

  /** The connection has been closed, and its record is about to be. */
  lemma CloseEnds(s: System, t: int, k: int, stage: Stage, status: Option<int>)
    requires stage.Flying? && CallsOf(s, t).In? && CallsOf(s, t).top.hook.Close? && CallsOf(s, t).top.connection == k
    requires CallsOf(s, t).top.point.Ending?
    requires CallsOf(s, t).rest == In(Local(GetResponse, k, Original(Some(stage.id))), Idle)
    ensures Reaches(s, t, k, stage, status)
  {
    var go := Go(t, 1, 0, Returned(None));
    var ended := Step(s, go);
    var after := NextStage(s, go, t, k, stage);
    AnswerComes(Step(ended, go), t, k, after, status);
    ReachesFrom(ended, go, t, k, after, status);
    ReachesFrom(s, go, t, k, stage, status);
  }

  /** The connection is closed within the wrapped call, before the answer comes. */
  lemma ClosesWithin(s: System, t: int, k: int, stage: Stage, status: Option<int>)
    requires stage.Flying? && IsAt(s, t, k, GetResponse, Original(Some(stage.id)))
    ensures Reaches(s, t, k, stage, status)
  {
    var go := Go(t, 1, 0, Returned(None));
    var called := Step(s, Call(t, Close, k));
    var looked := Step(called, go);
    CloseEnds(Step(looked, go), t, k, stage, status);
    ReachesFrom(looked, go, t, k, stage, status);
    ReachesFrom(called, go, t, k, stage, status);
    ReachesFrom(s, Call(t, Close, k), t, k, stage, status);
  }

  lemma ResponseAsked(s: System, t: int, k: int, stage: Stage, status: Option<int>)
    requires stage.Flying? && CallsOf(s, t) == Idle && Bound(s.store, k) == Some(stage.id)
    ensures Reaches(s, t, k, stage, status)
  {
    var go := Go(t, 1, 0, Returned(None));
    var asked := Step(s, Call(t, GetResponse, k));
    ClosesWithin(Step(asked, go), t, k, stage, status);
    ReachesFrom(asked, go, t, k, stage, status);
    ReachesFrom(s, Call(t, GetResponse, k), t, k, stage, status);
  }

  lemma HeadersSent(s: System, t: int, k: int, stage: Stage, status: Option<int>)
    requires stage.Flying? && CallsOf(s, t) == Idle && Bound(s.store, k) == Some(stage.id)
    ensures Reaches(s, t, k, stage, status)
  {
    var go := Go(t, 1, 0, Returned(None));
    var called := Step(s, Call(t, EndHeaders, k));
    var sending := Step(called, go);
    ResponseAsked(Step(sending, go), t, k, stage, status);
    ReachesFrom(sending, go, t, k, stage, status);
    ReachesFrom(called, go, t, k, stage, status);
    ReachesFrom(s, Call(t, EndHeaders, k), t, k, stage, status);
  }

  lemma RequestReserves(s: System, t: int, k: int, request: Hook, status: Option<int>)
    requires request.PutRequest? && IsAt(s, t, k, request, Reserving) && |s.store.records| < MAX_RECORDS
    ensures Reaches(s, t, k, Opening, status)
  {
    var go := Go(t, 1, 0, Returned(None));
    var flying := Flying(s.store.next, 0, None);
    var reserved := Step(s, go);
    var bound := Step(reserved, go);
    HeadersSent(Step(bound, go), t, k, flying, status);
    ReachesFrom(bound, go, t, k, flying, status);
    ReachesFrom(reserved, go, t, k, flying, status);
    ReachesFrom(s, go, t, k, Opening, status);
  }

  /** Wherever a request may start and a record is left for it, some orderly run brings it any response there is. */
  lemma ResponseCanCome(s: System, t: int, k: int, request: Hook, status: Option<int>)
    requires Valid(s) && request.PutRequest? && CallsOf(s, t) == Idle && |s.store.records| < MAX_RECORDS
    ensures Reaches(Step(s, Call(t, request, k)), t, k, Opening, status)
  {
    var go := Go(t, 1, 0, Returned(None));
    var called := Step(s, Call(t, request, k));
    var looked := Step(called, go);
    var previous := Bound(s.store, k);
    if previous.Some? {
      FinishNumbered(s.store, previous, Shut, 0);
      RequestReserves(Step(looked, go), t, k, request, status);
      ReachesFrom(looked, go, t, k, Opening, status);
    } else {
      RequestReserves(looked, t, k, request, status);
    }
    ReachesFrom(called, go, t, k, Opening, status);
  }

  // ----- Selecting records -----

  /** A request that failed, or never came to an end. */
  predicate Important(r: Record) {
    !r.outcome.Response? || (r.status.Some? && r.status.value >= 500)
  }

  function Lasted(r: Record): int {
    if r.duration.Some? then r.duration.value else 0
  }

  /** The place of a record in the selection; the item is its position. */
  function RankOf(r: Record, position: nat): Ranked<nat> {
    var id: int := r.id;
    Ranked([if r.outcome.Response? && (r.status.None? || r.status.value < 500) then 0 else 1,
            if r.duration.None? then 0 else r.duration.value, -r.startedAt, -r.pid, -id, position + 1], position)
  }

  function Ranks(records: seq<Record>): (ranks: seq<Ranked<nat>>)
    ensures |ranks| == |records| && Distinct(ranks)
    ensures forall i :: 0 <= i < |ranks| ==> ranks[i] == RankOf(records[i], i) && ranks[i].item == i
  {
    var ranks := seq(|records|, i requires 0 <= i < |records| => RankOf(records[i], i));
    assert forall i :: 0 <= i < |ranks| ==> ranks[i].rank[5] == i + 1;
    ranks
  }

  /** Important records go first, then the slow ones, the early ones, those of lower process ids and ids, and the last read. */
  predicate Ahead(r: Record, position: nat, other: Record, otherPosition: nat) {
    if Important(r) != Important(other) then Important(r)
    else if Lasted(r) != Lasted(other) then Lasted(r) > Lasted(other)
    else if r.startedAt != other.startedAt then r.startedAt < other.startedAt
    else if r.pid != other.pid then r.pid < other.pid
    else if r.id != other.id then r.id < other.id
    else position > otherPosition
  }

  lemma AheadIff(r: Record, position: nat, other: Record, otherPosition: nat)
    ensures Less(RankOf(other, otherPosition).rank, RankOf(r, position).rank) <==> Ahead(r, position, other, otherPosition)
  {
    var a, b := RankOf(other, otherPosition).rank, RankOf(r, position).rank;
    LessHalves(a, b);
    LessOfThree(a[0], a[1], a[2], b[0], b[1], b[2]);
    LessOfThree(a[3], a[4], a[5], b[3], b[4], b[5]);
    assert a[..3] == [a[0], a[1], a[2]] && b[..3] == [b[0], b[1], b[2]];
    assert a[3..] == [a[3], a[4], a[5]] && b[3..] == [b[3], b[4], b[5]];
  }

  /** The first three numbers decide, and if they are equal the others. */
  lemma LessHalves(a: seq<int>, b: seq<int>)
    requires |a| == |b| == 6
    ensures Less(a, b) <==> Less(a[..3], b[..3]) || (a[..3] == b[..3] && Less(a[3..], b[3..]))
  {
    LessFirst(a, b);
    LessFirst(a[1..], b[1..]);
    LessFirst(a[2..], b[2..]);
    assert a[1..][1..] == a[2..] && b[1..][1..] == b[2..] && a[2..][1..] == a[3..] && b[2..][1..] == b[3..];
    assert a[..3] == [a[0], a[1], a[2]] && b[..3] == [b[0], b[1], b[2]];
    LessOfThree(a[0], a[1], a[2], b[0], b[1], b[2]);
  }

  /** Keeps the positions of the most important records: failures first, then the slow ones; the others count as dropped. */
  method SelectRecords(records: seq<Record>, limit: nat) returns (kept: set<nat>, dropped: nat)
    requires limit > 0
    ensures forall i :: i in kept ==> i < |records|
    ensures |kept| == (if |records| <= limit then |records| else limit) && |kept| + dropped == |records|
    ensures forall i, j :: i in kept && 0 <= j < |records| && j !in kept ==> Ahead(records[i], i, records[j], j)
  {
    var ranks := Ranks(records);
    var top := SelectTop(ranks, limit);
    kept := set r | r in top :: r.item;
    MembersCount(ranks);
    PositionsCount(ranks, top, kept);
    forall i, j | i in kept && 0 <= j < |records| && j !in kept
      ensures Ahead(records[i], i, records[j], j)
    {
      assert ranks[i] in top && ranks[j] in Members(ranks) && ranks[j] !in top;
      AheadIff(records[i], i, records[j], j);
    }
    dropped := |records| - |kept|;
  }

  lemma {:induction false} PositionsCount(ranks: seq<Ranked<nat>>, top: set<Ranked<nat>>, positions: set<nat>)
    requires (forall i :: 0 <= i < |ranks| ==> ranks[i].item == i) && (forall r :: r in top ==> r in ranks)
    requires forall i :: i in positions <==> exists r :: r in top && r.item == i
    ensures |positions| == |top|
    decreases top
  {
    if top == {} {
      assert positions == {};
    } else {
      var r :| r in top;
      assert r.item in positions;
      PositionsCount(ranks, top - {r}, positions - {r.item});
    }
  }

  lemma {:induction false} MembersCount<T>(ranks: seq<Ranked<T>>)
    requires Distinct(ranks)
    ensures |Members(ranks)| == |ranks|
  {
    if ranks != [] {
      var n := |ranks| - 1;
      MembersCount(ranks[..n]);
      NextIsNew(ranks, n);
      assert ranks[..n + 1] == ranks;
    }
  }
}
