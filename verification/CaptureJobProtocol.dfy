/**
 The capture-job protocol (src/runtime_tools/capture_jobs/_service.py and _repository.py, src/runtime_tools/capture_worker.py).

 A launcher, a worker and any number of observers share one record file. Reading is free; whoever writes holds the job's
 lock, and goes through reading the record, building a new one and replacing the file in separate steps, between which
 everybody else may move. Any of them may die at any point, which releases the lock.
 */
module CaptureJobProtocol {
  import opened Integers
  import opened Results
  import opened CaptureJob

  datatype Holder = Nobody | TheLauncher | TheWorker | Observer(id: nat)

  datatype Launcher = LauncherIdle | LauncherLocked | LauncherRead(copy: Job)

  /**
   How far the worker's module run is: running; a first finish was set about; an interrupt or a capture-job error is being
   handled, which may set about a last finish; that was done, too.
   */
  datatype Phase = Working | Finishing | Handling(interrupted: bool) | Concluding

  /** An update whose thread has read the record but not yet written it back. */
  datatype Pending = Pending(update: Update, copy: Job)

  datatype Worker =
    | Unstarted
    | WorkerLocked
    | StartRead(copy: Job)
    | Live(phase: Phase, pending: Option<Pending>)
    | Ended

  /** A look at the record that was neither terminal nor in its grace period, first without and then with the lock. */
  datatype Watcher = Looked(seen: Job) | WatcherLocked | Rechecked(current: Job)

  datatype System = System(
    file: Job,
    holder: Holder,
    launcher: Launcher,
    worker: Worker,
    watchers: map<nat, Watcher>,
    clock: int)

  datatype Action =
    | Tick(now: int)
    | LauncherLocks
    | LauncherReads
    | LauncherWrites(ok: bool)
    | LauncherDies
    | WorkerLocks
    | WorkerReadsToStart
    | WorkerStarts(pid: int, ok: bool)
    | WorkerReads(update: Update)
    | WorkerWrites(ok: bool)
    | WorkerAbandons
    | WorkerHandles(interrupted: bool)
    | WorkerEnds
    | Looks(id: nat, sizes: Sizes)
    | Tries(id: nat)
    | Rechecks(id: nat, sizes: Sizes)
    | Declares(id: nat, ok: bool)
    | WatcherDies(id: nat)

  function Initial(detached: bool, now: int): System {
    System(Created(detached, now), Nobody, LauncherIdle, Unstarted, map[], now)
  }

  /** The finishes the worker may set about in a phase: its own first, and at most one more while handling an exception. */
  predicate MayFinish(phase: Phase, exitStatus: int, failed: bool) {
    match phase
    case Working => failed ==> exitStatus == 1
    case Handling(interrupted) => if interrupted then exitStatus == 130 && !failed else exitStatus == 2 && failed
    case Finishing => false
    case Concluding => false
  }

  predicate MayUpdate(phase: Phase, update: Update) {
    update.Finish? ==> MayFinish(phase, update.exitStatus, update.failed)
  }

  function PhaseAfter(phase: Phase, update: Update): Phase {
    if !update.Finish? then phase else if phase.Working? then Finishing else Concluding
  }

  /** Giving the lock back. */
  function Released(s: System): System {
    s.(holder := Nobody)
  }

  function LauncherStep(s: System, a: Action): System {
    match a
    case LauncherLocks =>
      if s.launcher.LauncherIdle? && s.holder.Nobody? then s.(holder := TheLauncher, launcher := LauncherLocked) else s
    case LauncherReads =>
      if s.launcher.LauncherLocked? then s.(launcher := LauncherRead(s.file)) else s
    case LauncherWrites(ok) =>
      if s.launcher.LauncherRead? then
        Released(s).(launcher := LauncherIdle, file := if ok then FailStart(s.launcher.copy, s.clock) else s.file)
      else s
    case LauncherDies =>
      if s.launcher.LauncherIdle? then s else Released(s).(launcher := LauncherIdle)
    case _ => s
  }

  function WorkerStep(s: System, a: Action): System {
    match a
    case WorkerLocks =>
      if s.worker.Unstarted? then
        if s.holder.Nobody? then s.(holder := TheWorker, worker := WorkerLocked) else s.(worker := Ended)
      else s
    case WorkerReadsToStart =>
      if s.worker.WorkerLocked? then s.(worker := StartRead(s.file)) else s
    case WorkerStarts(pid, ok) =>
      if s.worker.StartRead? && 1 <= pid <= MAX_INTEGER then
        match Start(s.worker.copy, pid, s.clock)
        case Ok(job) => if ok then s.(worker := Live(Working, None), file := job) else Released(s).(worker := Ended)
        case Err(_) => Released(s).(worker := Ended)
      else s
    case WorkerReads(update) =>
      if s.worker.Live? && s.worker.pending.None? && MayUpdate(s.worker.phase, update) then
        s.(worker := Live(PhaseAfter(s.worker.phase, update), Some(Pending(update, s.file))))
      else s
    case WorkerWrites(ok) =>
      if s.worker.Live? && s.worker.pending.Some? then
        var written := Updated(s.worker.pending.value.copy, s.worker.pending.value.update, s.clock);
        s.(worker := s.worker.(pending := None), file := if ok && written.Ok? then written.value else s.file)
      else s
    case WorkerAbandons =>
      if s.worker.Live? then s.(worker := s.worker.(pending := None)) else s
    case WorkerHandles(interrupted) =>
      if s.worker.Live? && (s.worker.phase.Working? || s.worker.phase.Finishing?)
         && !(s.worker.pending.Some? && s.worker.pending.value.update.Finish?)
      then s.(worker := s.worker.(phase := Handling(interrupted)))
      else s
    case WorkerEnds =>
      if s.worker.Unstarted? || s.worker.Ended? then s.(worker := Ended) else Released(s).(worker := Ended)
    case _ => s
  }

  /** Whether an observer returns the record as it is, rather than asking for the lock. */
  predicate Settled(job: Job, now: int) {
    Terminal(job.state) || InGrace(job, now)
  }

  function WatcherStep(s: System, a: Action): System {
    match a
    case Looks(id, sizes) =>
      if id in s.watchers || !Fitting(sizes, s.file.retention) || Settled(s.file, s.clock) then s
      else s.(watchers := s.watchers[id := Looked(Refreshed(s.file, sizes))])
    case Tries(id) =>
      if id in s.watchers && s.watchers[id].Looked? then
        if s.holder.Nobody? then s.(holder := Observer(id), watchers := s.watchers[id := WatcherLocked])
        else s.(watchers := s.watchers - {id})
      else s
    case Rechecks(id, sizes) =>
      if id in s.watchers && s.watchers[id].WatcherLocked? && Fitting(sizes, s.file.retention) then
        if Settled(s.file, s.clock) then Released(s).(watchers := s.watchers - {id})
        else s.(watchers := s.watchers[id := Rechecked(Refreshed(s.file, sizes))])
      else s
    case Declares(id, ok) =>
      if id in s.watchers && s.watchers[id].Rechecked? then
        Released(s).(watchers := s.watchers - {id}, file := if ok then Declared(s.watchers[id].current, s.clock) else s.file)
      else s
    case WatcherDies(id) =>
      if id !in s.watchers then s
      else (if s.watchers[id].Looked? then s else Released(s)).(watchers := s.watchers - {id})
    case _ => s
  }

  /** The record an observer's call returns, when this action lets one return. */
  function Report(s: System, a: Action): Option<Job> {
    match a
    case Looks(id, sizes) =>
      if id !in s.watchers && Fitting(sizes, s.file.retention) && Settled(s.file, s.clock) then
        Some(Refreshed(s.file, sizes))
      else None
    case Tries(id) =>
      if id in s.watchers && s.watchers[id].Looked? && !s.holder.Nobody? then Some(s.watchers[id].seen) else None
    case Rechecks(id, sizes) =>
      if id in s.watchers && s.watchers[id].WatcherLocked? && Fitting(sizes, s.file.retention) && Settled(s.file, s.clock) then
        Some(Refreshed(s.file, sizes))
      else None
    case Declares(id, ok) =>
      if id in s.watchers && s.watchers[id].Rechecked? && ok then Some(Declared(s.watchers[id].current, s.clock)) else None
    case _ => None
  }

  /** One action of one participant; an action that is not possible changes nothing. */
  function Step(s: System, a: Action): System {
    if a.Tick? then s.(clock := if s.clock <= a.now <= MAX_INTEGER then a.now else s.clock)
    else if a.LauncherLocks? || a.LauncherReads? || a.LauncherWrites? || a.LauncherDies? then LauncherStep(s, a)
    else if a.Looks? || a.Tries? || a.Rechecks? || a.Declares? || a.WatcherDies? then WatcherStep(s, a)
    else WorkerStep(s, a)
  }

  function Run(s: System, actions: seq<Action>): System
    decreases |actions|
  {
    if actions == [] then s else Run(Step(s, actions[0]), actions[1..])
  }

  // ----- What every step keeps -----

  ghost predicate LockHeld(s: System) {
    && (s.holder.TheLauncher? <==> !s.launcher.LauncherIdle?)
    && (s.holder.TheWorker? <==> s.worker.WorkerLocked? || s.worker.StartRead? || s.worker.Live?)
    && (s.holder.Observer? ==> s.holder.id in s.watchers)
    && (forall id :: id in s.watchers ==> (s.holder == Observer(id) <==> !s.watchers[id].Looked?))
  }

  /** Nobody holds a copy that the file has since moved on from. */
  ghost predicate CopiesFresh(s: System) {
    && (s.launcher.LauncherRead? ==> s.launcher.copy == s.file)
    && (s.worker.StartRead? ==> s.worker.copy == s.file)
    && (s.worker.Live? && s.worker.pending.Some? ==> s.worker.pending.value.copy == s.file)
    && (forall id :: id in s.watchers && s.watchers[id].Rechecked? ==> RecheckedFresh(s, s.watchers[id].current))
  }

  ghost predicate RecheckedFresh(s: System, current: Job) {
    && (exists sizes :: Fitting(sizes, s.file.retention) && current == Refreshed(s.file, sizes))
    && !Settled(s.file, s.clock)
  }

  /** What the worker's progress says about the record. */
  ghost predicate StateFits(s: System) {
    match s.worker
    case Unstarted => NeverRan(s.file.state)
    case WorkerLocked => NeverRan(s.file.state)
    case StartRead(_) => NeverRan(s.file.state)
    case Live(phase, pending) =>
      && (s.file.state.Running? || (!phase.Working? && Finished(s.file.state)))
      && (pending.Some? && pending.value.update.Finish? ==>
            phase.Concluding? || (phase.Finishing? && s.file.state.Running?))
    case Ended => true
  }

  predicate NeverRan(state: JobState) {
    state.Starting? || state.Failed? || state.Lost?
  }

  ghost predicate Valid(s: System) {
    && Accepted(s.file) && Later(s.file, s.clock)
    && LockHeld(s) && CopiesFresh(s) && StateFits(s)
    && (forall id :: id in s.watchers && s.watchers[id].Looked? ==> !Terminal(s.watchers[id].seen.state))
  }

  lemma InitialValid(detached: bool, now: int)
    requires 0 <= now <= MAX_INTEGER
    ensures Valid(Initial(detached, now))
  {
    CreatedAccepted(detached, now);
  }

  lemma LauncherKeeps(s: System, a: Action)
    requires Valid(s) && (a.LauncherLocks? || a.LauncherReads? || a.LauncherWrites? || a.LauncherDies?)
    ensures Valid(Step(s, a))
  {
    if a.LauncherWrites? {
      FailStartAccepted(s.file, s.clock);
    }
  }

  lemma WorkerKeeps(s: System, a: Action)
    requires Valid(s)
    ensures Valid(WorkerStep(s, a))
  {
    match a {
      case WorkerStarts(pid, ok) =>
        if s.worker.StartRead? && 1 <= pid <= MAX_INTEGER {
          StartKeeps(s, pid, ok);
        }
      case WorkerReads(update) => ReadKeeps(s, update);
      case WorkerWrites(ok) =>
        if s.worker.Live? && s.worker.pending.Some? {
          WorkerWriteKeeps(s, ok);
        }
      case _ =>
    }
  }

  lemma StartKeeps(s: System, pid: int, ok: bool)
    requires Valid(s) && s.worker.StartRead? && 1 <= pid <= MAX_INTEGER
    ensures Valid(WorkerStep(s, WorkerStarts(pid, ok)))
  {
    StartAccepted(s.file, pid, s.clock);
  }

  lemma ReadKeeps(s: System, update: Update)
    requires Valid(s)
    ensures Valid(WorkerStep(s, WorkerReads(update)))
  {
  }

  lemma WorkerWriteKeeps(s: System, ok: bool)
    requires Valid(s) && s.worker.Live? && s.worker.pending.Some?
    ensures Valid(WorkerStep(s, WorkerWrites(ok)))
  {
    UpdatedAccepted(s.file, s.worker.pending.value.update, s.clock);
  }

  lemma WatcherKeeps(s: System, a: Action)
    requires Valid(s)
    ensures Valid(WatcherStep(s, a))
  {
    match a {
      case Declares(id, ok) =>
        if id in s.watchers && s.watchers[id].Rechecked? {
          DeclareKeeps(s, id, ok);
        }
      case Rechecks(id, sizes) =>
        if id in s.watchers && s.watchers[id].WatcherLocked? && Fitting(sizes, s.file.retention) {
          RecheckKeeps(s, id, sizes);
        }
      case Tries(id) => TryKeeps(s, id);
      case Looks(id, sizes) => LookKeeps(s, id, sizes);
      case _ =>
    }
  }

  lemma TryKeeps(s: System, id: nat)
    requires Valid(s)
    ensures Valid(WatcherStep(s, Tries(id)))
  {
  }

  lemma LookKeeps(s: System, id: nat, sizes: Sizes)
    requires Valid(s)
    ensures Valid(WatcherStep(s, Looks(id, sizes)))
  {
  }

  lemma RecheckKeeps(s: System, id: nat, sizes: Sizes)
    requires Valid(s) && id in s.watchers && s.watchers[id].WatcherLocked? && Fitting(sizes, s.file.retention)
    ensures Valid(WatcherStep(s, Rechecks(id, sizes)))
  {
  }

  lemma DeclareKeeps(s: System, id: nat, ok: bool)
    requires Valid(s) && id in s.watchers && s.watchers[id].Rechecked?
    ensures Valid(WatcherStep(s, Declares(id, ok)))
  {
    var sizes :| Fitting(sizes, s.file.retention) && s.watchers[id].current == Refreshed(s.file, sizes);
    RefreshedAccepted(s.file, sizes);
    DeclaredAccepted(s.watchers[id].current, s.clock);
  }

  lemma StepKeeps(s: System, a: Action)
    requires Valid(s)
    ensures Valid(Step(s, a))
  {
    WorkerKeeps(s, a);
    WatcherKeeps(s, a);
    if a.LauncherLocks? || a.LauncherReads? || a.LauncherWrites? || a.LauncherDies? {
      LauncherKeeps(s, a);
    }
  }

  /** In every run every record ever written is one the parser accepts. */
  lemma {:induction false} RunKeeps(s: System, actions: seq<Action>)
    requires Valid(s)
    ensures Valid(Run(s, actions)) && Accepted(Run(s, actions).file)
    decreases |actions|
  {
    if actions != [] {
      StepKeeps(s, actions[0]);
      RunKeeps(Step(s, actions[0]), actions[1..]);
    }
  }

  // ----- How the recorded state moves -----

  /** Writing back a finish over a record that is already terminal under another label. */
  ghost predicate Relabels(s: System, a: Action) {
    && a.WorkerWrites? && a.ok && s.worker.Live? && s.worker.pending.Some?
    && s.worker.phase.Concluding? && s.worker.pending.value.update.Finish?
    && 0 <= s.worker.pending.value.update.exitStatus <= 255
    && Finished(s.file.state) && s.file.state.Failed? != s.worker.pending.value.update.failed
  }

  predicate Moves(from: JobState, to: JobState) {
    match from
    case Starting => to.Starting? || to.Running? || to.Failed? || to.Lost?
    case Running => !to.Starting?
    case _ => to == from
  }

  /** The recorded state moves forward only, except that the worker's last finish may relabel its first. */
  lemma StepMoves(s: System, a: Action)
    requires Valid(s)
    ensures Relabels(s, a) || Moves(s.file.state, Step(s, a).file.state)
    ensures Relabels(s, a) ==> Finished(Step(s, a).file.state) && Step(s, a).file.state != s.file.state
    ensures Step(s, a).file.state.Running? && s.file.state.Starting? ==> s.worker.StartRead?
  {
  }

  /** Every record written was made from the record it replaces, however the participants' steps are mixed. */
  lemma WrittenFromLatest(s: System, a: Action)
    requires Valid(s)
    ensures var file' := Step(s, a).file;
            || file' == s.file
            || (a.LauncherWrites? && file' == FailStart(s.file, s.clock))
            || (a.WorkerStarts? && Ok(file') == Start(s.file, a.pid, s.clock))
            || (a.WorkerWrites? && s.worker.Live? && s.worker.pending.Some?
                && Ok(file') == Updated(s.file, s.worker.pending.value.update, s.clock))
            || (a.Declares? && exists sizes :: Fitting(sizes, s.file.retention)
                                               && file' == Declared(Refreshed(s.file, sizes), s.clock))
  {
  }

  /** Output of which nobody knows how much is missing. */
  predicate Unbounded(stream: StreamState) {
    stream.truncated && stream.omittedTruncated
  }

  /** A job is declared lost only when no worker holds its lock, and a starting one only after its grace period. */
  lemma LostOnlyWhenDead(s: System, a: Action)
    requires Valid(s) && !s.file.state.Lost? && Step(s, a).file.state.Lost?
    ensures !s.worker.Live? && !s.worker.StartRead? && !s.worker.WorkerLocked?
    ensures s.file.state.Running? || (s.file.state.Starting? && s.clock - s.file.startedAt >= STARTUP_GRACE)
    ensures s.file.detached ==> Unbounded(Step(s, a).file.stdout) && Unbounded(Step(s, a).file.stderr)
    ensures Step(s, a).file.exitStatus.None?
  {
  }

  /** Once terminal and left by its worker, the record never changes again, whatever anybody does. */
  lemma {:induction false} ClosedRecordIsFinal(s: System, actions: seq<Action>)
    requires Valid(s) && Terminal(s.file.state) && !s.worker.Live?
    ensures Run(s, actions).file == s.file && !Run(s, actions).worker.Live?
    decreases |actions|
  {
    if actions != [] {
      var next := Step(s, actions[0]);
      StepKeeps(s, actions[0]);
      ClosedStep(s, actions[0]);
      ClosedRecordIsFinal(next, actions[1..]);
    }
  }

  lemma ClosedStep(s: System, a: Action)
    requires Valid(s) && Terminal(s.file.state) && !s.worker.Live?
    ensures Step(s, a).file == s.file && !Step(s, a).worker.Live?
  {
  }

  /** A job recorded lost stays exactly as recorded: in particular it is never started afterwards. */
  lemma LostIsForever(s: System, actions: seq<Action>)
    requires Valid(s) && s.file.state.Lost?
    ensures Run(s, actions).file == s.file && !Run(s, actions).worker.Live?
  {
    ClosedRecordIsFinal(s, actions);
  }

  /** What an observer is told is what the file says at that moment, or that the job was still going. */
  lemma ReportIsRecorded(s: System, a: Action)
    requires Valid(s) && Report(s, a).Some?
    ensures Report(s, a).value.state == Step(s, a).file.state || !Terminal(Report(s, a).value.state)
  {
  }

  ghost predicate ReportsLost(s: System, actions: seq<Action>)
    decreases |actions|
  {
    actions != [] && ((Report(s, actions[0]).Some? && Report(s, actions[0]).value.state.Lost?)
                      || ReportsLost(Step(s, actions[0]), actions[1..]))
  }

  /** A finished job stays finished and is never reported lost. */
  lemma {:induction false} FinishedNeverLost(s: System, actions: seq<Action>)
    requires Valid(s) && Finished(s.file.state)
    ensures Finished(Run(s, actions).file.state) && !ReportsLost(s, actions)
    decreases |actions|
  {
    if actions != [] {
      StepKeeps(s, actions[0]);
      StepMoves(s, actions[0]);
      if Report(s, actions[0]).Some? {
        ReportIsRecorded(s, actions[0]);
      }
      FinishedNeverLost(Step(s, actions[0]), actions[1..]);
    }
  }

  lemma {:induction false} TerminalForever(s: System, actions: seq<Action>)
    requires Valid(s) && Terminal(s.file.state)
    ensures Terminal(Run(s, actions).file.state)
  {
    if s.file.state.Lost? {
      LostIsForever(s, actions);
    } else {
      FinishedNeverLost(s, actions);
    }
  }

  /** The worker's last finish has been written, given up, or can no longer come. */
  predicate Spent(worker: Worker) {
    match worker
    case Live(phase, pending) => phase.Concluding? && !(pending.Some? && pending.value.update.Finish?)
    case Ended => true
    case _ => false
  }

  lemma SpentStep(s: System, a: Action)
    requires Valid(s) && Terminal(s.file.state) && Spent(s.worker)
    ensures !Relabels(s, a) && Spent(Step(s, a).worker)
  {
  }

  lemma {:induction false} SpentKeepsLabel(s: System, actions: seq<Action>)
    requires Valid(s) && Terminal(s.file.state) && Spent(s.worker)
    ensures Run(s, actions).file.state == s.file.state
    decreases |actions|
  {
    if actions != [] {
      StepKeeps(s, actions[0]);
      StepMoves(s, actions[0]);
      SpentStep(s, actions[0]);
      SpentKeepsLabel(Step(s, actions[0]), actions[1..]);
    }
  }

  /** A terminal record's label changes once at most: where a run has changed it, no more of the run changes it again. */
  lemma {:induction false} LabelChangesOnce(s: System, before: seq<Action>, after: seq<Action>)
    requires Valid(s) && Terminal(s.file.state) && Run(s, before).file.state != s.file.state
    ensures Run(Run(s, before), after).file.state == Run(s, before).file.state
    decreases |before|
  {
    var next := Step(s, before[0]);
    StepKeeps(s, before[0]);
    StepMoves(s, before[0]);
    if next.file.state != s.file.state {
      SpentKeepsLabel(next, before[1..]);
      SpentKeepsLabel(next, before[1..] + after);
      RunJoins(next, before[1..], after);
    } else {
      LabelChangesOnce(next, before[1..], after);
    }
  }

  /** The finish still to come is a valid one under the other label. */
  predicate OtherFinish(update: Update, failed: bool) {
    update.Finish? && 0 <= update.exitStatus <= 255 && update.failed != failed
  }

  /**
   A finished record whose worker still holds the lock and has a finish of the other label left: any, before it handles an
   exception, the one of the exception it handles, or the one it has set about.
   */
  predicate MayRelabel(s: System) {
    && Finished(s.file.state) && s.worker.Live?
    && match s.worker.phase
       case Working => false
       case Finishing => true
       case Handling(interrupted) => s.file.state.Failed? == interrupted
       case Concluding => s.worker.pending.Some? && OtherFinish(s.worker.pending.value.update, s.file.state.Failed?)
  }

  lemma LabelKept(s: System, a: Action)
    requires Valid(s) && Terminal(s.file.state) && !MayRelabel(s)
    ensures Step(s, a).file.state == s.file.state && !MayRelabel(Step(s, a))
  {
    StepMoves(s, a);
  }

  lemma {:induction false} LabelStays(s: System, actions: seq<Action>)
    requires Valid(s) && Terminal(s.file.state) && !MayRelabel(s)
    ensures Run(s, actions).file.state == s.file.state
    decreases |actions|
  {
    if actions != [] {
      StepKeeps(s, actions[0]);
      LabelKept(s, actions[0]);
      LabelStays(Step(s, actions[0]), actions[1..]);
    }
  }

  /** The finish of an exception handler. */
  function HandlersFinish(interrupted: bool): Update {
    if interrupted then Finish(130, false) else Finish(2, true)
  }

  lemma HandlerRelabels(s: System)
    requires Valid(s) && Finished(s.file.state) && s.worker.Live? && s.worker.phase.Handling?
    requires s.file.state.Failed? == s.worker.phase.interrupted
    ensures var actions := [WorkerAbandons, WorkerReads(HandlersFinish(s.worker.phase.interrupted)), WorkerWrites(true)];
            Run(s, actions).file.state != s.file.state
  {
    var actions := [WorkerAbandons, WorkerReads(HandlersFinish(s.worker.phase.interrupted)), WorkerWrites(true)];
    var s1 := Step(s, actions[0]);
    assert s1.file == s.file && s1.worker == Live(s.worker.phase, None);
    var s2 := Step(s1, actions[1]);
    assert s2.file == s.file && s2.worker == Live(Concluding, Some(Pending(actions[1].update, s.file)));
    var s3 := Step(s2, actions[2]);
    assert s3.file.state == if s.worker.phase.interrupted then Complete else Failed;
    RunsTo(s, actions, s1);
    RunsTo(s1, actions[1..], s2);
    RunsTo(s2, actions[2..], s3);
  }

  lemma FinishingRelabels(s: System) returns (actions: seq<Action>)
    requires Valid(s) && Finished(s.file.state) && s.worker.Live? && s.worker.phase.Finishing?
    ensures Run(s, actions).file.state != s.file.state
  {
    var interrupted := s.file.state.Failed?;
    var first := [WorkerAbandons, WorkerHandles(interrupted)];
    var handling := Run(s, first);
    var s1 := Step(s, first[0]);
    RunsTo(s, first, s1);
    RunsTo(s1, first[1..], Step(s1, first[1]));
    RunKeeps(s, first);
    HandlerRelabels(handling);
    var second := [WorkerAbandons, WorkerReads(HandlersFinish(interrupted)), WorkerWrites(true)];
    RunJoins(s, first, second);
    actions := first + second;
  }

  /** Whether the label of a terminal record can still change can be read off the state. */
  lemma LabelChangesIff(s: System)
    requires Valid(s) && Terminal(s.file.state)
    ensures (exists actions :: Run(s, actions).file.state != s.file.state) <==> MayRelabel(s)
  {
    if MayRelabel(s) {
      match s.worker.phase {
        case Finishing => {
          var actions := FinishingRelabels(s);
        }
        case Handling(_) => HandlerRelabels(s);
        case Concluding => {
          var actions := [WorkerWrites(true)];
          RunsTo(s, actions, Step(s, actions[0]));
          assert Run(s, actions).file.state != s.file.state;
        }
        case Working =>
      }
    } else {
      forall actions
        ensures Run(s, actions).file.state == s.file.state
      {
        LabelStays(s, actions);
      }
    }
  }

  /** A module that ended well, then an error in the housekeeping after the finish: complete turns into failed. */
  lemma CompleteTurnsFailed()
    ensures Run(Initial(true, 0), TO_RUNNING + TO_COMPLETE).file.state.Complete?
    ensures Run(Initial(true, 0), TO_RUNNING + TO_COMPLETE + TO_FAILED).file.state.Failed?
  {
    var running := Run(Initial(true, 0), TO_RUNNING);
    var complete := Run(running, TO_COMPLETE);
    StartsRunning();
    TurnsComplete();
    TurnsFailed(complete);
    RunJoins(Initial(true, 0), TO_RUNNING, TO_COMPLETE);
    RunJoins(Initial(true, 0), TO_RUNNING + TO_COMPLETE, TO_FAILED);
  }

  const TO_RUNNING := [WorkerLocks, WorkerReadsToStart, WorkerStarts(7, true)]
  const TO_COMPLETE := [WorkerReads(Finish(0, false)), WorkerWrites(true)]
  const TO_FAILED := [WorkerHandles(false), WorkerReads(Finish(2, true)), WorkerWrites(true)]

  lemma StartsRunning()
    ensures Run(Initial(true, 0), TO_RUNNING).worker == Live(Working, None)
  {
    var s0 := Initial(true, 0);
    var s1 := Step(s0, WorkerLocks);
    var s2 := Step(s1, WorkerReadsToStart);
    RunsTo(s0, TO_RUNNING, s1);
    RunsTo(s1, TO_RUNNING[1..], s2);
    RunsTo(s2, TO_RUNNING[2..], Step(s2, WorkerStarts(7, true)));
  }

  lemma TurnsComplete()
    ensures forall s: System :: s.worker == Live(Working, None) ==>
              Run(s, TO_COMPLETE).file.state.Complete? && Run(s, TO_COMPLETE).worker == Live(Finishing, None)
  {
    forall s: System | s.worker == Live(Working, None)
      ensures Run(s, TO_COMPLETE).file.state.Complete? && Run(s, TO_COMPLETE).worker == Live(Finishing, None)
    {
      var s1 := Step(s, WorkerReads(Finish(0, false)));
      RunsTo(s, TO_COMPLETE, s1);
      RunsTo(s1, TO_COMPLETE[1..], Step(s1, WorkerWrites(true)));
    }
  }

  lemma TurnsFailed(s: System)
    requires s.worker == Live(Finishing, None)
    ensures Run(s, TO_FAILED).file.state.Failed?
  {
    var s1 := Step(s, WorkerHandles(false));
    var s2 := Step(s1, WorkerReads(Finish(2, true)));
    RunsTo(s, TO_FAILED, s1);
    RunsTo(s1, TO_FAILED[1..], s2);
    RunsTo(s2, TO_FAILED[2..], Step(s2, WorkerWrites(true)));
  }

  lemma {:induction false} RunJoins(s: System, first: seq<Action>, second: seq<Action>)
    ensures Run(s, first + second) == Run(Run(s, first), second)
    decreases |first|
  {
    if first == [] {
      assert first + second == second;
    } else {
      assert (first + second)[1..] == first[1..] + second;
      RunJoins(Step(s, first[0]), first[1..], second);
    }
  }

  lemma RunsTo(s: System, actions: seq<Action>, next: System)
    requires actions != [] && next == Step(s, actions[0])
    ensures Run(s, actions) == Run(next, actions[1..])
  {
  }

  /** No run takes back what the job started as, or the time of its record. */
  lemma {:induction false} RunTimes(s: System, actions: seq<Action>)
    requires Valid(s)
    ensures var end := Run(s, actions).file;
            && end.startedAt == s.file.startedAt && end.updatedAt >= s.file.updatedAt
            && end.detached == s.file.detached && end.retention == s.file.retention
    decreases |actions|
  {
    if actions != [] {
      StepKeeps(s, actions[0]);
      StepTimes(s, actions[0]);
      RunTimes(Step(s, actions[0]), actions[1..]);
    }
  }

  lemma StepTimes(s: System, a: Action)
    requires Valid(s)
    ensures var file' := Step(s, a).file;
            && file'.startedAt == s.file.startedAt && file'.updatedAt >= s.file.updatedAt
            && file'.detached == s.file.detached && file'.retention == s.file.retention
  {
    WrittenFromLatest(s, a);
  }

  predicate StreamHeeds(stream: StreamState, stream': StreamState) {
    && (stream.truncated ==> stream'.truncated)
    && (stream.omittedTruncated ==> stream'.omittedTruncated)
    && stream.omitted <= stream'.omitted
  }

  /** What a record once admitted to is not taken back: a lost client, and output that is missing. */
  predicate Heeds(job: Job, job': Job) {
    && (job.disconnected ==> job'.disconnected)
    && StreamHeeds(job.stdout, job'.stdout) && StreamHeeds(job.stderr, job'.stderr)
  }

  lemma UpdateHeeds(job: Job, update: Update, now: int)
    ensures Updated(job, update, now).Ok? ==> Heeds(job, Updated(job, update, now).value)
  {
  }

  lemma StepHeeds(s: System, a: Action)
    requires Valid(s)
    ensures Heeds(s.file, Step(s, a).file)
  {
    WrittenFromLatest(s, a);
    if a.WorkerWrites? && s.worker.Live? && s.worker.pending.Some? {
      UpdateHeeds(s.file, s.worker.pending.value.update, s.clock);
    }
  }

  lemma {:induction false} RunHeeds(s: System, actions: seq<Action>)
    requires Valid(s)
    ensures Heeds(s.file, Run(s, actions).file)
    decreases |actions|
  {
    if actions != [] {
      StepKeeps(s, actions[0]);
      StepHeeds(s, actions[0]);
      RunHeeds(Step(s, actions[0]), actions[1..]);
    }
  }

  /** The protocol as a whole: any run, from the job's creation, cut in two at any point. */
  lemma EveryRun(detached: bool, now: int, before: seq<Action>, after: seq<Action>)
    requires 0 <= now <= MAX_INTEGER
    ensures var middle := Run(Initial(detached, now), before);
            var end := Run(Initial(detached, now), before + after);
            && Accepted(middle.file) && middle.file.startedAt == now && middle.file.updatedAt <= end.file.updatedAt
            && Heeds(middle.file, end.file)
            && (Terminal(middle.file.state) ==> Terminal(end.file.state))
            && (middle.file.state.Lost? ==> end.file == middle.file)
            && (Finished(middle.file.state) ==> !ReportsLost(middle, after))
            && (Terminal(middle.file.state) && end.file.state != middle.file.state ==> MayRelabel(middle))
            && (MayRelabel(middle) ==> exists more :: Run(middle, more).file.state != middle.file.state)
  {
    var start := Initial(detached, now);
    var middle := Run(start, before);
    InitialValid(detached, now);
    RunKeeps(start, before);
    RunTimes(start, before);
    RunJoins(start, before, after);
    RunTimes(middle, after);
    RunHeeds(middle, after);
    if Terminal(middle.file.state) {
      TerminalForever(middle, after);
      LabelChangesIff(middle);
      if middle.file.state.Lost? {
        LostIsForever(middle, after);
      } else {
        FinishedNeverLost(middle, after);
      }
    }
  }
}
