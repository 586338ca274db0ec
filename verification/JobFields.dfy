/**
 What each write of the capture-job protocol puts into the record (src/runtime_tools/capture_jobs/_service.py), field by field,
 in every state a job can be in; and which steps alone change a field.
 */
module JobFields {
  import opened CaptureJob
  import opened CaptureJobProtocol
  import opened Integers
  import opened Results

  /** The worker has read the record for this update. */
  predicate Pends(s: System, update: Update) {
    s.worker.Live? && s.worker.pending.Some? && s.worker.pending.value.update == update
  }

  /** A new record starts out without a worker, a status or output. */
  lemma CreatedFields(detached: bool, now: int)
    ensures var job := Initial(detached, now).file;
            && job.state == Starting && job.workerPid == None && job.startedAt == job.updatedAt == now && !job.disconnected
            && job.exitStatus == None && job.artifacts == [] && job.detached == detached
            && job.retention == (if detached then HeadTail else Nothing)
            && Untouched(job.stdout) && Untouched(job.stderr)
  {
  }

  lemma FinishFields(s: System, exitStatus: int, failed: bool)
    requires Valid(s) && Pends(s, Finish(exitStatus, failed))
    ensures var job, job' := s.file, Step(s, WorkerWrites(true)).file;
            if 0 <= exitStatus <= 255 then
              && job' == job.(state := job'.state, exitStatus := job'.exitStatus, updatedAt := job'.updatedAt)
              && job'.state == (if failed then Failed else Complete) && job'.exitStatus == Some(exitStatus)
              && job'.updatedAt == s.clock
            else job' == job
  {
  }

  /** A checkpoint within the limits that takes nothing back. */
  predicate MarkFits(job: Job, before: StreamState, m: Update)
    requires m.Mark?
  {
    && job.detached
    && before.head <= m.head <= HeadLimit(job.retention) && before.tail <= m.tail <= TailLimit(job.retention)
    && m.head + m.tail <= OUTPUT_LIMIT
    && before.omitted <= m.omitted <= MAX_OMITTED && (m.omitted > 0 || m.omittedTruncated ==> m.truncated)
  }

  /** The figures after a checkpoint: the new sizes, and what is known to be missing. */
  predicate HasMark(after: StreamState, before: StreamState, m: Update)
    requires m.Mark?
  {
    && after.size == m.head + m.tail && after.head == m.head && after.tail == m.tail && after.omitted == m.omitted
    && after.truncated == (before.truncated || m.truncated)
    && after.omittedTruncated == (before.omittedTruncated || m.omittedTruncated)
  }

  lemma NoSmaller(before: StreamState, head: int, tail: int)
    requires Consistent(before.size, before.head, before.tail) && before.head <= head && before.tail <= tail
    ensures before.size <= head + tail
  {
  }

  /** A checkpoint is written exactly if it is within the limits and takes nothing back. */
  lemma MarkedIff(job: Job, before: StreamState, m: Update)
    requires m.Mark? && AcceptedStream(before, job.retention)
    requires before == if m.stream.Stdout? then job.stdout else job.stderr
    ensures Marked(job, m).Ok? <==> MarkFits(job, before, m)
    ensures Marked(job, m).Ok? ==> HasMark(Marked(job, m).value, before, m)
  {
    if before.head <= m.head && before.tail <= m.tail {
      NoSmaller(before, m.head, m.tail);
    }
  }

  lemma WrittenByMark(s: System, m: Update)
    requires Valid(s) && m.Mark? && Pends(s, m)
    ensures var job, job', marked := s.file, Step(s, WorkerWrites(true)).file, Marked(s.file, m);
            if marked.Err? then job' == job
            else if m.stream.Stdout? then job' == job.(stdout := marked.value, updatedAt := s.clock)
            else job' == job.(stderr := marked.value, updatedAt := s.clock)
  {
    assert s.worker.pending.value.copy == s.file;
  }

  lemma StdoutFields(s: System, m: Update)
    requires Valid(s) && m.Mark? && m.stream.Stdout? && Pends(s, m)
    ensures var job, job' := s.file, Step(s, WorkerWrites(true)).file;
            if MarkFits(job, job.stdout, m) then
              job' == job.(stdout := job'.stdout, updatedAt := s.clock) && HasMark(job'.stdout, job.stdout, m)
            else job' == job
  {
    WrittenByMark(s, m);
    MarkedIff(s.file, s.file.stdout, m);
  }

  lemma StderrFields(s: System, m: Update)
    requires Valid(s) && m.Mark? && m.stream.Stderr? && Pends(s, m)
    ensures var job, job' := s.file, Step(s, WorkerWrites(true)).file;
            if MarkFits(job, job.stderr, m) then
              job' == job.(stderr := job'.stderr, updatedAt := s.clock) && HasMark(job'.stderr, job.stderr, m)
            else job' == job
  {
    WrittenByMark(s, m);
    MarkedIff(s.file, s.file.stderr, m);
  }

  lemma DisconnectFields(s: System)
    requires Valid(s) && Pends(s, Disconnect)
    ensures var job, job' := s.file, Step(s, WorkerWrites(true)).file;
            job' == job.(disconnected := true, updatedAt := s.clock)
  {
  }

  /** All the same but that nobody knows how much is missing. */
  predicate MadeUnknown(after: StreamState, before: StreamState) {
    after == before.(truncated := after.truncated, omittedTruncated := after.omittedTruncated)
    && after.truncated && after.omittedTruncated
  }

  lemma IncompleteFields(s: System)
    requires Valid(s) && Pends(s, Incomplete)
    ensures var job, job' := s.file, Step(s, WorkerWrites(true)).file;
            if job.detached then
              && job' == job.(stdout := job'.stdout, stderr := job'.stderr, updatedAt := s.clock)
              && MadeUnknown(job'.stdout, job.stdout) && MadeUnknown(job'.stderr, job.stderr)
            else job' == job
  {
  }

  lemma ArtifactsFields(s: System, paths: seq<Path>)
    requires Valid(s) && Pends(s, Artifacts(paths))
    ensures var job, job' := s.file, Step(s, WorkerWrites(true)).file;
            if |paths| <= MAX_ARTIFACTS && forall i :: 0 <= i < |paths| ==> |paths[i]| <= MAX_ARTIFACT_BYTES then
              && job' == job.(artifacts := job'.artifacts, updatedAt := s.clock) && |job'.artifacts| == |paths|
              && forall i :: 0 <= i < |paths| ==> job'.artifacts[i] == paths[i]
            else job' == job
  {
  }

  /** The worker starts a job that is starting, and no other. */
  lemma StartFields(s: System, pid: int)
    requires Valid(s) && s.worker.StartRead? && 1 <= pid <= MAX_INTEGER
    ensures var next := Step(s, WorkerStarts(pid, true));
            if s.file.state.Starting? then
              next.file == s.file.(state := Running, workerPid := Some(pid), updatedAt := s.clock) && next.worker.Live?
            else next.file == s.file && next.worker.Ended? && next.holder.Nobody?
  {
  }

  /** The launcher gives up on a job that is not over yet. */
  lemma FailFields(s: System)
    requires Valid(s) && s.launcher.LauncherRead?
    ensures var job' := Step(s, LauncherWrites(true)).file;
            if Terminal(s.file.state) then job' == s.file
            else job' == s.file.(state := Failed, exitStatus := Some(2), updatedAt := s.clock)
  {
  }

  /** A stream as it is recorded, with the sizes its files have. */
  predicate HasSizes(after: StreamState, before: StreamState, head: nat, tail: nat) {
    after == before.(size := after.size, head := after.head, tail := after.tail)
    && after.head == head && after.tail == tail && after.size == head + tail
  }

  predicate AsFound(seen: Job, job: Job, sizes: Sizes) {
    if job.detached then
      && seen == job.(stdout := seen.stdout, stderr := seen.stderr)
      && HasSizes(seen.stdout, job.stdout, sizes.stdoutHead, sizes.stdoutTail)
      && HasSizes(seen.stderr, job.stderr, sizes.stderrHead, sizes.stderrTail)
    else seen == job
  }

  /** What an observer sees is the record with the sizes the output files have, and what it is told is that. */
  lemma SeenFields(s: System, id: nat, sizes: Sizes)
    requires Valid(s) && Fitting(sizes, s.file.retention)
    ensures id !in s.watchers && !Settled(s.file, s.clock) ==>
              var next := Step(s, Looks(id, sizes));
              id in next.watchers && next.watchers[id].Looked? && AsFound(next.watchers[id].seen, s.file, sizes)
    ensures id !in s.watchers && Settled(s.file, s.clock) ==>
              Report(s, Looks(id, sizes)).Some? && AsFound(Report(s, Looks(id, sizes)).value, s.file, sizes)
    ensures id in s.watchers && s.watchers[id].WatcherLocked? && !Settled(s.file, s.clock) ==>
              var next := Step(s, Rechecks(id, sizes));
              id in next.watchers && next.watchers[id].Rechecked? && AsFound(next.watchers[id].current, s.file, sizes)
    ensures id in s.watchers && s.watchers[id].WatcherLocked? && Settled(s.file, s.clock) ==>
              Report(s, Rechecks(id, sizes)).Some? && AsFound(Report(s, Rechecks(id, sizes)).value, s.file, sizes)
  {
  }

  /** While somebody holds the lock an observer is told what it saw. */
  lemma ToldAsSeen(s: System, id: nat)
    requires Valid(s) && id in s.watchers && s.watchers[id].Looked? && !s.holder.Nobody?
    ensures Report(s, Tries(id)) == Some(s.watchers[id].seen) && id !in Step(s, Tries(id)).watchers
  {
  }

  /** What is declared lost keeps all else that was seen; of a detached job nobody knows how much is missing. */
  predicate IsLost(lost: Job, seen: Job, now: int) {
    && lost == seen.(state := lost.state, exitStatus := lost.exitStatus, updatedAt := lost.updatedAt, stdout := lost.stdout,
                     stderr := lost.stderr)
    && lost.state.Lost? && lost.exitStatus == None && lost.updatedAt == now
    && (if seen.detached then MadeUnknown(lost.stdout, seen.stdout) && MadeUnknown(lost.stderr, seen.stderr)
        else lost.stdout == seen.stdout && lost.stderr == seen.stderr)
  }

  lemma LostFields(s: System, id: nat)
    requires Valid(s) && id in s.watchers && s.watchers[id].Rechecked?
    ensures var current := s.watchers[id].current;
            && IsLost(Step(s, Declares(id, true)).file, current, s.clock)
            && Report(s, Declares(id, true)) == Some(Step(s, Declares(id, true)).file)
  {
  }

  /** Whoever dies or ends gives the lock back, and takes nobody else's. */
  lemma DyingReleases(s: System, id: nat)
    requires Valid(s)
    ensures Step(s, LauncherDies).holder == if s.holder.TheLauncher? then Nobody else s.holder
    ensures Step(s, WorkerEnds).holder == if s.holder.TheWorker? then Nobody else s.holder
    ensures Step(s, WatcherDies(id)).holder == if s.holder == Observer(id) then Nobody else s.holder
  {
  }

  /** A worker that is free sets about any update; a finish only of its own accord first, or once for what it handles. */
  lemma WorkerSetsAbout(s: System, update: Update)
    requires Valid(s) && s.worker.Live? && s.worker.pending.None?
    ensures var next := Step(s, WorkerReads(update));
            var free := update.Finish? ==>
              || (s.worker.phase.Working? && (!update.failed || update.exitStatus == 1))
              || (s.worker.phase == Handling(true) && update == Finish(130, false))
              || (s.worker.phase == Handling(false) && update == Finish(2, true));
            if free then Pends(next, update) && next.file == s.file else next == s
  {
  }

  lemma RunOfFour(s: System, a: Action, b: Action, c: Action, d: Action)
    ensures Run(s, [a, b, c, d]) == Step(Step(Step(Step(s, a), b), c), d)
  {
    assert [a, b, c, d][1..] == [b, c, d] && [b, c, d][1..] == [c, d] && [c, d][1..] == [d] && [d][1..] == [];
    RunsTo(s, [a, b, c, d], Step(s, a));
    RunsTo(Step(s, a), [b, c, d], Step(Step(s, a), b));
    RunsTo(Step(Step(s, a), b), [c, d], Step(Step(Step(s, a), b), c));
    RunsTo(Step(Step(Step(s, a), b), c), [d], Step(Step(Step(Step(s, a), b), c), d));
  }

  /** Nobody works on the job, and it is neither over nor has time to start. */
  predicate Dead(s: System) {
    s.holder.Nobody?
    && (s.file.state.Running? || (s.file.state.Starting? && s.clock - s.file.startedAt >= STARTUP_GRACE))
  }

  lemma LooksAtDead(s: System, id: nat, sizes: Sizes)
    requires Dead(s) && id !in s.watchers && Fitting(sizes, s.file.retention)
    ensures var locked := Step(Step(s, Looks(id, sizes)), Tries(id));
            && id in locked.watchers && locked.watchers[id].WatcherLocked? && !Settled(locked.file, locked.clock)
            && locked.file == s.file
  {
  }

  lemma ChecksDead(s: System, id: nat, sizes: Sizes)
    requires id in s.watchers && s.watchers[id].WatcherLocked? && !Settled(s.file, s.clock)
    requires Fitting(sizes, s.file.retention)
    ensures Step(Step(s, Rechecks(id, sizes)), Declares(id, true)).file.state.Lost?
  {
  }

  /** A job that nobody works on is found lost by the next observer, unless it is over or still has time to start. */
  lemma DeadIsDeclared(s: System, id: nat, sizes: Sizes)
    requires Valid(s) && Dead(s) && id !in s.watchers && Fitting(sizes, s.file.retention)
    ensures Run(s, [Looks(id, sizes), Tries(id), Rechecks(id, sizes), Declares(id, true)]).file.state.Lost?
  {
    RunOfFour(s, Looks(id, sizes), Tries(id), Rechecks(id, sizes), Declares(id, true));
    LooksAtDead(s, id, sizes);
    ChecksDead(Step(Step(s, Looks(id, sizes)), Tries(id)), id, sizes);
  }

  // ----- Which steps alone change a field -----

  predicate Writes(s: System, a: Action, update: Update) {
    a == WorkerWrites(true) && Pends(s, update)
  }

  predicate DeclaresLost(s: System, a: Action) {
    a.Declares? && a.ok && a.id in s.watchers && s.watchers[a.id].Rechecked?
  }

  /** The exit status a step writes, if it writes any. */
  function StatusWritten(s: System, a: Action): Option<Option<int>> {
    if a == WorkerWrites(true) && s.worker.Live? && s.worker.pending.Some? && s.worker.pending.value.update.Finish?
       && 0 <= s.worker.pending.value.update.exitStatus <= 255
    then Some(Some(s.worker.pending.value.update.exitStatus))
    else if a == LauncherWrites(true) && s.launcher.LauncherRead? && !Terminal(s.file.state) then Some(Some(2))
    else if DeclaresLost(s, a) then Some(None)
    else None
  }

  lemma StatusAfter(s: System, a: Action)
    requires Valid(s)
    ensures var written := StatusWritten(s, a);
            Step(s, a).file.exitStatus == if written.Some? then written.value else s.file.exitStatus
  {
  }

  function LastStatus(s: System, actions: seq<Action>): Option<Option<int>>
    decreases |actions|
  {
    if actions == [] then None
    else
      var later := LastStatus(Step(s, actions[0]), actions[1..]);
      if later.Some? then later else StatusWritten(s, actions[0])
  }

  /** In every run the exit status is the one of the last finish, that of a failed start, or none after a loss. */
  lemma {:induction false} ExitStatusTold(s: System, actions: seq<Action>)
    requires Valid(s)
    ensures var last := LastStatus(s, actions);
            Run(s, actions).file.exitStatus == if last.Some? then last.value else s.file.exitStatus
    decreases |actions|
  {
    if actions != [] {
      StepKeeps(s, actions[0]);
      StatusAfter(s, actions[0]);
      ExitStatusTold(Step(s, actions[0]), actions[1..]);
    }
  }

  predicate WritesOutput(s: System, a: Action, stream: Stream) {
    && a == WorkerWrites(true) && s.worker.Live? && s.worker.pending.Some?
    && var update := s.worker.pending.value.update;
       update.Incomplete? || (update.Mark? && update.stream == stream)
  }

  /** Nobody but these changes the other fields. */
  lemma OthersStay(s: System, a: Action)
    requires Valid(s)
    ensures var job, job' := s.file, Step(s, a).file;
            && job'.startedAt == job.startedAt && job'.detached == job.detached && job'.retention == job.retention
            && (job'.workerPid != job.workerPid ==> a.WorkerStarts? && job'.workerPid == Some(a.pid))
            && (job'.disconnected != job.disconnected ==> Writes(s, a, Disconnect))
            && (job'.artifacts != job.artifacts ==>
                  a == WorkerWrites(true) && s.worker.Live? && s.worker.pending.Some?
                  && s.worker.pending.value.update.Artifacts?)
            && (job'.stdout != job.stdout ==> WritesOutput(s, a, Stdout) || DeclaresLost(s, a))
            && (job'.stderr != job.stderr ==> WritesOutput(s, a, Stderr) || DeclaresLost(s, a))
            && (job'.state != job.state ==> StatusWritten(s, a).Some? || a.WorkerStarts?)
  {
    WrittenFromLatest(s, a);
  }
}
