/**
 The record of one capture job and everything that may be done to it (src/runtime_tools/capture_jobs/_models.py,
 _service.py and _output.py).

 `Accepted` is what the state-file parser lets through. Each update builds a new record from an old one, as the closures
 handed to the repository do; every one of them leads from an accepted record to an accepted record. What participants may
 do to one record at the same time is the subject of the protocol.
 */
module CaptureJob {
  import opened Integers
  import opened Results

  const OUTPUT_LIMIT: nat := 1_048_576
  const HEAD_LIMIT: nat := 524_288
  const TAIL_LIMIT: nat := 524_288
  const MAX_OMITTED: nat := 0x7fff_ffff_ffff_ffff
  const MAX_ARTIFACTS: nat := 4
  const MAX_ARTIFACT_BYTES: nat := 4096
  const STARTUP_GRACE: nat := 5_000_000_000

  datatype JobState = Starting | Running | Complete | Failed | Lost

  datatype Retention = Nothing | Head | HeadTail

  datatype Stream = Stdout | Stderr

  datatype StreamState = StreamState(
    size: nat,
    truncated: bool,
    head: nat,
    tail: nat,
    omitted: nat,
    omittedTruncated: bool)

  predicate Untouched(stream: StreamState) {
    && stream.size == stream.head == stream.tail == stream.omitted == 0
    && !stream.truncated && !stream.omittedTruncated
  }

  /** Artifact paths stand for their encoded bytes. */
  datatype Job = Job(
    state: JobState,
    workerPid: Option<int>,
    startedAt: int,
    updatedAt: int,
    disconnected: bool,
    exitStatus: Option<int>,
    artifacts: seq<string>,
    detached: bool,
    retention: Retention,
    stdout: StreamState,
    stderr: StreamState)

  /** A path the file system can hold: it has no NUL. */
  predicate NulFree(s: string) {
    forall i :: 0 <= i < |s| ==> s[i] != '\0'
  }

  type Path = s: string | NulFree(s)

  datatype JobError =
    | NotStarting
    | InvalidExitStatus
    | InvalidSize
    | InvalidOmitted
    | OmittedNotTruncated
    | NotDetached
    | HeadOverLimit
    | TailOverLimit
    | SizeDecreased
    | SegmentDecreased
    | OmittedDecreased
    | TooManyArtifacts
    | ArtifactTooLong

  predicate Finished(state: JobState) {
    state.Complete? || state.Failed?
  }

  predicate Terminal(state: JobState) {
    Finished(state) || state.Lost?
  }

  function HeadLimit(retention: Retention): nat {
    match retention
    case Nothing => 0
    case Head => OUTPUT_LIMIT
    case HeadTail => HEAD_LIMIT
  }

  function TailLimit(retention: Retention): nat {
    if retention.HeadTail? then TAIL_LIMIT else 0
  }

  predicate Consistent(size: int, head: int, tail: int) {
    size == head + tail
  }

  predicate AcceptedStream(stream: StreamState, retention: Retention) {
    && stream.size <= OUTPUT_LIMIT
    && stream.head <= HeadLimit(retention) && stream.tail <= TailLimit(retention)
    && stream.omitted <= MAX_OMITTED
    && Consistent(stream.size, stream.head, stream.tail)
    && (stream.omitted > 0 || stream.omittedTruncated ==> stream.truncated)
  }

  predicate AcceptedArtifact(artifact: string) {
    NulFree(artifact) && |artifact| <= MAX_ARTIFACT_BYTES
  }

  predicate AcceptedTimes(job: Job) {
    && 0 <= job.startedAt <= MAX_INTEGER && 0 <= job.updatedAt <= MAX_INTEGER
    && job.startedAt <= job.updatedAt
  }

  predicate AcceptedOutput(job: Job) {
    && AcceptedStream(job.stdout, job.retention) && AcceptedStream(job.stderr, job.retention)
    && (job.detached <==> !job.retention.Nothing?)
    && (!job.detached ==> Untouched(job.stdout) && Untouched(job.stderr))
  }

  predicate AcceptedLifecycle(job: Job) {
    && (job.workerPid.Some? ==> 1 <= job.workerPid.value <= MAX_INTEGER)
    && (job.exitStatus.Some? ==> 0 <= job.exitStatus.value <= 255)
    && (job.state.Running? ==> job.workerPid.Some?)
    && (job.state.Starting? || job.state.Running? ==> job.exitStatus.None?)
    && (Finished(job.state) ==> job.exitStatus.Some?)
  }

  /** The record the parser of the state file returns, rather than raising. */
  predicate Accepted(job: Job) {
    && AcceptedTimes(job) && AcceptedOutput(job) && AcceptedLifecycle(job)
    && |job.artifacts| <= MAX_ARTIFACTS
    && (forall artifact :: artifact in job.artifacts ==> AcceptedArtifact(artifact))
  }

  function Created(detached: bool, now: int): Job {
    var none := StreamState(0, false, 0, 0, 0, false);
    Job(Starting, None, now, now, false, None, [], detached, if detached then HeadTail else Nothing, none, none)
  }

  function Start(job: Job, pid: int, now: int): Result<Job, JobError> {
    if !job.state.Starting? then Err(NotStarting)
    else Ok(job.(state := Running, workerPid := Some(pid), updatedAt := now))
  }

  function FailStart(job: Job, now: int): Job {
    if Terminal(job.state) then job else job.(state := Failed, updatedAt := now, exitStatus := Some(2))
  }

  /** What a worker that holds the lock does to its record. */
  datatype Update =
    | Mark(stream: Stream, head: int, tail: int, omitted: int, omittedTruncated: bool, truncated: bool)
    | Disconnect
    | Incomplete
    | Artifacts(paths: seq<Path>)
    | Finish(exitStatus: int, failed: bool)

  function OutputOf(job: Job, stream: Stream): StreamState {
    if stream.Stdout? then job.stdout else job.stderr
  }

  function WithOutput(job: Job, stream: Stream, output: StreamState): Job {
    if stream.Stdout? then job.(stdout := output) else job.(stderr := output)
  }

  /** The new output figures after a checkpoint of one stream, or why the checkpoint is refused. */
  function Marked(job: Job, m: Update): Result<StreamState, JobError>
    requires m.Mark?
  {
    var previous := OutputOf(job, m.stream);
    if !(0 <= m.head <= OUTPUT_LIMIT && 0 <= m.tail <= TAIL_LIMIT) || m.head + m.tail > OUTPUT_LIMIT then Err(InvalidSize)
    else if !(0 <= m.omitted <= MAX_OMITTED) then Err(InvalidOmitted)
    else if (m.omitted != 0 || m.omittedTruncated) && !m.truncated then Err(OmittedNotTruncated)
    else if !job.detached then Err(NotDetached)
    else if m.head > HeadLimit(job.retention) then Err(HeadOverLimit)
    else if m.tail > TailLimit(job.retention) then Err(TailOverLimit)
    else if m.head + m.tail < previous.size then Err(SizeDecreased)
    else if m.head < previous.head || m.tail < previous.tail then Err(SegmentDecreased)
    else if m.omitted < previous.omitted then Err(OmittedDecreased)
    else
      Ok(StreamState(m.head + m.tail, previous.truncated || m.truncated, m.head, m.tail, m.omitted,
                     previous.omittedTruncated || m.omittedTruncated))
  }

  /** Everything beyond the reach of the count of omitted bytes is unknown. */
  function Unknown(stream: StreamState): StreamState {
    stream.(truncated := true, omittedTruncated := true)
  }

  function Updated(job: Job, update: Update, now: int): Result<Job, JobError> {
    match update
    case Mark(stream, _, _, _, _, _) => (
      match Marked(job, update)
      case Ok(output) => Ok(WithOutput(job, stream, output).(updatedAt := now))
      case Err(error) => Err(error)
    )
    case Disconnect => Ok(job.(updatedAt := now, disconnected := true))
    case Incomplete =>
      if !job.detached then Ok(job)
      else Ok(job.(updatedAt := now, stdout := Unknown(job.stdout), stderr := Unknown(job.stderr)))
    case Artifacts(paths) =>
      if |paths| > MAX_ARTIFACTS then Err(TooManyArtifacts)
      else if exists i :: 0 <= i < |paths| && |paths[i]| > MAX_ARTIFACT_BYTES then Err(ArtifactTooLong)
      else Ok(job.(updatedAt := now, artifacts := seq(|paths|, i requires 0 <= i < |paths| => paths[i])))
    case Finish(exitStatus, failed) =>
      if !(0 <= exitStatus <= 255) then Err(InvalidExitStatus)
      else Ok(job.(state := if failed then Failed else Complete, updatedAt := now, exitStatus := Some(exitStatus)))
  }

  /** The sizes of the four output files, as a reader finds them. */
  datatype Sizes = Sizes(stdoutHead: nat, stdoutTail: nat, stderrHead: nat, stderrTail: nat)

  predicate Fitting(sizes: Sizes, retention: Retention) {
    && sizes.stdoutHead <= HeadLimit(retention) && sizes.stderrHead <= HeadLimit(retention)
    && sizes.stdoutTail <= TailLimit(retention) && sizes.stderrTail <= TailLimit(retention)
  }

  /** A record as a reader reports it: with the sizes the output files have now. */
  function Refreshed(job: Job, sizes: Sizes): Job {
    if !job.detached then job
    else
      job.(stdout := job.stdout.(size := sizes.stdoutHead + sizes.stdoutTail, head := sizes.stdoutHead, tail := sizes.stdoutTail),
           stderr := job.stderr.(size := sizes.stderrHead + sizes.stderrTail, head := sizes.stderrHead, tail := sizes.stderrTail))
  }

  predicate InGrace(job: Job, now: int) {
    job.state.Starting? && now - job.startedAt < STARTUP_GRACE
  }

  function Declared(job: Job, now: int): Job {
    job.(state := Lost, updatedAt := now, exitStatus := None,
         stdout := job.stdout.(truncated := job.stdout.truncated || job.detached,
                               omittedTruncated := job.stdout.omittedTruncated || job.detached),
         stderr := job.stderr.(truncated := job.stderr.truncated || job.detached,
                               omittedTruncated := job.stderr.omittedTruncated || job.detached))
  }

  /** A clock reading that is not behind the record. */
  predicate Later(job: Job, now: int) {
    job.updatedAt <= now <= MAX_INTEGER
  }

  lemma CreatedAccepted(detached: bool, now: int)
    requires 0 <= now <= MAX_INTEGER
    ensures Accepted(Created(detached, now))
  {
  }

  lemma StartAccepted(job: Job, pid: int, now: int)
    requires Accepted(job) && Later(job, now) && 1 <= pid <= MAX_INTEGER
    ensures Start(job, pid, now).Ok? ==> Accepted(Start(job, pid, now).value)
  {
  }

  lemma FailStartAccepted(job: Job, now: int)
    requires Accepted(job) && Later(job, now)
    ensures Accepted(FailStart(job, now))
  {
  }

  lemma MarkedAccepted(job: Job, m: Update)
    requires m.Mark? && AcceptedOutput(job)
    ensures Marked(job, m).Ok? ==>
              AcceptedStream(Marked(job, m).value, job.retention) && job.detached
  {
  }

  /** Other output of the same retention is as acceptable. */
  lemma OutputAccepted(job: Job, stdout: StreamState, stderr: StreamState, now: int)
    requires Accepted(job) && Later(job, now) && job.detached
    requires AcceptedStream(stdout, job.retention) && AcceptedStream(stderr, job.retention)
    ensures Accepted(job.(updatedAt := now, stdout := stdout, stderr := stderr))
  {
  }

  lemma StreamAccepted(job: Job, stream: Stream, output: StreamState, now: int)
    requires Accepted(job) && Later(job, now) && job.detached && AcceptedStream(output, job.retention)
    ensures Accepted(WithOutput(job, stream, output).(updatedAt := now))
  {
    if stream.Stdout? {
      OutputAccepted(job, output, job.stderr, now);
    } else {
      OutputAccepted(job, job.stdout, output, now);
    }
  }

  lemma UnknownAccepted(stream: StreamState, retention: Retention)
    requires AcceptedStream(stream, retention)
    ensures AcceptedStream(Unknown(stream), retention)
  {
  }

  lemma FinishAccepted(job: Job, exitStatus: int, failed: bool, now: int)
    requires Accepted(job) && Later(job, now) && 0 <= exitStatus <= 255
    ensures Accepted(job.(state := if failed then Failed else Complete, updatedAt := now, exitStatus := Some(exitStatus)))
  {
  }

  lemma ArtifactsAccepted(job: Job, paths: seq<Path>, now: int)
    requires Accepted(job) && Later(job, now)
    ensures Updated(job, Artifacts(paths), now).Ok? ==> Accepted(Updated(job, Artifacts(paths), now).value)
  {
  }

  lemma UpdatedAccepted(job: Job, update: Update, now: int)
    requires Accepted(job) && Later(job, now)
    ensures Updated(job, update, now).Ok? ==> Accepted(Updated(job, update, now).value)
  {
    match update {
      case Mark(stream, _, _, _, _, _) => {
        MarkedAccepted(job, update);
        if Marked(job, update).Ok? {
          StreamAccepted(job, stream, Marked(job, update).value, now);
        }
      }
      case Disconnect =>
      case Incomplete => {
        if job.detached {
          UnknownAccepted(job.stdout, job.retention);
          UnknownAccepted(job.stderr, job.retention);
          OutputAccepted(job, Unknown(job.stdout), Unknown(job.stderr), now);
        }
      }
      case Artifacts(paths) => ArtifactsAccepted(job, paths, now);
      case Finish(exitStatus, failed) => {
        if 0 <= exitStatus <= 255 {
          FinishAccepted(job, exitStatus, failed, now);
        }
      }
    }
  }

  lemma RefreshedAccepted(job: Job, sizes: Sizes)
    requires Accepted(job) && Fitting(sizes, job.retention)
    ensures Accepted(Refreshed(job, sizes))
  {
  }

  lemma DeclaredAccepted(job: Job, now: int)
    requires Accepted(job) && Later(job, now)
    ensures Accepted(Declared(job, now))
  {
  }
}
