/**
 Crash-recoverable capture (src/runtime_tools/capture/_record.py from the post-exit checkpoint on, _recovery.py, _metadata.py).

 Metadata goes from pending to assembled to complete, and the runpack is published, by a recorder or by recoveries that may
 be killed between any two steps. The profile graph gets in once, or a note that it is invalid does.
 */
module Recovery {
  import opened Results

  const RECOVERY_VERSION := 1
  const POST_EXIT := "post-exit"
  const MAX_PID: int := 0x7fff_ffff_ffff_ffff

  datatype Status = Pending | Assembled | Complete

  /** A session is known to its checkpoint by an identity. */
  datatype RecoveryNote = RecoveryNote(
    version: int,
    checkpoint: string,
    status: Status,
    recovered: bool,
    profile: Option<int>,
    rootPid: Option<int>,
    entity: Option<string>)

  datatype Instrumentation = Evidence(report: string) | Invalid(error: string)

  datatype Metadata = Metadata(
    others: map<string, string>,
    captureOthers: map<string, string>,
    recovery: Option<RecoveryNote>,
    instrumentation: Option<Instrumentation>,
    worker: Option<bool>)

  function WithRecovery(m: Metadata, status: Status, recovered: bool, profile: Option<int>, rootPid: Option<int>,
                        entity: Option<string>): Metadata
  {
    m.(recovery := Some(RecoveryNote(RECOVERY_VERSION, POST_EXIT, status, recovered, profile, rootPid, entity)))
  }

  function WithInstrumentation(m: Metadata, instrumentation: Instrumentation): Metadata {
    m.(instrumentation := Some(instrumentation))
  }

  function Completed(m: Metadata, recovered: bool): Metadata {
    WithRecovery(m, Complete, recovered, None, None, None)
  }

  datatype RecoveryError =
    | NoCheckpoint
    | UnsupportedVersion
    | UnsupportedKind
    | IncompleteIdentity
    | InvalidEntity
    | InvalidPid
    | SessionGone

  function RecoveryObject(m: Metadata): Result<RecoveryNote, RecoveryError> {
    if m.recovery.None? then Err(NoCheckpoint)
    else if m.recovery.value.version != RECOVERY_VERSION then Err(UnsupportedVersion)
    else if m.recovery.value.checkpoint != POST_EXIT then Err(UnsupportedKind)
    else Ok(m.recovery.value)
  }

  datatype Session = Intact | PartlyRemoved | Removed

  /** The profile a pending checkpoint is waiting for, if any. */
  function PendingProfile(note: RecoveryNote, entities: set<string>, session: Session)
    : Result<Option<int>, RecoveryError>
  {
    if note.profile.None? then
      if note.entity.Some? || note.rootPid.Some? then Err(IncompleteIdentity) else Ok(None)
    else if note.entity.None? || note.entity.value == "" || note.entity.value !in entities then Err(InvalidEntity)
    else if note.rootPid.None? || !(0 < note.rootPid.value <= MAX_PID) then Err(InvalidPid)
    else if session.Removed? then Err(SessionGone)
    else Ok(note.profile)
  }

  /**
   What is given once and for all: the capture as it was when the workload had exited. Without a profile its metadata may
   carry a note on instrumentation: that of a session that could not be checkpointed.
   */
  datatype Capture = Capture(
    profile: Option<int>,
    pid: int,
    entity: string,
    entities: set<string>,
    report: string,
    metadata: Metadata)

  ghost predicate Sound(c: Capture) {
    && c.entity != "" && c.entity in c.entities && 0 < c.pid <= MAX_PID
    && c.metadata.recovery.None? && (c.profile.Some? ==> c.metadata.instrumentation.None?)
  }

  datatype Stage =
    | BeforeCheckpoint
    | CheckpointWritten
    | Ready
    | AssembledStage
    | Removing
    | Closed
    | CompleteStage
    | Noted
    | Linked

  /** Nobody, the recorder, or a recovery, with the metadata it has in hand. */
  datatype Controller = Nobody | Working(recovering: bool, stage: Stage, metadata: Metadata)

  /** The runpack under its temporary name, and whether it also bears its published one. */
  datatype System = System(
    metadata: Metadata,
    graphs: nat,
    temporary: bool,
    published: bool,
    session: Session,
    abandoned: bool,
    controller: Controller)

  /** How loading the session and adding its graph went. */
  datatype Assembly = GraphAdded | LoadFailed(error: string)

  datatype Action =
    | Advance(assembly: Assembly, worker: Option<bool>, ok: bool)
    | Dies
    | Interrupted(removed: bool)
    | Recover(outputFree: bool)

  function Initial(c: Capture): System {
    var session := if c.profile.Some? then Intact else Removed;
    System(c.metadata, 0, true, false, session, false, Working(false, BeforeCheckpoint, c.metadata))
  }

  function Writes(s: System, metadata: Metadata, stage: Stage): System
    requires s.controller.Working?
  {
    s.(metadata := metadata, controller := Working(s.controller.recovering, stage, metadata))
  }

  function Moves(s: System, stage: Stage): System
    requires s.controller.Working?
  {
    s.(controller := s.controller.(stage := stage))
  }

  /** The pending checkpoint: with a profile session, it tells where to find it and what it belongs to. */
  function Checkpointed(c: Capture, m: Metadata): Metadata {
    WithRecovery(m, Pending, false, c.profile, if c.profile.Some? then Some(c.pid) else None,
                 if c.profile.Some? then Some(c.entity) else None)
  }

  function AssembledWith(c: Capture, m: Metadata, assembly: Assembly, recovered: bool): Metadata {
    var instrumentation := if assembly.GraphAdded? then Evidence(c.report) else Invalid(assembly.error);
    WithRecovery(WithInstrumentation(m, instrumentation), Assembled, recovered, c.profile, None, None)
  }

  /** The next step of whoever is at work. */
  function Advanced(c: Capture, s: System, a: Action): System
    requires s.controller.Working? && a.Advance?
  {
    var m := s.controller.metadata;
    var recovering := s.controller.recovering;
    match s.controller.stage
    case BeforeCheckpoint => Writes(s, Checkpointed(c, m), CheckpointWritten)
    case CheckpointWritten => Moves(s, Ready)
    case Ready =>
      if c.profile.Some? then
        Writes(s, AssembledWith(c, m, a.assembly, recovering), AssembledStage)
          .(graphs := if a.assembly.GraphAdded? then s.graphs + 1 else s.graphs)
      else Writes(s, Completed(m, recovering), CompleteStage)
    case AssembledStage => Moves(s, Removing).(session := if s.session.Removed? then Removed else PartlyRemoved)
    case Removing => Moves(s, Closed).(session := Removed)
    case Closed => Writes(s, Completed(m, recovering), CompleteStage)
    case CompleteStage =>
      if a.worker.Some? && !recovering then Writes(s, m.(worker := a.worker), Noted) else Moves(s, Noted)
    case Noted => if a.ok then Moves(s, Linked).(published := true) else s.(controller := Nobody)
    case Linked => s.(temporary := !a.ok, controller := Nobody)
  }

  /** Where a recovery takes up the work, from what the metadata says. */
  function Resumed(c: Capture, s: System): Controller {
    match RecoveryObject(s.metadata)
    case Err(_) => Nobody
    case Ok(note) =>
      match note.status
      case Pending => (
        match PendingProfile(note, c.entities, s.session)
        case Err(_) => Nobody
        case Ok(profile) => Working(true, if profile.Some? then Ready else Closed, s.metadata)
      )
      case Assembled =>
        Working(true, if note.profile.Some? && !s.session.Removed? then AssembledStage else Closed, s.metadata)
      case Complete => Working(true, Closed, s.metadata)
  }

  function Step(c: Capture, s: System, a: Action): System {
    match a
    case Advance(_, _, _) => if s.controller.Working? then Advanced(c, s, a) else s
    case Dies => s.(controller := Nobody)
    case Interrupted(removed) =>
      if s.controller.Working? && !s.controller.recovering
         && (s.controller.stage.BeforeCheckpoint? || s.controller.stage.CheckpointWritten?)
      then s.(temporary := !removed, session := Removed, abandoned := true, controller := Nobody)
      else s
    case Recover(outputFree) =>
      if s.controller.Nobody? && s.temporary && outputFree then s.(controller := Resumed(c, s)) else s
  }

  function Run(c: Capture, s: System, actions: seq<Action>): System
    decreases |actions|
  {
    if actions == [] then s else Run(c, Step(c, s, actions[0]), actions[1..])
  }

  // ----- What every step keeps -----

  predicate In(m: Metadata, status: Status) {
    m.recovery.Some? && m.recovery.value.status == status
  }

  predicate Unassembled(m: Metadata) {
    m.recovery.None? || In(m, Pending)
  }

  /** The graph is in the runpack exactly once and vouched for, or not at all and declared invalid; without one, the note is
   the one there was. */
  predicate Accounted(c: Capture, m: Metadata, graphs: nat) {
    if c.profile.None? then graphs == 0 && m.instrumentation == c.metadata.instrumentation
    else
      || (graphs == 1 && m.instrumentation == Some(Evidence(c.report)))
      || (graphs == 0 && m.instrumentation.Some? && m.instrumentation.value.Invalid?)
  }

  /** What the metadata says at its status, and that nothing else in it was touched. */
  ghost predicate Faithful(c: Capture, m: Metadata, graphs: nat) {
    && m.others == c.metadata.others && m.captureOthers == c.metadata.captureOthers
    && (m.recovery.Some? ==> RecoveryObject(m).Ok?)
    && (Unassembled(m) ==> graphs == 0 && m.instrumentation == c.metadata.instrumentation)
    && (In(m, Pending) ==> m.recovery == Checkpointed(c, m).recovery)
    && (In(m, Assembled) ==> c.profile.Some? && m.recovery.value.profile == c.profile)
    && (In(m, Assembled) || In(m, Complete) ==> Accounted(c, m, graphs))
    && (In(m, Complete) ==> m == Completed(m, m.recovery.value.recovered))
  }

  ghost predicate AtStage(c: Capture, s: System, stage: Stage) {
    match stage
    case BeforeCheckpoint => s.metadata.recovery.None?
    case CheckpointWritten => In(s.metadata, Pending)
    case Ready => In(s.metadata, Pending)
    case AssembledStage => In(s.metadata, Assembled)
    case Removing => In(s.metadata, Assembled)
    case Closed =>
      && s.metadata.recovery.Some? && (In(s.metadata, Pending) ==> c.profile.None?)
      && (c.profile.Some? ==> s.session.Removed?)
    case CompleteStage => In(s.metadata, Complete)
    case Noted => In(s.metadata, Complete)
    case Linked => In(s.metadata, Complete) && s.published
  }

  ghost predicate Valid(c: Capture, s: System) {
    && Sound(c) && Faithful(c, s.metadata, s.graphs)
    && (c.profile.Some? && Unassembled(s.metadata) ==> if s.abandoned then s.session.Removed? else s.session.Intact?)
    && (c.profile.Some? && s.abandoned ==> Unassembled(s.metadata) && s.controller.Nobody?)
    && (s.published ==> In(s.metadata, Complete))
    && (c.profile.Some? && In(s.metadata, Complete) ==> s.session.Removed?)
    && (s.controller.Working? ==>
          && s.temporary && s.controller.metadata == s.metadata
          && AtStage(c, s, s.controller.stage))
  }

  lemma InitialValid(c: Capture)
    requires Sound(c)
    ensures Valid(c, Initial(c))
  {
  }

  lemma CheckpointKeeps(c: Capture, s: System, a: Action)
    requires Valid(c, s) && s.controller.Working? && a.Advance? && s.controller.stage.BeforeCheckpoint?
    ensures Valid(c, Advanced(c, s, a))
  {
  }

  lemma AssembleKeeps(c: Capture, s: System, a: Action)
    requires Valid(c, s) && s.controller.Working? && a.Advance? && s.controller.stage.Ready? && c.profile.Some?
    ensures Valid(c, Advanced(c, s, a))
  {
  }

  lemma CompleteKeeps(c: Capture, s: System, a: Action)
    requires Valid(c, s) && s.controller.Working? && a.Advance?
    requires s.controller.stage.Closed? || (s.controller.stage.Ready? && c.profile.None?)
    ensures Valid(c, Advanced(c, s, a))
  {
  }

  lemma NoteKeeps(c: Capture, s: System, a: Action)
    requires Valid(c, s) && s.controller.Working? && a.Advance? && s.controller.stage.CompleteStage?
    ensures Valid(c, Advanced(c, s, a))
  {
  }

  lemma AdvanceKeeps(c: Capture, s: System, a: Action)
    requires Valid(c, s) && s.controller.Working? && a.Advance?
    ensures Valid(c, Advanced(c, s, a))
  {
    match s.controller.stage {
      case BeforeCheckpoint => CheckpointKeeps(c, s, a);
      case Ready => if c.profile.Some? { AssembleKeeps(c, s, a); } else { CompleteKeeps(c, s, a); }
      case Closed => CompleteKeeps(c, s, a);
      case CompleteStage => NoteKeeps(c, s, a);
      case _ =>
    }
  }

  lemma RecoverKeeps(c: Capture, s: System)
    requires Valid(c, s) && s.controller.Nobody? && s.temporary
    ensures Valid(c, s.(controller := Resumed(c, s)))
  {
  }

  lemma StepKeeps(c: Capture, s: System, a: Action)
    requires Valid(c, s)
    ensures Valid(c, Step(c, s, a))
  {
    if a.Advance? && s.controller.Working? {
      AdvanceKeeps(c, s, a);
    } else if a.Recover? && s.controller.Nobody? && s.temporary {
      RecoverKeeps(c, s);
    }
  }

  /** After any run of recording, crashes and recoveries. */
  lemma {:induction false} RunKeeps(c: Capture, s: System, actions: seq<Action>)
    requires Valid(c, s)
    ensures Valid(c, Run(c, s, actions))
    decreases |actions|
  {
    if actions != [] {
      StepKeeps(c, s, actions[0]);
      RunKeeps(c, Step(c, s, actions[0]), actions[1..]);
    }
  }

  /** A pending checkpoint says where the profile is, and what process and entity it belongs to, if there is one. */
  predicate PointsTo(note: RecoveryNote, c: Capture) {
    if c.profile.None? then note.profile.None? && note.rootPid.None? && note.entity.None?
    else note.profile == c.profile && note.rootPid == Some(c.pid) && note.entity == Some(c.entity)
  }

  /**
   At any point of any run: what is published is complete, accounts for the profile and has no session left; a pending
   checkpoint points to its session, which is intact unless the recorder was interrupted just before it took over.
   */
  lemma EveryRun(c: Capture, actions: seq<Action>)
    requires Sound(c)
    ensures var s := Run(c, Initial(c), actions);
            && (s.published ==> In(s.metadata, Complete) && Accounted(c, s.metadata, s.graphs))
            && (s.published && c.profile.Some? ==> s.session.Removed?)
            && (In(s.metadata, Pending) ==> PointsTo(s.metadata.recovery.value, c))
            && (c.profile.Some? && In(s.metadata, Pending) ==> (s.session.Intact? <==> !s.abandoned))
            && s.graphs <= 1
            && s.metadata.others == c.metadata.others && s.metadata.captureOthers == c.metadata.captureOthers
  {
    InitialValid(c);
    RunKeeps(c, Initial(c), actions);
  }

  /** An interrupted recorder gives its session up and removes what it wrote, if it can; later it is as if it were killed. */
  lemma InterruptedTells(c: Capture, s: System, removed: bool)
    requires Valid(c, s)
    ensures var next := Step(c, s, Interrupted(removed));
            if s.controller.Working? && !s.controller.recovering && !s.controller.stage.Ready? && Left(s.controller.stage) > 7
            then
              && next.temporary == !removed && next.session.Removed? && next.controller.Nobody?
              && next.metadata == s.metadata && next.graphs == s.graphs && next.published == s.published
            else next == s
  {
  }

  /** A runpack whose name is taken is not published, and whoever was at work gives up without touching it. */
  lemma RefusedTells(c: Capture, s: System, a: Action)
    requires Valid(c, s) && a.Advance? && s.controller.Working? && s.controller.stage.Noted?
    ensures Step(c, s, a)
            == if a.ok then s.(published := true, controller := Working(s.controller.recovering, Linked, s.metadata))
               else s.(controller := Nobody)
  {
  }

  // ----- What the profile graph came to -----

  /** The step in which the session is loaded, or there is none to load. */
  predicate LeavesReady(s: System, a: Action) {
    a.Advance? && s.controller.Working? && s.controller.stage.Ready?
  }

  /** How loading the session went, the last time anybody did, and whether that was a recovery. */
  datatype Outcome = Outcome(assembly: Assembly, recovering: bool)

  function OutcomeOf(s: System, a: Action): Outcome
    requires LeavesReady(s, a)
  {
    Outcome(a.assembly, s.controller.recovering)
  }

  function LastOutcome(c: Capture, s: System, actions: seq<Action>): Option<Outcome>
    decreases |actions|
  {
    if actions == [] then None
    else
      var later := LastOutcome(c, Step(c, s, actions[0]), actions[1..]);
      if later.Some? then later
      else if LeavesReady(s, actions[0]) then Some(OutcomeOf(s, actions[0]))
      else None
  }

  /** A session that could be loaded has its graph in the runpack and its evidence in the metadata; another left its error. */
  predicate Told(c: Capture, s: System, assembly: Assembly) {
    match assembly
    case GraphAdded => s.graphs == 1 && s.metadata.instrumentation == Some(Evidence(c.report))
    case LoadFailed(error) => s.graphs == 0 && s.metadata.instrumentation == Some(Invalid(error))
  }

  predicate Tells(c: Capture, s: System, outcome: Option<Outcome>) {
    match outcome
    case None => Unassembled(s.metadata) && s.graphs == 0 && s.metadata.instrumentation == c.metadata.instrumentation
    case Some(o) =>
      && !Unassembled(s.metadata) && Told(c, s, o.assembly)
      && (In(s.metadata, Assembled) ==> s.metadata.recovery.value.recovered == o.recovering)
  }

  lemma StepTells(c: Capture, s: System, a: Action, outcome: Option<Outcome>)
    requires Valid(c, s) && c.profile.Some? && Tells(c, s, outcome)
    ensures Tells(c, Step(c, s, a), if LeavesReady(s, a) then Some(OutcomeOf(s, a)) else outcome)
  {
  }

  lemma {:induction false} RunTells(c: Capture, s: System, actions: seq<Action>, outcome: Option<Outcome>)
    requires Valid(c, s) && c.profile.Some? && Tells(c, s, outcome)
    ensures var last := LastOutcome(c, s, actions);
            Tells(c, Run(c, s, actions), if last.Some? then last else outcome)
    decreases |actions|
  {
    if actions != [] {
      StepKeeps(c, s, actions[0]);
      StepTells(c, s, actions[0], outcome);
      var now := if LeavesReady(s, actions[0]) then Some(OutcomeOf(s, actions[0])) else outcome;
      RunTells(c, Step(c, s, actions[0]), actions[1..], now);
    }
  }

  /**
   In every run, whoever loads the session and however often it is tried: the graph is in the runpack, exactly once and with
   its evidence, if the last load succeeded, and else the note has that load's error. Before it there is neither.
   */
  lemma AssemblyTells(c: Capture, actions: seq<Action>)
    requires Sound(c) && c.profile.Some?
    ensures Tells(c, Run(c, Initial(c), actions), LastOutcome(c, Initial(c), actions))
  {
    InitialValid(c);
    RunTells(c, Initial(c), actions, None);
  }

  /** What has been assembled is not assembled again. */
  lemma {:induction false} AssembledOnce(c: Capture, s: System, actions: seq<Action>)
    requires Valid(c, s) && !Unassembled(s.metadata)
    ensures LastOutcome(c, s, actions) == None && !Unassembled(Run(c, s, actions).metadata)
    decreases |actions|
  {
    if actions != [] {
      StepKeeps(c, s, actions[0]);
      AssembledOnce(c, Step(c, s, actions[0]), actions[1..]);
    }
  }

  // ----- The note on the worker's client -----

  /** The recorder notes the worker's client between completing the metadata and publishing it, and nobody else does. */
  lemma WorkerNoted(c: Capture, s: System, a: Action)
    requires Valid(c, s)
    ensures Step(c, s, a).metadata.worker
            == if a.Advance? && a.worker.Some? && s.controller.Working? && !s.controller.recovering
                  && s.controller.stage.CompleteStage?
               then a.worker else s.metadata.worker
  {
  }

  /** The recorder is past its note on the worker's client, or somebody else is at work. */
  predicate PastNote(s: System) {
    s.controller.Working? && !s.controller.recovering ==> s.controller.stage.Noted? || s.controller.stage.Linked?
  }

  lemma {:induction false} WorkerStays(c: Capture, s: System, actions: seq<Action>)
    requires Valid(c, s) && PastNote(s)
    ensures Run(c, s, actions).metadata.worker == s.metadata.worker
    decreases |actions|
  {
    if actions != [] {
      StepKeeps(c, s, actions[0]);
      WorkerNoted(c, s, actions[0]);
      WorkerStays(c, Step(c, s, actions[0]), actions[1..]);
    }
  }

  lemma {:induction false} RunJoins(c: Capture, s: System, first: seq<Action>, second: seq<Action>)
    ensures Run(c, s, first + second) == Run(c, Run(c, s, first), second)
    decreases |first|
  {
    if first == [] {
      assert first + second == second;
    } else {
      assert (first + second)[1..] == first[1..] + second;
      RunJoins(c, Step(c, s, first[0]), first[1..], second);
    }
  }

  // ----- A recovery that is not killed -----

  /** Steps left until whoever is at work is done. */
  function Left(stage: Stage): nat {
    match stage
    case BeforeCheckpoint => 9
    case CheckpointWritten => 8
    case Ready => 7
    case AssembledStage => 6
    case Removing => 5
    case Closed => 4
    case CompleteStage => 3
    case Noted => 2
    case Linked => 1
  }

  /** Advancing without failures of publication. */
  predicate Unhindered(actions: seq<Action>) {
    forall i :: 0 <= i < |actions| ==> actions[i].Advance? && actions[i].ok
  }

  /** Whose word the metadata is on: once complete, that of whoever is finishing. */
  predicate SignedBy(m: Metadata, recovering: bool, stage: Stage) {
    stage.CompleteStage? || stage.Noted? || stage.Linked? ==> m.recovery.Some? && m.recovery.value.recovered == recovering
  }

  lemma {:induction false} WorkEnds(c: Capture, s: System, actions: seq<Action>, recovering: bool)
    requires Valid(c, s) && Unhindered(actions)
    requires if s.controller.Working? then
               && |actions| >= Left(s.controller.stage)
               && s.controller.recovering == recovering && SignedBy(s.metadata, recovering, s.controller.stage)
             else s.published && !s.temporary && SignedBy(s.metadata, recovering, Linked)
    ensures var end := Run(c, s, actions);
            && end.published && !end.temporary && end.controller.Nobody? && end.abandoned == s.abandoned
            && SignedBy(end.metadata, recovering, Linked)
    decreases |actions|
  {
    if actions != [] {
      StepKeeps(c, s, actions[0]);
      if s.controller.Working? {
        WorkSigns(c, s, actions[0], recovering);
      }
      WorkEnds(c, Step(c, s, actions[0]), actions[1..], recovering);
    }
  }

  /** The work goes on by a stage, under the same name. */
  predicate GoesOn(before: System, after: System, recovering: bool) {
    if after.controller.Working? then
      && before.controller.Working? && Left(after.controller.stage) < Left(before.controller.stage)
      && after.controller.recovering == recovering && SignedBy(after.metadata, recovering, after.controller.stage)
    else after.published && !after.temporary && SignedBy(after.metadata, recovering, Linked)
  }

  /** The first stages, before anything is signed. */
  lemma FirstWork(c: Capture, s: System, a: Action, recovering: bool)
    requires a.Advance? && s.controller.Working? && s.controller.recovering == recovering
    requires var stage := s.controller.stage;
             stage.BeforeCheckpoint? || stage.CheckpointWritten? || stage.Ready? || stage.AssembledStage? || stage.Removing?
    ensures GoesOn(s, Advanced(c, s, a), recovering)
  {
  }

  lemma LastWork(c: Capture, s: System, a: Action, recovering: bool)
    requires a.Advance? && a.ok && s.controller.Working? && s.controller.metadata == s.metadata
    requires s.controller.recovering == recovering && SignedBy(s.metadata, recovering, s.controller.stage)
    requires s.controller.stage.Linked? ==> s.published
    requires var stage := s.controller.stage;
             stage.Closed? || stage.CompleteStage? || stage.Noted? || stage.Linked?
    ensures GoesOn(s, Advanced(c, s, a), recovering)
  {
  }

  lemma WorkSigns(c: Capture, s: System, a: Action, recovering: bool)
    requires a.Advance? && a.ok && s.controller.Working? && s.controller.metadata == s.metadata
    requires s.controller.stage.Linked? ==> s.published
    requires s.controller.recovering == recovering && SignedBy(s.metadata, recovering, s.controller.stage)
    ensures GoesOn(s, Step(c, s, a), recovering) && Step(c, s, a).abandoned == s.abandoned
  {
    match s.controller.stage
    case BeforeCheckpoint => FirstWork(c, s, a, recovering);
    case CheckpointWritten => FirstWork(c, s, a, recovering);
    case Ready => FirstWork(c, s, a, recovering);
    case AssembledStage => FirstWork(c, s, a, recovering);
    case Removing => FirstWork(c, s, a, recovering);
    case _ => LastWork(c, s, a, recovering);
  }

  /** The recovery note of a published runpack. */
  function FinalNote(recovered: bool): RecoveryNote {
    RecoveryNote(RECOVERY_VERSION, POST_EXIT, Complete, recovered, None, None, None)
  }

  /**
   A recorder that is not disturbed publishes a complete runpack that does not claim to have been recovered, with the graph if
   the session could be loaded, and with the note on the worker's client.
   */
  lemma RecordingPublishes(c: Capture, actions: seq<Action>)
    requires Sound(c) && Unhindered(actions) && |actions| >= 9
    ensures var end := Run(c, Initial(c), actions);
            && end.published && !end.temporary && end.controller.Nobody?
            && end.metadata.recovery == Some(FinalNote(false)) && Accounted(c, end.metadata, end.graphs)
            && (c.profile.Some? ==> Told(c, end, actions[2].assembly))
            && end.metadata.worker == (var a := actions[NoteStep(c)]; if a.worker.Some? then a.worker else c.metadata.worker)
  {
    InitialValid(c);
    WorkEnds(c, Initial(c), actions, false);
    RunKeeps(c, Initial(c), actions);
    RecordingTells(c, actions);
    RecordingNotes(c, actions);
  }

  /** The step in which an undisturbed recorder notes the worker's client. */
  function NoteStep(c: Capture): nat {
    if c.profile.Some? then 6 else 3
  }

  /** Where an undisturbed recorder is after so many steps. */
  function StageAfter(c: Capture, n: nat): Stage
    requires n <= NoteStep(c)
  {
    if n == NoteStep(c) then CompleteStage
    else
      match n
      case 0 => BeforeCheckpoint
      case 1 => CheckpointWritten
      case 2 => Ready
      case 3 => AssembledStage
      case 4 => Removing
      case _ => Closed
  }

  lemma {:induction false} Progresses(c: Capture, actions: seq<Action>, n: nat)
    requires Sound(c) && Unhindered(actions) && n <= |actions| && n <= NoteStep(c)
    ensures var s := Run(c, Initial(c), actions[..n]);
            && Valid(c, s) && s.controller.Working? && !s.controller.recovering
            && s.controller.stage == StageAfter(c, n) && s.metadata.worker == c.metadata.worker
  {
    if n == 0 {
      InitialValid(c);
    } else {
      var s := Run(c, Initial(c), actions[..n - 1]);
      Progresses(c, actions, n - 1);
      assert actions[..n] == actions[..n - 1] + [actions[n - 1]];
      RunJoins(c, Initial(c), actions[..n - 1], [actions[n - 1]]);
      assert [actions[n - 1]][1..] == [];
      assert Run(c, Initial(c), actions[..n]) == Step(c, s, actions[n - 1]);
      StepKeeps(c, s, actions[n - 1]);
      WorkerNoted(c, s, actions[n - 1]);
      NextStage(c, s, actions[n - 1], n - 1);
    }
  }

  lemma NextStage(c: Capture, s: System, a: Action, n: nat)
    requires Valid(c, s) && a.Advance? && n < NoteStep(c)
    requires s.controller.Working? && !s.controller.recovering && s.controller.stage == StageAfter(c, n)
    ensures var next := Step(c, s, a);
            next.controller.Working? && !next.controller.recovering && next.controller.stage == StageAfter(c, n + 1)
  {
  }

  lemma RecordingTells(c: Capture, actions: seq<Action>)
    requires Sound(c) && Unhindered(actions) && |actions| >= 9
    ensures c.profile.Some? ==> Told(c, Run(c, Initial(c), actions), actions[2].assembly)
  {
    if c.profile.Some? {
      var s := Run(c, Initial(c), actions[..2]);
      Progresses(c, actions, 2);
      var rest := actions[2..];
      assert actions == actions[..2] + rest && rest[0] == actions[2];
      RunJoins(c, Initial(c), actions[..2], rest);
      var next := Step(c, s, rest[0]);
      StepKeeps(c, s, rest[0]);
      StepTells(c, s, rest[0], None);
      RunTells(c, next, rest[1..], Some(OutcomeOf(s, rest[0])));
      AssembledOnce(c, next, rest[1..]);
    }
  }

  lemma RecordingNotes(c: Capture, actions: seq<Action>)
    requires Sound(c) && Unhindered(actions) && |actions| >= 9
    ensures var a := actions[NoteStep(c)];
            Run(c, Initial(c), actions).metadata.worker == if a.worker.Some? then a.worker else c.metadata.worker
  {
    var k := NoteStep(c);
    var s := Run(c, Initial(c), actions[..k]);
    Progresses(c, actions, k);
    var rest := actions[k..];
    assert actions == actions[..k] + rest && rest[0] == actions[k];
    RunJoins(c, Initial(c), actions[..k], rest);
    StepKeeps(c, s, rest[0]);
    WorkerNoted(c, s, rest[0]);
    WorkerStays(c, Step(c, s, rest[0]), rest[1..]);
  }

  /**
   From every state in which a run can leave a checkpoint behind, one recovery that runs to its end publishes a complete
   runpack that accounts for the profile and says that it was recovered, whether loading the session succeeds or not; if it
   is still to be loaded, the graph gets in exactly if that succeeds.
   */
  lemma RecoveryPublishes(c: Capture, s: System, actions: seq<Action>)
    requires Valid(c, s) && s.controller.Nobody? && s.temporary && s.metadata.recovery.Some?
    requires c.profile.Some? ==> !s.abandoned
    requires Unhindered(actions) && |actions| >= 7
    ensures var end := Run(c, s, [Recover(true)] + actions);
            && end.published && !end.temporary && end.controller.Nobody?
            && end.metadata.recovery == Some(FinalNote(true)) && Accounted(c, end.metadata, end.graphs)
            && (c.profile.Some? && In(s.metadata, Pending) ==> Told(c, end, actions[0].assembly))
            && (!In(s.metadata, Pending) ==> end.graphs == s.graphs && end.metadata.instrumentation == s.metadata.instrumentation)
            && end.metadata.worker == s.metadata.worker
  {
    var all := [Recover(true)] + actions;
    assert all[1..] == actions;
    var next := Step(c, s, Recover(true));
    StepKeeps(c, s, Recover(true));
    WorkEnds(c, next, actions, true);
    RunKeeps(c, next, actions);
    WorkerStays(c, next, actions);
    if !In(s.metadata, Pending) {
      AssembledStays(c, next, actions);
    } else if c.profile.Some? {
      var loaded := Step(c, next, actions[0]);
      StepKeeps(c, next, actions[0]);
      StepTells(c, next, actions[0], None);
      RunTells(c, loaded, actions[1..], Some(OutcomeOf(next, actions[0])));
      AssembledOnce(c, loaded, actions[1..]);
    }
  }

  /** What has been assembled stays as it is. */
  lemma {:induction false} AssembledStays(c: Capture, s: System, actions: seq<Action>)
    requires Valid(c, s) && !Unassembled(s.metadata)
    ensures var end := Run(c, s, actions);
            end.graphs == s.graphs && end.metadata.instrumentation == s.metadata.instrumentation
    decreases |actions|
  {
    if actions != [] {
      StepKeeps(c, s, actions[0]);
      AssembledStays(c, Step(c, s, actions[0]), actions[1..]);
    }
  }

  /** A checkpoint whose session was given up cannot be recovered by anyone. */
  lemma {:induction false} AbandonedIsStuck(c: Capture, s: System, actions: seq<Action>)
    requires Valid(c, s) && c.profile.Some? && s.abandoned
    ensures !Run(c, s, actions).published && Run(c, s, actions).metadata == s.metadata
    decreases |actions|
  {
    if actions != [] {
      StepKeeps(c, s, actions[0]);
      AbandonedIsStuck(c, Step(c, s, actions[0]), actions[1..]);
    }
  }

  /** A pending checkpoint names a profile session that is not there any more. */
  predicate SessionLost(s: System) {
    In(s.metadata, Pending) && s.metadata.recovery.value.profile.Some? && s.session.Removed?
  }

  lemma LostIsAbandoned(c: Capture, s: System)
    requires Valid(c, s) && s.metadata.recovery.Some?
    ensures SessionLost(s) <==> c.profile.Some? && s.abandoned
  {
  }

  /** A checkpoint that was left behind can still be published exactly unless it is pending without its session. */
  lemma RecoverableIff(c: Capture, s: System)
    requires Valid(c, s) && s.controller.Nobody? && s.temporary && s.metadata.recovery.Some? && !s.published
    ensures (exists actions :: Run(c, s, actions).published) <==> !SessionLost(s)
  {
    LostIsAbandoned(c, s);
    if SessionLost(s) {
      forall actions
        ensures !Run(c, s, actions).published
      {
        AbandonedIsStuck(c, s, actions);
      }
    } else {
      var go := Advance(GraphAdded, None, true);
      var actions := [go, go, go, go, go, go, go];
      RecoveryPublishes(c, s, actions);
      assert Run(c, s, [Recover(true)] + actions).published;
    }
  }

  /** Interrupted right after writing the checkpoint, and unable to remove it, a recorder leaves it without its session. */
  lemma SessionCanBeLost(c: Capture)
    requires Sound(c) && c.profile.Some?
    ensures var s := Run(c, Initial(c), [Advance(GraphAdded, None, true), Interrupted(false)]);
            s.controller.Nobody? && s.temporary && !s.published && SessionLost(s)
  {
    var actions := [Advance(GraphAdded, None, true), Interrupted(false)];
    var written := Step(c, Initial(c), actions[0]);
    var left := Step(c, written, actions[1]);
    assert actions[1..] == [actions[1]] && actions[1..][1..] == [];
    assert Run(c, written, actions[1..]) == Run(c, left, []);
  }

  /** The interruption that loses a session: the checkpoint is written and cannot be removed. */
  predicate Loses(s: System, a: Action) {
    && a == Interrupted(false) && s.controller.Working? && !s.controller.recovering
    && s.controller.stage.CheckpointWritten?
  }

  ghost predicate LosesWithin(c: Capture, s: System, actions: seq<Action>)
    decreases |actions|
  {
    actions != [] && (Loses(s, actions[0]) || LosesWithin(c, Step(c, s, actions[0]), actions[1..]))
  }

  /** What was given up stays as it is. */
  lemma {:induction false} AbandonedStays(c: Capture, s: System, actions: seq<Action>)
    requires Valid(c, s) && c.profile.Some? && s.abandoned
    ensures var end := Run(c, s, actions);
            end.metadata == s.metadata && end.temporary == s.temporary && end.session == s.session
    ensures !LosesWithin(c, s, actions)
    decreases |actions|
  {
    if actions != [] {
      StepKeeps(c, s, actions[0]);
      AbandonedStays(c, Step(c, s, actions[0]), actions[1..]);
    }
  }

  lemma AbandonsIff(c: Capture, s: System, a: Action)
    requires Valid(c, s) && c.profile.Some? && !s.abandoned
    ensures var next := Step(c, s, a);
            && (Loses(s, a) ==> next.abandoned && next.temporary && SessionLost(next))
            && (next.abandoned && !Loses(s, a) ==> !(next.temporary && SessionLost(next)))
  {
  }

  /**
   A run leaves a pending checkpoint that has lost its session exactly if the recorder is interrupted in it between writing
   the checkpoint and taking it over, and cannot remove it.
   */
  lemma {:induction false} SessionLostIff(c: Capture, s: System, actions: seq<Action>)
    requires Valid(c, s) && c.profile.Some? && (s.abandoned ==> !s.temporary)
    ensures var end := Run(c, s, actions);
            end.temporary && SessionLost(end) <==> LosesWithin(c, s, actions)
    decreases |actions|
  {
    if s.abandoned {
      AbandonedStays(c, s, actions);
    } else if actions != [] {
      var next := Step(c, s, actions[0]);
      StepKeeps(c, s, actions[0]);
      AbandonsIff(c, s, actions[0]);
      if next.abandoned {
        AbandonedStays(c, next, actions[1..]);
      } else {
        SessionLostIff(c, next, actions[1..]);
      }
    }
  }
}
