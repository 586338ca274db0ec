/**
 Following the output of a detached job (src/runtime_tools/cli.py, src/runtime_tools/capture_jobs/_service.py and _output.py).

 A follower polls the record, the heads and in the end the tails, which drains may still be writing. What it prints is final
 if the worker (src/runtime_tools/capture_worker.py) joined its drains before it finished the record.
 */
module Follower {
  import opened Results
  import opened CaptureJob
  import opened OutputDrain

  // ----- The worker and its drains -----

  /** What the main thread is about when it finishes its spool: a handler, or at last the release of its lock. */
  datatype Way = Normal | Failing | Interrupt | Error | Last

  /** The main thread is before, in or after the call that finishes the spool. */
  datatype Main = Working | Leaving(way: Way) | Joining(way: Way) | Ready(way: Way) | Gone

  datatype World = World(
    stdout: Output,
    stderr: Output,
    stdoutDrains: bool,
    stderrDrains: bool,
    main: Main,
    spoolFinished: bool,
    ended: bool)

  const START := World(Output([], []), Output([], []), true, true, Working, false, false)

  datatype Move =
    | Drains(stream: Stream, write: Write)
    | DrainEnds(stream: Stream)
    | Leaves(way: Way)
    | Enters
    | Joined
    | JoinFails
    | Interrupts
    | Fails
    | Finishes(raised: Option<Way>)
    | Releases
    | Dies
    | DeclaresLost

  function Of(w: World, stream: Stream): Output {
    if stream.Stdout? then w.stdout else w.stderr
  }

  predicate Draining(w: World, stream: Stream) {
    if stream.Stdout? then w.stdoutDrains else w.stderrDrains
  }

  predicate SomeDrains(w: World) {
    w.stdoutDrains || w.stderrDrains
  }

  function WithOutput(w: World, stream: Stream, output: Output): World {
    if stream.Stdout? then w.(stdout := output) else w.(stderr := output)
  }

  /** Where an exception leads: from the body to a handler, from a handler out. */
  function Caught(way: Way, handler: Way): Main {
    if way.Normal? || way.Failing? then Leaving(handler) else Leaving(Last)
  }

  /** One move; one that is not possible changes nothing. */
  function After(w: World, move: Move): World {
    match move
    case Drains(stream, write) =>
      if Draining(w, stream) then WithOutput(w, stream, Wrote(Of(w, stream), write)) else w
    case DrainEnds(stream) =>
      if stream.Stdout? then w.(stdoutDrains := false) else w.(stderrDrains := false)
    case Dies => w.(stdoutDrains := false, stderrDrains := false, main := Gone)
    case DeclaresLost => if w.main.Gone? then w.(ended := true) else w
    case _ => MainMoved(w, move)
  }

  /** A move of the main thread. */
  function MainMoved(w: World, move: Move): World {
    match w.main
    case Working => if move.Leaves? then w.(main := Leaving(move.way)) else w
    case Leaving(way) =>
      if move.Enters? then
        if w.spoolFinished then w.(main := Ready(way)) else w.(main := Joining(way), spoolFinished := true)
      else if move.Interrupts? && !way.Last? then w.(main := Caught(way, Interrupt))
      else w
    case Joining(way) =>
      if move.Joined? && !SomeDrains(w) then w.(main := Ready(way))
      else if move.JoinFails? && SomeDrains(w) then
        w.(main := if way.Error? || way.Last? then Ready(way) else Leaving(Last))
      else if move.Interrupts? && !way.Last? then w.(main := Caught(way, Interrupt))
      else w
    case Ready(way) =>
      if way.Last? then if move.Releases? then w.(main := Gone) else w
      else if move.Finishes? then
        w.(ended := true, main := if move.raised.Some? then Caught(way, move.raised.value) else Leaving(Last))
      else if move.Interrupts? then w.(main := Caught(way, Interrupt))
      else if move.Fails? then w.(main := Caught(way, Error))
      else w
    case Gone => w
  }

  /** The world after so many of the moves. */
  function From(w: World, moves: seq<Move>, moment: nat): World
    requires moment <= |moves|
  {
    if moment == 0 then w else After(From(w, moves, moment - 1), moves[moment - 1])
  }

  function At(moves: seq<Move>, moment: nat): World
    requires moment <= |moves|
  {
    From(START, moves, moment)
  }

  // ----- The order of the drains' ends and the finish -----

  /** What holds of any world that a job gets into. */
  predicate Valid(w: World) {
    match w.main
    case Working => !w.spoolFinished && !w.ended
    case Leaving(_) => w.ended ==> w.spoolFinished
    case Joining(_) => w.spoolFinished && !w.ended
    case Ready(_) => w.spoolFinished
    case Gone => w.spoolFinished || !SomeDrains(w)
  }

  /** The spool counts as finished, and nobody will wait any more for a drain that still runs. */
  predicate Hurried(w: World) {
    SomeDrains(w) && w.spoolFinished && !w.main.Joining?
  }

  /** A move that gives up joining the drains while one of them runs: an interrupt, or the time is up. */
  predicate Hurries(w: World, move: Move) {
    w.main.Joining? && !After(w, move).main.Joining? && SomeDrains(After(w, move))
  }

  ghost predicate Calm(w: World, moves: seq<Move>, moment: nat)
    requires moment <= |moves|
  {
    forall j :: 0 <= j < moment ==> !Hurries(From(w, moves, j), moves[j])
  }

  lemma MovesKeep(w: World, move: Move)
    requires Valid(w)
    ensures Valid(After(w, move))
    ensures !Hurried(w) && !Hurries(w, move) ==> !Hurried(After(w, move))
  {
  }

  lemma {:induction false} CalmKeeps(w: World, moves: seq<Move>, moment: nat)
    requires Valid(w) && moment <= |moves|
    ensures Valid(From(w, moves, moment))
    ensures !Hurried(w) && Calm(w, moves, moment) ==> !Hurried(From(w, moves, moment))
  {
    if moment > 0 {
      CalmKeeps(w, moves, moment - 1);
      MovesKeep(From(w, moves, moment - 1), moves[moment - 1]);
    }
  }

  /** A record turns terminal after both drains ended, unless some move gave up joining them before. */
  lemma EndsAfterDrains(moves: seq<Move>, moment: nat)
    requires moment <= |moves| && Calm(START, moves, moment) && At(moves, moment).ended
    ensures !SomeDrains(At(moves, moment))
  {
    CalmKeeps(START, moves, moment);
  }

  /** Without giving up any join, a job can end while a drain runs exactly when one has been given up already. */
  lemma EndsEarlyIff(w: World)
    requires Valid(w)
    ensures (exists moves: seq<Move> :: Calm(w, moves, |moves|) && EndsEarly(From(w, moves, |moves|))) <==> Hurried(w)
  {
    if Hurried(w) {
      HurriedEndsEarly(w);
    }
    forall moves: seq<Move> | Calm(w, moves, |moves|) && EndsEarly(From(w, moves, |moves|))
      ensures Hurried(w)
    {
      CalmKeeps(w, moves, |moves|);
    }
  }

  predicate EndsEarly(w: World) {
    w.ended && SomeDrains(w)
  }

  lemma HurriedEndsEarly(w: World)
    requires Valid(w) && Hurried(w)
    ensures var moves := [Enters, Finishes(None), Enters, Releases, DeclaresLost];
            Calm(w, moves, 5) && EndsEarly(From(w, moves, 5))
  {
    var moves := [Enters, Finishes(None), Enters, Releases, DeclaresLost];
    var entered := After(w, Enters);
    var finished := After(entered, Finishes(None));
    var again := After(finished, Enters);
    assert From(w, moves, 0) == w;
    assert From(w, moves, 1) == entered && !entered.main.Joining?;
    assert From(w, moves, 2) == finished && !finished.main.Joining?;
    assert From(w, moves, 3) == again && !again.main.Joining?;
    assert From(w, moves, 4) == After(again, Releases) && !After(again, Releases).main.Joining?;
    assert From(w, moves, 5) == After(After(again, Releases), DeclaresLost);
  }

  /**
   An interrupt on the way out, before, in or after the call that finishes the spool, leads from the body to its handler, which
   finishes the spool again, and from a handler out of the worker's work; so does an error once the spool is finished.
   */
  lemma InterruptsTell(w: World)
    requires w.main.Leaving? || w.main.Joining? || w.main.Ready?
    ensures var way := w.main.way;
            After(w, Interrupts)
            == match way
               case Normal => w.(main := Leaving(Interrupt))
               case Failing => w.(main := Leaving(Interrupt))
               case Last => w
               case _ => w.(main := Leaving(Last))
    ensures w.main.Ready? && (w.main.way.Normal? || w.main.way.Failing?) ==> After(w, Fails) == w.(main := Leaving(Error))
  {
  }

  // ----- What the drains write -----

  lemma {:induction false} HeadsGrow(moves: seq<Move>, first: nat, second: nat, stream: Stream)
    requires first <= second <= |moves|
    ensures Of(At(moves, first), stream).head <= Of(At(moves, second), stream).head
    decreases second
  {
    if first < second {
      HeadsGrow(moves, first, second - 1, stream);
    }
  }

  /** What a drain has written is final once it has ended, and not before. */
  lemma {:induction false} DrainedIsFinal(w: World, moves: seq<Move>, moment: nat, stream: Stream)
    requires moment <= |moves| && !Draining(w, stream)
    ensures !Draining(From(w, moves, moment), stream) && Of(From(w, moves, moment), stream) == Of(w, stream)
  {
    if moment > 0 {
      DrainedIsFinal(w, moves, moment - 1, stream);
    }
  }

  lemma {:induction false} Fits(moves: seq<Move>, moment: nat, stream: Stream)
    requires moment <= |moves|
    ensures |Of(At(moves, moment), stream).head| <= HEAD_LIMIT && |Of(At(moves, moment), stream).tail| <= TAIL_LIMIT
  {
    if moment > 0 {
      Fits(moves, moment - 1, stream);
    }
  }

  /** A write that makes the head longer. */
  predicate Appends(w: World, move: Move, stream: Stream) {
    && move.Drains? && move.stream == stream && Draining(w, stream)
    && move.write.Append? && move.write.bytes != [] && |Of(w, stream).head| + |move.write.bytes| <= HEAD_LIMIT
  }

  ghost predicate AppendsWithin(moves: seq<Move>, first: nat, second: nat, stream: Stream)
    requires first <= second <= |moves|
  {
    exists j :: first <= j < second && Appends(At(moves, j), moves[j], stream)
  }

  lemma HeadStepIff(w: World, move: Move, stream: Stream)
    ensures Of(After(w, move), stream).head == Of(w, stream).head <==> !Appends(w, move, stream)
  {
  }

  /** A head is the same at two moments exactly when nothing was appended between them. */
  lemma {:induction false} HeadStaysIff(moves: seq<Move>, first: nat, second: nat, stream: Stream)
    requires first <= second <= |moves|
    ensures Of(At(moves, first), stream).head == Of(At(moves, second), stream).head
            <==> !AppendsWithin(moves, first, second, stream)
    decreases second
  {
    if first < second {
      HeadStaysIff(moves, first, second - 1, stream);
      HeadsGrow(moves, first, second - 1, stream);
      HeadsGrow(moves, second - 1, second, stream);
      HeadStepIff(At(moves, second - 1), moves[second - 1], stream);
      assert AppendsWithin(moves, first, second, stream) <==>
             AppendsWithin(moves, first, second - 1, stream) || Appends(At(moves, second - 1), moves[second - 1], stream);
    }
  }

  // ----- Reading -----

  datatype ReadError = InvalidFile | OffsetTooLarge | InvalidOffset

  const CHUNK: nat := 64 * 1024

  /** Reads from the offset up to the size the file had when it was opened, in reads that may be short, while it may grow. */
  method ReadSegment(openedAs: Bytes, grown: Bytes, offset: nat, limit: nat) returns (result: Result<Bytes, ReadError>)
    requires openedAs <= grown
    ensures result == if |openedAs| > limit then Err(InvalidFile) else if offset > |openedAs| then Err(OffsetTooLarge)
                      else Ok(openedAs[offset..])
  {
    if |openedAs| > limit {
      return Err(InvalidFile);
    }
    if offset > |openedAs| {
      return Err(OffsetTooLarge);
    }
    var remaining: nat := |openedAs| - offset;
    var content: Bytes := [];
    while remaining > 0
      invariant remaining + offset + |content| == |openedAs| <= |grown|
      invariant content == grown[offset..offset + |content|]
    {
      var at := offset + |content|;
      var count: nat :| 0 < count <= CHUNK && count <= remaining;
      content := content + grown[at..at + count];
      remaining := remaining - count;
    }
    assert openedAs == grown[..|openedAs|];
    assert openedAs[offset..] == grown[offset..|openedAs|];
    return Ok(content);
  }

  /** The moments of one poll, in the order of its reads: the record, each head's opening and reading, and the tails. */
  datatype Poll = Poll(
    job: nat,
    stdoutOpened: nat,
    stdoutRead: nat,
    stderrOpened: nat,
    stderrRead: nat,
    stdoutTail: nat,
    stderrTail: nat)

  predicate Ordered(poll: Poll, from: nat, last: nat) {
    from <= poll.job <= poll.stdoutOpened <= poll.stdoutRead <= poll.stderrOpened <= poll.stderrRead
    <= poll.stdoutTail <= poll.stderrTail <= last
  }

  /** Polls one after the other. */
  predicate Sequential(polls: seq<Poll>, from: nat, last: nat) {
    polls == [] || (Ordered(polls[0], from, last) && Sequential(polls[1..], polls[0].stderrTail, last))
  }

  predicate SeesEnd(moves: seq<Move>, poll: Poll) {
    poll.job <= |moves| && At(moves, poll.job).ended
  }

  /** A poll that sees the end, the first one to do so. */
  ghost predicate FirstToSee(moves: seq<Move>, polls: seq<Poll>, i: nat) {
    i < |polls| && SeesEnd(moves, polls[i]) && forall k :: 0 <= k < i ==> !SeesEnd(moves, polls[k])
  }

  function HeadMoment(poll: Poll, stream: Stream): nat {
    if stream.Stdout? then poll.stdoutOpened else poll.stderrOpened
  }

  function TailMoment(poll: Poll, stream: Stream): nat {
    if stream.Stdout? then poll.stdoutTail else poll.stderrTail
  }

  /** What the last poll leaves a follower with: the head when it was opened, and the tail when it was read. */
  function Shown(moves: seq<Move>, poll: Poll, stream: Stream): Output
    requires Ordered(poll, 0, |moves|)
  {
    Output(Of(At(moves, HeadMoment(poll, stream)), stream).head, Of(At(moves, TailMoment(poll, stream)), stream).tail)
  }

  function Flat(output: Output): Bytes {
    output.head + output.tail
  }

  datatype Reading = Reading(stdout: Bytes, stderr: Bytes, terminal: bool, stdoutTail: Bytes, stderrTail: Bytes)

  /** One poll, from offsets that are what was printed of the heads so far. */
  method ReadOutput(moves: seq<Move>, poll: Poll, stdoutOffset: nat, stderrOffset: nat)
    returns (result: Result<Reading, ReadError>)
    requires Ordered(poll, 0, |moves|)
    requires stdoutOffset <= |At(moves, poll.stdoutOpened).stdout.head|
    requires stderrOffset <= |At(moves, poll.stderrOpened).stderr.head|
    ensures result.Ok?
    ensures result.value.terminal == At(moves, poll.job).ended
    ensures result.value.stdout == At(moves, poll.stdoutOpened).stdout.head[stdoutOffset..]
    ensures result.value.stderr == At(moves, poll.stderrOpened).stderr.head[stderrOffset..]
    ensures result.value.terminal ==>
              && result.value.stdoutTail == At(moves, poll.stdoutTail).stdout.tail
              && result.value.stderrTail == At(moves, poll.stderrTail).stderr.tail
  {
    Fits(moves, poll.stdoutOpened, Stdout);
    Fits(moves, poll.stderrOpened, Stderr);
    if stdoutOffset > OUTPUT_LIMIT || stderrOffset > OUTPUT_LIMIT {
      return Err(InvalidOffset);
    }
    var terminal := At(moves, poll.job).ended;
    HeadsGrow(moves, poll.stdoutOpened, poll.stdoutRead, Stdout);
    var stdout := ReadSegment(At(moves, poll.stdoutOpened).stdout.head, At(moves, poll.stdoutRead).stdout.head,
                              stdoutOffset, HEAD_LIMIT);
    HeadsGrow(moves, poll.stderrOpened, poll.stderrRead, Stderr);
    var stderr := ReadSegment(At(moves, poll.stderrOpened).stderr.head, At(moves, poll.stderrRead).stderr.head,
                              stderrOffset, HEAD_LIMIT);
    var stdoutTail, stderrTail := Ok([]), Ok([]);
    if terminal {
      stdoutTail := ReadTail(moves, poll.stdoutTail, Stdout);
      stderrTail := ReadTail(moves, poll.stderrTail, Stderr);
    }
    result := Ok(Reading(stdout.value, stderr.value, terminal, stdoutTail.value, stderrTail.value));
  }

  /** A tail file is written and read under its lock, so that a reader finds what one checkpoint left. */
  method ReadTail(moves: seq<Move>, moment: nat, stream: Stream) returns (tail: Result<Bytes, ReadError>)
    requires moment <= |moves|
    ensures tail == Ok(Of(At(moves, moment), stream).tail)
  {
    Fits(moves, moment, stream);
    var content := Of(At(moves, moment), stream).tail;
    tail := ReadSegment(content, content, 0, TAIL_LIMIT);
  }

  /**
   Polls until a record read is terminal, or as long as there are polls. No poll fails; what is printed is at any time a
   prefix of the head, and in the end the heads and tails as the last poll found them. These are the final ones if no join
   of the drains was given up.
   */
  method Follow(moves: seq<Move>, polls: seq<Poll>)
    returns (stdout: Bytes, stderr: Bytes, terminal: bool, error: Option<ReadError>)
    requires Sequential(polls, 0, |moves|)
    ensures error.None?
    ensures terminal <==> exists i :: 0 <= i < |polls| && SeesEnd(moves, polls[i])
    ensures !terminal ==> stdout <= At(moves, |moves|).stdout.head && stderr <= At(moves, |moves|).stderr.head
    ensures terminal ==>
              exists i: nat ::
                && FirstToSee(moves, polls, i) && Ordered(polls[i], 0, |moves|)
                && stdout == Flat(Shown(moves, polls[i], Stdout)) && stderr == Flat(Shown(moves, polls[i], Stderr))
    ensures terminal && Calm(START, moves, |moves|) ==>
              stdout == Flat(At(moves, |moves|).stdout) && stderr == Flat(At(moves, |moves|).stderr)
  {
    var stdoutOffset, stderrOffset := 0, 0;
    stdout, stderr, terminal, error := [], [], false, None;
    ghost var moment := 0;
    for i := 0 to |polls|
      invariant 0 <= moment <= |moves| && !terminal && error.None?
      invariant Sequential(polls[i..], moment, |moves|)
      invariant stdoutOffset == |stdout| && stderrOffset == |stderr|
      invariant stdout <= At(moves, moment).stdout.head && stderr <= At(moves, moment).stderr.head
      invariant forall k :: 0 <= k < i ==> !SeesEnd(moves, polls[k])
    {
      var poll := polls[i];
      assert polls[i..][0] == poll && polls[i..][1..] == polls[i + 1..];
      HeadsGrow(moves, moment, poll.stdoutOpened, Stdout);
      HeadsGrow(moves, moment, poll.stderrOpened, Stderr);
      var result := ReadOutput(moves, poll, stdoutOffset, stderrOffset);
      match result
      case Err(e) => {
        error := Some(e);
        return;
      }
      case Ok(output) => {
        stdout := stdout + output.stdout;
        stderr := stderr + output.stderr;
        assert stdout == At(moves, poll.stdoutOpened).stdout.head;
        assert stderr == At(moves, poll.stderrOpened).stderr.head;
        stdoutOffset := stdoutOffset + |output.stdout|;
        stderrOffset := stderrOffset + |output.stderr|;
        if output.terminal {
          terminal := true;
          stdout := stdout + output.stdoutTail;
          stderr := stderr + output.stderrTail;
          assert FirstToSee(moves, polls, i);
          if Calm(START, moves, |moves|) {
            ShownWhenCalm(moves, poll, Stdout);
            ShownWhenCalm(moves, poll, Stderr);
          }
          return;
        }
        HeadsGrow(moves, poll.stdoutOpened, poll.stderrTail, Stdout);
        HeadsGrow(moves, poll.stderrOpened, poll.stderrTail, Stderr);
        moment := poll.stderrTail;
      }
    }
    HeadsGrow(moves, moment, |moves|, Stdout);
    HeadsGrow(moves, moment, |moves|, Stderr);
  }

  // ----- When what is shown is final -----

  /** Between two moments after a drain's end its files are the same. */
  lemma {:induction false} StaysDrained(moves: seq<Move>, first: nat, second: nat, stream: Stream)
    requires first <= second <= |moves| && !Draining(At(moves, first), stream)
    ensures Of(At(moves, second), stream) == Of(At(moves, first), stream)
    ensures !Draining(At(moves, second), stream)
    decreases second
  {
    if first < second {
      StaysDrained(moves, first, second - 1, stream);
    }
  }

  /** A poll that sees the end of a job whose drains were waited for shows what is there in the end. */
  lemma ShownWhenCalm(moves: seq<Move>, poll: Poll, stream: Stream)
    requires Ordered(poll, 0, |moves|) && SeesEnd(moves, poll) && Calm(START, moves, |moves|)
    ensures Shown(moves, poll, stream) == Of(At(moves, |moves|), stream)
  {
    EndsAfterDrains(moves, poll.job);
    StaysDrained(moves, poll.job, HeadMoment(poll, stream), stream);
    StaysDrained(moves, poll.job, TailMoment(poll, stream), stream);
    StaysDrained(moves, poll.job, |moves|, stream);
  }

  /**
   What a poll shows is final, whatever comes after its last read of the stream, exactly when the stream's drain had ended
   by then and had not appended anything since the head was opened.
   */
  lemma ShownIsFinalIff(moves: seq<Move>, poll: Poll, stream: Stream)
    requires Ordered(poll, 0, |moves|)
    ensures var read := TailMoment(poll, stream);
            (forall rest: seq<Move> :: Of(From(At(moves, read), rest, |rest|), stream) == Shown(moves, poll, stream))
            <==> !Draining(At(moves, read), stream) && !AppendsWithin(moves, HeadMoment(poll, stream), read, stream)
  {
    var read := TailMoment(poll, stream);
    var w := At(moves, read);
    HeadStaysIff(moves, HeadMoment(poll, stream), read, stream);
    if Draining(w, stream) {
      ChangesLater(w, stream, Shown(moves, poll, stream));
    } else {
      forall rest: seq<Move>
        ensures Of(From(w, rest, |rest|), stream) == Of(w, stream)
      {
        DrainedIsFinal(w, rest, |rest|, stream);
      }
      assert Of(From(w, [], 0), stream) == Of(w, stream);
    }
  }

  /** A drain that still runs may write another tail. */
  lemma ChangesLater(w: World, stream: Stream, shown: Output)
    requires Draining(w, stream)
    ensures exists rest: seq<Move> :: Of(From(w, rest, |rest|), stream) != shown
  {
    var tail: Bytes := if shown.tail == [] then [0] else [];
    var rest := [Drains(stream, Rewrite(tail))];
    assert From(w, rest, 0) == w;
    assert From(w, rest, |rest|) == After(w, rest[0]);
    assert Of(From(w, rest, |rest|), stream).tail == tail;
  }

  /** A join given up: a second interrupt has the record written at once, and what a drain appends then is never shown. */
  lemma ShownTooSoon()
    ensures var moves := [Leaves(Normal), Enters, Interrupts, Enters, Finishes(None), Drains(Stdout, Append([7]))];
            var poll := Poll(5, 5, 5, 5, 5, 5, 5);
            && Ordered(poll, 0, |moves|) && SeesEnd(moves, poll)
            && Shown(moves, poll, Stdout) == Output([], []) && At(moves, |moves|).stdout == Output([7], [])
  {
    var moves := [Leaves(Normal), Enters, Interrupts, Enters, Finishes(None), Drains(Stdout, Append([7]))];
    assert At(moves, 0) == START;
    assert At(moves, 1) == START.(main := Leaving(Normal));
    assert At(moves, 2) == START.(main := Joining(Normal), spoolFinished := true);
    assert At(moves, 3) == START.(main := Leaving(Interrupt), spoolFinished := true);
    assert At(moves, 4) == START.(main := Ready(Interrupt), spoolFinished := true);
    assert At(moves, 5) == START.(main := Leaving(Last), spoolFinished := true, ended := true);
    assert [] + [7] == [7];
  }

  /** Drains that do not stop are passed over by the handler of another error, which writes the record all the same. */
  lemma PassedOver()
    ensures EndsEarly(From(START, [Leaves(Error), Enters, JoinFails, Finishes(None)], 4))
  {
    var moves := [Leaves(Error), Enters, JoinFails, Finishes(None)];
    assert From(START, moves, 1) == START.(main := Leaving(Error));
    assert From(START, moves, 2) == START.(main := Joining(Error), spoolFinished := true);
    assert From(START, moves, 3) == START.(main := Ready(Error), spoolFinished := true);
  }

  /** Otherwise they leave the record unfinished, and a reader may declare the job lost while they still run. */
  lemma LostTooSoon()
    ensures var moves := [Leaves(Normal), Enters, JoinFails, Enters, Releases, DeclaresLost];
            !From(START, moves, 5).ended && EndsEarly(From(START, moves, 6))
  {
    var moves := [Leaves(Normal), Enters, JoinFails, Enters, Releases, DeclaresLost];
    assert From(START, moves, 2) == START.(main := Joining(Normal), spoolFinished := true) by {
      assert From(START, moves, 1) == START.(main := Leaving(Normal));
    }
    assert From(START, moves, 3) == START.(main := Leaving(Last), spoolFinished := true);
    assert From(START, moves, 5) == START.(main := Gone, spoolFinished := true) by {
      assert From(START, moves, 4) == START.(main := Ready(Last), spoolFinished := true);
    }
  }

  // ----- What the drains make of their streams -----

  predicate WritesNow(w: World, move: Move, stream: Stream) {
    move.Drains? && move.stream == stream && Draining(w, stream)
  }

  /** The writes of one drain among all moves, up to a moment. */
  function WritesOf(moves: seq<Move>, moment: nat, stream: Stream): seq<Write>
    requires moment <= |moves|
  {
    if moment == 0 then []
    else
      var move := moves[moment - 1];
      var before := WritesOf(moves, moment - 1, stream);
      if WritesNow(At(moves, moment - 1), move, stream) then before + [move.write] else before
  }

  lemma StepWrites(w: World, move: Move, stream: Stream)
    ensures Of(After(w, move), stream)
            == if WritesNow(w, move, stream) then Wrote(Of(w, stream), move.write) else Of(w, stream)
  {
  }

  /** However the drains' writes are mixed, each stream's files are what its own writes make of them. */
  lemma {:induction false} WritesShape(moves: seq<Move>, moment: nat, stream: Stream)
    requires moment <= |moves|
    ensures Of(At(moves, moment), stream) == OutputAfter(WritesOf(moves, moment, stream))
  {
    if moment > 0 {
      var w := At(moves, moment - 1);
      var before := WritesOf(moves, moment - 1, stream);
      WritesShape(moves, moment - 1, stream);
      StepWrites(w, moves[moment - 1], stream);
      if WritesNow(w, moves[moment - 1], stream) {
        WroteMore(before, moves[moment - 1].write);
        assert WritesOf(moves, moment, stream) == before + [moves[moment - 1].write];
      } else {
        assert WritesOf(moves, moment, stream) == before;
      }
    }
  }

  /**
   A follower of a job whose drains were waited for, and whose drain of the stream got to its end: it has printed the first
   bytes of all that was read from the stream and the last bytes of the rest.
   */
  lemma FinallyRetained(moves: seq<Move>, poll: Poll, stream: Stream, all: Bytes)
    requires Ordered(poll, 0, |moves|) && SeesEnd(moves, poll) && Calm(START, moves, |moves|)
    requires Completes(WritesOf(moves, |moves|, stream), all)
    ensures Flat(Shown(moves, poll, stream)) == HeadOf(all) + TailOf(all)
    ensures |all| <= OUTPUT_LIMIT ==> Flat(Shown(moves, poll, stream)) == all
  {
    ShownWhenCalm(moves, poll, stream);
    WritesShape(moves, |moves|, stream);
    RetainedIsWhole(all);
  }

  /** Nothing is lost of a stream within the limit, and of a longer one the middle only. */
  lemma RetainedIsWhole(all: Bytes)
    ensures |all| <= OUTPUT_LIMIT ==> HeadOf(all) + TailOf(all) == all
    ensures |all| > OUTPUT_LIMIT ==>
              HeadOf(all) + TailOf(all) == all[..HEAD_LIMIT] + all[|all| - TAIL_LIMIT..]
  {
  }
}
