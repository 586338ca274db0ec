/**
 The output pump of a captured process (src/runtime_tools/capture/_process.py): digests all output, captures it up to a limit,
 relays it as long as the sink takes it, and stops draining soon after the process has exited.
 */
module OutputPump {
  import opened Results
  import opened OutputDrain

  const READ_SIZE: nat := 64 * 1024
  const MAX_POST_EXIT: nat := 1024 * 1024

  /** What a non-blocking read of the pipe brings. */
  datatype Read = Blocked | Chunk(bytes: Bytes) | End

  /**
   One turn of the loop: whether the process was seen to be done, what the read of that turn brings (nothing, if the wait
   was interrupted or in vain), and what the one-byte read brings if the turn gets that far.
   */
  datatype Turn = Turn(done: bool, read: Read, more: Read)

  predicate Possible(turn: Turn) {
    && (turn.read.Chunk? ==> 0 < |turn.read.bytes| <= READ_SIZE)
    && (turn.more.Chunk? ==> |turn.more.bytes| == 1)
  }

  function BytesOf(log: seq<Read>): Bytes {
    if log == [] then []
    else BytesOf(log[..|log| - 1]) + (if log[|log| - 1].Chunk? then log[|log| - 1].bytes else [])
  }

  lemma BytesOfMore(log: seq<Read>, read: Read)
    ensures BytesOf(log + [read]) == BytesOf(log) + (if read.Chunk? then read.bytes else [])
  {
    assert (log + [read])[..|log|] == log;
  }

  /** The bytes that the reads of turns before the exit bring, or of those after it. */
  function BytesRead(turns: seq<Turn>, done: bool): nat {
    if turns == [] then 0
    else
      var last := turns[|turns| - 1];
      BytesRead(turns[..|turns| - 1], done) + (if last.done == done && last.read.Chunk? then |last.read.bytes| else 0)
  }

  lemma {:induction false} BytesGrow(turns: seq<Turn>, i: nat, done: bool)
    requires i <= |turns|
    ensures BytesRead(turns[..i], done) <= BytesRead(turns, done)
    decreases |turns|
  {
    if i == |turns| {
      assert turns[..i] == turns;
    } else {
      BytesGrow(turns[..|turns| - 1], i, done);
      assert turns[..|turns| - 1][..i] == turns[..i];
    }
  }

  // ----- The course that a schedule determines -----

  /** So much has been read since the exit that the rest is left alone. */
  predicate PastLimit(turns: seq<Turn>, i: nat)
    requires i < |turns|
  {
    turns[i].done && turns[i].read.Chunk? && BytesRead(turns[..i + 1], true) >= MAX_POST_EXIT
  }

  /** A turn that ends the loop: the pipe ends or, after the exit, has nothing or had too much. */
  predicate Stops(turns: seq<Turn>, i: nat)
    requires i < |turns|
  {
    turns[i].read.End? || (turns[i].done && turns[i].read.Blocked?) || PastLimit(turns, i)
  }

  function FirstStop(turns: seq<Turn>, from: nat): (stop: nat)
    requires from <= |turns|
    ensures from <= stop <= |turns|
    ensures stop < |turns| ==> Stops(turns, stop)
    ensures forall k :: from <= k < stop ==> !Stops(turns, k)
    decreases |turns| - from
  {
    if from == |turns| || Stops(turns, from) then from else FirstStop(turns, from + 1)
  }

  lemma FirstStopIs(turns: seq<Turn>, i: nat)
    requires i < |turns| && Stops(turns, i) && forall k :: 0 <= k < i ==> !Stops(turns, k)
    ensures FirstStop(turns, 0) == i
  {
  }

  /** What the turns read: a wait in vain before the exit reads nothing. */
  function ReadsOf(turns: seq<Turn>): seq<Read> {
    if turns == [] then []
    else
      var last := turns[|turns| - 1];
      ReadsOf(turns[..|turns| - 1]) + (if last.read.Blocked? && !last.done then [] else [last.read])
  }

  datatype Course = Course(log: seq<Read>, over: bool)

  /** All reads up to the first turn that stops and, if too much was read, one byte more. */
  function CourseOf(turns: seq<Turn>): Course {
    var stop := FirstStop(turns, 0);
    if stop == |turns| then Course(ReadsOf(turns), false)
    else Course(ReadsOf(turns[..stop + 1]) + (if PastLimit(turns, stop) then [turns[stop].more] else []), true)
  }

  lemma NeverStops(turns: seq<Turn>)
    requires forall k :: 0 <= k < |turns| ==> !Stops(turns, k)
    ensures CourseOf(turns) == Course(ReadsOf(turns), false)
  {
  }

  lemma ReadsMore(turns: seq<Turn>, i: nat)
    requires i < |turns|
    ensures ReadsOf(turns[..i + 1])
            == ReadsOf(turns[..i]) + (if turns[i].read.Blocked? && !turns[i].done then [] else [turns[i].read])
  {
    assert turns[..i + 1][..i] == turns[..i];
  }

  lemma BytesMore(turns: seq<Turn>, i: nat, done: bool)
    requires i < |turns|
    ensures BytesRead(turns[..i + 1], done)
            == BytesRead(turns[..i], done)
               + (if turns[i].done == done && turns[i].read.Chunk? then |turns[i].read.bytes| else 0)
  {
    assert turns[..i + 1][..i] == turns[..i];
  }

  lemma {:induction false} BytesOfReads(turns: seq<Turn>)
    ensures |BytesOf(ReadsOf(turns))| == BytesRead(turns, false) + BytesRead(turns, true)
  {
    if turns != [] {
      var n := |turns| - 1;
      var before := ReadsOf(turns[..n]);
      BytesOfReads(turns[..n]);
      BytesOfMore(before, turns[n].read);
      if turns[n].read.Blocked? && !turns[n].done {
        assert before + [] == before;
      }
    }
  }

  lemma {:induction false} FewBeforeStop(turns: seq<Turn>, i: nat)
    requires i <= |turns| && forall k :: 0 <= k < i ==> !Stops(turns, k)
    ensures BytesRead(turns[..i], true) < MAX_POST_EXIT
  {
    if i > 0 {
      FewBeforeStop(turns, i - 1);
      assert !Stops(turns, i - 1);
      BytesMore(turns, i - 1, true);
    }
  }

  lemma ReadsBounded(turns: seq<Turn>, i: nat)
    requires i <= |turns|
    ensures |BytesOf(ReadsOf(turns[..i]))| <= BytesRead(turns, false) + BytesRead(turns[..i], true)
  {
    BytesOfReads(turns[..i]);
    BytesGrow(turns, i, false);
  }

  /** Whatever the schedule, less than the limit and one read more is taken from the pipe once the exit was seen. */
  lemma CourseBounded(turns: seq<Turn>)
    requires forall i :: 0 <= i < |turns| ==> Possible(turns[i])
    ensures |BytesOf(CourseOf(turns).log)| <= BytesRead(turns, false) + MAX_POST_EXIT + READ_SIZE
  {
    var stop := FirstStop(turns, 0);
    FewBeforeStop(turns, stop);
    if stop == |turns| {
      assert turns[..stop] == turns;
      ReadsBounded(turns, stop);
    } else {
      assert Possible(turns[stop]);
      BytesMore(turns, stop, true);
      ReadsBounded(turns, stop + 1);
      if PastLimit(turns, stop) {
        BytesOfMore(ReadsOf(turns[..stop + 1]), turns[stop].more);
      } else {
        assert ReadsOf(turns[..stop + 1]) + [] == ReadsOf(turns[..stop + 1]);
      }
    }
  }

  /** What one turn reads, if with it so much was read since the exit. */
  function TurnReads(turn: Turn, since: nat): seq<Read> {
    (if turn.read.Blocked? && !turn.done then [] else [turn.read])
    + (if turn.done && turn.read.Chunk? && since >= MAX_POST_EXIT then [turn.more] else [])
  }

  predicate TurnStops(turn: Turn, since: nat) {
    turn.read.End? || (turn.done && (turn.read.Blocked? || since >= MAX_POST_EXIT))
  }

  function Since(turn: Turn, before: nat): nat {
    before + (if turn.done && turn.read.Chunk? then |turn.read.bytes| else 0)
  }

  lemma TurnIs(turns: seq<Turn>, i: nat)
    requires i < |turns| && forall k :: 0 <= k < i ==> !Stops(turns, k)
    ensures var since := Since(turns[i], BytesRead(turns[..i], true));
            && BytesRead(turns[..i + 1], true) == since
            && (Stops(turns, i) <==> TurnStops(turns[i], since))
            && (Stops(turns, i) ==> CourseOf(turns) == Course(ReadsOf(turns[..i]) + TurnReads(turns[i], since), true))
            && (!Stops(turns, i) ==> ReadsOf(turns[..i + 1]) == ReadsOf(turns[..i]) + TurnReads(turns[i], since))
  {
    ReadsMore(turns, i);
    BytesMore(turns, i, true);
    FewBeforeStop(turns, i);
    if Stops(turns, i) {
      FirstStopIs(turns, i);
    }
  }

  // ----- The sink -----

  /** How many of the bytes offered the sink says each write took, and whether it can be flushed after so many writes. */
  datatype Sink = Sink(takes: (nat, nat) -> int, flushes: nat -> bool)

  predicate Takes(taken: int, offered: nat) {
    0 < taken <= offered
  }

  /** What becomes of one chunk: so many bytes are taken, in writes up to the given one; then the sink is open or given up. */
  datatype Relayed = Relayed(taken: nat, writes: nat, open: bool)

  function Offer(sink: Sink, writes: nat, left: nat): (relayed: Relayed)
    ensures relayed.taken <= left && (relayed.open ==> relayed.taken == left)
    decreases left
  {
    if left == 0 then Relayed(0, writes, sink.flushes(writes))
    else
      var taken := sink.takes(writes, left);
      if !Takes(taken, left) then Relayed(0, writes + 1, false)
      else
        var rest := Offer(sink, writes + 1, left - taken);
        Relayed(taken + rest.taken, rest.writes, rest.open)
  }

  /** A sink is given up only for a write that takes nothing, or more than there is, or when it cannot be flushed. */
  lemma {:induction false} GivenUpWhen(sink: Sink, writes: nat, left: nat)
    ensures var relayed := Offer(sink, writes, left);
            relayed.open <==> relayed.taken == left && sink.flushes(relayed.writes)
    ensures var relayed := Offer(sink, writes, left);
            !relayed.open ==>
              if relayed.taken == left then !sink.flushes(relayed.writes)
              else writes < relayed.writes && !Takes(sink.takes(relayed.writes - 1, left - relayed.taken), left - relayed.taken)
    decreases left
  {
    if left > 0 && Takes(sink.takes(writes, left), left) {
      GivenUpWhen(sink, writes + 1, left - sink.takes(writes, left));
    }
  }

  /** What becomes of all chunks: what was relayed, in how many writes, and whether the sink is still open. */
  datatype SinkOutput = SinkOutput(bytes: Bytes, writes: nat, open: bool)

  function RelayedOf(sink: Sink, log: seq<Read>): (output: SinkOutput)
    ensures output.bytes <= BytesOf(log) && (output.open ==> output.bytes == BytesOf(log))
  {
    if log == [] then SinkOutput([], 0, true)
    else
      var before, read := RelayedOf(sink, log[..|log| - 1]), log[|log| - 1];
      if !read.Chunk? || !before.open then before
      else
        var relayed := Offer(sink, before.writes, |read.bytes|);
        SinkOutput(before.bytes + read.bytes[..relayed.taken], relayed.writes, relayed.open)
  }

  ghost predicate Willing(sink: Sink) {
    && (forall writes: nat, offered: nat :: offered > 0 ==> Takes(sink.takes(writes, offered), offered))
    && (forall writes: nat :: sink.flushes(writes))
  }

  /** A sink that takes what it is offered, in whatever parts, is never given up and gets everything. */
  lemma {:induction false} WillingGetsAll(sink: Sink, log: seq<Read>)
    requires Willing(sink)
    ensures RelayedOf(sink, log).open && RelayedOf(sink, log).bytes == BytesOf(log)
  {
    if log != [] {
      var before, read := RelayedOf(sink, log[..|log| - 1]), log[|log| - 1];
      WillingGetsAll(sink, log[..|log| - 1]);
      if read.Chunk? {
        GivenUpWhen(sink, before.writes, |read.bytes|);
      }
    }
  }

  lemma RelayedMore(sink: Sink, log: seq<Read>, read: Read)
    ensures var before := RelayedOf(sink, log);
            RelayedOf(sink, log + [read])
            == if !read.Chunk? || !before.open then before
               else
                 var relayed := Offer(sink, before.writes, |read.bytes|);
                 SinkOutput(before.bytes + read.bytes[..relayed.taken], relayed.writes, relayed.open)
  {
    assert (log + [read])[..|log|] == log;
  }

  /** The digest stands for the bytes that were digested. */
  datatype OutputDigest = OutputDigest(
    byteCount: nat,
    digested: Bytes,
    captured: Option<Bytes>,
    truncated: bool,
    relayFailed: bool,
    pipeOpenAfterExit: bool)

  class Pump {
    const limit: Option<nat>
    const relays: bool
    const behaviour: Sink
    var sink: bool
    var writes: nat
    var relayed: Bytes
    var byteCount: nat
    var digested: Bytes
    var captured: Bytes
    var relayFailed: bool
    var postExit: nat
    ghost var log: seq<Read>

    ghost predicate Counted()
      reads this
    {
      && digested == BytesOf(log) && byteCount == |digested|
      && (limit.Some? ==> captured == digested[..Min(limit.value, byteCount)])
    }

    ghost predicate RelaysAll(read: seq<Read>)
      reads this
    {
      && (relays ==> SinkOutput(relayed, writes, sink) == RelayedOf(behaviour, read))
      && (!relays ==> relayed == [] && !sink) && (relayFailed <==> relays && !sink)
    }

    ghost predicate Valid()
      reads this
    {
      Counted() && RelaysAll(log)
    }

    constructor (limit: Option<nat>, sink: bool, behaviour: Sink)
      ensures Valid() && log == [] && postExit == 0
      ensures this.limit == limit && this.sink == relays == sink && this.behaviour == behaviour
    {
      this.limit, this.relays, this.sink, this.behaviour := limit, sink, sink, behaviour;
      relayed, digested, captured, log := [], [], [], [];
      byteCount, postExit, writes, relayFailed := 0, 0, 0, false;
    }

    /** Writes one chunk to the sink, which may take it in parts; when it fails to, it is given up. */
    method Relay(chunk: Bytes)
      requires sink
      modifies this`sink, this`relayed, this`relayFailed, this`writes
      ensures var offered := Offer(behaviour, old(writes), |chunk|);
              && relayed == old(relayed) + chunk[..offered.taken] && writes == offered.writes && sink == offered.open
              && (sink ==> relayFailed == old(relayFailed)) && (!sink ==> relayFailed)
    {
      var done := 0;
      while done < |chunk|
        invariant 0 <= done <= |chunk| && sink && relayFailed == old(relayFailed)
        invariant relayed == old(relayed) + chunk[..done]
        invariant var all, rest := Offer(behaviour, old(writes), |chunk|), Offer(behaviour, writes, |chunk| - done);
                  all == rest.(taken := done + rest.taken)
      {
        var written := behaviour.takes(writes, |chunk| - done);
        writes := writes + 1;
        if written <= 0 || written > |chunk| - done {
          relayFailed := true;
          sink := false;
          return;
        }
        assert chunk[..done] + chunk[done..done + written] == chunk[..done + written];
        relayed := relayed + chunk[done..done + written];
        done := done + written;
      }
      if !behaviour.flushes(writes) {
        relayFailed := true;
        sink := false;
      }
    }

    /** Digests, counts and captures one chunk. */
    method Count(chunk: Bytes)
      requires Counted()
      modifies this`log, this`digested, this`byteCount, this`captured
      ensures Counted() && log == old(log) + [Chunk(chunk)] && digested == old(digested) + chunk
    {
      BytesOfMore(log, Chunk(chunk));
      log := log + [Chunk(chunk)];
      digested := digested + chunk;
      byteCount := byteCount + |chunk|;
      if limit.Some? && |captured| < limit.value {
        captured := captured + chunk[..Min(limit.value - |captured|, |chunk|)];
      }
    }

    method Consume(chunk: Bytes)
      requires Valid()
      modifies this
      ensures Valid() && log == old(log) + [Chunk(chunk)] && digested == old(digested) + chunk
      ensures postExit == old(postExit) && (sink ==> old(sink))
    {
      RelayedMore(behaviour, log, Chunk(chunk));
      Count(chunk);
      if sink {
        Relay(chunk);
      }
    }

    method Note(read: Read)
      requires Valid() && !read.Chunk?
      modifies this`log
      ensures Valid() && log == old(log) + [read]
    {
      BytesOfMore(log, read);
      RelayedMore(behaviour, log, read);
      log := log + [read];
    }

    /** A turn before the exit was seen. */
    method Poll(turn: Turn) returns (over: bool)
      requires Valid()
      modifies this
      ensures Valid() && postExit == old(postExit) && (over <==> turn.read.End?)
      ensures log == old(log) + (if turn.read.Blocked? then [] else [turn.read])
      ensures sink ==> old(sink)
    {
      over := false;
      match turn.read
      case Blocked => {
        assert log + [] == log;
      }
      case End => {
        Note(End);
        over := true;
      }
      case Chunk(bytes) => {
        Consume(bytes);
      }
    }

    /** The turn after the exit was seen; `over` tells whether the loop ends with it. */
    method Drain(turn: Turn) returns (over: bool, open: bool)
      requires Valid() && postExit < MAX_POST_EXIT
      modifies this
      ensures Valid()
      ensures postExit == old(postExit) + (if turn.read.Chunk? then |turn.read.bytes| else 0)
      ensures over <==> !turn.read.Chunk? || postExit >= MAX_POST_EXIT
      ensures log == old(log) + [turn.read] + (if turn.read.Chunk? && postExit >= MAX_POST_EXIT then [turn.more] else [])
      ensures open <==> over && !log[|log| - 1].End?
      ensures sink ==> old(sink)
    {
      match turn.read
      case Blocked => {
        Note(Blocked);
        return true, true;
      }
      case End => {
        Note(End);
        return true, false;
      }
      case Chunk(bytes) => {
        Consume(bytes);
        postExit := postExit + |bytes|;
        if postExit < MAX_POST_EXIT {
          return false, false;
        }
        match turn.more
        case Blocked => {
          Note(Blocked);
          return true, true;
        }
        case End => {
          Note(End);
          return true, false;
        }
        case Chunk(continuation) => {
          Consume(continuation);
          return true, true;
        }
      }
    }

    method Take(turn: Turn) returns (over: bool, open: bool)
      requires Valid() && postExit < MAX_POST_EXIT
      modifies this
      ensures Valid() && (sink ==> old(sink)) && postExit == Since(turn, old(postExit))
      ensures log == old(log) + TurnReads(turn, postExit) && (over <==> TurnStops(turn, postExit))
      ensures over ==> log != []
      ensures open <==> over && !log[|log| - 1].End?
    {
      if turn.done {
        over, open := Drain(turn);
      } else {
        over := Poll(turn);
        open := false;
      }
    }

    /**
     Turns until the pipe ends, is left open, or there are no more turns: what is read is what the schedule determines. The
     capture is the first bytes of it; the pipe is reported open exactly when its end was not read; and little more than the
     limit is read once the exit is seen.
     */
    method Run(turns: seq<Turn>) returns (digest: OutputDigest, over: bool)
      requires Valid() && log == [] && postExit == 0 && sink == relays
      requires forall i :: 0 <= i < |turns| ==> Possible(turns[i])
      modifies this
      ensures log == CourseOf(turns).log && over == CourseOf(turns).over
      ensures Valid() && digest.digested == BytesOf(log) && digest.byteCount == |BytesOf(log)|
      ensures limit.Some? ==>
                && digest.captured == Some(BytesOf(log)[..Min(limit.value, digest.byteCount)])
                && (digest.truncated <==> digest.byteCount > limit.value)
      ensures limit.None? ==> digest.captured == None && !digest.truncated
      ensures over ==> |log| > 0
      ensures digest.pipeOpenAfterExit <==> over && log[|log| - 1] != End
      ensures digest.byteCount <= BytesRead(turns, false) + MAX_POST_EXIT + READ_SIZE
      ensures relays ==>
                && relayed == RelayedOf(behaviour, log).bytes && (digest.relayFailed <==> !RelayedOf(behaviour, log).open)
                && relayed <= BytesOf(log) && (!digest.relayFailed ==> relayed == BytesOf(log))
      ensures !relays ==> relayed == [] && !digest.relayFailed
    {
      var open := false;
      over := false;
      var i := 0;
      assert turns[..0] == [];
      while i < |turns| && !over
        invariant 0 <= i <= |turns| && Valid()
        invariant !over ==> !open && log == ReadsOf(turns[..i]) && postExit == BytesRead(turns[..i], true) < MAX_POST_EXIT
        invariant !over ==> forall k :: 0 <= k < i ==> !Stops(turns, k)
        invariant over ==> log == CourseOf(turns).log && CourseOf(turns).over && |log| > 0
        invariant over ==> (open <==> log[|log| - 1] != End)
        decreases |turns| - i
      {
        TurnIs(turns, i);
        over, open := Take(turns[i]);
        i := i + 1;
      }
      if !over {
        NeverStops(turns);
        assert turns[..i] == turns;
      }
      CourseBounded(turns);
      digest := Summary(open);
    }

    /** What is known of the output in the end. */
    function Summary(open: bool): (digest: OutputDigest)
      reads this
      requires Valid()
      ensures digest.digested == BytesOf(log) && digest.byteCount == |BytesOf(log)|
      ensures limit.Some? ==>
                && digest.captured == Some(BytesOf(log)[..Min(limit.value, digest.byteCount)])
                && (digest.truncated <==> digest.byteCount > limit.value)
      ensures limit.None? ==> digest.captured == None && !digest.truncated
      ensures digest.pipeOpenAfterExit == open && (digest.relayFailed <==> relays && !sink)
    {
      OutputDigest(byteCount, digested, if limit.Some? then Some(captured) else None,
                   limit.Some? && byteCount > |captured|, relayFailed, open)
    }
  }
}
