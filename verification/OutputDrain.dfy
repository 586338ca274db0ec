/**
 Draining one output stream of a detached job (src/runtime_tools/capture_worker.py): the first bytes go to the head file,
 the rest to a sliding tail, and checkpoints write the tail file and the figures of the job's record.
 */
module OutputDrain {
  import opened Results
  import opened CaptureJob

  newtype Byte = b: int | 0 <= b < 256

  type Bytes = seq<Byte>

  const CHECKPOINT_INTERVAL: nat := 500_000_000

  function Min(a: nat, b: nat): nat {
    if a <= b then a else b
  }

  function Joined(chunks: seq<Bytes>): Bytes {
    if chunks == [] then [] else chunks[0] + Joined(chunks[1..])
  }

  lemma {:induction false} JoinedMore(chunks: seq<Bytes>, content: Bytes)
    ensures Joined(chunks + [content]) == Joined(chunks) + content
  {
    if chunks == [] {
      assert chunks + [content] == [content];
      assert Joined([content]) == content + Joined([]);
    } else {
      assert (chunks + [content])[1..] == chunks[1..] + [content];
      JoinedMore(chunks[1..], content);
    }
  }

  /** The last n bytes, or all there are. */
  function Last(content: Bytes, n: nat): (last: Bytes)
    ensures |last| == Min(n, |content|)
  {
    if |content| <= n then content else content[|content| - n..]
  }

  /** Sliding a window chunk by chunk is the same as taking the end of the whole. */
  lemma LastOfMore(before: Bytes, content: Bytes, n: nat)
    ensures Last(Last(before, n) + content, n) == Last(before + content, n)
  {
    if |before| > n && |content| <= n {
      var kept := before[|before| - n..] + content;
      assert kept[|content|..] == (before + content)[|before| + |content| - n..];
    }
  }

  lemma DropsChunk(chunks: seq<Bytes>)
    requires chunks != []
    ensures |chunks[0]| <= |Joined(chunks)| && Joined(chunks[1..]) == Joined(chunks)[|chunks[0]|..]
  {
  }

  lemma CutsChunk(chunks: seq<Bytes>, excess: nat)
    requires chunks != [] && excess <= |chunks[0]|
    ensures excess <= |Joined(chunks)|
    ensures Joined([chunks[0][excess..]] + chunks[1..]) == Joined(chunks)[excess..]
  {
    assert ([chunks[0][excess..]] + chunks[1..])[1..] == chunks[1..];
  }

  lemma DropsMore(all: Bytes, first: nat, second: nat)
    requires first + second <= |all|
    ensures all[first..][second..] == all[first + second..]
  {
  }

  class RetainedOutputTail {
    const limit: nat
    var chunks: seq<Bytes>
    var sizeBytes: nat

    ghost function Contents(): Bytes
      reads this
    {
      Joined(chunks)
    }

    ghost predicate Valid()
      reads this
    {
      sizeBytes == |Contents()| <= limit
    }

    constructor (limit: nat)
      ensures Valid() && Contents() == [] && this.limit == limit
    {
      this.limit := limit;
      chunks, sizeBytes := [], 0;
    }

    method Append(content: Bytes)
      requires Valid()
      modifies this
      ensures Valid() && Contents() == Last(old(Contents()) + content, limit)
    {
      if content == [] {
        assert old(Contents()) + content == old(Contents());
        return;
      }
      ghost var all := Contents() + content;
      if |content| >= limit {
        chunks := [content[|content| - limit..]];
        sizeBytes := |chunks[0]|;
        assert Joined(chunks) == chunks[0] + Joined([]);
        assert all[|all| - limit..] == content[|content| - limit..];
        return;
      }
      JoinedMore(chunks, content);
      chunks := chunks + [content];
      sizeBytes := sizeBytes + |content|;
      Trim(all);
    }

    /** Drops what is over the limit from the oldest chunks. */
    method Trim(ghost all: Bytes)
      requires sizeBytes == |Contents()| && Contents() == all
      modifies this
      ensures Valid() && Contents() == Last(all, limit)
    {
      while sizeBytes > limit
        invariant Min(limit, |all|) <= sizeBytes <= |all| && Contents() == all[|all| - sizeBytes..]
        decreases sizeBytes, |chunks|
      {
        var excess := sizeBytes - limit;
        var first := chunks[0];
        if |first| <= excess {
          DropsChunk(chunks);
          DropsMore(all, |all| - sizeBytes, |first|);
          chunks := chunks[1..];
          sizeBytes := sizeBytes - |first|;
        } else {
          CutsChunk(chunks, excess);
          DropsMore(all, |all| - sizeBytes, excess);
          chunks := [first[excess..]] + chunks[1..];
          sizeBytes := sizeBytes - excess;
        }
      }
    }

    method Snapshot() returns (content: Bytes)
      ensures content == Contents()
    {
      content := [];
      for i := 0 to |chunks|
        invariant content + Joined(chunks[i..]) == Joined(chunks)
      {
        assert chunks[i..][1..] == chunks[i + 1..];
        content := content + chunks[i];
      }
    }
  }

  // ----- What is retained of a stream of which so much has been read -----

  function Omitted(total: nat): nat {
    if total > OUTPUT_LIMIT then total - OUTPUT_LIMIT else 0
  }

  /** The figures a checkpoint records after `total` bytes. */
  function Figures(total: nat, incomplete: bool): (figures: StreamState)
    ensures figures.size == figures.head + figures.tail
    ensures Omitted(total) <= MAX_OMITTED ==> figures.head + figures.tail + figures.omitted == total
    ensures figures.omittedTruncated && !incomplete ==> figures.head + figures.tail + figures.omitted < total
    ensures figures.truncated <==> figures.head + figures.tail < total || incomplete
  {
    var head := Min(HEAD_LIMIT, total);
    var tail := Min(TAIL_LIMIT, total - head);
    StreamState(head + tail, Omitted(total) > 0 || incomplete, head, tail, Min(Omitted(total), MAX_OMITTED),
                Omitted(total) > MAX_OMITTED || incomplete)
  }

  function HeadOf(all: Bytes): Bytes {
    all[..Min(HEAD_LIMIT, |all|)]
  }

  function TailOf(all: Bytes): Bytes {
    Last(all[Min(HEAD_LIMIT, |all|)..], TAIL_LIMIT)
  }

  /** A checkpoint after more was read is never refused, and records the figures of all that was read. */
  lemma CheckpointAccepted(job: Job, stream: Stream, before: nat, total: nat, incomplete: bool)
    requires job.detached && job.retention.HeadTail?
    requires OutputOf(job, stream) == Figures(before, false) && before <= total
    ensures var f := Figures(total, incomplete);
            Marked(job, Mark(stream, f.head, f.tail, f.omitted, f.omittedTruncated, f.truncated)) == Ok(f)
  {
  }

  lemma HeadGrows(all: Bytes, content: Bytes)
    ensures var available := HEAD_LIMIT - |HeadOf(all)|;
            var head := content[..Min(available, |content|)];
            && HeadOf(all + content) == HeadOf(all) + head
            && TailOf(all + content) == Last(TailOf(all) + content[|head|..], TAIL_LIMIT)
  {
    var h := Min(HEAD_LIMIT, |all|);
    var taken := Min(HEAD_LIMIT - h, |content|);
    assert (all + content)[..h + taken] == all[..h] + content[..taken];
    assert (all + content)[h + taken..] == all[h..] + content[taken..];
    LastOfMore(all[h..], content[taken..], TAIL_LIMIT);
  }

  // ----- The drain -----

  /** The retained output of one stream: the contents of its two files. */
  datatype Output = Output(head: Bytes, tail: Bytes)

  /** A write to the head file, which may be part of what one read brought, or a checkpoint of the tail. */
  datatype Write = Append(bytes: Bytes) | Rewrite(tail: Bytes)

  function Wrote(output: Output, write: Write): Output {
    match write
    case Append(bytes) =>
      if |output.head| + |bytes| <= HEAD_LIMIT then output.(head := output.head + bytes) else output
    case Rewrite(tail) =>
      if |tail| <= TAIL_LIMIT then output.(tail := tail) else output
  }

  function OutputAfter(writes: seq<Write>): Output {
    if writes == [] then Output([], []) else Wrote(OutputAfter(writes[..|writes| - 1]), writes[|writes| - 1])
  }

  lemma WroteMore(writes: seq<Write>, write: Write)
    ensures OutputAfter(writes + [write]) == Wrote(OutputAfter(writes), write)
  {
    assert (writes + [write])[..|writes|] == writes;
  }

  /** The writes of a drain that has come to its end, having read all these bytes. */
  predicate Completes(writes: seq<Write>, all: Bytes) {
    OutputAfter(writes) == Output(HeadOf(all), TailOf(all))
  }

  /** One turn of the drain's loop: nothing to read, some bytes read, or an interrupted call. */
  datatype Turn = Quiet(now: int) | Content(bytes: Bytes, now: int) | Interrupted

  class StreamDrain {
    const stream: Stream
    const tail: RetainedOutputTail
    var headFile: Bytes
    var tailFile: Bytes
    var job: Job
    var headSize: nat
    var totalSize: nat
    var dirty: bool
    var lastCheckpoint: int
    ghost var all: Bytes
    ghost var marked: nat
    ghost var writes: seq<Write>

    ghost predicate Recorded()
      reads this
    {
      OutputAfter(writes) == Output(headFile, tailFile)
    }

    ghost predicate Valid()
      reads this, tail
    {
      && Recorded()
      && tail.Valid() && tail.limit == TAIL_LIMIT
      && headFile == HeadOf(all) && tail.Contents() == TailOf(all)
      && headSize == |headFile| && totalSize == |all|
      && (!dirty ==> tailFile == TailOf(all))
      && job.detached && job.retention.HeadTail?
      && marked <= |all| && OutputOf(job, stream) == Figures(marked, false)
    }

    /** A drain of a freshly created detached job, whose output files are empty. */
    constructor (stream: Stream, job: Job, now: int)
      requires job.detached && job.retention.HeadTail? && Untouched(OutputOf(job, stream))
      ensures Valid() && all == [] && fresh(tail) && this.stream == stream && this.job == job
    {
      this.stream, this.job, lastCheckpoint := stream, job, now;
      headFile, tailFile, all := [], [], [];
      headSize, totalSize, marked, writes, dirty := 0, 0, 0, [], false;
      tail := new RetainedOutputTail(TAIL_LIMIT);
      new;
      assert OutputOf(job, stream) == Figures(0, false);
    }

    method Checkpoint(now: int, incomplete: bool) returns (error: Option<JobError>)
      requires Valid()
      modifies this`tailFile, this`job, this`marked, this`writes
      ensures error.None? && Recorded()
      ensures tailFile == TailOf(all) && marked == |all|
      ensures job.detached && job.retention.HeadTail? && OutputOf(job, stream) == Figures(|all|, incomplete)
    {
      var tailContent := tail.Snapshot();
      if |tailContent| > TAIL_LIMIT {
        return Some(TailOverLimit);
      }
      if !job.detached || !job.retention.HeadTail? {
        return Some(NotDetached);
      }
      WroteMore(writes, Rewrite(tailContent));
      writes := writes + [Rewrite(tailContent)];
      tailFile := tailContent;
      var omittedSize := if totalSize - OUTPUT_LIMIT > 0 then totalSize - OUTPUT_LIMIT else 0;
      var omitted := Min(omittedSize, MAX_OMITTED);
      var omittedTruncated := omittedSize > MAX_OMITTED;
      CheckpointAccepted(job, stream, marked, |all|, incomplete);
      var updated := Updated(job, Mark(stream, headSize, |tailContent|, omitted, omittedTruncated || incomplete,
                                       omittedSize != 0 || incomplete), now);
      match updated
      case Ok(job') => {
        job := job';
        marked := |all|;
        error := None;
      }
      case Err(e) => {
        error := Some(e);
      }
    }

    method CheckpointWhenDue(now: int) returns (error: Option<JobError>)
      requires Valid()
      modifies this
      ensures Valid() && all == old(all) && error.None?
    {
      error := None;
      if dirty && now - lastCheckpoint >= CHECKPOINT_INTERVAL {
        error := Checkpoint(now, false);
        dirty := false;
        lastCheckpoint := now;
      }
    }

    /** Appends to the head file in writes that may be short. */
    method WriteAll(content: Bytes)
      requires Recorded() && |headFile| + |content| <= HEAD_LIMIT
      modifies this`headFile, this`writes
      ensures Recorded() && headFile == old(headFile) + content
    {
      var written := 0;
      while written < |content|
        invariant 0 <= written <= |content|
        invariant Recorded() && headFile == old(headFile) + content[..written]
      {
        var count: nat :| 0 < count && written + count <= |content|;
        var piece := content[written..written + count];
        assert content[..written + count] == content[..written] + piece;
        WroteMore(writes, Append(piece));
        writes := writes + [Append(piece)];
        headFile := headFile + piece;
        written := written + count;
      }
      assert content[..written] == content;
    }

    method Take(content: Bytes)
      requires Valid() && content != []
      modifies this, tail
      ensures Valid() && all == old(all) + content && job == old(job) && marked == old(marked)
    {
      HeadGrows(all, content);
      all := all + content;
      totalSize := totalSize + |content|;
      var available := HEAD_LIMIT - headSize;
      var head := content[..Min(available, |content|)];
      if head != [] {
        WriteAll(head);
        headSize := headSize + |head|;
      }
      var remainder := content[|head|..];
      if remainder != [] {
        tail.Append(remainder);
        dirty := true;
      }
    }

    /** The loop up to the end of the stream, or up to being told to stop. */
    method Drain(turns: seq<Turn>, stopped: bool, now: int) returns (error: Option<JobError>)
      requires Valid() && all == []
      requires forall i :: 0 <= i < |turns| && turns[i].Content? ==> turns[i].bytes != []
      modifies this, tail
      ensures error.None? && all == AllOf(turns)
      ensures headFile == HeadOf(all) && tailFile == TailOf(all) && Recorded() && Completes(writes, all)
      ensures OutputOf(job, stream) == Figures(|all|, stopped)
    {
      error := None;
      assert turns[..0] == [];
      for i := 0 to |turns|
        invariant Valid() && error.None? && all == AllOf(turns[..i])
      {
        AllOfMore(turns, i);
        match turns[i]
        case Quiet(at) => {
          error := CheckpointWhenDue(at);
        }
        case Content(bytes, at) => {
          Take(bytes);
          error := CheckpointWhenDue(at);
        }
        case Interrupted => {
        }
      }
      assert turns[..|turns|] == turns;
      error := Checkpoint(now, stopped);
    }
  }

  /** All bytes read over the turns. */
  function AllOf(turns: seq<Turn>): Bytes {
    if turns == [] then []
    else AllOf(turns[..|turns| - 1]) + (if turns[|turns| - 1].Content? then turns[|turns| - 1].bytes else [])
  }

  lemma AllOfMore(turns: seq<Turn>, i: nat)
    requires i < |turns|
    ensures AllOf(turns[..i + 1]) == AllOf(turns[..i]) + (if turns[i].Content? then turns[i].bytes else [])
  {
    assert turns[..i + 1][..i] == turns[..i];
  }
}
