/**
  Serving one byte range of a file that is still being downloaded. The session looks up the downloaded segments,
  sends what it has in chunks, and waits for more; each asynchronous callback is one step.
*/
module Playback {
  import opened Wrappers
  import opened PieceIntervals

  type Bytes = seq<bv8>

  const CHUNK := 65536

  /** What the session sees of the download when a callback runs. */
  datatype Disk = Disk(segments: seq<Segment>, file: Bytes)

  /** What the session is waiting for. */
  datatype Phase =
    | Ready
    | SendingHeader(next: int, pending: Bytes)
    | SendingBody(next: int, data: Bytes)
    | Waiting(pos: int)
    | Done
    | Dropped
    | Refused

  /** The response head of the 206: the range, the total (0 when unknown) and the announced length. */
  datatype Head = Head(start: int, end: int, total: int, length: int)

  datatype Session = Session(start: int, end: int, total: int, headerSent: bool, phase: Phase,
                             heads: seq<Head>, body: Bytes)

  function NewSession(start: int, end: int, total: int): Session {
    Session(start, end, total, false, Ready, [], [])
  }

  function HeadOf(s: Session): Head {
    Head(s.start, s.end, if s.total > 0 then s.total else 0, s.end - s.start + 1)
  }

  // ---------------------------------------------------------------- the steps

  /** The end of the first segment that holds `pos`. */
  function SegmentEnd(segments: seq<Segment>, pos: int): Option<int> {
    if segments == [] then None
    else if segments[0].Contains(pos) then Some(segments[0].end)
    else SegmentEnd(segments[1..], pos)
  }

  /** The last byte of the next chunk. */
  function ChunkEnd(s: Session, pos: int, segmentEnd: int): int {
    var end := Min(segmentEnd, s.end);
    if end - pos + 1 > CHUNK then pos + CHUNK - 1 else end
  }

  /** Reading a file gives what is there, possibly less than asked for. */
  function ReadAt(file: Bytes, offset: int, size: int): Bytes {
    if size <= 0 || offset < 0 || offset >= |file| then [] else file[offset..Min(offset + size, |file|)]
  }

  function StreamFrom(s: Session, pos: int, disk: Disk): Session {
    var found := SegmentEnd(disk.segments, pos);
    if found.None? then s.(phase := Waiting(pos))
    else
      var end := ChunkEnd(s, pos, found.value);
      var data := ReadAt(disk.file, pos, end - pos + 1);
      if data == [] then s.(phase := if s.headerSent then Dropped else Refused)
      else if !s.headerSent then s.(headerSent := true, phase := SendingHeader(end + 1, data))
      else s.(phase := SendingBody(end + 1, data))
  }

  /** How an asynchronous write ends: completely, or after some bytes. */
  datatype Outcome = Sent | Broke(count: nat)

  datatype Event =
    | Begin(disk: Disk)
    | HeaderWritten(ok: bool)
    | BodyWritten(outcome: Outcome, disk: Disk)
    | TimerFired(alive: bool, disk: Disk)

  predicate Legal(s: Session, e: Event) {
    match e
    case Begin(_) => s.phase == Ready
    case HeaderWritten(_) => s.phase.SendingHeader?
    case BodyWritten(_, _) => s.phase.SendingBody?
    case TimerFired(_, _) => s.phase.Waiting?
  }

  function Step(s: Session, e: Event): Session
    requires Legal(s, e)
  {
    match e
    case Begin(disk) => StreamFrom(s, s.start, disk)
    case HeaderWritten(ok) =>
      if !ok then s.(phase := Dropped)
      else s.(heads := s.heads + [HeadOf(s)], phase := SendingBody(s.phase.next, s.phase.pending))
    case BodyWritten(outcome, disk) =>
      if outcome.Broke? then s.(body := s.body + s.phase.data[..Min(outcome.count, |s.phase.data|)], phase := Dropped)
      else
        var t := s.(body := s.body + s.phase.data);
        if s.phase.next > s.end then t.(phase := Done) else StreamFrom(t, s.phase.next, disk)
    case TimerFired(alive, disk) =>
      if !alive then s.(phase := Dropped) else StreamFrom(s, s.phase.pos, disk)
  }

  // ---------------------------------------------------------------- the session object

  class PlaybackSession {
    const start: int
    const end: int
    const total: int
    var headerSent: bool
    var phase: Phase
    var heads: seq<Head>
    var body: Bytes

    function State(): Session
      reads this
    {
      Session(start, end, total, headerSent, phase, heads, body)
    }

    constructor (start: int, end: int, total: int)
      ensures State() == NewSession(start, end, total)
    {
      this.start, this.end, this.total := start, end, total;
      headerSent, phase, heads, body := false, Ready, [], [];
    }

    method FindSegmentEnd(segments: seq<Segment>, pos: int) returns (found: bool, segmentEnd: int)
      ensures found <==> SegmentEnd(segments, pos).Some?
      ensures found ==> segmentEnd == SegmentEnd(segments, pos).value
    {
      found, segmentEnd := false, 0;
      var k := 0;
      while k < |segments|
        invariant 0 <= k <= |segments| && !found
        invariant SegmentEnd(segments, pos) == SegmentEnd(segments[k..], pos)
      {
        if pos >= segments[k].start && pos <= segments[k].end {
          return true, segments[k].end;
        }
        assert segments[k..][1..] == segments[k + 1..];
        k := k + 1;
      }
    }

    method DoStream(pos: int, disk: Disk)
      modifies this
      ensures State() == StreamFrom(old(State()), pos, disk)
    {
      var found, segmentEnd := FindSegmentEnd(disk.segments, pos);
      if !found {
        phase := Waiting(pos);
        return;
      }
      var sendEnd := Min(segmentEnd, end);
      if sendEnd - pos + 1 > CHUNK {
        sendEnd := pos + CHUNK - 1;
      }
      var data := ReadAt(disk.file, pos, sendEnd - pos + 1);
      if data == [] {
        phase := if headerSent then Dropped else Refused;
        return;
      }
      if !headerSent {
        headerSent := true;
        phase := SendingHeader(sendEnd + 1, data);
        return;
      }
      phase := SendingBody(sendEnd + 1, data);
    }

    method OnHeaderWritten(ok: bool)
      requires phase.SendingHeader?
      modifies this
      ensures State() == Step(old(State()), HeaderWritten(ok))
    {
      if !ok {
        phase := Dropped;
        return;
      }
      heads := heads + [Head(start, end, if total > 0 then total else 0, end - start + 1)];
      phase := SendingBody(phase.next, phase.pending);
    }

    method OnBodyWritten(outcome: Outcome, disk: Disk)
      requires phase.SendingBody?
      modifies this
      ensures State() == Step(old(State()), BodyWritten(outcome, disk))
    {
      if outcome.Broke? {
        body := body + phase.data[..Min(outcome.count, |phase.data|)];
        phase := Dropped;
        return;
      }
      body := body + phase.data;
      if phase.next > end {
        phase := Done;
        return;
      }
      DoStream(phase.next, disk);
    }

    method OnTimer(alive: bool, disk: Disk)
      requires phase.Waiting?
      modifies this
      ensures State() == Step(old(State()), TimerFired(alive, disk))
    {
      if !alive {
        phase := Dropped;
        return;
      }
      DoStream(phase.pos, disk);
    }
  }

  // ---------------------------------------------------------------- what goes on the wire

  /** The published segments lie inside the file, and their bytes are final: those of `content`. */
  ghost predicate Trusted(disk: Disk, content: Bytes) {
    forall b :: Covers(disk.segments, b) ==>
      0 <= b < |content| && b < |disk.file| && disk.file[b] == content[b]
  }

  function DiskOf(e: Event): Option<Disk> {
    match e
    case Begin(disk) => Some(disk)
    case HeaderWritten(_) => None
    case BodyWritten(_, disk) => Some(disk)
    case TimerFired(_, disk) => Some(disk)
  }

  ghost predicate Honest(e: Event, content: Bytes) {
    DiskOf(e).Some? ==> Trusted(DiskOf(e).value, content)
  }

  /** `bytes` are the bytes of the content from `from` up to, but not including, `to`. */
  predicate Slice(content: Bytes, from: int, to: int, bytes: Bytes) {
    0 <= from <= to <= |content| && bytes == content[from..to]
  }

  /** One chunk: not empty, not too long, inside the range. */
  predicate Chunk(s: Session, content: Bytes, next: int, data: Bytes) {
    1 <= |data| <= CHUNK && next <= s.end + 1 && Slice(content, next - |data|, next, data)
  }

  /** The state of the wire at each phase. */
  ghost predicate Inv(s: Session, content: Bytes) {
    && s.start <= s.end
    && match s.phase
       case Ready => !s.headerSent && s.heads == [] && s.body == []
       case SendingHeader(next, pending) =>
         s.headerSent && s.heads == [] && s.body == [] && Chunk(s, content, next, pending)
         && next - |pending| == s.start
       case SendingBody(next, data) =>
         s.headerSent && s.heads == [HeadOf(s)] && Chunk(s, content, next, data)
         && Slice(content, s.start, next - |data|, s.body)
       case Waiting(pos) => s.start <= pos <= s.end && Standing(s, content, pos)
       case Done => s.heads == [HeadOf(s)] && Slice(content, s.start, s.end + 1, s.body)
       case Dropped =>
         && (s.heads == [] || s.heads == [HeadOf(s)]) && |s.body| <= s.end + 1 - s.start
         && (s.body != [] ==> s.heads == [HeadOf(s)] && Slice(content, s.start, s.start + |s.body|, s.body))
       case Refused => s.heads == [] && s.body == []
  }

  /** Between two writes: everything before `pos` is out, or nothing is and `pos` is the start. */
  predicate Standing(s: Session, content: Bytes, pos: int) {
    if s.headerSent then s.heads == [HeadOf(s)] && Slice(content, s.start, pos, s.body)
    else s.heads == [] && s.body == [] && pos == s.start
  }

  lemma {:induction false} FoundSegment(segments: seq<Segment>, pos: int)
    requires SegmentEnd(segments, pos).Some?
    ensures forall b :: pos <= b <= SegmentEnd(segments, pos).value ==> Covers(segments, b)
    ensures pos <= SegmentEnd(segments, pos).value
  {
    if segments[0].Contains(pos) {
      forall b | pos <= b <= segments[0].end
        ensures Covers(segments, b)
      {
        assert segments[0].Contains(b);
      }
    } else {
      FoundSegment(segments[1..], pos);
      forall b | pos <= b <= SegmentEnd(segments, pos).value
        ensures Covers(segments, b)
      {
        var rest := segments[1..];
        assert Covers(rest, b);
        var i :| 0 <= i < |rest| && rest[i].Contains(b);
        assert segments[i + 1].Contains(b);
      }
    }
  }

  /** With trusted segments the chunk read is complete and right, every byte of it is published, and it is as long as
      the range, the segment and 64 KiB allow. */
  lemma ChunkIsRight(s: Session, pos: int, disk: Disk, content: Bytes)
    requires pos <= s.end && Trusted(disk, content) && SegmentEnd(disk.segments, pos).Some?
    ensures var end := ChunkEnd(s, pos, SegmentEnd(disk.segments, pos).value);
            var data := ReadAt(disk.file, pos, end - pos + 1);
            && Chunk(s, content, end + 1, data) && end + 1 - |data| == pos
            && (forall b :: pos <= b <= end ==> Covers(disk.segments, b))
            && (|data| == 65536 || end == s.end || end == SegmentEnd(disk.segments, pos).value)
  {
    FoundSegment(disk.segments, pos);
    var end := ChunkEnd(s, pos, SegmentEnd(disk.segments, pos).value);
    assert Covers(disk.segments, pos) && Covers(disk.segments, end);
    var data := ReadAt(disk.file, pos, end - pos + 1);
    assert data == disk.file[pos..end + 1];
    forall k | 0 <= k < |data|
      ensures data[k] == content[pos + k]
    {
      assert Covers(disk.segments, pos + k);
    }
    assert data == content[pos..end + 1];
  }

  lemma StreamKeeps(s: Session, pos: int, disk: Disk, content: Bytes)
    requires s.start <= pos <= s.end && Trusted(disk, content) && Standing(s, content, pos)
    ensures Inv(StreamFrom(s, pos, disk), content)
  {
    if SegmentEnd(disk.segments, pos).Some? {
      ChunkIsRight(s, pos, disk, content);
    }
  }

  /** A chunk continues the body. */
  lemma BodyGrows(s: Session, content: Bytes, count: nat)
    requires Inv(s, content) && s.phase.SendingBody? && count <= |s.phase.data|
    ensures var to := s.phase.next - |s.phase.data| + count;
            Slice(content, s.start, to, s.body + s.phase.data[..count])
  {
    var data, at := s.phase.data, s.phase.next - |s.phase.data|;
    assert data[..count] == content[at..at + count];
    assert content[s.start..at] + content[at..at + count] == content[s.start..at + count];
  }

  lemma BodyWrittenKeeps(s: Session, outcome: Outcome, disk: Disk, content: Bytes)
    requires Inv(s, content) && s.phase.SendingBody? && Trusted(disk, content)
    ensures Inv(Step(s, BodyWritten(outcome, disk)), content)
  {
    var data := s.phase.data;
    if outcome.Broke? {
      BodyGrows(s, content, Min(outcome.count, |data|));
    } else {
      BodyGrows(s, content, |data|);
      assert data[..|data|] == data;
      if s.phase.next <= s.end {
        StreamKeeps(s.(body := s.body + data), s.phase.next, disk, content);
      }
    }
  }

  lemma StepKeeps(s: Session, e: Event, content: Bytes)
    requires Inv(s, content) && Legal(s, e) && Honest(e, content)
    ensures Inv(Step(s, e), content)
  {
    match e
    case Begin(disk) => StreamKeeps(s, s.start, disk, content);
    case HeaderWritten(ok) =>
    case BodyWritten(outcome, disk) => BodyWrittenKeeps(s, outcome, disk, content);
    case TimerFired(alive, disk) =>
      if alive {
        StreamKeeps(s, s.phase.pos, disk, content);
      }
  }

  ghost predicate HonestRun(s: Session, run: seq<Event>, content: Bytes)
    decreases |run|
  {
    run == [] || (Legal(s, run[0]) && Honest(run[0], content) && HonestRun(Step(s, run[0]), run[1..], content))
  }

  ghost function Replay(s: Session, run: seq<Event>, content: Bytes): Session
    requires HonestRun(s, run, content)
    decreases |run|
  {
    if run == [] then s else Replay(Step(s, run[0]), run[1..], content)
  }

  lemma {:induction false} RunKeeps(s: Session, run: seq<Event>, content: Bytes)
    requires Inv(s, content) && HonestRun(s, run, content)
    ensures Inv(Replay(s, run, content), content)
    ensures Replay(s, run, content).start == s.start && Replay(s, run, content).end == s.end
    ensures Replay(s, run, content).total == s.total
    decreases |run|
  {
    if run != [] {
      StepKeeps(s, run[0], content);
      RunKeeps(Step(s, run[0]), run[1..], content);
    }
  }

  /** Whatever the download, the timer and the client do: at most one head goes out, before any body byte; the body
      is always an initial part of the requested bytes of the file; and a finished response carries exactly the
      announced number of bytes, which is only possible when the range ends inside the file. */
  lemma WireIsTheFile(start: int, end: int, total: int, run: seq<Event>, content: Bytes)
    requires start <= end && HonestRun(NewSession(start, end, total), run, content)
    ensures var t := Replay(NewSession(start, end, total), run, content);
            && |t.heads| <= 1 && (t.body != [] ==> t.heads == [HeadOf(t)])
            && |t.body| <= end + 1 - start
            && (t.body != [] ==> Slice(content, start, start + |t.body|, t.body))
            && Announces(t.heads, start, end, total, content, t.body)
            && (t.phase == Done ==>
                  t.heads == [HeadOf(t)] && |t.body| == t.heads[0].length == end - start + 1 && end < |content|
                  && t.body == content[start..end + 1])
  {
    RunKeeps(NewSession(start, end, total), run, content);
    WireAnnounces(Replay(NewSession(start, end, total), run, content), content);
  }

  lemma WireAnnounces(s: Session, content: Bytes)
    requires Inv(s, content)
    ensures |s.heads| <= 1 && (s.body != [] ==> s.heads == [HeadOf(s)]) && |s.body| <= s.end + 1 - s.start
    ensures s.body != [] ==> Slice(content, s.start, s.start + |s.body|, s.body)
    ensures Announces(s.heads, s.start, s.end, s.total, content, s.body)
  {
  }

  /** A head that went out names the range asked for, the length known or none, and the length of the range; and the
      body that follows it starts where the head says. */
  predicate Announces(heads: seq<Head>, start: int, end: int, total: int, content: Bytes, body: Bytes) {
    heads != [] ==>
      var h := heads[0];
      && h.start == start && h.end == end && h.length == end - start + 1
      && h.total == (if total > 0 then total else 0)
      && (body != [] ==> 0 <= h.start && h.start + |body| <= |content|
                         && body == content[h.start..h.start + |body|])
  }

  /** Where the session stands in the range. */
  function Position(s: Session): int {
    match s.phase
    case Ready => s.start
    case SendingHeader(next, pending) => next - |pending|
    case SendingBody(next, data) => next - |data|
    case Waiting(pos) => pos
    case _ => s.end + 1
  }

  /** Every completed body write brings the session strictly closer to the end of the range. */
  lemma BodyWriteAdvances(s: Session, disk: Disk, content: Bytes)
    requires Inv(s, content) && s.phase.SendingBody? && Trusted(disk, content)
    ensures Position(Step(s, BodyWritten(Sent, disk))) > Position(s)
  {
    var t := s.(body := s.body + s.phase.data);
    if s.phase.next <= s.end && SegmentEnd(disk.segments, s.phase.next).Some? {
      ChunkIsRight(t, s.phase.next, disk, content);
    }
  }

  /** Asked for a byte that is not published, the session waits for it and sends nothing. */
  lemma UnpublishedWaits(s: Session, pos: int, disk: Disk)
    requires !Covers(disk.segments, pos)
    ensures StreamFrom(s, pos, disk) == s.(phase := Waiting(pos))
  {
    if SegmentEnd(disk.segments, pos).Some? {
      FoundSegment(disk.segments, pos);
    }
  }

  /** A file that cannot be read at a published byte ends the session: with an error response while none has been begun,
      and silently after that. So does a client that is gone, or a write that fails; what was sent before stays sent. */
  lemma FailuresEnd(s: Session, pos: int, disk: Disk, count: nat)
    ensures Covers(disk.segments, pos) && (pos < 0 || pos >= |disk.file|) && pos <= s.end ==>
              StreamFrom(s, pos, disk) == s.(phase := if s.headerSent then Dropped else Refused)
    ensures s.phase.Waiting? ==> Step(s, TimerFired(false, disk)) == s.(phase := Dropped)
    ensures s.phase.SendingHeader? ==> Step(s, HeaderWritten(false)) == s.(phase := Dropped)
    ensures s.phase.SendingBody? && count <= |s.phase.data| ==>
              Step(s, BodyWritten(Broke(count), disk)) == s.(phase := Dropped, body := s.body + s.phase.data[..count])
  {
    if Covers(disk.segments, pos) {
      CoveredIsFound(disk.segments, pos);
    }
  }

  /** Progress: when the next byte is published, the session does not wait. */
  lemma PublishedByteIsSent(s: Session, pos: int, disk: Disk, content: Bytes)
    requires s.start <= pos <= s.end && Trusted(disk, content) && Covers(disk.segments, pos)
    ensures StreamFrom(s, pos, disk).phase.SendingHeader? || StreamFrom(s, pos, disk).phase.SendingBody?
  {
    CoveredIsFound(disk.segments, pos);
    ChunkIsRight(s, pos, disk, content);
  }

  // ---------------------------------------------------------------- when a response can finish

  /** All of the file is published. */
  function WholeFile(content: Bytes): Disk {
    Disk(if content == [] then [] else [Segment(0, |content| - 1)], content)
  }

  lemma WholeFileIsTrusted(content: Bytes)
    ensures Trusted(WholeFile(content), content)
    ensures forall b :: 0 <= b < |content| ==> Covers(WholeFile(content).segments, b)
  {
    forall b | 0 <= b < |content|
      ensures Covers(WholeFile(content).segments, b)
    {
      assert WholeFile(content).segments[0].Contains(b);
    }
  }

  lemma RunPrepend(s: Session, e: Event, run: seq<Event>, content: Bytes)
    requires Legal(s, e) && Honest(e, content) && HonestRun(Step(s, e), run, content)
    ensures HonestRun(s, [e] + run, content)
    ensures Replay(s, [e] + run, content) == Replay(Step(s, e), run, content)
  {
    assert ([e] + run)[1..] == run;
  }

  /** A complete write of a chunk that is not the last one leads to the next chunk. */
  lemma NextChunk(s: Session, disk: Disk, content: Bytes)
    requires Inv(s, content) && s.phase.SendingBody? && s.phase.next <= s.end
    requires Trusted(disk, content) && Covers(disk.segments, s.phase.next)
    ensures var r := Step(s, BodyWritten(Sent, disk));
            r.phase.SendingBody? && Inv(r, content) && r.end == s.end && Position(r) > Position(s)
  {
    StepKeeps(s, BodyWritten(Sent, disk), content);
    BodyWriteAdvances(s, disk, content);
    PublishedByteIsSent(s.(body := s.body + s.phase.data), s.phase.next, disk, content);
  }

  /** With the rest of the range published, complete writes alone finish the response. */
  lemma {:induction false} WritesFinish(s: Session, disk: Disk, content: Bytes) returns (run: seq<Event>)
    requires Inv(s, content) && s.phase.SendingBody? && Trusted(disk, content)
    requires forall b :: s.phase.next <= b <= s.end ==> Covers(disk.segments, b)
    ensures HonestRun(s, run, content) && Replay(s, run, content).phase == Done
    ensures forall e :: e in run ==> e == BodyWritten(Sent, disk)
    decreases s.end + 1 - Position(s)
  {
    var e := BodyWritten(Sent, disk);
    var r := Step(s, e);
    run := [];
    if s.phase.next <= s.end {
      NextChunk(s, disk, content);
      run := WritesFinish(r, disk, content);
    }
    RunPrepend(s, e, run, content);
    run := [e] + run;
  }

  lemma InsideFinishes(start: int, end: int, total: int, content: Bytes) returns (run: seq<Event>)
    requires 0 <= start <= end < |content|
    ensures HonestRun(NewSession(start, end, total), run, content)
    ensures Replay(NewSession(start, end, total), run, content).phase == Done
  {
    var s0, disk := NewSession(start, end, total), WholeFile(content);
    WholeFileIsTrusted(content);
    StepKeeps(s0, Begin(disk), content);
    PublishedByteIsSent(s0, start, disk, content);
    var s1 := Step(s0, Begin(disk));
    StepKeeps(s1, HeaderWritten(true), content);
    var s2 := Step(s1, HeaderWritten(true));
    run := WritesFinish(s2, disk, content);
    RunPrepend(s1, HeaderWritten(true), run, content);
    run := [HeaderWritten(true)] + run;
    RunPrepend(s0, Begin(disk), run, content);
    run := [Begin(disk)] + run;
  }

  /** A response can be finished if and only if its range lies inside the file: a range that ends beyond the file is
      never finished, whatever happens, and any other is when all is published and all writes succeed. */
  lemma FinishesExactly(start: int, end: int, total: int, content: Bytes)
    requires start <= end
    ensures (exists run :: HonestRun(NewSession(start, end, total), run, content)
                           && Replay(NewSession(start, end, total), run, content).phase == Done)
            <==> 0 <= start && end < |content|
  {
    var s := NewSession(start, end, total);
    forall run | HonestRun(s, run, content) && Replay(s, run, content).phase == Done
      ensures 0 <= start && end < |content|
    {
      RunKeeps(s, run, content);
    }
    if 0 <= start && end < |content| {
      var run := InsideFinishes(start, end, total, content);
    }
  }

  lemma {:induction false} CoveredIsFound(segments: seq<Segment>, pos: int)
    requires Covers(segments, pos)
    ensures SegmentEnd(segments, pos).Some?
  {
    var i :| 0 <= i < |segments| && segments[i].Contains(pos);
    if !segments[0].Contains(pos) {
      assert segments[1..][i - 1].Contains(pos);
      CoveredIsFound(segments[1..], pos);
    }
  }

  /** The session moves on by what it asked for, not by what it read. The two agree exactly when the file is as long
      as its published segment says; otherwise the bytes that follow land at the wrong place. */
  lemma ShortReadMisplaces(s: Session, pos: int, disk: Disk)
    requires 0 <= pos < |disk.file| && pos <= s.end && SegmentEnd(disk.segments, pos).Some?
    ensures var t := StreamFrom(s, pos, disk);
            && (t.phase.SendingHeader? || t.phase.SendingBody?)
            && var data := if t.phase.SendingHeader? then t.phase.pending else t.phase.data;
            (pos + |data| == t.phase.next <==>
               ChunkEnd(s, pos, SegmentEnd(disk.segments, pos).value) < |disk.file|)
  {
    FoundSegment(disk.segments, pos);
  }
}
