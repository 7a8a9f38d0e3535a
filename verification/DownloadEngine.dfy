/**
  The download as the engine runs it: one object whose callbacks and loop update its fields in place. Each method
  is proved to do what the step functions of the model say, and the event loop, driven by an arbitrary script of
  what the network, the disk and the other threads do, is proved to be a legal run of those steps.
*/
module DownloadEngine {
  import opened Wrappers
  import opened SplitPlan
  import Model = DownloadModel
  import Budget = DownloadBudget
  import opened DownloadModel
  import opened DownloadInvariant
  import opened DownloadTheorems
  import opened DownloadLengths
  import opened DownloadBehaviour

  /** What happens while the transport works: callbacks, and requests of other threads. */
  datatype NetEvent =
    | Line(i: nat, line: HeaderLine)
    | Chunk(i: nat, data: Bytes, disk: Disk)
    | PauseAsked
    | CancelAsked

  /** The transport reports a transfer as done; `built` says whether a new request could be built if needed. */
  datatype Message = Message(i: nat, rc: TransferResult, built: bool)

  /** One turn of the loop. */
  datatype Round = Round(net: seq<NetEvent>, transportOk: bool, builds: nat -> bool, messages: seq<Message>,
                         stored: bool)

  function EventOf(n: NetEvent): Event {
    match n
    case Line(i, line) => Header(i, line)
    case Chunk(i, data, disk) => Body(i, data, disk)
    case PauseAsked => RequestPause
    case CancelAsked => RequestCancel
  }

  // ---------------------------------------------------------------- what a script causes

  /** The steps of the transport's events: those that can happen when their turn comes. */
  ghost function NetRun(cfg: Config, t: Task, net: seq<NetEvent>): (run: seq<Event>)
    requires WellFormed(t) && !t.loop.left
    ensures LegalRun(cfg, t, run) && !Replay(cfg, t, run).loop.left
  {
    if net == [] then []
    else
      var front, e := NetRun(cfg, t, net[..|net| - 1]), EventOf(net[|net| - 1]);
      var s := Replay(cfg, t, front);
      if Legal(s, e) then
        StepKeepsLeft(cfg, s, e);
        ReplayAppend(cfg, t, front, e);
        front + [e]
      else front
  }

  /** Hanging the next `n` parts. */
  ghost function SpawnSteps(cfg: Config, t: Task, builds: nat -> bool, n: nat): (run: seq<Event>)
    requires WellFormed(t) && !t.loop.left && t.loop.spawned + n <= |t.contexts|
    ensures |run| == n && LegalRun(cfg, t, run)
    ensures forall k :: 0 <= k < n ==> run[k] == Spawn(builds(t.loop.spawned + k))
    ensures var r := Replay(cfg, t, run);
            && !r.loop.left && |r.contexts| == |t.contexts| && r.loop.spawned == t.loop.spawned + n
            && r.loop.pauseRequested == t.loop.pauseRequested && r.loop.cancelRequested == t.loop.cancelRequested
  {
    if n == 0 then []
    else
      var front, e := SpawnSteps(cfg, t, builds, n - 1), Spawn(builds(t.loop.spawned + n - 1));
      SpawnFacts(Replay(cfg, t, front), builds(t.loop.spawned + n - 1));
      ReplayAppend(cfg, t, front, e);
      front + [e]
  }

  ghost function AfterSpawns(cfg: Config, t: Task, builds: nat -> bool, n: nat): Task
    requires WellFormed(t) && !t.loop.left && t.loop.spawned + n <= |t.contexts|
  {
    Replay(cfg, t, SpawnSteps(cfg, t, builds, n))
  }

  ghost function AfterNet(cfg: Config, t: Task, net: seq<NetEvent>): (r: Task)
    requires WellFormed(t) && !t.loop.left
    ensures WellFormed(r) && !r.loop.left
  {
    Replay(cfg, t, NetRun(cfg, t, net))
  }

  /** Hanging every part that has not been hung yet. */
  ghost function SpawnRun(cfg: Config, t: Task, builds: nat -> bool): (run: seq<Event>)
    requires WellFormed(t) && !t.loop.left
    ensures LegalRun(cfg, t, run)
    ensures var r := Replay(cfg, t, run); !r.loop.left && r.loop.spawned == |r.contexts|
  {
    SpawnSteps(cfg, t, builds, |t.contexts| - t.loop.spawned)
  }

  /** The steps of the transport's messages. */
  ghost function MessageRun(cfg: Config, t: Task, messages: seq<Message>): (run: seq<Event>)
    requires WellFormed(t) && !t.loop.left
    ensures LegalRun(cfg, t, run) && !Replay(cfg, t, run).loop.left
  {
    if messages == [] then []
    else
      var front, m := MessageRun(cfg, t, messages[..|messages| - 1]), messages[|messages| - 1];
      var s := Replay(cfg, t, front);
      if Legal(s, Finished(m.i, m.rc, m.built)) then
        Budget.FinishedFrame(cfg, s, m.i, m.rc, m.built);
        ReplayAppend(cfg, t, front, Finished(m.i, m.rc, m.built));
        front + [Finished(m.i, m.rc, m.built)]
      else front
  }

  ghost function AfterMessages(cfg: Config, t: Task, messages: seq<Message>): (r: Task)
    requires WellFormed(t) && !t.loop.left
    ensures WellFormed(r) && !r.loop.left
  {
    Replay(cfg, t, MessageRun(cfg, t, messages))
  }

  /** Hanging parts and judging the messages, after the transport has worked. */
  ghost function AnswerRun(cfg: Config, t: Task, round: Round): (run: seq<Event>)
    requires WellFormed(t) && !t.loop.left
    ensures LegalRun(cfg, t, run) && !Replay(cfg, t, run).loop.left
  {
    var hung := SpawnRun(cfg, t, round.builds);
    var judged := MessageRun(cfg, Replay(cfg, t, hung), round.messages);
    ReplayConcat(cfg, t, hung, judged);
    hung + judged
  }

  /** One turn of the loop; it breaks off after the transport has worked if that failed. */
  ghost function TurnRun(cfg: Config, t: Task, round: Round): (run: seq<Event>)
    requires WellFormed(t) && !t.loop.left
    ensures LegalRun(cfg, t, run) && !Replay(cfg, t, run).loop.left
  {
    var net := NetRun(cfg, t, round.net);
    if !round.transportOk then net
    else
      var answer := AnswerRun(cfg, Replay(cfg, t, net), round);
      ReplayConcat(cfg, t, net, answer);
      ReplayAppend(cfg, t, net + answer, Throttled(round.stored));
      net + answer + [Throttled(round.stored)]
  }

  /** Turn after turn. */
  ghost function TurnsRun(cfg: Config, t: Task, script: seq<Round>): (run: seq<Event>)
    requires WellFormed(t) && !t.loop.left
    ensures LegalRun(cfg, t, run) && !Replay(cfg, t, run).loop.left
  {
    if script == [] then []
    else
      var front := TurnsRun(cfg, t, script[..|script| - 1]);
      var turn := TurnRun(cfg, Replay(cfg, t, front), script[|script| - 1]);
      ReplayConcat(cfg, t, front, turn);
      front + turn
  }

  ghost function AfterTurns(cfg: Config, t: Task, script: seq<Round>): (r: Task)
    requires WellFormed(t) && !t.loop.left
    ensures WellFormed(r) && !r.loop.left
  {
    Replay(cfg, t, TurnsRun(cfg, t, script))
  }

  predicate StopAsked(t: Task) {
    t.loop.cancelRequested || t.loop.pauseRequested
  }

  /** The loop is to end although transfers are live. */
  predicate Halted(t: Task) {
    StopAsked(t) || (t.status == Failed && t.reason == GeneralError)
  }

  predicate AllTerminal(parts: seq<Part>) {
    forall i :: 0 <= i < |parts| ==> parts[i].Terminal()
  }

  /** The transport broke in the last of the first `used` turns. */
  predicate Broken(script: seq<Round>, used: nat)
    requires used <= |script|
  {
    used > 0 && !script[used - 1].transportOk
  }

  /** The loop did every one of the first `used` turns, because it was to go on before each. */
  ghost predicate Driven(cfg: Config, t: Task, script: seq<Round>, used: nat)
    requires WellFormed(t) && !t.loop.left && used <= |script|
  {
    used == 0 || (var s := AfterTurns(cfg, t, script[..used - 1]);
                  Driven(cfg, t, script, used - 1) && !Broken(script, used - 1) && s.loop.active > 0 && !Halted(s))
  }

  /** The loop does `used` turns of the script and then ends, and it has a reason for each. */
  ghost predicate LoopEnds(cfg: Config, t: Task, script: seq<Round>, used: nat)
    requires WellFormed(t) && !t.loop.left && used <= |script|
  {
    var s := AfterTurns(cfg, t, script[..used]);
    Driven(cfg, t, script, used)
    && (s.loop.active == 0 || used == |script| || Halted(s) || Broken(script, used))
  }

  ghost function AfterSpawnRun(cfg: Config, t: Task, builds: nat -> bool): (r: Task)
    requires WellFormed(t) && !t.loop.left
    ensures WellFormed(r) && !r.loop.left
  {
    Replay(cfg, t, SpawnRun(cfg, t, builds))
  }

  /** The whole loop: hang the first parts, `used` turns of the script, take down what is live. */
  ghost function LoopRun(cfg: Config, t: Task, builds: nat -> bool, script: seq<Round>): (run: seq<Event>)
    requires WellFormed(t) && !t.loop.left
    ensures LegalRun(cfg, t, run)
  {
    var hung := SpawnRun(cfg, t, builds);
    var turns := TurnsRun(cfg, Replay(cfg, t, hung), script);
    ReplayConcat(cfg, t, hung, turns);
    ReplayAppend(cfg, t, hung + turns, LeaveLoop);
    hung + turns + [LeaveLoop]
  }

  /** What follows the loop, once the verdict is known. */
  function EndRun(t: Task, stored: bool): seq<Event> {
    var paused := t.loop.pauseRequested && !t.loop.cancelRequested;
    if Settled(t).status == Completed then [Settle, FinalReport(stored)] + (if paused then [MarkPaused] else [])
    else [Settle] + (if paused then [Throttled(stored), MarkPaused] else [])
  }

  /** The whole thread, for the turns of the script that the loop does. */
  ghost function ThreadRun(cfg: Config, t: Task, builds: nat -> bool, script: seq<Round>, stored: bool): seq<Event>
    requires WellFormed(t) && !t.loop.left
  {
    if t.loop.cancelRequested then []
    else if t.loop.pauseRequested then [Throttled(stored), MarkPaused]
    else
      var loop := LoopRun(cfg, t, builds, script);
      loop + EndRun(Replay(cfg, t, loop), stored)
  }

  /** Nothing is left unsaved: what is done has been reported, or, if the store works, the record is the task as it
      stands. */
  predicate NothingUnsaved(t: Task, stored: bool) {
    t.supportRange && t.loop.lastEmit < SumDone(t.parts) && stored ==> t.saved.Some? && Describes(t.saved.value, t)
  }

  /** How many parts to cut, how long the first one is, and how long the others are. */
  method PlanSizes(cfg: Config, total: int) returns (want: int, firstSize: int, chunk: int)
    ensures want == PlannedParts(cfg, total) && firstSize == PlannedFirstSize(cfg, total)
    ensures chunk == PlannedChunk(cfg, total)
  {
    want := 1;
    if total >= cfg.minSizeForSplit && cfg.defaultParts > 1 {
      want := cfg.defaultParts;
    }
    firstSize := total;
    if want > 1 {
      firstSize := Max(total / want, Min(PROBE_WINDOW, total));
      var rest := total - firstSize;
      if rest <= 0 {
        want := 1;
      } else if rest < want - 1 {
        want := 2;
      }
    }
    if want == 1 {
      firstSize := total;
    }
    chunk := if want > 1 then (total - firstSize) / (want - 1) else 0;
  }

  class Download {
    var total: int
    var status: Status
    var reason: Reason
    var supportRange: bool
    var etag: string
    var lastModified: string
    var parts: seq<Part>
    var contexts: seq<PartContext>
    var probing: bool
    var file: Bytes
    var saved: Option<Snapshot>
    var spawned: nat
    var active: int
    var connections: nat
    var left: bool
    var pauseRequested: bool
    var cancelRequested: bool
    var lastEmit: int
    var reports: seq<int>

    function LoopState(): Loop
      reads this
    {
      Loop(spawned, active, connections, left, pauseRequested, cancelRequested, lastEmit, reports)
    }

    function State(): Task
      reads this
    {
      Task(total, status, reason, supportRange, etag, lastModified, parts, contexts, probing, file, saved, LoopState())
    }

    predicate Valid()
      reads this
    {
      WellFormed(State())
    }

    constructor ()
      ensures Valid() && State() == NEW_TASK
    {
      total, status, reason := -1, Downloading, NoReason;
      supportRange, etag, lastModified := false, "", "";
      parts, contexts, probing := [FIRST_PART], [FRESH_CONTEXT], true;
      file, saved := [], None;
      spawned, active, connections, left := 0, 0, 0, false;
      pauseRequested, cancelRequested, lastEmit, reports := false, false, -1, [];
    }

    // -------------------------------------------------------------- callbacks

    method MarkFailed(i: nat, why: Reason)
      requires Valid() && i < |parts|
      modifies this`parts
      ensures State() == FailPart(old(State()), i, why)
    {
      parts := parts[i := parts[i].(status := Failed, reason := why)];
    }

    method MarkDrift(i: nat)
      requires Valid() && i < |parts|
      modifies this
      ensures State() == Drift(old(State()), i)
    {
      MarkFailed(i, GeneralError);
      status := Failed;
      reason := GeneralError;
    }

    method HeaderCb(i: nat, line: HeaderLine) returns (goOn: bool)
      requires Valid() && i < |parts|
      modifies this
      ensures HeaderResult(State(), goOn) == HeaderLineResult(old(State()), i, line)
    {
      if status == Failed || cancelRequested {
        return false;
      }
      match line {
        case StatusLine(code, _) =>
          contexts := contexts[i := contexts[i].(seenCode := code)];
          if code == 200 && !(|parts| <= 1 && parts[i].done == 0) {
            MarkDrift(i);
            return false;
          }
        case ContentRange(n) =>
          if n > 0 {
            contexts := contexts[i := contexts[i].(seenTotal := n)];
            if total <= 0 {
              total := n;
            }
            if total > 0 && n != total {
              MarkDrift(i);
              return false;
            }
          }
        case ContentLength(n) =>
          if n > 0 && contexts[i].seenTotal <= 0 && probing && contexts[i].seenCode != 206 {
            contexts := contexts[i := contexts[i].(seenTotal := n)];
          }
        case ETag(v) =>
          if etag == "" {
            etag := v;
          }
          if etag != "" && v != etag {
            MarkDrift(i);
            return false;
          }
        case LastModified(v) =>
          if lastModified == "" {
            lastModified := v;
          }
          if lastModified != "" && v != lastModified {
            MarkDrift(i);
            return false;
          }
        case OtherLine =>
      }
      return true;
    }

    /** The transport hands over one line; a refused line cuts the transfer. */
    method ReceiveLine(i: nat, line: HeaderLine)
      requires Valid() && i < |parts| && contexts[i].conn.Open?
      modifies this
      ensures State() == OnHeader(old(State()), i, line)
    {
      contexts := contexts[i := contexts[i].(conn := Observe(contexts[i].conn, line))];
      var goOn := HeaderCb(i, line);
      if !goOn {
        contexts := contexts[i := contexts[i].(conn := contexts[i].conn.(aborted := true))];
      }
    }

    /** Append the parts after the first, one by one. */
    method AppendParts(cfg: Config, want: int, firstSize: int, chunk: int)
      requires Valid() && |parts| >= 1
      requires want == PlannedParts(cfg, total) && firstSize == PlannedFirstSize(cfg, total)
      requires chunk == PlannedChunk(cfg, total)
      modifies this`parts, this`contexts
      ensures parts == old(parts) + PlannedPartsOf(cfg, total)[1..]
      ensures contexts == old(contexts) + seq(want - 1, _ => FRESH_CONTEXT)
    {
      ghost var planned := PlannedPartsOf(cfg, total);
      var i := 1;
      while i < want
        invariant 1 <= i <= want
        invariant parts == old(parts) + planned[1..i]
        invariant contexts == old(contexts) + seq(i - 1, _ => FRESH_CONTEXT)
      {
        var start := firstSize + chunk * (i - 1);
        var last := if i == want - 1 then total - 1 else start + chunk - 1;
        var size := if last >= start then last - start + 1 else 0;
        parts := parts + [Part(i, start, last, size, 0, Downloading, NoReason)];
        contexts := contexts + [FRESH_CONTEXT];
        assert parts[|parts| - 1] == planned[i];
        i := i + 1;
      }
      assert planned[1..|planned|] == planned[1..];
    }

    /** Cut the file into parts: the first is the running transfer. */
    method SplitParts(cfg: Config)
      requires Valid()
      modifies this`parts, this`contexts, this`supportRange
      ensures State() == CutParts(cfg, old(State()))
    {
      var want, firstSize, chunk := PlanSizes(cfg, total);
      var end := if total > 0 then firstSize - 1 else -1;
      supportRange := true;
      parts := parts[0 := Part(0, 0, end, if end >= 0 then end + 1 else 0, 0, Downloading, NoReason)];
      contexts := contexts[0 := contexts[0].(seenTotal := 0, seenCode := 0, retries := 0)];
      assert parts[0] == PlannedPartsOf(cfg, total)[0];
      AppendParts(cfg, want, firstSize, chunk);
    }

    method TakeWholeStream()
      requires Valid()
      modifies this`parts, this`supportRange
      ensures State() == SingleStream(old(State()))
    {
      supportRange := false;
      parts := parts[0 := parts[0].(start := 0, end := if total > 0 then total - 1 else -1,
                                    size := if total > 0 then total else 0)];
    }

    method FinalizeProbing(cfg: Config, i: nat, creates: bool)
      requires Valid() && i < |parts|
      modifies this
      ensures State() == Model.FinalizeProbing(cfg, old(State()), i, creates)
    {
      var code := contexts[i].seenCode;
      probing := false;
      if total <= 0 && contexts[i].seenTotal > 0 {
        total := contexts[i].seenTotal;
      }
      if !creates {
        status, reason := Failed, GeneralError;
        return;
      }
      file := if total > 0 then Zeros(total) else [];
      assert State() == CreateFile(old(State()), i);
      if code == 206 {
        SplitParts(cfg);
      } else {
        TakeWholeStream();
      }
    }

    method WriteCb(cfg: Config, i: nat, data: Bytes, disk: Disk) returns (taken: nat)
      requires Valid() && i < |parts|
      modifies this
      ensures WriteEffect(State(), taken) == WriteResult(cfg, old(State()), i, data, disk)
    {
      if status == Failed || cancelRequested || pauseRequested || |data| == 0 {
        return 0;
      }
      if probing {
        FinalizeProbing(cfg, i, disk.creates);
        if status == Failed {
          return 0;
        }
      }
      taken := WriteToPart(i, data, disk.write);
    }

    method WriteToPart(i: nat, data: Bytes, outcome: WriteOutcome) returns (taken: nat)
      requires Valid() && i < |parts|
      modifies this
      ensures WriteEffect(State(), taken) == WriteIntoPart(old(State()), i, data, outcome)
    {
      var len := |data|;
      if parts[i].size > 0 {
        var remain := parts[i].size - parts[i].done;
        if remain <= 0 {
          return 0;
        }
        if |data| > remain {
          len := remain;
        }
      }
      var off := parts[i].start + parts[i].done;
      if outcome.FileMissing? || off < 0 {
        MarkFailed(i, GeneralError);
        return 0;
      }
      if outcome.FailsAfter? {
        file := WriteAt(file, off, data[..Min(outcome.count, len)]);
        MarkFailed(i, GeneralError);
        return 0;
      }
      file := WriteAt(file, off, data[..len]);
      parts := parts[i := parts[i].(done := parts[i].done + len)];
      return len;
    }

    /** The transport hands over a piece of the body; a short count cuts the transfer. */
    method ReceiveBody(cfg: Config, i: nat, data: Bytes, disk: Disk)
      requires Valid() && i < |parts| && contexts[i].conn.Open?
      modifies this
      ensures State() == OnBody(cfg, old(State()), i, data, disk)
    {
      var taken := WriteCb(cfg, i, data, disk);
      var conn := contexts[i].conn;
      contexts := contexts[i := contexts[i].(conn := conn.(received := conn.received + |data|,
                                                           aborted := taken < |data|))];
    }

    // -------------------------------------------------------------- the loop's steps

    method HandlePartResult(cfg: Config, i: nat, rc: TransferResult, code: int) returns (again: bool)
      requires Valid() && i < |parts|
      modifies this
      ensures Verdict(State(), again) == PartResult(cfg, old(State()), i, rc, code)
    {
      if parts[i].status == Failed {
        return false;
      }
      if parts[i].size > 0 && parts[i].done >= parts[i].size {
        parts := parts[i := parts[i].(status := Completed, reason := NoReason)];
        return false;
      }
      if contexts[i].probeWindow && rc == TransferOk && code == 206 && parts[i].done > 0 {
        contexts := contexts[i := contexts[i].(probeWindow := false)];
        return true;
      }
      if IsSuccess(rc, code) {
        if parts[i].size <= 0 {
          parts := parts[i := parts[i].(status := Completed, reason := NoReason, size := parts[i].done)];
          if total <= 0 {
            total := parts[i].done;
          }
          return false;
        }
        again := RetryPart(cfg, i, Network, true);
      } else {
        var (why, retryable) := ClassifyFailure(rc, code);
        again := RetryPart(cfg, i, why, retryable);
      }
    }

    method RetryPart(cfg: Config, i: nat, why: Reason, retryable: bool) returns (again: bool)
      requires Valid() && i < |parts|
      modifies this
      ensures Verdict(State(), again) == RetryOrFail(cfg, old(State()), i, why, retryable)
    {
      again := retryable && contexts[i].retries < cfg.maxRetries;
      if again {
        contexts := contexts[i := contexts[i].(retries := contexts[i].retries + 1)];
      } else {
        MarkFailed(i, why);
      }
    }

    method AddPart(i: nat, built: bool)
      requires Valid() && i < |parts|
      modifies this
      ensures State() == Model.AddPart(old(State()), i, built)
    {
      if !built {
        MarkFailed(i, GeneralError);
        return;
      }
      var from, upto := 0, PROBE_WINDOW - 1;
      if !probing {
        from := parts[i].start + parts[i].done;
        upto := if parts[i].end >= from then parts[i].end else -1;
      }
      var asked := NoCondition;
      if !probing && (etag != "" || lastModified != "") {
        asked := if etag == "" then IfDate(lastModified) else IfTag(etag);
      }
      contexts := contexts[i := contexts[i].(probeWindow := probing, seenTotal := 0, seenCode := 0,
                                             conn := Open(from, upto, asked, 0, "", "", "", 0, false))];
      connections := connections + 1;
    }

    /** One message of the transport: take the transfer down, judge its part, and ask again or let it go. */
    method ProcessMessage(cfg: Config, i: nat, rc: TransferResult, built: bool)
      requires Valid() && i < |parts| && contexts[i].conn.Open?
      modifies this
      ensures State() == OnFinished(cfg, old(State()), i, rc, built)
    {
      var code := contexts[i].conn.code;
      contexts := contexts[i := contexts[i].(conn := Closed)];
      if cancelRequested || pauseRequested {
        active := active - 1;
        return;
      }
      var again := HandlePartResult(cfg, i, rc, code);
      AnswerVerdict(i, again, built);
    }

    /** Ask for the part again, or let it go. */
    method AnswerVerdict(i: nat, again: bool, built: bool)
      requires Valid() && i < |parts|
      modifies this
      ensures State() == Answer(Verdict(old(State()), again), i, built)
    {
      if again {
        AddPart(i, built);
      }
      if !(again && built) {
        active := active - 1;
      }
    }

    method SpawnPart(built: bool)
      requires Valid() && spawned < |contexts|
      modifies this
      ensures State() == SpawnNext(old(State()), built)
    {
      var i := spawned;
      spawned := spawned + 1;
      if parts[i].status != Completed {
        AddPart(i, built);
        if built {
          active := active + 1;
        }
      }
    }

    /** Hang every part that has not been hung yet. */
    method SpawnNewParts(cfg: Config, builds: nat -> bool) returns (ghost run: seq<Event>)
      requires Valid() && !left
      modifies this
      ensures run == SpawnRun(cfg, old(State()), builds) && State() == Replay(cfg, old(State()), run)
      ensures Valid() && spawned == |contexts| && !left
      ensures pauseRequested == old(pauseRequested) && cancelRequested == old(cancelRequested)
    {
      ghost var before, n := State(), 0;
      while spawned < |contexts|
        invariant |contexts| == |before.contexts| && spawned == before.loop.spawned + n <= |contexts|
        invariant State() == AfterSpawns(cfg, before, builds, n)
        decreases |contexts| - spawned
      {
        OneMoreSpawn(cfg, before, builds, n);
        SpawnPart(builds(spawned));
        n := n + 1;
      }
      run := SpawnRun(cfg, before, builds);
    }

    /** The transport works: callbacks of live transfers, and requests of other threads in between. */
    method Perform(cfg: Config, net: seq<NetEvent>) returns (ghost run: seq<Event>)
      requires Valid() && !left
      modifies this
      ensures run == NetRun(cfg, old(State()), net) && State() == Replay(cfg, old(State()), run)
      ensures Valid() && !left
    {
      ghost var before := State();
      var k := 0;
      while k < |net|
        invariant 0 <= k <= |net| && State() == AfterNet(cfg, before, net[..k])
      {
        OneMoreEvent(cfg, before, net, k);
        if Legal(State(), EventOf(net[k])) {
          Receive(cfg, net[k]);
        }
        k := k + 1;
      }
      assert net[..|net|] == net;
      run := NetRun(cfg, before, net);
    }

    method Receive(cfg: Config, event: NetEvent)
      requires Valid() && Legal(State(), EventOf(event))
      modifies this
      ensures State() == Step(cfg, old(State()), EventOf(event))
    {
      match event {
        case Line(i, line) => ReceiveLine(i, line);
        case Chunk(i, data, disk) => ReceiveBody(cfg, i, data, disk);
        case PauseAsked => pauseRequested := true;
        case CancelAsked => cancelRequested := true;
      }
    }

    /** Drain the transport's messages. */
    method ProcessMessages(cfg: Config, messages: seq<Message>) returns (ghost run: seq<Event>)
      requires Valid() && !left && spawned == |contexts|
      modifies this
      ensures run == MessageRun(cfg, old(State()), messages) && State() == Replay(cfg, old(State()), run)
      ensures Valid() && !left && spawned == |contexts|
      ensures pauseRequested == old(pauseRequested) && cancelRequested == old(cancelRequested)
    {
      ghost var start := State();
      var k := 0;
      while k < |messages|
        invariant 0 <= k <= |messages| && Valid() && !left && spawned == |contexts|
        invariant pauseRequested == old(pauseRequested) && cancelRequested == old(cancelRequested)
        invariant State() == AfterMessages(cfg, start, messages[..k])
      {
        var m := messages[k];
        OneMoreMessage(cfg, start, messages, k);
        if Legal(State(), Finished(m.i, m.rc, m.built)) {
          ghost var before := State();
          Budget.FinishedFrame(cfg, before, m.i, m.rc, m.built);
          ProcessMessage(cfg, m.i, m.rc, m.built);
        }
        k := k + 1;
      }
      assert messages[..|messages|] == messages;
      run := MessageRun(cfg, start, messages);
    }

    method EmitResume(stored: bool)
      modifies this`saved
      ensures State() == Report(old(State()), stored)
    {
      var items: seq<seq<int>> := [];
      var k := 0;
      while k < |parts|
        invariant 0 <= k <= |parts|
        invariant items == Serialize(old(State())).parts[..k]
      {
        items := items + [[parts[k].index, parts[k].start, parts[k].end, parts[k].done]];
        k := k + 1;
      }
      assert items == Serialize(old(State())).parts;
      if stored {
        saved := Some(Snapshot(total, supportRange, etag, lastModified, !probing, items));
      }
    }

    method MaybeEmitResume(stored: bool)
      modifies this
      ensures State() == MaybeReport(old(State()), stored)
    {
      if !supportRange {
        return;
      }
      var done := 0;
      var k := 0;
      while k < |parts|
        invariant 0 <= k <= |parts| && done == SumDone(parts[..k])
      {
        done := done + parts[k].done;
        assert parts[..k + 1][..k] == parts[..k];
        k := k + 1;
      }
      assert parts[..|parts|] == parts;
      if done <= lastEmit {
        return;
      }
      lastEmit := done;
      reports := reports + [done];
      EmitResume(stored);
    }

    /** Look at every part once and derive the verdict of the task. */
    method AggregateStatus()
      modifies this`status, this`reason
      ensures State() == Settled(old(State()))
      ensures old(Fatal(State())) ==> Fatal(State())
      ensures !old(Fatal(State())) && SomePart(parts, Downloading) ==> status == Downloading && reason == NoReason
    {
      if status == Failed && reason == GeneralError {
        return;
      }
      var hasDownloading, hasError, allCompleted, best := ScanParts();
      if hasDownloading {
        status, reason := Downloading, NoReason;
      } else if allCompleted {
        status, reason := Completed, NoReason;
      } else if hasError {
        status, reason := Failed, best;
      }
    }

    method ScanParts() returns (hasDownloading: bool, hasError: bool, allCompleted: bool, best: Reason)
      ensures hasDownloading <==> exists p :: p in parts && p.status == Downloading
      ensures allCompleted <==> forall p :: p in parts ==> p.status == Completed
      ensures WorstReason(parts) == if hasError then Some(best) else None
    {
      hasDownloading, hasError, allCompleted, best := false, false, true, NoReason;
      var bestRank: int := -1;
      var k := 0;
      while k < |parts|
        invariant 0 <= k <= |parts|
        invariant hasDownloading <==> exists p :: p in parts[..k] && p.status == Downloading
        invariant allCompleted <==> forall p :: p in parts[..k] ==> p.status == Completed
        invariant hasError <==> bestRank != -1
        invariant WorstReason(parts[..k]) == if hasError then Some(best) else None
        invariant hasError ==> bestRank == Rank(best)
      {
        var part := parts[k];
        assert parts[..k + 1] == parts[..k] + [part];
        match part.status {
          case Downloading =>
            hasDownloading, allCompleted := true, false;
          case Failed =>
            hasError, allCompleted := true, false;
            if Rank(part.reason) > bestRank {
              best, bestRank := part.reason, Rank(part.reason);
            }
          case Completed =>
          case Paused =>
            allCompleted := false;
        }
        k := k + 1;
      }
      assert parts[..|parts|] == parts;
    }

    // -------------------------------------------------------------- the task thread

    /** The event loop of one task, for any script of the outside world: it does the first `used` turns of it. `dry`
        tells that it ended because no transfer was left; then every part has its verdict, unless the task is being
        stopped. Otherwise it was stopped, or failed for good, or the transport broke, or the script is over. */
    method RunPartsMulti(cfg: Config, builds: nat -> bool, script: seq<Round>)
      returns (dry: bool, used: nat, ghost run: seq<Event>)
      requires Valid() && spawned == 0 && !left && Budget.Books(State())
      modifies this
      ensures used <= |script| && run == LoopRun(cfg, old(State()), builds, script[..used])
      ensures LegalRun(cfg, old(State()), run) && State() == Replay(cfg, old(State()), run)
      ensures LoopEnds(cfg, AfterSpawnRun(cfg, old(State()), builds), script, used)
      ensures Valid() && left
      ensures dry && !StopAsked(State()) ==> AllTerminal(parts)
      ensures !dry ==> used == |script| || Halted(State()) || Broken(script, used)
    {
      ghost var hung := SpawnNewParts(cfg, builds);
      Budget.RunBooks(cfg, old(State()), hung);
      ghost var driven;
      dry, used, driven := DriveParts(cfg, script);
      ReplayConcat(cfg, old(State()), hung, driven);
      run := hung + driven;
      ReplayAppend(cfg, old(State()), run, LeaveLoop);
      CleanupAll();
      run := run + [LeaveLoop];
    }

    /** Turn after turn, until no transfer is left, the task is stopped or failed, or the transport breaks. */
    method DriveParts(cfg: Config, script: seq<Round>) returns (dry: bool, used: nat, ghost run: seq<Event>)
      requires Valid() && spawned == |contexts| && !left && Budget.Books(State())
      modifies this
      ensures used <= |script| && run == TurnsRun(cfg, old(State()), script[..used])
      ensures State() == Replay(cfg, old(State()), run) && LoopEnds(cfg, old(State()), script, used)
      ensures Valid() && !left
      ensures dry ==> active == 0
      ensures dry && !StopAsked(State()) ==> AllTerminal(parts)
      ensures !dry ==> used == |script| || Halted(State()) || Broken(script, used)
    {
      ghost var before := State();
      used := 0;
      var stopped := false;
      while active > 0 && used < |script| && !stopped
        invariant 0 <= used <= |script| && State() == AfterTurns(cfg, before, script[..used])
        invariant Driven(cfg, before, script, used)
        invariant !stopped ==> !Broken(script, used) && spawned == |contexts|
        invariant stopped ==> Halted(State()) || Broken(script, used)
        decreases |script| - used, !stopped
      {
        if cancelRequested || pauseRequested || (status == Failed && reason == GeneralError) {
          stopped := true;
        } else {
          OneMoreTurn(cfg, before, script, used);
          ghost var turn := Turn(cfg, script[used]);
          stopped := !script[used].transportOk;
          used := used + 1;
        }
      }
      run := TurnsRun(cfg, before, script[..used]);
      TurnsEnd(cfg, before, script[..used]);
      dry := active == 0 && !stopped;
    }

    /** Take down whatever is still live. */
    method CleanupAll()
      requires Valid()
      modifies this
      ensures State() == Left(old(State())) && Valid()
    {
      contexts := CloseAll(contexts);
      active := 0;
      left := true;
    }

    /** One turn of the loop: callbacks, new parts, messages, report. */
    method Turn(cfg: Config, round: Round) returns (ghost run: seq<Event>)
      requires Valid() && !left
      modifies this
      ensures run == TurnRun(cfg, old(State()), round) && State() == Replay(cfg, old(State()), run)
      ensures Valid() && !left && (round.transportOk ==> spawned == |contexts|)
    {
      run := Perform(cfg, round.net);
      if !round.transportOk {
        return;
      }
      ghost var answer := HangAndJudge(cfg, round);
      ReplayConcat(cfg, old(State()), run, answer);
      run := run + answer;
      ReplayAppend(cfg, old(State()), run, Throttled(round.stored));
      MaybeEmitResume(round.stored);
      run := run + [Throttled(round.stored)];
    }

    method HangAndJudge(cfg: Config, round: Round) returns (ghost run: seq<Event>)
      requires Valid() && !left
      modifies this
      ensures run == AnswerRun(cfg, old(State()), round) && State() == Replay(cfg, old(State()), run)
      ensures Valid() && !left && spawned == |contexts|
    {
      ghost var hung := SpawnNewParts(cfg, round.builds);
      ghost var judged := ProcessMessages(cfg, round.messages);
      ReplayConcat(cfg, old(State()), hung, judged);
      run := hung + judged;
    }

    /** The body of the task thread. What it does is decided by the script: nothing when cancelled, a report when
        paused, else the loop and what follows its verdict. Whatever happens is a legal run, so with an honest server
        the file is right. */
    method TaskThread(cfg: Config, builds: nat -> bool, script: seq<Round>, stored: bool)
      returns (used: nat, ghost run: seq<Event>)
      requires Valid() && spawned == 0 && !left && Budget.Books(State())
      modifies this
      ensures used <= |script| && run == ThreadRun(cfg, old(State()), builds, script[..used], stored)
      ensures old(cancelRequested) ==> State() == old(State())
      ensures old(pauseRequested && !cancelRequested) ==> status == Paused && connections == old(connections)
      ensures !old(StopAsked(State())) ==>
                LoopEnds(cfg, AfterSpawnRun(cfg, old(State()), builds), script, used)
      ensures LegalRun(cfg, old(State()), run) && State() == Replay(cfg, old(State()), run)
      ensures forall sv :: ValidConfig(cfg) && Inv(sv, old(State())) && HonestRun(sv, cfg, old(State()), run)
                           ==> Inv(sv, State()) && CompletedMeans(sv, State())
      ensures forall sv :: ValidConfig(cfg) && Inv(sv, old(State())) && LengthInv(sv, old(State()))
                           && HonestRun(sv, cfg, old(State()), run) && RightRun(sv, cfg, old(State()), run)
                           ==> CompletedIsResource(sv, State())
      ensures pauseRequested && !cancelRequested ==> status == Paused && NothingUnsaved(State(), stored)
    {
      used, run := ThreadBody(cfg, builds, script, stored);
      forall sv | ValidConfig(cfg) && Inv(sv, old(State())) && HonestRun(sv, cfg, old(State()), run)
        ensures Inv(sv, State()) && CompletedMeans(sv, State())
      {
        RunKeeps(sv, cfg, old(State()), run);
        InvGivesFile(sv, State());
      }
      forall sv | ValidConfig(cfg) && Inv(sv, old(State())) && LengthInv(sv, old(State()))
                  && HonestRun(sv, cfg, old(State()), run) && RightRun(sv, cfg, old(State()), run)
        ensures CompletedIsResource(sv, State())
      {
        RunKeepsLength(sv, cfg, old(State()), run);
      }
    }

    method ThreadBody(cfg: Config, builds: nat -> bool, script: seq<Round>, stored: bool)
      returns (used: nat, ghost run: seq<Event>)
      requires Valid() && spawned == 0 && !left && Budget.Books(State())
      modifies this
      ensures used <= |script| && run == ThreadRun(cfg, old(State()), builds, script[..used], stored)
      ensures old(cancelRequested) ==> State() == old(State())
      ensures old(pauseRequested && !cancelRequested) ==> status == Paused && connections == old(connections)
      ensures !old(StopAsked(State())) ==>
                LoopEnds(cfg, AfterSpawnRun(cfg, old(State()), builds), script, used)
      ensures LegalRun(cfg, old(State()), run) && State() == Replay(cfg, old(State()), run)
      ensures pauseRequested && !cancelRequested ==> status == Paused && NothingUnsaved(State(), stored)
    {
      run, used := [], 0;
      if cancelRequested {
        return;
      }
      if pauseRequested {
        run := ReportAndPause(cfg, stored);
        return;
      }
      var dry;
      dry, used, run := RunPartsMulti(cfg, builds, script);
      ghost var end := Conclude(cfg, stored);
      ReplayConcat(cfg, old(State()), run, end);
      run := run + end;
    }

    /** The thread was asked to pause: save where it stands. */
    method ReportAndPause(cfg: Config, stored: bool) returns (ghost run: seq<Event>)
      requires Valid() && (left || spawned == 0) && pauseRequested && !cancelRequested
      modifies this
      ensures run == [Throttled(stored), MarkPaused] && connections == old(connections)
      ensures supportRange ==> lastEmit >= SumDone(parts)
      ensures stored && supportRange && SumDone(parts) > old(lastEmit) ==>
                saved.Some? && Describes(saved.value, State())
      ensures LegalRun(cfg, old(State()), run) && State() == Replay(cfg, old(State()), run)
      ensures status == Paused && pauseRequested && !cancelRequested
    {
      run := [Throttled(stored)];
      assert run[1..] == [];
      ReportExactly(State(), stored);
      MaybeEmitResume(stored);
      ReplayAppend(cfg, old(State()), run, MarkPaused);
      status := Paused;
      run := run + [MarkPaused];
    }

    /** All is there: save that; a pause request is marked all the same. */
    method ReportCompleted(cfg: Config, stored: bool) returns (ghost run: seq<Event>)
      requires Valid() && left && status == Completed
      modifies this
      ensures run == [FinalReport(stored)] + (if pauseRequested && !cancelRequested then [MarkPaused] else [])
      ensures stored ==> saved.Some? && Describes(saved.value, State())
      ensures LegalRun(cfg, old(State()), run) && State() == Replay(cfg, old(State()), run)
      ensures pauseRequested == old(pauseRequested) && cancelRequested == old(cancelRequested)
      ensures pauseRequested && !cancelRequested ==> status == Paused
    {
      run := [FinalReport(stored)];
      assert run[1..] == [];
      EmitResume(stored);
      if !cancelRequested && pauseRequested {
        ReplayAppend(cfg, old(State()), run, MarkPaused);
        status := Paused;
        run := run + [MarkPaused];
      }
    }

    /** After the loop: the verdict, the last report, and the pause mark. */
    method Conclude(cfg: Config, stored: bool) returns (ghost run: seq<Event>)
      requires Valid() && left
      modifies this
      ensures run == EndRun(old(State()), stored)
      ensures stored && Settled(old(State())).status == Completed ==> saved.Some? && Describes(saved.value, State())
      ensures pauseRequested && !cancelRequested ==> NothingUnsaved(State(), stored)
      ensures LegalRun(cfg, old(State()), run) && State() == Replay(cfg, old(State()), run)
      ensures pauseRequested && !cancelRequested ==> status == Paused
    {
      run := [Settle];
      assert run[1..] == [];
      AggregateStatus();
      if status == Completed {
        ghost var last := ReportCompleted(cfg, stored);
        ReplayConcat(cfg, old(State()), run, last);
        run := run + last;
      } else if pauseRequested && !cancelRequested {
        ghost var last := ReportAndPause(cfg, stored);
        ReplayConcat(cfg, old(State()), run, last);
        run := run + last;
      }
    }
  }

  lemma OneMoreSpawn(cfg: Config, t: Task, builds: nat -> bool, n: nat)
    requires WellFormed(t) && !t.loop.left && t.loop.spawned + n < |t.contexts|
    ensures var s := AfterSpawns(cfg, t, builds, n);
            && WellFormed(s) && |s.contexts| == |t.contexts| && s.loop.spawned == t.loop.spawned + n
            && AfterSpawns(cfg, t, builds, n + 1) == SpawnNext(s, builds(s.loop.spawned))
            && |SpawnNext(s, builds(s.loop.spawned)).contexts| == |t.contexts|
            && SpawnNext(s, builds(s.loop.spawned)).loop.spawned == s.loop.spawned + 1
  {
    var front := SpawnSteps(cfg, t, builds, n);
    SpawnFacts(Replay(cfg, t, front), builds(t.loop.spawned + n));
    ReplayAppend(cfg, t, front, Spawn(builds(t.loop.spawned + n)));
  }

  lemma OneMoreEvent(cfg: Config, t: Task, net: seq<NetEvent>, k: nat)
    requires WellFormed(t) && !t.loop.left && k < |net|
    ensures var s, e := AfterNet(cfg, t, net[..k]), EventOf(net[k]);
            AfterNet(cfg, t, net[..k + 1]) == if Legal(s, e) then Step(cfg, s, e) else s
  {
    assert net[..k + 1][..k] == net[..k];
    var front, e := NetRun(cfg, t, net[..k]), EventOf(net[k]);
    if Legal(Replay(cfg, t, front), e) {
      ReplayAppend(cfg, t, front, e);
    }
  }

  lemma OneMoreMessage(cfg: Config, t: Task, messages: seq<Message>, k: nat)
    requires WellFormed(t) && !t.loop.left && k < |messages|
    ensures var s, m := AfterMessages(cfg, t, messages[..k]), messages[k];
            AfterMessages(cfg, t, messages[..k + 1])
            == if Legal(s, Finished(m.i, m.rc, m.built)) then OnFinished(cfg, s, m.i, m.rc, m.built) else s
  {
    assert messages[..k + 1][..k] == messages[..k];
    var front, m := MessageRun(cfg, t, messages[..k]), messages[k];
    if Legal(Replay(cfg, t, front), Finished(m.i, m.rc, m.built)) {
      ReplayAppend(cfg, t, front, Finished(m.i, m.rc, m.built));
    }
  }

  /** The loop is to go on, and does the next turn of the script. */
  lemma OneMoreTurn(cfg: Config, t: Task, script: seq<Round>, used: nat)
    requires WellFormed(t) && !t.loop.left && used < |script| && Driven(cfg, t, script, used)
    requires !Broken(script, used) && !Halted(AfterTurns(cfg, t, script[..used]))
    requires AfterTurns(cfg, t, script[..used]).loop.active > 0
    ensures var s, r := AfterTurns(cfg, t, script[..used]), AfterTurns(cfg, t, script[..used + 1]);
            r == Replay(cfg, s, TurnRun(cfg, s, script[used]))
    ensures Driven(cfg, t, script, used + 1)
  {
    var done := TurnsRun(cfg, t, script[..used]);
    var s := Replay(cfg, t, done);
    var turn := TurnRun(cfg, s, script[used]);
    assert script[..used + 1][..used] == script[..used];
    ReplayConcat(cfg, t, done, turn);
  }

  /** When no transfer is left after some turns, every part has its verdict. */
  lemma TurnsEnd(cfg: Config, t: Task, script: seq<Round>)
    requires Budget.Books(t) && !t.loop.left
    ensures var s := AfterTurns(cfg, t, script);
            && s.loop.active >= 0
            && (s.loop.active == 0 && s.loop.spawned == |s.contexts| && !StopAsked(s) ==> AllTerminal(s.parts))
  {
    var s := AfterTurns(cfg, t, script);
    Budget.RunBooks(cfg, t, TurnsRun(cfg, t, script));
    Budget.LiveNonNegative(s.contexts, |s.contexts|);
    if s.loop.active == 0 && s.loop.spawned == |s.contexts| && !StopAsked(s) {
      Budget.DryLoopIsDone(s);
    }
  }

  /** A turn: the transport works through its events; if it has not broken, the new parts are hung, then the messages
      are judged one by one, and then what is done is reported. */
  lemma TurnExactly(cfg: Config, t: Task, round: Round)
    requires WellFormed(t) && !t.loop.left
    ensures var worked := AfterNet(cfg, t, round.net);
            var judged := AfterMessages(cfg, AfterSpawnRun(cfg, worked, round.builds), round.messages);
            Replay(cfg, t, TurnRun(cfg, t, round))
            == if round.transportOk then MaybeReport(judged, round.stored) else worked
  {
    var net := NetRun(cfg, t, round.net);
    var worked := AfterNet(cfg, t, round.net);
    if round.transportOk {
      var hung := SpawnRun(cfg, worked, round.builds);
      var judged := MessageRun(cfg, Replay(cfg, worked, hung), round.messages);
      ReplayConcat(cfg, worked, hung, judged);
      ReplayConcat(cfg, t, net, AnswerRun(cfg, worked, round));
      ReplayAppend(cfg, t, net + AnswerRun(cfg, worked, round), Throttled(round.stored));
    }
  }

  /** The loop: hang the parts there are, do the turns, and take down what is left. */
  lemma LoopExactly(cfg: Config, t: Task, builds: nat -> bool, script: seq<Round>)
    requires WellFormed(t) && !t.loop.left
    ensures Replay(cfg, t, LoopRun(cfg, t, builds, script))
            == Left(AfterTurns(cfg, AfterSpawnRun(cfg, t, builds), script))
  {
    var hung := SpawnRun(cfg, t, builds);
    var turns := TurnsRun(cfg, Replay(cfg, t, hung), script);
    ReplayConcat(cfg, t, hung, turns);
    ReplayAppend(cfg, t, hung + turns, LeaveLoop);
  }

  /** A turn with a working transport ends with everything reported. */
  lemma TurnReports(cfg: Config, t: Task, round: Round)
    requires WellFormed(t) && !t.loop.left && round.transportOk
    ensures var r := Replay(cfg, t, TurnRun(cfg, t, round));
            r.supportRange ==> r.loop.lastEmit >= SumDone(r.parts)
  {
    var net := NetRun(cfg, t, round.net);
    var answer := AnswerRun(cfg, Replay(cfg, t, net), round);
    ReplayConcat(cfg, t, net, answer);
    ReplayAppend(cfg, t, net + answer, Throttled(round.stored));
    ReportExactly(Replay(cfg, t, net + answer), round.stored);
  }

  /** A turn is done only while a transfer is live, no stop is asked for, the task has not failed for good and the
      transport works; and the loop ends only when one of these is no longer so, or the script is over. */
  lemma {:induction false} TurnsExactly(cfg: Config, t: Task, script: seq<Round>, used: nat, k: nat)
    requires WellFormed(t) && !t.loop.left && used <= |script| && LoopEnds(cfg, t, script, used) && k <= used
    ensures var s := AfterTurns(cfg, t, script[..k]);
            var goesOn := s.loop.active != 0 && !s.loop.pauseRequested && !s.loop.cancelRequested
                          && !(s.status == Failed && s.reason == GeneralError)
                          && (k > 0 ==> script[k - 1].transportOk);
            && (k < used ==> goesOn && s.loop.active > 0)
            && (k == used && used < |script| ==> !goesOn)
  {
    if k < used {
      DrivenBefore(cfg, t, script, used, k);
    }
  }

  lemma {:induction false} DrivenBefore(cfg: Config, t: Task, script: seq<Round>, used: nat, k: nat)
    requires WellFormed(t) && !t.loop.left && k < used <= |script| && Driven(cfg, t, script, used)
    ensures var s := AfterTurns(cfg, t, script[..k]);
            !Broken(script, k) && s.loop.active > 0 && !Halted(s)
    decreases used
  {
    if k < used - 1 {
      DrivenBefore(cfg, t, script, used - 1, k);
    }
  }

  lemma SpawnFacts(t: Task, built: bool)
    requires WellFormed(t) && t.loop.spawned < |t.contexts|
    ensures var r := SpawnNext(t, built);
            && |r.contexts| == |t.contexts| && r.loop.spawned == t.loop.spawned + 1 && r.loop.left == t.loop.left
            && r.loop.pauseRequested == t.loop.pauseRequested && r.loop.cancelRequested == t.loop.cancelRequested
  {
  }

  /** Callbacks and requests of other threads do not end the loop. */
  lemma StepKeepsLeft(cfg: Config, t: Task, e: Event)
    requires WellFormed(t) && Legal(t, e) && (e.Header? || e.Body? || e.RequestPause? || e.RequestCancel?)
    ensures Step(cfg, t, e).loop.left == t.loop.left
  {
  }
}
