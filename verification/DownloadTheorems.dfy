/**
  The remaining steps of a download keep the invariant, so every run does; the theorems at the end say what a
  user of the library learns from that about the file on disk.
*/
module DownloadTheorems {
  import opened SplitPlan
  import opened DownloadModel
  import opened DownloadInvariant

  // ---------------------------------------------------------------- transfers that end and start

  lemma CloseKeeps(sv: Server, t: Task, i: nat)
    requires Inv(sv, t) && i < |t.contexts| && t.contexts[i].conn.Open?
    ensures var t0 := WithConnection(t, i, Closed);
            && Inv(sv, t0) && t0.contexts[i].conn.Closed? && t0.parts == t.parts && t0.loop == t.loop
            && i < t0.loop.spawned && !t0.loop.left && t0.parts[i].status != Completed
  {
    assert Aligned(sv, t, t.contexts[i], t.parts[i]);
    var r := WithConnection(t, i, Closed);
    forall j | 0 <= j < |t.contexts|
      ensures Aligned(sv, r, r.contexts[j], r.parts[j])
    {
      assert Aligned(sv, t, t.contexts[j], t.parts[j]);
    }
  }

  /** Steps that leave the parts, the file and the records alone: every transfer is as before or closed. */
  lemma FrameKeeps(sv: Server, t: Task, r: Task)
    requires Inv(sv, t) && |r.contexts| == |t.contexts|
    requires r == t.(status := r.status, reason := r.reason, loop := r.loop, contexts := r.contexts)
    requires forall j :: 0 <= j < |t.contexts| ==> r.contexts[j] == t.contexts[j] || r.contexts[j].conn.Closed?
    requires t.loop.spawned <= r.loop.spawned <= |r.contexts| && VerdictSound(r)
    requires r.loop.left && !t.loop.left ==> forall j :: 0 <= j < |r.contexts| ==> r.contexts[j].conn.Closed?
    ensures Inv(sv, r)
  {
    forall j | 0 <= j < |t.contexts|
      ensures Aligned(sv, r, r.contexts[j], r.parts[j])
    {
      assert Aligned(sv, t, t.contexts[j], t.parts[j]);
    }
  }

  /** A verdict changes the size of a part only when it completes a part of unknown length. */
  predicate VerdictChange(p: Part, q: Part) {
    && q.start == p.start && q.end == p.end && q.done == p.done
    && (q.size == p.size || (p.size <= 0 && q.size == q.done && q.status == Completed))
    && (q.status == Completed ==> q.done >= q.size && (p.size <= 0 ==> q.size == q.done))
  }

  lemma VerdictKeepsContent(sv: Server, t: Task, i: nat, p: Part)
    requires WellFormed(t) && Content(sv, t) && !t.probing && i < |t.parts| && t.parts[i].status != Completed
    requires VerdictChange(t.parts[i], p)
    ensures var parts := t.parts[i := p];
            if Sized(t) then SizedContent(t.file, Resource(sv, t), t.total, parts)
            else UnsizedContent(t.file, Resource(sv, t), parts)
  {
    SameIntervals(t.parts, i, p);
    if Sized(t) {
      assert PartOnDisk(t.file, Resource(sv, t), t.parts[i]);
    }
  }

  /** A part whose transfer is closed may change its verdict; a task of unknown length may take over the length
      of its only part. */
  lemma VerdictKeeps(sv: Server, t: Task, i: nat, p: Part, total: int)
    requires Inv(sv, t) && i < |t.contexts| && t.contexts[i].conn.Closed? && t.parts[i].status != Completed
    requires VerdictChange(t.parts[i], p)
    requires total == t.total || (t.parts[i].size <= 0 && t.total <= 0 && total == p.done)
    ensures Inv(sv, WithPart(t, i, p).(total := total))
  {
    var r := WithPart(t, i, p).(total := total);
    if !t.probing {
      VerdictKeepsContent(sv, t, i, p);
      if Sized(t) {
        assert PartOnDisk(t.file, Resource(sv, t), t.parts[i]);
      }
    }
    assert forall j :: 0 <= j < |t.parts| && j != i ==> r.parts[j] == t.parts[j];
    VerdictAligned(sv, t, i, p, total);
  }

  lemma VerdictAligned(sv: Server, t: Task, i: nat, p: Part, total: int)
    requires Shape(t) && Connected(sv, t) && i < |t.contexts| && t.contexts[i].conn.Closed?
    requires t.probing ==> total <= 0 || total == t.total
    ensures Connected(sv, WithPart(t, i, p).(total := total))
  {
    var r := WithPart(t, i, p).(total := total);
    forall j | 0 <= j < |t.contexts|
      ensures Aligned(sv, r, r.contexts[j], r.parts[j])
    {
      assert Aligned(sv, t, t.contexts[j], t.parts[j]);
    }
  }

  lemma ClosedContextKeeps(sv: Server, t: Task, i: nat, c: PartContext)
    requires Inv(sv, t) && i < |t.contexts| && t.contexts[i].conn.Closed? && c.conn.Closed?
    ensures Inv(sv, WithContext(t, i, c))
  {
    var r := WithContext(t, i, c);
    forall j | 0 <= j < |t.contexts|
      ensures Aligned(sv, r, r.contexts[j], r.parts[j])
    {
      assert Aligned(sv, t, t.contexts[j], t.parts[j]);
    }
  }

  lemma FailKeeps(sv: Server, t: Task, i: nat, reason: Reason)
    requires Inv(sv, t) && i < |t.contexts| && t.contexts[i].conn.Closed? && t.parts[i].status != Completed
    ensures Inv(sv, FailPart(t, i, reason))
  {
    VerdictKeeps(sv, t, i, t.parts[i].(status := Failed, reason := reason), t.total);
  }

  lemma RetryOrFailKeeps(sv: Server, cfg: Config, t: Task, i: nat, reason: Reason, retryable: bool)
    requires Inv(sv, t) && i < |t.contexts| && t.contexts[i].conn.Closed? && t.parts[i].status != Completed
    ensures var r := RetryOrFail(cfg, t, i, reason, retryable);
            Inv(sv, r.task) && (r.again ==> r.task.parts == t.parts)
  {
    if retryable && t.contexts[i].retries < cfg.maxRetries {
      ClosedContextKeeps(sv, t, i, t.contexts[i].(retries := t.contexts[i].retries + 1));
    } else {
      FailKeeps(sv, t, i, reason);
    }
  }

  lemma PartResultKeeps(sv: Server, cfg: Config, t: Task, i: nat, rc: TransferResult, code: int)
    requires Inv(sv, t) && i < |t.contexts| && t.contexts[i].conn.Closed? && t.parts[i].status != Completed
    ensures var r := PartResult(cfg, t, i, rc, code);
            Inv(sv, r.task) && (r.again ==> r.task.parts == t.parts)
  {
    var p, c := t.parts[i], t.contexts[i];
    if p.status == Failed {
    } else if p.size > 0 && p.done >= p.size {
      VerdictKeeps(sv, t, i, p.(status := Completed, reason := NoReason), t.total);
    } else if c.probeWindow && rc == TransferOk && code == 206 && p.done > 0 {
      ClosedContextKeeps(sv, t, i, c.(probeWindow := false));
    } else if IsSuccess(rc, code) && p.size <= 0 {
      VerdictKeeps(sv, t, i, p.(status := Completed, reason := NoReason, size := p.done),
                   if t.total <= 0 then p.done else t.total);
    } else {
      RetryOrFailKeeps(sv, cfg, t, i, Network, true);
      var (reason, retryable) := ClassifyFailure(rc, code);
      RetryOrFailKeeps(sv, cfg, t, i, reason, retryable);
    }
  }

  lemma PartResultFrame(cfg: Config, t: Task, i: nat, rc: TransferResult, code: int)
    requires WellFormed(t) && i < |t.parts|
    ensures var r := PartResult(cfg, t, i, rc, code).task;
            r.contexts[i].conn == t.contexts[i].conn && r.loop == t.loop
  {
  }

  lemma AddPartKeeps(sv: Server, t: Task, i: nat, built: bool)
    requires Inv(sv, t) && i < t.loop.spawned && !t.loop.left
    requires t.contexts[i].conn.Closed? && t.parts[i].status != Completed
    ensures Inv(sv, AddPart(t, i, built))
  {
    if !built {
      FailKeeps(sv, t, i, GeneralError);
    } else {
      var r := AddPart(t, i, built);
      forall j | 0 <= j < |t.contexts|
        ensures Aligned(sv, r, r.contexts[j], r.parts[j])
      {
        assert Aligned(sv, t, t.contexts[j], t.parts[j]);
      }
    }
  }

  lemma ActiveKeeps(sv: Server, t: Task, active: int)
    requires Inv(sv, t)
    ensures Inv(sv, WithActive(t, active))
  {
    FrameKeeps(sv, t, WithActive(t, active));
  }

  /** The loop's answer to a verdict: ask again, or let the part go. */
  lemma AnswerKeeps(sv: Server, v: Verdict, i: nat, built: bool)
    requires Inv(sv, v.task) && i < v.task.loop.spawned && v.task.contexts[i].conn.Closed? && !v.task.loop.left
    requires v.again ==> v.task.parts[i].status != Completed
    ensures Inv(sv, Answer(v, i, built))
  {
    if v.again {
      AddPartKeeps(sv, v.task, i, built);
      ActiveKeeps(sv, AddPart(v.task, i, built), AddPart(v.task, i, built).loop.active - 1);
    } else {
      ActiveKeeps(sv, v.task, v.task.loop.active - 1);
    }
  }

  lemma FinishedForm(cfg: Config, t: Task, i: nat, rc: TransferResult, built: bool)
    requires WellFormed(t) && i < |t.parts| && t.contexts[i].conn.Open?
    ensures var t0, code := WithConnection(t, i, Closed), t.contexts[i].conn.code;
            OnFinished(cfg, t, i, rc, built)
            == if t.loop.cancelRequested || t.loop.pauseRequested then WithActive(t0, t0.loop.active - 1)
               else Answer(PartResult(cfg, t0, i, rc, code), i, built)
  {
  }

  lemma FinishedKeeps(sv: Server, cfg: Config, t: Task, i: nat, rc: TransferResult, built: bool)
    requires Inv(sv, t) && Legal(t, Finished(i, rc, built))
    ensures Inv(sv, OnFinished(cfg, t, i, rc, built))
  {
    CloseKeeps(sv, t, i);
    var t0, code := WithConnection(t, i, Closed), t.contexts[i].conn.code;
    if t.loop.cancelRequested || t.loop.pauseRequested {
      ActiveKeeps(sv, t0, t0.loop.active - 1);
    } else {
      PartResultKeeps(sv, cfg, t0, i, rc, code);
      PartResultFrame(cfg, t0, i, rc, code);
      AnswerKeeps(sv, PartResult(cfg, t0, i, rc, code), i, built);
    }
    FinishedForm(cfg, t, i, rc, built);
  }

  lemma SpawnedKeeps(sv: Server, t: Task)
    requires Inv(sv, t) && t.loop.spawned < |t.contexts|
    ensures var i, t0 := t.loop.spawned, WithSpawned(t, t.loop.spawned + 1);
            && Inv(sv, t0) && i < t0.loop.spawned && t0.contexts[i].conn.Closed? && t0.parts == t.parts
            && t0.loop.left == t.loop.left
  {
    FrameKeeps(sv, t, WithSpawned(t, t.loop.spawned + 1));
  }

  lemma SpawnForm(t: Task, built: bool)
    requires WellFormed(t) && t.loop.spawned < |t.contexts|
    ensures var i, t0 := t.loop.spawned, WithSpawned(t, t.loop.spawned + 1);
            SpawnNext(t, built) == if t.parts[i].status == Completed then t0 else Hang(t0, i, built)
  {
  }

  lemma SpawnKeeps(sv: Server, t: Task, built: bool)
    requires Inv(sv, t) && Legal(t, Spawn(built))
    ensures Inv(sv, SpawnNext(t, built))
  {
    var i, t0 := t.loop.spawned, WithSpawned(t, t.loop.spawned + 1);
    SpawnedKeeps(sv, t);
    if t.parts[i].status != Completed {
      SpawnAddKeeps(sv, t0, i, built);
    }
    SpawnForm(t, built);
  }

  lemma SpawnAddKeeps(sv: Server, t: Task, i: nat, built: bool)
    requires Inv(sv, t) && i < t.loop.spawned && !t.loop.left
    requires t.contexts[i].conn.Closed? && t.parts[i].status != Completed
    ensures Inv(sv, Hang(t, i, built))
  {
    AddPartKeeps(sv, t, i, built);
    var t1 := AddPart(t, i, built);
    ActiveKeeps(sv, t1, t1.loop.active + 1);
  }

  // ---------------------------------------------------------------- resume records

  /** What a restart must know to tell versions of the resource apart. */
  function Validators(t: Task): (string, string) { (t.etag, t.lastModified) }

  lemma {:induction false} DeserializeAt(items: seq<seq<int>>)
    requires forall i :: 0 <= i < |items| ==> |items[i]| >= 4
    ensures |Deserialize(items)| == |items|
    ensures forall i :: 0 <= i < |items| ==> Deserialize(items)[i] == RestorePart(items[i])
  {
    if items != [] {
      DeserializeAt(items[..|items| - 1]);
    }
  }

  /** What is stored comes back: the length, the validators, and the interval and progress of every part survive, and
      the size and the verdict of a part of known length are recomputed as they were. */
  lemma ResumeRoundTrip(t: Task)
    requires WellFormed(t) && !t.probing
    ensures var r := Restart(Report(t, true));
            && r.total == t.total && r.supportRange == t.supportRange && Validators(r) == Validators(t)
            && !r.probing && r.file == t.file && r.parts == Deserialize(Serialize(t).parts)
    ensures var back := Deserialize(Serialize(t).parts);
            && |back| == |t.parts|
            && forall i :: 0 <= i < |t.parts| ==>
                 var p, q := t.parts[i], back[i];
                 && q.index == p.index && q.start == p.start && q.end == p.end && q.done == p.done
                 && (p.size == p.end - p.start + 1 && p.size > 0 ==>
                       q.size == p.size && (q.status == Completed <==> p.done >= p.size))
  {
    DeserializeAt(Serialize(t).parts);
  }

  lemma ReportKeeps(sv: Server, t: Task, t1: Task, stored: bool)
    requires Inv(sv, t) && t1 == t.(loop := t1.loop) && t1.loop.spawned == t.loop.spawned && t1.loop.left == t.loop.left
    requires !t.probing || t.status == Completed
    ensures Inv(sv, Report(t1, stored))
  {
    var r := Report(t1, stored);
    if !t.probing && Sized(t) {
      assert forall i :: 0 <= i < |t.parts| ==> PartOnDisk(t.file, Resource(sv, t), t.parts[i]);
    }
    forall j | 0 <= j < |t.contexts|
      ensures Aligned(sv, r, r.contexts[j], r.parts[j])
    {
      assert Aligned(sv, t, t.contexts[j], t.parts[j]);
    }
  }

  lemma RestartKeeps(sv: Server, t: Task)
    requires Inv(sv, t)
    ensures Inv(sv, Restart(t))
  {
    if Resumable(t.saved) {
      var s, r := t.saved.value, Restart(t);
      DeserializeAt(s.parts);
      var resource := Resource(sv, t);
      if Sized(t) {
        assert Intervals(r.parts) == Intervals(t.parts);
        forall i | 0 <= i < |r.parts|
          ensures PartOnDisk(r.file, resource, r.parts[i])
        {
          assert PartOnDisk(t.file, resource, t.parts[i]);
        }
      }
    }
  }

  // ---------------------------------------------------------------- control

  lemma RequestKeeps(sv: Server, t: Task, pause: bool, cancel: bool)
    requires Inv(sv, t)
    ensures Inv(sv, t.(loop := t.loop.(pauseRequested := pause, cancelRequested := cancel)))
  {
    FrameKeeps(sv, t, t.(loop := t.loop.(pauseRequested := pause, cancelRequested := cancel)));
  }

  lemma LeaveKeeps(sv: Server, t: Task)
    requires Inv(sv, t)
    ensures Inv(sv, Left(t))
  {
    FrameKeeps(sv, t, Left(t));
  }

  lemma StatusKeeps(sv: Server, t: Task, status: Status, reason: Reason)
    requires Inv(sv, t) && VerdictSound(t.(status := status))
    ensures Inv(sv, t.(status := status, reason := reason))
  {
    FrameKeeps(sv, t, t.(status := status, reason := reason));
  }

  lemma SettleKeeps(sv: Server, t: Task)
    requires Inv(sv, t) && t.loop.left
    ensures Inv(sv, Settled(t))
  {
    assert forall i :: 0 <= i < |t.parts| ==> t.parts[i] in t.parts;
    StatusKeeps(sv, t, Aggregate(t).status, Aggregate(t).reason);
  }

  // ---------------------------------------------------------------- runs

  lemma StepKeeps(sv: Server, cfg: Config, t: Task, e: Event)
    requires ValidConfig(cfg) && Inv(sv, t) && Legal(t, e) && Honest(sv, t, e)
    ensures Inv(sv, Step(cfg, t, e))
  {
    match e
    case Header(i, line) => HeaderKeeps(sv, t, i, line);
    case Body(i, data, disk) => BodyKeeps(sv, cfg, t, i, data, disk);
    case Finished(i, rc, built) => FinishedKeeps(sv, cfg, t, i, rc, built);
    case Spawn(built) => SpawnKeeps(sv, t, built);
    case Throttled(stored) =>
      var done := SumDone(t.parts);
      if t.supportRange && done > t.loop.lastEmit {
        ReportKeeps(sv, t, t.(loop := t.loop.(lastEmit := done, reports := t.loop.reports + [done])), stored);
      }
    case FinalReport(stored) => ReportKeeps(sv, t, t, stored);
    case Crash => RestartKeeps(sv, t);
    case RequestPause => RequestKeeps(sv, t, true, t.loop.cancelRequested);
    case RequestCancel => RequestKeeps(sv, t, t.loop.pauseRequested, true);
    case LeaveLoop => LeaveKeeps(sv, t);
    case Settle => SettleKeeps(sv, t);
    case MarkPaused => StatusKeeps(sv, t, Paused, t.reason);
  }

  /** Any number of downloads cut off and resumed, any interleaving of their steps. */
  lemma {:induction false} RunKeeps(sv: Server, cfg: Config, t: Task, run: seq<Event>)
    requires ValidConfig(cfg) && Inv(sv, t) && LegalRun(cfg, t, run) && HonestRun(sv, cfg, t, run)
    ensures Inv(sv, Replay(cfg, t, run))
    decreases |run|
  {
    if run != [] {
      StepKeeps(sv, cfg, t, run[0]);
      RunKeeps(sv, cfg, Step(cfg, t, run[0]), run[1..]);
    }
  }

  // ---------------------------------------------------------------- what a user learns

  /** All parts complete: every byte of the file is a byte of the resource. */
  lemma {:induction false} CompletedPartsGiveFile(file: Bytes, resource: Bytes, total: int, parts: seq<Part>)
    requires SizedContent(file, resource, total, parts)
    requires forall i :: 0 <= i < |parts| ==> parts[i].status == Completed
    ensures file <= resource
  {
    var plan := Intervals(parts);
    forall k | 0 <= k < |file|
      ensures k < |resource| && file[k] == resource[k]
    {
      PartitionIsExact(plan, total, k);
      var i :| 0 <= i < |plan| && plan[i].Contains(k);
      assert PartOnDisk(file, resource, parts[i]);
    }
    assert |file| > 0 ==> |file| - 1 < |resource|;
  }

  /** What a Completed verdict says about the file, whatever lengths the headers announced: it is an initial part of
      the resource, as long as the task believes the resource to be; and it is nothing when no body byte ever came. */
  ghost predicate CompletedMeans(sv: Server, t: Task)
    requires WellFormed(t)
  {
    t.status == Completed ==>
      && (!t.probing ==> t.file <= Resource(sv, t))
      && (Sized(t) ==> !t.probing && |t.file| == t.total)
      && (t.probing ==> t.file == [])
  }

  lemma InvGivesFile(sv: Server, t: Task)
    requires Inv(sv, t)
    ensures CompletedMeans(sv, t)
  {
    if t.status == Completed && Sized(t) {
      CompletedPartsGiveFile(t.file, Resource(sv, t), t.total, t.parts);
    }
  }

  /** The law of the engine: whatever the network, the disk and any number of crashes did. */
  lemma CompletedFileIsPrefix(sv: Server, cfg: Config, run: seq<Event>)
    requires ValidConfig(cfg) && LegalRun(cfg, NEW_TASK, run) && HonestRun(sv, cfg, NEW_TASK, run)
    ensures CompletedMeans(sv, Replay(cfg, NEW_TASK, run))
  {
    RunKeeps(sv, cfg, NEW_TASK, run);
    InvGivesFile(sv, Replay(cfg, NEW_TASK, run));
  }

  lemma PartBytesAreRight(sv: Server, t: Task, i: nat, k: int)
    requires Inv(sv, t) && i < |t.parts| && t.parts[i].start <= k < t.parts[i].start + t.parts[i].done
    ensures 0 <= k < |t.file| && k < |Resource(sv, t)| && t.file[k] == Resource(sv, t)[k]
  {
    var p, resource := t.parts[i], Resource(sv, t);
    if Sized(t) {
      assert PartOnDisk(t.file, resource, p);
    } else {
      assert UnsizedContent(t.file, resource, t.parts);
    }
  }

  /** At every moment, also right after a crash, each byte a part claims is on disk and right. */
  lemma ClaimedBytesAreRight(sv: Server, cfg: Config, run: seq<Event>, i: nat, k: int)
    requires ValidConfig(cfg) && LegalRun(cfg, NEW_TASK, run) && HonestRun(sv, cfg, NEW_TASK, run)
    requires var t := Replay(cfg, NEW_TASK, run);
             i < |t.parts| && t.parts[i].start <= k < t.parts[i].start + t.parts[i].done
    ensures var t := Replay(cfg, NEW_TASK, run);
            0 <= k < |t.file| && k < |Resource(sv, t)| && t.file[k] == Resource(sv, t)[k]
  {
    RunKeeps(sv, cfg, NEW_TASK, run);
    PartBytesAreRight(sv, Replay(cfg, NEW_TASK, run), i, k);
  }

  /** The record a restart would use describes the same parts of the same version of the resource, and never claims
      more of a part than the disk holds. */
  lemma RecordNeverAhead(sv: Server, t: Task, i: nat)
    requires Inv(sv, t) && Resumable(t.saved) && i < |t.parts|
    ensures var back := Restart(t);
            && |back.parts| == |t.parts| && back.file == t.file && Resource(sv, back) == Resource(sv, t)
            && back.parts[i].start == t.parts[i].start && back.parts[i].end == t.parts[i].end
            && 0 <= back.parts[i].done <= t.parts[i].done
  {
    DeserializeAt(t.saved.value.parts);
  }

  /** Writing for one part leaves every byte outside that part alone. */
  lemma WritesStayInPart(t: Task, i: nat, data: Bytes, outcome: WriteOutcome, resource: Bytes, k: int)
    requires WellFormed(t) && i < |t.parts| && PartOnDisk(t.file, resource, t.parts[i])
    requires 0 <= k < |t.file| && !t.parts[i].Interval().Contains(k)
    ensures var r := WriteIntoPart(t, i, data, outcome).task;
            |r.file| == |t.file| && r.file[k] == t.file[k]
  {
    var p := t.parts[i];
    if p.done < p.size && !outcome.FileMissing? {
      WriteForm(t, i, data, outcome);
      var len := if outcome.FailsAfter? then Min(outcome.count, Needed(p, |data|)) else Needed(p, |data|);
      WriteLeaves(t.file, p.start + p.done, data[..len], k);
    }
  }

  lemma WriteLeaves(file: Bytes, off: nat, data: Bytes, k: int)
    requires off + |data| <= |file| && 0 <= k < |file| && !(off <= k < off + |data|)
    ensures |WriteAt(file, off, data)| == |file| && WriteAt(file, off, data)[k] == file[k]
  {
    WriteAtBytes(file, off, data);
  }

  /** A full-stream answer that was let through is written from byte 0 on, into the only part. */
  lemma FullStreamStartsAtZero(sv: Server, cfg: Config, run: seq<Event>, i: nat)
    requires ValidConfig(cfg) && LegalRun(cfg, NEW_TASK, run) && HonestRun(sv, cfg, NEW_TASK, run)
    requires var t := Replay(cfg, NEW_TASK, run);
             i < |t.contexts| && t.contexts[i].conn.Open? && !t.contexts[i].conn.aborted
             && t.contexts[i].conn.code == 200
    ensures var t := Replay(cfg, NEW_TASK, run);
            t.contexts[i].conn.from == 0 && t.parts[i].start + t.parts[i].done == t.contexts[i].conn.received
  {
    RunKeeps(sv, cfg, NEW_TASK, run);
    var t := Replay(cfg, NEW_TASK, run);
    assert Aligned(sv, t, t.contexts[i], t.parts[i]);
  }

  /** A server that sends too much does no harm: the surplus is dropped, the transfer is cut, and its end, reported as
      a failure, still completes the part. */
  lemma OverlongBodyCompletes(cfg: Config, t: Task, i: nat, data: Bytes, disk: Disk, built: bool)
    requires WellFormed(t) && !t.probing && Legal(t, Body(i, data, disk)) && disk.write == Written
    requires t.status != Failed && !t.loop.pauseRequested && !t.loop.cancelRequested
    requires var p := t.parts[i];
             p.start >= 0 && p.status == Downloading && 0 <= p.done < p.size && |data| > p.size - p.done
    ensures var cut := OnBody(cfg, t, i, data, disk);
            && cut.contexts[i].conn.Open? && cut.contexts[i].conn.aborted
            && cut.parts[i].done == cut.parts[i].size == t.parts[i].size
            && OnFinished(cfg, cut, i, CallbackRefused, built).parts[i].status == Completed
  {
    var e := WriteIntoPart(t, i, data, Written);
    assert e.taken < |data| && e.task.parts[i].done == e.task.parts[i].size;
    var cut := Delivered(e, i, |data|);
    var t0 := WithConnection(cut, i, Closed);
    assert !PartResult(cfg, t0, i, CallbackRefused, cut.contexts[i].conn.code).again;
  }

  /** A new request asks for exactly the bytes its part still lacks. */
  lemma RequestAsksForTheRest(t: Task, i: nat, resource: Bytes, b: int)
    requires WellFormed(t) && !t.probing && SizedContent(t.file, resource, t.total, t.parts) && i < |t.parts|
    requires t.parts[i].done < t.parts[i].size
    ensures RequestRange(t, i).Contains(b)
            <==> t.parts[i].Interval().Contains(b) && !(t.parts[i].start <= b < t.parts[i].start + t.parts[i].done)
  {
    assert PartOnDisk(t.file, resource, t.parts[i]);
  }

  /** The transfer ended the way a part can be asked for again after: it stopped short, or it failed in a way that
      may pass. */
  predicate MayPass(p: Part, rc: TransferResult, code: int) {
    || rc == Transient
    || (IsSuccess(rc, code) && p.size > 0)
    || (rc in {TransferOk, HttpError} && (code in {408, 429} || 500 <= code < 600))
  }

  /** When the end of a transfer makes its part complete, when the part is asked for again, and that it fails in all
      other cases; asking again costs a retry, except for the continuation of a probe. */
  lemma VerdictExactly(cfg: Config, t: Task, i: nat, rc: TransferResult, code: int)
    requires WellFormed(t) && i < |t.parts| && t.parts[i].status == Downloading
    ensures var p, c := t.parts[i], t.contexts[i];
            var full := p.size > 0 && p.done >= p.size;
            var continues := c.probeWindow && rc == TransferOk && code == 206 && p.done > 0;
            var v := PartResult(cfg, t, i, rc, code);
            && (v.task.parts[i].status == Completed <==> full || (!continues && IsSuccess(rc, code) && p.size <= 0))
            && (v.again <==> !full && (continues || (MayPass(p, rc, code) && c.retries < cfg.maxRetries)))
            && (v.task.parts[i].status == Failed <==> !v.again && v.task.parts[i].status != Completed)
            && (v.again ==> v.task.contexts[i].retries == c.retries + (if continues then 0 else 1))
  {
  }

  // ---------------------------------------------------------------- throttled reports

  predicate Ascending(s: seq<int>) {
    forall i :: 0 <= i < |s| - 1 ==> s[i] < s[i + 1]
  }

  /** The totals reported in one process life grow strictly, and none is beyond the last one noted. */
  predicate ReportsGrow(t: Task) {
    Ascending(t.loop.reports) && (t.loop.reports != [] ==> t.loop.reports[|t.loop.reports| - 1] <= t.loop.lastEmit)
  }

  predicate SameReports(t: Task, r: Task) {
    r.loop.reports == t.loop.reports && r.loop.lastEmit == t.loop.lastEmit
  }

  lemma ReportsUntouched(cfg: Config, t: Task, e: Event)
    requires WellFormed(t) && Legal(t, e) && !e.Throttled? && !e.Crash?
    ensures SameReports(t, Step(cfg, t, e))
  {
  }

  lemma ReportsGrowByStep(cfg: Config, t: Task, e: Event)
    requires WellFormed(t) && Legal(t, e) && ReportsGrow(t)
    ensures ReportsGrow(Step(cfg, t, e))
  {
    if !e.Throttled? && !e.Crash? {
      ReportsUntouched(cfg, t, e);
    }
  }

  lemma {:induction false} ReportsGrowInEveryRun(cfg: Config, t: Task, run: seq<Event>)
    requires WellFormed(t) && LegalRun(cfg, t, run) && ReportsGrow(t)
    ensures ReportsGrow(Replay(cfg, t, run))
    decreases |run|
  {
    if run != [] {
      ReportsGrowByStep(cfg, t, run[0]);
      ReportsGrowInEveryRun(cfg, Step(cfg, t, run[0]), run[1..]);
    }
  }
}
