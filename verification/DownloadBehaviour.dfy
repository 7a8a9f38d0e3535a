/**
  What single steps of a download do, said of the fields themselves: which request goes out, which header line is a
  contradiction, what a body callback takes, which reason a failure gets, what is reported, and what the verdict is.
*/
module DownloadBehaviour {
  import opened Wrappers
  import opened SplitPlan
  import opened DownloadModel
  import opened DownloadTheorems
  import opened DownloadBudget

  // ---------------------------------------------------------------- requests

  /** The part whose transfer a step may open. */
  function Opener(t: Task, e: Event): nat
    requires e.Finished? || e.Spawn?
  {
    if e.Finished? then e.i else t.loop.spawned
  }

  /** A request of a task that is not probing asks for the rest of the part and insists on what the task knows: its
      entity tag, else its date, else nothing. */
  predicate InsistsOnVersion(t: Task, conn: Connection)
    requires conn.Open?
  {
    && (t.etag != "" ==> conn.asked == IfTag(t.etag))
    && (t.etag == "" && t.lastModified != "" ==> conn.asked == IfDate(t.lastModified))
    && (t.etag == "" && t.lastModified == "" ==> conn.asked == NoCondition)
  }

  predicate AsksForRest(p: Part, conn: Connection)
    requires conn.Open?
  {
    && conn.from == p.start + p.done
    && conn.upto == if p.end >= p.start + p.done then p.end else -1
  }

  /** Nothing has been heard on the connection, and nothing is remembered from the one before. */
  predicate Unheard(c: PartContext)
    requires c.conn.Open?
  {
    && c.seenTotal == 0 && c.seenCode == 0
    && c.conn.code == 0 && c.conn.tag == "" && c.conn.date == "" && c.conn.received == 0 && !c.conn.aborted
  }

  /** Connections are opened when a transfer ends or a part is hung, and by no other step; the request is the first
      mebibyte without condition while probing, and else the rest of the part, if it is still the version known. */
  lemma RequestExactly(cfg: Config, t: Task, e: Event)
    requires WellFormed(t) && Legal(t, e) && !e.Crash?
    ensures var r := Step(cfg, t, e);
            && (r.loop.connections != t.loop.connections ==> e.Finished? || e.Spawn?)
            && (r.loop.connections != t.loop.connections ==>
                  var i := Opener(t, e);
                  && r.loop.connections == t.loop.connections + 1
                  && i < |r.contexts| && i < |t.parts| && r.contexts[i].conn.Open? && Unheard(r.contexts[i])
                  && r.contexts[i].probeWindow == t.probing
                  && (t.probing ==> r.contexts[i].conn.from == 0 && r.contexts[i].conn.upto == 1048575
                                    && r.contexts[i].conn.asked == NoCondition)
                  && (!t.probing ==> AsksForRest(t.parts[i], r.contexts[i].conn)
                                     && InsistsOnVersion(t, r.contexts[i].conn)))
  {
    match e
    case Finished(i, rc, built) => FinishedRequest(cfg, t, i, rc, built);
    case Spawn(built) => SpawnForm(t, built);
    case Header(i, line) => HeaderFrame(t, i, line);
    case Body(i, data, disk) =>
    case _ =>
  }

  /** A request is made for every part that is to be asked for again, and for every part that is hung and not complete;
      if it cannot be built, no connection is opened and the part fails. */
  lemma RequestMade(cfg: Config, t: Task, e: Event)
    requires WellFormed(t) && Legal(t, e) && (e.Finished? || e.Spawn?)
    requires e.Spawn? ==> t.parts[t.loop.spawned].status != Completed
    requires e.Finished? ==>
               && !t.loop.cancelRequested && !t.loop.pauseRequested
               && PartResult(cfg, WithConnection(t, e.i, Closed), e.i, e.rc, t.contexts[e.i].conn.code).again
    ensures var r, i := Step(cfg, t, e), Opener(t, e);
            && i < |t.parts| == |r.parts|
            && (e.built ==> r.loop.connections == t.loop.connections + 1 && r.parts == t.parts)
            && (!e.built ==> r.loop.connections == t.loop.connections
                             && r.parts == t.parts[i := t.parts[i].(status := Failed, reason := GeneralError)])
  {
    match e
    case Finished(i, rc, built) =>
      FinishedForm(cfg, t, i, rc, built);
      AgainKeeps(cfg, WithConnection(t, i, Closed), i, rc, t.contexts[i].conn.code);
    case Spawn(built) => SpawnForm(t, built);
  }

  lemma FinishedRequest(cfg: Config, t: Task, i: nat, rc: TransferResult, built: bool)
    requires WellFormed(t) && Legal(t, Finished(i, rc, built))
    ensures var r := OnFinished(cfg, t, i, rc, built);
            r.loop.connections != t.loop.connections ==>
              && r.loop.connections == t.loop.connections + 1
              && |r.contexts| == |t.contexts| && r.contexts[i].conn.Open? && Unheard(r.contexts[i])
              && r.contexts[i].probeWindow == t.probing
              && (t.probing ==> r.contexts[i].conn.from == 0 && r.contexts[i].conn.upto == 1048575
                                && r.contexts[i].conn.asked == NoCondition)
              && (!t.probing ==> AsksForRest(t.parts[i], r.contexts[i].conn)
                                 && InsistsOnVersion(t, r.contexts[i].conn))
  {
    FinishedForm(cfg, t, i, rc, built);
    var t0, code := WithConnection(t, i, Closed), t.contexts[i].conn.code;
    var v := PartResult(cfg, t0, i, rc, code);
    AgainKeeps(cfg, t0, i, rc, code);
  }

  /** A part that is asked for again is as it was, and so is what the task knows. */
  lemma AgainKeeps(cfg: Config, t: Task, i: nat, rc: TransferResult, code: int)
    requires WellFormed(t) && i < |t.parts|
    ensures var v := PartResult(cfg, t, i, rc, code);
            v.task.loop == t.loop
            && (v.again ==> v.task.parts == t.parts && v.task.probing == t.probing && v.task.etag == t.etag
                            && v.task.lastModified == t.lastModified)
  {
  }

  // ---------------------------------------------------------------- headers

  /** The line cannot belong to the file the task is downloading. */
  predicate Contradicts(t: Task, i: nat, line: HeaderLine)
    requires i < |t.parts|
  {
    match line
    case StatusLine(code, _) => code == 200 && (|t.parts| > 1 || t.parts[i].done != 0)
    case ContentRange(total) => total > 0 && t.total > 0 && total != t.total
    case ETag(v) => t.etag != "" && v != t.etag
    case LastModified(v) => t.lastModified != "" && v != t.lastModified
    case _ => false
  }

  predicate Fatal(t: Task) {
    t.status == Failed && t.reason == GeneralError
  }

  /** For every line of a live transfer, before and after probing: a contradiction fails part and task for good and cuts
      the transfer; any other line leaves all verdicts as they are and lets the transfer go on, and the first total,
      tag and date are learned. */
  lemma HeaderExactly(t: Task, i: nat, line: HeaderLine)
    requires WellFormed(t) && Legal(t, Header(i, line)) && t.status != Failed && !t.loop.cancelRequested
    ensures var r := OnHeader(t, i, line);
            && (Fatal(r) <==> Contradicts(t, i, line))
            && (r.contexts[i].conn.Open? && (r.contexts[i].conn.aborted <==> Contradicts(t, i, line)))
            && r.parts == (if Contradicts(t, i, line)
                           then t.parts[i := t.parts[i].(status := Failed, reason := GeneralError)] else t.parts)
            && (!Contradicts(t, i, line) ==> r.status == t.status && r.reason == t.reason)
            && r.total == (if line.ContentRange? && line.total > 0 && t.total <= 0 then line.total else t.total)
            && r.etag == (if line.ETag? && t.etag == "" then line.value else t.etag)
            && r.lastModified == (if line.LastModified? && t.lastModified == "" then line.value else t.lastModified)
            && r.file == t.file && r.probing == t.probing && r.supportRange == t.supportRange && r.saved == t.saved
  {
    LineExactly(WithConnection(t, i, Observe(t.contexts[i].conn, line)), i, line);
  }

  /** The same of the callback alone. */
  lemma LineExactly(t: Task, i: nat, line: HeaderLine)
    requires WellFormed(t) && i < |t.parts| && t.contexts[i].conn.Open? && t.status != Failed && !t.loop.cancelRequested
    ensures var h := HeaderLineResult(t, i, line);
            var r := h.task;
            && (h.goOn <==> !Contradicts(t, i, line))
            && r.parts == (if Contradicts(t, i, line)
                           then t.parts[i := t.parts[i].(status := Failed, reason := GeneralError)] else t.parts)
            && (if Contradicts(t, i, line) then Fatal(r) else r.status == t.status && r.reason == t.reason)
            && r.total == (if line.ContentRange? && line.total > 0 && t.total <= 0 then line.total else t.total)
            && r.etag == (if line.ETag? && t.etag == "" then line.value else t.etag)
            && r.lastModified == (if line.LastModified? && t.lastModified == "" then line.value else t.lastModified)
            && r.file == t.file && r.probing == t.probing && r.supportRange == t.supportRange && r.saved == t.saved
  {
    assert t.parts[i := t.parts[i]] == t.parts;
  }

  /** A task that has failed or is being cancelled takes no line: the transfer is cut and nothing else changes. */
  lemma HeaderRefused(t: Task, i: nat, line: HeaderLine)
    requires WellFormed(t) && Legal(t, Header(i, line)) && (t.status == Failed || t.loop.cancelRequested)
    ensures var r := OnHeader(t, i, line);
            r == t.(contexts := r.contexts) && r.contexts[i].conn.Open? && r.contexts[i].conn.aborted
  {
  }

  // ---------------------------------------------------------------- bodies

  /** A body callback takes nothing and changes nothing while the task has failed, is cancelled or is paused, or when
      its part is full. */
  predicate TakesNothing(t: Task, i: nat)
    requires i < |t.parts|
  {
    || t.status == Failed || t.loop.cancelRequested || t.loop.pauseRequested
    || (t.parts[i].size > 0 && t.parts[i].done >= t.parts[i].size)
  }

  /** A full or stopped part refuses the data, and the transfer is cut. */
  lemma BodyRefused(cfg: Config, t: Task, i: nat, data: Bytes, disk: Disk)
    requires WellFormed(t) && Legal(t, Body(i, data, disk)) && TakesNothing(t, i)
    requires t.probing ==> t.parts[i].size <= 0
    ensures var r := OnBody(cfg, t, i, data, disk);
            r == t.(contexts := r.contexts) && r.contexts[i].conn.Open? && r.contexts[i].conn.aborted
  {
  }

  /** Any other data is written at the part's place as far as the part needs it. What could be written counts as done;
      a missing file or a failed write counts nothing and fails the part. The transfer goes on only if all was taken. */
  lemma BodyExactly(cfg: Config, t: Task, i: nat, data: Bytes, disk: Disk)
    requires WellFormed(t) && Legal(t, Body(i, data, disk)) && !t.probing && !TakesNothing(t, i)
    requires 0 <= t.parts[i].start && 0 <= t.parts[i].done
    ensures var p, r := t.parts[i], OnBody(cfg, t, i, data, disk);
            var len := if p.size > 0 && |data| > p.size - p.done then p.size - p.done else |data|;
            var failed := p.(status := Failed, reason := GeneralError);
            var conn := r.contexts[i].conn;
            && conn.Open? && conn.received == t.contexts[i].conn.received + |data|
            && (conn.aborted <==> disk.write != Written || len < |data|)
            && r.parts == t.parts[i := if disk.write == Written then p.(done := p.done + len) else failed]
            && r.file == (match disk.write
                          case Written => WriteAt(t.file, p.start + p.done, data[..len])
                          case FileMissing => t.file
                          case FailsAfter(count) =>
                            WriteAt(t.file, p.start + p.done, data[..if count < len then count else len]))
            && r == t.(contexts := r.contexts, parts := r.parts, file := r.file)
  {
    assert WriteResult(cfg, t, i, data, disk) == WriteIntoPart(t, i, data, disk.write);
  }

  /** The first body byte when the file cannot be created: the task fails for good, and no part is made. */
  lemma NoFileIsFatal(cfg: Config, t: Task, data: Bytes, disk: Disk)
    requires WellFormed(t) && |t.parts| == 1 && Legal(t, Body(0, data, disk)) && t.probing && !disk.creates
    requires t.status != Failed && !t.loop.cancelRequested && !t.loop.pauseRequested
    ensures var r := OnBody(cfg, t, 0, data, disk);
            && Fatal(r) && !r.probing && r.parts == t.parts && r.file == t.file
            && r.contexts[0].conn.Open? && r.contexts[0].conn.aborted
  {
    var t1 := FinalizeProbing(cfg, t, 0, false);
    assert t1.status == Failed;
    assert WriteResult(cfg, t, 0, data, disk) == WriteEffect(t1, 0);
  }

  /** The first body byte when it can: a 206 makes the download resumable, gives part 0 its retries back and cuts the
      file as planned; any other answer leaves one part, not resumable, with the retries it had. */
  lemma SplitExactly(cfg: Config, t: Task)
    requires WellFormed(t) && |t.parts| == 1 && t.probing && t.parts[0].done == 0
    ensures var r, ranged := FinalizeProbing(cfg, t, 0, true), t.contexts[0].seenCode == 206;
            && !r.probing && r.status == t.status && (r.supportRange <==> ranged)
            && r.contexts[0].retries == (if ranged then 0 else t.contexts[0].retries)
            && r.contexts[0].probeWindow == t.contexts[0].probeWindow
            && |r.parts| == (if ranged then PlannedParts(cfg, r.total) else 1)
            && (forall i :: 0 <= i < |r.parts| ==> r.parts[i].done == 0)
            && (ranged ==> forall i :: 0 <= i < |r.parts| ==>
                  && r.parts[i].index == i && r.parts[i].Interval() == Plan(cfg, r.total)[i]
                  && r.parts[i].status == Downloading)
            && (forall i :: 1 <= i < |r.contexts| ==>
                  r.contexts[i].retries == 0 && r.contexts[i].conn.Closed? && !r.contexts[i].probeWindow)
  {
    var created := CreateFile(t, 0);
    if t.contexts[0].seenCode == 206 {
      assert CutParts(cfg, created).parts == PlannedPartsOf(cfg, created.total);
    }
  }

  // ---------------------------------------------------------------- ends of transfers

  /** While the task is being stopped, the end of a transfer is not judged: it is taken down, and that is all. */
  lemma StoppedIsNotJudged(cfg: Config, t: Task, i: nat, rc: TransferResult, built: bool)
    requires WellFormed(t) && Legal(t, Finished(i, rc, built)) && (t.loop.cancelRequested || t.loop.pauseRequested)
    ensures var r := OnFinished(cfg, t, i, rc, built);
            && r == t.(contexts := r.contexts, loop := t.loop.(active := t.loop.active - 1))
            && r.contexts == t.contexts[i := t.contexts[i].(conn := Closed)]
  {
  }

  /** A response with this code is a refusal that trying again may cure. */
  predicate MayRecover(code: int) {
    500 <= code <= 599 || code == 408 || code == 429
  }

  /** Why a transfer failed its part: an incomplete success, a passing network error and a busy server are network
      failures; a missing or wrong credential is one of authorisation; everything else is an error. */
  function FailureReason(rc: TransferResult, code: int): Reason {
    if rc == Transient || (rc == TransferOk && 200 <= code < 300) then Network
    else if rc == CallbackRefused || rc == OtherFailure then GeneralError
    else if MayRecover(code) then Network
    else if code == 401 || code == 403 then Auth
    else GeneralError
  }

  /** What a part that was downloading is left with; a completed part of unknown length gets the length received, and so
      does a task that knows none. */
  lemma ReasonExactly(cfg: Config, t: Task, i: nat, rc: TransferResult, code: int)
    requires WellFormed(t) && i < |t.parts| && t.parts[i].status == Downloading
    ensures var p, v := t.parts[i], PartResult(cfg, t, i, rc, code);
            var q := v.task.parts[i];
            && (q.status == Failed ==> q.reason == FailureReason(rc, code) && q.size == p.size)
            && (q.status == Completed ==> q.reason == NoReason && q.size == if p.size > 0 then p.size else p.done)
            && q.start == p.start && q.end == p.end && q.done == p.done && q.index == p.index
            && v.task.total == (if q.status == Completed && p.size <= 0 && t.total <= 0 then p.done else t.total)
            && v.task == t.(parts := v.task.parts, contexts := v.task.contexts, total := v.task.total)
            && (forall j :: 0 <= j < |t.parts| && j != i ==> v.task.parts[j] == t.parts[j])
  {
    assert t.parts[i := t.parts[i]] == t.parts;
  }

  /** What other threads and the end of the loop change: a request sets its flag, leaving the loop closes every transfer
      and nothing else, and a pause shows as such whatever the verdict was. */
  lemma ControlExactly(cfg: Config, t: Task)
    requires WellFormed(t)
    ensures Step(cfg, t, RequestPause) == t.(loop := t.loop.(pauseRequested := true))
    ensures Step(cfg, t, RequestCancel) == t.(loop := t.loop.(cancelRequested := true))
    ensures !t.loop.left ==>
              var r := Step(cfg, t, LeaveLoop);
              && r == t.(contexts := r.contexts, loop := t.loop.(active := 0, left := true))
              && |r.contexts| == |t.contexts|
              && forall i :: 0 <= i < |t.contexts| ==> r.contexts[i] == t.contexts[i].(conn := Closed)
    ensures Legal(t, MarkPaused) ==> Step(cfg, t, MarkPaused) == t.(status := Paused)
    ensures t.status == Completed ==>
              var r := Step(cfg, t, FinalReport(true));
              r == t.(saved := r.saved) && r.saved.Some? && Describes(r.saved.value, t)
  {
  }

  // ---------------------------------------------------------------- reports

  /** A report is due when the download can be resumed and more is done than was reported. It is counted even when the
      store refuses it; what is stored is the task as it stands, part by part. */
  lemma ReportExactly(t: Task, stored: bool)
    requires WellFormed(t)
    ensures var r, due := MaybeReport(t, stored), t.supportRange && SumDone(t.parts) > t.loop.lastEmit;
            && r == t.(saved := r.saved, loop := t.loop.(lastEmit := r.loop.lastEmit, reports := r.loop.reports))
            && r.loop.lastEmit == (if due then SumDone(t.parts) else t.loop.lastEmit)
            && r.loop.reports == (if due then t.loop.reports + [SumDone(t.parts)] else t.loop.reports)
            && (!(due && stored) ==> r.saved == t.saved)
            && (due && stored ==> r.saved.Some? && Describes(r.saved.value, t))
  {
  }

  /** The record says of the task what a restart needs. */
  predicate Describes(s: Snapshot, t: Task) {
    && s.total == t.total && s.supportRange == t.supportRange && s.etag == t.etag
    && s.lastModified == t.lastModified && s.hasPath == !t.probing && |s.parts| == |t.parts|
    && forall i :: 0 <= i < |t.parts| ==>
         s.parts[i] == [t.parts[i].index, t.parts[i].start, t.parts[i].end, t.parts[i].done]
  }

  /** A record item that is too short is passed over, wherever it stands; the others come back in order. */
  lemma {:induction false} ShortItemsSkipped(before: seq<seq<int>>, short: seq<int>, after: seq<seq<int>>)
    requires |short| < 4
    ensures Deserialize(before + [short] + after) == Deserialize(before + after)
    decreases |after|
  {
    var all := before + [short] + after;
    if after == [] {
      assert all[..|all| - 1] == before && before + after == before;
      assert all == before + [short];
    } else {
      var front := after[..|after| - 1];
      assert all[..|all| - 1] == before + [short] + front;
      assert (before + after)[..|before + after| - 1] == before + front;
      ShortItemsSkipped(before, short, front);
    }
  }

  predicate SomeItem(items: seq<seq<int>>) {
    exists k :: 0 <= k < |items| && |items[k]| >= 4
  }

  lemma {:induction false} SomeItemComesBack(items: seq<seq<int>>)
    ensures Deserialize(items) != [] <==> SomeItem(items)
  {
    if items != [] {
      var n := |items| - 1;
      SomeItemComesBack(items[..n]);
      if SomeItem(items[..n]) {
        var k :| 0 <= k < n && |items[..n][k]| >= 4;
        assert |items[k]| >= 4;
      }
      if SomeItem(items) {
        var k :| 0 <= k < |items| && |items[k]| >= 4;
        assert k < n ==> |items[..n][k]| >= 4;
      }
    }
  }

  /** A restart goes on from a record exactly when that names a file and has a part; without one it begins anew, and
      nothing of the old task is left. */
  lemma RestartExactly(t: Task)
    ensures Resumable(t.saved) <==> t.saved.Some? && t.saved.value.hasPath && SomeItem(t.saved.value.parts)
    ensures !Resumable(t.saved) ==> Restart(t) == NEW_TASK
    ensures Resumable(t.saved) ==>
              var r, s := Restart(t), t.saved.value;
              && r.total == s.total && r.supportRange == s.supportRange && r.etag == s.etag
              && r.lastModified == s.lastModified && !r.probing && r.file == t.file && r.saved == t.saved
              && r.status == Downloading && r.reason == NoReason && r.loop == NEW_TASK.loop
              && |r.contexts| == |r.parts|
              && (forall i :: 0 <= i < |r.contexts| ==>
                    r.contexts[i].conn.Closed? && r.contexts[i].retries == 0 && !r.contexts[i].probeWindow)
  {
    if t.saved.Some? {
      SomeItemComesBack(t.saved.value.parts);
    }
  }

  // ---------------------------------------------------------------- the verdict

  predicate SomePart(parts: seq<Part>, status: Status) {
    exists i :: 0 <= i < |parts| && parts[i].status == status
  }

  /** Some part failed, for this reason. */
  predicate FailedFor(parts: seq<Part>, reason: Reason) {
    exists i :: 0 <= i < |parts| && parts[i].status == Failed && parts[i].reason == reason
  }

  /** The reason shown for failed parts: a refused credential before any other error, that before a failure to be
      tried again, and that before the network. */
  lemma ReasonOrder(parts: seq<Part>)
    ensures WorstReason(parts).None? <==> !SomePart(parts, Failed)
    ensures FailedFor(parts, Auth) ==> WorstReason(parts) == Some(Auth)
    ensures !FailedFor(parts, Auth) ==>
              && (FailedFor(parts, GeneralError) ==> WorstReason(parts) == Some(GeneralError))
              && (!FailedFor(parts, GeneralError) ==>
                    && (FailedFor(parts, RetryableFail) ==> WorstReason(parts) == Some(RetryableFail))
                    && (!FailedFor(parts, RetryableFail) && FailedFor(parts, Network) ==>
                          WorstReason(parts) == Some(Network)))
  {
    WorstIsWorst(parts);
    assert forall i :: 0 <= i < |parts| ==> parts[i] in parts;
    if WorstReason(parts).Some? {
      assert FailedFor(parts, WorstReason(parts).value);
    }
  }

  predicate NeverPaused(t: Task) {
    forall i :: 0 <= i < |t.parts| ==> t.parts[i].status != Paused
  }

  /** The verdict after the loop. A task that failed for good keeps that verdict; any other one is still downloading if
      and only if some part is, complete if and only if all parts are, and else failed for their worst reason. */
  lemma SettledExactly(t: Task)
    requires NeverPaused(t)
    ensures var r := Settled(t);
            && r == t.(status := r.status, reason := r.reason)
            && (r.status == Downloading <==> !Fatal(t) && SomePart(t.parts, Downloading))
            && (r.status == Completed <==>
                  !Fatal(t) && forall i :: 0 <= i < |t.parts| ==> t.parts[i].status == Completed)
            && (r.status == Failed <==> Fatal(t) || (!SomePart(t.parts, Downloading) && SomePart(t.parts, Failed)))
            && (Fatal(t) ==> r.reason == GeneralError)
            && (r.status == Downloading || r.status == Completed ==> r.reason == NoReason)
            && (r.status == Failed && !Fatal(t) ==> Some(r.reason) == WorstReason(t.parts))
  {
    assert forall i :: 0 <= i < |t.parts| ==> t.parts[i] in t.parts;
    ReasonOrder(t.parts);
  }

  lemma StepKeepsUnpaused(cfg: Config, t: Task, e: Event)
    requires WellFormed(t) && NeverPaused(t) && Legal(t, e)
    ensures NeverPaused(Step(cfg, t, e))
  {
    match e
    case Header(i, line) => HeaderUnpaused(t, i, line);
    case Body(i, data, disk) => BodyUnpaused(cfg, t, i, data, disk);
    case Finished(i, rc, built) => FinishedUnpaused(cfg, t, i, rc, built);
    case Spawn(built) => SpawnForm(t, built);
    case Crash => RestoredUnpaused(if t.saved.Some? then t.saved.value.parts else []);
    case _ =>
  }

  lemma BodyUnpaused(cfg: Config, t: Task, i: nat, data: Bytes, disk: Disk)
    requires WellFormed(t) && NeverPaused(t) && Legal(t, Body(i, data, disk))
    ensures NeverPaused(OnBody(cfg, t, i, data, disk))
  {
    if t.status == Failed || t.loop.cancelRequested || t.loop.pauseRequested {
      assert WriteResult(cfg, t, i, data, disk) == WriteEffect(t, 0);
    } else {
      var t1 := if t.probing then FinalizeProbing(cfg, t, i, disk.creates) else t;
      if t.probing {
        FinalizeUnpaused(cfg, t, i, disk.creates);
      }
      WriteUnpaused(t1, i, data, disk.write);
    }
  }

  lemma FinalizeUnpaused(cfg: Config, t: Task, i: nat, creates: bool)
    requires WellFormed(t) && NeverPaused(t) && i < |t.parts|
    ensures NeverPaused(FinalizeProbing(cfg, t, i, creates))
  {
  }

  lemma WriteUnpaused(t: Task, i: nat, data: Bytes, outcome: WriteOutcome)
    requires WellFormed(t) && NeverPaused(t) && i < |t.parts|
    ensures NeverPaused(WriteIntoPart(t, i, data, outcome).task)
  {
  }

  lemma HeaderUnpaused(t: Task, i: nat, line: HeaderLine)
    requires WellFormed(t) && NeverPaused(t) && Legal(t, Header(i, line))
    ensures NeverPaused(OnHeader(t, i, line))
  {
    if t.status == Failed || t.loop.cancelRequested {
      HeaderRefused(t, i, line);
    } else {
      HeaderExactly(t, i, line);
    }
  }

  lemma FinishedUnpaused(cfg: Config, t: Task, i: nat, rc: TransferResult, built: bool)
    requires WellFormed(t) && NeverPaused(t) && Legal(t, Finished(i, rc, built))
    ensures NeverPaused(OnFinished(cfg, t, i, rc, built))
  {
    FinishedForm(cfg, t, i, rc, built);
    var v := PartResult(cfg, WithConnection(t, i, Closed), i, rc, t.contexts[i].conn.code);
    assert NeverPaused(v.task);
  }

  lemma {:induction false} RestoredUnpaused(items: seq<seq<int>>)
    ensures forall i :: 0 <= i < |Deserialize(items)| ==> Deserialize(items)[i].status != Paused
  {
    if items != [] {
      RestoredUnpaused(items[..|items| - 1]);
    }
  }

  lemma {:induction false} RunKeepsUnpaused(cfg: Config, t: Task, run: seq<Event>)
    requires WellFormed(t) && NeverPaused(t) && LegalRun(cfg, t, run)
    ensures NeverPaused(Replay(cfg, t, run))
    decreases |run|
  {
    if run != [] {
      StepKeepsUnpaused(cfg, t, run[0]);
      RunKeepsUnpaused(cfg, Step(cfg, t, run[0]), run[1..]);
    }
  }

  // ---------------------------------------------------------------- failed for good

  /** The process lives on, and the thread has not yet marked a pause. */
  predicate SameVerdict(run: seq<Event>) {
    forall e :: e in run ==> !e.Crash? && !e.MarkPaused?
  }

  lemma StepKeepsFatal(cfg: Config, t: Task, e: Event)
    requires WellFormed(t) && Legal(t, e) && Fatal(t) && !e.Crash? && !e.MarkPaused?
    ensures Fatal(Step(cfg, t, e))
  {
    match e
    case Header(i, line) => HeaderRefused(t, i, line);
    case Finished(i, rc, built) => FinishedKeepsFatal(cfg, t, i, rc, built);
    case Spawn(built) => SpawnForm(t, built);
    case _ =>
  }

  lemma FinishedKeepsFatal(cfg: Config, t: Task, i: nat, rc: TransferResult, built: bool)
    requires WellFormed(t) && Legal(t, Finished(i, rc, built)) && Fatal(t)
    ensures Fatal(OnFinished(cfg, t, i, rc, built))
  {
    FinishedForm(cfg, t, i, rc, built);
    assert Fatal(PartResult(cfg, WithConnection(t, i, Closed), i, rc, t.contexts[i].conn.code).task);
  }

  lemma {:induction false} FatalStays(cfg: Config, t: Task, run: seq<Event>)
    requires WellFormed(t) && LegalRun(cfg, t, run) && Fatal(t) && SameVerdict(run)
    ensures Fatal(Replay(cfg, t, run))
    decreases |run|
  {
    if run != [] {
      StepKeepsFatal(cfg, t, run[0]);
      FatalStays(cfg, Step(cfg, t, run[0]), run[1..]);
    }
  }

  /** Once a header line contradicts what the task knows, it has failed for good: whatever its other transfers do, and
      whatever its parts look like when the loop is left and the verdict is made. */
  lemma DriftIsFinal(cfg: Config, t: Task, i: nat, line: HeaderLine, run: seq<Event>)
    requires WellFormed(t) && Legal(t, Header(i, line)) && t.status != Failed && !t.loop.cancelRequested
    requires Contradicts(t, i, line) && LegalRun(cfg, OnHeader(t, i, line), run) && SameVerdict(run)
    ensures Fatal(Replay(cfg, OnHeader(t, i, line), run))
  {
    HeaderExactly(t, i, line);
    FatalStays(cfg, OnHeader(t, i, line), run);
  }

  /** So it has when the file cannot be created. */
  lemma NoFileIsFinal(cfg: Config, t: Task, data: Bytes, disk: Disk, run: seq<Event>)
    requires WellFormed(t) && |t.parts| == 1 && Legal(t, Body(0, data, disk)) && t.probing && !disk.creates
    requires t.status != Failed && !t.loop.cancelRequested && !t.loop.pauseRequested
    requires LegalRun(cfg, OnBody(cfg, t, 0, data, disk), run) && SameVerdict(run)
    ensures Fatal(Replay(cfg, OnBody(cfg, t, 0, data, disk), run))
  {
    NoFileIsFatal(cfg, t, data, disk);
    FatalStays(cfg, OnBody(cfg, t, 0, data, disk), run);
  }
}
