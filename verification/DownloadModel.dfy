/**
  The state of one segmented HTTP download and the effect of each callback and loop step on it, as functions on
  values. A `Task` also carries what the callbacks act on: the bytes of the file on disk, the last stored resume
  record and, per part, what its connection has delivered so far.
*/
module DownloadModel {
  import opened Wrappers
  import opened SplitPlan

  type Bytes = seq<bv8>

  datatype Status = Downloading | Paused | Completed | Failed

  datatype Reason = NoReason | Internal | Network | InvalidInput | Auth | GeneralError | RetryableFail

  datatype Part = Part(index: int, start: int, end: int, size: int, done: int, status: Status, reason: Reason) {
    function Interval(): Interval { SplitPlan.Interval(start, end) }

    predicate Terminal() { status == Completed || status == Failed }
  }

  /** The version a request insists on, if any: otherwise the server is to send the whole file. */
  datatype IfRange = NoCondition | IfTag(etag: string) | IfDate(date: string)

  /**
    A live transfer: the requested range `from`-`upto` (`upto == -1` leaves it open) and its condition, the last
    status code, the representation the server answers from, the last entity tag and date it named, the number of
    body bytes handed over, and whether a callback cut it short (it is then never called again).
  */
  datatype Connection =
    | Closed
    | Open(from: int, upto: int, asked: IfRange, code: int, rep: string, tag: string, date: string, received: nat,
           aborted: bool)

  datatype PartContext = PartContext(retries: nat, probeWindow: bool, seenTotal: int, seenCode: int, conn: Connection)

  const FRESH_CONTEXT := PartContext(0, false, 0, 0, Closed)

  /** The stored resume record; each part is the list index, start, end, done. It names the file on disk only
      once probing has chosen one. */
  datatype Snapshot = Snapshot(total: int, supportRange: bool, etag: string, lastModified: string, hasPath: bool,
                               parts: seq<seq<int>>)

  /** What the task thread keeps beside the parts: how many parts were hung into the loop, how many transfers are
      live, how many connections were opened, whether the loop was left, the requests of other threads, and the
      totals reported so far. */
  datatype Loop = Loop(
    spawned: nat, active: int, connections: nat, left: bool, pauseRequested: bool, cancelRequested: bool,
    lastEmit: int, reports: seq<int>)

  datatype Task = Task(
    total: int, status: Status, reason: Reason, supportRange: bool, etag: string, lastModified: string,
    parts: seq<Part>, contexts: seq<PartContext>, probing: bool,
    file: Bytes, saved: Option<Snapshot>, loop: Loop)

  predicate WellFormed(t: Task) {
    |t.parts| == |t.contexts| && |t.parts| >= 1 && t.loop.spawned <= |t.contexts|
  }

  function WithPart(t: Task, i: nat, p: Part): (r: Task)
    requires i < |t.parts|
    ensures |r.parts| == |t.parts| && r.contexts == t.contexts && r.loop == t.loop
  {
    t.(parts := t.parts[i := p])
  }

  function WithContext(t: Task, i: nat, c: PartContext): (r: Task)
    requires i < |t.contexts|
    ensures |r.contexts| == |t.contexts| && r.parts == t.parts && r.loop == t.loop
  {
    t.(contexts := t.contexts[i := c])
  }

  function WithConnection(t: Task, i: nat, conn: Connection): Task
    requires i < |t.contexts|
  {
    WithContext(t, i, t.contexts[i].(conn := conn))
  }

  function WithActive(t: Task, active: int): Task {
    t.(loop := t.loop.(active := active))
  }

  function WithSpawned(t: Task, spawned: nat): Task {
    t.(loop := t.loop.(spawned := spawned))
  }

  function FailPart(t: Task, i: nat, reason: Reason): Task
    requires i < |t.parts|
  {
    WithPart(t, i, t.parts[i].(status := Failed, reason := reason))
  }

  function Zeros(n: nat): Bytes { seq(n, _ => 0) }

  /** A positioned write: the file keeps its other bytes and grows, with a hole of zeros, when it must. */
  function WriteAt(file: Bytes, off: nat, data: Bytes): Bytes {
    if data == [] then file
    else if off >= |file| then file + Zeros(off - |file|) + data
    else file[..off] + data + (if off + |data| < |file| then file[off + |data|..] else [])
  }

  // ---------------------------------------------------------------- a new task

  const FIRST_PART := Part(0, 0, -1, 0, 0, Downloading, NoReason)

  /** A task that has never run: one part of unknown length, waiting to probe. */
  const NEW_TASK := Task(
    -1, Downloading, NoReason, false, "", "", [FIRST_PART], [FRESH_CONTEXT], true, [], None,
    Loop(0, 0, 0, false, false, false, -1, []))

  // ---------------------------------------------------------------- response headers

  /** One header line as the header callback reads it; lengths it cannot use are given as 0. */
  datatype HeaderLine =
    | StatusLine(code: int, rep: string)
    | ContentRange(total: int)
    | ContentLength(length: int)
    | ETag(value: string)
    | LastModified(value: string)
    | OtherLine

  /** What the line changes on the connection itself. */
  function Observe(conn: Connection, line: HeaderLine): Connection
    requires conn.Open?
  {
    match line
    case StatusLine(code, rep) => conn.(code := code, rep := rep, tag := "", date := "")
    case ETag(v) => conn.(tag := v)
    case LastModified(v) => conn.(date := v)
    case _ => conn
  }

  /** The resource is not the one the task started with. */
  function Drift(t: Task, i: nat): Task
    requires i < |t.parts|
  {
    FailPart(t, i, GeneralError).(status := Failed, reason := GeneralError)
  }

  /** A 200 answer carries the file from byte 0: only a single part that has written nothing can take it. */
  predicate FullStreamOk(t: Task, i: nat)
    requires i < |t.parts|
  {
    |t.parts| <= 1 && t.parts[i].done == 0
  }

  /** One header line's effect, and whether the callback lets the transfer go on. */
  datatype HeaderResult = HeaderResult(task: Task, goOn: bool)

  function OnStatusLine(t: Task, i: nat, code: int): (r: HeaderResult)
    requires WellFormed(t) && i < |t.parts|
    ensures WellFormed(r.task) && |r.task.parts| == |t.parts| && r.task.contexts[i].conn == t.contexts[i].conn
    ensures r.task.loop == t.loop
  {
    var t1 := WithContext(t, i, t.contexts[i].(seenCode := code));
    if code == 200 && !FullStreamOk(t, i) then HeaderResult(Drift(t1, i), false) else HeaderResult(t1, true)
  }

  function OnContentRange(t: Task, i: nat, total: int): (r: HeaderResult)
    requires WellFormed(t) && i < |t.parts|
    ensures WellFormed(r.task) && |r.task.parts| == |t.parts| && r.task.contexts[i].conn == t.contexts[i].conn
    ensures r.task.loop == t.loop
  {
    if total <= 0 then HeaderResult(t, true)
    else
      var t1 := WithContext(t, i, t.contexts[i].(seenTotal := total));
      if t.total <= 0 then HeaderResult(t1.(total := total), true)
      else if total != t.total then HeaderResult(Drift(t1, i), false)
      else HeaderResult(t1, true)
  }

  /** The length counts only while probing, and not for a 206, whose length is that of the window. */
  function OnContentLength(t: Task, i: nat, n: int): (r: HeaderResult)
    requires WellFormed(t) && i < |t.parts|
    ensures WellFormed(r.task) && |r.task.parts| == |t.parts| && r.task.contexts[i].conn == t.contexts[i].conn
    ensures r.task.loop == t.loop
  {
    var c := t.contexts[i];
    if n > 0 && c.seenTotal <= 0 && t.probing && c.seenCode != 206
    then HeaderResult(WithContext(t, i, c.(seenTotal := n)), true)
    else HeaderResult(t, true)
  }

  function OnETag(t: Task, i: nat, v: string): (r: HeaderResult)
    requires WellFormed(t) && i < |t.parts|
    ensures WellFormed(r.task) && |r.task.parts| == |t.parts| && r.task.contexts[i].conn == t.contexts[i].conn
    ensures r.task.loop == t.loop
  {
    if t.etag == "" then HeaderResult(t.(etag := v), true)
    else if v != t.etag then HeaderResult(Drift(t, i), false)
    else HeaderResult(t, true)
  }

  function OnLastModified(t: Task, i: nat, v: string): (r: HeaderResult)
    requires WellFormed(t) && i < |t.parts|
    ensures WellFormed(r.task) && |r.task.parts| == |t.parts| && r.task.contexts[i].conn == t.contexts[i].conn
    ensures r.task.loop == t.loop
  {
    if t.lastModified == "" then HeaderResult(t.(lastModified := v), true)
    else if v != t.lastModified then HeaderResult(Drift(t, i), false)
    else HeaderResult(t, true)
  }

  function HeaderLineResult(t: Task, i: nat, line: HeaderLine): (r: HeaderResult)
    requires WellFormed(t) && i < |t.parts|
    ensures WellFormed(r.task) && |r.task.parts| == |t.parts| && r.task.contexts[i].conn == t.contexts[i].conn
    ensures r.task.loop == t.loop
  {
    if t.status == Failed || t.loop.cancelRequested then HeaderResult(t, false)
    else
      match line
      case StatusLine(code, _) => OnStatusLine(t, i, code)
      case ContentRange(total) => OnContentRange(t, i, total)
      case ContentLength(n) => OnContentLength(t, i, n)
      case ETag(v) => OnETag(t, i, v)
      case LastModified(v) => OnLastModified(t, i, v)
      case OtherLine => HeaderResult(t, true)
  }

  function OnHeader(t: Task, i: nat, line: HeaderLine): (r: Task)
    requires WellFormed(t) && i < |t.parts| && t.contexts[i].conn.Open?
    ensures WellFormed(r)
  {
    var h := HeaderLineResult(WithConnection(t, i, Observe(t.contexts[i].conn, line)), i, line);
    if h.goOn then h.task else WithConnection(h.task, i, h.task.contexts[i].conn.(aborted := true))
  }

  // ---------------------------------------------------------------- response body

  /** How the disk behaves during one body callback: whether the file could be created (first byte of a probe),
      and whether the write works, finds no file, or fails after some bytes. */
  datatype Disk = Disk(creates: bool, write: WriteOutcome)
  datatype WriteOutcome = Written | FileMissing | FailsAfter(count: nat)

  function PartOf(i: nat, interval: Interval): Part {
    Part(i, interval.start, interval.end, interval.Size(), 0, Downloading, NoReason)
  }

  function PlannedPartsOf(cfg: Config, total: int): (parts: seq<Part>)
    ensures |parts| == PlannedParts(cfg, total)
  {
    var plan := Plan(cfg, total);
    seq(|plan|, i requires 0 <= i < |plan| => PartOf(i, plan[i]))
  }

  /** The file is created, and sized when the length is known. */
  function CreateFile(t: Task, i: nat): (r: Task)
    requires WellFormed(t) && i < |t.parts|
    ensures WellFormed(r) && r.contexts == t.contexts && r.parts == t.parts
  {
    var seen := t.contexts[i].seenTotal;
    var total := if t.total <= 0 && seen > 0 then seen else t.total;
    t.(probing := false, total := total, file := if total > 0 then Zeros(total) else [])
  }

  /** A 206 answer: part 0 is the running transfer, the others wait to be hung. */
  function CutParts(cfg: Config, t: Task): (r: Task)
    requires WellFormed(t)
    ensures WellFormed(r) && |r.parts| >= |t.parts| && r.contexts[0].conn == t.contexts[0].conn
    ensures forall j :: 1 <= j < |t.contexts| ==> r.contexts[j] == t.contexts[j]
  {
    var planned := PlannedPartsOf(cfg, t.total);
    var first := t.contexts[0].(seenTotal := 0, seenCode := 0, retries := 0);
    t.(supportRange := true,
       parts := t.parts[0 := planned[0]] + planned[1..],
       contexts := t.contexts[0 := first] + seq(|planned| - 1, _ => FRESH_CONTEXT))
  }

  /** Any other answer: part 0 takes the whole stream. */
  function SingleStream(t: Task): (r: Task)
    requires WellFormed(t)
    ensures WellFormed(r) && |r.parts| == |t.parts| && r.contexts == t.contexts
  {
    WithPart(t, 0, t.parts[0].(start := 0,
                               end := if t.total > 0 then t.total - 1 else -1,
                               size := if t.total > 0 then t.total else 0)).(supportRange := false)
  }

  /** The first body byte of the probe ends probing: name and create the file, then cut it into parts (206) or
      leave it to this one stream. Creating the file may fail, which fails the task. */
  function FinalizeProbing(cfg: Config, t: Task, i: nat, creates: bool): (r: Task)
    requires WellFormed(t) && i < |t.parts|
    ensures WellFormed(r) && |r.parts| >= |t.parts| && r.contexts[i].conn == t.contexts[i].conn && r.loop == t.loop
  {
    var created := CreateFile(t, i);
    if !creates then created.(file := t.file, status := Failed, reason := GeneralError)
    else if t.contexts[i].seenCode == 206 then CutParts(cfg, created)
    else SingleStream(created)
  }

  /** The task after a body callback, and the number of bytes it reports as consumed. */
  datatype WriteEffect = WriteEffect(task: Task, taken: nat)

  /** How many bytes of the data a part still needs; a part of unknown length needs them all. */
  function Needed(p: Part, len: nat): nat
    requires p.size > 0 ==> p.done < p.size
  {
    if p.size > 0 && len > p.size - p.done then p.size - p.done else len
  }

  /** Write as much of the data as the part still needs, at the part's own position. */
  function WriteIntoPart(t: Task, i: nat, data: Bytes, outcome: WriteOutcome): (r: WriteEffect)
    requires WellFormed(t) && i < |t.parts|
    ensures WellFormed(r.task) && r.task.contexts == t.contexts && r.task.loop == t.loop
  {
    var p := t.parts[i];
    if p.size > 0 && p.done >= p.size then WriteEffect(t, 0)
    else
      var len, off := Needed(p, |data|), p.start + p.done;
      if outcome.FileMissing? || off < 0 then WriteEffect(FailPart(t, i, GeneralError), 0)
      else if outcome.FailsAfter? then
        WriteEffect(FailPart(t, i, GeneralError).(file := WriteAt(t.file, off, data[..Min(outcome.count, len)])), 0)
      else
        WriteEffect(WithPart(t, i, p.(done := p.done + len)).(file := WriteAt(t.file, off, data[..len])), len)
  }

  function WriteResult(cfg: Config, t: Task, i: nat, data: Bytes, disk: Disk): (r: WriteEffect)
    requires WellFormed(t) && i < |t.parts|
    ensures WellFormed(r.task) && |r.task.parts| >= |t.parts|
    ensures r.task.contexts[i].conn == t.contexts[i].conn && r.task.loop == t.loop
  {
    if t.status == Failed || t.loop.cancelRequested || t.loop.pauseRequested || |data| == 0 then WriteEffect(t, 0)
    else
      var t1 := if t.probing then FinalizeProbing(cfg, t, i, disk.creates) else t;
      if t1.status == Failed then WriteEffect(t1, 0) else WriteIntoPart(t1, i, data, disk.write)
  }

  /** The transport goes on only when the callback has consumed all `len` bytes. */
  function Delivered(e: WriteEffect, i: nat, len: nat): (r: Task)
    requires WellFormed(e.task) && i < |e.task.contexts| && e.task.contexts[i].conn.Open?
    ensures WellFormed(r)
  {
    var conn := e.task.contexts[i].conn;
    WithConnection(e.task, i, conn.(received := conn.received + len, aborted := e.taken < len))
  }

  function OnBody(cfg: Config, t: Task, i: nat, data: Bytes, disk: Disk): (r: Task)
    requires WellFormed(t) && i < |t.parts| && t.contexts[i].conn.Open?
    ensures WellFormed(r)
  {
    Delivered(WriteResult(cfg, t, i, data, disk), i, |data|)
  }

  // ---------------------------------------------------------------- end of a transfer

  /** Transport results, grouped as the failure classifier groups them. */
  datatype TransferResult = TransferOk | HttpError | Transient | CallbackRefused | OtherFailure

  function ClassifyFailure(rc: TransferResult, code: int): (Reason, bool) {
    match rc
    case TransferOk | HttpError =>
      if 500 <= code <= 599 || code == 408 || code == 429 then (Network, true)
      else if code == 401 || code == 403 then (Auth, false)
      else (GeneralError, false)
    case Transient => (Network, true)
    case _ => (GeneralError, false)
  }

  predicate IsSuccess(rc: TransferResult, code: int) {
    rc == TransferOk && 200 <= code < 300
  }

  /** The task after the verdict on a part, and whether the part must be requested again. */
  datatype Verdict = Verdict(task: Task, again: bool)

  function RetryOrFail(cfg: Config, t: Task, i: nat, reason: Reason, retryable: bool): (r: Verdict)
    requires WellFormed(t) && i < |t.parts|
    ensures WellFormed(r.task) && |r.task.parts| == |t.parts| && r.task.loop == t.loop
  {
    var c := t.contexts[i];
    if retryable && c.retries < cfg.maxRetries
    then Verdict(WithContext(t, i, c.(retries := c.retries + 1)), true)
    else Verdict(FailPart(t, i, reason), false)
  }

  function PartResult(cfg: Config, t: Task, i: nat, rc: TransferResult, code: int): (r: Verdict)
    requires WellFormed(t) && i < |t.parts|
    ensures WellFormed(r.task) && |r.task.parts| == |t.parts| && r.task.loop == t.loop
  {
    var p, c := t.parts[i], t.contexts[i];
    if p.status == Failed then Verdict(t, false)
    else if p.size > 0 && p.done >= p.size then
      Verdict(WithPart(t, i, p.(status := Completed, reason := NoReason)), false)
    else if c.probeWindow && rc == TransferOk && code == 206 && p.done > 0 then
      Verdict(WithContext(t, i, c.(probeWindow := false)), true)
    else if IsSuccess(rc, code) && p.size <= 0 then
      Verdict(WithPart(t, i, p.(status := Completed, reason := NoReason, size := p.done))
                .(total := if t.total <= 0 then p.done else t.total), false)
    else if IsSuccess(rc, code) then RetryOrFail(cfg, t, i, Network, true)
    else
      var (reason, retryable) := ClassifyFailure(rc, code);
      RetryOrFail(cfg, t, i, reason, retryable)
  }

  /** The range the next request of a part asks for. */
  function RequestRange(t: Task, i: nat): Interval
    requires i < |t.parts|
  {
    var p := t.parts[i];
    if t.probing then SplitPlan.Interval(0, PROBE_WINDOW - 1)
    else SplitPlan.Interval(p.start + p.done, if p.end >= p.start + p.done then p.end else -1)
  }

  /** Once probing is over a request insists on the version the task knows, by its entity tag if it has one. */
  function Condition(t: Task): IfRange {
    if t.probing then NoCondition
    else if t.etag != "" then IfTag(t.etag)
    else if t.lastModified != "" then IfDate(t.lastModified)
    else NoCondition
  }

  /** Hang a part into the loop with a new request; building the request may fail, which fails the part. */
  function AddPart(t: Task, i: nat, built: bool): (r: Task)
    requires WellFormed(t) && i < |t.parts|
    ensures WellFormed(r) && |r.parts| == |t.parts|
  {
    if !built then FailPart(t, i, GeneralError)
    else
      var range := RequestRange(t, i);
      WithContext(t, i, t.contexts[i].(probeWindow := t.probing, seenTotal := 0, seenCode := 0,
                                       conn := Open(range.start, range.end, Condition(t), 0, "", "", "", 0, false)))
        .(loop := t.loop.(connections := t.loop.connections + 1))
  }

  /** A part asked for again stays in the loop; every other verdict lets it go. */
  function Answer(v: Verdict, i: nat, built: bool): (r: Task)
    requires WellFormed(v.task) && i < |v.task.parts|
    ensures WellFormed(r)
  {
    var t1 := if v.again then AddPart(v.task, i, built) else v.task;
    if v.again && built then t1 else WithActive(t1, t1.loop.active - 1)
  }

  function OnFinished(cfg: Config, t: Task, i: nat, rc: TransferResult, built: bool): (r: Task)
    requires WellFormed(t) && i < |t.parts| && t.contexts[i].conn.Open?
    ensures WellFormed(r)
  {
    var code := t.contexts[i].conn.code;
    var t0 := WithConnection(t, i, Closed);
    if t.loop.cancelRequested || t.loop.pauseRequested then WithActive(t0, t0.loop.active - 1)
    else
      Answer(PartResult(cfg, t0, i, rc, code), i, built)
  }

  function Hang(t: Task, i: nat, built: bool): (r: Task)
    requires WellFormed(t) && i < |t.parts|
    ensures WellFormed(r)
  {
    var t1 := AddPart(t, i, built);
    if built then WithActive(t1, t1.loop.active + 1) else t1
  }

  /** Hang the next part that has not been hung yet, unless it was already complete in the resume record. */
  function SpawnNext(t: Task, built: bool): (r: Task)
    requires WellFormed(t) && t.loop.spawned < |t.contexts|
    ensures WellFormed(r)
  {
    var i := t.loop.spawned;
    var t0 := WithSpawned(t, i + 1);
    if t.parts[i].status == Completed then t0 else Hang(t0, i, built)
  }

  // ---------------------------------------------------------------- resume records

  function SumDone(parts: seq<Part>): int {
    if parts == [] then 0 else SumDone(parts[..|parts| - 1]) + parts[|parts| - 1].done
  }

  function SnapshotPart(p: Part): seq<int> {
    [p.index, p.start, p.end, p.done]
  }

  function Serialize(t: Task): Snapshot {
    Snapshot(t.total, t.supportRange, t.etag, t.lastModified, !t.probing,
             seq(|t.parts|, i requires 0 <= i < |t.parts| => SnapshotPart(t.parts[i])))
  }

  /** A stored part back in memory: its size and status are recomputed from the interval. */
  function RestorePart(item: seq<int>): Part
    requires |item| >= 4
  {
    var size := SplitPlan.Interval(item[1], item[2]).Size();
    Part(item[0], item[1], item[2], size, item[3],
         if size > 0 && item[3] >= size then Completed else Downloading, NoReason)
  }

  /** Items with fewer than four numbers are skipped. */
  function Deserialize(items: seq<seq<int>>): seq<Part> {
    if items == [] then []
    else
      var last := items[|items| - 1];
      Deserialize(items[..|items| - 1]) + (if |last| < 4 then [] else [RestorePart(last)])
  }

  /** Store the resume record; the store may refuse it. */
  function Report(t: Task, stored: bool): Task {
    if stored then t.(saved := Some(Serialize(t))) else t
  }

  /** Throttled report: only for a resumable task whose total has grown since the last report. */
  function MaybeReport(t: Task, stored: bool): Task {
    var done := SumDone(t.parts);
    if !t.supportRange || done <= t.loop.lastEmit then t
    else Report(t.(loop := t.loop.(lastEmit := done, reports := t.loop.reports + [done])), stored)
  }

  /** The record can be used: it has parts and names a file. */
  predicate Resumable(saved: Option<Snapshot>) {
    saved.Some? && saved.value.hasPath && Deserialize(saved.value.parts) != []
  }

  /** A new process picks the download up from the stored record; without one it starts over in a new file. */
  function Restart(t: Task): (r: Task)
    ensures WellFormed(r)
  {
    if !Resumable(t.saved) then NEW_TASK
    else
      var s := t.saved.value;
      var parts := Deserialize(s.parts);
      NEW_TASK.(total := s.total, supportRange := s.supportRange, etag := s.etag, lastModified := s.lastModified,
                parts := parts, contexts := seq(|parts|, _ => FRESH_CONTEXT), probing := false,
                file := t.file, saved := t.saved)
  }

  // ---------------------------------------------------------------- verdict

  function Rank(r: Reason): nat {
    match r
    case Auth => 4
    case GeneralError => 3
    case RetryableFail => 2
    case Network => 1
    case _ => 0
  }

  /** The reason of the failed part of highest rank; the first one wins a tie. */
  function WorstReason(parts: seq<Part>): Option<Reason> {
    if parts == [] then None
    else
      var before, last := WorstReason(parts[..|parts| - 1]), parts[|parts| - 1];
      if last.status == Failed && (before.None? || Rank(last.reason) > Rank(before.value))
      then Some(last.reason) else before
  }

  datatype Outcome = Outcome(status: Status, reason: Reason)

  /** The verdict on the whole task once its loop has ended. */
  function Aggregate(t: Task): Outcome {
    if t.status == Failed && t.reason == GeneralError then Outcome(t.status, t.reason)
    else if exists p :: p in t.parts && p.status == Downloading then Outcome(Downloading, NoReason)
    else if forall p :: p in t.parts ==> p.status == Completed then Outcome(Completed, NoReason)
    else if WorstReason(t.parts).Some? then Outcome(Failed, WorstReason(t.parts).value)
    else Outcome(t.status, t.reason)
  }

  function Settled(t: Task): Task {
    t.(status := Aggregate(t).status, reason := Aggregate(t).reason)
  }

  // ---------------------------------------------------------------- runs

  /** One step of a download's life. `Crash` is also the orderly restart after a pause. */
  datatype Event =
    | Header(i: nat, line: HeaderLine)
    | Body(i: nat, data: Bytes, disk: Disk)
    | Finished(i: nat, rc: TransferResult, built: bool)
    | Spawn(built: bool)
    | Throttled(stored: bool)
    | RequestPause
    | RequestCancel
    | LeaveLoop
    | Settle
    | FinalReport(stored: bool)
    | MarkPaused
    | Crash

  function CloseAll(contexts: seq<PartContext>): (r: seq<PartContext>)
    ensures |r| == |contexts|
  {
    seq(|contexts|, i requires 0 <= i < |contexts| => contexts[i].(conn := Closed))
  }

  /** The loop has ended: whatever is still live is taken down. */
  function Left(t: Task): Task {
    t.(contexts := CloseAll(t.contexts), loop := t.loop.(active := 0, left := true))
  }

  /** What the transport and the loop can do next. */
  predicate Legal(t: Task, e: Event) {
    match e
    case Header(i, line) =>
      && i < |t.contexts| && t.contexts[i].conn.Open? && !t.contexts[i].conn.aborted
      && (line.StatusLine? ==> t.contexts[i].conn.received == 0)
    case Body(i, data, _) =>
      i < |t.contexts| && t.contexts[i].conn.Open? && !t.contexts[i].conn.aborted && |data| > 0
    case Finished(i, rc, _) =>
      i < |t.contexts| && t.contexts[i].conn.Open? && (t.contexts[i].conn.aborted ==> rc == CallbackRefused)
    case Spawn(_) => t.loop.spawned < |t.contexts| && !t.loop.left
    case Throttled(_) => true
    case RequestPause => true
    case RequestCancel => true
    case LeaveLoop => !t.loop.left
    case Settle => t.loop.left
    case FinalReport(_) => t.status == Completed
    case MarkPaused =>
      (t.loop.left || t.loop.spawned == 0) && t.loop.pauseRequested && !t.loop.cancelRequested
    case Crash => true
  }

  function Step(cfg: Config, t: Task, e: Event): (r: Task)
    requires WellFormed(t) && Legal(t, e)
    ensures WellFormed(r)
  {
    match e
    case Header(i, line) => OnHeader(t, i, line)
    case Body(i, data, disk) => OnBody(cfg, t, i, data, disk)
    case Finished(i, rc, built) => OnFinished(cfg, t, i, rc, built)
    case Spawn(built) => SpawnNext(t, built)
    case Throttled(stored) => MaybeReport(t, stored)
    case RequestPause => t.(loop := t.loop.(pauseRequested := true))
    case RequestCancel => t.(loop := t.loop.(cancelRequested := true))
    case LeaveLoop => Left(t)
    case Settle => Settled(t)
    case FinalReport(stored) => Report(t, stored)
    case MarkPaused => t.(status := Paused)
    case Crash => Restart(t)
  }

  predicate LegalRun(cfg: Config, t: Task, run: seq<Event>)
    requires WellFormed(t)
    decreases |run|
  {
    run == [] || (Legal(t, run[0]) && LegalRun(cfg, Step(cfg, t, run[0]), run[1..]))
  }

  function Replay(cfg: Config, t: Task, run: seq<Event>): (r: Task)
    requires WellFormed(t) && LegalRun(cfg, t, run)
    ensures WellFormed(r)
    decreases |run|
  {
    if run == [] then t else Replay(cfg, Step(cfg, t, run[0]), run[1..])
  }

  lemma {:induction false} ReplayAppend(cfg: Config, t: Task, run: seq<Event>, e: Event)
    requires WellFormed(t) && LegalRun(cfg, t, run) && Legal(Replay(cfg, t, run), e)
    ensures LegalRun(cfg, t, run + [e])
    ensures Replay(cfg, t, run + [e]) == Step(cfg, Replay(cfg, t, run), e)
    decreases |run|
  {
    if run == [] {
      assert run + [e] == [e];
      assert [e][1..] == [];
    } else {
      var all := run + [e];
      assert all[0] == run[0] && all[1..] == run[1..] + [e];
      ReplayAppend(cfg, Step(cfg, t, run[0]), run[1..], e);
    }
  }

  lemma {:induction false} ReplayConcat(cfg: Config, t: Task, run: seq<Event>, more: seq<Event>)
    requires WellFormed(t) && LegalRun(cfg, t, run) && LegalRun(cfg, Replay(cfg, t, run), more)
    ensures LegalRun(cfg, t, run + more)
    ensures Replay(cfg, t, run + more) == Replay(cfg, Replay(cfg, t, run), more)
    decreases |run|
  {
    if run == [] {
      assert run + more == more;
    } else {
      var all := run + more;
      assert all[0] == run[0] && all[1..] == run[1..] + more;
      ReplayConcat(cfg, Step(cfg, t, run[0]), run[1..], more);
    }
  }
}
