/**
  Where the engine's promise starts and stops: a run that meets the assumptions of the main theorem, runs that are
  possible outside them, and the exact condition that separates the two.
*/
module DownloadLimits {
  import opened SplitPlan
  import opened DownloadModel
  import opened DownloadInvariant
  import opened DownloadTheorems
  import opened ProbeHeaders

  const GOOD_DISK := Disk(true, Written)

  /** The probe connection with what its headers have said so far. */
  function Probe(code: int, seenTotal: int, received: nat, aborted: bool): PartContext {
    PartContext(0, true, seenTotal, code, Open(0, PROBE_WINDOW - 1, NoCondition, code, "", "", "", received, aborted))
  }

  /** A task that is probing without validators. */
  function Probing(code: int, total: int, seenTotal: int): Task {
    NEW_TASK.(contexts := [Probe(code, seenTotal, 0, false)], total := total,
              loop := NEW_TASK.loop.(spawned := 1, active := 1, connections := 1))
  }

  lemma Unroll(cfg: Config, t: Task, e: Event, next: Task, rest: seq<Event>)
    requires WellFormed(t) && Legal(t, e) && Step(cfg, t, e) == next && LegalRun(cfg, next, rest)
    ensures LegalRun(cfg, t, [e] + rest) && Replay(cfg, t, [e] + rest) == Replay(cfg, next, rest)
  {
    assert ([e] + rest)[1..] == rest;
  }

  lemma SpawnProbe(cfg: Config)
    ensures Step(cfg, NEW_TASK, Spawn(true)) == Probing(0, -1, 0)
  {
  }

  lemma ProbeStatus(cfg: Config, code: int, seenTotal: int, next: int)
    ensures var e := Header(0, StatusLine(next, ""));
            Step(cfg, Probing(code, -1, seenTotal), e) == Probing(next, -1, seenTotal)
  {
  }

  lemma ProbeLength(cfg: Config, code: int, seenTotal: int, n: int)
    requires code != 206
    ensures var e := Header(0, ContentLength(n));
            Step(cfg, Probing(code, -1, seenTotal), e)
            == Probing(code, -1, if n > 0 && seenTotal <= 0 then n else seenTotal)
  {
  }

  lemma ProbeBody(cfg: Config, seenTotal: int, data: Bytes)
    requires seenTotal > 0 && |data| > 0
    ensures OnBody(cfg, Probing(200, -1, seenTotal), 0, data, GOOD_DISK).total == seenTotal
  {
    var t := Probing(200, -1, seenTotal);
    var t1 := FinalizeProbing(cfg, t, 0, true);
    assert t1 == SingleStream(CreateFile(t, 0)) && t1.total == seenTotal;
    assert WriteResult(cfg, t, 0, data, GOOD_DISK) == WriteIntoPart(t1, 0, data, Written);
  }

  /** A probe that first meets an interim response announcing `interim` bytes, then a full 200 answer announcing
      `length` bytes, and receives the first body bytes. */
  function RedirectedProbe(interim: int, length: int, data: Bytes): seq<Event> {
    [Spawn(true)] + ([Header(0, StatusLine(302, ""))] + ([Header(0, ContentLength(interim))] +
    ([Header(0, StatusLine(200, ""))] + ([Header(0, ContentLength(length))] + ([Body(0, data, GOOD_DISK)] + [])))))
  }

  /** The shortest instance of `RightLengthExactly`: after a redirected probe the length of the file is right exactly
      when the interim response announced no length, or by chance the same one. */
  lemma RedirectLengthWins(cfg: Config, interim: int, length: int, data: Bytes)
    requires length > 0 && |data| > 0
    ensures LegalRun(cfg, NEW_TASK, RedirectedProbe(interim, length, data))
    ensures Replay(cfg, NEW_TASK, RedirectedProbe(interim, length, data)).total == length
            <==> interim <= 0 || interim == length
  {
    var seen := if interim > 0 then interim else 0;
    var adopted := if interim > 0 then interim else length;
    var r5: seq<Event> := [Body(0, data, GOOD_DISK)] + [];
    var r4 := [Header(0, ContentLength(length))] + r5;
    var r3 := [Header(0, StatusLine(200, ""))] + r4;
    var r2 := [Header(0, ContentLength(interim))] + r3;
    var r1 := [Header(0, StatusLine(302, ""))] + r2;
    ProbeBody(cfg, adopted, data);
    Unroll(cfg, Probing(200, -1, adopted), Body(0, data, GOOD_DISK),
           OnBody(cfg, Probing(200, -1, adopted), 0, data, GOOD_DISK), []);
    ProbeLength(cfg, 200, seen, length);
    Unroll(cfg, Probing(200, -1, seen), Header(0, ContentLength(length)), Probing(200, -1, adopted), r5);
    ProbeStatus(cfg, 302, seen, 200);
    Unroll(cfg, Probing(302, -1, seen), Header(0, StatusLine(200, "")), Probing(200, -1, seen), r4);
    ProbeLength(cfg, 302, 0, interim);
    Unroll(cfg, Probing(302, -1, 0), Header(0, ContentLength(interim)), Probing(302, -1, seen), r3);
    ProbeStatus(cfg, 0, 0, 302);
    Unroll(cfg, Probing(0, -1, 0), Header(0, StatusLine(302, "")), Probing(302, -1, 0), r2);
    SpawnProbe(cfg);
    Unroll(cfg, NEW_TASK, Spawn(true), Probing(0, -1, 0), r1);
  }

  // ---------------------------------------------------------------- a run that meets the assumptions

  lemma UnrollHonest(sv: Server, cfg: Config, t: Task, e: Event, next: Task, rest: seq<Event>)
    requires WellFormed(t) && Legal(t, e) && Step(cfg, t, e) == next && LegalRun(cfg, next, rest)
    requires Honest(sv, t, e) && HonestRun(sv, cfg, next, rest)
    ensures LegalRun(cfg, t, [e] + rest) && HonestRun(sv, cfg, t, [e] + rest)
    ensures Replay(cfg, t, [e] + rest) == Replay(cfg, next, rest)
  {
    assert ([e] + rest)[1..] == rest;
  }

  /** A server that answers the probe with the whole file. */
  function PlainDownload(data: Bytes): seq<Event> {
    [Spawn(true)] + ([Header(0, StatusLine(200, ""))] + ([Header(0, ContentLength(|data|))] + PlainRest(data)))
  }

  /** The only part once it has been received, while its transfer is open or closed. */
  function Received(data: Bytes, status: Status, conn: Connection, active: int): Task {
    var n := |data|;
    Probing(200, n, n).(probing := false, file := data, parts := [Part(0, 0, n - 1, n, n, status, NoReason)],
                        contexts := [PartContext(0, true, n, 200, conn)],
                        loop := NEW_TASK.loop.(spawned := 1, active := active, connections := 1))
  }

  lemma PlainBody(cfg: Config, data: Bytes)
    requires |data| > 0
    ensures OnBody(cfg, Probing(200, -1, |data|), 0, data, GOOD_DISK)
            == Received(data, Downloading, Open(0, PROBE_WINDOW - 1, NoCondition, 200, "", "", "", |data|, false), 1)
  {
    var t := Probing(200, -1, |data|);
    var t1 := FinalizeProbing(cfg, t, 0, true);
    assert t1 == SingleStream(CreateFile(t, 0));
    assert WriteResult(cfg, t, 0, data, GOOD_DISK) == WriteIntoPart(t1, 0, data, Written);
    assert data[..|data|] == data && WriteAt(Zeros(|data|), 0, data) == data;
  }

  lemma PlainEnd(cfg: Config, data: Bytes)
    requires |data| > 0
    ensures var conn := Open(0, PROBE_WINDOW - 1, NoCondition, 200, "", "", "", |data|, false);
            OnFinished(cfg, Received(data, Downloading, conn, 1), 0, TransferOk, true)
            == Received(data, Completed, Closed, 0)
  {
    var t0 := Received(data, Downloading, Closed, 1);
    assert PartResult(cfg, t0, 0, TransferOk, 200) == Verdict(Received(data, Completed, Closed, 1), false);
  }

  lemma PlainSettles(data: Bytes, t: Task)
    requires t == Left(Received(data, Completed, Closed, 0))
    ensures Settled(t).status == Completed && Settled(t).file == data
  {
    assert forall p :: p in t.parts ==> p.status == Completed;
  }

  /** `UnrollHonest` for a run that is also uncut. */
  lemma UnrollUncut(sv: Server, cfg: Config, t: Task, e: Event, next: Task, rest: seq<Event>)
    requires WellFormed(t) && Legal(t, e) && Step(cfg, t, e) == next && LegalRun(cfg, next, rest)
    requires Honest(sv, t, e) && HonestRun(sv, cfg, next, rest)
    requires TrueRange(sv, t, e) && TrueLength(sv, t, e) && Uncut(sv, t, e) && OwnLength(t, e, 0)
    requires Carried(t, e, 0) == 0 && UncutRun(sv, cfg, next, 0, rest)
    ensures LegalRun(cfg, t, [e] + rest) && HonestRun(sv, cfg, t, [e] + rest) && UncutRun(sv, cfg, t, 0, [e] + rest)
    ensures Replay(cfg, t, [e] + rest) == Replay(cfg, next, rest)
  {
    assert ([e] + rest)[1..] == rest;
  }

  function PlainRest(data: Bytes): seq<Event> {
    [Body(0, data, GOOD_DISK)] + ([Finished(0, TransferOk, true)] + ([LeaveLoop] + ([Settle] + [])))
  }

  lemma PlainRestCompletes(sv: Server, cfg: Config, data: Bytes)
    requires |data| > 0 && sv.kind == Unvalidated && sv.repr("") == data
    ensures var t, run := Probing(200, -1, |data|), PlainRest(data);
            && LegalRun(cfg, t, run) && HonestRun(sv, cfg, t, run) && UncutRun(sv, cfg, t, 0, run)
            && Replay(cfg, t, run) == Settled(Left(Received(data, Completed, Closed, 0)))
  {
    var n := |data|;
    var r6: seq<Event> := [Settle] + [];
    var r5 := [LeaveLoop] + r6;
    var r4 := [Finished(0, TransferOk, true)] + r5;
    var received := Received(data, Downloading, Open(0, PROBE_WINDOW - 1, NoCondition, 200, "", "", "", n, false), 1);
    var ended := Received(data, Completed, Closed, 0);
    UnrollUncut(sv, cfg, Left(ended), Settle, Settled(Left(ended)), []);
    UnrollUncut(sv, cfg, ended, LeaveLoop, Left(ended), r6);
    PlainEnd(cfg, data);
    UnrollUncut(sv, cfg, received, Finished(0, TransferOk, true), ended, r5);
    PlainBody(cfg, data);
    assert data[0..n] == data;
    UnrollUncut(sv, cfg, Probing(200, -1, n), Body(0, data, GOOD_DISK), received, r4);
  }

  /** The assumptions of the theorems can be met: every non-empty file, sent plainly, is downloaded. */
  lemma PlainDownloadCompletes(sv: Server, cfg: Config, data: Bytes)
    requires |data| > 0 && sv.kind == Unvalidated && sv.repr("") == data
    ensures var run := PlainDownload(data);
            && LegalRun(cfg, NEW_TASK, run) && HonestRun(sv, cfg, NEW_TASK, run) && UncutRun(sv, cfg, NEW_TASK, 0, run)
    ensures var t := Replay(cfg, NEW_TASK, PlainDownload(data)); t.status == Completed && t.file == data
  {
    var n := |data|;
    var r2 := [Header(0, ContentLength(n))] + PlainRest(data);
    var r1 := [Header(0, StatusLine(200, ""))] + r2;
    PlainSettles(data, Left(Received(data, Completed, Closed, 0)));
    PlainRestCompletes(sv, cfg, data);
    ProbeLength(cfg, 200, 0, n);
    UnrollUncut(sv, cfg, Probing(200, -1, 0), Header(0, ContentLength(n)), Probing(200, -1, n), PlainRest(data));
    ProbeStatus(cfg, 0, 0, 200);
    UnrollUncut(sv, cfg, Probing(0, -1, 0), Header(0, StatusLine(200, "")), Probing(200, -1, 0), r2);
    SpawnProbe(cfg);
    UnrollUncut(sv, cfg, NEW_TASK, Spawn(true), Probing(0, -1, 0), r1);
  }

  // ---------------------------------------------------------------- a response that is cut off

  /** A probe of a server with entity tags: on its first connection, or, once the first was lost, on its second. */
  function Tagged(retries: nat, total: int, etag: string, code: int, rep: string, tag: string, seen: int): Task {
    var conn := Open(0, PROBE_WINDOW - 1, NoCondition, code, rep, tag, "", 0, false);
    NEW_TASK.(contexts := [PartContext(retries, true, seen, code, conn)], total := total, etag := etag,
              loop := NEW_TASK.loop.(spawned := 1, active := 1, connections := 1 + retries))
  }

  /** Version "a" gives its total and is lost before it gives its name; then version "b" is sent in full. */
  function CutOffProbe(total: int, data: Bytes): seq<Event> {
    [Spawn(true)] + ([Header(0, StatusLine(206, "a"))] + ([Header(0, ContentRange(total))] +
    ([Finished(0, Transient, true)] + AnotherVersion(data))))
  }

  function AnotherVersion(data: Bytes): seq<Event> {
    [Header(0, StatusLine(200, "b"))] + ([Header(0, ETag("b"))] + ([Header(0, ContentLength(|data|))] + Sent(data)))
  }

  function Sent(data: Bytes): seq<Event> {
    [Body(0, data, GOOD_DISK)] + ([Finished(0, CallbackRefused, true)] + ([LeaveLoop] + ([Settle] + [])))
  }

  /** The part the remembered total makes: full after `total` bytes, with the transfer cut or over. */
  function Shortened(total: int, data: Bytes, status: Status, conn: Connection, active: int): Task
    requires 0 < total <= |data|
  {
    Tagged(1, total, "b", 200, "b", "b", |data|)
      .(probing := false, file := data[..total],
        parts := [Part(0, 0, total - 1, total, total, status, NoReason)],
        contexts := [PartContext(1, true, |data|, 200, conn)],
        loop := NEW_TASK.loop.(spawned := 1, active := active, connections := 2))
  }

  lemma LostProbe(cfg: Config, total: int)
    requires cfg.maxRetries >= 1
    ensures Step(cfg, Tagged(0, total, "", 206, "a", "", total), Finished(0, Transient, true))
            == Tagged(1, total, "", 0, "", "", 0)
  {
    var t0 := WithConnection(Tagged(0, total, "", 206, "a", "", total), 0, Closed);
    assert PartResult(cfg, t0, 0, Transient, 206)
        == Verdict(WithContext(t0, 0, t0.contexts[0].(retries := 1)), true);
  }

  function Refused(len: nat): Connection {
    Open(0, PROBE_WINDOW - 1, NoCondition, 200, "b", "b", "", len, true)
  }

  lemma ShortBody(cfg: Config, total: int, data: Bytes)
    requires 0 < total < |data|
    ensures OnBody(cfg, Tagged(1, total, "b", 200, "b", "b", |data|), 0, data, GOOD_DISK)
            == Shortened(total, data, Downloading, Refused(|data|), 1)
  {
    var t := Tagged(1, total, "b", 200, "b", "b", |data|);
    var t1 := FinalizeProbing(cfg, t, 0, true);
    assert t1 == SingleStream(CreateFile(t, 0));
    assert WriteResult(cfg, t, 0, data, GOOD_DISK) == WriteIntoPart(t1, 0, data, Written);
    assert WriteAt(Zeros(total), 0, data[..total]) == data[..total];
  }

  lemma ShortEnd(cfg: Config, total: int, data: Bytes)
    requires 0 < total < |data|
    ensures OnFinished(cfg, Shortened(total, data, Downloading, Refused(|data|), 1), 0, CallbackRefused, true)
            == Shortened(total, data, Completed, Closed, 0)
  {
    var t0 := Shortened(total, data, Downloading, Closed, 1);
    assert PartResult(cfg, t0, 0, CallbackRefused, 200)
        == Verdict(Shortened(total, data, Completed, Closed, 1), false);
  }

  lemma ShortSettles(total: int, data: Bytes)
    requires 0 < total < |data|
    ensures var t := Settled(Left(Shortened(total, data, Completed, Closed, 0)));
            t.status == Completed && t.file == data[..total] && t.etag == "b"
  {
    var t := Left(Shortened(total, data, Completed, Closed, 0));
    assert forall p :: p in t.parts ==> p.status == Completed;
  }

  lemma SentCompletes(sv: Server, cfg: Config, total: int, data: Bytes)
    requires sv.kind == ByEntityTag && sv.repr("b") == data && 0 < total < |data|
    ensures var t, run := Tagged(1, total, "b", 200, "b", "b", |data|), Sent(data);
            && LegalRun(cfg, t, run) && HonestRun(sv, cfg, t, run)
            && Replay(cfg, t, run) == Settled(Left(Shortened(total, data, Completed, Closed, 0)))
  {
    var m := |data|;
    var r6: seq<Event> := [Settle] + [];
    var r5 := [LeaveLoop] + r6;
    var r4 := [Finished(0, CallbackRefused, true)] + r5;
    var full := Shortened(total, data, Downloading, Refused(m), 1);
    var ended := Shortened(total, data, Completed, Closed, 0);
    UnrollHonest(sv, cfg, Left(ended), Settle, Settled(Left(ended)), []);
    UnrollHonest(sv, cfg, ended, LeaveLoop, Left(ended), r6);
    ShortEnd(cfg, total, data);
    UnrollHonest(sv, cfg, full, Finished(0, CallbackRefused, true), ended, r5);
    ShortBody(cfg, total, data);
    assert data[0..m] == data;
    UnrollHonest(sv, cfg, Tagged(1, total, "b", 200, "b", "b", m), Body(0, data, GOOD_DISK), full, r4);
  }

  lemma NewVersionHeaders(cfg: Config, total: int, length: int)
    requires total > 0 && length > 0
    ensures Step(cfg, Tagged(1, total, "", 0, "", "", 0), Header(0, StatusLine(200, "b")))
            == Tagged(1, total, "", 200, "b", "", 0)
    ensures Step(cfg, Tagged(1, total, "", 200, "b", "", 0), Header(0, ETag("b")))
            == Tagged(1, total, "b", 200, "b", "b", 0)
    ensures Step(cfg, Tagged(1, total, "b", 200, "b", "b", 0), Header(0, ContentLength(length)))
            == Tagged(1, total, "b", 200, "b", "b", length)
  {
  }

  lemma AnotherVersionCompletes(sv: Server, cfg: Config, total: int, data: Bytes)
    requires sv.kind == ByEntityTag && sv.repr("b") == data && 0 < total < |data|
    ensures var t, run := Tagged(1, total, "", 0, "", "", 0), AnotherVersion(data);
            && LegalRun(cfg, t, run) && HonestRun(sv, cfg, t, run)
            && Replay(cfg, t, run) == Settled(Left(Shortened(total, data, Completed, Closed, 0)))
  {
    var m := |data|;
    var r2 := [Header(0, ContentLength(m))] + Sent(data);
    var r1 := [Header(0, ETag("b"))] + r2;
    SentCompletes(sv, cfg, total, data);
    NewVersionHeaders(cfg, total, m);
    UnrollHonest(sv, cfg, Tagged(1, total, "b", 200, "b", "b", 0), Header(0, ContentLength(m)),
                 Tagged(1, total, "b", 200, "b", "b", m), Sent(data));
    UnrollHonest(sv, cfg, Tagged(1, total, "", 200, "b", "", 0), Header(0, ETag("b")),
                 Tagged(1, total, "b", 200, "b", "b", 0), r2);
    UnrollHonest(sv, cfg, Tagged(1, total, "", 0, "", "", 0), Header(0, StatusLine(200, "b")),
                 Tagged(1, total, "", 200, "b", "", 0), r1);
  }

  /** A total outlives the response that gave it, also when that response is lost before it names its version. If the
      resource then changes and is sent in full without a Content-Range, nothing compares the two: the file is cut to
      the old length, and the task reports Completed. */
  lemma CutOffTotalWins(sv: Server, cfg: Config, data: Bytes)
    requires cfg.maxRetries >= 1 && sv.kind == ByEntityTag
    requires sv.repr("b") == data && 0 < |sv.repr("a")| < |data|
    ensures var total := |sv.repr("a")|;
            var run := CutOffProbe(total, data);
            && LegalRun(cfg, NEW_TASK, run) && HonestRun(sv, cfg, NEW_TASK, run)
            && var t := Replay(cfg, NEW_TASK, run);
               t.status == Completed && Sized(t) && t.total == total && t.file == data[..total]
               && Resource(sv, t) == data && t.file != Resource(sv, t)
  {
    var total := |sv.repr("a")|;
    var r3 := AnotherVersion(data);
    var r2 := [Finished(0, Transient, true)] + r3;
    var r1 := [Header(0, ContentRange(total))] + r2;
    var r0 := [Header(0, StatusLine(206, "a"))] + r1;
    AnotherVersionCompletes(sv, cfg, total, data);
    ShortSettles(total, data);
    LostProbe(cfg, total);
    UnrollHonest(sv, cfg, Tagged(0, total, "", 206, "a", "", total), Finished(0, Transient, true),
                 Tagged(1, total, "", 0, "", "", 0), r3);
    UnrollHonest(sv, cfg, Tagged(0, -1, "", 206, "a", "", 0), Header(0, ContentRange(total)),
                 Tagged(0, total, "", 206, "a", "", total), r2);
    UnrollHonest(sv, cfg, Probing(0, -1, 0), Header(0, StatusLine(206, "a")), Tagged(0, -1, "", 206, "a", "", 0), r1);
    SpawnProbe(cfg);
    UnrollHonest(sv, cfg, NEW_TASK, Spawn(true), Probing(0, -1, 0), r0);
  }

  // ---------------------------------------------------------------- an empty answer

  /** For every probing task: the end of its transfer completes it, without a file, if and only if the transfer ended
      well, under whatever success code. For an empty file under 200 that is right; for a 206 it is not. */
  lemma EmptyProbeExactly(cfg: Config, t: Task, rc: TransferResult, built: bool)
    requires Shape(t) && t.probing && Legal(t, Finished(0, rc, built)) && t.parts[0].status == Downloading
    requires !t.loop.pauseRequested && !t.loop.cancelRequested
    ensures var r := OnFinished(cfg, t, 0, rc, built);
            && r.probing && r.file == []
            && (r.parts[0].status == Completed <==> IsSuccess(rc, t.contexts[0].conn.code))
  {
    FinishedForm(cfg, t, 0, rc, built);
    var t0, code := WithConnection(t, 0, Closed), t.contexts[0].conn.code;
    VerdictExactly(cfg, t0, 0, rc, code);
    PartResultFrame(cfg, t0, 0, rc, code);
    assert PartResult(cfg, t0, 0, rc, code).task.file == [] && PartResult(cfg, t0, 0, rc, code).task.probing;
  }

  lemma ProbeTotal(cfg: Config, total: int)
    requires total > 0
    ensures Step(cfg, Probing(206, -1, 0), Header(0, ContentRange(total))) == Probing(206, total, total)
  {
  }

  /** The probe ended in success without a body byte. */
  function EmptyProbe(total: int): seq<Event> {
    [Spawn(true)] + ([Header(0, StatusLine(206, ""))] + ([Header(0, ContentRange(total))] +
    ([Finished(0, TransferOk, true)] + ([LeaveLoop] + ([Settle] + [])))))
  }

  lemma EmptyProbeEnds(cfg: Config, total: int)
    requires total > 0
    ensures Step(cfg, Probing(206, total, total), Finished(0, TransferOk, true))
            == WithActive(Probing(206, total, total).(parts := [FIRST_PART.(status := Completed)],
                                                      contexts := [Probe(206, total, 0, false).(conn := Closed)]), 0)
  {
    var t0 := WithConnection(Probing(206, total, total), 0, Closed);
    var v := PartResult(cfg, t0, 0, TransferOk, 206);
    assert v == Verdict(t0.(parts := [FIRST_PART.(status := Completed)]), false);
  }

  lemma OnlyPartSettles(t: Task)
    requires t.parts == [FIRST_PART.(status := Completed)] && t.status == Downloading
    ensures Settled(t).status == Completed
  {
    assert forall p :: p in t.parts ==> p == FIRST_PART.(status := Completed);
  }

  /** A part of unknown length completes whenever its transfer ends well, even before the file was created: a
      probe answered with an empty body gives a Completed task of positive length and no file. */
  lemma EmptyProbeCompletes(cfg: Config, total: int)
    requires total > 0
    ensures LegalRun(cfg, NEW_TASK, EmptyProbe(total))
    ensures var t := Replay(cfg, NEW_TASK, EmptyProbe(total));
            t.status == Completed && t.total == total && t.file == [] && t.probing
  {
    var open := Probing(206, total, total);
    EmptyProbeEnds(cfg, total);
    var ended := Step(cfg, open, Finished(0, TransferOk, true));
    var left := Step(cfg, ended, LeaveLoop);
    OnlyPartSettles(left);
    var r5: seq<Event> := [Settle] + [];
    var r4 := [LeaveLoop] + r5;
    var r3 := [Finished(0, TransferOk, true)] + r4;
    var r2 := [Header(0, ContentRange(total))] + r3;
    var r1 := [Header(0, StatusLine(206, ""))] + r2;
    Unroll(cfg, left, Settle, Settled(left), []);
    Unroll(cfg, ended, LeaveLoop, left, r5);
    Unroll(cfg, open, Finished(0, TransferOk, true), ended, r4);
    ProbeTotal(cfg, total);
    Unroll(cfg, Probing(206, -1, 0), Header(0, ContentRange(total)), open, r3);
    ProbeStatus(cfg, 0, 0, 206);
    Unroll(cfg, Probing(0, -1, 0), Header(0, StatusLine(206, "")), Probing(206, -1, 0), r2);
    SpawnProbe(cfg);
    Unroll(cfg, NEW_TASK, Spawn(true), Probing(0, -1, 0), r1);
  }
}
