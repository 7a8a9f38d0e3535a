/**
  That a download can be completed: from every state that honest runs reach, failed or stopped ones included, the
  next process life can end with the whole resource, by way of the stored record or of a new probe.
*/
module DownloadCompletion {
  import opened SplitPlan
  import opened DownloadModel
  import opened DownloadInvariant
  import opened DownloadTheorems
  import opened DownloadLengths
  import opened DownloadLimits
  import opened DownloadBehaviour

  lemma {:induction false} HonestConcat(sv: Server, cfg: Config, t: Task, run: seq<Event>, more: seq<Event>)
    requires WellFormed(t) && LegalRun(cfg, t, run) && HonestRun(sv, cfg, t, run)
    requires LegalRun(cfg, Replay(cfg, t, run), more) && HonestRun(sv, cfg, Replay(cfg, t, run), more)
    ensures LegalRun(cfg, t, run + more) && HonestRun(sv, cfg, t, run + more)
    ensures Replay(cfg, t, run + more) == Replay(cfg, Replay(cfg, t, run), more)
    decreases |run|
  {
    if run == [] {
      assert run + more == more;
    } else {
      assert (run + more)[0] == run[0] && (run + more)[1..] == run[1..] + more;
      HonestConcat(sv, cfg, Step(cfg, t, run[0]), run[1..], more);
    }
  }

  // ---------------------------------------------------------------- one part after the other

  /** Parts below `n` are complete, nothing is live, and nothing stands in the way of the others. */
  ghost predicate Ready(sv: Server, t: Task, n: nat) {
    && Inv(sv, t) && LengthInv(sv, t) && !t.probing && t.status == Downloading
    && !t.loop.pauseRequested && !t.loop.cancelRequested && !t.loop.left
    && n == t.loop.spawned <= |t.contexts|
    && (forall j :: 0 <= j < |t.contexts| ==> t.contexts[j].conn.Closed?)
    && (forall j :: 0 <= j < n ==> t.parts[j].status == Completed)
    && (forall j :: n <= j < |t.parts| ==> t.parts[j].status == Completed || t.parts[j].status == Downloading)
    && (!Sized(t) ==> if n == 0 then t.parts[0].status == Downloading else t.parts[0].done == |Resource(sv, t)|)
  }

  /** The line that names a version. */
  function Naming(sv: Server, rep: string): HeaderLine {
    match sv.kind
    case ByEntityTag => ETag(rep)
    case ByDate => LastModified(rep)
    case Unvalidated => OtherLine
  }

  /** A server may answer a conditional request without naming the version again when the condition names it: by entity
      tag, or by date when the task knows no tag. Without validators there is nothing to name. */
  predicate MayBeTerse(sv: Server, t: Task) {
    sv.kind == ByDate ==> t.etag == ""
  }

  /** No response of the run names its version. */
  predicate Terse(run: seq<Event>) {
    forall e :: e in run && e.Header? ==> e.line.StatusLine?
  }

  /** The response carries the version of the task, and a client can tell. */
  predicate KnownVersion(sv: Server, conn: Connection)
    requires conn.Open?
  {
    Validated(sv, conn) || AsAsked(sv, conn)
  }

  /** Only the transfer of part `n` has changed, and it goes on. */
  predicate OnlyTransfer(t: Task, r: Task, n: nat) {
    && |r.contexts| == |t.contexts| && n < |t.contexts| && r == t.(contexts := t.contexts[n := r.contexts[n]])
    && r.contexts[n].conn.Open? && !r.contexts[n].conn.aborted
  }

  /** A 206 for the version of the task begins and names it. */
  lemma HeadersAccepted(sv: Server, t: Task, n: nat)
    requires WellFormed(t) && n < |t.parts| && KeyKnown(sv, t) && t.status != Failed && !t.loop.cancelRequested
    requires t.contexts[n].conn.Open? && !t.contexts[n].conn.aborted && t.contexts[n].conn.received == 0
    ensures var rep := Key(sv, t);
            var t1 := OnHeader(t, n, StatusLine(206, rep));
            var t2 := OnHeader(t1, n, Naming(sv, rep));
            && OnlyTransfer(t, t1, n) && OnlyTransfer(t, t2, n)
            && t1.contexts[n].conn.rep == rep && t2.contexts[n].conn.rep == rep
            && t2.contexts[n].conn.code == 206 && t2.contexts[n].conn.received == 0
            && t2.contexts[n].conn.from == t.contexts[n].conn.from
            && t2.contexts[n].probeWindow == t.contexts[n].probeWindow && Validated(sv, t2.contexts[n].conn)
            && t1.contexts[n].conn.code == 206 && t1.contexts[n].conn.received == 0
            && t1.contexts[n].probeWindow == t.contexts[n].probeWindow
            && (InsistsOnVersion(t, t.contexts[n].conn) && MayBeTerse(sv, t) ==> KnownVersion(sv, t1.contexts[n].conn))
  {
    var rep := Key(sv, t);
    var c := t.contexts[n];
    var c1 := c.(seenCode := 206, conn := c.conn.(code := 206, rep := rep, tag := "", date := ""));
    assert OnHeader(t, n, StatusLine(206, rep)) == WithContext(t, n, c1);
  }

  /** Where a part ends: at its own end, or, without a known length, at that of the resource. */
  function PartEnd(sv: Server, t: Task, n: nat): int
    requires WellFormed(t) && n < |t.parts|
  {
    if Sized(t) then t.parts[n].end + 1 else |Resource(sv, t)|
  }

  /** The bytes a part still lacks. */
  function Lacking(sv: Server, t: Task, n: nat): Bytes
    requires WellFormed(t) && n < |t.parts|
  {
    var from, to := t.parts[n].start + t.parts[n].done, PartEnd(sv, t, n);
    if 0 <= from <= to <= |Resource(sv, t)| then Resource(sv, t)[from..to] else []
  }

  lemma LackingBounds(sv: Server, t: Task, n: nat)
    requires Inv(sv, t) && LengthInv(sv, t) && !t.probing && n < |t.parts|
    ensures var p := t.parts[n];
            && 0 <= p.start + p.done <= PartEnd(sv, t, n) <= |Resource(sv, t)|
            && (Sized(t) ==> p.size == p.end + 1 - p.start > 0)
            && (!Sized(t) ==> n == 0 && p.start == 0 && (p.size == 0 || p.status == Completed))
  {
    if Sized(t) {
      assert PartOnDisk(t.file, Resource(sv, t), t.parts[n]);
      PartitionBounds(Intervals(t.parts), t.total, n);
      assert Intervals(t.parts)[n] == t.parts[n].Interval();
    }
  }

  /** Apart from part `n` and its transfer, all that decides the rest of the download is as before. */
  predicate OnlyPart(t: Task, r: Task, n: nat, p: Part) {
    && n < |t.parts| && n < |t.contexts| == |r.contexts| && r.parts == t.parts[n := p]
    && (forall j :: 0 <= j < |t.contexts| && j != n ==> r.contexts[j] == t.contexts[j])
    && r.status == t.status && r.probing == t.probing && r.etag == t.etag && r.lastModified == t.lastModified
    && r.loop == t.loop.(active := r.loop.active, connections := r.loop.connections, spawned := r.loop.spawned)
  }

  /** The whole of what is lacking arrives, and is written. */
  lemma RestWritten(sv: Server, cfg: Config, t: Task, n: nat)
    requires Inv(sv, t) && LengthInv(sv, t) && !t.probing && n < |t.parts| && t.parts[n].status == Downloading
    requires t.contexts[n].conn.Open? && t.status != Failed && !t.loop.pauseRequested && !t.loop.cancelRequested
    requires Lacking(sv, t, n) != []
    ensures var data, p := Lacking(sv, t, n), t.parts[n];
            var r := OnBody(cfg, t, n, data, GOOD_DISK);
            && OnlyPart(t, r, n, p.(done := PartEnd(sv, t, n) - p.start)) && r.loop == t.loop
            && r.contexts[n].conn.Open? && !r.contexts[n].conn.aborted
            && r.contexts[n].conn.code == t.contexts[n].conn.code
            && r.contexts[n].probeWindow == t.contexts[n].probeWindow
  {
    LackingBounds(sv, t, n);
    var data := Lacking(sv, t, n);
    assert WriteResult(cfg, t, n, data, GOOD_DISK) == WriteIntoPart(t, n, data, Written);
  }

  /** Then the transfer ends well, and the part is complete. */
  lemma PartEnds(cfg: Config, t: Task, n: nat)
    requires WellFormed(t) && n < |t.parts| && t.parts[n].status == Downloading
    requires t.parts[n].size > 0 ==> t.parts[n].done >= t.parts[n].size
    requires t.contexts[n].conn.Open? && t.contexts[n].conn.code == 206 && !t.contexts[n].probeWindow
    requires !t.loop.pauseRequested && !t.loop.cancelRequested
    ensures var p := t.parts[n];
            var r := OnFinished(cfg, t, n, TransferOk, true);
            && OnlyPart(t, r, n, p.(status := Completed, reason := NoReason,
                                    size := if p.size > 0 then p.size else p.done))
            && r.loop.spawned == t.loop.spawned && r.contexts[n].conn.Closed?
  {
    FinishedForm(cfg, t, n, TransferOk, true);
  }

  // ---------------------------------------------------------------- a part in one go

  lemma OneStep(sv: Server, cfg: Config, t: Task, run: seq<Event>, e: Event)
    requires WellFormed(t) && LegalRun(cfg, t, run) && HonestRun(sv, cfg, t, run)
    requires Legal(Replay(cfg, t, run), e) && Honest(sv, Replay(cfg, t, run), e)
    ensures LegalRun(cfg, t, run + [e]) && HonestRun(sv, cfg, t, run + [e])
    ensures Replay(cfg, t, run + [e]) == Step(cfg, Replay(cfg, t, run), e)
  {
    assert [e][1..] == [];
    HonestConcat(sv, cfg, t, run, [e]);
  }

  /** The run is honest and leads from `t` to `r`. */
  predicate Leads(sv: Server, cfg: Config, t: Task, run: seq<Event>, r: Task) {
    WellFormed(t) && LegalRun(cfg, t, run) && HonestRun(sv, cfg, t, run) && Replay(cfg, t, run) == r
  }

  lemma NextStep(sv: Server, cfg: Config, t: Task, run: seq<Event>, r: Task, e: Event) returns (more: seq<Event>)
    requires Leads(sv, cfg, t, run, r) && WellFormed(r) && Legal(r, e) && Honest(sv, r, e)
    ensures more == run + [e] && Leads(sv, cfg, t, more, Step(cfg, r, e))
  {
    OneStep(sv, cfg, t, run, e);
    more := run + [e];
  }

  /** The transfer has been answered, and its part waits for the bytes it lacks. */
  ghost predicate Answered(sv: Server, t: Task, r: Task, n: nat) {
    && Inv(sv, r) && LengthInv(sv, r) && n < |t.parts| && OnlyPart(t, r, n, t.parts[n])
    && r.loop.spawned == n + 1 && r.total == t.total
    && r.contexts[n].conn.Open? && !r.contexts[n].conn.aborted && r.contexts[n].conn.code == 206
    && !r.contexts[n].probeWindow && KnownVersion(sv, r.contexts[n].conn) && r.contexts[n].conn.rep == Key(sv, t)
    && r.contexts[n].conn.received == 0
  }

  /** A part is asked for and answered by a 206, which names the version or, if it is terse, relies on the request. */
  lemma PartAnswered(sv: Server, cfg: Config, t: Task, n: nat, terse: bool) returns (run: seq<Event>, r: Task)
    requires ValidConfig(cfg) && Ready(sv, t, n) && n < |t.parts| && t.parts[n].status == Downloading
    requires terse ==> MayBeTerse(sv, t)
    ensures Leads(sv, cfg, t, run, r) && Answered(sv, t, r, n) && (terse ==> Terse(run))
  {
    var t1 := SpawnNext(t, true);
    SpawnForm(t, true);
    StepKeeps(sv, cfg, t, Spawn(true));
    StepKeepsLength(sv, cfg, t, Spawn(true));
    assert OnlyPart(t, t1, n, t.parts[n]);
    RequestExactly(cfg, t, Spawn(true));
    run := NextStep(sv, cfg, t, [], t, Spawn(true));
    run, r := HeadersHeard(sv, cfg, t, run, t1, n, terse);
  }

  lemma HeadersHeard(sv: Server, cfg: Config, t: Task, before: seq<Event>, t1: Task, n: nat, terse: bool)
    returns (run: seq<Event>, r: Task)
    requires ValidConfig(cfg) && Inv(sv, t1) && LengthInv(sv, t1) && !t1.probing && Leads(sv, cfg, t, before, t1)
    requires WellFormed(t1) && n < |t1.parts| && t1.status != Failed && !t1.loop.cancelRequested
    requires t1.contexts[n].conn.Open? && !t1.contexts[n].conn.aborted && t1.contexts[n].conn.received == 0
    requires terse ==> Terse(before) && MayBeTerse(sv, t1) && InsistsOnVersion(t1, t1.contexts[n].conn)
    ensures Leads(sv, cfg, t, run, r) && Inv(sv, r) && LengthInv(sv, r) && OnlyTransfer(t1, r, n)
    ensures terse ==> Terse(run)
    ensures var conn := r.contexts[n].conn;
            conn.code == 206 && conn.rep == Key(sv, t1) && conn.received == 0 && KnownVersion(sv, conn)
    ensures r.contexts[n].probeWindow == t1.contexts[n].probeWindow
  {
    var rep := Key(sv, t1);
    var first, second := Header(n, StatusLine(206, rep)), Header(n, Naming(sv, rep));
    HeadersAccepted(sv, t1, n);
    var t2 := Step(cfg, t1, first);
    StepKeeps(sv, cfg, t1, first);
    StepKeepsLength(sv, cfg, t1, first);
    run := NextStep(sv, cfg, t, before, t1, first);
    r := t2;
    if !terse {
      StepKeeps(sv, cfg, t2, second);
      StepKeepsLength(sv, cfg, t2, second);
      run := NextStep(sv, cfg, t, run, t2, second);
      r := Step(cfg, t2, second);
    }
  }

  /** The part has all its bytes, and its transfer is about to end. */
  ghost predicate Received(sv: Server, t: Task, r: Task, n: nat) {
    && Inv(sv, r) && LengthInv(sv, r) && WellFormed(t) && n < |t.parts| && r.loop.spawned == n + 1
    && OnlyPart(t, r, n, t.parts[n].(done := PartEnd(sv, t, n) - t.parts[n].start))
    && r.contexts[n].conn.Open? && !r.contexts[n].conn.aborted
    && r.contexts[n].conn.code == 206 && !r.contexts[n].probeWindow
  }

  /** An answered part receives what it lacks. */
  lemma PartReceived(sv: Server, cfg: Config, t: Task, before: seq<Event>, t1: Task, n: nat)
    returns (run: seq<Event>, r: Task)
    requires ValidConfig(cfg) && Ready(sv, t, n) && Leads(sv, cfg, t, before, t1) && Answered(sv, t, t1, n)
    requires t.parts[n].status == Downloading
    ensures Leads(sv, cfg, t, run, r) && Received(sv, t, r, n) && (Terse(before) ==> Terse(run))
  {
    if Lacking(sv, t1, n) == [] {
      run, r := before, t1;
      NothingLacking(sv, t, t1, n);
    } else {
      var e := Body(n, Lacking(sv, t1, n), GOOD_DISK);
      SomethingLacking(sv, cfg, t, t1, n);
      run := NextStep(sv, cfg, t, before, t1, e);
      r := Step(cfg, t1, e);
    }
  }

  lemma NothingLacking(sv: Server, t: Task, t1: Task, n: nat)
    requires Ready(sv, t, n) && Answered(sv, t, t1, n) && Lacking(sv, t1, n) == []
    ensures Received(sv, t, t1, n)
  {
    SameEnds(sv, t, t1, n);
    LackingBounds(sv, t1, n);
    assert t1.parts[n].(done := PartEnd(sv, t, n) - t.parts[n].start) == t1.parts[n];
  }

  lemma SomethingLacking(sv: Server, cfg: Config, t: Task, t1: Task, n: nat)
    requires ValidConfig(cfg) && Ready(sv, t, n) && Answered(sv, t, t1, n) && Lacking(sv, t1, n) != []
    requires t.parts[n].status == Downloading
    ensures var e := Body(n, Lacking(sv, t1, n), GOOD_DISK);
            Legal(t1, e) && Honest(sv, t1, e) && Received(sv, t, Step(cfg, t1, e), n)
  {
    SameEnds(sv, t, t1, n);
    RestReceived(sv, cfg, t1, n);
    var r := Step(cfg, t1, Body(n, Lacking(sv, t1, n), GOOD_DISK));
    OnlyPartTwice(t, t1, r, n, t1.parts[n].(done := PartEnd(sv, t1, n) - t1.parts[n].start));
  }

  lemma RestReceived(sv: Server, cfg: Config, t: Task, n: nat)
    requires ValidConfig(cfg) && Inv(sv, t) && LengthInv(sv, t) && !t.probing && n < |t.parts|
    requires t.parts[n].status == Downloading && t.status != Failed
    requires !t.loop.pauseRequested && !t.loop.cancelRequested
    requires t.contexts[n].conn.Open? && !t.contexts[n].conn.aborted && t.contexts[n].conn.code == 206
    requires KnownVersion(sv, t.contexts[n].conn) && t.contexts[n].conn.rep == Key(sv, t)
    requires Lacking(sv, t, n) != [] && !t.contexts[n].probeWindow
    ensures var e := Body(n, Lacking(sv, t, n), GOOD_DISK);
            && Legal(t, e) && Honest(sv, t, e)
            && var r := Step(cfg, t, e);
               && Inv(sv, r) && LengthInv(sv, r) && r.loop == t.loop
               && OnlyPart(t, r, n, t.parts[n].(done := PartEnd(sv, t, n) - t.parts[n].start))
               && r.contexts[n].conn.Open? && !r.contexts[n].conn.aborted && r.contexts[n].conn.code == 206
               && !r.contexts[n].probeWindow
  {
    var e := Body(n, Lacking(sv, t, n), GOOD_DISK);
    LackingIsHonest(sv, t, n);
    RestWritten(sv, cfg, t, n);
    StepKeeps(sv, cfg, t, e);
    StepKeepsLength(sv, cfg, t, e);
  }

  lemma OnlyPartTwice(t: Task, t1: Task, r: Task, n: nat, p: Part)
    requires n < |t.parts| && OnlyPart(t, t1, n, t.parts[n]) && OnlyPart(t1, r, n, p)
    ensures OnlyPart(t, r, n, p)
  {
  }

  /** What the server sends is what it has promised. */
  lemma LackingIsHonest(sv: Server, t: Task, n: nat)
    requires Inv(sv, t) && LengthInv(sv, t) && !t.probing && n < |t.parts|
    requires t.contexts[n].conn.Open? && !t.contexts[n].conn.aborted && t.contexts[n].conn.code == 206
    requires KnownVersion(sv, t.contexts[n].conn) && t.contexts[n].conn.rep == Key(sv, t)
    ensures HonestBody(sv, t, n, Lacking(sv, t, n))
  {
    LackingBounds(sv, t, n);
    assert Aligned(sv, t, t.contexts[n], t.parts[n]);
  }

  lemma SameEnds(sv: Server, t: Task, r: Task, n: nat)
    requires WellFormed(t) && WellFormed(r) && n < |t.parts| && OnlyPart(t, r, n, t.parts[n])
    ensures Key(sv, r) == Key(sv, t) && Resource(sv, r) == Resource(sv, t) && (Sized(r) <==> Sized(t))
    ensures r.parts == t.parts
    ensures PartEnd(sv, r, n) == PartEnd(sv, t, n)
  {
  }

  /** From one part to the next, whether the server names the version again or not. */
  lemma PartCompletes(sv: Server, cfg: Config, t: Task, n: nat, terse: bool) returns (run: seq<Event>, r: Task)
    requires ValidConfig(cfg) && Ready(sv, t, n) && n < |t.parts| && (terse ==> MayBeTerse(sv, t))
    ensures Leads(sv, cfg, t, run, r) && Ready(sv, r, n + 1) && (terse ==> Terse(run))
    ensures |r.parts| == |t.parts| && Resource(sv, r) == Resource(sv, t) && r.etag == t.etag
  {
    if t.parts[n].status == Completed {
      SkipPart(sv, cfg, t, n);
      run, r := [Spawn(true)], Step(cfg, t, Spawn(true));
      assert Leads(sv, cfg, t, [], t);
      var more := NextStep(sv, cfg, t, [], t, Spawn(true));
    } else {
      var t1, t2;
      run, t1 := PartAnswered(sv, cfg, t, n, terse);
      run, t2 := PartReceived(sv, cfg, t, run, t1, n);
      PartIsDone(sv, cfg, t, t2, n);
      run := NextStep(sv, cfg, t, run, t2, Finished(n, TransferOk, true));
      r := Step(cfg, t2, Finished(n, TransferOk, true));
    }
  }

  lemma SkipPart(sv: Server, cfg: Config, t: Task, n: nat)
    requires ValidConfig(cfg) && Ready(sv, t, n) && n < |t.parts| && t.parts[n].status == Completed
    ensures Ready(sv, Step(cfg, t, Spawn(true)), n + 1)
  {
    StepKeeps(sv, cfg, t, Spawn(true));
    StepKeepsLength(sv, cfg, t, Spawn(true));
  }

  lemma PartIsDone(sv: Server, cfg: Config, t: Task, t2: Task, n: nat)
    requires ValidConfig(cfg) && Ready(sv, t, n) && n < |t.parts| && t.parts[n].status == Downloading
    requires Received(sv, t, t2, n)
    ensures var r := Step(cfg, t2, Finished(n, TransferOk, true));
            Ready(sv, r, n + 1) && |r.parts| == |t.parts| && Resource(sv, r) == Resource(sv, t) && r.etag == t.etag
  {
    var e := Finished(n, TransferOk, true);
    var r := Step(cfg, t2, e);
    LackingBounds(sv, t, n);
    PartEnds(cfg, t2, n);
    StepKeeps(sv, cfg, t2, e);
    StepKeepsLength(sv, cfg, t2, e);
  }

  // ---------------------------------------------------------------- all parts, and the verdict

  lemma {:induction false} PartsComplete(sv: Server, cfg: Config, t: Task, n: nat, terse: bool)
    returns (run: seq<Event>, r: Task)
    requires ValidConfig(cfg) && Ready(sv, t, n) && (terse ==> MayBeTerse(sv, t))
    ensures terse ==> Terse(run)
    ensures Leads(sv, cfg, t, run, r) && Ready(sv, r, |r.parts|) && Resource(sv, r) == Resource(sv, t)
    decreases |t.parts| - n
  {
    if n == |t.parts| {
      run, r := [], t;
    } else {
      var t1;
      run, t1 := PartCompletes(sv, cfg, t, n, terse);
      var more;
      more, r := PartsComplete(sv, cfg, t1, n + 1, terse);
      HonestConcat(sv, cfg, t, run, more);
      run := run + more;
    }
  }

  /** The download has ended well: the file is the resource. */
  predicate HoldsResource(sv: Server, t: Task) {
    t.status == Completed && t.file == Resource(sv, t)
  }

  lemma Concludes(sv: Server, cfg: Config, t: Task) returns (run: seq<Event>, r: Task)
    requires ValidConfig(cfg) && Ready(sv, t, |t.parts|)
    ensures Leads(sv, cfg, t, run, r) && HoldsResource(sv, r) && Resource(sv, r) == Resource(sv, t) && Terse(run)
  {
    var t1 := Step(cfg, t, LeaveLoop);
    r := Step(cfg, t1, Settle);
    assert Leads(sv, cfg, t, [], t);
    run := NextStep(sv, cfg, t, [], t, LeaveLoop);
    run := NextStep(sv, cfg, t, run, t1, Settle);
    StepKeeps(sv, cfg, t, LeaveLoop);
    AllCompleteSettles(t1);
    StepKeeps(sv, cfg, t1, Settle);
    InvGivesFile(sv, r);
    WholeFile(sv, r);
  }

  lemma AllCompleteSettles(t: Task)
    requires t.status == Downloading && forall i :: 0 <= i < |t.parts| ==> t.parts[i].status == Completed
    ensures Settled(t).status == Completed
  {
    assert forall p :: p in t.parts ==> p.status == Completed;
  }

  lemma WholeFile(sv: Server, t: Task)
    requires Inv(sv, t) && LengthInv(sv, t) && CompletedMeans(sv, t) && t.status == Completed && !t.probing
    requires !Sized(t) ==> t.parts[0].done == |Resource(sv, t)|
    ensures t.file == Resource(sv, t)
  {
    assert |t.file| == |Resource(sv, t)|;
  }

  // ---------------------------------------------------------------- a new process life

  /** A restart from the stored record is ready to go on. */
  lemma RestartIsReady(sv: Server, cfg: Config, t: Task)
    requires ValidConfig(cfg) && Inv(sv, t) && LengthInv(sv, t) && Resumable(t.saved)
    ensures Ready(sv, Step(cfg, t, Crash), 0) && Resource(sv, Step(cfg, t, Crash)) == Resource(sv, t)
  {
    StepKeeps(sv, cfg, t, Crash);
    StepKeepsLength(sv, cfg, t, Crash);
    RestartSameVersion(sv, t);
    DeserializeAt(t.saved.value.parts);
  }

  /** A download with a usable record can be killed at any moment and still ends with the resource, also when no
      response names its version again because every request insists on it. */
  lemma ResumedCompletes(sv: Server, cfg: Config, t: Task, terse: bool) returns (run: seq<Event>, r: Task)
    requires ValidConfig(cfg) && Inv(sv, t) && LengthInv(sv, t) && Resumable(t.saved)
    requires terse && sv.kind == ByDate ==> t.saved.value.etag == ""
    ensures Leads(sv, cfg, t, run, r) && HoldsResource(sv, r) && Resource(sv, r) == Resource(sv, t)
    ensures terse ==> Terse(run)
  {
    RestartIsReady(sv, cfg, t);
    assert Leads(sv, cfg, t, [], t);
    run := NextStep(sv, cfg, t, [], t, Crash);
    var t1 := Step(cfg, t, Crash);
    var parts, t2 := PartsComplete(sv, cfg, t1, 0, terse);
    var end;
    end, r := Concludes(sv, cfg, t2);
    HonestConcat(sv, cfg, t1, parts, end);
    HonestConcat(sv, cfg, t, run, parts + end);
    run := run + (parts + end);
  }

  // ---------------------------------------------------------------- from nothing

  predicate IsVersion(sv: Server, rep: string) {
    if sv.kind == Unvalidated then rep == "" else rep != ""
  }

  /** A probe that has heard a 206 for version `rep`, with or without its name and its total. */
  function Heard206(sv: Server, rep: string, named: bool, total: int): Task {
    var tag := if named && sv.kind == ByEntityTag then rep else "";
    var date := if named && sv.kind == ByDate then rep else "";
    var conn := Open(0, PROBE_WINDOW - 1, NoCondition, 206, rep, tag, date, 0, false);
    NEW_TASK.(contexts := [PartContext(0, true, if total > 0 then total else 0, 206, conn)],
              etag := tag, lastModified := date, total := if total > 0 then total else -1,
              loop := NEW_TASK.loop.(spawned := 1, active := 1, connections := 1))
  }

  lemma ProbeHears(sv: Server, cfg: Config, rep: string, total: int)
    requires IsVersion(sv, rep) && total > 0
    ensures OnHeader(Probing(0, -1, 0), 0, StatusLine(206, rep)) == Heard206(sv, rep, false, 0)
    ensures OnHeader(Heard206(sv, rep, false, 0), 0, Naming(sv, rep)) == Heard206(sv, rep, true, 0)
    ensures OnHeader(Heard206(sv, rep, true, 0), 0, ContentRange(total)) == Heard206(sv, rep, true, total)
  {
  }

  /** The probe of a server with ranges, up to its first body byte. */
  lemma ProbeAnswered(sv: Server, cfg: Config, rep: string) returns (run: seq<Event>, r: Task)
    requires ValidConfig(cfg) && IsVersion(sv, rep) && |sv.repr(rep)| > 0
    ensures r == Heard206(sv, rep, true, |sv.repr(rep)|) && Leads(sv, cfg, NEW_TASK, run, r)
    ensures Inv(sv, r) && LengthInv(sv, r)
  {
    var total := |sv.repr(rep)|;
    r := Heard206(sv, rep, true, total);
    assert Leads(sv, cfg, NEW_TASK, [], NEW_TASK);
    SpawnProbe(cfg);
    run := NextStep(sv, cfg, NEW_TASK, [], NEW_TASK, Spawn(true));
    ProbeHears(sv, cfg, rep, total);
    run := NextStep(sv, cfg, NEW_TASK, run, Probing(0, -1, 0), Header(0, StatusLine(206, rep)));
    run := NextStep(sv, cfg, NEW_TASK, run, Heard206(sv, rep, false, 0), Header(0, Naming(sv, rep)));
    run := NextStep(sv, cfg, NEW_TASK, run, Heard206(sv, rep, true, 0), Header(0, ContentRange(total)));
    RunKeeps(sv, cfg, NEW_TASK, run);
  }

  /** The first byte splits the file, and makes the download resumable. */
  lemma FirstByteSplits(sv: Server, cfg: Config, rep: string)
    requires ValidConfig(cfg) && IsVersion(sv, rep) && |sv.repr(rep)| > 0
    requires Inv(sv, Heard206(sv, rep, true, |sv.repr(rep)|))
    ensures var t, e := Heard206(sv, rep, true, |sv.repr(rep)|), Body(0, sv.repr(rep)[..1], GOOD_DISK);
            && Legal(t, e) && Honest(sv, t, e)
            && var r := Step(cfg, t, e);
               && Inv(sv, r) && LengthInv(sv, r) && !r.probing && r.supportRange && r.loop == t.loop
               && Resource(sv, r) == sv.repr(rep)
  {
    var t, data := Heard206(sv, rep, true, |sv.repr(rep)|), sv.repr(rep)[..1];
    assert data == sv.repr(rep)[0..0 + |data|];
    var e := Body(0, data, GOOD_DISK);
    StepKeeps(sv, cfg, t, e);
    StepKeepsLength(sv, cfg, t, e);
    FirstBodyFixesLength(sv, cfg, t, 0, data, GOOD_DISK);
    var t1 := FinalizeProbing(cfg, t, 0, true);
    assert t1 == CutParts(cfg, CreateFile(t, 0)) && t1.supportRange && t1.status != Failed;
    assert WriteResult(cfg, t, 0, data, GOOD_DISK) == WriteIntoPart(t1, 0, data, Written);
  }

  lemma {:induction false} SumNonNegative(parts: seq<Part>)
    requires forall i :: 0 <= i < |parts| ==> parts[i].done >= 0
    ensures SumDone(parts) >= 0
  {
    if parts != [] {
      SumNonNegative(parts[..|parts| - 1]);
    }
  }

  /** The first report of a resumable task can be used. */
  lemma FirstReportIsUsable(sv: Server, cfg: Config, t: Task)
    requires ValidConfig(cfg) && Inv(sv, t) && LengthInv(sv, t)
    requires !t.probing && t.supportRange && t.loop.lastEmit == -1
    ensures var r := Step(cfg, t, Throttled(true));
            Inv(sv, r) && LengthInv(sv, r) && Resumable(r.saved) && Resource(sv, r) == Resource(sv, t)
  {
    if Sized(t) {
      assert forall i :: 0 <= i < |t.parts| ==> PartOnDisk(t.file, Resource(sv, t), t.parts[i]);
    }
    SumNonNegative(t.parts);
    StepKeeps(sv, cfg, t, Throttled(true));
    StepKeepsLength(sv, cfg, t, Throttled(true));
    DeserializeAt(Serialize(t).parts);
  }

  /** Any version of any resource can be downloaded in two lives: probed and split, killed after the first byte, and
      resumed part by part. */
  lemma SplitAndResumeCompletes(sv: Server, cfg: Config, rep: string) returns (run: seq<Event>, r: Task)
    requires ValidConfig(cfg) && IsVersion(sv, rep) && |sv.repr(rep)| > 0
    ensures Leads(sv, cfg, NEW_TASK, run, r) && HoldsResource(sv, r) && Resource(sv, r) == sv.repr(rep)
  {
    var t;
    run, t := ProbeAnswered(sv, cfg, rep);
    FirstByteSplits(sv, cfg, rep);
    var e := Body(0, sv.repr(rep)[..1], GOOD_DISK);
    run := NextStep(sv, cfg, NEW_TASK, run, t, e);
    t := Step(cfg, t, e);
    FirstReportIsUsable(sv, cfg, t);
    run := NextStep(sv, cfg, NEW_TASK, run, t, Throttled(true));
    t := Step(cfg, t, Throttled(true));
    var more;
    more, r := ResumedCompletes(sv, cfg, t, false);
    HonestConcat(sv, cfg, NEW_TASK, run, more);
    run := run + more;
  }

  /** From every state that honest runs reach, whether it is live, stopped or failed, a restart can end with the whole
      resource: the version already begun if its record can be used, and else any version the server has. */
  lemma AlwaysCompletes(sv: Server, cfg: Config, t: Task, rep: string) returns (run: seq<Event>, r: Task)
    requires ValidConfig(cfg) && Inv(sv, t) && LengthInv(sv, t) && IsVersion(sv, rep) && |sv.repr(rep)| > 0
    ensures Leads(sv, cfg, t, run, r) && HoldsResource(sv, r)
    ensures Resource(sv, r) == if Resumable(t.saved) then Resource(sv, t) else sv.repr(rep)
  {
    if Resumable(t.saved) {
      run, r := ResumedCompletes(sv, cfg, t, false);
    } else {
      assert Leads(sv, cfg, t, [], t);
      run := NextStep(sv, cfg, t, [], t, Crash);
      var more;
      more, r := SplitAndResumeCompletes(sv, cfg, rep);
      HonestConcat(sv, cfg, t, run, more);
      run := run + more;
    }
  }
}
