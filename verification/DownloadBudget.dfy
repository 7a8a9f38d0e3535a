/**
  How long a download can go on: a bound on the connections one process life opens, and the bookkeeping of the
  event loop that makes its exit meaningful.
*/
module DownloadBudget {
  import opened SplitPlan
  import opened DownloadModel

  // ---------------------------------------------------------------- what a step does to the loop's tables

  /** Nothing but the connection, the seen lengths and codes, and the verdict of part `i` changed. */
  ghost predicate SameLoop(t: Task, r: Task, i: nat)
    requires WellFormed(t) && WellFormed(r) && i < |t.contexts|
  {
    && |r.contexts| == |t.contexts|
    && (forall j :: 0 <= j < |t.contexts| && j != i ==> r.contexts[j] == t.contexts[j] && r.parts[j] == t.parts[j])
    && (t.probing ==> r.parts[i].done == t.parts[i].done)
    && r.contexts[i].retries == t.contexts[i].retries && r.contexts[i].probeWindow == t.contexts[i].probeWindow
    && t.contexts[i].conn.Open? && r.contexts[i].conn.Open?
    && r.probing == t.probing && r.loop == t.loop
  }

  lemma SameLoopTransitive(t: Task, r: Task, s: Task, i: nat)
    requires WellFormed(t) && WellFormed(r) && WellFormed(s) && i < |t.contexts|
    requires SameLoop(t, r, i) && SameLoop(r, s, i)
    ensures SameLoop(t, s, i)
  {
  }

  lemma ContextFrame(t: Task, i: nat, c: PartContext)
    requires WellFormed(t) && i < |t.contexts| && t.contexts[i].conn.Open? && c.conn.Open?
    requires c.retries == t.contexts[i].retries && c.probeWindow == t.contexts[i].probeWindow
    ensures SameLoop(t, WithContext(t, i, c), i)
  {
  }

  lemma FailFrame(t: Task, i: nat, reason: Reason)
    requires WellFormed(t) && i < |t.contexts| && t.contexts[i].conn.Open?
    ensures SameLoop(t, FailPart(t, i, reason), i)
  {
  }

  /** A refused line changes one context and fails its part. */
  lemma DriftFrame(t: Task, i: nat, c: PartContext)
    requires WellFormed(t) && i < |t.contexts| && t.contexts[i].conn.Open? && c.conn.Open?
    requires c.retries == t.contexts[i].retries && c.probeWindow == t.contexts[i].probeWindow
    ensures SameLoop(t, Drift(WithContext(t, i, c), i), i)
  {
    var t1 := WithContext(t, i, c);
    ContextFrame(t, i, c);
    FailFrame(t1, i, GeneralError);
    SameLoopTransitive(t, t1, FailPart(t1, i, GeneralError), i);
  }

  lemma LineResultFrame(t: Task, i: nat, line: HeaderLine)
    requires WellFormed(t) && i < |t.parts| && t.contexts[i].conn.Open?
    ensures SameLoop(t, HeaderLineResult(t, i, line).task, i)
  {
    var c := t.contexts[i];
    assert WithContext(t, i, c) == t by { assert t.contexts[i := c] == t.contexts; }
    ContextFrame(t, i, c);
    DriftFrame(t, i, c);
    match line
    case StatusLine(code, _) =>
      ContextFrame(t, i, c.(seenCode := code));
      DriftFrame(t, i, c.(seenCode := code));
    case ContentRange(total) =>
      ContextFrame(t, i, c.(seenTotal := total));
      DriftFrame(t, i, c.(seenTotal := total));
    case ContentLength(n) =>
      ContextFrame(t, i, c.(seenTotal := n));
    case _ =>
  }

  lemma ConnectionFrame(t: Task, i: nat, conn: Connection)
    requires WellFormed(t) && i < |t.contexts| && t.contexts[i].conn.Open? && conn.Open?
    ensures SameLoop(t, WithConnection(t, i, conn), i)
  {
    ContextFrame(t, i, t.contexts[i].(conn := conn));
  }

  lemma HeaderEndFrame(t: Task, h: HeaderResult, i: nat)
    requires WellFormed(t) && WellFormed(h.task) && i < |t.contexts| && SameLoop(t, h.task, i)
    ensures var conn := h.task.contexts[i].conn;
            SameLoop(t, if h.goOn then h.task else WithConnection(h.task, i, conn.(aborted := true)), i)
  {
    var cut := h.task.contexts[i].conn.(aborted := true);
    ConnectionFrame(h.task, i, cut);
    SameLoopTransitive(t, h.task, WithConnection(h.task, i, cut), i);
  }

  lemma HeaderFrame(t: Task, i: nat, line: HeaderLine)
    requires WellFormed(t) && i < |t.parts| && t.contexts[i].conn.Open?
    ensures SameLoop(t, OnHeader(t, i, line), i)
  {
    var t0 := WithConnection(t, i, Observe(t.contexts[i].conn, line));
    ConnectionFrame(t, i, Observe(t.contexts[i].conn, line));
    LineResultFrame(t0, i, line);
    SameLoopTransitive(t, t0, HeaderLineResult(t0, i, line).task, i);
    HeaderEndFrame(t, HeaderLineResult(t0, i, line), i);
  }

  lemma DeliveredFrame(e: WriteEffect, i: nat, len: nat)
    requires WellFormed(e.task) && i < |e.task.contexts| && e.task.contexts[i].conn.Open?
    ensures SameLoop(e.task, Delivered(e, i, len), i)
  {
    var conn := e.task.contexts[i].conn;
    ConnectionFrame(e.task, i, conn.(received := conn.received + len, aborted := e.taken < len));
  }

  lemma WriteFrame(t: Task, i: nat, data: Bytes, outcome: WriteOutcome, len: nat)
    requires WellFormed(t) && !t.probing && i < |t.parts| && t.contexts[i].conn.Open?
    ensures SameLoop(t, Delivered(WriteIntoPart(t, i, data, outcome), i, len), i)
  {
    var e := WriteIntoPart(t, i, data, outcome);
    FailFrame(t, i, GeneralError);
    assert SameLoop(t, e.task, i);
    DeliveredFrame(e, i, len);
    SameLoopTransitive(t, e.task, Delivered(e, i, len), i);
  }

  /** Only the context of part `i`, its verdict and the loop's counters changed. */
  ghost predicate SameOthers(t: Task, r: Task, i: nat)
    requires WellFormed(t) && WellFormed(r) && i < |t.contexts|
  {
    && |r.contexts| == |t.contexts|
    && (forall j :: 0 <= j < |t.contexts| && j != i ==> r.contexts[j] == t.contexts[j] && r.parts[j] == t.parts[j])
    && r.parts[i].done == t.parts[i].done
    && r.probing == t.probing && r.loop.left == t.loop.left
    && r.loop.pauseRequested == t.loop.pauseRequested && r.loop.cancelRequested == t.loop.cancelRequested
  }

  lemma SameOthersTransitive(t: Task, r: Task, s: Task, i: nat)
    requires WellFormed(t) && WellFormed(r) && WellFormed(s) && i < |t.contexts|
    requires SameOthers(t, r, i) && SameOthers(r, s, i)
    ensures SameOthers(t, s, i)
  {
  }

  /** A verdict either ends the part, or asks for it again at the price of a retry or of the continuation. */
  ghost predicate VerdictFrame(cfg: Config, t: Task, v: Verdict, i: nat)
    requires WellFormed(t) && i < |t.contexts| && WellFormed(v.task)
  {
    && SameOthers(t, v.task, i) && v.task.loop == t.loop && v.task.contexts[i].conn.Closed?
    && var c, d := t.contexts[i], v.task.contexts[i];
    && (!v.again ==> v.task.parts[i].Terminal() && d.retries == c.retries)
    && (v.again ==> v.task.parts == t.parts)
    && (v.again ==> (d.retries == c.retries + 1 <= cfg.maxRetries)
                    || (d.retries == c.retries && c.probeWindow && t.parts[i].done > 0))
  }

  lemma RetryFrame(cfg: Config, t: Task, i: nat, reason: Reason, retryable: bool)
    requires WellFormed(t) && i < |t.contexts| && t.contexts[i].conn.Closed?
    ensures VerdictFrame(cfg, t, RetryOrFail(cfg, t, i, reason, retryable), i)
  {
  }

  lemma EndFrame(cfg: Config, t: Task, i: nat, p: Part, total: int)
    requires WellFormed(t) && i < |t.contexts| && t.contexts[i].conn.Closed?
    requires p.Terminal() && p.done == t.parts[i].done
    ensures VerdictFrame(cfg, t, Verdict(WithPart(t, i, p).(total := total), false), i)
  {
  }

  lemma PartResultFrame(cfg: Config, t: Task, i: nat, rc: TransferResult, code: int)
    requires WellFormed(t) && i < |t.contexts| && t.contexts[i].conn.Closed?
    ensures VerdictFrame(cfg, t, PartResult(cfg, t, i, rc, code), i)
  {
    var p := t.parts[i];
    if p.status == Failed {
    } else if p.size > 0 && p.done >= p.size {
      EndFrame(cfg, t, i, p.(status := Completed, reason := NoReason), t.total);
    } else if t.contexts[i].probeWindow && rc == TransferOk && code == 206 && p.done > 0 {
    } else if IsSuccess(rc, code) && p.size <= 0 {
      EndFrame(cfg, t, i, p.(status := Completed, reason := NoReason, size := p.done),
               if t.total <= 0 then p.done else t.total);
    } else {
      RetryFrame(cfg, t, i, Network, true);
      RetryFrame(cfg, t, i, ClassifyFailure(rc, code).0, ClassifyFailure(rc, code).1);
    }
  }

  lemma AddPartFrame(t: Task, i: nat, built: bool)
    requires WellFormed(t) && i < |t.contexts| && t.contexts[i].conn.Closed?
    ensures var r := AddPart(t, i, built);
            && SameOthers(t, r, i) && r.loop.spawned == t.loop.spawned && r.loop.active == t.loop.active
            && r.contexts[i].retries == t.contexts[i].retries
            && (built ==> r.loop.connections == t.loop.connections + 1 && r.contexts[i].conn.Open?
                          && r.contexts[i].probeWindow == t.probing)
            && (!built ==> r.loop.connections == t.loop.connections && r.contexts[i].conn.Closed?
                           && r.parts[i].Terminal())
  {
  }

  lemma AnswerFrame(v: Verdict, i: nat, built: bool)
    requires WellFormed(v.task) && i < |v.task.contexts| && v.task.contexts[i].conn.Closed?
    requires !v.again ==> v.task.parts[i].Terminal()
    ensures var t, r := v.task, Answer(v, i, built);
            && SameOthers(t, r, i) && r.loop.spawned == t.loop.spawned && r.contexts[i].retries == t.contexts[i].retries
            && (v.again && built ==> r.loop.connections == t.loop.connections + 1 && r.loop.active == t.loop.active
                                     && r.contexts[i].conn.Open? && r.contexts[i].probeWindow == t.probing)
            && (!(v.again && built) ==> r.loop.connections == t.loop.connections && r.loop.active == t.loop.active - 1
                                        && r.contexts[i].conn.Closed? && r.parts[i].Terminal())
  {
    AddPartFrame(v.task, i, built);
  }

  /** A transfer that ended either goes on as a new connection, paid by a retry or by the continuation of the probe,
      or is gone; then its part has its verdict unless the task is being stopped. */
  lemma FinishedFrame(cfg: Config, t: Task, i: nat, rc: TransferResult, built: bool)
    requires WellFormed(t) && Legal(t, Finished(i, rc, built))
    ensures var r := OnFinished(cfg, t, i, rc, built);
            var c, d := t.contexts[i], r.contexts[i];
            && SameOthers(t, r, i) && r.loop.spawned == t.loop.spawned
            && (d.conn.Open? ==> r.loop.connections == t.loop.connections + 1 && r.loop.active == t.loop.active
                                 && d.probeWindow == t.probing
                                 && ((d.retries == c.retries + 1 <= cfg.maxRetries)
                                     || (d.retries == c.retries && c.probeWindow && t.parts[i].done > 0)))
            && (d.conn.Closed? ==> r.loop.connections == t.loop.connections && r.loop.active == t.loop.active - 1
                                   && (d.retries <= Max(c.retries, cfg.maxRetries))
                                   && (t.loop.pauseRequested || t.loop.cancelRequested || r.parts[i].Terminal()))
  {
    var t0, code := WithConnection(t, i, Closed), t.contexts[i].conn.code;
    assert SameOthers(t, t0, i);
    if !(t.loop.cancelRequested || t.loop.pauseRequested) {
      var v := PartResult(cfg, t0, i, rc, code);
      PartResultFrame(cfg, t0, i, rc, code);
      AnswerFrame(v, i, built);
      SameOthersTransitive(t, t0, v.task, i);
      SameOthersTransitive(t, v.task, Answer(v, i, built), i);
    }
  }

  /** A part is hung once: from then on it is live, or it has its verdict. */
  lemma SpawnFrame(t: Task, built: bool)
    requires WellFormed(t) && Legal(t, Spawn(built)) && t.contexts[t.loop.spawned].conn.Closed?
    ensures var i, r := t.loop.spawned, SpawnNext(t, built);
            && SameOthers(t, r, i) && r.loop.spawned == i + 1 && r.contexts[i].retries == t.contexts[i].retries
            && (r.contexts[i].conn.Open? ==>
                  r.loop.connections == t.loop.connections + 1 && r.loop.active == t.loop.active + 1
                  && r.contexts[i].probeWindow == t.probing)
            && (r.contexts[i].conn.Closed? ==>
                  r.loop.connections == t.loop.connections && r.loop.active == t.loop.active && r.parts[i].Terminal())
  {
    var i := t.loop.spawned;
    var t0 := WithSpawned(t, i + 1);
    assert SameOthers(t, t0, i);
    if t.parts[i].status != Completed {
      AddPartFrame(t0, i, built);
      SameOthersTransitive(t, t0, AddPart(t0, i, built), i);
    }
  }

  // ---------------------------------------------------------------- the budget

  /** The connections a part may still open: its retries, the one continuation of the probe, and, while probing,
      the fresh set of retries that a 206 split gives to part 0. */
  function Remaining(cfg: Config, probing: bool, hung: bool, c: PartContext): int {
    if !hung then cfg.maxRetries + 1 + (if probing then cfg.maxRetries + 1 else 0)
    else if c.conn.Closed? then 0
    else cfg.maxRetries - c.retries + (if probing then cfg.maxRetries + 1 else if c.probeWindow then 1 else 0)
  }

  function RemainingUpTo(cfg: Config, t: Task, n: nat): int
    requires n <= |t.contexts|
  {
    if n == 0 then 0
    else RemainingUpTo(cfg, t, n - 1) + Remaining(cfg, t.probing, n - 1 < t.loop.spawned, t.contexts[n - 1])
  }

  predicate BudgetShape(cfg: Config, t: Task) {
    && WellFormed(t)
    && (t.probing ==> |t.parts| == 1 && t.parts[0].done == 0)
    && (forall i :: 0 <= i < |t.contexts| ==> t.contexts[i].retries <= cfg.maxRetries)
    && (forall i :: t.loop.spawned <= i < |t.contexts| ==> t.contexts[i].conn.Closed?)
  }

  /** `allowance` is 1 for a task that starts by probing and 0 for a resumed one. */
  ghost predicate WithinBudget(cfg: Config, t: Task, allowance: nat) {
    && BudgetShape(cfg, t)
    && t.loop.connections + RemainingUpTo(cfg, t, |t.contexts|) <= (|t.parts| + allowance) * (cfg.maxRetries + 1)
  }

  lemma {:induction false} RemainingNonNegative(cfg: Config, t: Task, n: nat)
    requires BudgetShape(cfg, t) && n <= |t.contexts|
    ensures RemainingUpTo(cfg, t, n) >= 0
  {
    if n > 0 {
      RemainingNonNegative(cfg, t, n - 1);
    }
  }

  function RemainingOf(cfg: Config, t: Task, j: nat): int
    requires j < |t.contexts|
  {
    Remaining(cfg, t.probing, j < t.loop.spawned, t.contexts[j])
  }

  /** Two tasks that differ in part `i` only differ by that part's share. */
  lemma {:induction false} RemainingDiffers(cfg: Config, t: Task, r: Task, i: nat, n: nat)
    requires n <= |t.contexts| == |r.contexts|
    requires forall j :: 0 <= j < |t.contexts| && j != i ==> RemainingOf(cfg, r, j) == RemainingOf(cfg, t, j)
    ensures RemainingUpTo(cfg, r, n) - RemainingUpTo(cfg, t, n)
            == if i < n then RemainingOf(cfg, r, i) - RemainingOf(cfg, t, i) else 0
  {
    if n > 0 {
      RemainingDiffers(cfg, t, r, i, n - 1);
      assert n - 1 != i ==> RemainingOf(cfg, r, n - 1) == RemainingOf(cfg, t, n - 1);
    }
  }

  /** A change of part `i` is paid for by its own share. */
  lemma Pays(cfg: Config, t: Task, r: Task, i: nat, allowance: nat)
    requires WithinBudget(cfg, t, allowance) && BudgetShape(cfg, r) && i < |t.contexts|
    requires |r.contexts| == |t.contexts|
    requires forall j :: 0 <= j < |t.contexts| && j != i ==> RemainingOf(cfg, r, j) == RemainingOf(cfg, t, j)
    requires r.loop.connections + RemainingOf(cfg, r, i) <= t.loop.connections + RemainingOf(cfg, t, i)
    ensures WithinBudget(cfg, r, allowance)
  {
    RemainingDiffers(cfg, t, r, i, |t.contexts|);
  }

  lemma SameLoopPays(cfg: Config, t: Task, r: Task, i: nat, allowance: nat)
    requires WithinBudget(cfg, t, allowance) && WellFormed(r) && i < |t.contexts| && SameLoop(t, r, i)
    ensures WithinBudget(cfg, r, allowance)
  {
    assert forall j :: 0 <= j < |t.contexts| && j != i ==> r.contexts[j] == t.contexts[j];
    Pays(cfg, t, r, i, allowance);
  }

  lemma {:induction false} FreshParts(cfg: Config, t: Task, n: nat)
    requires !t.probing && t.loop.spawned == 1 && 1 <= n <= |t.contexts|
    ensures RemainingUpTo(cfg, t, n)
            == Remaining(cfg, false, true, t.contexts[0]) + (n - 1) * (cfg.maxRetries + 1)
  {
    if n > 1 {
      FreshParts(cfg, t, n - 1);
      assert (n - 1) * (cfg.maxRetries + 1) == (n - 2) * (cfg.maxRetries + 1) + (cfg.maxRetries + 1);
    } else {
      assert RemainingUpTo(cfg, t, 0) == 0;
    }
  }

  lemma FinalizeFrame(cfg: Config, t: Task, creates: bool)
    requires WellFormed(t) && |t.parts| == 1
    ensures var r := FinalizeProbing(cfg, t, 0, creates);
            && !r.probing && r.loop == t.loop
            && r.contexts[0].conn == t.contexts[0].conn && r.contexts[0].retries <= t.contexts[0].retries
            && (forall j :: 1 <= j < |r.contexts| ==> r.contexts[j] == FRESH_CONTEXT)
  {
  }

  /** The first body byte turns the allowance of the probe into that of the parts it cuts. */
  lemma FinalizePays(cfg: Config, t: Task, creates: bool, allowance: nat)
    requires WithinBudget(cfg, t, allowance) && t.probing && t.contexts[0].conn.Open?
    ensures WithinBudget(cfg, FinalizeProbing(cfg, t, 0, creates), allowance)
  {
    var r := FinalizeProbing(cfg, t, 0, creates);
    FinalizeFrame(cfg, t, creates);
    FreshParts(cfg, r, |r.contexts|);
    ProbeShare(cfg, t);
    SplitShares(|r.parts|, allowance, cfg.maxRetries + 1);
  }

  lemma ProbeShare(cfg: Config, t: Task)
    requires WellFormed(t) && |t.contexts| == 1 && t.probing && t.loop.spawned == 1 && t.contexts[0].conn.Open?
    ensures RemainingUpTo(cfg, t, 1) == 2 * cfg.maxRetries + 1 - t.contexts[0].retries
  {
    assert RemainingUpTo(cfg, t, 0) == 0;
  }

  lemma SplitShares(parts: nat, allowance: nat, m: nat)
    requires parts >= 1
    ensures (parts + allowance) * m == (1 + allowance) * m + (parts - 1) * m
  {
  }

  lemma BodyPays(cfg: Config, t: Task, i: nat, data: Bytes, disk: Disk, allowance: nat)
    requires WithinBudget(cfg, t, allowance) && Legal(t, Body(i, data, disk))
    ensures WithinBudget(cfg, OnBody(cfg, t, i, data, disk), allowance)
  {
    if t.status == Failed || t.loop.cancelRequested || t.loop.pauseRequested {
      SameLoopPays(cfg, t, OnBody(cfg, t, i, data, disk), i, allowance);
    } else if t.probing {
      var t1 := FinalizeProbing(cfg, t, 0, disk.creates);
      FinalizePays(cfg, t, disk.creates, allowance);
      FinalizeFrame(cfg, t, disk.creates);
      FirstBodyPays(cfg, t1, data, disk, allowance);
    } else {
      WriteFrame(t, i, data, disk.write, |data|);
      SameLoopPays(cfg, t, Delivered(WriteIntoPart(t, i, data, disk.write), i, |data|), i, allowance);
    }
  }

  lemma FirstBodyPays(cfg: Config, t1: Task, data: Bytes, disk: Disk, allowance: nat)
    requires !t1.probing && WithinBudget(cfg, t1, allowance) && t1.contexts[0].conn.Open?
    ensures WithinBudget(cfg, Delivered(if t1.status == Failed then WriteEffect(t1, 0)
                                        else WriteIntoPart(t1, 0, data, disk.write), 0, |data|), allowance)
  {
    if t1.status == Failed {
      SameLoopPays(cfg, t1, Delivered(WriteEffect(t1, 0), 0, |data|), 0, allowance);
    } else {
      WriteFrame(t1, 0, data, disk.write, |data|);
      SameLoopPays(cfg, t1, Delivered(WriteIntoPart(t1, 0, data, disk.write), 0, |data|), 0, allowance);
    }
  }

  lemma FinishedPays(cfg: Config, t: Task, i: nat, rc: TransferResult, built: bool, allowance: nat)
    requires WithinBudget(cfg, t, allowance) && Legal(t, Finished(i, rc, built))
    ensures WithinBudget(cfg, OnFinished(cfg, t, i, rc, built), allowance)
  {
    FinishedFrame(cfg, t, i, rc, built);
    Pays(cfg, t, OnFinished(cfg, t, i, rc, built), i, allowance);
  }

  lemma SpawnPays(cfg: Config, t: Task, built: bool, allowance: nat)
    requires WithinBudget(cfg, t, allowance) && Legal(t, Spawn(built))
    ensures WithinBudget(cfg, SpawnNext(t, built), allowance)
  {
    SpawnFrame(t, built);
    Pays(cfg, t, SpawnNext(t, built), t.loop.spawned, allowance);
  }

  lemma {:induction false} ClosingPays(cfg: Config, t: Task, r: Task, n: nat)
    requires BudgetShape(cfg, t) && n <= |t.contexts|
    requires r == Left(t)
    ensures RemainingUpTo(cfg, r, n) <= RemainingUpTo(cfg, t, n)
  {
    if n > 0 {
      ClosingPays(cfg, t, r, n - 1);
    }
  }

  lemma {:induction false} SameTables(cfg: Config, t: Task, r: Task, n: nat)
    requires r.contexts == t.contexts && r.probing == t.probing && r.loop.spawned == t.loop.spawned && n <= |t.contexts|
    ensures RemainingUpTo(cfg, r, n) == RemainingUpTo(cfg, t, n)
  {
    if n > 0 {
      SameTables(cfg, t, r, n - 1);
    }
  }

  lemma StepPays(cfg: Config, t: Task, e: Event, allowance: nat)
    requires WithinBudget(cfg, t, allowance) && Legal(t, e) && !e.Crash?
    ensures WithinBudget(cfg, Step(cfg, t, e), allowance)
  {
    match e
    case Header(i, line) =>
      HeaderFrame(t, i, line);
      SameLoopPays(cfg, t, OnHeader(t, i, line), i, allowance);
    case Body(i, data, disk) => BodyPays(cfg, t, i, data, disk, allowance);
    case Finished(i, rc, built) => FinishedPays(cfg, t, i, rc, built, allowance);
    case Spawn(built) => SpawnPays(cfg, t, built, allowance);
    case LeaveLoop => ClosingPays(cfg, t, Step(cfg, t, e), |t.contexts|);
    case Crash =>
    case _ => SameTables(cfg, t, Step(cfg, t, e), |t.contexts|);
  }

  /** One process life: no crash in the run. */
  predicate OneLife(run: seq<Event>) {
    forall e :: e in run ==> !e.Crash?
  }

  lemma {:induction false} RunPays(cfg: Config, t: Task, run: seq<Event>, allowance: nat)
    requires WithinBudget(cfg, t, allowance) && LegalRun(cfg, t, run) && OneLife(run)
    ensures WithinBudget(cfg, Replay(cfg, t, run), allowance)
    decreases |run|
  {
    if run != [] {
      StepPays(cfg, t, run[0], allowance);
      RunPays(cfg, Step(cfg, t, run[0]), run[1..], allowance);
    }
  }

  lemma {:induction false} UnhungBudget(cfg: Config, t: Task, n: nat)
    requires t.loop.spawned == 0 && !t.probing && n <= |t.contexts|
    ensures RemainingUpTo(cfg, t, n) == n * (cfg.maxRetries + 1)
  {
    if n > 0 {
      UnhungBudget(cfg, t, n - 1);
      assert n * (cfg.maxRetries + 1) == (n - 1) * (cfg.maxRetries + 1) + (cfg.maxRetries + 1);
    }
  }

  /** Whatever the network does, a download that starts by probing opens at most (P + 1)(M + 1) connections, where P
      is the number of parts it ends with and M the configured number of retries. */
  lemma FreshDownloadEnds(cfg: Config, run: seq<Event>)
    requires LegalRun(cfg, NEW_TASK, run) && OneLife(run)
    ensures var t := Replay(cfg, NEW_TASK, run);
            t.loop.connections <= (|t.parts| + 1) * (cfg.maxRetries + 1)
  {
    assert RemainingUpTo(cfg, NEW_TASK, 0) == 0;
    assert RemainingUpTo(cfg, NEW_TASK, 1) == 2 * (cfg.maxRetries + 1);
    RunPays(cfg, NEW_TASK, run, 1);
    var t := Replay(cfg, NEW_TASK, run);
    RemainingNonNegative(cfg, t, |t.contexts|);
  }

  /** A resumed download opens at most P(M + 1) connections. */
  lemma ResumedDownloadEnds(cfg: Config, before: Task, run: seq<Event>)
    requires WellFormed(before) && Resumable(before.saved)
    requires LegalRun(cfg, Restart(before), run) && OneLife(run)
    ensures var t := Replay(cfg, Restart(before), run);
            t.loop.connections <= |t.parts| * (cfg.maxRetries + 1)
  {
    var t0 := Restart(before);
    UnhungBudget(cfg, t0, |t0.contexts|);
    RunPays(cfg, t0, run, 0);
    var t := Replay(cfg, t0, run);
    RemainingNonNegative(cfg, t, |t.contexts|);
  }

  // ---------------------------------------------------------------- the books of the event loop

  function LiveUpTo(contexts: seq<PartContext>, n: nat): int
    requires n <= |contexts|
  {
    if n == 0 then 0 else LiveUpTo(contexts, n - 1) + (if contexts[n - 1].conn.Open? then 1 else 0)
  }

  /** `active` counts the live transfers; a part that was hung and is no longer live has its verdict, unless the
      task is being stopped. */
  ghost predicate Books(t: Task) {
    && WellFormed(t)
    && (forall i :: t.loop.spawned <= i < |t.contexts| ==> t.contexts[i].conn.Closed?)
    && t.loop.active == LiveUpTo(t.contexts, |t.contexts|)
    && (t.probing ==> |t.parts| == 1)
    && (t.loop.left || t.loop.pauseRequested || t.loop.cancelRequested ||
        forall i :: 0 <= i < t.loop.spawned && t.contexts[i].conn.Closed? ==> t.parts[i].Terminal())
  }

  lemma {:induction false} LiveDiffers(a: seq<PartContext>, b: seq<PartContext>, i: nat, n: nat)
    requires n <= |a| == |b| && forall j :: 0 <= j < |a| && j != i ==> b[j].conn.Open? == a[j].conn.Open?
    ensures LiveUpTo(b, n) - LiveUpTo(a, n)
            == if i < n then (if b[i].conn.Open? then 1 else 0) - (if a[i].conn.Open? then 1 else 0) else 0
  {
    if n > 0 {
      LiveDiffers(a, b, i, n - 1);
    }
  }

  lemma {:induction false} NoneLive(contexts: seq<PartContext>, from: nat, n: nat)
    requires from <= n <= |contexts| && forall j :: from <= j < n ==> contexts[j].conn.Closed?
    ensures LiveUpTo(contexts, n) == LiveUpTo(contexts, from)
  {
    if from < n {
      NoneLive(contexts, from, n - 1);
    }
  }

  lemma {:induction false} LiveNonNegative(contexts: seq<PartContext>, n: nat)
    requires n <= |contexts|
    ensures LiveUpTo(contexts, n) >= 0
    ensures LiveUpTo(contexts, n) == 0 ==> forall j :: 0 <= j < n ==> contexts[j].conn.Closed?
  {
    if n > 0 {
      LiveNonNegative(contexts, n - 1);
    }
  }

  lemma SameLoopBooks(t: Task, r: Task, i: nat)
    requires Books(t) && WellFormed(r) && i < |t.contexts| && SameLoop(t, r, i)
    ensures Books(r)
  {
    LiveDiffers(t.contexts, r.contexts, i, |t.contexts|);
  }

  lemma {:induction false} LivePrefix(a: seq<PartContext>, b: seq<PartContext>, n: nat)
    requires n <= |a| && n <= |b| && forall j :: 0 <= j < n ==> b[j].conn == a[j].conn
    ensures LiveUpTo(b, n) == LiveUpTo(a, n)
  {
    if n > 0 {
      LivePrefix(a, b, n - 1);
    }
  }

  lemma FinalizeBooks(cfg: Config, t: Task, creates: bool)
    requires Books(t) && t.probing && t.contexts[0].conn.Open?
    ensures Books(FinalizeProbing(cfg, t, 0, creates))
  {
    var r := FinalizeProbing(cfg, t, 0, creates);
    FinalizeFrame(cfg, t, creates);
    LivePrefix(t.contexts, r.contexts, 1);
    NoneLive(r.contexts, 1, |r.contexts|);
  }

  lemma BodyBooks(cfg: Config, t: Task, i: nat, data: Bytes, disk: Disk)
    requires Books(t) && Legal(t, Body(i, data, disk))
    ensures Books(OnBody(cfg, t, i, data, disk))
  {
    if t.status == Failed || t.loop.cancelRequested || t.loop.pauseRequested {
      DeliveredFrame(WriteEffect(t, 0), i, |data|);
      SameLoopBooks(t, Delivered(WriteEffect(t, 0), i, |data|), i);
    } else if t.probing {
      FinalizeBooks(cfg, t, disk.creates);
      FinalizeFrame(cfg, t, disk.creates);
      FirstBodyBooks(FinalizeProbing(cfg, t, 0, disk.creates), data, disk);
    } else {
      WriteFrame(t, i, data, disk.write, |data|);
      SameLoopBooks(t, Delivered(WriteIntoPart(t, i, data, disk.write), i, |data|), i);
    }
  }

  lemma FirstBodyBooks(t1: Task, data: Bytes, disk: Disk)
    requires Books(t1) && !t1.probing && t1.contexts[0].conn.Open?
    ensures Books(Delivered(if t1.status == Failed then WriteEffect(t1, 0)
                            else WriteIntoPart(t1, 0, data, disk.write), 0, |data|))
  {
    if t1.status == Failed {
      DeliveredFrame(WriteEffect(t1, 0), 0, |data|);
      SameLoopBooks(t1, Delivered(WriteEffect(t1, 0), 0, |data|), 0);
    } else {
      WriteFrame(t1, 0, data, disk.write, |data|);
      SameLoopBooks(t1, Delivered(WriteIntoPart(t1, 0, data, disk.write), 0, |data|), 0);
    }
  }

  lemma FinishedBooks(cfg: Config, t: Task, i: nat, rc: TransferResult, built: bool)
    requires Books(t) && Legal(t, Finished(i, rc, built))
    ensures Books(OnFinished(cfg, t, i, rc, built))
  {
    FinishedFrame(cfg, t, i, rc, built);
    LiveDiffers(t.contexts, OnFinished(cfg, t, i, rc, built).contexts, i, |t.contexts|);
  }

  lemma SpawnBooks(t: Task, built: bool)
    requires Books(t) && Legal(t, Spawn(built))
    ensures Books(SpawnNext(t, built))
  {
    SpawnFrame(t, built);
    LiveDiffers(t.contexts, SpawnNext(t, built).contexts, t.loop.spawned, |t.contexts|);
  }

  lemma RestartBooks(t: Task)
    requires Books(t)
    ensures Books(Restart(t))
  {
    var r := Restart(t);
    assert LiveUpTo(r.contexts, 0) == 0;
    NoneLive(r.contexts, 0, |r.contexts|);
  }

  lemma StepBooks(cfg: Config, t: Task, e: Event)
    requires Books(t) && Legal(t, e)
    ensures Books(Step(cfg, t, e))
  {
    match e
    case Header(i, line) =>
      HeaderFrame(t, i, line);
      SameLoopBooks(t, OnHeader(t, i, line), i);
    case Body(i, data, disk) => BodyBooks(cfg, t, i, data, disk);
    case Finished(i, rc, built) => FinishedBooks(cfg, t, i, rc, built);
    case Spawn(built) => SpawnBooks(t, built);
    case LeaveLoop =>
      assert LiveUpTo(CloseAll(t.contexts), 0) == 0;
      NoneLive(CloseAll(t.contexts), 0, |t.contexts|);
    case Crash => RestartBooks(t);
    case _ =>
  }

  lemma {:induction false} RunBooks(cfg: Config, t: Task, run: seq<Event>)
    requires Books(t) && LegalRun(cfg, t, run)
    ensures Books(Replay(cfg, t, run))
    decreases |run|
  {
    if run != [] {
      StepBooks(cfg, t, run[0]);
      RunBooks(cfg, Step(cfg, t, run[0]), run[1..]);
    }
  }

  /** The reason of some failed part, and no failed part has one of higher rank. */
  predicate IsWorst(parts: seq<Part>, reason: Reason) {
    && (exists p :: p in parts && p.status == Failed && p.reason == reason)
    && (forall p :: p in parts && p.status == Failed ==> Rank(p.reason) <= Rank(reason))
  }

  /** When the loop runs dry by itself, every part has its verdict, and the verdict of the task follows from them. */
  lemma DryLoopIsDone(t: Task)
    requires Books(t) && t.loop.active == 0 && t.loop.spawned == |t.contexts|
    requires !t.loop.left && !t.loop.pauseRequested && !t.loop.cancelRequested
    ensures forall i :: 0 <= i < |t.parts| ==> t.parts[i].Terminal()
    ensures Settled(t).status == Completed || Settled(t).status == Failed
    ensures !(t.status == Failed && t.reason == GeneralError) ==>
              (Settled(t).status == Completed <==> forall i :: 0 <= i < |t.parts| ==> t.parts[i].status == Completed)
    ensures !(t.status == Failed && t.reason == GeneralError) && Settled(t).status == Failed ==>
              IsWorst(t.parts, Settled(t).reason)
  {
    LiveNonNegative(t.contexts, |t.contexts|);
    forall p | p in t.parts
      ensures p.Terminal()
    {
    }
    assert forall i :: 0 <= i < |t.parts| ==> t.parts[i] in t.parts;
    WorstIsWorst(t.parts);
  }

  /** The reason of the task is the reason of a failed part, and no failed part ranks higher. */
  lemma {:induction false} WorstIsWorst(parts: seq<Part>)
    ensures WorstReason(parts).None? <==> forall p :: p in parts ==> p.status != Failed
    ensures WorstReason(parts).Some? ==> IsWorst(parts, WorstReason(parts).value)
  {
    if parts != [] {
      var before, last := parts[..|parts| - 1], parts[|parts| - 1];
      assert parts == before + [last];
      WorstIsWorst(before);
      if last.status == Failed {
        assert last in parts;
      }
    }
  }

  /** The order of the parts does not matter to the reason shown, as long as it has a rank. */
  lemma WorstIgnoresOrder(parts: seq<Part>, others: seq<Part>)
    requires multiset(parts) == multiset(others)
    ensures WorstReason(parts).Some? == WorstReason(others).Some?
    ensures WorstReason(parts).Some? && Rank(WorstReason(parts).value) > 0 ==> WorstReason(parts) == WorstReason(others)
  {
    WorstIsWorst(parts);
    WorstIsWorst(others);
    assert forall p :: p in parts <==> p in multiset(parts);
    assert forall p :: p in others <==> p in multiset(others);
  }
}
