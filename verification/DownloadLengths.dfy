/**
  Which length a download takes its file to have, when that is the right one, and what depends on it: a download
  that took the right length ends with exactly the resource, and no other does.
*/
module DownloadLengths {
  import opened SplitPlan
  import opened DownloadModel
  import opened DownloadInvariant
  import opened DownloadTheorems

  // ---------------------------------------------------------------- the length is fixed at the first body byte

  /** The length the file gets if the first body byte came now; 0 when it is not known. */
  function AdoptedLength(t: Task, i: nat): int
    requires i < |t.contexts|
  {
    if t.total > 0 then t.total else if t.contexts[i].seenTotal > 0 then t.contexts[i].seenTotal else 0
  }

  /** It is unknown, or that of the version the response carries. */
  predicate RightLength(sv: Server, t: Task, i: nat)
    requires i < |t.contexts| && t.contexts[i].conn.Open?
  {
    AdoptedLength(t, i) == 0 || AdoptedLength(t, i) == |sv.repr(t.contexts[i].conn.rep)|
  }

  /** The body callback that ends probing. */
  predicate IsFirstBody(t: Task, e: Event) {
    e.Body? && t.probing && t.status != Failed && !t.loop.cancelRequested && !t.loop.pauseRequested
  }

  /** Every probe of the run took the right length. */
  predicate RightRun(sv: Server, cfg: Config, t: Task, run: seq<Event>)
    requires WellFormed(t) && LegalRun(cfg, t, run)
    decreases |run|
  {
    run == [] || ((IsFirstBody(t, run[0]) ==> RightLength(sv, t, run[0].i))
                  && RightRun(sv, cfg, Step(cfg, t, run[0]), run[1..]))
  }

  /** The file, its version and its length are still the same. */
  predicate SameFile(t: Task, r: Task)
    requires WellFormed(t) && WellFormed(r)
  {
    && r.probing == t.probing && r.parts[0].end == t.parts[0].end
    && (t.etag != "" ==> r.etag == t.etag) && (t.lastModified != "" ==> r.lastModified == t.lastModified)
    && (t.total > 0 ==> r.total == t.total)
  }

  lemma HeaderSameFile(t: Task, i: nat, line: HeaderLine)
    requires WellFormed(t) && i < |t.parts| && t.contexts[i].conn.Open?
    ensures SameFile(t, OnHeader(t, i, line))
  {
    var t0 := WithConnection(t, i, Observe(t.contexts[i].conn, line));
    assert SameFile(t, HeaderLineResult(t0, i, line).task);
  }

  lemma BodySameFile(cfg: Config, t: Task, i: nat, data: Bytes, disk: Disk)
    requires WellFormed(t) && i < |t.parts| && t.contexts[i].conn.Open? && !t.probing
    ensures SameFile(t, OnBody(cfg, t, i, data, disk))
  {
    WriteFrame(t, i, data, disk.write);
  }

  lemma VerdictSameFile(cfg: Config, t: Task, i: nat, rc: TransferResult, code: int)
    requires WellFormed(t) && i < |t.parts|
    ensures SameFile(t, PartResult(cfg, t, i, rc, code).task)
  {
    var p := t.parts[i];
    if !(p.status == Failed || (p.size > 0 && p.done >= p.size)) && IsSuccess(rc, code) && p.size <= 0 {
      assert SameFile(t, WithPart(t, i, p.(status := Completed, reason := NoReason, size := p.done)));
    }
  }

  lemma AnswerSameFile(v: Verdict, i: nat, built: bool)
    requires WellFormed(v.task) && i < |v.task.parts|
    ensures SameFile(v.task, Answer(v, i, built))
  {
    assert SameFile(v.task, AddPart(v.task, i, built));
  }

  lemma FinishedSameFile(cfg: Config, t: Task, i: nat, rc: TransferResult, built: bool)
    requires WellFormed(t) && i < |t.parts| && t.contexts[i].conn.Open?
    ensures SameFile(t, OnFinished(cfg, t, i, rc, built))
  {
    FinishedForm(cfg, t, i, rc, built);
    var t0 := WithConnection(t, i, Closed);
    var v := PartResult(cfg, t0, i, rc, t.contexts[i].conn.code);
    VerdictSameFile(cfg, t0, i, rc, t.contexts[i].conn.code);
    AnswerSameFile(v, i, built);
  }

  lemma RestartSameFile(sv: Server, t: Task)
    requires Inv(sv, t) && Resumable(t.saved) && Sized(t)
    ensures var r := Restart(t);
            !r.probing && Sized(r) && r.total == t.total && Resource(sv, r) == Resource(sv, t)
  {
    DeserializeAt(t.saved.value.parts);
  }

  lemma RestartSameVersion(sv: Server, t: Task)
    requires Inv(sv, t) && Resumable(t.saved)
    ensures var r := Restart(t);
            !r.probing && (Sized(r) <==> Sized(t)) && Resource(sv, r) == Resource(sv, t)
  {
    DeserializeAt(t.saved.value.parts);
  }

  /** Once probing is over, nothing changes the length of a sized file or the version it holds, except a restart that
      has no record to go by. */
  lemma LengthIsFixed(sv: Server, cfg: Config, t: Task, e: Event)
    requires Inv(sv, t) && Legal(t, e) && !t.probing && (e.Crash? ==> Resumable(t.saved))
    ensures var r := Step(cfg, t, e);
            && !r.probing && (Sized(r) <==> Sized(t)) && Resource(sv, r) == Resource(sv, t)
            && (Sized(t) ==> r.total == t.total)
  {
    if Sized(t) {
      SizedTotal(t.file, Resource(sv, t), t.total, t.parts);
    }
    match e
    case Header(i, line) => HeaderSameFile(t, i, line);
    case Body(i, data, disk) => BodySameFile(cfg, t, i, data, disk);
    case Finished(i, rc, built) => FinishedSameFile(cfg, t, i, rc, built);
    case Spawn(built) => SpawnForm(t, built);
    case Crash =>
      RestartSameVersion(sv, t);
      if Sized(t) {
        RestartSameFile(sv, t);
      }
    case _ =>
  }

  /** The first body byte gives the file the adopted length, and settles the version. */
  lemma FirstBodyFixesLength(sv: Server, cfg: Config, t: Task, i: nat, data: Bytes, disk: Disk)
    requires ValidConfig(cfg) && Inv(sv, t) && Legal(t, Body(i, data, disk)) && HonestBody(sv, t, i, data)
    requires IsFirstBody(t, Body(i, data, disk))
    ensures var r := OnBody(cfg, t, i, data, disk);
            && !r.probing && Resource(sv, r) == sv.repr(t.contexts[i].conn.rep)
            && (Sized(r) ==> r.total == AdoptedLength(t, i))
            && (Sized(r) <==> disk.creates && AdoptedLength(t, i) > 0)
  {
    BodyMatches(sv, t, i, data);
    var t1 := FinalizeProbing(cfg, t, i, disk.creates);
    FirstPartEnd(cfg, t, disk.creates);
    if t1.status != Failed {
      WriteFrame(t1, i, data, disk.write);
    }
  }

  lemma FirstPartEnd(cfg: Config, t: Task, creates: bool)
    requires ValidConfig(cfg) && WellFormed(t) && |t.parts| == 1 && t.parts[0].end == -1
    ensures var r := FinalizeProbing(cfg, t, 0, creates);
            && !r.probing && r.etag == t.etag && r.lastModified == t.lastModified
            && r.total == (if AdoptedLength(t, 0) > 0 then AdoptedLength(t, 0) else t.total)
            && (r.parts[0].end >= 0 <==> creates && AdoptedLength(t, 0) > 0)
  {
    var created := CreateFile(t, 0);
    if creates && t.contexts[0].seenCode == 206 {
      if created.total > 0 {
        FirstPartFits(cfg, created.total);
      }
      assert CutParts(cfg, created).parts[0] == PlannedPartsOf(cfg, created.total)[0];
    }
  }

  // ---------------------------------------------------------------- a right length is enough

  /** The task takes its file to be as long as the resource. */
  predicate LengthInv(sv: Server, t: Task)
    requires WellFormed(t)
  {
    !t.probing && Sized(t) ==> t.total == |Resource(sv, t)|
  }

  lemma StepKeepsLength(sv: Server, cfg: Config, t: Task, e: Event)
    requires ValidConfig(cfg) && Inv(sv, t) && LengthInv(sv, t) && Legal(t, e) && Honest(sv, t, e)
    requires IsFirstBody(t, e) ==> RightLength(sv, t, e.i)
    ensures LengthInv(sv, Step(cfg, t, e))
  {
    if e.Crash? && !Resumable(t.saved) {
    } else if !t.probing {
      LengthIsFixed(sv, cfg, t, e);
    } else if IsFirstBody(t, e) {
      FirstBodyFixesLength(sv, cfg, t, e.i, e.data, e.disk);
    } else {
      StillProbing(cfg, t, e);
    }
  }

  lemma StillProbing(cfg: Config, t: Task, e: Event)
    requires WellFormed(t) && Legal(t, e) && t.probing && !IsFirstBody(t, e)
    requires e.Crash? ==> !Resumable(t.saved)
    ensures Step(cfg, t, e).probing
  {
    match e
    case Header(i, line) => HeaderSameFile(t, i, line);
    case Finished(i, rc, built) => FinishedSameFile(cfg, t, i, rc, built);
    case Spawn(built) => SpawnForm(t, built);
    case _ =>
  }

  lemma {:induction false} RunKeepsLength(sv: Server, cfg: Config, t: Task, run: seq<Event>)
    requires ValidConfig(cfg) && Inv(sv, t) && LengthInv(sv, t) && LegalRun(cfg, t, run)
    requires HonestRun(sv, cfg, t, run) && RightRun(sv, cfg, t, run)
    ensures LengthInv(sv, Replay(cfg, t, run))
    decreases |run|
  {
    if run != [] {
      StepKeeps(sv, cfg, t, run[0]);
      StepKeepsLength(sv, cfg, t, run[0]);
      RunKeepsLength(sv, cfg, Step(cfg, t, run[0]), run[1..]);
    }
  }

  /** What a Completed verdict says about the file when the length was right. */
  ghost predicate CompletedIsResource(sv: Server, t: Task)
    requires WellFormed(t)
  {
    t.status == Completed ==>
      && (Sized(t) ==> t.file == Resource(sv, t) && |t.file| == t.total)
      && (!Sized(t) && !t.probing ==>
            t.file <= Resource(sv, t) && (t.file == Resource(sv, t) <==> |t.file| == |Resource(sv, t)|))
      && (t.probing ==> t.file == [] && !Sized(t))
  }

  /** The law of the engine for every run whose probes took the right length. */
  lemma CompletedFileIsResource(sv: Server, cfg: Config, run: seq<Event>)
    requires ValidConfig(cfg) && LegalRun(cfg, NEW_TASK, run)
    requires HonestRun(sv, cfg, NEW_TASK, run) && RightRun(sv, cfg, NEW_TASK, run)
    ensures CompletedIsResource(sv, Replay(cfg, NEW_TASK, run))
  {
    CompletedFileIsPrefix(sv, cfg, run);
    RunKeepsLength(sv, cfg, NEW_TASK, run);
  }

  // ---------------------------------------------------------------- and no other length is

  /** No restart without a record: the run stays with one file. */
  predicate OneFile(cfg: Config, t: Task, run: seq<Event>)
    requires WellFormed(t) && LegalRun(cfg, t, run)
    decreases |run|
  {
    run == [] || ((run[0].Crash? ==> Resumable(t.saved)) && OneFile(cfg, Step(cfg, t, run[0]), run[1..]))
  }

  lemma {:induction false} RunFixesLength(sv: Server, cfg: Config, t: Task, run: seq<Event>)
    requires ValidConfig(cfg) && Inv(sv, t) && !t.probing && LegalRun(cfg, t, run)
    requires HonestRun(sv, cfg, t, run) && OneFile(cfg, t, run)
    ensures var r := Replay(cfg, t, run);
            && Inv(sv, r) && !r.probing && (Sized(r) <==> Sized(t)) && Resource(sv, r) == Resource(sv, t)
            && (Sized(t) ==> r.total == t.total)
    decreases |run|
  {
    if run != [] {
      StepKeeps(sv, cfg, t, run[0]);
      LengthIsFixed(sv, cfg, t, run[0]);
      RunFixesLength(sv, cfg, Step(cfg, t, run[0]), run[1..]);
    }
  }

  /** From a probe's first body byte to the verdict, with any crashes between: a Completed file of known length is the
      resource if and only if the length that was adopted is right. */
  lemma CompletedExactly(sv: Server, cfg: Config, t: Task, i: nat, data: Bytes, disk: Disk, run: seq<Event>)
    requires ValidConfig(cfg) && Inv(sv, t) && Legal(t, Body(i, data, disk)) && HonestBody(sv, t, i, data)
    requires IsFirstBody(t, Body(i, data, disk))
    requires var t1 := OnBody(cfg, t, i, data, disk);
             LegalRun(cfg, t1, run) && HonestRun(sv, cfg, t1, run) && OneFile(cfg, t1, run)
    ensures var r := Replay(cfg, OnBody(cfg, t, i, data, disk), run);
            r.status == Completed && Sized(r) ==> (r.file == Resource(sv, r) <==> RightLength(sv, t, i))
  {
    BodyKeeps(sv, cfg, t, i, data, disk);
    FirstBodyFixesLength(sv, cfg, t, i, data, disk);
    RunFixesLength(sv, cfg, OnBody(cfg, t, i, data, disk), run);
    InvGivesFile(sv, Replay(cfg, OnBody(cfg, t, i, data, disk), run));
  }
}
