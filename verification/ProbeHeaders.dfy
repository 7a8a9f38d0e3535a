/**
  What the header lines of a probe make the task believe about the length of its file, for every sequence of lines:
  redirects, interim responses, responses cut off and asked for again, in any order of the fields.
*/
module ProbeHeaders {
  import opened SplitPlan
  import opened DownloadModel
  import opened DownloadInvariant
  import opened DownloadTheorems
  import opened DownloadLengths

  // ---------------------------------------------------------------- the first length wins

  /** The lines as the callback gets them. */
  function Headers(i: nat, lines: seq<HeaderLine>): seq<Event> {
    seq(|lines|, k requires 0 <= k < |lines| => Header(i, lines[k]))
  }

  /** The total of the first Content-Range that gives one; 0 without one. */
  function FirstRange(lines: seq<HeaderLine>): (total: int)
    ensures total >= 0
  {
    if lines == [] then 0
    else if lines[0].ContentRange? && lines[0].total > 0 then lines[0].total
    else FirstRange(lines[1..])
  }

  /** The first Content-Length outside a 206 response; 0 without one. `code` is that of the response so far. */
  function FirstLength(code: int, lines: seq<HeaderLine>): (length: int)
    ensures length >= 0
    decreases |lines|
  {
    if lines == [] then 0
    else if lines[0].StatusLine? then FirstLength(lines[0].code, lines[1..])
    else if lines[0].ContentLength? && lines[0].length > 0 && code != 206 then lines[0].length
    else FirstLength(code, lines[1..])
  }

  /** What is believed after the lines of a new connection, when `total` was believed before. */
  function Remembered(total: int, lines: seq<HeaderLine>): int {
    if total > 0 then total else if FirstRange(lines) > 0 then FirstRange(lines) else FirstLength(0, lines)
  }

  predicate Listening(t: Task, i: nat) {
    WellFormed(t) && t.probing && i < |t.contexts| && t.contexts[i].conn.Open?
  }

  /** One line that is not refused. */
  lemma OneLine(t: Task, i: nat, line: HeaderLine)
    requires Listening(t, i) && !t.contexts[i].conn.aborted
    ensures var r := OnHeader(t, i, line);
            && Listening(r, i)
            && (!r.contexts[i].conn.aborted ==>
                  var c, d := t.contexts[i], r.contexts[i];
                  && d.conn.rep == (if line.StatusLine? then line.rep else c.conn.rep)
                  && d.seenCode == (if line.StatusLine? then line.code else c.seenCode)
                  && r.total == (if t.total <= 0 && line.ContentRange? && line.total > 0 then line.total else t.total)
                  && (line.ContentRange? && line.total > 0 ==> r.total == line.total)
                  && (r.total <= 0 ==>
                        var taken := line.ContentLength? && line.length > 0 && c.seenTotal <= 0 && c.seenCode != 206;
                        d.seenTotal == if taken then line.length else c.seenTotal))
  {
    HeaderSameFile(t, i, line);
  }

  /** Header lines that all reach the callback, the last one included. */
  predicate Heard(cfg: Config, t: Task, i: nat, lines: seq<HeaderLine>) {
    && Listening(t, i) && LegalRun(cfg, t, Headers(i, lines))
    && var r := Replay(cfg, t, Headers(i, lines));
       i < |r.contexts| && r.contexts[i].conn.Open? && !r.contexts[i].conn.aborted && !t.contexts[i].conn.aborted
  }

  lemma HeardFirst(cfg: Config, t: Task, i: nat, lines: seq<HeaderLine>)
    requires Heard(cfg, t, i, lines) && lines != []
    ensures var r := OnHeader(t, i, lines[0]);
            && Heard(cfg, r, i, lines[1..])
            && Replay(cfg, r, Headers(i, lines[1..])) == Replay(cfg, t, Headers(i, lines))
  {
    var events := Headers(i, lines);
    assert events[0] == Header(i, lines[0]) && events[1..] == Headers(i, lines[1..]);
    OneLine(t, i, lines[0]);
    if |lines| > 1 {
      assert Headers(i, lines[1..])[0] == Header(i, lines[1]);
    }
  }

  /** After any header lines, the length believed is the one believed before, or the first Content-Range total, or the
      first Content-Length; every total heard agrees with it. */
  lemma {:induction false} FirstAnnounced(cfg: Config, t: Task, i: nat, lines: seq<HeaderLine>)
    requires Heard(cfg, t, i, lines)
    ensures var r, c := Replay(cfg, t, Headers(i, lines)), t.contexts[i];
            && Listening(r, i)
            && AdoptedLength(r, i) == (if t.total > 0 then t.total
                                       else if FirstRange(lines) > 0 then FirstRange(lines)
                                       else if c.seenTotal > 0 then c.seenTotal
                                       else FirstLength(c.seenCode, lines))
            && (t.total > 0 && FirstRange(lines) > 0 ==> FirstRange(lines) == t.total)
    decreases |lines|
  {
    if lines != [] {
      OneLine(t, i, lines[0]);
      HeardFirst(cfg, t, i, lines);
      FirstAnnounced(cfg, OnHeader(t, i, lines[0]), i, lines[1..]);
    }
  }

  // ---------------------------------------------------------------- when it is the right one

  predicate OneResponse(lines: seq<HeaderLine>) {
    forall k :: 0 <= k < |lines| ==> !lines[k].StatusLine?
  }

  /** The response announces no wrong length of the version it carries. */
  predicate TrueLengths(sv: Server, code: int, rep: string, lines: seq<HeaderLine>) {
    forall k :: 0 <= k < |lines| ==>
      && (lines[k].ContentRange? && lines[k].total > 0 ==> lines[k].total == |sv.repr(rep)|)
      && (lines[k].ContentLength? && lines[k].length > 0 && code != 206 ==> lines[k].length == |sv.repr(rep)|)
  }

  lemma {:induction false} TrueFirsts(sv: Server, code: int, rep: string, lines: seq<HeaderLine>)
    requires OneResponse(lines) && TrueLengths(sv, code, rep, lines)
    ensures FirstRange(lines) == 0 || FirstRange(lines) == |sv.repr(rep)|
    ensures FirstLength(code, lines) == 0 || FirstLength(code, lines) == |sv.repr(rep)|
  {
    if lines != [] {
      assert TrueLengths(sv, code, rep, lines[1..]);
      TrueFirsts(sv, code, rep, lines[1..]);
    }
  }

  lemma {:induction false} SameVersion(cfg: Config, t: Task, i: nat, lines: seq<HeaderLine>)
    requires Heard(cfg, t, i, lines) && OneResponse(lines)
    ensures Replay(cfg, t, Headers(i, lines)).contexts[i].conn.rep == t.contexts[i].conn.rep
    decreases |lines|
  {
    if lines != [] {
      OneLine(t, i, lines[0]);
      HeardFirst(cfg, t, i, lines);
      SameVersion(cfg, OnHeader(t, i, lines[0]), i, lines[1..]);
    }
  }

  /** The last response of a probe, after whatever was heard before it: the length believed is right if and only if
      the response gives its total itself, or nothing was believed before it, or by chance the right length was. */
  lemma LastResponseExactly(sv: Server, cfg: Config, t: Task, i: nat, code: int, rep: string, lines: seq<HeaderLine>)
    requires Listening(t, i) && Heard(cfg, t, i, [StatusLine(code, rep)] + lines)
    requires OneResponse(lines) && TrueLengths(sv, code, rep, lines)
    ensures var r, older := Replay(cfg, t, Headers(i, [StatusLine(code, rep)] + lines)), AdoptedLength(t, i);
            && Listening(r, i)
            && (RightLength(sv, r, i) <==> FirstRange(lines) > 0 || older == 0 || older == |sv.repr(rep)|)
  {
    var all := [StatusLine(code, rep)] + lines;
    assert all[0] == StatusLine(code, rep) && all[1..] == lines;
    OneLine(t, i, all[0]);
    HeardFirst(cfg, t, i, all);
    var t1 := OnHeader(t, i, all[0]);
    FirstAnnounced(cfg, t1, i, lines);
    SameVersion(cfg, t1, i, lines);
    TrueFirsts(sv, code, rep, lines);
  }

  /** For every header sequence of a probe's connection, whatever responses came before the last one: the length the
      file gets is right if and only if the last response gives a total in its Content-Range, or no length was
      remembered from an earlier response, or that length happens to be the right one. What is remembered is the first
      total of all connections, or else the first Content-Length of this one. */
  lemma RightLengthExactly(sv: Server, cfg: Config, t: Task, i: nat, earlier: seq<HeaderLine>, code: int, rep: string,
                           lines: seq<HeaderLine>)
    requires Heard(cfg, t, i, earlier) && t.contexts[i].seenTotal == 0 && t.contexts[i].seenCode == 0
    requires Heard(cfg, Replay(cfg, t, Headers(i, earlier)), i, [StatusLine(code, rep)] + lines)
    requires OneResponse(lines) && TrueLengths(sv, code, rep, lines)
    ensures var older := Remembered(t.total, earlier);
            var r := Replay(cfg, Replay(cfg, t, Headers(i, earlier)), Headers(i, [StatusLine(code, rep)] + lines));
            && Listening(r, i)
            && (RightLength(sv, r, i) <==> FirstRange(lines) > 0 || older == 0 || older == |sv.repr(rep)|)
  {
    FirstAnnounced(cfg, t, i, earlier);
    LastResponseExactly(sv, cfg, Replay(cfg, t, Headers(i, earlier)), i, code, rep, lines);
  }

  /** From the headers of a probe to the verdict, with any crashes after the first body byte: a Completed file of known
      length is the resource exactly under the condition above on the headers. */
  lemma CompletedByHeaders(sv: Server, cfg: Config, t: Task, i: nat, earlier: seq<HeaderLine>, code: int, rep: string,
                           lines: seq<HeaderLine>, data: Bytes, disk: Disk, run: seq<Event>)
    requires ValidConfig(cfg)
    requires Heard(cfg, t, i, earlier) && t.contexts[i].seenTotal == 0 && t.contexts[i].seenCode == 0
    requires Heard(cfg, Replay(cfg, t, Headers(i, earlier)), i, [StatusLine(code, rep)] + lines)
    requires OneResponse(lines) && TrueLengths(sv, code, rep, lines)
    requires var r := Replay(cfg, Replay(cfg, t, Headers(i, earlier)), Headers(i, [StatusLine(code, rep)] + lines));
             && Inv(sv, r) && Legal(r, Body(i, data, disk)) && HonestBody(sv, r, i, data)
             && IsFirstBody(r, Body(i, data, disk))
             && var r1 := OnBody(cfg, r, i, data, disk);
                LegalRun(cfg, r1, run) && HonestRun(sv, cfg, r1, run) && OneFile(cfg, r1, run)
    ensures var older := Remembered(t.total, earlier);
            var r := Replay(cfg, Replay(cfg, t, Headers(i, earlier)), Headers(i, [StatusLine(code, rep)] + lines));
            var end := Replay(cfg, OnBody(cfg, r, i, data, disk), run);
            end.status == Completed && Sized(end) ==>
              (end.file == Resource(sv, end) <==> FirstRange(lines) > 0 || older == 0 || older == |sv.repr(rep)|)
  {
    RightLengthExactly(sv, cfg, t, i, earlier, code, rep, lines);
    var r := Replay(cfg, Replay(cfg, t, Headers(i, earlier)), Headers(i, [StatusLine(code, rep)] + lines));
    CompletedExactly(sv, cfg, r, i, data, disk, run);
  }

  // ---------------------------------------------------------------- responses that are not cut off

  /** Only a response gives a total, and it is that of the version it carries. */
  predicate TrueRange(sv: Server, t: Task, e: Event)
    requires Legal(t, e)
  {
    e.Header? && e.line.ContentRange? && e.line.total > 0 ==>
      t.contexts[e.i].conn.code != 0 && e.line.total == |sv.repr(t.contexts[e.i].conn.rep)|
  }

  /** While a total is believed, no response of a probe ends, and none is followed by another, before it has named its
      version. Nothing is asked about the order of its lines. */
  predicate Uncut(sv: Server, t: Task, e: Event)
    requires Legal(t, e)
  {
    (e.Finished? || (e.Header? && e.line.StatusLine?)) && t.probing && t.total > 0 ==>
      t.contexts[e.i].conn.code == 0 || Validated(sv, t.contexts[e.i].conn)
  }

  /** The Content-Length of a 200 is that of the version it carries; other responses may announce what they like. */
  predicate TrueLength(sv: Server, t: Task, e: Event)
    requires Legal(t, e)
  {
    e.Header? && e.line.ContentLength? && e.line.length > 0 && t.contexts[e.i].conn.code == 200 ==>
      e.line.length == |sv.repr(t.contexts[e.i].conn.rep)|
  }

  /** The length that was remembered on the probe's connection when its present response began. */
  function Carried(t: Task, e: Event, carried: int): int
    requires Legal(t, e)
  {
    if e.Header? && e.line.StatusLine? then t.contexts[e.i].seenTotal
    else if e.Finished? || e.Spawn? || e.Crash? then 0
    else carried
  }

  /** A body without a total does not follow a response, such as a redirect, whose length is still remembered. */
  predicate OwnLength(t: Task, e: Event, carried: int) {
    IsFirstBody(t, e) && t.total <= 0 ==> carried <= 0
  }

  /** `carried` is what was remembered when the present response began. */
  predicate UncutRun(sv: Server, cfg: Config, t: Task, carried: int, run: seq<Event>)
    requires WellFormed(t) && LegalRun(cfg, t, run)
    decreases |run|
  {
    run == [] || (TrueRange(sv, t, run[0]) && TrueLength(sv, t, run[0]) && Uncut(sv, t, run[0])
                  && OwnLength(t, run[0], carried)
                  && UncutRun(sv, cfg, Step(cfg, t, run[0]), Carried(t, run[0], carried), run[1..]))
  }

  /** The transfer of a probe whose headers are still being followed. */
  predicate Following(t: Task)
    requires WellFormed(t)
  {
    && t.probing && t.contexts[0].conn.Open? && !t.contexts[0].conn.aborted
    && t.status != Failed && !t.loop.cancelRequested && !t.loop.pauseRequested
  }

  /** The total belongs to the version the task has heard of. */
  predicate TotalOfTask(sv: Server, t: Task) {
    KeyKnown(sv, t) && t.total == |Resource(sv, t)|
  }

  /** A total that is believed belongs to the version the task knows, or to the response it is listening to. */
  predicate TotalHasVersion(sv: Server, t: Task)
    requires WellFormed(t)
  {
    && (t.probing && t.loop.spawned == 0 ==> t.total <= 0)
    && (Following(t) && t.total > 0 ==>
          TotalOfTask(sv, t)
          || (t.contexts[0].conn.code != 0 && t.total == |sv.repr(t.contexts[0].conn.rep)|))
  }

  /** A response that has named its version, and was not refused for it, carries the version of the task. */
  lemma NamedVersion(sv: Server, t: Task)
    requires Inv(sv, t) && Following(t) && Validated(sv, t.contexts[0].conn)
    ensures KeyKnown(sv, t) && Resource(sv, t) == sv.repr(t.contexts[0].conn.rep)
  {
    assert Aligned(sv, t, t.contexts[0], t.parts[0]);
  }

  /** When a response may end, the total is that of the task's version. */
  lemma TotalIsNamed(sv: Server, t: Task, e: Event)
    requires Inv(sv, t) && TotalHasVersion(sv, t) && Following(t) && t.total > 0
    requires Legal(t, e) && Uncut(sv, t, e) && (e.Finished? || (e.Header? && e.line.StatusLine?)) && e.i == 0
    ensures TotalOfTask(sv, t)
  {
    if Validated(sv, t.contexts[0].conn) {
      NamedVersion(sv, t);
    }
  }

  lemma SameVersionOfTask(sv: Server, t: Task, r: Task)
    requires WellFormed(t) && WellFormed(r) && SameFile(t, r) && TotalOfTask(sv, t) && t.total > 0
    ensures TotalOfTask(sv, r)
  {
  }

  lemma HeaderKeepsVersion(sv: Server, t: Task, i: nat, line: HeaderLine)
    requires Inv(sv, t) && TotalHasVersion(sv, t) && t.probing && Legal(t, Header(i, line))
    requires HonestHeader(sv, t, i, line)
    requires TrueRange(sv, t, Header(i, line)) && Uncut(sv, t, Header(i, line))
    ensures TotalHasVersion(sv, OnHeader(t, i, line))
  {
    var r := OnHeader(t, i, line);
    OneLine(t, i, line);
    HeaderSameFile(t, i, line);
    if Following(r) && r.total > 0 {
      assert Following(t);
      if line.StatusLine? && t.total > 0 {
        TotalIsNamed(sv, t, Header(i, line));
      }
      if t.total > 0 && TotalOfTask(sv, t) {
        SameVersionOfTask(sv, t, r);
      }
    }
  }

  lemma FinishedKeepsVersion(sv: Server, cfg: Config, t: Task, i: nat, rc: TransferResult, built: bool)
    requires Inv(sv, t) && TotalHasVersion(sv, t) && t.probing && Legal(t, Finished(i, rc, built))
    requires Uncut(sv, t, Finished(i, rc, built))
    ensures TotalHasVersion(sv, OnFinished(cfg, t, i, rc, built))
  {
    var r := OnFinished(cfg, t, i, rc, built);
    FinishedSameFile(cfg, t, i, rc, built);
    ProbeAskedAgain(cfg, t, rc, built);
    if Following(r) && t.total > 0 {
      TotalIsNamed(sv, t, Finished(i, rc, built));
      SameVersionOfTask(sv, t, r);
    }
  }

  /** A probe goes on with a new request only if its transfer was still followed. */
  lemma ProbeAskedAgain(cfg: Config, t: Task, rc: TransferResult, built: bool)
    requires Shape(t) && t.probing && Legal(t, Finished(0, rc, built))
    ensures var r := OnFinished(cfg, t, 0, rc, built);
            && r.loop.spawned == t.loop.spawned
            && (Following(r) ==> Following(t) && r.total == t.total && r.contexts[0].seenTotal == 0)
  {
    FinishedForm(cfg, t, 0, rc, built);
    var t0 := WithConnection(t, 0, Closed);
    var v := PartResult(cfg, t0, 0, rc, t.contexts[0].conn.code);
    PartResultFrame(cfg, t0, 0, rc, t.contexts[0].conn.code);
    if t.contexts[0].conn.aborted {
      assert !v.again;
    }
    assert v.again ==> v.task.total == t.total && v.task.status == t.status;
  }

  lemma SpawnKeepsVersion(sv: Server, t: Task, built: bool)
    requires Shape(t) && TotalHasVersion(sv, t) && t.probing && Legal(t, Spawn(built))
    ensures TotalHasVersion(sv, SpawnNext(t, built))
  {
    SpawnForm(t, built);
  }

  lemma StepKeepsVersion(sv: Server, cfg: Config, t: Task, e: Event)
    requires ValidConfig(cfg) && Inv(sv, t) && TotalHasVersion(sv, t) && Legal(t, e) && Honest(sv, t, e)
    requires TrueRange(sv, t, e) && Uncut(sv, t, e)
    ensures TotalHasVersion(sv, Step(cfg, t, e))
  {
    if t.probing {
      match e
      case Header(i, line) => HeaderKeepsVersion(sv, t, i, line);
      case Body(i, data, disk) =>
        if IsFirstBody(t, e) {
          FirstBodyFixesLength(sv, cfg, t, i, data, disk);
        }
      case Finished(i, rc, built) => FinishedKeepsVersion(sv, cfg, t, i, rc, built);
      case Spawn(built) => SpawnKeepsVersion(sv, t, built);
      case _ =>
    } else if !e.Crash? || Resumable(t.saved) {
      LengthIsFixed(sv, cfg, t, e);
    }
  }

  /** A length remembered from no earlier response is that of the version the present one carries. */
  predicate LengthIsOwn(sv: Server, t: Task, carried: int)
    requires WellFormed(t)
  {
    var c := t.contexts[0];
    Following(t) && t.total <= 0 && carried <= 0 && c.seenTotal > 0 ==>
      c.conn.code != 206 && (c.conn.code == 200 ==> c.seenTotal == |sv.repr(c.conn.rep)|)
  }

  lemma HeaderKeepsOwn(sv: Server, t: Task, i: nat, line: HeaderLine, carried: int)
    requires Inv(sv, t) && LengthIsOwn(sv, t, carried) && t.probing && Legal(t, Header(i, line))
    requires HonestHeader(sv, t, i, line) && TrueLength(sv, t, Header(i, line))
    ensures LengthIsOwn(sv, OnHeader(t, i, line), Carried(t, Header(i, line), carried))
  {
    var r := OnHeader(t, i, line);
    HeaderKeeps(sv, t, i, line);
    OneLine(t, i, line);
    assert Aligned(sv, t, t.contexts[0], t.parts[0]);
    assert Aligned(sv, r, r.contexts[0], r.parts[0]);
    if Following(r) {
      assert Following(t);
    }
  }

  lemma StepKeepsOwn(sv: Server, cfg: Config, t: Task, e: Event, carried: int)
    requires ValidConfig(cfg) && Inv(sv, t) && LengthIsOwn(sv, t, carried) && Legal(t, e) && Honest(sv, t, e)
    requires TrueLength(sv, t, e)
    ensures LengthIsOwn(sv, Step(cfg, t, e), Carried(t, e, carried))
  {
    if t.probing {
      match e
      case Header(i, line) => HeaderKeepsOwn(sv, t, i, line, carried);
      case Body(i, data, disk) =>
        if IsFirstBody(t, e) {
          FirstBodyFixesLength(sv, cfg, t, i, data, disk);
        }
      case Finished(i, rc, built) => ProbeAskedAgain(cfg, t, rc, built);
      case Spawn(built) => SpawnForm(t, built);
      case _ =>
    } else if !e.Crash? || Resumable(t.saved) {
      LengthIsFixed(sv, cfg, t, e);
    }
  }

  /** So the length is right when the first body byte comes. */
  lemma LengthIsRight(sv: Server, t: Task, i: nat, data: Bytes, disk: Disk, carried: int)
    requires Inv(sv, t) && TotalHasVersion(sv, t) && LengthIsOwn(sv, t, carried)
    requires Legal(t, Body(i, data, disk)) && HonestBody(sv, t, i, data)
    requires IsFirstBody(t, Body(i, data, disk)) && OwnLength(t, Body(i, data, disk), carried)
    ensures RightLength(sv, t, i)
  {
    BodyMatches(sv, t, i, data);
  }

  lemma {:induction false} UncutIsRight(sv: Server, cfg: Config, t: Task, carried: int, run: seq<Event>)
    requires ValidConfig(cfg) && Inv(sv, t) && TotalHasVersion(sv, t) && LengthIsOwn(sv, t, carried)
    requires LegalRun(cfg, t, run) && HonestRun(sv, cfg, t, run) && UncutRun(sv, cfg, t, carried, run)
    ensures RightRun(sv, cfg, t, run)
    decreases |run|
  {
    if run != [] {
      if IsFirstBody(t, run[0]) {
        LengthIsRight(sv, t, run[0].i, run[0].data, run[0].disk, carried);
      }
      StepKeeps(sv, cfg, t, run[0]);
      StepKeepsVersion(sv, cfg, t, run[0]);
      StepKeepsOwn(sv, cfg, t, run[0], carried);
      UncutIsRight(sv, cfg, Step(cfg, t, run[0]), Carried(t, run[0], carried), run[1..]);
    }
  }

  /** The law of the engine in terms of headers alone: when the lengths announced are true, no response of a probe is
      cut off between its total and its version, and no body without a total follows another response that announced a
      length, a Completed file is the resource. */
  lemma UncutDownloadIsResource(sv: Server, cfg: Config, run: seq<Event>)
    requires ValidConfig(cfg) && LegalRun(cfg, NEW_TASK, run)
    requires HonestRun(sv, cfg, NEW_TASK, run) && UncutRun(sv, cfg, NEW_TASK, 0, run)
    ensures CompletedIsResource(sv, Replay(cfg, NEW_TASK, run))
  {
    UncutIsRight(sv, cfg, NEW_TASK, 0, run);
    CompletedFileIsResource(sv, cfg, run);
  }
}
