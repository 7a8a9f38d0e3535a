/**
  Playing a file while it downloads: the playback session may rely on what either engine publishes, because every
  byte they report as downloaded is on disk and final.
*/
module Streaming {
  import opened PieceIntervals
  import opened DownloadModel
  import Inv = DownloadInvariant
  import Theorems = DownloadTheorems
  import Lengths = DownloadLengths
  import opened SplitPlan
  import Torrent = TorrentProgress
  import Playback

  /** The downloaded stretch of each part of an HTTP download that has any. */
  function PartSegments(parts: seq<Part>): seq<Segment> {
    if parts == [] then []
    else
      var p := parts[|parts| - 1];
      PartSegments(parts[..|parts| - 1]) + (if p.done > 0 then [Segment(p.start, p.start + p.done - 1)] else [])
  }

  lemma {:induction false} CoveredByPart(parts: seq<Part>, b: int) returns (i: nat)
    requires Covers(PartSegments(parts), b)
    ensures i < |parts| && parts[i].start <= b < parts[i].start + parts[i].done
  {
    var n := |parts| - 1;
    var segments, front := PartSegments(parts), PartSegments(parts[..n]);
    var k :| 0 <= k < |segments| && segments[k].Contains(b);
    if k < |front| {
      assert front[k].Contains(b);
      i := CoveredByPart(parts[..n], b);
    } else {
      i := n;
    }
  }

  lemma {:induction false} PartIsCovered(parts: seq<Part>, i: nat, b: int)
    requires i < |parts| && parts[i].start <= b < parts[i].start + parts[i].done
    ensures Covers(PartSegments(parts), b)
  {
    var n := |parts| - 1;
    var segments, front := PartSegments(parts), PartSegments(parts[..n]);
    if i < n {
      PartIsCovered(parts[..n], i, b);
      var k :| 0 <= k < |front| && front[k].Contains(b);
      assert segments[k].Contains(b);
    } else {
      assert segments[|segments| - 1].Contains(b);
    }
  }

  /** Exactly the bytes that some part has claimed are offered to the player. */
  lemma OfferedExactly(parts: seq<Part>, b: int)
    ensures Covers(PartSegments(parts), b)
            <==> exists i :: 0 <= i < |parts| && parts[i].start <= b < parts[i].start + parts[i].done
  {
    if Covers(PartSegments(parts), b) {
      var i := CoveredByPart(parts, b);
    }
    if i :| 0 <= i < |parts| && parts[i].start <= b < parts[i].start + parts[i].done {
      PartIsCovered(parts, i, b);
    }
  }

  /** What an HTTP download has claimed can be played: at every moment of every honest run. */
  lemma DownloadIsPlayable(sv: Inv.Server, t: Task)
    requires Inv.Inv(sv, t)
    ensures Playback.Trusted(Playback.Disk(PartSegments(t.parts), t.file), Inv.Resource(sv, t))
  {
    forall b | Covers(PartSegments(t.parts), b)
      ensures 0 <= b < |Inv.Resource(sv, t)| && b < |t.file| && t.file[b] == Inv.Resource(sv, t)[b]
    {
      var i := CoveredByPart(t.parts, b);
      Theorems.PartBytesAreRight(sv, t, i, b);
    }
  }

  // ---------------------------------------------------------------- playing while downloading

  /** What happens to a playback session; what it sees is the download as it stands at that moment. */
  datatype Action = Begins | HeadSent(ok: bool) | BodySent(outcome: Playback.Outcome) | TimerFires(alive: bool)

  datatype Event = Downloads(e: DownloadModel.Event) | Plays(a: Action)

  datatype State = State(task: Task, session: Playback.Session)

  function Seen(t: Task): Playback.Disk {
    Playback.Disk(PartSegments(t.parts), t.file)
  }

  function PlayEvent(a: Action, disk: Playback.Disk): Playback.Event {
    match a
    case Begins => Playback.Begin(disk)
    case HeadSent(ok) => Playback.HeaderWritten(ok)
    case BodySent(outcome) => Playback.BodyWritten(outcome, disk)
    case TimerFires(alive) => Playback.TimerFired(alive, disk)
  }

  /** An honest step of the download, which does not give up a file it has begun, or any step of the session. */
  predicate Legal(sv: Inv.Server, w: State, e: Event)
    requires WellFormed(w.task)
  {
    match e
    case Downloads(d) =>
      DownloadModel.Legal(w.task, d) && Inv.Honest(sv, w.task, d)
      && (d.Crash? && !w.task.probing ==> Resumable(w.task.saved))
    case Plays(a) => Playback.Legal(w.session, PlayEvent(a, Seen(w.task)))
  }

  function Step(sv: Inv.Server, cfg: Config, w: State, e: Event): (r: State)
    requires WellFormed(w.task) && Legal(sv, w, e)
    ensures WellFormed(r.task)
  {
    match e
    case Downloads(d) => w.(task := DownloadModel.Step(cfg, w.task, d))
    case Plays(a) => w.(session := Playback.Step(w.session, PlayEvent(a, Seen(w.task))))
  }

  predicate Run(sv: Inv.Server, cfg: Config, w: State, run: seq<Event>)
    requires WellFormed(w.task)
    decreases |run|
  {
    run == [] || (Legal(sv, w, run[0]) && Run(sv, cfg, Step(sv, cfg, w, run[0]), run[1..]))
  }

  function Replay(sv: Inv.Server, cfg: Config, w: State, run: seq<Event>): (r: State)
    requires WellFormed(w.task) && Run(sv, cfg, w, run)
    ensures WellFormed(r.task)
    decreases |run|
  {
    if run == [] then w else Replay(sv, cfg, Step(sv, cfg, w, run[0]), run[1..])
  }

  /** Once probing is over, the version stays the same to the end. */
  lemma {:induction false} FinalVersion(sv: Inv.Server, cfg: Config, w: State, run: seq<Event>)
    requires ValidConfig(cfg) && Inv.Inv(sv, w.task) && !w.task.probing && Run(sv, cfg, w, run)
    ensures Inv.Resource(sv, Replay(sv, cfg, w, run).task) == Inv.Resource(sv, w.task)
    decreases |run|
  {
    if run != [] {
      if run[0].Downloads? {
        Theorems.StepKeeps(sv, cfg, w.task, run[0].e);
        Lengths.LengthIsFixed(sv, cfg, w.task, run[0].e);
      }
      FinalVersion(sv, cfg, Step(sv, cfg, w, run[0]), run[1..]);
    }
  }

  /** What the session sees at any moment are bytes of the final version. */
  lemma SeenIsFinal(sv: Inv.Server, cfg: Config, w: State, run: seq<Event>)
    requires ValidConfig(cfg) && Inv.Inv(sv, w.task) && Run(sv, cfg, w, run)
    ensures Playback.Trusted(Seen(w.task), Inv.Resource(sv, Replay(sv, cfg, w, run).task))
  {
    if w.task.probing {
      assert w.task.parts == [w.task.parts[0]];
      assert PartSegments(w.task.parts) == PartSegments([]) + [];
    } else {
      DownloadIsPlayable(sv, w.task);
      FinalVersion(sv, cfg, w, run);
    }
  }

  lemma JointStepKeeps(sv: Inv.Server, cfg: Config, w: State, e: Event, content: Bytes)
    requires ValidConfig(cfg) && Inv.Inv(sv, w.task) && Legal(sv, w, e) && Playback.Inv(w.session, content)
    requires Playback.Trusted(Seen(w.task), content)
    ensures var r := Step(sv, cfg, w, e);
            && Inv.Inv(sv, r.task) && Playback.Inv(r.session, content)
            && r.session.start == w.session.start && r.session.end == w.session.end
            && r.session.total == w.session.total
  {
    match e
    case Downloads(d) => Theorems.StepKeeps(sv, cfg, w.task, d);
    case Plays(a) => Playback.StepKeeps(w.session, PlayEvent(a, Seen(w.task)), content);
  }

  lemma {:induction false} JointRunKeeps(sv: Inv.Server, cfg: Config, w: State, run: seq<Event>, content: Bytes)
    requires ValidConfig(cfg) && Inv.Inv(sv, w.task) && Run(sv, cfg, w, run)
    requires content == Inv.Resource(sv, Replay(sv, cfg, w, run).task) && Playback.Inv(w.session, content)
    ensures var s := Replay(sv, cfg, w, run).session;
            Playback.Inv(s, content) && s.start == w.session.start && s.end == w.session.end
            && s.total == w.session.total
    decreases |run|
  {
    if run != [] {
      SeenIsFinal(sv, cfg, w, run);
      JointStepKeeps(sv, cfg, w, run[0], content);
      JointRunKeeps(sv, cfg, Step(sv, cfg, w, run[0]), run[1..], content);
    }
  }

  /** A file is downloaded and played at the same time, in any interleaving, with any crashes of the download: the
      player gets one head, then the bytes of one version of the resource, the one the download ends with, from the
      start of its range; and if its response is finished, exactly the range. */
  lemma PlayedIsDownloaded(sv: Inv.Server, cfg: Config, start: int, end: int, total: int, run: seq<Event>)
    requires ValidConfig(cfg) && start <= end
    requires Run(sv, cfg, State(NEW_TASK, Playback.NewSession(start, end, total)), run)
    ensures var w := Replay(sv, cfg, State(NEW_TASK, Playback.NewSession(start, end, total)), run);
            var content, s := Inv.Resource(sv, w.task), w.session;
            && |s.heads| <= 1
            && (s.body != [] ==> s.heads == [Playback.HeadOf(s)]
                                 && Playback.Slice(content, start, start + |s.body|, s.body))
            && Playback.Announces(s.heads, start, end, total, content, s.body)
            && (s.phase == Playback.Done ==> 0 <= start && end < |content| && s.body == content[start..end + 1])
  {
    var w := State(NEW_TASK, Playback.NewSession(start, end, total));
    var content := Inv.Resource(sv, Replay(sv, cfg, w, run).task);
    JointRunKeeps(sv, cfg, w, run, content);
    Playback.WireAnnounces(Replay(sv, cfg, w, run).session, content);
  }

  // ---------------------------------------------------------------- torrents

  /** What the torrent engine has published can be played, when the session writes finished pieces to disk. */
  lemma TorrentIsPlayable(layout: Torrent.Layout, s: Torrent.Session, run: seq<Torrent.Event>, k: nat, file: Bytes,
                          content: Bytes)
    requires Torrent.Good(layout, s) && Torrent.LegalRun(layout, s, run)
    requires k < |Torrent.Replay(layout, s, run).files|
    requires var t := Torrent.Replay(layout, s, run);
             var f := t.files[k];
             0 <= f.index < |layout.spans|
             && |content| == f.totalSize && |file| >= f.totalSize
             && forall b :: 0 <= b < |content| && layout.ViewOf(f.index, t.bits).Has(b) ==> file[b] == content[b]
    ensures Playback.Trusted(Playback.Disk(Torrent.Replay(layout, s, run).files[k].segments, file), content)
  {
    var f := Torrent.Replay(layout, s, run).files[k];
    forall b | Covers(f.segments, b)
      ensures 0 <= b < |content| && b < |file| && file[b] == content[b]
    {
      Torrent.PublishedIsTrue(layout, s, run, k, b);
    }
  }
}
