/**
  The progress the torrent engine publishes for each file while pieces finish: the throttled update after a piece,
  the shortcut when a file is complete, and the check the file store makes before it accepts a record.
*/
module TorrentProgress {
  import opened Arithmetic
  import opened PieceIntervals

  /** A file of a torrent as the metadata lays it out; pad files are never shown. */
  datatype FileSpan = FileSpan(offset: int, size: int, pad: bool)

  datatype TaskFile = TaskFile(index: int, totalSize: int, totalDone: int, progress: real, segments: seq<Segment>,
                               dirty: bool)

  /** Updates smaller than this are held back. */
  const THRESHOLD: real := 0.001

  datatype Layout = Layout(spans: seq<FileSpan>, pieceLength: int, pieces: nat) {
    ghost predicate Valid() {
      && pieceLength > 0
      && forall k :: 0 <= k < |spans| ==> spans[k].offset >= 0 && spans[k].size >= 0
    }

    function ViewOf(index: int, bits: seq<bool>): View
      requires 0 <= index < |spans|
    {
      View(bits, pieceLength, spans[index].offset)
    }

    /** Piece `p` holds some byte of the file. */
    predicate Touches(p: int, index: int)
      requires 0 <= index < |spans| && pieceLength > 0
    {
      var s := spans[index];
      s.size > 0 && s.offset / pieceLength <= p <= (s.offset + s.size - 1) / pieceLength
    }
  }

  function Abs(x: real): real { if x < 0.0 then -x else x }

  /** The downloaded share of a file. */
  function Share(v: View, size: int): real
    requires v.Valid() && size > 0
  {
    Count(v, size) as real / size as real
  }

  /** The list of a task: known files, ascending, each with the length the metadata gives. */
  ghost predicate ValidFiles(layout: Layout, files: seq<TaskFile>) {
    && layout.Valid()
    && (forall k :: 0 <= k < |files| ==>
          && 0 <= files[k].index < |layout.spans| && !layout.spans[files[k].index].pad
          && files[k].totalSize == layout.spans[files[k].index].size)
    && (forall j, k :: 0 <= j < k < |files| ==> files[j].index < files[k].index)
  }

  /** The record of one file taken from one bitmap: bytes done, share and intervals belong together. */
  function Refreshed(layout: Layout, bits: seq<bool>, file: TaskFile): TaskFile
    requires layout.Valid() && 0 <= file.index < |layout.spans| && file.totalSize > 0
  {
    var v := layout.ViewOf(file.index, bits);
    file.(segments := Runs(v, file.totalSize), totalDone := Count(v, file.totalSize),
          progress := Share(v, file.totalSize), dirty := true)
  }

  predicate NeedsUpdate(layout: Layout, bits: seq<bool>, piece: int, file: TaskFile)
    requires layout.pieceLength > 0 && 0 <= file.index < |layout.spans| && layout.spans[file.index].offset >= 0
  {
    && layout.Touches(piece, file.index) && file.totalSize > 0
    && Abs(Share(layout.ViewOf(file.index, bits), file.totalSize) - file.progress) > THRESHOLD
  }

  /** What a finished piece does to the record of one file. The session is asked twice: for the shares (`seen`), and
      then, if one has moved enough, for the bitmap. */
  function AfterPiece(layout: Layout, seen: seq<bool>, bits: seq<bool>, piece: int, file: TaskFile): TaskFile
    requires layout.Valid() && 0 <= file.index < |layout.spans|
  {
    if 0 <= piece < layout.pieces && NeedsUpdate(layout, seen, piece, file) then Refreshed(layout, bits, file) else file
  }

  /** What the completion of a file does to its record: the whole file, without looking at the bitmap. */
  function AfterCompletion(file: TaskFile): TaskFile {
    file.(totalDone := file.totalSize, progress := 1.0,
          segments := if file.totalSize > 0 then [Segment(0, file.totalSize - 1)] else [], dirty := true)
  }

  // ---------------------------------------------------------------- the engine

  class TorrentTask {
    const layout: Layout
    var files: seq<TaskFile>
    var dirty: bool

    ghost predicate Valid()
      reads this
    {
      ValidFiles(layout, files)
    }

    constructor (layout: Layout, files: seq<TaskFile>)
      requires ValidFiles(layout, files)
      ensures Valid() && this.layout == layout && this.files == files && !dirty
    {
      this.layout, this.files, dirty := layout, files, false;
    }

    method FindFile(index: int) returns (k: nat)
      ensures k <= |files|
      ensures k < |files| ==> files[k].index == index
      ensures k == |files| ==> forall j :: 0 <= j < |files| ==> files[j].index != index
    {
      k := 0;
      while k < |files| && files[k].index != index
        invariant 0 <= k <= |files|
        invariant forall j :: 0 <= j < k ==> files[j].index != index
      {
        k := k + 1;
      }
    }

    /** The shown files the piece has bytes of. */
    method AffectedFiles(piece: int) returns (affected: seq<nat>)
      requires Valid()
      ensures forall k :: k in affected <==>
                0 <= k < |files| && layout.Touches(piece, files[k].index) && files[k].totalSize > 0
    {
      affected := [];
      var f := 0;
      while f < |layout.spans|
        invariant 0 <= f <= |layout.spans|
        invariant forall k :: k in affected <==>
                    0 <= k < |files| && files[k].index < f && layout.Touches(piece, files[k].index)
                    && files[k].totalSize > 0
      {
        if layout.Touches(piece, f) && !layout.spans[f].pad {
          var k := FindFile(f);
          if k < |files| && files[k].totalSize > 0 {
            affected := affected + [k];
          }
        }
        f := f + 1;
      }
    }

    /** Of these, the files whose share has moved by more than the threshold. */
    method PendingFiles(seen: seq<bool>, affected: seq<nat>) returns (pending: seq<nat>)
      requires Valid()
      requires forall k :: k in affected ==> k < |files| && files[k].totalSize > 0
      ensures forall k :: k in pending <==>
                k in affected
                && Abs(Share(layout.ViewOf(files[k].index, seen), files[k].totalSize) - files[k].progress) > THRESHOLD
    {
      pending := [];
      var n := 0;
      while n < |affected|
        invariant 0 <= n <= |affected|
        invariant forall k :: k in pending <==>
                    k in affected[..n] && k < |files|
                    && Abs(Share(layout.ViewOf(files[k].index, seen), files[k].totalSize) - files[k].progress)
                       > THRESHOLD
      {
        var k := affected[n];
        assert k in affected;
        assert affected[..n + 1] == affected[..n] + [k];
        var share := Share(layout.ViewOf(files[k].index, seen), files[k].totalSize);
        if Abs(share - files[k].progress) > THRESHOLD {
          pending := pending + [k];
        }
        n := n + 1;
      }
      assert affected[..|affected|] == affected;
    }

    /** A piece finished: refresh the files it matters to, all from the same bitmap. */
    method HandlePieceFinished(seen: seq<bool>, bits: seq<bool>, piece: int)
      requires Valid()
      modifies this
      ensures Valid() && |files| == |old(files)|
      ensures forall k :: 0 <= k < |files| ==> files[k] == AfterPiece(layout, seen, bits, piece, old(files)[k])
      ensures dirty <==> old(dirty) || (0 <= piece < layout.pieces &&
                           exists k :: 0 <= k < |old(files)| && NeedsUpdate(layout, seen, piece, old(files)[k]))
    {
      if piece < 0 || piece >= layout.pieces {
        return;
      }
      var affected := AffectedFiles(piece);
      var pending := PendingFiles(seen, affected);
      var n := 0;
      while n < |pending|
        invariant 0 <= n <= |pending| && |files| == |old(files)|
        invariant forall k :: 0 <= k < |files| ==>
                    files[k] == if k in pending[..n] then Refreshed(layout, bits, old(files)[k]) else old(files)[k]
        invariant dirty <==> old(dirty) || n > 0
      {
        var k := pending[n];
        assert k in pending && k in affected;
        assert pending[..n + 1] == pending[..n] + [k];
        var size := layout.spans[files[k].index].size;
        var v := layout.ViewOf(files[k].index, bits);
        var segments, done := ComputeSegments(v, size);
        files := files[k := files[k].(segments := segments, totalDone := done,
                                      progress := done as real / size as real, dirty := true)];
        dirty := true;
        n := n + 1;
      }
      assert pending[..|pending|] == pending;
      assert |pending| > 0 ==> pending[0] in pending;
    }

    /** A file is complete. */
    method HandleFileCompleted(index: int)
      requires Valid()
      modifies this
      ensures Valid() && |files| == |old(files)|
      ensures forall k :: 0 <= k < |files| ==>
                files[k] == if old(files)[k].index == index then AfterCompletion(old(files)[k]) else old(files)[k]
      ensures dirty <==> old(dirty) || exists k :: 0 <= k < |old(files)| && old(files)[k].index == index
    {
      var k := FindFile(index);
      if k == |files| {
        return;
      }
      files := files[k := files[k].(totalDone := files[k].totalSize, progress := 1.0, segments := [], dirty := true)];
      if files[k].totalSize > 0 {
        files := files[k := files[k].(segments := [Segment(0, files[k].totalSize - 1)])];
      }
      dirty := true;
    }
  }

  // ---------------------------------------------------------------- every run

  /** The session's bitmap, the pieces it has announced so far, and the records that led to. The bitmap may be ahead
      of the announcements. */
  datatype Session = Session(bits: seq<bool>, announced: seq<bool>, files: seq<TaskFile>)

  datatype Event =
    | BitmapGrew(bits: seq<bool>)
    | PieceFinished(piece: nat, seen: seq<bool>, bits: seq<bool>)
    | FileCompleted(index: nat)

  /** Pieces are never lost; an announced piece is there; a file is reported complete only when all its pieces are. */
  ghost predicate Legal(layout: Layout, s: Session, e: Event)
    requires layout.Valid()
  {
    match e
    case BitmapGrew(bits) => Grown(s.bits, bits)
    case PieceFinished(p, seen, bits) => p < |seen| && seen[p] && Grown(s.bits, seen) && Grown(seen, bits)
    case FileCompleted(f) =>
      f < |layout.spans| && forall b :: 0 <= b < layout.spans[f].size ==> layout.ViewOf(f, s.bits).Has(b)
  }

  ghost predicate ValidSession(layout: Layout, s: Session) {
    ValidFiles(layout, s.files) && |s.bits| == layout.pieces && Grown(s.announced, s.bits)
  }

  ghost function Step(layout: Layout, s: Session, e: Event): Session
    requires ValidSession(layout, s) && Legal(layout, s, e)
  {
    match e
    case BitmapGrew(bits) => s.(bits := bits)
    case PieceFinished(p, seen, bits) =>
      Session(bits, s.announced[p := true],
              seq(|s.files|, k requires 0 <= k < |s.files| => AfterPiece(layout, seen, bits, p, s.files[k])))
    case FileCompleted(f) =>
      s.(files := seq(|s.files|, k requires 0 <= k < |s.files| =>
                        if s.files[k].index == f then AfterCompletion(s.files[k]) else s.files[k]))
  }

  /** The record is what one bitmap, not later than the current one, gives; its share is at most the threshold behind
      the announced pieces. */
  ghost predicate Faithful(layout: Layout, bits: seq<bool>, announced: seq<bool>, file: TaskFile)
    requires layout.Valid() && 0 <= file.index < |layout.spans|
  {
    && file.totalSize == layout.spans[file.index].size
    && (file.totalSize > 0 ==>
          && (exists past :: TakenFrom(layout, past, bits, file))
          && Share(layout.ViewOf(file.index, announced), file.totalSize) - file.progress <= THRESHOLD)
    && (file.totalSize <= 0 ==> file.segments == [] && file.totalDone == 0)
  }

  ghost predicate TakenFrom(layout: Layout, past: seq<bool>, bits: seq<bool>, file: TaskFile)
    requires layout.Valid() && 0 <= file.index < |layout.spans| && file.totalSize > 0
  {
    var v := layout.ViewOf(file.index, past);
    && Grown(past, bits)
    && file.segments == Runs(v, file.totalSize) && file.totalDone == Count(v, file.totalSize)
    && file.progress == Share(v, file.totalSize)
  }

  ghost predicate Good(layout: Layout, s: Session) {
    && ValidSession(layout, s)
    && forall k :: 0 <= k < |s.files| ==> Faithful(layout, s.bits, s.announced, s.files[k])
  }

  lemma ShareGrows(v: View, w: View, size: int)
    requires v.Valid() && w == v.(bits := w.bits) && Grown(v.bits, w.bits) && size > 0
    ensures Share(v, size) <= Share(w, size)
  {
    CountGrows(v, w, size);
    DivideMonotone(Count(v, size), Count(w, size), size);
  }

  lemma DivideMonotone(a: nat, b: nat, d: int)
    requires a <= b && d > 0
    ensures a as real / d as real <= b as real / d as real
  {
  }

  /** A piece that does not touch a file changes none of its bytes. */
  lemma UntouchedBytes(layout: Layout, bits: seq<bool>, p: nat, index: int)
    requires layout.Valid() && 0 <= index < |layout.spans| && p < |bits| && !layout.Touches(p, index)
    requires layout.spans[index].size > 0
    ensures var size := layout.spans[index].size;
            Count(layout.ViewOf(index, bits[p := true]), size) == Count(layout.ViewOf(index, bits), size)
  {
    var s, v, w := layout.spans[index], layout.ViewOf(index, bits), layout.ViewOf(index, bits[p := true]);
    forall b | 0 <= b < s.size
      ensures v.Has(b) == w.Has(b)
    {
      BytePiece(s.offset, s.size, layout.pieceLength, b);
    }
    CountSame(v, w, s.size);
  }

  lemma BytePiece(offset: int, size: int, len: int, b: int)
    requires offset >= 0 && len > 0 && 0 <= b < size
    ensures offset / len <= (offset + b) / len <= (offset + size - 1) / len
  {
    DivisionMonotone(offset, offset + b, len);
    DivisionMonotone(offset + b, offset + size - 1, len);
  }

  lemma RefreshedIsFaithful(layout: Layout, bits: seq<bool>, announced: seq<bool>, file: TaskFile)
    requires layout.Valid() && 0 <= file.index < |layout.spans| && Grown(announced, bits)
    requires file.totalSize == layout.spans[file.index].size > 0
    ensures Faithful(layout, bits, announced, Refreshed(layout, bits, file))
  {
    assert TakenFrom(layout, bits, bits, Refreshed(layout, bits, file));
    ShareGrows(layout.ViewOf(file.index, announced), layout.ViewOf(file.index, bits), file.totalSize);
  }

  /** A record that was taken from a bitmap stays so while the bitmap grows. */
  lemma FaithfulLater(layout: Layout, bits: seq<bool>, later: seq<bool>, announced: seq<bool>, file: TaskFile)
    requires layout.Valid() && 0 <= file.index < |layout.spans|
    requires Faithful(layout, bits, announced, file) && Grown(bits, later)
    ensures Faithful(layout, later, announced, file)
  {
    if file.totalSize > 0 {
      var past :| TakenFrom(layout, past, bits, file);
      assert TakenFrom(layout, past, later, file);
    }
  }

  /** One more announced piece: the record was refreshed, or it is close enough, or the piece is none of its own. */
  lemma AfterPieceIsFaithful(layout: Layout, s: Session, p: nat, seen: seq<bool>, bits: seq<bool>, file: TaskFile)
    requires ValidSession(layout, s) && Legal(layout, s, PieceFinished(p, seen, bits))
    requires 0 <= file.index < |layout.spans| && Faithful(layout, s.bits, s.announced, file)
    ensures Faithful(layout, bits, s.announced[p := true], AfterPiece(layout, seen, bits, p, file))
  {
    var now := s.announced[p := true];
    FaithfulLater(layout, s.bits, bits, s.announced, file);
    if file.totalSize > 0 {
      if NeedsUpdate(layout, seen, p, file) {
        RefreshedIsFaithful(layout, bits, now, file);
      } else if layout.Touches(p, file.index) {
        ShareGrows(layout.ViewOf(file.index, now), layout.ViewOf(file.index, seen), file.totalSize);
      } else {
        UntouchedBytes(layout, s.announced, p, file.index);
      }
    }
  }

  /** A piece touches a file when it holds one of its bytes. */
  lemma TouchesExactly(layout: Layout, p: int, index: int)
    requires layout.Valid() && 0 <= index < |layout.spans|
    ensures layout.Touches(p, index) <==>
              exists b :: 0 <= b < layout.spans[index].size && HoldsByte(layout, p, index, b)
  {
    var s, len := layout.spans[index], layout.pieceLength;
    if layout.Touches(p, index) {
      var v := View([], len, s.offset);
      PieceStretch(v, s.size, p);
      var b := PieceStart(v, p);
      PieceHolds(v, p, b);
      assert HoldsByte(layout, p, index, b);
    }
    forall b | 0 <= b < s.size && HoldsByte(layout, p, index, b)
      ensures layout.Touches(p, index)
    {
      BytePiece(s.offset, s.size, len, b);
    }
  }

  predicate HoldsByte(layout: Layout, p: int, index: int, b: int)
    requires layout.pieceLength > 0 && 0 <= index < |layout.spans|
  {
    (layout.spans[index].offset + b) / layout.pieceLength == p
  }

  /** A record is rewritten exactly when the piece is one of the torrent's and of the file's, and the share has moved by
      more than a thousandth; then its intervals, bytes and share are those of the bitmap, and it is to be stored. */
  lemma ThrottleExactly(layout: Layout, seen: seq<bool>, bits: seq<bool>, p: int, file: TaskFile)
    requires layout.Valid() && 0 <= file.index < |layout.spans| && file.totalSize > 0
    ensures var r := AfterPiece(layout, seen, bits, p, file);
            var moved := Share(layout.ViewOf(file.index, seen), file.totalSize) - file.progress;
            var v := layout.ViewOf(file.index, bits);
            if 0 <= p < layout.pieces && layout.Touches(p, file.index) && (moved > 0.001 || -moved > 0.001)
            then && r.segments == Runs(v, file.totalSize) && r.totalDone == Count(v, file.totalSize)
                 && r.progress == r.totalDone as real / file.totalSize as real && r.dirty
                 && r.index == file.index && r.totalSize == file.totalSize
            else r == file
  {
  }

  lemma WholeShare(x: real)
    requires x > 0.0
    ensures x / x == 1.0
  {
  }

  /** The shortcut gives the record the loop would give: with all bytes there, the two agree. */
  lemma CompletionEqualsRefresh(layout: Layout, bits: seq<bool>, file: TaskFile)
    requires layout.Valid() && 0 <= file.index < |layout.spans| && file.totalSize == layout.spans[file.index].size > 0
    requires forall b :: 0 <= b < file.totalSize ==> layout.ViewOf(file.index, bits).Has(b)
    ensures AfterCompletion(file) == Refreshed(layout, bits, file)
  {
    FullFile(layout.ViewOf(file.index, bits), file.totalSize);
    WholeShare(file.totalSize as real);
  }

  /** A list of which nothing has been downloaded is where every run may begin, whatever the bitmap. */
  lemma FreshIsGood(layout: Layout, s: Session)
    requires ValidSession(layout, s) && forall p :: 0 <= p < |s.announced| ==> !s.announced[p]
    requires forall k :: 0 <= k < |s.files| ==>
               s.files[k].segments == [] && s.files[k].totalDone == 0
               && (s.files[k].totalSize > 0 ==> s.files[k].progress == 0.0)
    ensures Good(layout, s)
  {
    forall k | 0 <= k < |s.files|
      ensures Faithful(layout, s.bits, s.announced, s.files[k])
    {
      var file := s.files[k];
      if file.totalSize > 0 {
        var v := layout.ViewOf(file.index, s.announced);
        BlockStep(v, 0, file.totalSize - 1, false);
        assert Runs(v, 0) == [] && Count(v, 0) == 0;
        assert TakenFrom(layout, s.announced, s.bits, file);
      }
    }
  }

  lemma StepKeepsGood(layout: Layout, s: Session, e: Event)
    requires Good(layout, s) && Legal(layout, s, e)
    ensures Good(layout, Step(layout, s, e)) && Grown(s.bits, Step(layout, s, e).bits)
  {
    var r := Step(layout, s, e);
    forall k | 0 <= k < |s.files|
      ensures Faithful(layout, r.bits, r.announced, r.files[k])
    {
      match e
      case BitmapGrew(bits) => FaithfulLater(layout, s.bits, bits, s.announced, s.files[k]);
      case PieceFinished(p, seen, bits) => AfterPieceIsFaithful(layout, s, p, seen, bits, s.files[k]);
      case FileCompleted(f) =>
        if s.files[k].index == f && s.files[k].totalSize > 0 {
          CompletionEqualsRefresh(layout, s.bits, s.files[k]);
          RefreshedIsFaithful(layout, s.bits, s.announced, s.files[k]);
        }
    }
  }

  ghost predicate LegalRun(layout: Layout, s: Session, run: seq<Event>)
    requires ValidSession(layout, s)
    decreases |run|
  {
    run == [] || (Legal(layout, s, run[0]) && LegalRun(layout, Step(layout, s, run[0]), run[1..]))
  }

  ghost function Replay(layout: Layout, s: Session, run: seq<Event>): Session
    requires ValidSession(layout, s) && LegalRun(layout, s, run)
    decreases |run|
  {
    if run == [] then s else Replay(layout, Step(layout, s, run[0]), run[1..])
  }

  lemma {:induction false} RunKeepsGood(layout: Layout, s: Session, run: seq<Event>)
    requires Good(layout, s) && LegalRun(layout, s, run)
    ensures Good(layout, Replay(layout, s, run))
    decreases |run|
  {
    if run != [] {
      StepKeepsGood(layout, s, run[0]);
      RunKeepsGood(layout, Step(layout, s, run[0]), run[1..]);
    }
  }

  // ---------------------------------------------------------------- what is published

  /** The interval rule of the file store: inside the file, ascending, never overlapping. */
  predicate StoreAccepts(file: TaskFile) {
    && 0 <= file.index && 0 <= file.totalDone <= file.totalSize
    && (forall i :: 0 <= i < |file.segments| ==>
          0 <= file.segments[i].start <= file.segments[i].end < file.totalSize)
    && (forall i :: 0 <= i < |file.segments| - 1 ==> file.segments[i].end < file.segments[i + 1].start)
  }

  const PRIORITIES := {0, 1, 4, 7}

  /** The store's own scan, which remembers the end of the previous segment. */
  method ValidRecord(taskId: string, file: TaskFile, priority: int) returns (ok: bool)
    ensures ok <==> taskId != "" && priority in PRIORITIES && StoreAccepts(file)
    ensures ok <==>
              && taskId != "" && file.index >= 0 && 0 <= file.totalDone <= file.totalSize
              && (priority == 0 || priority == 1 || priority == 4 || priority == 7)
              && (forall i :: 0 <= i < |file.segments| ==>
                    0 <= file.segments[i].start <= file.segments[i].end < file.totalSize)
              && (forall i :: 0 <= i < |file.segments| - 1 ==> file.segments[i].end < file.segments[i + 1].start)
  {
    if taskId == "" || file.index < 0 || file.totalSize < 0 || file.totalDone < 0 || file.totalDone > file.totalSize {
      return false;
    }
    if priority != 0 && priority != 1 && priority != 4 && priority != 7 {
      return false;
    }
    var previousEnd := -1;
    var k := 0;
    while k < |file.segments|
      invariant 0 <= k <= |file.segments|
      invariant previousEnd == if k == 0 then -1 else file.segments[k - 1].end
      invariant forall i :: 0 <= i < k ==>
                  0 <= file.segments[i].start <= file.segments[i].end < file.totalSize
      invariant forall i :: 0 <= i < k - 1 ==> file.segments[i].end < file.segments[i + 1].start
    {
      var s := file.segments[k];
      if s.start < 0 || s.start <= previousEnd || s.end < s.start || s.end >= file.totalSize {
        assert k > 0 && s.start <= previousEnd ==> !(file.segments[k - 1].end < file.segments[k - 1 + 1].start);
        return false;
      }
      previousEnd := s.end;
      k := k + 1;
    }
    return true;
  }

  /** The bytes done are those that the intervals hold. */
  lemma DoneIsCovered(v: View, size: nat)
    requires v.Valid()
    ensures Count(v, size) == |set b | 0 <= b < size && Covers(Runs(v, size), b)|
  {
    RunsCanonical(v, size);
    CountIsSize(v, size);
    assert (set b | 0 <= b < size && Covers(Runs(v, size), b)) == Downloaded(v, size);
  }

  /** After any run, whatever the distance between the bitmap and its announcements: no published interval holds a byte
      that is not downloaded, the store accepts every record, the bytes done are those of the intervals, and the share
      is never ahead of the truth and at most a thousandth behind what has been announced. */
  lemma PublishedIsTrue(layout: Layout, s: Session, run: seq<Event>, k: nat, b: int)
    requires Good(layout, s) && LegalRun(layout, s, run)
    requires k < |Replay(layout, s, run).files|
    ensures var t := Replay(layout, s, run);
            var file := t.files[k];
            0 <= file.index < |layout.spans|
            && (Covers(file.segments, b) ==> 0 <= b < file.totalSize && layout.ViewOf(file.index, t.bits).Has(b))
            && StoreAccepts(file)
            && file.totalDone == |set b | 0 <= b < file.totalSize && Covers(file.segments, b)|
            && (file.totalSize > 0 ==>
                  && file.progress == file.totalDone as real / file.totalSize as real
                  && file.progress <= Share(layout.ViewOf(file.index, t.bits), file.totalSize)
                  && Share(layout.ViewOf(file.index, t.announced), file.totalSize) - file.progress <= THRESHOLD)
  {
    RunKeepsGood(layout, s, run);
    var t := Replay(layout, s, run);
    assert Faithful(layout, t.bits, t.announced, t.files[k]);
    FaithfulIsTrue(layout, t.bits, t.announced, t.files[k], b);
  }

  /** Intervals taken from an earlier bitmap hold downloaded bytes only, and the store's rule is kept. */
  lemma RunsAreTrue(v: View, w: View, size: int, b: int)
    requires v.Valid() && w == v.(bits := w.bits) && Grown(v.bits, w.bits) && size > 0
    ensures Covers(Runs(v, size), b) ==> 0 <= b < size && w.Has(b)
    ensures forall i :: 0 <= i < |Runs(v, size)| ==> 0 <= Runs(v, size)[i].start <= Runs(v, size)[i].end < size
    ensures forall i :: 0 <= i < |Runs(v, size)| - 1 ==> Runs(v, size)[i].end < Runs(v, size)[i + 1].start
  {
    RunsCanonical(v, size);
  }

  lemma FaithfulIsTrue(layout: Layout, bits: seq<bool>, announced: seq<bool>, file: TaskFile, b: int)
    requires layout.Valid() && 0 <= file.index < |layout.spans| && Faithful(layout, bits, announced, file)
    ensures Covers(file.segments, b) ==> 0 <= b < file.totalSize && layout.ViewOf(file.index, bits).Has(b)
    ensures StoreAccepts(file)
    ensures file.totalDone == |set c | 0 <= c < file.totalSize && Covers(file.segments, c)|
    ensures file.totalSize > 0 ==>
              && file.progress == file.totalDone as real / file.totalSize as real
              && file.progress <= Share(layout.ViewOf(file.index, bits), file.totalSize)
  {
    if file.totalSize > 0 {
      var past :| TakenFrom(layout, past, bits, file);
      RunsAreTrue(layout.ViewOf(file.index, past), layout.ViewOf(file.index, bits), file.totalSize, b);
      ShareGrows(layout.ViewOf(file.index, past), layout.ViewOf(file.index, bits), file.totalSize);
      DoneIsCovered(layout.ViewOf(file.index, past), file.totalSize);
    } else {
      assert (set c | 0 <= c < file.totalSize && Covers(file.segments, c)) == {};
    }
  }
}
