/**
  From a bitmap of finished pieces to the byte intervals of one file. `Runs` is the byte-by-byte definition of the
  answer; the loop of the torrent engine, which works piece by piece, is proved to compute it.
*/
module PieceIntervals {
  import opened Arithmetic

  /** Both ends included. */
  datatype Segment = Segment(start: int, end: int) {
    predicate Contains(b: int) { start <= b <= end }
  }

  /** One file seen through the torrent: where it starts, how long pieces are, which pieces are finished. */
  datatype View = View(bits: seq<bool>, pieceLength: int, offset: int) {
    ghost predicate Valid() { pieceLength > 0 && offset >= 0 }

    predicate HasPiece(p: int) { 0 <= p < |bits| && bits[p] }

    /** Byte `b` of the file is downloaded. */
    predicate Has(b: int)
      requires pieceLength > 0
    {
      HasPiece((offset + b) / pieceLength)
    }
  }

  /** The downloaded bytes below `n`, grouped into maximal runs. */
  function Runs(v: View, n: nat): (runs: seq<Segment>)
    requires v.Valid()
    ensures forall i :: 0 <= i < |runs| ==> 0 <= runs[i].start <= runs[i].end < n
  {
    if n == 0 then []
    else
      var before := Runs(v, n - 1);
      if !v.Has(n - 1) then before else Extend(before, n - 1, n - 1)
  }

  /** Add the interval from `start` to `finish`, joining it to the last one when they touch. */
  function Extend(runs: seq<Segment>, start: int, finish: int): seq<Segment> {
    if runs != [] && runs[|runs| - 1].end + 1 == start
    then runs[|runs| - 1 := runs[|runs| - 1].(end := finish)]
    else runs + [Segment(start, finish)]
  }

  function Count(v: View, n: nat): (count: nat)
    requires v.Valid()
    ensures count <= n
  {
    if n == 0 then 0 else Count(v, n - 1) + (if v.Has(n - 1) then 1 else 0)
  }

  predicate Covers(segments: seq<Segment>, b: int) {
    exists i :: 0 <= i < |segments| && segments[i].Contains(b)
  }

  /** Ascending, never touching, inside the first `n` bytes, and holding exactly the downloaded ones. */
  ghost predicate Canonical(v: View, segments: seq<Segment>, n: nat)
    requires v.Valid()
  {
    && (forall i :: 0 <= i < |segments| ==> 0 <= segments[i].start <= segments[i].end < n)
    && (forall i :: 0 <= i < |segments| - 1 ==> segments[i].end + 1 < segments[i + 1].start)
    && (forall b :: 0 <= b < n ==> (v.Has(b) <==> Covers(segments, b)))
  }

  lemma ExtendCovers(runs: seq<Segment>, start: int, finish: int, b: int)
    requires start <= finish
    requires runs != [] ==> runs[|runs| - 1].start <= runs[|runs| - 1].end < start
    ensures Covers(Extend(runs, start, finish), b) <==> Covers(runs, b) || start <= b <= finish
  {
    var r := Extend(runs, start, finish);
    forall i | 0 <= i < |runs| && runs[i].Contains(b)
      ensures Covers(r, b)
    {
      assert r[i].Contains(b);
    }
    if start <= b <= finish {
      assert r[|r| - 1].Contains(b);
    }
    forall i | 0 <= i < |r| && r[i].Contains(b)
      ensures Covers(runs, b) || start <= b <= finish
    {
      if i < |runs| && !(start <= b <= finish) {
        assert runs[i].Contains(b);
      }
    }
  }

  lemma {:induction false} RunsCanonical(v: View, n: nat)
    requires v.Valid()
    ensures Canonical(v, Runs(v, n), n)
  {
    if n > 0 {
      RunsCanonical(v, n - 1);
      RunsStep(v, n - 1);
    }
  }

  lemma RunsStep(v: View, n: nat)
    requires v.Valid() && Canonical(v, Runs(v, n), n)
    ensures Canonical(v, Runs(v, n + 1), n + 1)
  {
    if v.Has(n) {
      ExtendCanonical(v, Runs(v, n), n);
    } else {
      KeepCanonical(v, Runs(v, n), n);
    }
  }

  lemma ExtendCanonical(v: View, segments: seq<Segment>, n: nat)
    requires v.Valid() && Canonical(v, segments, n) && v.Has(n)
    ensures Canonical(v, Extend(segments, n, n), n + 1)
  {
    forall b | 0 <= b < n + 1
      ensures v.Has(b) <==> Covers(Extend(segments, n, n), b)
    {
      ExtendCovers(segments, n, n, b);
    }
  }

  lemma KeepCanonical(v: View, segments: seq<Segment>, n: nat)
    requires v.Valid() && Canonical(v, segments, n) && !v.Has(n)
    ensures Canonical(v, segments, n + 1)
  {
  }

  /** Segments below `n`, cut off below `n - 1`. */
  function Trim(segments: seq<Segment>, n: int): seq<Segment> {
    if segments == [] || segments[|segments| - 1].end < n - 1 then segments
    else if segments[|segments| - 1].start == n - 1 then segments[..|segments| - 1]
    else segments[|segments| - 1 := segments[|segments| - 1].(end := n - 2)]
  }

  lemma TrimCanonical(v: View, segments: seq<Segment>, n: nat)
    requires v.Valid() && n > 0 && Canonical(v, segments, n)
    ensures Canonical(v, Trim(segments, n), n - 1)
    ensures segments == if v.Has(n - 1) then Extend(Trim(segments, n), n - 1, n - 1) else Trim(segments, n)
  {
    var r, last := Trim(segments, n), |segments| - 1;
    forall i, j | 0 <= i < j < |segments|
      ensures segments[i].end + 1 < segments[j].start
    {
      SegmentOrder(segments, i, j);
    }
    forall b | 0 <= b < n - 1
      ensures v.Has(b) <==> Covers(r, b)
    {
      forall i | 0 <= i < |segments| && segments[i].Contains(b)
        ensures Covers(r, b)
      {
        assert r[i].Contains(b);
      }
      forall i | 0 <= i < |r| && r[i].Contains(b)
        ensures Covers(segments, b)
      {
        assert segments[i].Contains(b);
      }
    }
    if Covers(segments, n - 1) {
      var i :| 0 <= i < |segments| && segments[i].Contains(n - 1);
      assert i == last;
    } else if segments != [] {
      assert !segments[last].Contains(n - 1);
    }
  }

  lemma {:induction false} SegmentOrder(segments: seq<Segment>, i: nat, j: nat)
    requires i < j < |segments|
    requires forall k :: 0 <= k < |segments| ==> segments[k].start <= segments[k].end
    requires forall k :: 0 <= k < |segments| - 1 ==> segments[k].end + 1 < segments[k + 1].start
    ensures segments[i].end + 1 < segments[j].start
    decreases j
  {
    if i + 1 < j {
      SegmentOrder(segments, i, j - 1);
      assert segments[j - 1].end + 1 < segments[j - 1 + 1].start;
    }
  }

  lemma FirstFits(v: View, segments: seq<Segment>, n: nat)
    requires v.Valid() && Canonical(v, segments, n) && segments != []
    ensures 0 <= segments[0].start <= segments[0].end < n
  {
  }

  /** There is one canonical answer: any list of segments with these properties is the one `Runs` gives. */
  lemma {:induction false} CanonicalIsUnique(v: View, segments: seq<Segment>, n: nat)
    requires v.Valid() && Canonical(v, segments, n)
    ensures segments == Runs(v, n)
    decreases n
  {
    if n > 0 {
      TrimCanonical(v, segments, n);
      CanonicalIsUnique(v, Trim(segments, n), n - 1);
    } else if segments != [] {
      FirstFits(v, segments, n);
    }
  }

  // ---------------------------------------------------------------- piece by piece

  function Max(a: int, b: int): int { if a >= b then a else b }

  function Min(a: int, b: int): int { if a <= b then a else b }

  /** The first byte of the file that piece `p` or a later one holds. */
  function PieceStart(v: View, p: int): int {
    Max(p * v.pieceLength, v.offset) - v.offset
  }

  /** Byte `b` lies in the piece whose stretch of the file it lies in. */
  lemma PieceHolds(v: View, p: int, b: int)
    requires v.Valid() && PieceStart(v, p) <= b < PieceStart(v, p + 1) && b >= 0
    ensures (v.offset + b) / v.pieceLength == p
  {
    DivisionIsUnique(v.offset + b, v.pieceLength, p);
  }

  /** Piece `p` begins before the last byte `end` and ends after the first one. */
  lemma PieceBounds(offset: int, len: int, end: int, p: int)
    requires len > 0 && 0 <= offset <= end && offset / len <= p <= end / len
    ensures p * len <= end && (p + 1) * len == p * len + len && offset < (p + 1) * len
  {
    MulMonotone(p, end / len, len);
    MulMonotone(offset / len + 1, p + 1, len);
  }

  /** Where the stretch of one piece of the file starts and ends, and that its bytes stand or fall together. */
  lemma PieceStretch(v: View, size: int, p: int)
    requires v.Valid() && size > 0
    requires v.offset / v.pieceLength <= p <= (v.offset + size - 1) / v.pieceLength
    ensures 0 <= PieceStart(v, p) < size && PieceStart(v, p) < PieceStart(v, p + 1)
    ensures forall b :: PieceStart(v, p) <= b < PieceStart(v, p + 1) ==> v.Has(b) == v.HasPiece(p)
  {
    PieceBounds(v.offset, v.pieceLength, v.offset + size - 1, p);
    forall b | PieceStart(v, p) <= b < PieceStart(v, p + 1)
      ensures v.Has(b) == v.HasPiece(p)
    {
      PieceHolds(v, p, b);
    }
  }

  /** The pieces from the first to the last one cover the file. */
  lemma PieceEnds(v: View, size: int)
    requires v.Valid() && size > 0
    ensures PieceStart(v, v.offset / v.pieceLength) == 0
    ensures PieceStart(v, (v.offset + size - 1) / v.pieceLength + 1) >= size
    ensures v.offset / v.pieceLength <= (v.offset + size - 1) / v.pieceLength
  {
    var len, end := v.pieceLength, v.offset + size - 1;
    assert v.offset / len * len <= v.offset;
    assert (end / len + 1) * len > end;
    if end / len < v.offset / len {
      MulMonotone(end / len + 1, v.offset / len, len);
    }
  }

  /** A block of bytes of one finished piece is one step of the scan; a block of a missing piece is none. */
  lemma {:induction false} BlockStep(v: View, start: nat, finish: nat, has: bool)
    requires v.Valid() && start <= finish
    requires forall b :: start <= b <= finish ==> v.Has(b) == has
    ensures Runs(v, finish + 1) == if has then Extend(Runs(v, start), start, finish) else Runs(v, start)
    ensures Count(v, finish + 1) == Count(v, start) + (if has then finish + 1 - start else 0)
    decreases finish
  {
    if start < finish {
      BlockStep(v, start, finish - 1, has);
    }
  }

  /** The interval loop of the torrent engine for one file. */
  method ComputeSegments(v: View, size: int) returns (segments: seq<Segment>, done: int)
    requires v.Valid() && size > 0
    ensures segments == Runs(v, size) && done == Count(v, size)
  {
    var end := v.offset + size - 1;
    var first, last := v.offset / v.pieceLength, end / v.pieceLength;
    segments, done := [], 0;
    PieceEnds(v, size);
    var p := first;
    while p <= last
      invariant first <= p <= last + 1 && PieceStart(v, p) >= 0
      invariant segments == Runs(v, Min(PieceStart(v, p), size)) && done == Count(v, Min(PieceStart(v, p), size))
    {
      PieceStretch(v, size, p);
      var start := Max(p * v.pieceLength, v.offset) - v.offset;
      var finish := Min((p + 1) * v.pieceLength - 1, end) - v.offset;
      BlockStep(v, start, finish, v.HasPiece(p));
      if v.HasPiece(p) {
        done := done + finish - start + 1;
        if segments != [] && segments[|segments| - 1].end + 1 == start {
          segments := segments[|segments| - 1 := segments[|segments| - 1].(end := finish)];
        } else {
          segments := segments + [Segment(start, finish)];
        }
      }
      p := p + 1;
    }
  }

  /** With every byte downloaded the answer is the whole file. */
  lemma FullFile(v: View, size: nat)
    requires v.Valid() && size > 0 && forall b :: 0 <= b < size ==> v.Has(b)
    ensures Runs(v, size) == [Segment(0, size - 1)] && Count(v, size) == size
  {
    BlockStep(v, 0, size - 1, true);
  }

  /** A bitmap that only grew. */
  predicate Grown(before: seq<bool>, bits: seq<bool>) {
    |before| == |bits| && forall p :: 0 <= p < |bits| && before[p] ==> bits[p]
  }

  lemma {:induction false} CountGrows(v: View, w: View, n: nat)
    requires v.Valid() && w == v.(bits := w.bits) && Grown(v.bits, w.bits)
    ensures Count(v, n) <= Count(w, n)
  {
    if n > 0 {
      CountGrows(v, w, n - 1);
    }
  }

  /** The downloaded bytes below `n`. */
  ghost function Downloaded(v: View, n: nat): set<int>
    requires v.Valid()
  {
    set b | 0 <= b < n && v.Has(b)
  }

  lemma DownloadedStep(v: View, n: nat)
    requires v.Valid()
    ensures Downloaded(v, n + 1) == Downloaded(v, n) + (if v.Has(n) then {n} else {})
    ensures n !in Downloaded(v, n)
  {
  }

  lemma {:induction false} CountIsSize(v: View, n: nat)
    requires v.Valid()
    ensures Count(v, n) == |Downloaded(v, n)|
  {
    if n == 0 {
      assert Downloaded(v, 0) == {};
    } else {
      CountIsSize(v, n - 1);
      DownloadedStep(v, n - 1);
    }
  }

  lemma {:induction false} CountSame(v: View, w: View, n: nat)
    requires v.Valid() && w.Valid() && forall b :: 0 <= b < n ==> v.Has(b) == w.Has(b)
    ensures Count(v, n) == Count(w, n)
  {
    if n > 0 {
      CountSame(v, w, n - 1);
    }
  }
}
