/**
  Merging the file list of parsed metadata into a task's own list, which stays sorted by file index with one entry
  per index. The merge runs again after the storage has moved, and must then change nothing.
*/
module TorrentFiles {
  import opened PieceIntervals

  datatype FileEntry = FileEntry(index: int, path: string, totalSize: int, totalDone: int, progress: real,
                                 segments: seq<Segment>, priority: int)

  datatype MetaFile = MetaFile(path: string, size: nat, pad: bool)

  /** What the session says about a torrent: its files, the bytes done of each, and their priorities; the last two
      lists may be shorter. */
  datatype Metadata = Metadata(files: seq<MetaFile>, progress: seq<int>, priorities: seq<int>)

  function NewEntry(index: int): FileEntry {
    FileEntry(index, "", 0, 0, 0.0, [], 4)
  }

  predicate Sorted(files: seq<FileEntry>) {
    forall j, k :: 0 <= j < k < |files| ==> files[j].index < files[k].index
  }

  predicate HasIndex(files: seq<FileEntry>, x: int) {
    exists k :: 0 <= k < |files| && files[k].index == x
  }

  /** The entry for an index; a new one when the list has none. */
  function EntryOf(files: seq<FileEntry>, x: int): FileEntry {
    if files == [] then NewEntry(x)
    else if files[|files| - 1].index == x then files[|files| - 1]
    else EntryOf(files[..|files| - 1], x)
  }

  predicate Shown(meta: Metadata, x: int) {
    0 <= x < |meta.files| && !meta.files[x].pad
  }

  function Clamp(x: int, lo: int, hi: int): int {
    if x < lo then lo else if hi < x then hi else x
  }

  /** One entry brought up to date; a file whose bytes went back loses its intervals. */
  function Updated(e: FileEntry, meta: Metadata, x: int): FileEntry
    requires 0 <= x < |meta.files|
  {
    var size := meta.files[x].size;
    var known := x < |meta.progress|;
    var done := if known then Clamp(meta.progress[x], 0, size) else e.totalDone;
    e.(path := meta.files[x].path, totalSize := size, totalDone := done,
       segments := if known && done < e.totalDone then [] else e.segments,
       progress := if size > 0 then done as real / size as real else 1.0,
       priority := if x < |meta.priorities| then meta.priorities[x] else e.priority)
  }

  /** `after` is `before` with the files below `n` merged in: sorted, holding the old and the shown indexes, the
      shown entries up to date and the others as they were. */
  ghost predicate MergedUpTo(before: seq<FileEntry>, after: seq<FileEntry>, meta: Metadata, n: int)
    requires n <= |meta.files|
  {
    && Sorted(after)
    && (forall x :: HasIndex(after, x) <==> HasIndex(before, x) || (Shown(meta, x) && x < n))
    && (forall k :: 0 <= k < |after| ==>
          after[k] == if Shown(meta, after[k].index) && after[k].index < n
                      then Updated(EntryOf(before, after[k].index), meta, after[k].index)
                      else EntryOf(before, after[k].index))
  }

  ghost predicate Merged(before: seq<FileEntry>, after: seq<FileEntry>, meta: Metadata) {
    MergedUpTo(before, after, meta, |meta.files|)
  }

  lemma {:induction false} EntryAt(files: seq<FileEntry>, k: nat)
    requires Sorted(files) && k < |files|
    ensures EntryOf(files, files[k].index) == files[k]
  {
    if k < |files| - 1 {
      EntryAt(files[..|files| - 1], k);
    }
  }

  lemma {:induction false} EntryMissing(files: seq<FileEntry>, x: int)
    requires !HasIndex(files, x)
    ensures EntryOf(files, x) == NewEntry(x)
  {
    if files != [] {
      var front := files[..|files| - 1];
      assert files[|files| - 1].index != x;
      assert !HasIndex(front, x) by {
        forall k | 0 <= k < |front|
          ensures front[k].index != x
        {
          assert files[k].index != x;
        }
      }
      EntryMissing(front, x);
    }
  }

  class ParsedTask {
    var files: seq<FileEntry>

    /** The position of the first entry whose index is not below `x`. */
    method LowerBound(x: int) returns (at: nat)
      requires Sorted(files)
      ensures at <= |files|
      ensures forall k :: 0 <= k < at ==> files[k].index < x
      ensures forall k :: at <= k < |files| ==> x <= files[k].index
    {
      at := 0;
      var count := |files|;
      while count > 0
        invariant 0 <= at && 0 <= count && at + count <= |files|
        invariant forall k :: 0 <= k < at ==> files[k].index < x
        invariant forall k :: at + count <= k < |files| ==> x <= files[k].index
      {
        var step := count / 2;
        if files[at + step].index < x {
          at := at + step + 1;
          count := count - step - 1;
        } else {
          count := step;
        }
      }
    }

    /** Find or insert the entry for file `i`. */
    method PlaceEntry(i: nat) returns (at: nat)
      requires Sorted(files)
      modifies this
      ensures Placed(old(files), files, i, at)
    {
      ghost var before := files;
      at := LowerBound(i);
      if at == |files| || files[at].index != i {
        files := files[..at] + [NewEntry(i)] + files[at..];
        InsertPlaces(before, files, i, at);
      } else {
        KeepPlaces(before, i, at);
      }
    }

    /** The merge of the torrent engine: walk the metadata and find, insert and update in place. */
    method MergeParsed(meta: Metadata)
      requires Sorted(files)
      modifies this
      ensures Merged(old(files), files, meta)
    {
      ghost var before := files;
      forall k | 0 <= k < |files|
        ensures EntryOf(before, before[k].index) == before[k]
      {
        EntryAt(files, k);
      }
      var i := 0;
      while i < |meta.files|
        invariant 0 <= i <= |meta.files|
        invariant MergedUpTo(before, files, meta, i)
      {
        if !meta.files[i].pad {
          ghost var sofar := files;
          var at := PlaceEntry(i);
          EntrySoFar(before, sofar, meta, i);
          ghost var placed := files;
          files := files[at := Updated(files[at], meta, i)];
          MergeStep(before, sofar, placed, meta, i, at);
        }
        i := i + 1;
      }
    }
  }

  /** The entry for `x` stands at `at`, and every other entry is as it was. */
  ghost predicate Placed(before: seq<FileEntry>, after: seq<FileEntry>, i: int, at: nat) {
    && Sorted(after) && at < |after| && after[at] == EntryOf(before, i) && after[at].index == i
    && (forall x :: HasIndex(after, x) <==> HasIndex(before, x) || x == i)
    && (forall k :: 0 <= k < |after| && k != at ==>
          after[k].index != i && after[k] == EntryOf(before, after[k].index))
  }

  /** `after` is `before` with one entry put in at `at`. */
  predicate Inserted(before: seq<FileEntry>, after: seq<FileEntry>, at: nat) {
    && at < |after| == |before| + 1
    && (forall k :: 0 <= k < at ==> after[k] == before[k])
    && (forall k :: at < k < |after| ==> after[k] == before[k - 1])
  }

  lemma InsertIndexes(before: seq<FileEntry>, after: seq<FileEntry>, at: nat, x: int)
    requires Inserted(before, after, at)
    ensures HasIndex(after, x) <==> HasIndex(before, x) || x == after[at].index
  {
    if HasIndex(before, x) {
      var k :| 0 <= k < |before| && before[k].index == x;
      assert after[if k < at then k else k + 1].index == x;
    }
    if HasIndex(after, x) && x != after[at].index {
      var k :| 0 <= k < |after| && after[k].index == x;
      assert before[if k < at then k else k - 1].index == x;
    }
  }

  lemma InsertPlaces(before: seq<FileEntry>, after: seq<FileEntry>, i: int, at: nat)
    requires Sorted(before) && at <= |before| && after == before[..at] + [NewEntry(i)] + before[at..]
    requires forall k :: 0 <= k < at ==> before[k].index < i
    requires forall k :: at <= k < |before| ==> i < before[k].index
    ensures Placed(before, after, i, at)
  {
    EntryMissing(before, i);
    assert Inserted(before, after, at);
    forall k | 0 <= k < |after| && k != at
      ensures after[k].index != i && after[k] == EntryOf(before, after[k].index)
    {
      EntryAt(before, if k < at then k else k - 1);
    }
    forall x
      ensures HasIndex(after, x) <==> HasIndex(before, x) || x == i
    {
      InsertIndexes(before, after, at, x);
    }
  }

  lemma KeepPlaces(before: seq<FileEntry>, i: int, at: nat)
    requires Sorted(before) && at < |before| && before[at].index == i
    ensures Placed(before, before, i, at)
  {
    forall k | 0 <= k < |before|
      ensures before[k] == EntryOf(before, before[k].index)
    {
      EntryAt(before, k);
    }
    assert HasIndex(before, i);
  }

  /** While file `i` has not been merged, its entry is still the old one. */
  lemma EntrySoFar(before: seq<FileEntry>, sofar: seq<FileEntry>, meta: Metadata, i: nat)
    requires Sorted(before) && i < |meta.files| && MergedUpTo(before, sofar, meta, i)
    ensures EntryOf(sofar, i) == EntryOf(before, i)
  {
    if HasIndex(sofar, i) {
      var k :| 0 <= k < |sofar| && sofar[k].index == i;
      EntryAt(sofar, k);
    } else {
      EntryMissing(sofar, i);
      EntryMissing(before, i);
    }
  }

  lemma MergeStep(before: seq<FileEntry>, sofar: seq<FileEntry>, placed: seq<FileEntry>, meta: Metadata, i: nat,
                  at: nat)
    requires Sorted(before) && i < |meta.files| && Shown(meta, i) && MergedUpTo(before, sofar, meta, i)
    requires Placed(sofar, placed, i, at) && EntryOf(sofar, i) == EntryOf(before, i)
    ensures MergedUpTo(before, placed[at := Updated(placed[at], meta, i)], meta, i + 1)
  {
    var after := placed[at := Updated(placed[at], meta, i)];
    forall x
      ensures HasIndex(after, x) <==> HasIndex(placed, x)
    {
      if HasIndex(placed, x) {
        var k :| 0 <= k < |placed| && placed[k].index == x;
        assert after[k].index == x;
      }
    }
    forall k | 0 <= k < |after|
      ensures after[k] == if Shown(meta, after[k].index) && after[k].index < i + 1
                          then Updated(EntryOf(before, after[k].index), meta, after[k].index)
                          else EntryOf(before, after[k].index)
    {
      if k != at {
        var x := placed[k].index;
        assert HasIndex(placed, x);
        var j :| 0 <= j < |sofar| && sofar[j].index == x;
        EntryAt(sofar, j);
      }
    }
  }

  // ---------------------------------------------------------------- what the merge means

  /** Sorted lists with the same indexes and the same entries are the same list. */
  lemma {:induction false} SortedListsAgree(a: seq<FileEntry>, b: seq<FileEntry>)
    requires Sorted(a) && Sorted(b)
    requires forall x :: HasIndex(a, x) <==> HasIndex(b, x)
    requires forall x :: HasIndex(a, x) ==> EntryOf(a, x) == EntryOf(b, x)
    ensures a == b
    decreases |a|
  {
    if a == [] {
      if b != [] {
        assert HasIndex(b, b[0].index);
      }
    } else {
      var x := a[|a| - 1].index;
      assert HasIndex(a, x);
      var k :| 0 <= k < |b| && b[k].index == x;
      var y := b[|b| - 1].index;
      assert HasIndex(b, y);
      var j :| 0 <= j < |a| && a[j].index == y;
      assert x == y;
      EntryAt(a, |a| - 1);
      EntryAt(b, |b| - 1);
      FrontAgrees(a, b);
      SortedListsAgree(a[..|a| - 1], b[..|b| - 1]);
    }
  }

  lemma FrontIndexes(a: seq<FileEntry>, x: int)
    requires Sorted(a) && a != []
    ensures HasIndex(a[..|a| - 1], x) <==> HasIndex(a, x) && x != a[|a| - 1].index
    ensures x != a[|a| - 1].index ==> EntryOf(a[..|a| - 1], x) == EntryOf(a, x)
  {
    var front := a[..|a| - 1];
    if HasIndex(front, x) {
      var k :| 0 <= k < |front| && front[k].index == x;
      assert a[k].index == x;
    }
    if HasIndex(a, x) && x != a[|a| - 1].index {
      var k :| 0 <= k < |a| && a[k].index == x;
      assert front[k].index == x;
    }
  }

  lemma FrontAgrees(a: seq<FileEntry>, b: seq<FileEntry>)
    requires Sorted(a) && Sorted(b) && a != [] && b != [] && a[|a| - 1].index == b[|b| - 1].index
    requires forall x :: HasIndex(a, x) <==> HasIndex(b, x)
    requires forall x :: HasIndex(a, x) ==> EntryOf(a, x) == EntryOf(b, x)
    ensures var c, d := a[..|a| - 1], b[..|b| - 1];
            && (forall x :: HasIndex(c, x) <==> HasIndex(d, x))
            && (forall x :: HasIndex(c, x) ==> EntryOf(c, x) == EntryOf(d, x))
  {
    var c, d := a[..|a| - 1], b[..|b| - 1];
    forall x
      ensures HasIndex(c, x) <==> HasIndex(d, x)
      ensures HasIndex(c, x) ==> EntryOf(c, x) == EntryOf(d, x)
    {
      FrontIndexes(a, x);
      FrontIndexes(b, x);
    }
  }

  lemma EntryInMerged(before: seq<FileEntry>, after: seq<FileEntry>, meta: Metadata, x: int)
    requires Merged(before, after, meta) && HasIndex(after, x)
    ensures EntryOf(after, x) == if Shown(meta, x) then Updated(EntryOf(before, x), meta, x) else EntryOf(before, x)
  {
    var k :| 0 <= k < |after| && after[k].index == x;
    EntryAt(after, k);
  }

  /** Merging the same metadata a second time changes nothing. */
  lemma MergeTwiceIsOnce(before: seq<FileEntry>, once: seq<FileEntry>, twice: seq<FileEntry>, meta: Metadata)
    requires Sorted(before) && Merged(before, once, meta) && Merged(once, twice, meta)
    ensures twice == once
  {
    forall x | HasIndex(twice, x)
      ensures EntryOf(twice, x) == EntryOf(once, x)
    {
      EntryInMerged(once, twice, meta, x);
      EntryInMerged(before, once, meta, x);
    }
    SortedListsAgree(twice, once);
  }

  /** A merged file ends with its bytes done inside its size if and only if its progress is known, or the bytes it had
      before are inside the new size: without a report they are kept unlooked at. Its progress is then a share that is
      whole only for a whole file. Its intervals survive unless its bytes went back. */
  lemma MergeBoundsProgress(before: seq<FileEntry>, after: seq<FileEntry>, meta: Metadata, x: int)
    requires Merged(before, after, meta) && Shown(meta, x)
    ensures HasIndex(after, x)
    ensures var e, was := EntryOf(after, x), EntryOf(before, x);
            && e.totalSize == meta.files[x].size
            && (0 <= e.totalDone <= e.totalSize <==> x < |meta.progress| || 0 <= was.totalDone <= e.totalSize)
            && (e.segments == was.segments || (e.segments == [] && e.totalDone < was.totalDone))
            && (0 <= e.totalDone <= e.totalSize ==>
                  0.0 <= e.progress <= 1.0 && (e.progress == 1.0 <==> e.totalDone == e.totalSize))
  {
    assert HasIndex(after, x);
    EntryInMerged(before, after, meta, x);
    var e := EntryOf(after, x);
    if e.totalSize > 0 && 0 <= e.totalDone <= e.totalSize {
      ShareIsWhole(e.totalDone, e.totalSize);
    }
  }

  /** What the list says of file `x`, or that it does not mention it. */
  predicate Lists(files: seq<FileEntry>, x: int, e: FileEntry) {
    exists k :: 0 <= k < |files| && files[k].index == x && files[k] == e
  }

  /** The entry of a shown file after the merge, field by field. The bytes done are those reported, kept inside the
      file; unreported, they stay as they were, none for a file that is new. The intervals go exactly when the bytes
      done went back, and the priority is the one reported, the old one, or the default. */
  lemma MergedEntry(before: seq<FileEntry>, after: seq<FileEntry>, meta: Metadata, e: FileEntry, was: FileEntry)
    requires Sorted(before) && Merged(before, after, meta) && Lists(after, e.index, e)
    requires 0 <= e.index < |meta.files| && !meta.files[e.index].pad
    requires if HasIndex(before, e.index) then Lists(before, e.index, was)
             else was == FileEntry(e.index, "", 0, 0, 0.0, [], 4)
    ensures var x := e.index;
            && e.path == meta.files[x].path && e.totalSize == meta.files[x].size
            && (x < |meta.progress| ==>
                  && (0 <= meta.progress[x] <= meta.files[x].size ==> e.totalDone == meta.progress[x])
                  && (meta.progress[x] < 0 ==> e.totalDone == 0)
                  && (meta.progress[x] > meta.files[x].size ==> e.totalDone == meta.files[x].size))
            && (x >= |meta.progress| ==> e.totalDone == was.totalDone)
            && e.progress == (if e.totalSize > 0 then e.totalDone as real / e.totalSize as real else 1.0)
            && e.segments == (if e.totalDone < was.totalDone then [] else was.segments)
            && e.priority == (if x < |meta.priorities| then meta.priorities[x] else was.priority)
  {
    var k :| 0 <= k < |after| && after[k].index == e.index && after[k] == e;
    EntryAt(after, k);
    EntryInMerged(before, after, meta, e.index);
    if HasIndex(before, e.index) {
      var j :| 0 <= j < |before| && before[j].index == e.index && before[j] == was;
      EntryAt(before, j);
    } else {
      EntryMissing(before, e.index);
    }
  }

  /** Every other entry is as it was: files the metadata hides or does not mention. */
  lemma OthersUntouched(before: seq<FileEntry>, after: seq<FileEntry>, meta: Metadata, x: int)
    requires Sorted(before) && Merged(before, after, meta)
    requires !(0 <= x < |meta.files|) || meta.files[x].pad
    ensures forall e :: Lists(after, x, e) <==> Lists(before, x, e)
  {
    forall e
      ensures Lists(after, x, e) <==> Lists(before, x, e)
    {
      if Lists(after, x, e) {
        var k :| 0 <= k < |after| && after[k].index == x && after[k] == e;
        EntryAt(after, k);
        EntryInMerged(before, after, meta, x);
        assert HasIndex(after, x);
        var j :| 0 <= j < |before| && before[j].index == x;
        EntryAt(before, j);
      }
      if Lists(before, x, e) {
        var j :| 0 <= j < |before| && before[j].index == x && before[j] == e;
        EntryAt(before, j);
        assert HasIndex(before, x);
        var k :| 0 <= k < |after| && after[k].index == x;
        EntryAt(after, k);
        EntryInMerged(before, after, meta, x);
      }
    }
  }

  lemma ShareIsWhole(done: int, size: int)
    requires 0 <= done <= size && size > 0
    ensures 0.0 <= done as real / size as real <= 1.0
    ensures done as real / size as real == 1.0 <==> done == size
  {
  }
}
