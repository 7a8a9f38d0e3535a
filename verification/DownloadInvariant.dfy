/**
  What every step of a download keeps, for any network, any disk and any number of crashes, when the server is
  honest; and what that says about the file once the verdict is Completed.
*/
module DownloadInvariant {
  import opened SplitPlan
  import opened DownloadModel

  // ---------------------------------------------------------------- the server

  /** How responses name the representation they carry. */
  datatype Kind = ByEntityTag | ByDate | Unvalidated

  /** The bytes behind each validator. The resource may change at any time: a new version has a new validator.
      A server without validators has one version only, kept under the empty name. */
  datatype Server = Server(kind: Kind, repr: string -> Bytes)

  function KeyOf(sv: Server, etag: string, lastModified: string): string {
    match sv.kind
    case ByEntityTag => etag
    case ByDate => lastModified
    case Unvalidated => ""
  }

  function Key(sv: Server, t: Task): string { KeyOf(sv, t.etag, t.lastModified) }

  predicate KeyKnown(sv: Server, t: Task) {
    sv.kind != Unvalidated ==> Key(sv, t) != ""
  }

  /** The version the task downloads. */
  function Resource(sv: Server, t: Task): Bytes { sv.repr(Key(sv, t)) }

  /** The response has named the version it carries. */
  predicate Validated(sv: Server, conn: Connection)
    requires conn.Open?
  {
    match sv.kind
    case ByEntityTag => conn.rep != "" && conn.tag == conn.rep
    case ByDate => conn.rep != "" && conn.date == conn.rep
    case Unvalidated => conn.rep == ""
  }

  /** The response carries part of the very version the request insisted on; it need not name it again. */
  predicate AsAsked(sv: Server, conn: Connection)
    requires conn.Open?
  {
    && conn.code == 206
    && match sv.kind
       case ByEntityTag => conn.asked == IfTag(conn.rep)
       case ByDate => conn.asked == IfDate(conn.rep)
       case Unvalidated => false
  }

  /** Where in the file the bytes of a response start. */
  function BodyBase(conn: Connection): int
    requires conn.Open?
  {
    if conn.code == 200 then 0 else conn.from
  }

  predicate HonestHeader(sv: Server, t: Task, i: nat, line: HeaderLine)
    requires i < |t.contexts| && t.contexts[i].conn.Open?
  {
    match line
    case StatusLine(_, rep) => sv.kind == Unvalidated ==> rep == ""
    case ETag(v) => sv.kind == ByEntityTag ==> v != "" && v == t.contexts[i].conn.rep
    case LastModified(v) => sv.kind == ByDate ==> v != "" && v == t.contexts[i].conn.rep
    case _ => true
  }

  /** A 206 body starts at the requested offset, a 200 body at 0; both carry the bytes of the version named, or
      asked for. What lengths the headers announce does not matter here. */
  predicate HonestBody(sv: Server, t: Task, i: nat, data: Bytes)
    requires i < |t.contexts| && t.contexts[i].conn.Open?
  {
    var conn := t.contexts[i].conn;
    var off := BodyBase(conn) + conn.received;
    && (conn.code == 200 || conn.code == 206)
    && (Validated(sv, conn) || AsAsked(sv, conn))
    && 0 <= off && off + |data| <= |sv.repr(conn.rep)|
    && data == sv.repr(conn.rep)[off..off + |data|]
  }

  predicate Honest(sv: Server, t: Task, e: Event)
    requires Legal(t, e)
  {
    match e
    case Header(i, line) => HonestHeader(sv, t, i, line)
    case Body(i, data, _) => HonestBody(sv, t, i, data)
    case _ => true
  }

  predicate HonestRun(sv: Server, cfg: Config, t: Task, run: seq<Event>)
    requires WellFormed(t) && LegalRun(cfg, t, run)
    decreases |run|
  {
    run == [] || (Honest(sv, t, run[0]) && HonestRun(sv, cfg, Step(cfg, t, run[0]), run[1..]))
  }

  // ---------------------------------------------------------------- the invariant

  function Intervals(parts: seq<Part>): (r: seq<Interval>)
    ensures |r| == |parts|
  {
    seq(|parts|, i requires 0 <= i < |parts| => parts[i].Interval())
  }

  /** The parts were cut for a known length. */
  predicate Sized(t: Task)
    requires WellFormed(t)
  {
    t.parts[0].end >= 0
  }

  /** The bytes a part claims are on disk and right. */
  ghost predicate PartOnDisk(file: Bytes, resource: Bytes, p: Part) {
    && 0 <= p.start <= p.end && 0 <= p.done <= p.size == p.end - p.start + 1
    && p.start + p.size <= |file| && (p.done > 0 ==> p.start + p.done <= |resource|)
    && (forall k :: p.start <= k < p.start + p.done ==> file[k] == resource[k])
    && (p.status == Completed ==> p.done == p.size)
  }

  ghost predicate SizedContent(file: Bytes, resource: Bytes, total: int, parts: seq<Part>) {
    && IsPartition(Intervals(parts), total) && |file| == total
    && (forall i :: 0 <= i < |parts| ==> PartOnDisk(file, resource, parts[i]))
  }

  /** Without a known length there is one part, and the whole file is a prefix of the resource. */
  ghost predicate UnsizedContent(file: Bytes, resource: Bytes, parts: seq<Part>) {
    && |parts| == 1
    && var p := parts[0];
    && p.start == 0 && p.end == -1 && 0 <= p.done <= |file| && file <= resource
    && (p.size == 0 || (p.size == p.done && p.status == Completed))
  }

  ghost predicate Content(sv: Server, t: Task)
    requires WellFormed(t)
  {
    t.probing || (KeyKnown(sv, t)
                  && if Sized(t) then SizedContent(t.file, Resource(sv, t), t.total, t.parts)
                     else UnsizedContent(t.file, Resource(sv, t), t.parts))
  }

  predicate Shape(t: Task) {
    && WellFormed(t)
    && (forall i :: t.loop.spawned <= i < |t.contexts| ==> t.contexts[i].conn.Closed?)
    && (t.loop.left ==> forall i :: 0 <= i < |t.contexts| ==> t.contexts[i].conn.Closed?)
    && (t.probing ==>
          && |t.parts| == 1 && t.file == [] && !Resumable(t.saved) && !t.supportRange
          && var p := t.parts[0]; p.start == 0 && p.end == -1 && p.size == 0 && p.done == 0)
  }

  /** A live transfer is about to deliver exactly the byte its part writes next, and its headers agree with
      the task. */
  predicate Aligned(sv: Server, t: Task, c: PartContext, p: Part) {
    c.conn.Open? ==>
      && p.status != Completed
      && (!c.conn.aborted ==>
            && c.conn.from + c.conn.received == p.start + p.done
            && (c.conn.code == 200 ==> c.conn.from == 0)
            && (c.conn.tag != "" ==> c.conn.tag == t.etag)
            && (c.conn.date != "" ==> c.conn.date == t.lastModified)
            && (c.conn.asked.IfTag? ==> c.conn.asked.etag == t.etag != "")
            && (c.conn.asked.IfDate? ==> c.conn.asked.date == t.lastModified != "")
            && (t.probing ==> c.conn.received == 0 && c.seenCode == c.conn.code))
  }

  predicate Connected(sv: Server, t: Task)
    requires WellFormed(t)
  {
    forall i :: 0 <= i < |t.contexts| ==> Aligned(sv, t, t.contexts[i], t.parts[i])
  }

  /** The stored record is never ahead of the disk and describes the same parts of the same version. */
  ghost predicate SavedBehind(sv: Server, t: Task)
    requires WellFormed(t)
  {
    t.saved.Some? && t.saved.value.hasPath ==>
      var s := t.saved.value;
      && !t.probing && KeyOf(sv, s.etag, s.lastModified) == Key(sv, t)
      && |s.parts| == |t.parts|
      && (forall i :: 0 <= i < |s.parts| ==>
            && |s.parts[i]| == 4 && s.parts[i][1] == t.parts[i].start && s.parts[i][2] == t.parts[i].end
            && 0 <= s.parts[i][3] <= t.parts[i].done)
      && (Sized(t) ==> s.total == t.total)
  }

  /** A Completed verdict is only ever given to a task whose parts are all complete. */
  predicate VerdictSound(t: Task) {
    t.status == Completed ==> t.loop.left && forall i :: 0 <= i < |t.parts| ==> t.parts[i].status == Completed
  }

  ghost predicate Inv(sv: Server, t: Task) {
    Shape(t) && Content(sv, t) && Connected(sv, t) && SavedBehind(sv, t) && VerdictSound(t)
  }

  // ---------------------------------------------------------------- headers

  lemma SameIntervals(parts: seq<Part>, i: nat, p: Part)
    requires i < |parts| && p.Interval() == parts[i].Interval()
    ensures Intervals(parts[i := p]) == Intervals(parts)
  {
  }

  lemma FailKeepsIntervals(parts: seq<Part>, i: nat, reason: Reason)
    requires i < |parts|
    ensures Intervals(parts[i := parts[i].(status := Failed, reason := reason)]) == Intervals(parts)
  {
    SameIntervals(parts, i, parts[i].(status := Failed, reason := reason));
  }

  /** Everything but the state of the connections. */
  ghost predicate Base(sv: Server, t: Task) {
    Shape(t) && Content(sv, t) && SavedBehind(sv, t) && VerdictSound(t)
  }

  /** Every connection but number `i` is aligned. */
  predicate OthersConnected(sv: Server, t: Task, i: nat)
    requires WellFormed(t)
  {
    forall j :: 0 <= j < |t.contexts| && j != i ==> Aligned(sv, t, t.contexts[j], t.parts[j])
  }

  /** Any change of one connection that leaves it open keeps everything but its own alignment. */
  lemma ContextKeepsBase(sv: Server, t: Task, i: nat, c: PartContext)
    requires Base(sv, t) && OthersConnected(sv, t, i) && i < |t.contexts|
    requires t.contexts[i].conn.Open?
    ensures Base(sv, WithContext(t, i, c)) && OthersConnected(sv, WithContext(t, i, c), i)
    ensures Aligned(sv, t, c, t.parts[i]) ==> Inv(sv, WithContext(t, i, c))
  {
    var r := WithContext(t, i, c);
    assert forall j :: 0 <= j < |t.contexts| && j != i ==> r.contexts[j] == t.contexts[j];
    assert r.contexts[i] == c;
    assert Aligned(sv, t, c, t.parts[i]) ==> Aligned(sv, r, c, r.parts[i]);
    forall j | 0 <= j < |t.contexts| && j != i
      ensures Aligned(sv, r, r.contexts[j], r.parts[j])
    {
      assert Aligned(sv, t, t.contexts[j], t.parts[j]);
    }
  }

  lemma ContextTwice(t: Task, i: nat, c: PartContext, d: PartContext)
    requires i < |t.contexts|
    ensures WithContext(WithContext(t, i, c), i, d) == WithContext(t, i, d)
  {
  }

  function Cut(c: PartContext): PartContext
    requires c.conn.Open?
  {
    c.(conn := c.conn.(aborted := true))
  }

  lemma CutKeeps(sv: Server, t: Task, i: nat, c: PartContext)
    requires Base(sv, t) && OthersConnected(sv, t, i) && i < |t.contexts|
    requires t.contexts[i].conn.Open? && c.conn.Open? && t.parts[i].status != Completed
    ensures Inv(sv, WithContext(t, i, Cut(c)))
  {
    ContextKeepsBase(sv, t, i, Cut(c));
  }

  lemma DriftKeeps(sv: Server, t: Task, i: nat)
    requires Base(sv, t) && OthersConnected(sv, t, i) && i < |t.contexts|
    requires t.contexts[i].conn.Open? && t.parts[i].status != Completed
    ensures Base(sv, Drift(t, i)) && OthersConnected(sv, Drift(t, i), i)
  {
    FailKeepsIntervals(t.parts, i, GeneralError);
    var r := Drift(t, i);
    assert forall j :: 0 <= j < |t.contexts| && j != i ==> r.parts[j] == t.parts[j];
  }

  lemma DriftAndCutKeeps(sv: Server, t: Task, i: nat, c: PartContext)
    requires Base(sv, t) && OthersConnected(sv, t, i) && i < |t.contexts|
    requires t.contexts[i].conn.Open? && c.conn.Open? && t.parts[i].status != Completed
    ensures Inv(sv, WithContext(Drift(t, i), i, Cut(c)))
  {
    DriftKeeps(sv, t, i);
    CutKeeps(sv, Drift(t, i), i, c);
  }

  /** A line that contradicts what the task knows fails the part and the task, and cuts the connection. */
  lemma DriftLineKeeps(sv: Server, t: Task, i: nat, line: HeaderLine, c: PartContext)
    requires Inv(sv, t) && Legal(t, Header(i, line)) && !(t.status == Failed || t.loop.cancelRequested)
    requires c.conn.Open?
    requires HeaderLineResult(WithConnection(t, i, Observe(t.contexts[i].conn, line)), i, line)
             == HeaderResult(Drift(WithContext(t, i, c), i), false)
    ensures Inv(sv, OnHeader(t, i, line))
  {
    assert Aligned(sv, t, t.contexts[i], t.parts[i]);
    var d := Drift(t, i);
    assert Drift(WithContext(t, i, c), i) == WithContext(d, i, c);
    ContextTwice(d, i, c, Cut(c));
    DriftAndCutKeeps(sv, t, i, c);
  }

  /** A refused line only cuts the connection. */
  lemma RefusedLineKeeps(sv: Server, t: Task, i: nat, line: HeaderLine)
    requires Inv(sv, t) && Legal(t, Header(i, line)) && (t.status == Failed || t.loop.cancelRequested)
    ensures Inv(sv, OnHeader(t, i, line))
  {
    assert Aligned(sv, t, t.contexts[i], t.parts[i]);
    var c := t.contexts[i].(conn := Observe(t.contexts[i].conn, line));
    ContextTwice(t, i, c, Cut(c));
    CutKeeps(sv, t, i, c);
  }

  lemma StatusLineKeeps(sv: Server, t: Task, i: nat, code: int, rep: string)
    requires Inv(sv, t) && Legal(t, Header(i, StatusLine(code, rep))) && !(t.status == Failed || t.loop.cancelRequested)
    requires HonestHeader(sv, t, i, StatusLine(code, rep))
    ensures Inv(sv, OnHeader(t, i, StatusLine(code, rep)))
  {
    var c0 := t.contexts[i];
    assert Aligned(sv, t, c0, t.parts[i]);
    var c1 := c0.(conn := Observe(c0.conn, StatusLine(code, rep)));
    var c2 := c1.(seenCode := code);
    ContextTwice(t, i, c1, c2);
    if code == 200 && !FullStreamOk(t, i) {
      DriftLineKeeps(sv, t, i, StatusLine(code, rep), c2);
    } else {
      if code == 200 {
        StreamStartsAtZero(sv, t, i);
      }
      ContextKeepsBase(sv, t, i, c2);
    }
  }

  /** A part that may take a full stream writes at byte 0. */
  lemma StreamStartsAtZero(sv: Server, t: Task, i: nat)
    requires Inv(sv, t) && i < |t.parts| && FullStreamOk(t, i)
    ensures t.parts[i].start == 0
  {
    if !t.probing && Sized(t) {
      assert Intervals(t.parts)[0] == t.parts[0].Interval();
    }
  }

  lemma ContentRangeKeeps(sv: Server, t: Task, i: nat, total: int)
    requires Inv(sv, t) && Legal(t, Header(i, ContentRange(total))) && !(t.status == Failed || t.loop.cancelRequested)
    ensures Inv(sv, OnHeader(t, i, ContentRange(total)))
  {
    var c0 := t.contexts[i];
    assert Aligned(sv, t, c0, t.parts[i]);
    var c2 := c0.(seenTotal := total);
    ContextTwice(t, i, c0, c2);
    if total <= 0 {
      ContextKeepsBase(sv, t, i, c0);
    } else if t.total <= 0 {
      LearnTotalKeeps(sv, t, total);
      ContextKeepsBase(sv, t.(total := total), i, c2);
      assert OnHeader(t, i, ContentRange(total)) == WithContext(t.(total := total), i, c2);
    } else if total != t.total {
      DriftLineKeeps(sv, t, i, ContentRange(total), c2);
    } else {
      ContextKeepsBase(sv, t, i, c2);
    }
  }

  lemma SizedTotal(file: Bytes, resource: Bytes, total: int, parts: seq<Part>)
    requires SizedContent(file, resource, total, parts)
    ensures total > 0
  {
    var plan := Intervals(parts);
    PartitionIsExact(plan, total, plan[0].start);
    assert plan[0].Contains(0);
  }

  /** The first known length: a sized download has one already. */
  lemma LearnTotalKeeps(sv: Server, t: Task, total: int)
    requires Inv(sv, t) && t.total <= 0 < total
    ensures Inv(sv, t.(total := total))
  {
    var r := t.(total := total);
    if !t.probing && Sized(t) {
      SizedTotal(t.file, Resource(sv, t), t.total, t.parts);
      assert false;
    }
    forall j | 0 <= j < |t.contexts|
      ensures Aligned(sv, r, r.contexts[j], r.parts[j])
    {
      assert Aligned(sv, t, t.contexts[j], t.parts[j]);
    }
  }

  lemma ContentLengthKeeps(sv: Server, t: Task, i: nat, n: int)
    requires Inv(sv, t) && Legal(t, Header(i, ContentLength(n))) && !(t.status == Failed || t.loop.cancelRequested)
    ensures Inv(sv, OnHeader(t, i, ContentLength(n)))
  {
    var c0 := t.contexts[i];
    assert Aligned(sv, t, c0, t.parts[i]);
    ContextTwice(t, i, c0, c0.(seenTotal := n));
    ContextKeepsBase(sv, t, i, c0.(seenTotal := n));
    ContextKeepsBase(sv, t, i, c0);
  }

  /** The first validator the task hears; whatever is on disk already belongs to a known version. */
  lemma LearnETagKeeps(sv: Server, t: Task, v: string)
    requires Inv(sv, t) && t.etag == ""
    ensures Inv(sv, t.(etag := v))
  {
    var r := t.(etag := v);
    assert KeyKnown(sv, t) ==> Key(sv, r) == Key(sv, t);
    forall j | 0 <= j < |t.contexts|
      ensures Aligned(sv, r, r.contexts[j], r.parts[j])
    {
      assert Aligned(sv, t, t.contexts[j], t.parts[j]);
    }
  }

  lemma ETagKeeps(sv: Server, t: Task, i: nat, v: string)
    requires Inv(sv, t) && Legal(t, Header(i, ETag(v))) && !(t.status == Failed || t.loop.cancelRequested)
    requires HonestHeader(sv, t, i, ETag(v))
    ensures Inv(sv, OnHeader(t, i, ETag(v)))
  {
    var c0 := t.contexts[i];
    assert Aligned(sv, t, c0, t.parts[i]);
    var c1 := c0.(conn := Observe(c0.conn, ETag(v)));
    if t.etag == "" {
      LearnETagKeeps(sv, t, v);
      ContextKeepsBase(sv, t.(etag := v), i, c1);
      assert OnHeader(t, i, ETag(v)) == WithContext(t.(etag := v), i, c1);
    } else if v != t.etag {
      DriftLineKeeps(sv, t, i, ETag(v), c1);
    } else {
      ContextKeepsBase(sv, t, i, c1);
      assert OnHeader(t, i, ETag(v)) == WithContext(t, i, c1);
    }
  }

  lemma LearnLastModifiedKeeps(sv: Server, t: Task, v: string)
    requires Inv(sv, t) && t.lastModified == ""
    ensures Inv(sv, t.(lastModified := v))
  {
    var r := t.(lastModified := v);
    assert KeyKnown(sv, t) ==> Key(sv, r) == Key(sv, t);
    forall j | 0 <= j < |t.contexts|
      ensures Aligned(sv, r, r.contexts[j], r.parts[j])
    {
      assert Aligned(sv, t, t.contexts[j], t.parts[j]);
    }
  }

  lemma LastModifiedKeeps(sv: Server, t: Task, i: nat, v: string)
    requires Inv(sv, t) && Legal(t, Header(i, LastModified(v))) && !(t.status == Failed || t.loop.cancelRequested)
    requires HonestHeader(sv, t, i, LastModified(v))
    ensures Inv(sv, OnHeader(t, i, LastModified(v)))
  {
    var c0 := t.contexts[i];
    assert Aligned(sv, t, c0, t.parts[i]);
    var c1 := c0.(conn := Observe(c0.conn, LastModified(v)));
    if t.lastModified == "" {
      LearnLastModifiedKeeps(sv, t, v);
      ContextKeepsBase(sv, t.(lastModified := v), i, c1);
      assert OnHeader(t, i, LastModified(v)) == WithContext(t.(lastModified := v), i, c1);
    } else if v != t.lastModified {
      DriftLineKeeps(sv, t, i, LastModified(v), c1);
    } else {
      ContextKeepsBase(sv, t, i, c1);
      assert OnHeader(t, i, LastModified(v)) == WithContext(t, i, c1);
    }
  }

  lemma HeaderKeeps(sv: Server, t: Task, i: nat, line: HeaderLine)
    requires Inv(sv, t) && Legal(t, Header(i, line)) && HonestHeader(sv, t, i, line)
    ensures Inv(sv, OnHeader(t, i, line))
  {
    if t.status == Failed || t.loop.cancelRequested {
      RefusedLineKeeps(sv, t, i, line);
    } else {
      match line
      case StatusLine(code, rep) => StatusLineKeeps(sv, t, i, code, rep);
      case ContentRange(total) => ContentRangeKeeps(sv, t, i, total);
      case ContentLength(n) => ContentLengthKeeps(sv, t, i, n);
      case ETag(v) => ETagKeeps(sv, t, i, v);
      case LastModified(v) => LastModifiedKeeps(sv, t, i, v);
      case OtherLine =>
        assert Aligned(sv, t, t.contexts[i], t.parts[i]);
        ContextKeepsBase(sv, t, i, t.contexts[i]);
    }
  }

  // ---------------------------------------------------------------- bodies

  /** The bytes of the data are where they were written; before them, beyond the old end, there are zeros. */
  lemma WriteAtBytes(file: Bytes, off: nat, data: Bytes)
    ensures |WriteAt(file, off, data)| == if data == [] then |file| else Max(|file|, off + |data|)
    ensures forall k :: 0 <= k < |WriteAt(file, off, data)| ==>
              WriteAt(file, off, data)[k]
              == if off <= k < off + |data| then data[k - off] else if k < |file| then file[k] else 0
  {
  }

  /** Writing right bytes into a file of the right length leaves every part's bytes right. */
  lemma WriteKeepsParts(file: Bytes, resource: Bytes, off: nat, data: Bytes, p: Part)
    requires PartOnDisk(file, resource, p)
    requires off + |data| <= |file| && off + |data| <= |resource| && data == resource[off..off + |data|]
    ensures PartOnDisk(WriteAt(file, off, data), resource, p)
  {
    WriteAtBytes(file, off, data);
  }

  /** `kept` is stored where part `i` continues, and the part claims `gain` of those bytes. */
  lemma StoreKeepsSized(file: Bytes, resource: Bytes, total: int, parts: seq<Part>, i: nat, kept: Bytes, p: Part)
    requires SizedContent(file, resource, total, parts) && i < |parts| && parts[i].status != Completed
    requires p.start == parts[i].start && p.end == parts[i].end && p.size == parts[i].size && p.status != Completed
    requires parts[i].done <= p.done <= parts[i].done + |kept| <= p.size
    requires var off := p.start + parts[i].done;
             off + |kept| <= |resource| && kept == resource[off..off + |kept|]
    ensures SizedContent(WriteAt(file, p.start + parts[i].done, kept), resource, total, parts[i := p])
  {
    var off := p.start + parts[i].done;
    assert PartOnDisk(file, resource, parts[i]);
    SameIntervals(parts, i, p);
    WriteAtBytes(file, off, kept);
    var updated := parts[i := p];
    forall j | 0 <= j < |parts|
      ensures PartOnDisk(WriteAt(file, off, kept), resource, updated[j])
    {
      WriteKeepsParts(file, resource, off, kept, parts[j]);
    }
  }

  lemma FailKeepsSized(file: Bytes, resource: Bytes, total: int, parts: seq<Part>, i: nat, reason: Reason)
    requires SizedContent(file, resource, total, parts) && i < |parts|
    ensures SizedContent(file, resource, total, parts[i := parts[i].(status := Failed, reason := reason)])
  {
    FailKeepsIntervals(parts, i, reason);
    assert PartOnDisk(file, resource, parts[i]);
  }

  /** What a write does to the file and to its part, in one form for every outcome of the disk. */
  lemma WriteForm(t: Task, i: nat, data: Bytes, outcome: WriteOutcome)
    requires WellFormed(t) && i < |t.parts| && 0 <= t.parts[i].start && 0 <= t.parts[i].done
    requires t.parts[i].size > 0 && t.parts[i].done < t.parts[i].size && !outcome.FileMissing?
    ensures var p, r := t.parts[i], WriteIntoPart(t, i, data, outcome).task;
            var len := if outcome.FailsAfter? then Min(outcome.count, Needed(p, |data|)) else Needed(p, |data|);
            && len <= |data| && len <= p.size - p.done
            && r.file == WriteAt(t.file, p.start + p.done, data[..len])
            && r.parts == t.parts[i := if outcome.FailsAfter? then p.(status := Failed, reason := GeneralError)
                                       else p.(done := p.done + len)]
            && r.total == t.total
  {
  }

  lemma WriteKeepsSized(t: Task, i: nat, resource: Bytes, data: Bytes, outcome: WriteOutcome)
    requires WellFormed(t) && i < |t.parts| && t.parts[i].status != Completed
    requires SizedContent(t.file, resource, t.total, t.parts)
    requires var off := t.parts[i].start + t.parts[i].done;
             off + |data| <= |resource| && data == resource[off..off + |data|]
    ensures var r := WriteIntoPart(t, i, data, outcome).task;
            SizedContent(r.file, resource, r.total, r.parts)
  {
    var p := t.parts[i];
    assert PartOnDisk(t.file, resource, p) && p.size > 0;
    if p.done < p.size {
      if outcome.FileMissing? {
        FailKeepsSized(t.file, resource, t.total, t.parts, i, GeneralError);
      } else {
        var len := if outcome.FailsAfter? then Min(outcome.count, Needed(p, |data|)) else Needed(p, |data|);
        var q := if outcome.FailsAfter? then p.(status := Failed, reason := GeneralError)
                 else p.(done := p.done + len);
        WriteForm(t, i, data, outcome);
        StorePrefixKeepsSized(t, i, resource, data, len, q);
      }
    }
  }

  lemma StorePrefixKeepsSized(t: Task, i: nat, resource: Bytes, data: Bytes, len: nat, p: Part)
    requires WellFormed(t) && i < |t.parts| && t.parts[i].status != Completed && len <= |data|
    requires SizedContent(t.file, resource, t.total, t.parts)
    requires var off := t.parts[i].start + t.parts[i].done;
             0 <= off && off + |data| <= |resource| && data == resource[off..off + |data|]
    requires p.start == t.parts[i].start && p.end == t.parts[i].end && p.size == t.parts[i].size
    requires p.status != Completed
    requires t.parts[i].done <= p.done <= t.parts[i].done + len <= p.size
    ensures SizedContent(WriteAt(t.file, t.parts[i].start + t.parts[i].done, data[..len]), resource, t.total,
                         t.parts[i := p])
  {
    var off := t.parts[i].start + t.parts[i].done;
    assert data[..len] == resource[off..off + len];
    StoreKeepsSized(t.file, resource, t.total, t.parts, i, data[..len], p);
  }

  lemma WriteKeepsUnsized(t: Task, i: nat, resource: Bytes, data: Bytes, outcome: WriteOutcome)
    requires WellFormed(t) && i < |t.parts| && t.parts[i].status != Completed
    requires UnsizedContent(t.file, resource, t.parts)
    requires var off := t.parts[i].start + t.parts[i].done;
             off + |data| <= |resource| && data == resource[off..off + |data|]
    ensures var r := WriteIntoPart(t, i, data, outcome).task;
            UnsizedContent(r.file, resource, r.parts)
  {
    var p, r := t.parts[i], WriteIntoPart(t, i, data, outcome).task;
    if !outcome.FileMissing? {
      var kept := if outcome.FailsAfter? then data[..Min(outcome.count, |data|)] else data;
      assert data[..|data|] == data;
      assert r.file == WriteAt(t.file, p.done, kept);
      WriteAtBytes(t.file, p.done, kept);
    }
  }

  lemma PartitionBounds(plan: seq<Interval>, total: int, i: nat)
    requires IsPartition(plan, total) && i < |plan|
    ensures 0 <= plan[i].start <= plan[i].end < total
  {
    PartitionIsExact(plan, total, plan[i].start);
    PartitionIsExact(plan, total, plan[i].end);
    assert plan[i].Contains(plan[i].start) && plan[i].Contains(plan[i].end);
  }

  /** A body that reaches the task belongs to the version the task downloads, and continues its part. */
  lemma BodyMatches(sv: Server, t: Task, i: nat, data: Bytes)
    requires Inv(sv, t) && i < |t.contexts|
    requires t.contexts[i].conn.Open? && !t.contexts[i].conn.aborted && HonestBody(sv, t, i, data)
    ensures KeyKnown(sv, t) && Resource(sv, t) == sv.repr(t.contexts[i].conn.rep)
    ensures var off := t.parts[i].start + t.parts[i].done;
            0 <= off && off + |data| <= |Resource(sv, t)| && data == Resource(sv, t)[off..off + |data|]
  {
    assert Aligned(sv, t, t.contexts[i], t.parts[i]);
  }

  /** After a 206, the file exists at full length and the planned parts partition it. */
  lemma CutGivesContent(cfg: Config, resource: Bytes, total: int)
    requires ValidConfig(cfg)
    ensures var file := if total > 0 then Zeros(total) else [];
            var parts := PlannedPartsOf(cfg, total);
            if parts[0].end >= 0 then SizedContent(file, resource, total, parts)
            else UnsizedContent(file, resource, parts)
  {
    var parts := PlannedPartsOf(cfg, total);
    assert Intervals(parts) == Plan(cfg, total);
    if total > 0 {
      PlanIsPartition(cfg, total);
      forall j | 0 <= j < |parts|
        ensures PartOnDisk(Zeros(total), resource, parts[j])
      {
        PartitionBounds(Plan(cfg, total), total, j);
      }
    }
  }

  /** A single stream takes the whole file. */
  lemma SingleGivesContent(resource: Bytes, total: int, p: Part)
    requires p.start == 0 && p.end == (if total > 0 then total - 1 else -1) && p.done == 0
    requires p.size == (if total > 0 then total else 0) && p.status != Completed
    ensures var file := if total > 0 then Zeros(total) else [];
            if p.end >= 0 then SizedContent(file, resource, total, [p]) else UnsizedContent(file, resource, [p])
  {
    assert Intervals([p]) == [p.Interval()];
  }

  lemma FailedCreateKeeps(sv: Server, t: Task, data: Bytes)
    requires Inv(sv, t) && t.probing
    requires t.contexts[0].conn.Open? && !t.contexts[0].conn.aborted && HonestBody(sv, t, 0, data)
    ensures Inv(sv, CreateFile(t, 0).(file := t.file, status := Failed, reason := GeneralError))
  {
    BodyMatches(sv, t, 0, data);
    assert Aligned(sv, t, t.contexts[0], t.parts[0]);
  }

  lemma CutPartsKeeps(sv: Server, cfg: Config, t: Task, data: Bytes)
    requires ValidConfig(cfg) && Inv(sv, t) && t.probing
    requires t.contexts[0].conn.Open? && !t.contexts[0].conn.aborted && HonestBody(sv, t, 0, data)
    ensures Inv(sv, CutParts(cfg, CreateFile(t, 0)))
  {
    BodyMatches(sv, t, 0, data);
    assert Aligned(sv, t, t.contexts[0], t.parts[0]);
    var created := CreateFile(t, 0);
    CutGivesContent(cfg, Resource(sv, t), created.total);
    var r := CutParts(cfg, created);
    assert r.parts == PlannedPartsOf(cfg, created.total);
    assert forall j :: 1 <= j < |r.contexts| ==> r.contexts[j] == FRESH_CONTEXT;
  }

  lemma SingleStreamKeeps(sv: Server, t: Task, data: Bytes)
    requires Inv(sv, t) && t.probing
    requires t.contexts[0].conn.Open? && !t.contexts[0].conn.aborted && HonestBody(sv, t, 0, data)
    ensures Inv(sv, SingleStream(CreateFile(t, 0)))
  {
    BodyMatches(sv, t, 0, data);
    assert Aligned(sv, t, t.contexts[0], t.parts[0]);
    var created := CreateFile(t, 0);
    var r := SingleStream(created);
    assert r.parts == [r.parts[0]];
    SingleGivesContent(Resource(sv, t), created.total, r.parts[0]);
  }

  lemma FinalizeKeeps(sv: Server, cfg: Config, t: Task, data: Bytes, creates: bool)
    requires ValidConfig(cfg) && Inv(sv, t) && t.probing
    requires t.contexts[0].conn.Open? && !t.contexts[0].conn.aborted && HonestBody(sv, t, 0, data)
    ensures Inv(sv, FinalizeProbing(cfg, t, 0, creates))
  {
    if !creates {
      FailedCreateKeeps(sv, t, data);
    } else if t.contexts[0].seenCode == 206 {
      CutPartsKeeps(sv, cfg, t, data);
    } else {
      SingleStreamKeeps(sv, t, data);
    }
  }

  /** Progress of one part on a file that stays right keeps everything but the alignment of its connection. */
  lemma PartGrowsKeeps(sv: Server, t: Task, i: nat, p: Part, file: Bytes)
    requires Base(sv, t) && OthersConnected(sv, t, i) && !t.probing && i < |t.parts|
    requires t.contexts[i].conn.Open? && t.parts[i].status != Completed
    requires p.start == t.parts[i].start && p.end == t.parts[i].end && p.done >= t.parts[i].done
    requires if Sized(t) then SizedContent(file, Resource(sv, t), t.total, t.parts[i := p])
             else UnsizedContent(file, Resource(sv, t), t.parts[i := p])
    ensures var r := t.(parts := t.parts[i := p], file := file);
            Base(sv, r) && OthersConnected(sv, r, i)
  {
    var r := t.(parts := t.parts[i := p], file := file);
    assert forall j :: 0 <= j < |t.parts| && j != i ==> r.parts[j] == t.parts[j];
    forall j | 0 <= j < |t.contexts| && j != i
      ensures Aligned(sv, r, r.contexts[j], r.parts[j])
    {
      assert Aligned(sv, t, t.contexts[j], t.parts[j]);
    }
  }

  lemma WriteFrame(t: Task, i: nat, data: Bytes, outcome: WriteOutcome)
    requires WellFormed(t) && i < |t.parts|
    ensures var r := WriteIntoPart(t, i, data, outcome);
            && r.task == t.(parts := t.parts[i := r.task.parts[i]], file := r.task.file)
            && r.task.parts[i].start == t.parts[i].start && r.task.parts[i].end == t.parts[i].end
            && r.task.parts[i].done == t.parts[i].done + r.taken && r.taken <= |data|
            && (r.task.parts[i].status == t.parts[i].status || r.task.parts[i].status == Failed)
  {
    assert t.parts[i := t.parts[i]] == t.parts;
  }

  lemma DeliveredKeeps(sv: Server, e: WriteEffect, i: nat, len: nat)
    requires Base(sv, e.task) && OthersConnected(sv, e.task, i) && i < |e.task.contexts|
    requires e.task.contexts[i].conn.Open?
    requires var conn := e.task.contexts[i].conn;
             Aligned(sv, e.task, e.task.contexts[i].(conn := conn.(received := conn.received + len,
                                                                   aborted := e.taken < len)), e.task.parts[i])
    ensures Inv(sv, Delivered(e, i, len))
  {
    var conn := e.task.contexts[i].conn;
    ContextKeepsBase(sv, e.task, i, e.task.contexts[i].(conn := conn.(received := conn.received + len,
                                                                      aborted := e.taken < len)));
  }

  lemma WriteStepKeeps(sv: Server, t: Task, i: nat, data: Bytes, outcome: WriteOutcome)
    requires Inv(sv, t) && !t.probing && i < |t.contexts|
    requires t.contexts[i].conn.Open? && !t.contexts[i].conn.aborted && HonestBody(sv, t, i, data)
    ensures Inv(sv, Delivered(WriteIntoPart(t, i, data, outcome), i, |data|))
  {
    BodyMatches(sv, t, i, data);
    assert Aligned(sv, t, t.contexts[i], t.parts[i]);
    var r := WriteIntoPart(t, i, data, outcome);
    if Sized(t) {
      WriteKeepsSized(t, i, Resource(sv, t), data, outcome);
    } else {
      WriteKeepsUnsized(t, i, Resource(sv, t), data, outcome);
    }
    WriteFrame(t, i, data, outcome);
    PartGrowsKeeps(sv, t, i, r.task.parts[i], r.task.file);
    DeliveredKeeps(sv, r, i, |data|);
  }

  lemma RefusedBodyKeeps(sv: Server, t: Task, i: nat, len: nat)
    requires Inv(sv, t) && i < |t.contexts| && t.contexts[i].conn.Open? && len > 0
    ensures Inv(sv, Delivered(WriteEffect(t, 0), i, len))
  {
    assert Aligned(sv, t, t.contexts[i], t.parts[i]);
    DeliveredKeeps(sv, WriteEffect(t, 0), i, len);
  }

  lemma BodyKeeps(sv: Server, cfg: Config, t: Task, i: nat, data: Bytes, disk: Disk)
    requires ValidConfig(cfg) && Inv(sv, t) && Legal(t, Body(i, data, disk)) && HonestBody(sv, t, i, data)
    ensures Inv(sv, OnBody(cfg, t, i, data, disk))
  {
    if t.status == Failed || t.loop.cancelRequested || t.loop.pauseRequested {
      RefusedBodyKeeps(sv, t, i, |data|);
    } else if t.probing {
      FinalizeKeeps(sv, cfg, t, data, disk.creates);
      var t1 := FinalizeProbing(cfg, t, i, disk.creates);
      if t1.status == Failed {
        RefusedBodyKeeps(sv, t1, i, |data|);
      } else {
        WriteStepKeeps(sv, t1, i, data, disk.write);
      }
    } else {
      WriteStepKeeps(sv, t, i, data, disk.write);
    }
  }
}
