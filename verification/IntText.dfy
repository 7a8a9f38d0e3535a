/**
  Integers as decimal text: the list of selected files as it is stored, and the byte range a player asks for.
*/
module IntText {
  import opened Wrappers

  const INT32_MIN := -0x8000_0000
  const INT32_MAX := 0x7FFF_FFFF
  const INT64_MIN := -0x8000_0000_0000_0000
  const INT64_MAX := 0x7FFF_FFFF_FFFF_FFFF

  predicate IsDigit(c: char) { '0' <= c <= '9' }

  predicate AllDigits(s: string) {
    forall k :: 0 <= k < |s| ==> IsDigit(s[k])
  }

  predicate Without(s: string, c: char) {
    forall k :: 0 <= k < |s| ==> s[k] != c
  }

  function DigitChar(d: int): char
    requires 0 <= d < 10
  {
    ('0' as int + d) as char
  }

  function Digits(n: nat): (s: string)
    ensures s != []
  {
    if n < 10 then [DigitChar(n)] else Digits(n / 10) + [DigitChar(n % 10)]
  }

  function Print(n: int): string {
    if n < 0 then "-" + Digits(-n) else Digits(n)
  }

  /** The number a string of digits stands for. */
  function Value(s: string): int
    requires AllDigits(s)
  {
    if s == [] then 0 else Value(s[..|s| - 1]) * 10 + (s[|s| - 1] as int - '0' as int)
  }

  function LeadingDigits(s: string): (n: nat)
    ensures n <= |s|
  {
    if s == [] || !IsDigit(s[0]) then 0 else 1 + LeadingDigits(s[1..])
  }

  lemma {:induction false} LeadingAreDigits(s: string)
    ensures AllDigits(s[..LeadingDigits(s)])
  {
    if LeadingDigits(s) > 0 {
      LeadingAreDigits(s[1..]);
      var n := LeadingDigits(s);
      assert s[..n] == [s[0]] + s[1..][..n - 1];
    }
  }

  lemma {:induction false} DigitsAreDigits(n: nat)
    ensures AllDigits(Digits(n))
  {
    if n >= 10 {
      DigitsAreDigits(n / 10);
    }
  }

  function ParseDigits(body: string, negative: bool, lo: int, hi: int): Option<int> {
    var n := LeadingDigits(body);
    if n == 0 then None
    else
      LeadingAreDigits(body);
      var v := Signed(Value(body[..n]), negative);
      if lo <= v <= hi then Some(v) else None
  }

  /** Parse an optional minus sign and digits at the start of the text; whatever follows is left alone. It fails
      without digits, and when the value does not fit. */
  function Parse(s: string, lo: int, hi: int): Option<int> {
    if s != [] && s[0] == '-' then ParseDigits(s[1..], true, lo, hi) else ParseDigits(s, false, lo, hi)
  }

  lemma {:induction false} DigitsValue(n: nat)
    ensures AllDigits(Digits(n)) && Value(Digits(n)) == n
  {
    DigitsAreDigits(n);
    if n >= 10 {
      var s := Digits(n);
      assert s[..|s| - 1] == Digits(n / 10);
      DigitsValue(n / 10);
    } else {
      assert Value([]) == 0;
      assert Digits(n)[..0] == [];
    }
  }

  lemma {:induction false} AllDigitsLead(s: string, rest: string)
    requires AllDigits(s)
    requires rest == [] || !IsDigit(rest[0])
    ensures LeadingDigits(s + rest) == |s|
  {
    if s == [] {
      assert s + rest == rest;
    } else {
      assert (s + rest)[1..] == s[1..] + rest;
      AllDigitsLead(s[1..], rest);
    }
  }

  function Signed(m: int, negative: bool): int { if negative then -m else m }

  lemma DigitsParsed(m: nat, rest: string, negative: bool, lo: int, hi: int)
    requires lo <= Signed(m, negative) <= hi && (rest == [] || !IsDigit(rest[0]))
    ensures ParseDigits(Digits(m) + rest, negative, lo, hi) == Some(Signed(m, negative))
  {
    var digits := Digits(m);
    DigitsValue(m);
    AllDigitsLead(digits, rest);
    assert (digits + rest)[..|digits|] == digits;
  }

  /** A printed number is read back, whatever follows it, as long as that is not a digit. */
  lemma ParsePrinted(n: int, rest: string, lo: int, hi: int)
    requires lo <= n <= hi && (rest == [] || !IsDigit(rest[0]))
    ensures Parse(Print(n) + rest, lo, hi) == Some(n)
  {
    var m := if n < 0 then -n else n;
    DigitsParsed(m, rest, n < 0, lo, hi);
    var s := Print(n) + rest;
    if n < 0 {
      assert s[1..] == Digits(m) + rest;
    } else {
      DigitsAreDigits(m);
      assert s[0] == Digits(m)[0];
    }
  }

  // ---------------------------------------------------------------- lists of integers

  function JoinFrom(v: seq<int>): string {
    if v == [] then "" else if |v| == 1 then Print(v[0]) else Print(v[0]) + "," + JoinFrom(v[1..])
  }

  /** What is written from number `i` on. */
  function JoinTail(v: seq<int>, i: nat): string
    requires i <= |v|
    decreases |v| - i
  {
    if i == |v| then "" else (if i > 0 then "," else "") + Print(v[i]) + JoinTail(v, i + 1)
  }

  lemma {:induction false} JoinTailIsJoin(v: seq<int>, i: nat)
    requires i <= |v|
    ensures JoinTail(v, i) == (if 0 < i < |v| then "," else "") + JoinFrom(v[i..])
    decreases |v| - i
  {
    if i < |v| {
      assert v[i..][1..] == v[i + 1..];
      JoinTailIsJoin(v, i + 1);
    }
  }

  lemma Assoc<T>(a: seq<T>, b: seq<T>, c: seq<T>)
    ensures a + b + c == a + (b + c)
  {
  }

  method JoinInts(v: seq<int>) returns (out: string)
    ensures out == JoinFrom(v)
  {
    out := "";
    var i := 0;
    ghost var whole := JoinTail(v, 0);
    while i < |v|
      invariant 0 <= i <= |v|
      invariant out + JoinTail(v, i) == whole
    {
      ghost var before, comma := out, if i > 0 then "," else "";
      Assoc(before, comma + Print(v[i]), JoinTail(v, i + 1));
      Assoc(before, comma, Print(v[i]));
      if i > 0 {
        out := out + ",";
      }
      out := out + Print(v[i]);
      i := i + 1;
    }
    JoinTailIsJoin(v, 0);
    assert v[0..] == v;
    assert "" + JoinFrom(v) == JoinFrom(v) && out + "" == out;
  }

  /** The position of the first comma from `from` on, or the end of the text. */
  function CommaAt(s: string, from: nat): (k: nat)
    requires from <= |s|
    ensures from <= k <= |s|
    decreases |s| - from
  {
    if from == |s| || s[from] == ',' then from else CommaAt(s, from + 1)
  }

  /** The numbers of one segment: none when it is empty or no number. */
  function Segment(s: string): seq<int> {
    if s == [] then [] else match Parse(s, INT32_MIN, INT32_MAX) case Some(v) => [v] case None => []
  }

  datatype List = Nil | Cons(head: string, tail: List)

  /** The comma-separated segments from `from` on, empty ones included. */
  function Pieces(s: string, from: nat): List
    requires from <= |s|
    decreases |s| - from
  {
    var k := CommaAt(s, from);
    Cons(s[from..k], if k < |s| then Pieces(s, k + 1) else Nil)
  }

  function Numbers(pieces: List): seq<int> {
    match pieces
    case Nil => []
    case Cons(head, tail) => Segment(head) + Numbers(tail)
  }

  function Split(s: string): seq<int> { Numbers(Pieces(s, 0)) }

  method PushSegment(out: seq<int>, text: string) returns (r: seq<int>)
    ensures r == out + Segment(text)
  {
    r := out;
    if text != [] {
      match Parse(text, INT32_MIN, INT32_MAX) {
        case Some(v) => r := out + [v];
        case None =>
      }
    }
  }

  /** What is still to be found when the segment that starts at `start` has been followed up to `cur`. */
  function Rest(s: string, start: nat, cur: nat): List
    requires start <= cur <= |s| + 1
  {
    if cur > |s| then Nil
    else
      var k := CommaAt(s, cur);
      Cons(s[start..k], if k < |s| then Pieces(s, k + 1) else Nil)
  }

  lemma RestSteps(s: string, start: nat, cur: nat)
    requires start <= cur <= |s|
    ensures Rest(s, start, cur) == if cur == |s| || s[cur] == ',' then Cons(s[start..cur], Rest(s, cur + 1, cur + 1))
                                   else Rest(s, start, cur + 1)
  {
  }

  lemma TakeFirst(out: seq<int>, rest: List)
    requires rest.Cons?
    ensures out + Segment(rest.head) + Numbers(rest.tail) == out + Numbers(rest)
  {
    Assoc(out, Segment(rest.head), Numbers(rest.tail));
  }

  /** The scan with two cursors: `start` is where the current segment begins. */
  method SplitInts(s: string) returns (out: seq<int>)
    ensures out == Split(s)
  {
    out := [];
    var start, cur := 0, 0;
    ghost var rest := Rest(s, 0, 0);
    while cur <= |s|
      invariant 0 <= start <= cur <= |s| + 1
      invariant rest == Rest(s, start, cur)
      invariant out + Numbers(rest) == Split(s)
    {
      RestSteps(s, start, cur);
      if cur == |s| || s[cur] == ',' {
        TakeFirst(out, rest);
        out := PushSegment(out, s[start..cur]);
        rest := rest.tail;
        start := cur + 1;
      }
      cur := cur + 1;
    }
  }

  predicate NoComma(s: string) {
    forall k :: 0 <= k < |s| ==> s[k] != ','
  }

  lemma {:induction false} CommaAfter(h: string, tail: string, from: nat)
    requires NoComma(h) && from <= |h| && (tail == [] || tail[0] == ',')
    ensures CommaAt(h + tail, from) == |h|
    decreases |h| - from
  {
    if from < |h| {
      CommaAfter(h, tail, from + 1);
    }
  }

  lemma {:induction false} CommaShifts(p: string, t: string, from: nat)
    requires from <= |t|
    ensures CommaAt(p + t, |p| + from) == |p| + CommaAt(t, from)
    decreases |t| - from
  {
    if from < |t| {
      CommaShifts(p, t, from + 1);
    }
  }

  /** A text in front does not change what is found behind it. */
  lemma {:induction false} PiecesShift(p: string, t: string, from: nat)
    requires from <= |t|
    ensures Pieces(p + t, |p| + from) == Pieces(t, from)
    decreases |t| - from
  {
    CommaShifts(p, t, from);
    var k := CommaAt(t, from);
    assert (p + t)[|p| + from..|p| + k] == t[from..k];
    if k < |t| {
      PiecesShift(p, t, k + 1);
    }
  }

  lemma PrintHasNoComma(n: int)
    ensures Print(n) != [] && NoComma(Print(n))
  {
    DigitsAreDigits(if n < 0 then -n else n);
  }

  lemma SegmentOfPrint(n: int)
    requires INT32_MIN <= n <= INT32_MAX
    ensures Segment(Print(n)) == [n]
  {
    ParsePrinted(n, "", INT32_MIN, INT32_MAX);
    assert Print(n) + "" == Print(n);
  }

  lemma OnePiece(h: string)
    requires NoComma(h)
    ensures Pieces(h, 0) == Cons(h, Nil)
  {
    CommaAfter(h, "", 0);
    assert h + "" == h && h[0..|h|] == h;
  }

  lemma FirstPiece(h: string, t: string)
    requires NoComma(h)
    ensures Pieces(h + "," + t, 0) == Cons(h, Pieces(t, 0))
  {
    var s, p := h + "," + t, h + ",";
    assert s == h + ("," + t) && s[0..|h|] == h;
    CommaAfter(h, "," + t, 0);
    PiecesShift(p, t, 0);
  }

  /** A number too large or too small for 32 bits is left out, and so is a segment that begins with neither a digit nor
      a minus sign and a digit. */
  lemma LeftOutSegments(n: int, text: string)
    ensures n < -0x8000_0000 || n > 0x7FFF_FFFF ==> Segment(Print(n)) == []
    ensures text == [] || (!IsDigit(text[0]) && text[0] != '-') ==> Segment(text) == []
    ensures |text| >= 1 && text[0] == '-' && (|text| == 1 || !IsDigit(text[1])) ==> Segment(text) == []
  {
    var m := if n < 0 then -n else n;
    DigitsValue(m);
    AllDigitsLead(Digits(m), "");
    assert Digits(m) + "" == Digits(m) && Digits(m)[..|Digits(m)|] == Digits(m);
    if n < 0 {
      assert Print(n)[1..] == Digits(m);
    }
  }

  function CountCommas(s: string): nat {
    if s == [] then 0 else (if s[0] == ',' then 1 else 0) + CountCommas(s[1..])
  }

  lemma {:induction false} CommasAdd(a: string, b: string)
    ensures CountCommas(a + b) == CountCommas(a) + CountCommas(b)
  {
    if a == [] {
      assert a + b == b;
    } else {
      assert (a + b)[0] == a[0] && (a + b)[1..] == a[1..] + b;
      CommasAdd(a[1..], b);
    }
  }

  lemma {:induction false} NoCommasCount(s: string)
    requires NoComma(s)
    ensures CountCommas(s) == 0
  {
    if s != [] {
      NoCommasCount(s[1..]);
    }
  }

  /** The stored text: one comma between two numbers, and nothing else but digits and minus signs. */
  lemma {:induction false} JoinedText(v: seq<int>)
    ensures v != [] ==> CountCommas(JoinFrom(v)) == |v| - 1
    ensures forall k :: 0 <= k < |JoinFrom(v)| ==>
              IsDigit(JoinFrom(v)[k]) || JoinFrom(v)[k] == '-' || JoinFrom(v)[k] == ','
  {
    if v != [] {
      PrintHasNoComma(v[0]);
      NoCommasCount(Print(v[0]));
      DigitsAreDigits(if v[0] < 0 then -v[0] else v[0]);
      if |v| > 1 {
        JoinedText(v[1..]);
        CommasAdd(Print(v[0]) + ",", JoinFrom(v[1..]));
        CommasAdd(Print(v[0]), ",");
        assert CountCommas(",") == 1 + CountCommas("");
      }
    }
  }

  /** Numbers are written in decimal without leading zeros. */
  lemma {:induction false} DigitsCanonical(n: nat)
    ensures n == 0 ==> Digits(n) == "0"
    ensures n > 0 ==> Digits(n)[0] != '0' && IsDigit(Digits(n)[0])
  {
    if n >= 10 {
      DigitsCanonical(n / 10);
    }
  }

  predicate AllFit(v: seq<int>) {
    forall k :: 0 <= k < |v| ==> INT32_MIN <= v[k] <= INT32_MAX
  }

  lemma {:induction false} JoinedNumbers(v: seq<int>)
    requires v != [] && AllFit(v)
    ensures Split(JoinFrom(v)) == v
  {
    PrintHasNoComma(v[0]);
    SegmentOfPrint(v[0]);
    if |v| == 1 {
      OnePiece(Print(v[0]));
      assert Numbers(Cons(Print(v[0]), Nil)) == [v[0]] + [];
    } else {
      FirstPiece(Print(v[0]), JoinFrom(v[1..]));
      JoinedNumbers(v[1..]);
      assert v == [v[0]] + v[1..];
    }
  }

  /** Every list of 32-bit integers survives storage, negative numbers and the smallest one included. */
  lemma ListRoundTrip(v: seq<int>)
    requires AllFit(v)
    ensures Split(JoinFrom(v)) == v
  {
    if v == [] {
      OnePiece("");
    } else {
      JoinedNumbers(v);
    }
  }

  // ---------------------------------------------------------------- the range a player asks for

  datatype Range = Range(start: int, end: int)

  function DashAt(s: string): (k: nat)
    ensures k <= |s| && (k < |s| ==> s[k] == '-') && Without(s[..k], '-')
  {
    if s == [] || s[0] == '-' then 0 else 1 + DashAt(s[1..])
  }

  function ParseSpec(spec: string): Option<Range> {
    var dash := DashAt(spec);
    if dash == |spec| || dash == 0 then None
    else
      match Parse(spec[..dash], INT64_MIN, INT64_MAX)
      case None => None
      case Some(start) =>
        var last := spec[dash + 1..];
        if last == [] then Some(Range(start, -1))
        else
          match Parse(last, INT64_MIN, INT64_MAX)
          case None => None
          case Some(end) => Some(Range(start, end))
  }

  /** "bytes=start-end", or "bytes=start-" with end -1. */
  function ParseRange(value: string): Option<Range> {
    if |value| < 6 || value[..6] != "bytes=" then None else ParseSpec(value[6..])
  }

  /** The length of the file: the one the task knows, or else that of the file on disk; 0 when there is none. */
  function FileLength(total: int, onDisk: nat): nat {
    if total > 0 then total else onDisk
  }

  /** The range to serve: any negative end means to the end of the file, and is refused without a length; an empty range
      is refused. A range end beyond the file is kept as asked for. */
  function ResolveRange(r: Range, total: int, onDisk: nat): Option<Range> {
    if r.end < 0 && FileLength(total, onDisk) == 0 then None
    else
      var end := if r.end < 0 then FileLength(total, onDisk) - 1 else r.end;
      if r.start > end then None else Some(Range(r.start, end))
  }

  lemma {:induction false} DashAfterDigits(digits: string, rest: string)
    requires Without(digits, '-')
    ensures DashAt(digits + ("-" + rest)) == |digits|
  {
    if digits == [] {
      assert digits + ("-" + rest) == "-" + rest;
    } else {
      assert (digits + ("-" + rest))[1..] == digits[1..] + ("-" + rest);
      DashAfterDigits(digits[1..], rest);
    }
  }

  lemma SpecParts(digits: string, last: string)
    requires Without(digits, '-')
    ensures var spec := digits + ("-" + last);
            DashAt(spec) == |digits| < |spec| && spec[..|digits|] == digits && spec[|digits| + 1..] == last
  {
    DashAfterDigits(digits, last);
  }

  lemma PrintedAlone(n: int)
    requires INT64_MIN <= n <= INT64_MAX
    ensures Parse(Print(n), INT64_MIN, INT64_MAX) == Some(n)
  {
    ParsePrinted(n, "", INT64_MIN, INT64_MAX);
    assert Print(n) + "" == Print(n);
  }

  lemma PrefixStripped(spec: string)
    ensures ParseRange("bytes=" + spec) == ParseSpec(spec)
  {
    var value := "bytes=" + spec;
    assert value[..6] == "bytes=" && value[6..] == spec;
  }

  /** A well-formed header is understood: the start, and the end. */
  lemma RangeRoundTrip(start: nat, end: int)
    requires start <= INT64_MAX && INT64_MIN <= end <= INT64_MAX
    ensures ParseRange("bytes=" + (Print(start) + ("-" + Print(end)))) == Some(Range(start, end))
  {
    PrefixStripped(Print(start) + ("-" + Print(end)));
    DigitsAreDigits(start);
    SpecParts(Print(start), Print(end));
    PrintedAlone(start);
    PrintedAlone(end);
    PrintHasNoComma(end);
  }

  lemma OpenRangeRoundTrip(start: nat)
    requires start <= INT64_MAX
    ensures ParseRange("bytes=" + (Print(start) + ("-" + ""))) == Some(Range(start, -1))
  {
    PrefixStripped(Print(start) + ("-" + ""));
    DigitsAreDigits(start);
    SpecParts(Print(start), "");
    PrintedAlone(start);
    PrintHasNoComma(start);
  }

  /** What is served for a header: nothing when it is malformed or its range is empty. */
  function ServedRange(value: string, total: int, onDisk: nat): Option<Range> {
    match ParseRange(value)
    case None => None
    case Some(r) => ResolveRange(r, total, onDisk)
  }

  /** A negative end is understood, and means the same as no end: up to the last byte of the file, whose length is taken
      from the disk when the task does not know it. */
  lemma NegativeEndMeansOpen(start: nat, end: int, total: int, onDisk: nat)
    requires start <= INT64_MAX && INT64_MIN <= end < 0
    ensures var length := FileLength(total, onDisk);
            ServedRange("bytes=" + (Print(start) + ("-" + Print(end))), total, onDisk)
            == ServedRange("bytes=" + (Print(start) + ("-" + "")), total, onDisk)
            == if start < length then Some(Range(start, length - 1)) else None
  {
    RangeRoundTrip(start, end);
    OpenRangeRoundTrip(start);
    NegativeEndServed("bytes=" + (Print(start) + ("-" + Print(end))), start, end, total, onDisk);
    NegativeEndServed("bytes=" + (Print(start) + ("-" + "")), start, -1, total, onDisk);
  }

  /** A header with both ends is served as asked for, whatever the file's length, unless the range is empty. */
  lemma BothEndsServed(start: nat, end: nat, total: int, onDisk: nat)
    requires start <= INT64_MAX && end <= INT64_MAX
    ensures ServedRange("bytes=" + (Print(start) + ("-" + Print(end))), total, onDisk)
            == if start <= end then Some(Range(start, end)) else None
  {
    RangeRoundTrip(start, end);
    RangeServed("bytes=" + (Print(start) + ("-" + Print(end))), start, end, total, onDisk);
  }

  lemma RangeServed(value: string, start: nat, end: nat, total: int, onDisk: nat)
    requires ParseRange(value) == Some(Range(start, end))
    ensures ServedRange(value, total, onDisk) == if start <= end then Some(Range(start, end)) else None
  {
  }

  /** A header is refused when it does not begin with "bytes=", has no dash after that, or no start before it. */
  lemma MalformedRefused(value: string)
    requires |value| < 6 || value[..6] != "bytes=" || Without(value[6..], '-') || (|value| > 6 && value[6] == '-')
    ensures ParseRange(value).None?
  {
    if |value| >= 6 && value[..6] == "bytes=" && Without(value[6..], '-') {
      NoDash(value[6..]);
    }
  }

  lemma {:induction false} NoDash(s: string)
    requires Without(s, '-')
    ensures DashAt(s) == |s|
  {
    if s != [] {
      NoDash(s[1..]);
    }
  }

  lemma NegativeEndServed(value: string, start: nat, end: int, total: int, onDisk: nat)
    requires ParseRange(value) == Some(Range(start, end)) && end < 0
    ensures var length := FileLength(total, onDisk);
            ServedRange(value, total, onDisk)
            == if start < length then Some(Range(start, length - 1)) else None
  {
  }
}
