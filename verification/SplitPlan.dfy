/**
  How the first 206 answer cuts a file of known length into parts: the byte interval of each part, and the
  proof that the intervals are an exact partition that fits the capacity reserved when the task was created.
*/
module SplitPlan {
  datatype Config = Config(maxRetries: nat, defaultParts: int, minSizeForSplit: int)

  /** What the configuration looks like once the engine has replaced unusable values by its defaults. */
  ghost predicate ValidConfig(cfg: Config) {
    cfg.defaultParts >= 1 && cfg.minSizeForSplit >= 1
  }

  /** The probe request asks for this many bytes. */
  const PROBE_WINDOW := 1024 * 1024

  /** Both ends are included; an interval with `end < start` has no known length. */
  datatype Interval = Interval(start: int, end: int) {
    function Size(): int {
      if end >= start then end - start + 1 else 0
    }

    predicate Contains(b: int) {
      start <= b <= end
    }
  }

  function Max(a: int, b: int): int { if a >= b then a else b }

  function Min(a: int, b: int): int { if a <= b then a else b }

  /** The size of part 0 before the plan falls back to fewer parts. */
  function FirstPartSize(total: int, want: int): int
    requires want >= 1
  {
    if want > 1 then Max(total / want, Min(PROBE_WINDOW, total)) else total
  }

  function WantedParts(cfg: Config, total: int): (want: int)
    ensures want >= 1
  {
    if total >= cfg.minSizeForSplit && cfg.defaultParts > 1 then cfg.defaultParts else 1
  }

  /** The number of parts that are really cut. */
  function PlannedParts(cfg: Config, total: int): (count: int)
    ensures count >= 1
  {
    var want := WantedParts(cfg, total);
    var rest := total - FirstPartSize(total, want);
    if want > 1 && rest <= 0 then 1
    else if want > 1 && rest < want - 1 then 2
    else want
  }

  function PlannedFirstSize(cfg: Config, total: int): int {
    if PlannedParts(cfg, total) == 1 then total else FirstPartSize(total, WantedParts(cfg, total))
  }

  function PlannedChunk(cfg: Config, total: int): int {
    var count := PlannedParts(cfg, total);
    if count > 1 then (total - PlannedFirstSize(cfg, total)) / (count - 1) else 0
  }

  /** The interval of part `i`; the last part takes the remainder of the division. */
  function PlannedInterval(cfg: Config, total: int, i: nat): Interval {
    var first, chunk := PlannedFirstSize(cfg, total), PlannedChunk(cfg, total);
    if i == 0 then Interval(0, if total > 0 then first - 1 else -1)
    else
      var start := first + chunk * (i - 1);
      Interval(start, if i == PlannedParts(cfg, total) - 1 then total - 1 else start + chunk - 1)
  }

  function Plan(cfg: Config, total: int): (plan: seq<Interval>)
    ensures |plan| == PlannedParts(cfg, total)
  {
    seq(PlannedParts(cfg, total), i requires 0 <= i => PlannedInterval(cfg, total, i))
  }

  /** Non-empty intervals that follow each other without gap or overlap from byte 0 to byte `total - 1`. */
  ghost predicate IsPartition(plan: seq<Interval>, total: int) {
    && |plan| >= 1
    && plan[0].start == 0
    && plan[|plan| - 1].end == total - 1
    && (forall i :: 0 <= i < |plan| ==> plan[i].start <= plan[i].end)
    && (forall i :: 0 <= i < |plan| - 1 ==> plan[i + 1].start == plan[i].end + 1)
  }

  lemma RestIsShared(rest: int, others: int)
    requires others >= 1 && rest >= others
    ensures rest / others >= 1
    ensures (rest / others) * (others - 1) < rest
  {
    var q := rest / others;
    assert q * others <= rest;
    assert q * (others - 1) == q * others - q;
  }

  /** The size the 206 branch computes leaves room for every other part. */
  lemma FirstPartFits(cfg: Config, total: int)
    requires ValidConfig(cfg) && total > 0
    ensures 1 <= PlannedFirstSize(cfg, total) <= total
    ensures PlannedFirstSize(cfg, total) >= Min(PROBE_WINDOW, total)
    ensures PlannedParts(cfg, total) > 1 ==>
              total - PlannedFirstSize(cfg, total) >= PlannedParts(cfg, total) - 1
  {
    var want := WantedParts(cfg, total);
    if want > 1 {
      assert total / want <= total;
    }
  }

  /** For every total and configuration the cut is an exact partition, part 0 holds the whole probe window,
      and the parts fit the capacity reserved before the probe, so growing the part list never moves it. */
  lemma PlanIsPartition(cfg: Config, total: int)
    requires ValidConfig(cfg) && total > 0
    ensures IsPartition(Plan(cfg, total), total)
    ensures Plan(cfg, total)[0].Size() >= Min(PROBE_WINDOW, total)
    ensures |Plan(cfg, total)| <= Max(cfg.defaultParts, 1)
  {
    FirstPartFits(cfg, total);
    var plan, count := Plan(cfg, total), PlannedParts(cfg, total);
    var first, chunk := PlannedFirstSize(cfg, total), PlannedChunk(cfg, total);
    if count > 1 {
      RestIsShared(total - first, count - 1);
      forall i | 1 <= i < count
        ensures plan[i].start <= plan[i].end
      {
        if i == count - 1 {
          assert chunk * (count - 2) < total - first;
        }
      }
      forall i | 0 <= i < count - 1
        ensures plan[i + 1].start == plan[i].end + 1
      {
        assert chunk * i == chunk * (i - 1) + chunk;
      }
    }
  }

  /** The shape of the cut, with a window of one mebibyte. It has one part when the file is small, splitting is off, or
      the first part is all of it; two when the rest is too short to share; and else as many as configured. Part 0
      takes an even share or the window, whichever is more; the others are equally long, but for the last, which takes
      what the division leaves. */
  lemma PlanShape(cfg: Config, total: int)
    requires ValidConfig(cfg) && total > 0
    ensures var plan, want := Plan(cfg, total), cfg.defaultParts;
            var window := Min(1048576, total);
            var first := if want > 1 then Max(total / want, window) else total;
            if total < cfg.minSizeForSplit || want <= 1 || first >= total then plan == [Interval(0, total - 1)]
            else
              && |plan| == (if total - first < want - 1 then 2 else want)
              && plan[0] == Interval(0, first - 1)
              && (forall i :: 1 <= i < |plan| - 1 ==> plan[i].Size() == (total - first) / (|plan| - 1))
              && 0 <= plan[|plan| - 1].Size() - (total - first) / (|plan| - 1) < |plan| - 1
  {
    FirstPartFits(cfg, total);
    var plan, count := Plan(cfg, total), PlannedParts(cfg, total);
    if count > 1 {
      LaterParts(cfg, total);
    } else {
      assert plan == [plan[0]];
    }
  }

  /** The parts after the first: equally long, and the last takes the remainder. */
  lemma LaterParts(cfg: Config, total: int)
    requires ValidConfig(cfg) && total > 0 && PlannedParts(cfg, total) > 1
    ensures var plan, count, first := Plan(cfg, total), PlannedParts(cfg, total), PlannedFirstSize(cfg, total);
            && (forall i :: 1 <= i < count - 1 ==> plan[i].Size() == (total - first) / (count - 1))
            && 0 <= plan[count - 1].Size() - (total - first) / (count - 1) < count - 1
  {
    FirstPartFits(cfg, total);
    var count := PlannedParts(cfg, total);
    var rest, others := total - PlannedFirstSize(cfg, total), count - 1;
    RestIsShared(rest, others);
    Remainder(rest, others);
  }

  lemma Remainder(rest: int, others: int)
    requires others >= 1 && rest >= 0
    ensures 0 <= rest - (rest / others) * (others - 1) - rest / others < others
  {
    assert rest == (rest / others) * others + rest % others;
    assert (rest / others) * (others - 1) == (rest / others) * others - rest / others;
  }

  /** In a partition, an earlier part ends before a later one starts. */
  lemma {:induction false} PartitionOrder(plan: seq<Interval>, total: int, i: nat, j: nat)
    requires IsPartition(plan, total) && i < j < |plan|
    ensures plan[i].end < plan[j].start
    decreases j
  {
    if i + 1 < j {
      PartitionOrder(plan, total, i, j - 1);
      assert plan[j - 1 + 1].start == plan[j - 1].end + 1;
    }
  }

  lemma {:induction false} PartitionFinds(plan: seq<Interval>, total: int, b: int, n: nat) returns (i: nat)
    requires IsPartition(plan, total) && n < |plan| && 0 <= b <= plan[n].end
    ensures i <= n && plan[i].Contains(b)
    decreases n
  {
    if plan[n].start <= b {
      i := n;
    } else {
      assert plan[n - 1 + 1].start == plan[n - 1].end + 1;
      i := PartitionFinds(plan, total, b, n - 1);
    }
  }

  /** Every byte of the file belongs to exactly one part, and parts hold no other byte. */
  lemma PartitionIsExact(plan: seq<Interval>, total: int, b: int)
    requires IsPartition(plan, total)
    ensures 0 <= b < total <==> exists i :: 0 <= i < |plan| && plan[i].Contains(b)
    ensures forall i, j :: 0 <= i < j < |plan| ==> !(plan[i].Contains(b) && plan[j].Contains(b))
  {
    forall i, j | 0 <= i < j < |plan|
      ensures plan[i].end < plan[j].start
    {
      PartitionOrder(plan, total, i, j);
    }
    if 0 <= b < total {
      var i := PartitionFinds(plan, total, b, |plan| - 1);
    }
    forall i | 0 <= i < |plan| && plan[i].Contains(b)
      ensures 0 <= b < total
    {
      if i > 0 { assert plan[0].end < plan[i].start; }
      if i < |plan| - 1 { assert plan[i].end < plan[|plan| - 1].start; }
    }
  }
}
