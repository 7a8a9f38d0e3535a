/** Sharing the global download limit: every connection gets the same share of its task's share. */
module RateLimit {
  import opened Arithmetic

  /** The cap of one connection of a task with `connections` parts, while `tasks` tasks download. */
  function Cap(limit: nat, tasks: nat, connections: nat): nat
    requires tasks >= 1 && connections >= 1
  {
    MulMonotone(1, tasks, connections);
    var share := limit / (tasks * connections);
    if share < 1 then 1 else share
  }

  /** The cap is never zero, and one byte more on each connection of each such task would be beyond the limit. */
  lemma CapIsLargest(limit: nat, tasks: nat, connections: nat)
    requires tasks >= 1 && connections >= 1
    ensures Cap(limit, tasks, connections) >= 1
    ensures (Cap(limit, tasks, connections) + 1) * (tasks * connections) > limit
  {
    MulMonotone(1, tasks, connections);
    var d := tasks * connections;
    QuotientAndNext(limit, d);
    MulMonotone(limit / d + 1, Cap(limit, tasks, connections) + 1, d);
  }

  lemma QuotientAndNext(x: nat, d: nat)
    requires d >= 1
    ensures (x / d + 1) * d > x
  {
  }

  predicate Ok(parts: seq<nat>) {
    forall i :: 0 <= i < |parts| ==> parts[i] >= 1
  }

  function Connections(parts: seq<nat>): nat {
    if parts == [] then 0 else Connections(parts[1..]) + parts[0]
  }

  /** All caps together, for the tasks listed by their number of connections. */
  function Total(limit: nat, tasks: nat, parts: seq<nat>): nat
    requires tasks >= 1 && Ok(parts)
  {
    if parts == [] then 0 else Total(limit, tasks, parts[1..]) + parts[0] * Cap(limit, tasks, parts[0])
  }

  predicate AllQuotientsPositive(limit: nat, tasks: nat, parts: seq<nat>) {
    forall i :: 0 <= i < |parts| ==> tasks * parts[i] <= limit
  }

  /** The connections of one task stay within the share of the task, but for the minimum of one byte each. */
  lemma TaskShare(limit: nat, tasks: nat, p: nat)
    requires tasks >= 1 && p >= 1
    ensures p * Cap(limit, tasks, p) <= limit / tasks + p
    ensures tasks * p <= limit ==> p * Cap(limit, tasks, p) <= limit / tasks
  {
    MulMonotone(1, tasks, p);
    var d := tasks * p;
    var q := limit / d;
    QuotientFits(limit, d);
    Rearranged(q, tasks, p);
    DivisionMonotone((p * q) * tasks, limit, tasks);
    QuotientAndRest(p * q, 0, tasks);
    if d <= limit {
      QuotientPositive(limit, d);
    }
  }

  lemma QuotientFits(x: nat, d: nat)
    requires d >= 1
    ensures x / d * d <= x
  {
  }

  lemma QuotientPositive(x: nat, d: nat)
    requires 1 <= d <= x
    ensures x / d >= 1
  {
    DivisionMonotone(d, x, d);
    QuotientAndRest(1, 0, d);
  }

  lemma Rearranged(q: int, t: int, p: int)
    ensures q * (t * p) == (p * q) * t
  {
    assert q * (t * p) == q * (p * t);
  }

  lemma {:induction false} SumOfShares(limit: nat, tasks: nat, parts: seq<nat>, share: nat)
    requires tasks >= 1 && Ok(parts) && share == limit / tasks
    ensures Total(limit, tasks, parts) <= |parts| * share + Connections(parts)
    ensures AllQuotientsPositive(limit, tasks, parts) ==> Total(limit, tasks, parts) <= |parts| * share
  {
    if parts != [] {
      TaskShare(limit, tasks, parts[0]);
      SumOfShares(limit, tasks, parts[1..], share);
      OneMore(|parts[1..]|, share);
    }
  }

  lemma OneMore(n: nat, share: nat)
    ensures (n + 1) * share == n * share + share
  {
  }

  lemma SharesFit(limit: nat, tasks: nat)
    requires tasks >= 1
    ensures tasks * (limit / tasks) <= limit
  {
  }

  /** With exact counts the caps of all connections stay within the limit, up to one byte per connection, and within
      the limit itself when no share was rounded up. */
  lemma CapsWithinLimit(limit: nat, parts: seq<nat>)
    requires parts != [] && Ok(parts)
    ensures Total(limit, |parts|, parts) <= limit + Connections(parts)
    ensures AllQuotientsPositive(limit, |parts|, parts) ==> Total(limit, |parts|, parts) <= limit
  {
    SumOfShares(limit, |parts|, parts, limit / |parts|);
    SharesFit(limit, |parts|);
  }
}
