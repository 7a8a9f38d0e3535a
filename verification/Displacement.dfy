/**
  When one pass of the scheduler pauses a task it has itself admitted. Admission takes a task's force away, so a
  forced task that still waits may displace it; whether that can happen is decided by the table before the pass.
*/
module Displacement {
  import opened Scheduler

  predicate Forced(s: Setup, t: Task) { Eligible(s, t) && t.force }

  function ForcedIn(s: Setup): Task -> bool { t => Forced(s, t) }

  function ForcedCount(s: Setup, tasks: seq<Task>): nat { Count(ForcedIn(s), tasks) }

  function SlowerIn(s: Setup, rate: real): Task -> bool { t => Preemptible(s, t) && t.rate < rate }

  /** How many preemptible tasks run slower than `rate`. */
  function SlowerCount(s: Setup, tasks: seq<Task>, rate: real): nat { Count(SlowerIn(s, rate), tasks) }

  /** How many tasks must be paused before one can be dispatched; zero or less when slots are free. */
  function Excess(s: Setup, tasks: seq<Task>): int { Active(tasks) - s.slots + 1 }

  function Positive(x: int): nat { if x < 0 then 0 else x }

  /** The pass admits task `i` with move `j` and pauses it with move `k`. */
  predicate AdmitsAndPauses(moves: seq<Move>, i: nat, j: nat, k: nat) {
    j < k < |moves| && moves[j] == Dispatch(i, Accepted) && moves[k] == Preempt(i)
  }

  /** Task `i` waits with force, and so does `l`, which need not go before it. */
  predicate HasFollower(s: Setup, tasks: seq<Task>, i: nat, l: nat) {
    && i < |tasks| && l < |tasks| && i != l
    && Forced(s, tasks[i]) && Forced(s, tasks[l]) && !Before(tasks[l], tasks[i])
  }

  /** There are slots, enough tasks can be paused to make room, and more forced tasks wait than it takes to fill the
      slots that the tasks slower than `i` leave. */
  predicate CanBeDisplaced(s: Setup, tasks: seq<Task>, i: nat)
    requires i < |tasks|
  {
    && s.slots > 0 && PreemptibleCount(s, tasks) >= Excess(s, tasks)
    && (exists l :: 0 <= l < |tasks| && HasFollower(s, tasks, i, l))
    && ForcedCount(s, tasks) >= 2 + Positive(SlowerCount(s, tasks, tasks[i].rate) - Excess(s, tasks))
  }

  // ---------------------------------------------------------------- it takes this much

  lemma {:induction false} CountSome(kind: Task -> bool, tasks: seq<Task>, i: nat)
    requires i < |tasks| && kind(tasks[i])
    ensures Count(kind, tasks) >= 1
  {
    if i < |tasks| - 1 {
      CountSome(kind, tasks[..|tasks| - 1], i);
    }
  }

  lemma {:induction false} CountNone(kind: Task -> bool, tasks: seq<Task>)
    requires forall i :: 0 <= i < |tasks| ==> !kind(tasks[i])
    ensures Count(kind, tasks) == 0
  {
    if tasks != [] {
      CountNone(kind, tasks[..|tasks| - 1]);
    }
  }

  /** What one move does to the forced and to the slower tasks. */
  lemma MoveForced(s: Setup, tasks: seq<Task>, m: Move, rate: real)
    requires Legal(s, tasks, m)
    ensures ForcedCount(s, Apply(tasks, m))
            == ForcedCount(s, tasks) - (if m.Dispatch? && tasks[m.i].force then 1 else 0)
    ensures SlowerCount(s, Apply(tasks, m), rate)
            == SlowerCount(s, tasks, rate)
               + (if tasks[m.i].rate >= rate then 0
                  else if m.Preempt? then -1 else if m.answer == Accepted then 1 else 0)
  {
    var t := Apply(tasks, m)[m.i];
    CountAt(ForcedIn(s), tasks, m.i, t);
    CountAt(SlowerIn(s, rate), tasks, m.i, t);
  }

  /** What `x` pauses and `acc` admissions of forced tasks make of the counts at the start. */
  predicate Balanced(s: Setup, start: seq<Task>, now: seq<Task>, rate: real, x: int, acc: int) {
    && Active(now) == Active(start) - x + acc
    && PreemptibleCount(s, now) == PreemptibleCount(s, start) - x + acc
    && SlowerCount(s, now, rate) >= SlowerCount(s, start, rate) - x
    && ForcedCount(s, now) <= ForcedCount(s, start) - acc
  }

  lemma MoveBalances(s: Setup, tasks: seq<Task>, m: Move, now: seq<Task>, rate: real, x: int, acc: int)
    requires Legal(s, tasks, m) && (m.Dispatch? ==> tasks[m.i].force)
    requires Balanced(s, Apply(tasks, m), now, rate, x, acc)
    ensures Balanced(s, tasks, now, rate, x + (if m.Preempt? then 1 else 0),
                     acc + (if m.Dispatch? && m.answer == Accepted then 1 else 0))
  {
    MoveCounts(s, tasks, m);
    MoveForced(s, tasks, m, rate);
  }

  /** The moves before number `k`, while every dispatch is a forced one. */
  lemma {:induction false} BalanceAt(s: Setup, tasks: seq<Task>, moves: seq<Move>, k: nat, rate: real)
    requires LegalPass(s, tasks, moves) && k <= |moves|
    requires forall j :: 0 <= j < k && moves[j].Dispatch? ==> At(s, tasks, moves, j)[moves[j].i].force
    ensures Balanced(s, tasks, At(s, tasks, moves, k), rate, Preemptions(moves[..k]), Admissions(moves[..k]))
    decreases k
  {
    if k > 0 {
      var m, next, rest := moves[0], Apply(tasks, moves[0]), moves[1..];
      assert At(s, tasks, moves, 0) == tasks;
      forall j | 0 <= j < k - 1 && rest[j].Dispatch?
        ensures At(s, next, rest, j)[rest[j].i].force
      {
        assert rest[j] == moves[j + 1];
      }
      BalanceAt(s, next, rest, k - 1, rate);
      assert moves[..k][1..] == rest[..k - 1];
      MoveBalances(s, tasks, m, At(s, next, rest, k - 1), rate, Preemptions(rest[..k - 1]), Admissions(rest[..k - 1]));
    }
  }

  lemma {:induction false} AdmissionsSome(moves: seq<Move>, j: nat)
    requires j < |moves| && moves[j].Dispatch? && moves[j].answer == Accepted
    ensures Admissions(moves) >= 1
  {
    if j > 0 {
      AdmissionsSome(moves[1..], j - 1);
    }
  }

  /** Before a pause every dispatch is a forced one. */
  lemma ForcedBefore(s: Setup, tasks: seq<Task>, moves: seq<Move>, k: nat)
    requires LegalPass(s, tasks, moves) && k < |moves| && moves[k].Preempt?
    ensures forall j :: 0 <= j < k && moves[j].Dispatch? ==> At(s, tasks, moves, j)[moves[j].i].force
  {
    forall j | 0 <= j < k && moves[j].Dispatch?
      ensures At(s, tasks, moves, j)[moves[j].i].force
    {
      if !At(s, tasks, moves, j)[moves[j].i].force {
        NoPreemptionAfterUnforced(s, tasks, moves, j, k);
      }
    }
  }

  /** The task for which one is paused waits from the start, with force, and never goes before it. */
  lemma FollowerWaits(s: Setup, tasks: seq<Task>, moves: seq<Move>, i: nat, j: nat, k: nat) returns (l: nat)
    requires LegalPass(s, tasks, moves) && AdmitsAndPauses(moves, i, j, k)
    ensures HasFollower(s, tasks, i, l) && l < |tasks| && Forced(s, At(s, tasks, moves, k)[l])
  {
    var now := At(s, tasks, moves, k);
    assert Legal(s, now, moves[k]);
    l :| 0 <= l < |now| && IsNext(s, now, l) && now[l].force;
    WaitedAllAlong(s, tasks, moves, 0, k, l);
    WaitedAllAlong(s, tasks, moves, j, k, l);
    WaitedAllAlong(s, tasks, moves, 0, j, i);
    ForcedBefore(s, tasks, moves, k);
    assert Legal(s, At(s, tasks, moves, j), moves[j]);
  }

  /** Every task that a pass admits and pauses could be displaced by what the table held before the pass. */
  lemma DisplacedCouldBe(s: Setup, tasks: seq<Task>, moves: seq<Move>, i: nat, j: nat, k: nat)
    requires LegalPass(s, tasks, moves) && AdmitsAndPauses(moves, i, j, k)
    ensures i < |tasks| && CanBeDisplaced(s, tasks, i)
  {
    var l := FollowerWaits(s, tasks, moves, i, j, k);
    ForcedBefore(s, tasks, moves, k);
    var rate := tasks[i].rate;
    BalanceAt(s, tasks, moves, j, rate);
    BalanceAt(s, tasks, moves, k, rate);
    assert Legal(s, At(s, tasks, moves, j), moves[j]);
    RateKept(s, tasks, moves, i, j, k);
    CountNone(SlowerIn(s, rate), At(s, tasks, moves, k));
    CountSome(ForcedIn(s), At(s, tasks, moves, k), l);
    assert moves[..k][j] == moves[j];
    AdmissionsSome(moves[..k], j);
  }

  /** Nothing slower than the task runs when it is paused. */
  lemma RateKept(s: Setup, tasks: seq<Task>, moves: seq<Move>, i: nat, j: nat, k: nat)
    requires LegalPass(s, tasks, moves) && AdmitsAndPauses(moves, i, j, k) && i < |tasks|
    ensures forall q :: 0 <= q < |tasks| ==> !SlowerIn(s, tasks[i].rate)(At(s, tasks, moves, k)[q])
  {
    assert Legal(s, At(s, tasks, moves, k), moves[k]);
    assert Legal(s, At(s, tasks, moves, j), moves[j]);
    WaitedAllAlong(s, tasks, moves, 0, j, i);
    RateBelow(s, tasks, moves, i, k);
  }

  /** A task's rate is the one it had at the start, unless the pass has paused it. */
  lemma {:induction false} RateBelow(s: Setup, tasks: seq<Task>, moves: seq<Move>, i: nat, k: nat)
    requires LegalPass(s, tasks, moves) && k <= |moves| && i < |tasks|
    ensures At(s, tasks, moves, k)[i].rate == tasks[i].rate || At(s, tasks, moves, k)[i].status == Paused
    decreases k
  {
    if k > 0 {
      RateBelow(s, tasks, moves, i, k - 1);
      AtStep(s, tasks, moves, k - 1);
      MoveKeepsRate(s, At(s, tasks, moves, k - 1), moves[k - 1], i);
    }
  }

  lemma MoveKeepsRate(s: Setup, tasks: seq<Task>, m: Move, i: nat)
    requires Legal(s, tasks, m) && i < |tasks|
    ensures var r := Apply(tasks, m);
            r[i].status == Paused || (r[i].rate == tasks[i].rate && tasks[i].status != Paused)
  {
  }

  // ---------------------------------------------------------------- it takes no more

  lemma {:induction false} CountTwo(kind: Task -> bool, tasks: seq<Task>, i: nat, j: nat)
    requires i < j < |tasks| && kind(tasks[i]) && kind(tasks[j])
    ensures Count(kind, tasks) >= 2
  {
    var n := |tasks| - 1;
    if j < n {
      CountTwo(kind, tasks[..n], i, j);
    } else {
      CountSome(kind, tasks[..n], i);
    }
  }

  lemma {:induction false} FindOne(kind: Task -> bool, tasks: seq<Task>) returns (i: nat)
    requires Count(kind, tasks) >= 1
    ensures i < |tasks| && kind(tasks[i])
  {
    var n := |tasks| - 1;
    if kind(tasks[n]) {
      i := n;
    } else {
      i := FindOne(kind, tasks[..n]);
    }
  }

  lemma {:induction false} FindAnother(kind: Task -> bool, tasks: seq<Task>, l: nat) returns (i: nat)
    requires Count(kind, tasks) >= 2
    ensures i < |tasks| && kind(tasks[i]) && i != l
  {
    var n := |tasks| - 1;
    if kind(tasks[n]) && n != l {
      i := n;
    } else if kind(tasks[n]) {
      i := FindOne(kind, tasks[..n]);
    } else {
      i := FindAnother(kind, tasks[..n], l);
    }
  }

  /** Among the first `n` tasks, one that waits and that no other goes before, if any waits. */
  lemma {:induction false} FindNext(s: Setup, tasks: seq<Task>, n: nat, some: nat) returns (i: nat)
    requires some < n <= |tasks| && Eligible(s, tasks[some])
    ensures i < n && Eligible(s, tasks[i])
    ensures forall j :: 0 <= j < n && Eligible(s, tasks[j]) ==> !Before(tasks[j], tasks[i])
  {
    var last := n - 1;
    if exists e :: 0 <= e < last && Eligible(s, tasks[e]) {
      var e :| 0 <= e < last && Eligible(s, tasks[e]);
      i := FindNext(s, tasks, last, e);
      if Eligible(s, tasks[last]) && Before(tasks[last], tasks[i]) {
        i := last;
      }
    } else {
      i := last;
    }
  }

  /** Among the first `n` tasks, one that waits with force and goes before no other such. */
  lemma {:induction false} FindLatest(s: Setup, tasks: seq<Task>, n: nat, some: nat) returns (l: nat)
    requires some < n <= |tasks| && Forced(s, tasks[some])
    ensures l < n && Forced(s, tasks[l])
    ensures forall j :: 0 <= j < n && Forced(s, tasks[j]) ==> !Before(tasks[l], tasks[j])
  {
    var last := n - 1;
    if exists e :: 0 <= e < last && Forced(s, tasks[e]) {
      var e :| 0 <= e < last && Forced(s, tasks[e]);
      l := FindLatest(s, tasks, last, e);
      if Forced(s, tasks[last]) && Before(tasks[l], tasks[last]) {
        l := last;
      }
    } else {
      l := last;
    }
  }

  /** Among the first `n` tasks, the slowest of a kind. */
  lemma {:induction false} FindSlowest(kind: Task -> bool, tasks: seq<Task>, n: nat, some: nat) returns (i: nat)
    requires some < n <= |tasks| && kind(tasks[some])
    ensures i < n && kind(tasks[i])
    ensures forall j :: 0 <= j < n && kind(tasks[j]) ==> tasks[i].rate <= tasks[j].rate
  {
    var last := n - 1;
    if exists e :: 0 <= e < last && kind(tasks[e]) {
      var e :| 0 <= e < last && kind(tasks[e]);
      i := FindSlowest(kind, tasks, last, e);
      if kind(tasks[last]) && tasks[last].rate < tasks[i].rate {
        i := last;
      }
    } else {
      i := last;
    }
  }

  /** Task `l` waits with force and may be the last such to be dispatched; all the others are no slower than `i`. */
  predicate Arranged(s: Setup, tasks: seq<Task>, i: nat, l: nat) {
    && i < |tasks| && l < |tasks| && i != l && Forced(s, tasks[l]) && s.slots > 0
    && (forall x :: 0 <= x < |tasks| && Forced(s, tasks[x]) ==> !Before(tasks[l], tasks[x]))
    && (forall x :: 0 <= x < |tasks| && Forced(s, tasks[x]) && x != l ==> tasks[x].rate >= tasks[i].rate)
  }

  /** Task `i` waits, and can be admitted and then displaced. */
  predicate BeforeAdmission(s: Setup, tasks: seq<Task>, i: nat, l: nat) {
    && Arranged(s, tasks, i, l) && Forced(s, tasks[i]) && PreemptibleCount(s, tasks) >= Excess(s, tasks)
    && ForcedCount(s, tasks) >= 2 + Positive(SlowerCount(s, tasks, tasks[i].rate) - Excess(s, tasks))
  }

  /** Task `i` runs, and can still be displaced. */
  predicate AfterAdmission(s: Setup, tasks: seq<Task>, i: nat, l: nat) {
    && Arranged(s, tasks, i, l) && Preemptible(s, tasks[i]) && Excess(s, tasks) <= 1
    && ForcedCount(s, tasks) >= 2 + SlowerCount(s, tasks, tasks[i].rate) - Excess(s, tasks)
  }

  /** Some forced task is next, and it is not `l` as long as another waits. */
  lemma NextForced(s: Setup, tasks: seq<Task>, i: nat, l: nat) returns (n: nat)
    requires Arranged(s, tasks, i, l)
    ensures IsNext(s, tasks, n) && tasks[n].force && (ForcedCount(s, tasks) >= 2 ==> n != l)
  {
    n := FindNext(s, tasks, |tasks|, l);
    if n == l && ForcedCount(s, tasks) >= 2 {
      n := FindAnother(ForcedIn(s), tasks, l);
    }
  }

  /** A legal pause of a task that is not `i`: as many slots to free and as many slower tasks fewer. */
  lemma PauseKeeps(s: Setup, tasks: seq<Task>, i: nat, l: nat, v: nat)
    requires Arranged(s, tasks, i, l) && Legal(s, tasks, Preempt(v)) && v != i
    ensures var r := Apply(tasks, Preempt(v));
            && Arranged(s, r, i, l) && r[i] == tasks[i] && Excess(s, r) == Excess(s, tasks) - 1
            && PreemptibleCount(s, r) == PreemptibleCount(s, tasks) - 1
            && ForcedCount(s, r) == ForcedCount(s, tasks)
            && SlowerCount(s, r, r[i].rate) == Positive(SlowerCount(s, tasks, tasks[i].rate) - 1)
  {
    MoveCounts(s, tasks, Preempt(v));
    MoveForced(s, tasks, Preempt(v), tasks[i].rate);
    if SlowerCount(s, tasks, tasks[i].rate) > 0 {
      var u := FindOne(SlowerIn(s, tasks[i].rate), tasks);
    }
  }

  /** The admission of a forced task that is not the last: one slot more is taken, one forced task fewer waits. */
  lemma AdmissionKeeps(s: Setup, tasks: seq<Task>, i: nat, l: nat, n: nat)
    requires Arranged(s, tasks, i, l) && IsNext(s, tasks, n) && tasks[n].force && n != l && Active(tasks) < s.slots
    ensures var m := Dispatch(n, Accepted);
            var r := Apply(tasks, m);
            && Legal(s, tasks, m) && Arranged(s, r, i, l) && r[i].rate == tasks[i].rate
            && Excess(s, r) == Excess(s, tasks) + 1
            && PreemptibleCount(s, r) == PreemptibleCount(s, tasks) + 1
            && ForcedCount(s, r) == ForcedCount(s, tasks) - 1
            && SlowerCount(s, r, r[i].rate) == SlowerCount(s, tasks, tasks[i].rate)
            && Preemptible(s, r[n]) && (n != i ==> r[i] == tasks[i])
  {
    var m := Dispatch(n, Accepted);
    assert Legal(s, tasks, m);
    MoveCounts(s, tasks, m);
    MoveForced(s, tasks, m, tasks[i].rate);
  }

  /** From where `i` runs: fill the slots, pause what is slower, and at last `i` itself. */
  lemma {:induction false} Displace(s: Setup, tasks: seq<Task>, i: nat, l: nat) returns (moves: seq<Move>)
    requires AfterAdmission(s, tasks, i, l)
    ensures LegalPass(s, tasks, moves) && moves != [] && moves[|moves| - 1] == Preempt(i)
    decreases ForcedCount(s, tasks), PreemptibleCount(s, tasks)
  {
    CountSome(ForcedIn(s), tasks, l);
    var n := NextForced(s, tasks, i, l);
    var m := Dispatch(n, Accepted);
    moves := [];
    if Excess(s, tasks) <= 0 {
      AdmissionKeeps(s, tasks, i, l, n);
      moves := Displace(s, Apply(tasks, m), i, l);
    } else if SlowerCount(s, tasks, tasks[i].rate) == 0 {
      SlowestIfNoneSlower(s, tasks, i);
      m := Preempt(i);
    } else {
      var v := FindSlowest(PreemptibleIn(s), tasks, |tasks|, i);
      m := Preempt(v);
      var u := FindOne(SlowerIn(s, tasks[i].rate), tasks);
      PauseKeeps(s, tasks, i, l, v);
      moves := Displace(s, Apply(tasks, m), i, l);
    }
    PassPrepend(s, tasks, m, moves);
    moves := [m] + moves;
  }

  lemma SlowestIfNoneSlower(s: Setup, tasks: seq<Task>, i: nat)
    requires i < |tasks| && Preemptible(s, tasks[i]) && SlowerCount(s, tasks, tasks[i].rate) == 0
    ensures IsSlowest(s, tasks, i)
  {
    forall j | 0 <= j < |tasks| && Preemptible(s, tasks[j])
      ensures tasks[i].rate <= tasks[j].rate
    {
      if tasks[j].rate < tasks[i].rate {
        CountSome(SlowerIn(s, tasks[i].rate), tasks, j);
      }
    }
  }

  /** Each kind of move on the way to the admission of `i` leaves enough for the rest of the way. */
  lemma PauseBefore(s: Setup, tasks: seq<Task>, i: nat, l: nat, v: nat)
    requires BeforeAdmission(s, tasks, i, l) && Excess(s, tasks) > 0 && IsSlowest(s, tasks, v)
    ensures Legal(s, tasks, Preempt(v)) && BeforeAdmission(s, Apply(tasks, Preempt(v)), i, l)
    ensures ForcedCount(s, Apply(tasks, Preempt(v))) == ForcedCount(s, tasks)
    ensures PreemptibleCount(s, Apply(tasks, Preempt(v))) < PreemptibleCount(s, tasks)
  {
    var n := NextForced(s, tasks, i, l);
    PauseKeeps(s, tasks, i, l, v);
  }

  lemma OtherBefore(s: Setup, tasks: seq<Task>, i: nat, l: nat, n: nat)
    requires BeforeAdmission(s, tasks, i, l) && Excess(s, tasks) <= 0
    requires IsNext(s, tasks, n) && tasks[n].force && n != l && n != i
    ensures Legal(s, tasks, Dispatch(n, Accepted)) && BeforeAdmission(s, Apply(tasks, Dispatch(n, Accepted)), i, l)
    ensures ForcedCount(s, Apply(tasks, Dispatch(n, Accepted))) < ForcedCount(s, tasks)
  {
    AdmissionKeeps(s, tasks, i, l, n);
    CountTwo(ForcedIn(s), Apply(tasks, Dispatch(n, Accepted)), if i < l then i else l, if i < l then l else i);
  }

  lemma SelfBefore(s: Setup, tasks: seq<Task>, i: nat, l: nat)
    requires BeforeAdmission(s, tasks, i, l) && Excess(s, tasks) <= 0 && IsNext(s, tasks, i)
    ensures Legal(s, tasks, Dispatch(i, Accepted)) && AfterAdmission(s, Apply(tasks, Dispatch(i, Accepted)), i, l)
  {
    AdmissionKeeps(s, tasks, i, l, i);
  }

  /** The next move: make room, admit a forced task, or admit `i`. */
  lemma NextMove(s: Setup, tasks: seq<Task>, i: nat, l: nat) returns (m: Move)
    requires BeforeAdmission(s, tasks, i, l)
    ensures Legal(s, tasks, m)
    ensures if m == Dispatch(i, Accepted) then AfterAdmission(s, Apply(tasks, m), i, l)
            else BeforeAdmission(s, Apply(tasks, m), i, l) && Closer(s, tasks, Apply(tasks, m))
  {
    if Excess(s, tasks) > 0 {
      var some := FindOne(PreemptibleIn(s), tasks);
      var v := FindSlowest(PreemptibleIn(s), tasks, |tasks|, some);
      m := Preempt(v);
      PauseBefore(s, tasks, i, l, v);
    } else {
      var n := NextForced(s, tasks, i, l);
      m := Dispatch(n, Accepted);
      if n == i {
        SelfBefore(s, tasks, i, l);
      } else {
        OtherBefore(s, tasks, i, l, n);
      }
    }
  }

  /** Fewer forced tasks wait, or as many and fewer tasks can be paused. */
  predicate Closer(s: Setup, tasks: seq<Task>, r: seq<Task>) {
    || ForcedCount(s, r) < ForcedCount(s, tasks)
    || (ForcedCount(s, r) == ForcedCount(s, tasks) && PreemptibleCount(s, r) < PreemptibleCount(s, tasks))
  }

  /** From the start: make room, admit forced tasks in their order until `i` is one of them, then displace it. */
  lemma {:induction false} AdmitAndDisplace(s: Setup, tasks: seq<Task>, i: nat, l: nat)
    returns (moves: seq<Move>, j: nat)
    requires BeforeAdmission(s, tasks, i, l)
    ensures LegalPass(s, tasks, moves) && moves != [] && AdmitsAndPauses(moves, i, j, |moves| - 1)
    decreases ForcedCount(s, tasks), PreemptibleCount(s, tasks)
  {
    var m := NextMove(s, tasks, i, l);
    if m == Dispatch(i, Accepted) {
      moves := Displace(s, Apply(tasks, m), i, l);
      PassPrepend(s, tasks, m, moves);
      moves, j := [m] + moves, 0;
    } else {
      moves, j := AdmitAndDisplace(s, Apply(tasks, m), i, l);
      LeadIn(s, tasks, m, moves, i, j);
      moves, j := [m] + moves, j + 1;
    }
  }

  lemma LeadIn(s: Setup, tasks: seq<Task>, m: Move, moves: seq<Move>, i: nat, j: nat)
    requires Legal(s, tasks, m) && LegalPass(s, Apply(tasks, m), moves)
    requires moves != [] && AdmitsAndPauses(moves, i, j, |moves| - 1)
    ensures LegalPass(s, tasks, [m] + moves) && AdmitsAndPauses([m] + moves, i, j + 1, |[m] + moves| - 1)
  {
    PassPrepend(s, tasks, m, moves);
  }

  lemma {:induction false} FewerSlower(s: Setup, tasks: seq<Task>, rate: real, other: real)
    requires rate <= other
    ensures SlowerCount(s, tasks, rate) <= SlowerCount(s, tasks, other)
  {
    if tasks != [] {
      FewerSlower(s, tasks[..|tasks| - 1], rate, other);
    }
  }

  /** If one task can be displaced, the slowest of those that have a follower can be arranged to be. */
  lemma Arrange(s: Setup, tasks: seq<Task>, a: nat) returns (i: nat, l: nat)
    requires a < |tasks| && CanBeDisplaced(s, tasks, a)
    ensures BeforeAdmission(s, tasks, i, l)
  {
    var f :| 0 <= f < |tasks| && HasFollower(s, tasks, a, f);
    l := FindLatest(s, tasks, |tasks|, a);
    if l == a {
      l := f;
    }
    i := SlowestBut(s, tasks, a, l, |tasks|);
    FewerSlower(s, tasks, tasks[i].rate, tasks[a].rate);
  }

  lemma {:induction false} SlowestBut(s: Setup, tasks: seq<Task>, a: nat, l: nat, n: nat) returns (i: nat)
    requires n <= |tasks| && a < |tasks| && Forced(s, tasks[a]) && a != l
    ensures i < |tasks| && Forced(s, tasks[i]) && i != l && tasks[i].rate <= tasks[a].rate
    ensures forall x :: 0 <= x < n && Forced(s, tasks[x]) && x != l ==> tasks[i].rate <= tasks[x].rate
  {
    if n == 0 {
      i := a;
    } else {
      i := SlowestBut(s, tasks, a, l, n - 1);
      if Forced(s, tasks[n - 1]) && n - 1 != l && tasks[n - 1].rate < tasks[i].rate {
        i := n - 1;
      }
    }
  }

  // ---------------------------------------------------------------- exactly

  /** Some legal pass admits a task and pauses it again. */
  predicate Displaces(s: Setup, tasks: seq<Task>, moves: seq<Move>) {
    && LegalPass(s, tasks, moves)
    && exists j, k :: 0 <= j < k < |moves| && AdmitsAndPauses(moves, moves[j].i, j, k)
  }

  /** A pass can pause a task it has admitted if and only if the table before the pass says so. */
  lemma DisplacesExactly(s: Setup, tasks: seq<Task>)
    ensures (exists moves :: Displaces(s, tasks, moves))
            <==> exists i :: 0 <= i < |tasks| && CanBeDisplaced(s, tasks, i)
  {
    forall moves: seq<Move> | Displaces(s, tasks, moves)
      ensures exists i :: 0 <= i < |tasks| && CanBeDisplaced(s, tasks, i)
    {
      var j, k :| 0 <= j < k < |moves| && AdmitsAndPauses(moves, moves[j].i, j, k);
      DisplacedCouldBe(s, tasks, moves, moves[j].i, j, k);
    }
    if i :| 0 <= i < |tasks| && CanBeDisplaced(s, tasks, i) {
      var a, l := Arrange(s, tasks, i);
      var moves, j := AdmitAndDisplace(s, tasks, a, l);
      assert AdmitsAndPauses(moves, moves[j].i, j, |moves| - 1);
      assert Displaces(s, tasks, moves);
    }
  }

  /** With at most one forced task waiting, a pass never pauses what it has admitted. */
  lemma OneForcedIsSafe(s: Setup, tasks: seq<Task>, moves: seq<Move>)
    requires ForcedCount(s, tasks) <= 1
    ensures !Displaces(s, tasks, moves)
  {
    if Displaces(s, tasks, moves) {
      var j, k :| 0 <= j < k < |moves| && AdmitsAndPauses(moves, moves[j].i, j, k);
      DisplacedCouldBe(s, tasks, moves, moves[j].i, j, k);
    }
  }
}
