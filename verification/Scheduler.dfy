/**
  One admission pass of the scheduler over the task table: forced tasks first, then priority, then age; a limit on
  running tasks; and, for a forced task, preemption of the slowest running one. The engines may accept a task,
  fail it for good, or ask to be left alone.
*/
module Scheduler {
  import opened Wrappers

  datatype Protocol = Local | Http | Torrent

  datatype Status = Downloading | Paused | Completed | Error | Queued | Resolving | Other

  datatype Answer = Accepted | Refused | Broken

  datatype Task = Task(id: string, protocol: Protocol, status: Status, isDelete: bool, force: bool, priority: int,
                       createdAt: int, rate: real, dirty: bool)

  /** Which engines are there, and how many tasks may run. */
  datatype Setup = Setup(http: bool, torrent: bool, slots: int) {
    predicate HasEngine(t: Task) {
      (t.protocol == Http && http) || (t.protocol == Torrent && torrent)
    }
  }

  predicate IsDownload(t: Task) { t.protocol == Http || t.protocol == Torrent }

  predicate Occupies(t: Task) {
    !t.isDelete && IsDownload(t) && (t.status == Downloading || t.status == Resolving)
  }

  predicate Eligible(s: Setup, t: Task) {
    !t.isDelete && t.status == Queued && IsDownload(t) && s.HasEngine(t)
  }

  predicate Preemptible(s: Setup, t: Task) {
    !t.isDelete && t.status == Downloading && IsDownload(t) && s.HasEngine(t)
  }

  /** `a` goes strictly before `b`. */
  predicate Before(a: Task, b: Task) {
    || (a.force && !b.force)
    || (a.force == b.force && a.priority > b.priority)
    || (a.force == b.force && a.priority == b.priority && a.createdAt < b.createdAt)
  }

  /** The order of the queue, of the fields: what was taken first has force if the other has, then no lower priority,
      then is no younger. */
  predicate InOrder(first: Task, other: Task) {
    && (other.force ==> first.force)
    && (first.force == other.force ==> first.priority >= other.priority)
    && (first.force == other.force && first.priority == other.priority ==> first.createdAt <= other.createdAt)
  }

  /** How many tasks are of a kind. */
  function Count(kind: Task -> bool, tasks: seq<Task>): nat {
    if tasks == [] then 0
    else Count(kind, tasks[..|tasks| - 1]) + (if kind(tasks[|tasks| - 1]) then 1 else 0)
  }

  function EligibleIn(s: Setup): Task -> bool { t => Eligible(s, t) }

  function PreemptibleIn(s: Setup): Task -> bool { t => Preemptible(s, t) }

  function Active(tasks: seq<Task>): nat { Count(Occupies, tasks) }

  function EligibleCount(s: Setup, tasks: seq<Task>): nat { Count(EligibleIn(s), tasks) }

  function PreemptibleCount(s: Setup, tasks: seq<Task>): nat { Count(PreemptibleIn(s), tasks) }

  /** Task `i` waits, and no waiting task goes before it. */
  predicate IsNext(s: Setup, tasks: seq<Task>, i: nat) {
    && i < |tasks| && Eligible(s, tasks[i])
    && forall j :: 0 <= j < |tasks| && Eligible(s, tasks[j]) ==> !Before(tasks[j], tasks[i])
  }

  predicate IsSlowest(s: Setup, tasks: seq<Task>, i: nat) {
    && i < |tasks| && Preemptible(s, tasks[i])
    && forall j :: 0 <= j < |tasks| && Preemptible(s, tasks[j]) ==> tasks[i].rate <= tasks[j].rate
  }

  // ---------------------------------------------------------------- the moves of a pass

  datatype Move = Preempt(i: nat) | Dispatch(i: nat, answer: Answer)

  predicate Legal(s: Setup, tasks: seq<Task>, m: Move) {
    match m
    case Dispatch(i, answer) => IsNext(s, tasks, i) && Active(tasks) < s.slots && answer != Refused
    case Preempt(i) =>
      && IsSlowest(s, tasks, i) && Active(tasks) >= s.slots
      && exists n :: 0 <= n < |tasks| && IsNext(s, tasks, n) && tasks[n].force
  }

  function Dispatched(t: Task, answer: Answer): Task {
    t.(force := false, status := if answer == Accepted then Downloading else Error, dirty := true)
  }

  function Preempted(t: Task): Task {
    t.(status := Paused, rate := 0.0, dirty := true)
  }

  function Apply(tasks: seq<Task>, m: Move): (r: seq<Task>)
    requires m.i < |tasks|
    ensures |r| == |tasks|
  {
    match m
    case Preempt(i) => tasks[i := Preempted(tasks[i])]
    case Dispatch(i, answer) => tasks[i := Dispatched(tasks[i], answer)]
  }

  predicate LegalPass(s: Setup, tasks: seq<Task>, moves: seq<Move>)
    decreases |moves|
  {
    moves == [] || (Legal(s, tasks, moves[0]) && LegalPass(s, Apply(tasks, moves[0]), moves[1..]))
  }

  function After(s: Setup, tasks: seq<Task>, moves: seq<Move>): (r: seq<Task>)
    requires LegalPass(s, tasks, moves)
    ensures |r| == |tasks|
    decreases |moves|
  {
    if moves == [] then tasks else After(s, Apply(tasks, moves[0]), moves[1..])
  }

  lemma {:induction false} PassAppend(s: Setup, tasks: seq<Task>, moves: seq<Move>, m: Move)
    requires LegalPass(s, tasks, moves) && Legal(s, After(s, tasks, moves), m)
    ensures LegalPass(s, tasks, moves + [m])
    ensures After(s, tasks, moves + [m]) == Apply(After(s, tasks, moves), m)
    decreases |moves|
  {
    if moves == [] {
      assert moves + [m] == [m] && [m][1..] == [];
    } else {
      assert (moves + [m])[1..] == moves[1..] + [m];
      PassAppend(s, Apply(tasks, moves[0]), moves[1..], m);
    }
  }

  // ---------------------------------------------------------------- counting

  lemma {:induction false} CountAt(kind: Task -> bool, tasks: seq<Task>, i: nat, t: Task)
    requires i < |tasks|
    ensures Count(kind, tasks[i := t])
            == Count(kind, tasks) - (if kind(tasks[i]) then 1 else 0) + (if kind(t) then 1 else 0)
  {
    var n := |tasks| - 1;
    if i == n {
      assert tasks[i := t][..n] == tasks[..n];
    } else {
      assert tasks[i := t][..n] == tasks[..n][i := t];
      CountAt(kind, tasks[..n], i, t);
    }
  }

  /** What one move does to the counts. */
  lemma MoveCounts(s: Setup, tasks: seq<Task>, m: Move)
    requires Legal(s, tasks, m)
    ensures Active(Apply(tasks, m))
            == Active(tasks) + (if m.Preempt? then -1 else if m.answer == Accepted then 1 else 0)
    ensures EligibleCount(s, Apply(tasks, m)) == EligibleCount(s, tasks) - (if m.Dispatch? then 1 else 0)
    ensures PreemptibleCount(s, Apply(tasks, m))
            == PreemptibleCount(s, tasks) + (if m.Preempt? then -1 else if m.answer == Accepted then 1 else 0)
  {
    var t := Apply(tasks, m)[m.i];
    CountAt(Occupies, tasks, m.i, t);
    CountAt(EligibleIn(s), tasks, m.i, t);
    CountAt(PreemptibleIn(s), tasks, m.i, t);
  }

  /** What one move does to the table: a dispatched task loses its force and runs, or has failed if the engine could
      not take it; a paused one is at rest; both are to be stored; and nothing else changes. */
  lemma MoveExactly(s: Setup, tasks: seq<Task>, m: Move)
    requires Legal(s, tasks, m)
    ensures var t, r := tasks[m.i], Apply(tasks, m)[m.i];
            && Apply(tasks, m) == tasks[m.i := r] && r.dirty
            && (m.Dispatch? ==>
                  r == t.(force := false, dirty := true, status := if m.answer == Accepted then Downloading else Error))
            && (m.Preempt? ==> r == t.(status := Paused, rate := 0.0, dirty := true))
  {
  }

  /** A task that takes one of the slots: being downloaded, or still being resolved. */
  predicate TakesSlot(t: Task) {
    !t.isDelete && t.protocol != Local && (t.status == Downloading || t.status == Resolving)
  }

  /** A queued task whose engine is there. */
  predicate Waits(s: Setup, t: Task) {
    !t.isDelete && t.status == Queued && ((t.protocol == Http && s.http) || (t.protocol == Torrent && s.torrent))
  }

  /** A task being downloaded whose engine is there. */
  predicate Runs(s: Setup, t: Task) {
    !t.isDelete && t.status == Downloading && ((t.protocol == Http && s.http) || (t.protocol == Torrent && s.torrent))
  }

  lemma {:induction false} ActiveIsSize(tasks: seq<Task>)
    ensures Active(tasks) == |set i | 0 <= i < |tasks| && TakesSlot(tasks[i])|
  {
    var all := set i | 0 <= i < |tasks| && TakesSlot(tasks[i]);
    if tasks == [] {
      assert all == {};
    } else {
      var n := |tasks| - 1;
      ActiveIsSize(tasks[..n]);
      var front := set i | 0 <= i < n && TakesSlot(tasks[..n][i]);
      assert all == if TakesSlot(tasks[n]) then front + {n} else front;
    }
  }

  // ---------------------------------------------------------------- the scheduler

  /** What the world answers at each step of a pass: is the manager still running, how does the engine take a task,
      does it pause one. */
  datatype World = World(running: bool, answer: Answer, pauses: bool)

  /** Every move is the world's answer at its step. */
  predicate AsAnswered(world: nat -> World, moves: seq<Move>) {
    forall k :: 0 <= k < |moves| ==> Answers(world(k), moves[k])
  }

  predicate Answers(w: World, m: Move) {
    w.running && match m
                 case Preempt(_) => w.pauses
                 case Dispatch(_, answer) => answer == w.answer
  }

  /** One more legal move: the pass stays legal, and fewer tasks are left to move. */
  lemma OneMoreMove(s: Setup, start: seq<Task>, moves: seq<Move>, m: Move, world: nat -> World)
    requires LegalPass(s, start, moves) && Legal(s, After(s, start, moves), m)
    requires AsAnswered(world, moves) && Answers(world(|moves|), m)
    ensures LegalPass(s, start, moves + [m]) && AsAnswered(world, moves + [m])
    ensures var now, next := After(s, start, moves), After(s, start, moves + [m]);
            && next == Apply(now, m)
            && EligibleCount(s, next) == EligibleCount(s, now) - (if m.Dispatch? then 1 else 0)
            && (m.Preempt? ==> PreemptibleCount(s, next) == PreemptibleCount(s, now) - 1)
  {
    MoveCounts(s, After(s, start, moves), m);
    PassAppend(s, start, moves, m);
  }

  datatype Exit = Stopped | NothingWaits | SlotsTaken | NothingToPreempt | EngineRefused | PauseRefused

  class TaskManager {
    const setup: Setup
    /** The table, in the order in which a pass walks it. */
    var tasks: seq<Task>

    constructor (setup: Setup, tasks: seq<Task>)
      ensures this.setup == setup && this.tasks == tasks
    {
      this.setup, this.tasks := setup, tasks;
    }

    method ActiveCount() returns (n: nat)
      ensures n == Active(tasks)
      ensures n == |set i | 0 <= i < |tasks| && TakesSlot(tasks[i])|
    {
      n := 0;
      var k := 0;
      while k < |tasks|
        invariant 0 <= k <= |tasks| && n == Active(tasks[..k])
      {
        assert tasks[..k + 1][..k] == tasks[..k];
        if Occupies(tasks[k]) {
          n := n + 1;
        }
        k := k + 1;
      }
      assert tasks[..|tasks|] == tasks;
      ActiveIsSize(tasks);
    }

    method PickNext() returns (next: Option<nat>)
      ensures next.Some? ==> IsNext(setup, tasks, next.value)
      ensures next.None? ==> forall j :: 0 <= j < |tasks| ==> !Eligible(setup, tasks[j])
      ensures next.Some? ==> Waits(setup, tasks[next.value])
      ensures next.Some? ==>
                forall j :: 0 <= j < |tasks| && Waits(setup, tasks[j]) ==> InOrder(tasks[next.value], tasks[j])
      ensures next.None? ==> forall j :: 0 <= j < |tasks| ==> !Waits(setup, tasks[j])
    {
      next := None;
      var k := 0;
      while k < |tasks|
        invariant 0 <= k <= |tasks|
        invariant next.None? ==> forall j :: 0 <= j < k ==> !Eligible(setup, tasks[j])
        invariant next.Some? ==> next.value < k && Eligible(setup, tasks[next.value])
        invariant next.Some? ==>
                    forall j :: 0 <= j < k && Eligible(setup, tasks[j]) ==> !Before(tasks[j], tasks[next.value])
      {
        var t := tasks[k];
        if Eligible(setup, t) && (next.None? || Before(t, tasks[next.value])) {
          next := Some(k);
        }
        k := k + 1;
      }
    }

    method PickSlowest() returns (slowest: Option<nat>)
      ensures slowest.Some? ==> IsSlowest(setup, tasks, slowest.value)
      ensures slowest.None? ==> forall j :: 0 <= j < |tasks| ==> !Preemptible(setup, tasks[j])
      ensures slowest.Some? ==> Runs(setup, tasks[slowest.value])
      ensures slowest.Some? ==>
                forall j :: 0 <= j < |tasks| && Runs(setup, tasks[j]) ==> tasks[slowest.value].rate <= tasks[j].rate
      ensures slowest.None? ==> forall j :: 0 <= j < |tasks| ==> !Runs(setup, tasks[j])
    {
      slowest := None;
      var k := 0;
      while k < |tasks|
        invariant 0 <= k <= |tasks|
        invariant slowest.None? ==> forall j :: 0 <= j < k ==> !Preemptible(setup, tasks[j])
        invariant slowest.Some? ==> slowest.value < k && Preemptible(setup, tasks[slowest.value])
        invariant slowest.Some? ==>
                    forall j :: 0 <= j < k && Preemptible(setup, tasks[j]) ==>
                      tasks[slowest.value].rate <= tasks[j].rate
      {
        var t := tasks[k];
        if Preemptible(setup, t) && (slowest.None? || t.rate < tasks[slowest.value].rate) {
          slowest := Some(k);
        }
        k := k + 1;
      }
    }

    method PauseSlowest(victim: nat)
      requires victim < |tasks|
      modifies this
      ensures tasks == Apply(old(tasks), Preempt(victim))
    {
      tasks := tasks[victim := tasks[victim].(status := Paused, rate := 0.0, dirty := true)];
    }

    /** The engine has taken the task, or failed it for good. */
    method Settle(n: nat, answer: Answer)
      requires n < |tasks|
      modifies this
      ensures tasks == Apply(old(tasks), Dispatch(n, answer))
    {
      tasks := tasks[n := tasks[n].(force := false, status := if answer == Accepted then Downloading else Error,
                                    dirty := true)];
    }

    /** The admission loop of one pass. It ends whatever the engines answer. */
    method Pass(world: nat -> World) returns (moves: seq<Move>, exit: Exit)
      modifies this
      ensures LegalPass(setup, old(tasks), moves) && tasks == After(setup, old(tasks), moves)
      ensures exit == NothingWaits ==> forall j :: 0 <= j < |tasks| ==> !Eligible(setup, tasks[j])
      ensures exit == SlotsTaken ==>
                Active(tasks) >= setup.slots
                && forall j :: 0 <= j < |tasks| && Eligible(setup, tasks[j]) ==> !tasks[j].force
      ensures exit == NothingToPreempt ==>
                Active(tasks) >= setup.slots
                && forall j :: 0 <= j < |tasks| ==> !Preemptible(setup, tasks[j])
      ensures AsAnswered(world, moves)
      ensures exit == Stopped ==> setup.slots <= 0 || !world(|moves|).running
      ensures exit == EngineRefused ==> Active(tasks) < setup.slots && world(|moves|).answer == Refused
      ensures exit == PauseRefused ==> Active(tasks) >= setup.slots && !world(|moves|).pauses
    {
      ghost var start := tasks;
      moves, exit := [], Stopped;
      var step := 0;
      while world(step).running && setup.slots > 0
        invariant LegalPass(setup, start, moves) && tasks == After(setup, start, moves)
        invariant exit == Stopped && step == |moves| && AsAnswered(world, moves)
        decreases EligibleCount(setup, tasks), PreemptibleCount(setup, tasks)
      {
        var next := PickNext();
        if next.None? {
          return moves, NothingWaits;
        }
        var n := next.value;
        var active := ActiveCount();
        if active >= setup.slots {
          if !tasks[n].force {
            return moves, SlotsTaken;
          }
          var slowest := PickSlowest();
          if slowest.None? {
            return moves, NothingToPreempt;
          }
          if !world(step).pauses {
            return moves, PauseRefused;
          }
          var victim := slowest.value;
          assert Legal(setup, tasks, Preempt(victim));
          OneMoreMove(setup, start, moves, Preempt(victim), world);
          PauseSlowest(victim);
          moves := moves + [Preempt(victim)];
        } else {
          var answer := world(step).answer;
          if answer == Refused {
            return moves, EngineRefused;
          }
          OneMoreMove(setup, start, moves, Dispatch(n, answer), world);
          Settle(n, answer);
          moves := moves + [Dispatch(n, answer)];
        }
        step := step + 1;
      }
    }
  }

  // ---------------------------------------------------------------- theorems about a pass

  function Preemptions(moves: seq<Move>): nat {
    if moves == [] then 0 else (if moves[0].Preempt? then 1 else 0) + Preemptions(moves[1..])
  }

  function Admissions(moves: seq<Move>): nat {
    if moves == [] then 0
    else (if moves[0].Dispatch? && moves[0].answer == Accepted then 1 else 0) + Admissions(moves[1..])
  }

  /** Running tasks are conserved: every change of their number is a preemption or a successful admission. And the
      limit is never exceeded by admitting: at the end no more tasks run than the limit, or than before. */
  lemma {:induction false} PassConservesAndBounds(s: Setup, tasks: seq<Task>, moves: seq<Move>)
    requires LegalPass(s, tasks, moves)
    ensures Active(After(s, tasks, moves)) == Active(tasks) - Preemptions(moves) + Admissions(moves)
    ensures Active(After(s, tasks, moves)) <= Active(tasks) || Active(After(s, tasks, moves)) <= s.slots
    decreases |moves|
  {
    if moves != [] {
      MoveCounts(s, tasks, moves[0]);
      PassConservesAndBounds(s, Apply(tasks, moves[0]), moves[1..]);
    }
  }

  /** A pass is short: two moves for each waiting task and one for each running task at most. */
  lemma {:induction false} PassIsShort(s: Setup, tasks: seq<Task>, moves: seq<Move>)
    requires LegalPass(s, tasks, moves)
    ensures |moves| <= 2 * EligibleCount(s, tasks) + PreemptibleCount(s, tasks)
    decreases |moves|
  {
    if moves != [] {
      MoveCounts(s, tasks, moves[0]);
      PassIsShort(s, Apply(tasks, moves[0]), moves[1..]);
    }
  }

  /** The table just before move `k`. */
  function At(s: Setup, tasks: seq<Task>, moves: seq<Move>, k: nat): (r: seq<Task>)
    requires LegalPass(s, tasks, moves) && k <= |moves|
    ensures |r| == |tasks|
    ensures k < |moves| ==> Legal(s, r, moves[k])
    decreases k
  {
    if k == 0 then tasks else At(s, Apply(tasks, moves[0]), moves[1..], k - 1)
  }

  lemma {:induction false} AtEnd(s: Setup, tasks: seq<Task>, moves: seq<Move>)
    requires LegalPass(s, tasks, moves)
    ensures At(s, tasks, moves, |moves|) == After(s, tasks, moves)
    decreases |moves|
  {
    if moves != [] {
      AtEnd(s, Apply(tasks, moves[0]), moves[1..]);
    }
  }

  lemma {:induction false} AtStep(s: Setup, tasks: seq<Task>, moves: seq<Move>, k: nat)
    requires LegalPass(s, tasks, moves) && k < |moves|
    ensures At(s, tasks, moves, k + 1) == Apply(At(s, tasks, moves, k), moves[k])
    decreases k
  {
    if k > 0 {
      AtStep(s, Apply(tasks, moves[0]), moves[1..], k - 1);
    }
  }

  lemma MoveLeavesWaiting(s: Setup, tasks: seq<Task>, m: Move, q: nat)
    requires Legal(s, tasks, m) && q < |tasks| && Eligible(s, Apply(tasks, m)[q])
    ensures Apply(tasks, m)[q] == tasks[q]
  {
  }

  /** A task that waits late in a pass has waited, unchanged, since the beginning of the pass. */
  lemma {:induction false} WaitedAllAlong(s: Setup, tasks: seq<Task>, moves: seq<Move>, j: nat, k: nat, q: nat)
    requires LegalPass(s, tasks, moves) && j <= k <= |moves| && q < |tasks|
    requires Eligible(s, At(s, tasks, moves, k)[q])
    ensures At(s, tasks, moves, j)[q] == At(s, tasks, moves, k)[q]
    decreases k
  {
    if j < k {
      AtStep(s, tasks, moves, k - 1);
      MoveLeavesWaiting(s, At(s, tasks, moves, k - 1), moves[k - 1], q);
      WaitedAllAlong(s, tasks, moves, j, k - 1, q);
    }
  }

  /** The queue is served in order: a task dispatched later never goes before one dispatched earlier, and neither
      does a task that is still waiting at the end. */
  lemma DispatchedInOrder(s: Setup, tasks: seq<Task>, moves: seq<Move>, j: nat)
    requires LegalPass(s, tasks, moves) && j < |moves| && moves[j].Dispatch?
    ensures forall k :: j < k < |moves| && moves[k].Dispatch? ==>
              !Before(At(s, tasks, moves, k)[moves[k].i], At(s, tasks, moves, j)[moves[j].i])
    ensures forall q :: 0 <= q < |tasks| && Eligible(s, After(s, tasks, moves)[q]) ==>
              !Before(After(s, tasks, moves)[q], At(s, tasks, moves, j)[moves[j].i])
    ensures forall k :: j < k < |moves| && moves[k].Dispatch? ==>
              InOrder(At(s, tasks, moves, j)[moves[j].i], At(s, tasks, moves, k)[moves[k].i])
    ensures forall q :: 0 <= q < |tasks| && Waits(s, After(s, tasks, moves)[q]) ==>
              InOrder(At(s, tasks, moves, j)[moves[j].i], After(s, tasks, moves)[q])
  {
    forall k | j < k < |moves| && moves[k].Dispatch?
      ensures !Before(At(s, tasks, moves, k)[moves[k].i], At(s, tasks, moves, j)[moves[j].i])
    {
      assert Legal(s, At(s, tasks, moves, k), moves[k]);
      WaitedAllAlong(s, tasks, moves, j, k, moves[k].i);
    }
    AtEnd(s, tasks, moves);
    forall q | 0 <= q < |tasks| && Eligible(s, After(s, tasks, moves)[q])
      ensures !Before(After(s, tasks, moves)[q], At(s, tasks, moves, j)[moves[j].i])
    {
      WaitedAllAlong(s, tasks, moves, j, |moves|, q);
    }
  }

  /** Preemption serves forced tasks only: once a task without force has been dispatched, nothing is paused any
      more. So a task that is admitted and paused in one pass was itself admitted by force. */
  lemma NoPreemptionAfterUnforced(s: Setup, tasks: seq<Task>, moves: seq<Move>, j: nat, k: nat)
    requires LegalPass(s, tasks, moves) && j < k < |moves|
    requires moves[j].Dispatch? && !At(s, tasks, moves, j)[moves[j].i].force
    ensures moves[k].Dispatch?
  {
    if moves[k].Preempt? {
      var now := At(s, tasks, moves, k);
      var n :| 0 <= n < |now| && IsNext(s, now, n) && now[n].force;
      WaitedAllAlong(s, tasks, moves, j, k, n);
      assert Before(now[n], At(s, tasks, moves, j)[moves[j].i]);
    }
  }

  const FORCED_A := Task("a", Http, Queued, false, true, 0, 1, 0.0, false)
  const FORCED_B := Task("b", Http, Queued, false, true, 0, 2, 0.0, false)

  /** The shortest instance: with one slot and two forced tasks, the first is admitted and then paused for the second in
      the same pass, because admission takes its force away and it has no speed yet. */
  lemma ForcedTasksDisplaceEachOther()
    ensures var s, tasks := Setup(true, true, 1), [FORCED_A, FORCED_B];
            var moves := [Dispatch(0, Accepted)] + ([Preempt(0)] + ([Dispatch(1, Accepted)] + []));
            && LegalPass(s, tasks, moves)
            && After(s, tasks, moves)[0].status == Paused && After(s, tasks, moves)[1].status == Downloading
  {
    var s, tasks := Setup(true, true, 1), [FORCED_A, FORCED_B];
    var t1 := [Dispatched(FORCED_A, Accepted), FORCED_B];
    var t2 := [Preempted(t1[0]), FORCED_B];
    var t3 := [t2[0], Dispatched(FORCED_B, Accepted)];
    assert Apply(tasks, Dispatch(0, Accepted)) == t1 && Apply(t1, Preempt(0)) == t2;
    assert Apply(t2, Dispatch(1, Accepted)) == t3;
    ActivePair(tasks[0], tasks[1]);
    ActivePair(t1[0], t1[1]);
    ActivePair(t2[0], t2[1]);
    assert IsNext(s, t1, 1) && t1[1].force;
    PassPrepend(s, t2, Dispatch(1, Accepted), []);
    PassPrepend(s, t1, Preempt(0), [Dispatch(1, Accepted)] + []);
    PassPrepend(s, tasks, Dispatch(0, Accepted), [Preempt(0)] + ([Dispatch(1, Accepted)] + []));
  }

  lemma ActivePair(a: Task, b: Task)
    ensures Active([a, b]) == (if Occupies(a) then 1 else 0) + (if Occupies(b) then 1 else 0)
  {
    assert [a, b][..1] == [a];
    assert Count(Occupies, [a][..0]) == 0;
    assert Count(Occupies, [a]) == if Occupies(a) then 1 else 0;
  }

  lemma PassPrepend(s: Setup, tasks: seq<Task>, m: Move, moves: seq<Move>)
    requires Legal(s, tasks, m) && LegalPass(s, Apply(tasks, m), moves)
    ensures LegalPass(s, tasks, [m] + moves)
    ensures After(s, tasks, [m] + moves) == After(s, Apply(tasks, m), moves)
  {
    assert ([m] + moves)[1..] == moves;
  }
}
