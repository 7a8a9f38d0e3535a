/**
  The life of download contexts in the HTTP engine: a table with one context per URL, one worker thread for each, and
  a sweep that takes finished contexts down. The sweep works in two phases with the table unlocked in between: first
  it collects URLs, then it takes each one out of the table, waits for the worker and frees the context.
*/
module ContextTable {
  datatype Status = Running | Paused | Completed | Failed

  datatype Context = Context(url: string, workerAlive: bool, pause: bool, cancel: bool, delete: bool, status: Status,
                             finishedAt: int)

  /** `table` is what other threads see; `pending` and `joining` belong to the sweep: the URLs it has collected and the
      contexts it has taken out and waits for. */
  datatype Engine = Engine(table: map<string, nat>, contexts: map<nat, Context>, pending: set<string>,
                           joining: set<nat>, next: nat)

  const EMPTY := Engine(map[], map[], {}, {}, 0)

  /** Milliseconds a finished context stays so that its result can be collected. */
  const GRACE := 4000

  /** `Start` takes effect when a left-over context of the URL has been joined. */
  datatype Event =
    | Start(url: string, persists: bool)
    | Pause(url: string)
    | Delete(url: string)
    | WorkerEnds(id: nat, status: Status, now: int)
    | Collect(now: int)
    | Take(url: string)
    | Free(id: nat)

  predicate Known(e: Engine, url: string) {
    url in e.table && e.table[url] in e.contexts
  }

  function ContextOf(e: Engine, url: string): Context
    requires Known(e, url)
  {
    e.contexts[e.table[url]]
  }

  predicate Reclaimable(c: Context, now: int) {
    && !c.workerAlive
    && (c.delete
        || ((c.status == Completed || c.status == Failed) && now - c.finishedAt >= GRACE)
        || (c.status != Completed && c.status != Failed && c.pause))
  }

  /** A busy URL is left alone by another start. */
  predicate Busy(e: Engine, url: string) {
    Known(e, url) && ContextOf(e, url).workerAlive && !ContextOf(e, url).delete
  }

  predicate Legal(e: Engine, v: Event) {
    match v
    case Start(url, _) => Busy(e, url) || !Known(e, url) || !ContextOf(e, url).workerAlive
    case WorkerEnds(id, _, _) => id in e.contexts && e.contexts[id].workerAlive
    case Take(url) => url in e.pending
    case Free(id) => id in e.joining && id in e.contexts && !e.contexts[id].workerAlive
    case _ => true
  }

  function StartDownload(e: Engine, url: string, persists: bool): Engine {
    if Busy(e, url) then e
    else
      var cleared := if Known(e, url) then e.(table := e.table - {url}, contexts := e.contexts - {e.table[url]}) else e;
      if !persists then cleared
      else cleared.(table := cleared.table[url := e.next], next := e.next + 1,
                    contexts := cleared.contexts[e.next := Context(url, true, false, false, false, Running, 0)])
  }

  function Update(e: Engine, id: nat, c: Context): Engine {
    e.(contexts := e.contexts[id := c])
  }

  /** The second lookup of the sweep takes whatever context the URL leads to now. */
  function TakeOut(e: Engine, url: string): Engine {
    var left := e.(pending := e.pending - {url});
    if !Known(e, url) then left else left.(table := e.table - {url}, joining := e.joining + {e.table[url]})
  }

  function Step(e: Engine, v: Event): Engine
    requires Legal(e, v)
  {
    match v
    case Start(url, persists) => StartDownload(e, url, persists)
    case Pause(url) => if Known(e, url) then Update(e, e.table[url], ContextOf(e, url).(pause := true)) else e
    case Delete(url) =>
      if Known(e, url) then Update(e, e.table[url], ContextOf(e, url).(cancel := true, delete := true)) else e
    case WorkerEnds(id, status, now) =>
      Update(e, id, e.contexts[id].(workerAlive := false, status := status, finishedAt := now))
    case Collect(now) =>
      e.(pending := set url | url in e.table && Known(e, url) && Reclaimable(ContextOf(e, url), now))
    case Take(url) => TakeOut(e, url)
    case Free(id) => e.(contexts := e.contexts - {id}, joining := e.joining - {id})
  }

  /** The context the sweep is about to take out is still one whose worker has ended. */
  predicate Rechecked(e: Engine, v: Event) {
    v.Take? && Known(e, v.url) ==> !ContextOf(e, v.url).workerAlive
  }

  predicate Consistent(e: Engine) {
    && (forall url :: url in e.table ==> e.table[url] in e.contexts && e.contexts[e.table[url]].url == url)
    && (forall id :: id in e.contexts ==>
          id < e.next && (id in e.joining || (e.contexts[id].url in e.table && e.table[e.contexts[id].url] == id)))
    && (forall url :: url in e.table ==> e.table[url] !in e.joining)
    && (forall id :: id in e.joining ==> id in e.contexts)
  }

  predicate AtMostOneWorker(e: Engine) {
    forall a, b | a in e.contexts && b in e.contexts && e.contexts[a].url == e.contexts[b].url ::
      e.contexts[a].workerAlive && e.contexts[b].workerAlive ==> a == b
  }

  /** What the sweep waits for has ended. */
  predicate JoiningIdle(e: Engine) {
    forall id :: id in e.joining && id in e.contexts ==> !e.contexts[id].workerAlive
  }

  predicate Run(e: Engine, run: seq<Event>)
    decreases |run|
  {
    run == [] || (Legal(e, run[0]) && Run(Step(e, run[0]), run[1..]))
  }

  function Replay(e: Engine, run: seq<Event>): Engine
    requires Run(e, run)
    decreases |run|
  {
    if run == [] then e else Replay(Step(e, run[0]), run[1..])
  }

  predicate RecheckedRun(e: Engine, run: seq<Event>)
    requires Run(e, run)
    decreases |run|
  {
    run == [] || (Rechecked(e, run[0]) && RecheckedRun(Step(e, run[0]), run[1..]))
  }

  lemma StepKeepsConsistent(e: Engine, v: Event)
    requires Consistent(e) && Legal(e, v)
    ensures Consistent(Step(e, v))
  {
  }

  lemma IdleMeansOne(e: Engine)
    requires Consistent(e) && JoiningIdle(e)
    ensures AtMostOneWorker(e)
  {
  }

  lemma StepKeepsIdle(e: Engine, v: Event)
    requires Consistent(e) && JoiningIdle(e) && Legal(e, v) && Rechecked(e, v)
    ensures JoiningIdle(Step(e, v))
  {
  }

  /** Whenever the sweep takes out only contexts whose worker has ended (a sweep in one step always does), no URL
      ever has two live workers. */
  lemma {:induction false} OneWorkerPerUrl(e: Engine, run: seq<Event>)
    requires Consistent(e) && JoiningIdle(e) && Run(e, run) && RecheckedRun(e, run)
    ensures Consistent(Replay(e, run)) && AtMostOneWorker(Replay(e, run))
    decreases |run|
  {
    if run == [] {
      IdleMeansOne(e);
    } else {
      StepKeepsConsistent(e, run[0]);
      StepKeepsIdle(e, run[0]);
      OneWorkerPerUrl(Step(e, run[0]), run[1..]);
    }
  }

  /** A sweep in one step: nothing happens between collecting a URL and taking it out. */
  lemma CollectThenTakeIsRechecked(e: Engine, now: int, url: string)
    requires Consistent(e) && url in Step(e, Collect(now)).pending
    ensures Rechecked(Step(e, Collect(now)), Take(url))
  {
  }

  // ---------------------------------------------------------------- what each call does

  /** A collection takes exactly the URLs whose worker has ended and which were deleted, or completed or failed at least
      four seconds ago, or were paused otherwise. */
  lemma CollectedExactly(e: Engine, now: int, url: string)
    ensures url in Step(e, Collect(now)).pending <==>
              Known(e, url)
              && var c := ContextOf(e, url);
                 && !c.workerAlive
                 && (c.delete
                     || (c.status in {Completed, Failed} && now >= c.finishedAt + 4000)
                     || (c.status in {Running, Paused} && c.pause))
  {
  }

  /** A start leaves a URL at work alone. Otherwise it ends with a new context, at work and without requests, and the
      old one is gone; or, if the task could not be stored, with none. No other URL is concerned. */
  lemma StartExactly(e: Engine, url: string, persists: bool)
    requires Consistent(e) && Legal(e, Start(url, persists))
    ensures var r, busy := Step(e, Start(url, persists)),
                           Known(e, url) && ContextOf(e, url).workerAlive && !ContextOf(e, url).delete;
            && (busy ==> r == e)
            && (!busy && persists ==>
                  Known(r, url) && r.table[url] == e.next && r.next == e.next + 1
                  && ContextOf(r, url) == Context(url, true, false, false, false, Running, 0))
            && (!busy && !persists ==> url !in r.table && r.next == e.next)
            && (!busy && Known(e, url) ==> e.table[url] !in r.contexts)
            && r.pending == e.pending && r.joining == e.joining
            && (forall other :: other != url ==> (other in r.table <==> other in e.table))
            && (forall other :: other != url && Known(e, other) ==>
                  Known(r, other) && r.table[other] == e.table[other] && ContextOf(r, other) == ContextOf(e, other))
  {
  }

  /** Requests reach the context of their URL: a pause asks to pause, a deletion to cancel and to delete, and the end of
      a worker is noted with its result and time. Nothing else changes. */
  lemma RequestsExactly(e: Engine, url: string, id: nat, status: Status, now: int)
    ensures !Known(e, url) ==> Step(e, Pause(url)) == e && Step(e, Delete(url)) == e
    ensures Known(e, url) ==>
              var c := e.contexts[e.table[url]];
              && Step(e, Pause(url)) == e.(contexts := e.contexts[e.table[url] := c.(pause := true)])
              && Step(e, Delete(url)) == e.(contexts := e.contexts[e.table[url] := c.(cancel := true, delete := true)])
    ensures id in e.contexts && e.contexts[id].workerAlive ==>
              var c := e.contexts[id].(workerAlive := false, status := status, finishedAt := now);
              Step(e, WorkerEnds(id, status, now)) == e.(contexts := e.contexts[id := c])
  {
  }

  /** Taking a collected URL makes it free at once and hands its context, if it has one, to the sweep; the context is
      freed when its worker has ended. */
  lemma TakeExactly(e: Engine, url: string)
    requires url in e.pending
    ensures var r := Step(e, Take(url));
            && url !in r.pending && (Known(e, url) ==> url !in r.table && e.table[url] in r.joining)
            && r.contexts == e.contexts && r.pending == e.pending - {url}
            && (!Known(e, url) ==> r.table == e.table && r.joining == e.joining)
  {
  }

  // ---------------------------------------------------------------- sweeps in one step

  /** A sweep in one step: once URLs are collected, nothing happens but their takes, the ends of workers and the frees
      of what was taken, until none is left. */
  predicate AtomicRun(e: Engine, run: seq<Event>)
    requires Run(e, run)
    decreases |run|
  {
    run == [] || ((e.pending != {} ==> run[0].Take? || run[0].Free? || run[0].WorkerEnds?)
                  && AtomicRun(Step(e, run[0]), run[1..]))
  }

  /** Less is enough: no collected URL is started again before it is taken. */
  predicate UndisturbedRun(e: Engine, run: seq<Event>)
    requires Run(e, run)
    decreases |run|
  {
    run == [] || ((run[0].Start? ==> run[0].url !in e.pending) && UndisturbedRun(Step(e, run[0]), run[1..]))
  }

  lemma {:induction false} AtomicIsUndisturbed(e: Engine, run: seq<Event>)
    requires Run(e, run) && AtomicRun(e, run)
    ensures UndisturbedRun(e, run)
    decreases |run|
  {
    if run != [] {
      AtomicIsUndisturbed(Step(e, run[0]), run[1..]);
    }
  }

  /** What the sweep has collected is still idle. */
  predicate PendingIdle(e: Engine) {
    forall url :: url in e.pending && Known(e, url) ==> !ContextOf(e, url).workerAlive
  }

  lemma StepKeepsPendingIdle(e: Engine, v: Event)
    requires Consistent(e) && PendingIdle(e) && Legal(e, v) && (v.Start? ==> v.url !in e.pending)
    ensures PendingIdle(Step(e, v)) && Rechecked(e, v)
  {
    var r := Step(e, v);
    forall url | url in r.pending && Known(r, url)
      ensures !ContextOf(r, url).workerAlive
    {
      if v.Collect? {
        CollectThenTakeIsRechecked(e, v.now, url);
      } else {
        assert url in e.pending && Known(e, url);
      }
    }
  }

  lemma {:induction false} UndisturbedIsRechecked(e: Engine, run: seq<Event>)
    requires Consistent(e) && PendingIdle(e) && Run(e, run) && UndisturbedRun(e, run)
    ensures RecheckedRun(e, run)
    decreases |run|
  {
    if run != [] {
      StepKeepsPendingIdle(e, run[0]);
      StepKeepsConsistent(e, run[0]);
      UndisturbedIsRechecked(Step(e, run[0]), run[1..]);
    }
  }

  /** With every sweep in one step, from the empty engine on, no URL ever has two live workers. */
  lemma AtomicSweepsOneWorker(run: seq<Event>)
    requires Run(EMPTY, run) && AtomicRun(EMPTY, run)
    ensures Consistent(Replay(EMPTY, run)) && AtMostOneWorker(Replay(EMPTY, run))
  {
    AtomicIsUndisturbed(EMPTY, run);
    UndisturbedSweepsOneWorker(run);
  }

  /** The same when a sweep is interleaved with anything but the start of a URL it has collected. */
  lemma UndisturbedSweepsOneWorker(run: seq<Event>)
    requires Run(EMPTY, run) && UndisturbedRun(EMPTY, run)
    ensures Consistent(Replay(EMPTY, run)) && AtMostOneWorker(Replay(EMPTY, run))
  {
    UndisturbedIsRechecked(EMPTY, run);
    OneWorkerPerUrl(EMPTY, run);
  }

  // ---------------------------------------------------------------- sweeps in two steps

  /** Without the recheck the promise breaks, and exactly then: after taking a URL out, a new start gives it a second
      live worker if and only if the context taken out was at work. */
  lemma TakeThenStart(e: Engine, url: string)
    requires Consistent(e) && JoiningIdle(e) && url in e.pending
    ensures var taken := Step(e, Take(url));
            && Legal(taken, Start(url, true))
            && (AtMostOneWorker(Step(taken, Start(url, true))) <==> Rechecked(e, Take(url)))
  {
    var taken := Step(e, Take(url));
    StepKeepsConsistent(e, Take(url));
    assert !Known(taken, url);
    var both := Step(taken, Start(url, true));
    if Rechecked(e, Take(url)) {
      StepKeepsIdle(e, Take(url));
      StepKeepsConsistent(taken, Start(url, true));
      StepKeepsIdle(taken, Start(url, true));
      IdleMeansOne(both);
    } else {
      var id := e.table[url];
      assert both.contexts[id].workerAlive && both.contexts[e.next].workerAlive && id != e.next;
    }
  }

  /** Such a state is reached: a download ends and is collected, the same URL is started again before the sweep takes
      it out. */
  lemma StaleTakeIsReachable(url: string)
    ensures var run := [Start(url, true)] + ([WorkerEnds(0, Failed, 0)] + ([Collect(GRACE)]
                       + ([Start(url, true)] + [])));
            && Run(EMPTY, run)
            && var e := Replay(EMPTY, run);
               url in e.pending && Consistent(e) && JoiningIdle(e) && !Rechecked(e, Take(url))
  {
    var e1 := Step(EMPTY, Start(url, true));
    var e2 := Step(e1, WorkerEnds(0, Failed, 0));
    var e3 := Step(e2, Collect(GRACE));
    assert Known(e2, url) && Reclaimable(ContextOf(e2, url), GRACE) && url in e3.pending;
    var e4 := Step(e3, Start(url, true));
    StepKeepsConsistent(EMPTY, Start(url, true));
    StepKeepsConsistent(e1, WorkerEnds(0, Failed, 0));
    StepKeepsConsistent(e2, Collect(GRACE));
    StepKeepsConsistent(e3, Start(url, true));
    RunPrepend(e3, Start(url, true), []);
    RunPrepend(e2, Collect(GRACE), [Start(url, true)] + []);
    RunPrepend(e1, WorkerEnds(0, Failed, 0), [Collect(GRACE)] + ([Start(url, true)] + []));
    RunPrepend(EMPTY, Start(url, true), [WorkerEnds(0, Failed, 0)] + ([Collect(GRACE)] + ([Start(url, true)] + [])));
    assert Known(e4, url) && ContextOf(e4, url).workerAlive;
  }

  lemma RunPrepend(e: Engine, v: Event, run: seq<Event>)
    requires Legal(e, v) && Run(Step(e, v), run)
    ensures Run(e, [v] + run) && Replay(e, [v] + run) == Replay(Step(e, v), run)
  {
    assert ([v] + run)[1..] == run;
  }

  /** In every run, with or without the recheck, a context leaves memory only after its worker has ended. */
  lemma FreedAfterWorker(e: Engine, v: Event, id: nat)
    requires Consistent(e) && Legal(e, v) && id in e.contexts && id !in Step(e, v).contexts
    ensures !e.contexts[id].workerAlive
  {
    if v.Start? {
      assert Known(e, v.url) && id == e.table[v.url];
    }
  }

  // ---------------------------------------------------------------- the engine object

  class HttpEngine {
    var table: map<string, nat>
    var contexts: map<nat, Context>
    var pending: set<string>
    var joining: set<nat>
    var next: nat

    function State(): Engine
      reads this
    {
      Engine(table, contexts, pending, joining, next)
    }

    constructor ()
      ensures State() == EMPTY
    {
      table, contexts, pending, joining, next := map[], map[], {}, {}, 0;
    }

    /** `started` is false when the record of the task could not be stored. */
    method StartDownload(url: string, persists: bool) returns (started: bool)
      requires Legal(State(), Start(url, persists))
      modifies this
      ensures State() == Step(old(State()), Start(url, persists))
      ensures started <==> old(Busy(State(), url)) || persists
    {
      if url in table && table[url] in contexts {
        var stale := contexts[table[url]];
        if stale.workerAlive && !stale.delete {
          return true;
        }
        contexts := contexts - {table[url]};
        table := table - {url};
      }
      if !persists {
        return false;
      }
      table := table[url := next];
      contexts := contexts[next := Context(url, true, false, false, false, Running, 0)];
      next := next + 1;
      return true;
    }

    method PauseTask(url: string)
      modifies this`contexts
      ensures State() == Step(old(State()), Pause(url))
    {
      if url in table && table[url] in contexts {
        contexts := contexts[table[url] := contexts[table[url]].(pause := true)];
      }
    }

    method DeleteTask(url: string)
      modifies this`contexts
      ensures State() == Step(old(State()), Delete(url))
    {
      if url in table && table[url] in contexts {
        contexts := contexts[table[url] := contexts[table[url]].(cancel := true, delete := true)];
      }
    }

    /** First phase: walk the table and note what can go. */
    method CollectFinished(now: int)
      modifies this`pending
      ensures State() == Step(old(State()), Collect(now))
    {
      pending := {};
      var todo := table.Keys;
      while todo != {}
        invariant todo <= table.Keys
        invariant pending == set url | url in table && url !in todo && Known(State(), url)
                                       && Reclaimable(ContextOf(State(), url), now)
      {
        var url :| url in todo;
        if table[url] in contexts && Reclaimable(contexts[table[url]], now) {
          pending := pending + {url};
        }
        todo := todo - {url};
      }
    }

    /** A sweep with nothing in between: everything that could go is gone, and nothing else. */
    method Sweep(now: int)
      requires Consistent(State()) && joining == {}
      modifies this
      ensures Consistent(State()) && pending == {} && Swept(old(State()), State(), now)
    {
      ghost var before := State();
      CollectFinished(now);
      SweepBegins(before, now);
      while pending != {}
        invariant Consistent(State()) && Swept(before, State(), now)
        decreases pending
      {
        var url :| url in pending;
        SweepOne(before, State(), now, url);
        TakeDown(url);
      }
    }

    /** Take a context out of the table, join its ended worker and free it. */
    method TakeDown(url: string)
      requires url in pending && Known(State(), url) && !ContextOf(State(), url).workerAlive && joining == {}
      modifies this
      ensures pending == old(pending) - {url}
      ensures State() == TakenDown(old(State()), url)
    {
      var id := table[url];
      pending := pending - {url};
      table := table - {url};
      joining := joining + {id};
      contexts := contexts - {id};
      joining := joining - {id};
    }
  }

  /** Of the contexts of `before`, those that can be reclaimed and are not pending any more are gone; all others are
      as they were. */
  predicate Swept(before: Engine, e: Engine, now: int) {
    && e.joining == {}
    && (forall url :: url in e.pending ==> Known(before, url) && Reclaimable(ContextOf(before, url), now))
    && (forall url :: url in before.table && Known(before, url) ==>
          (url in e.table <==> url in e.pending || !Reclaimable(ContextOf(before, url), now)))
    && (forall url :: url in e.table ==> url in before.table && e.table[url] == before.table[url])
    && (forall id :: id in before.contexts ==>
          (id in e.contexts <==> before.contexts[id].url in e.pending || !Reclaimable(before.contexts[id], now)))
    && (forall id :: id in e.contexts ==> id in before.contexts && e.contexts[id] == before.contexts[id])
  }

  function TakenDown(e: Engine, url: string): Engine
    requires url in e.pending && Known(e, url) && !ContextOf(e, url).workerAlive
  {
    Step(Step(e, Take(url)), Free(e.table[url]))
  }

  lemma SweepBegins(before: Engine, now: int)
    requires Consistent(before) && before.joining == {}
    ensures Consistent(Step(before, Collect(now))) && Swept(before, Step(before, Collect(now)), now)
  {
  }

  lemma SweepOne(before: Engine, e: Engine, now: int, url: string)
    requires Consistent(before) && before.joining == {} && Consistent(e) && Swept(before, e, now) && url in e.pending
    ensures Known(e, url) && !ContextOf(e, url).workerAlive
    ensures Consistent(TakenDown(e, url)) && Swept(before, TakenDown(e, url), now)
  {
    assert Known(before, url);
    StepKeepsConsistent(e, Take(url));
    StepKeepsConsistent(Step(e, Take(url)), Free(e.table[url]));
  }
}
