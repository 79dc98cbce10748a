// The invariant of the fiber runtime, and the accounting of outstanding work under each
// elementary change of the system.

module RuntimeInvariant {
  import opened Base
  import opened FiberTypes
  import opened TaskList
  import opened Runtime
  import EventTable
  import EventTableProofs

  // ---------------------------------------------------------------- the invariant

  function BusyOf(k: Worker): nat { if k.phase.Picked? || k.phase.Running? then 1 else 0 }

  /** How many tokens a fiber may have in each position: never more than one. A suspended do_io
      round has exactly one, unless delEvent threw its registration away and nobody has rescued it by hand;
      a sleeper has exactly one; an ended callback fiber has none. */
  predicate FiberOk(fb: Fiber, n: nat, lost: bool, reserved: bool) {
    match fb.state
    case EXEC =>
      (match fb.pc
       case Registered(_) => n + (if lost then 1 else 0) == 1
       case SleepArmed => n == 1 && !lost
       case Waiting(_) => false
       case Sleeping => false
       case Parked => false
       case _ => n <= 1 && !lost)
    case HOLD =>
      (match fb.pc
       case Waiting(_) => n + (if lost then 1 else 0) == 1
       case Sleeping => n == 1 && !lost
       case Parked => n <= 1 && !lost
       case _ => false) && !reserved
    case READY => fb.pc == Code && n == 1 && !lost && !reserved
    case INIT => fb.pc == Code && n <= (if reserved then 0 else 1) && !lost
    case TERM => fb.pc == Code && n <= 1 && !lost && !reserved
    case EXCEPT => fb.pc == Code && n <= 1 && !lost && !reserved
  }

  /** The part of a system that the fiber invariant talks about: pool is all outstanding
      work, kept the part of it that the event table holds. */
  datatype View = View(fibers: map<FiberId, Fiber>, workers: seq<Worker>, dropped: set<FiberId>,
                       pool: multiset<Work>, kept: multiset<Work>)

  function ViewOf(s: System): View {
    View(s.fibers, s.workers, s.dropped, Pool(s), EventTable.Waiting(s.table.contexts))
  }

  ghost predicate GoodFiber(v: View, f: FiberId) {
    if f in v.fibers then FiberOk(v.fibers[f], TokensIn(v.pool, f), f in v.dropped, ReservedIn(v.workers, f))
    else TokensIn(v.pool, f) == 0 && f !in v.dropped && !ReservedIn(v.workers, f)
  }

  predicate RunningOn(workers: seq<Worker>, w: nat, f: FiberId) {
    w < |workers| && workers[w].phase.Running? && workers[w].phase.fiber == f
  }

  predicate GoodWorker(fibers: map<FiberId, Fiber>, k: Worker) {
    && (k.phase.Running? ==>
          && k.phase.fiber in fibers && fibers[k.phase.fiber].state == EXEC
          && (k.phase.body.Some? ==>
                fibers[k.phase.fiber].pc == Code && k.cbFiber == Some(k.phase.fiber) && !k.phase.body.value.UserCallback?))
    && (k.phase.Picked? && k.phase.work.FiberWork? ==>
          k.phase.work.fiber in fibers && fibers[k.phase.work.fiber].state != EXEC)
    && (k.cbFiber.Some? && !(k.phase.Running? && k.phase.fiber == k.cbFiber.value) ==>
          k.cbFiber.value in fibers && fibers[k.cbFiber.value].state == INIT)
    && (k.phase == Exited ==> k.idleDone)
  }

  /** Two workers never run or are about to run the same fiber, and never own the same
      callback fiber. */
  predicate Apart(j: Worker, k: Worker) {
    && (j.phase.Running? && k.phase.Running? ==> j.phase.fiber != k.phase.fiber)
    && (j.phase.Picked? && k.phase.Picked? && j.phase.work.FiberWork? ==> j.phase.work != k.phase.work)
    && (j.cbFiber.Some? ==> j.cbFiber != k.cbFiber)
  }

  /** A registration held in the table belongs to a fiber that is inside a do_io round. */
  ghost predicate GoodRegistration(v: View, f: FiberId) {
    && (FiberWork(f) in v.kept ==> f in v.fibers && (v.fibers[f].pc.Registered? || v.fibers[f].pc.Waiting?))
    && CallbackWork(WakeFiber(f)) !in v.kept
  }

  ghost predicate HasWorker(v: View, f: FiberId) {
    exists w: nat :: RunningOn(v.workers, w, f)
  }

  ghost predicate Shape(v: View) {
    && (forall f: FiberId :: GoodFiber(v, f))
    && (forall f: FiberId :: GoodRegistration(v, f))
    && (forall w :: 0 <= w < |v.workers| ==> GoodWorker(v.fibers, v.workers[w]))
    && (forall i, j :: 0 <= i < |v.workers| && 0 <= j < |v.workers| && i != j ==> Apart(v.workers[i], v.workers[j]))
    && (forall f :: f in v.fibers && v.fibers[f].state == EXEC ==> HasWorker(v, f))
  }

  /** Only user callbacks recur. */
  predicate TimersOk(timers: seq<Timer>) {
    forall i :: 0 <= i < |timers| && timers[i].recurring ==> timers[i].cb.UserCallback?
  }

  /** addEvent grows for an fd beyond the first vector only, and what it has located is a context of
      its fd, whatever has happened to the vector since; the same for a timeout's cancelEvent. */
  predicate PcOk(pc: Pc, contexts: seq<EventTable.FdContext>) {
    match pc
    case Growing(io) => io.fd >= EventTable.INITIAL_CONTEXTS
    case Located(io, at) => at < |contexts| && contexts[at].fd == io.fd
    case Cancelling(at, _) => at < |contexts|
    case _ => true
  }

  predicate PcsOk(fibers: map<FiberId, Fiber>, contexts: seq<EventTable.FdContext>) {
    forall f :: f in fibers ==> PcOk(fibers[f].pc, contexts)
  }

  ghost predicate Core(s: System) {
    && EventTable.Valid(s.table)
    && TimersOk(s.timers)
    && s.active == Total(s.workers, BusyOf)
    && Shape(ViewOf(s))
  }

  ghost predicate Inv(s: System) {
    Core(s) && PcsOk(s.fibers, s.table.contexts)
  }

  // ---------------------------------------------------------------- accounting

  lemma TasksPush(tasks: seq<Task>, t: Task)
    ensures InTasks(tasks + [t]) == InTasks(tasks) + multiset{t.work}
  {
    SumAppend(tasks, [t], TaskWork);
    SumOne(t, TaskWork);
  }

  lemma {:induction false} TasksPushAll(tasks: seq<Task>, ws: seq<Work>)
    ensures InTasks(tasks + Wrap(ws)) == InTasks(tasks) + multiset(ws)
  {
    if ws == [] {
      assert tasks + Wrap(ws) == tasks;
    } else {
      var n := |ws| - 1;
      TasksPushAll(tasks, ws[..n]);
      assert ws == ws[..n] + [ws[n]];
      assert tasks + Wrap(ws) == (tasks + Wrap(ws[..n])) + [Task(ws[n], -1)];
      TasksPush(tasks + Wrap(ws[..n]), Task(ws[n], -1));
    }
  }

  lemma TasksTake(tasks: seq<Task>, i: nat)
    requires i < |tasks|
    ensures InTasks(tasks) == InTasks(Without(tasks, i)) + multiset{tasks[i].work}
  {
    SumRemove(tasks, i, TaskWork);
  }

  lemma TimersPush(timers: seq<Timer>, t: Timer)
    ensures InTimers(timers + [t]) == InTimers(timers) + multiset{CallbackWork(t.cb)}
  {
    SumAppend(timers, [t], TimerWork);
    SumOne(t, TimerWork);
  }

  lemma TimersTake(timers: seq<Timer>, i: nat)
    requires i < |timers|
    ensures InTimers(timers) == InTimers(Without(timers, i)) + multiset{CallbackWork(timers[i].cb)}
  {
    SumRemove(timers, i, TimerWork);
  }

  lemma Added(a: multiset<Work>, b: multiset<Work>, c: multiset<Work>, d: multiset<Work>, x: multiset<Work>)
    ensures (a + x) + b + c + d == a + b + c + d + x
    ensures a + (b + x) + c + d == a + b + c + d + x
    ensures a + b + (c + x) + d == a + b + c + d + x
    ensures a + b + c + (d + x) == a + b + c + d + x
  {
  }

  lemma PoolPush(s: System, t: Task)
    ensures Pool(s.(tasks := s.tasks + [t])) == Pool(s) + multiset{t.work}
  {
    TasksPush(s.tasks, t);
    Added(InTasks(s.tasks), EventTable.Waiting(s.table.contexts), InTimers(s.timers), InWorkers(s.workers), multiset{t.work});
  }

  lemma PoolPushAll(s: System, ws: seq<Work>)
    ensures Pool(Push(s, ws)) == Pool(s) + multiset(ws)
  {
    TasksPushAll(s.tasks, ws);
    Added(InTasks(s.tasks), EventTable.Waiting(s.table.contexts), InTimers(s.timers), InWorkers(s.workers), multiset(ws));
  }

  lemma PoolTakeTask(s: System, i: nat)
    requires i < |s.tasks|
    ensures Pool(s) == Pool(s.(tasks := Without(s.tasks, i))) + multiset{s.tasks[i].work}
  {
    TasksTake(s.tasks, i);
    Added(InTasks(Without(s.tasks, i)), EventTable.Waiting(s.table.contexts), InTimers(s.timers), InWorkers(s.workers),
          multiset{s.tasks[i].work});
  }

  lemma PoolPushTimer(s: System, t: Timer)
    ensures Pool(s.(timers := s.timers + [t])) == Pool(s) + multiset{CallbackWork(t.cb)}
  {
    TimersPush(s.timers, t);
    Added(InTasks(s.tasks), EventTable.Waiting(s.table.contexts), InTimers(s.timers), InWorkers(s.workers),
          multiset{CallbackWork(t.cb)});
  }

  lemma PoolTakeTimer(s: System, i: nat)
    requires i < |s.timers|
    ensures Pool(s) == Pool(s.(timers := Without(s.timers, i))) + multiset{CallbackWork(s.timers[i].cb)}
  {
    TimersTake(s.timers, i);
    Added(InTasks(s.tasks), EventTable.Waiting(s.table.contexts), InTimers(Without(s.timers, i)), InWorkers(s.workers),
          multiset{CallbackWork(s.timers[i].cb)});
  }

  /** A table operation that keeps `more` beyond what it held, or gives up `less`. */
  lemma PoolTable(s: System, t: EventTable.Table, more: multiset<Work>, less: multiset<Work>)
    requires EventTable.Waiting(s.table.contexts) + more == EventTable.Waiting(t.contexts) + less
    ensures Pool(s) + more == Pool(s.(table := t)) + less
  {
    var b, b' := EventTable.Waiting(s.table.contexts), EventTable.Waiting(t.contexts);
    Added(InTasks(s.tasks), b, InTimers(s.timers), InWorkers(s.workers), more);
    Added(InTasks(s.tasks), b', InTimers(s.timers), InWorkers(s.workers), less);
  }

  /** Replacing one worker: what it was holding leaves the pool, what it now holds joins. */
  lemma PoolWorker(s: System, w: nat, k: Worker, gone: multiset<Work>, added: multiset<Work>)
    requires w < |s.workers| && WorkerWork(s.workers[w]) + added == WorkerWork(k) + gone
    ensures Pool(s) + added == Pool(s.(workers := s.workers[w := k])) + gone
    ensures Total(s.workers[w := k], BusyOf) == Total(s.workers, BusyOf) - BusyOf(s.workers[w]) + BusyOf(k)
  {
    SumChange(s.workers, w, k, WorkerWork, gone, added);
    TotalUpdate(s.workers, w, k, BusyOf);
    Added(InTasks(s.tasks), EventTable.Waiting(s.table.contexts), InTimers(s.timers), InWorkers(s.workers), added);
    Added(InTasks(s.tasks), EventTable.Waiting(s.table.contexts), InTimers(s.timers), InWorkers(s.workers[w := k]), gone);
  }

  lemma PoolWorkerDrop(s: System, w: nat, k: Worker, gone: multiset<Work>)
    requires w < |s.workers| && WorkerWork(s.workers[w]) == WorkerWork(k) + gone
    ensures Pool(s) == Pool(s.(workers := s.workers[w := k])) + gone
    ensures Total(s.workers[w := k], BusyOf) == Total(s.workers, BusyOf) - BusyOf(s.workers[w]) + BusyOf(k)
  {
    PoolWorker(s, w, k, gone, multiset{});
    assert Pool(s) + multiset{} == Pool(s);
  }

  lemma PoolWorkerSame(s: System, w: nat, k: Worker)
    requires w < |s.workers| && WorkerWork(s.workers[w]) == WorkerWork(k)
    ensures Pool(s.(workers := s.workers[w := k])) == Pool(s)
    ensures Total(s.workers[w := k], BusyOf) == Total(s.workers, BusyOf) - BusyOf(s.workers[w]) + BusyOf(k)
  {
    PoolWorker(s, w, k, multiset{}, multiset{});
    assert Pool(s) + multiset{} == Pool(s);
  }

  /** The work of a task, a timer, a registration or a worker is part of the pool. */
  lemma InPool(s: System, u: Work)
    ensures Pool(s)[u] ==
              InTasks(s.tasks)[u] + EventTable.Waiting(s.table.contexts)[u] + InTimers(s.timers)[u] + InWorkers(s.workers)[u]
  {
  }

  lemma WorkerHolds(s: System, w: nat)
    requires w < |s.workers|
    ensures WorkerWork(s.workers[w]) <= InWorkers(s.workers)
    ensures BusyOf(s.workers[w]) <= Total(s.workers, BusyOf)
  {
    SumUpdate(s.workers, w, s.workers[w], WorkerWork);
    TotalUpdate(s.workers, w, s.workers[w], BusyOf);
  }
}
