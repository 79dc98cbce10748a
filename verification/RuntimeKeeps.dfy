// Every step of the transition system keeps the invariant.

module RuntimeKeeps {
  import opened Base
  import opened FiberTypes
  import opened TaskList
  import opened Runtime
  import opened RuntimeInvariant
  import opened RuntimeSteps
  import opened RuntimeTable
  import EventTable
  import EventTableProofs

  // ---------------------------------------------------------------- shared facts

  /** No other worker, task or registration holds what worker w has picked. */
  lemma Holds(s: System, w: nat)
    requires w < |s.workers|
    ensures WorkerWork(s.workers[w]) <= Pool(s) && WorkerWork(s.workers[w]) + EventTable.Waiting(s.table.contexts) <= Pool(s)
  {
    WorkerHolds(s, w);
    var a, b, c, d := InTasks(s.tasks), EventTable.Waiting(s.table.contexts), InTimers(s.timers), InWorkers(s.workers);
    assert Pool(s) == a + b + c + d;
  }

  // ---------------------------------------------------------------- pick

  /** A taken entry moves from the list to the worker. */
  lemma TakeTaskPool(s: System, w: nat, i: nat, s': System)
    requires w < |s.workers| && s.workers[w].phase == Head && i < |s.tasks|
    requires s' == SetPhase(s.(tasks := Without(s.tasks, i), active := s.active + 1), w, Picked(s.tasks[i].work))
    ensures Pool(s') == Pool(s) && Total(s'.workers, BusyOf) == Total(s.workers, BusyOf) + 1
  {
    var u, k := s.tasks[i].work, s'.workers[w];
    var t := s.(tasks := Without(s.tasks, i));
    PoolTakeTask(s, i);
    PoolWorker(t, w, k, multiset{}, multiset{u});
    SamePool(s', t.(workers := s'.workers));
  }

  /** The worker that takes entry i gets in nobody's way. */
  lemma TakenApart(s: System, w: nat, i: nat, k: Worker)
    requires Core(s) && w < |s.workers| && s.workers[w].phase == Head && i < |s.tasks|
    requires forall f :: s.tasks[i].work == FiberWork(f) && f in s.fibers ==> s.fibers[f].state != EXEC
    requires k == s.workers[w].(phase := Picked(s.tasks[i].work))
    ensures GoodWorker(s.fibers, k)
    ensures forall v :: 0 <= v < |s.workers| && v != w ==> Apart(k, s.workers[v]) && Apart(s.workers[v], k)
  {
    forall v | 0 <= v < |s.workers| && v != w ensures Apart(k, s.workers[v]) && Apart(s.workers[v], k) {
      TakenOnce(s, i, v);
      assert Apart(s.workers[w], s.workers[v]) && Apart(s.workers[v], s.workers[w]);
    }
    assert GoodWorker(s.fibers, s.workers[w]);
    if s.tasks[i].work.FiberWork? {
      TakenOnce(s, i, w);
      KnownFiber(s, s.tasks[i].work.fiber);
    }
  }

  /** Taking entry i, whose fiber, if it has one, is not executing. */
  lemma TakeTask(s: System, w: nat, i: nat, s': System)
    requires Core(s) && w < |s.workers| && s.workers[w].phase == Head && i < |s.tasks|
    requires forall f :: s.tasks[i].work == FiberWork(f) && f in s.fibers ==> s.fibers[f].state != EXEC
    requires s' == SetPhase(s.(tasks := Without(s.tasks, i), active := s.active + 1), w, Picked(s.tasks[i].work))
    ensures Shape(ViewOf(s')) && s'.active == Total(s'.workers, BusyOf)
  {
    var k := s'.workers[w];
    TakeTaskPool(s, w, i, s');
    TakenApart(s, w, i, k);
    MoveWorker(ViewOf(s), w, k);
    assert ViewOf(s') == ViewOf(s).(workers := s.workers[w := k]);
  }

  /** Whatever is outstanding names a known fiber. */
  lemma KnownFiber(s: System, f: FiberId)
    requires Core(s) && FiberWork(f) in Pool(s)
    ensures f in s.fibers
  {
    assert GoodFiber(ViewOf(s), f);
  }

  /** A queued fiber is not also picked by a worker. */
  lemma TakenOnce(s: System, i: nat, v: nat)
    requires Core(s) && i < |s.tasks| && v < |s.workers|
    ensures s.tasks[i].work in Pool(s)
    ensures s.tasks[i].work.FiberWork? ==> s.workers[v].phase != Picked(s.tasks[i].work)
  {
    var u := s.tasks[i].work;
    TasksTake(s.tasks, i);
    WorkerHolds(s, v);
    InPool(s, u);
    if u.FiberWork? { assert GoodFiber(ViewOf(s), u.fiber); }
  }

  /** Nothing was eligible: the worker goes idle, or leaves. */
  lemma TakeNothing(s: System, w: nat, p: Phase, s': System)
    requires Core(s) && w < |s.workers| && s.workers[w].phase == Head
    requires p == Idle(0, []) || (p == Exited && s.workers[w].idleDone)
    requires s' == SetPhase(s, w, p)
    ensures Shape(ViewOf(s')) && s'.active == Total(s'.workers, BusyOf)
  {
    var k := s'.workers[w];
    IdleHoldsNothing();
    PoolWorkerSame(s, w, k);
    forall v | 0 <= v < |s.workers| && v != w ensures Apart(k, s.workers[v]) && Apart(s.workers[v], k) {
      assert Apart(s.workers[w], s.workers[v]) && Apart(s.workers[v], s.workers[w]);
    }
    assert GoodWorker(s.fibers, s.workers[w]);
    MoveWorker(ViewOf(s), w, k);
    assert ViewOf(s') == ViewOf(s).(workers := s.workers[w := k]);
  }

  lemma IdleHoldsNothing()
    ensures multiset(Works([])) == multiset{}
  {
  }

  lemma NotExecuting(s: System, w: nat, i: nat)
    requires i == FirstEligible(s.tasks, w, Executing(s)) && i < |s.tasks|
    ensures forall f :: s.tasks[i].work == FiberWork(f) && f in s.fibers ==> s.fibers[f].state != EXEC
  {
    if s.tasks[i].work.FiberWork? {
      assert s.tasks[i].work.fiber !in Executing(s);
    }
  }

  lemma PickKeeps(s: System, w: nat)
    requires Core(s) && w < |s.workers| && s.workers[w].phase == Head
    ensures Core(Pick(s, w))
  {
    var s' := Pick(s, w);
    var i := FirstEligible(s.tasks, w, Executing(s));
    if i < |s.tasks| {
      NotExecuting(s, w, i);
      TakeTask(s, w, i, s');
    } else {
      TakeNothing(s, w, s'.workers[w].phase, s');
    }
  }

  // ---------------------------------------------------------------- enter

  lemma KeptInPool(s: System)
    ensures EventTable.Waiting(s.table.contexts) <= Pool(s)
  {
    var a, b, c, d := InTasks(s.tasks), EventTable.Waiting(s.table.contexts), InTimers(s.timers), InWorkers(s.workers);
    assert Pool(s) == a + b + c + d;
  }

  lemma SamePool(s: System, t: System)
    requires s.tasks == t.tasks && s.table == t.table && s.timers == t.timers && s.workers == t.workers
    ensures Pool(s) == Pool(t) && Pool(s) + multiset{} == Pool(s)
  {
  }

  lemma PickedLeaves(s: System, w: nat, g: FiberId, k: Worker, s': System)
    requires w < |s.workers| && s.workers[w].phase == Picked(FiberWork(g)) && WorkerWork(k) == multiset{}
    requires s'.workers == s.workers[w := k] && s'.tasks == s.tasks && s'.table == s.table && s'.timers == s.timers
    ensures Pool(s) == Pool(s') + multiset{FiberWork(g)}
    ensures Total(s'.workers, BusyOf) == Total(s.workers, BusyOf) - 1 + BusyOf(k)
  {
    PoolWorkerDrop(s, w, k, multiset{FiberWork(g)});
    SamePool(s', s.(workers := s.workers[w := k]));
  }

  lemma EnterFiberPool(s: System, w: nat, g: FiberId)
    requires w < |s.workers| && s.workers[w].phase == Picked(FiberWork(g)) && g in s.fibers
    ensures var s' := Enter(s, w, 0);
            && Pool(s) == Pool(s') + multiset{FiberWork(g)}
            && Total(s'.workers, BusyOf) - s'.active == Total(s.workers, BusyOf) - s.active
  {
    PickedLeaves(s, w, g, Enter(s, w, 0).workers[w], Enter(s, w, 0));
  }

  lemma EnterFiberKeeps(s: System, w: nat, g: FiberId)
    requires Core(s) && w < |s.workers| && s.workers[w].phase == Picked(FiberWork(g)) && g in s.fibers
    ensures Core(Enter(s, w, 0))
  {
    var s' := Enter(s, w, 0);
    EnterFiberPool(s, w, g);
    KeptInPool(s');
    if s.fibers[g].state in {TERM, EXCEPT} {
      SkipEnded(ViewOf(s), w, g, Pool(s'));
      assert ViewOf(s') == ViewOf(s).(workers := s'.workers, pool := Pool(s'));
    } else {
      SwapIn(ViewOf(s), w, g, Pool(s'));
      assert ViewOf(s') == ViewOf(s).(fibers := s'.fibers, workers := s'.workers, pool := Pool(s'));
    }
  }

  lemma EnterCallbackPool(s: System, w: nat, spare: FiberId, cb: Callback)
    requires w < |s.workers| && s.workers[w].phase == Picked(CallbackWork(cb))
    ensures var s' := Enter(s, w, spare);
            && Pool(s) == Pool(s') + (if cb.UserCallback? then multiset{CallbackWork(cb)} else multiset{})
            && Total(s'.workers, BusyOf) == Total(s.workers, BusyOf)
  {
    var s' := Enter(s, w, spare);
    var k := s'.workers[w];
    var gone := if cb.UserCallback? then multiset{CallbackWork(cb)} else multiset{};
    assert s'.workers == s.workers[w := k];
    assert WorkerWork(s.workers[w]) == WorkerWork(k) + gone;
    PoolWorkerDrop(s, w, k, gone);
    SamePool(s', s.(workers := s.workers[w := k]));
  }

  lemma NoTokens(pool: multiset<Work>, pool': multiset<Work>, cb: Callback)
    requires pool == pool' + (if cb.UserCallback? then multiset{CallbackWork(cb)} else multiset{})
    ensures forall f: FiberId :: TokensIn(pool', f) == TokensIn(pool, f)
  {
  }

  /** The callback fiber that a picked callback will start on. */
  lemma CallbackFiberFree(s: System, w: nat, spare: FiberId, g: FiberId)
    requires Core(s) && EnabledLoop(s, w, SEnter(spare)) && s.workers[w].phase.work.CallbackWork?
    requires g == match s.workers[w].cbFiber case Some(x) => x case None => spare
    ensures s.workers[w].cbFiber == Some(g) ==> g in s.fibers && s.fibers[g].state == INIT
    ensures Tokens(s, g) == 0
    ensures forall u :: 0 <= u < |s.workers| ==> s.workers[u].phase != Picked(FiberWork(g))
  {
    assert GoodFiber(ViewOf(s), g);
    assert GoodWorker(s.fibers, s.workers[w]);
    assert s.workers[w].cbFiber == Some(g) ==> ReservedIn(s.workers, g);
    forall u | 0 <= u < |s.workers| ensures s.workers[u].phase != Picked(FiberWork(g)) {
      Holds(s, u);
    }
  }

  lemma EnterCallbackKeeps(s: System, w: nat, spare: FiberId, cb: Callback)
    requires Core(s) && EnabledLoop(s, w, SEnter(spare)) && s.workers[w].phase == Picked(CallbackWork(cb))
    ensures Core(Enter(s, w, spare))
  {
    var s' := Enter(s, w, spare);
    var g := s'.workers[w].phase.fiber;
    EnterCallbackPool(s, w, spare, cb);
    CallbackFiberFree(s, w, spare, g);
    NoTokens(Pool(s), Pool(s'), cb);
    StartCallback(ViewOf(s), w, g, cb, Pool(s'));
    assert ViewOf(s') == ViewOf(s).(fibers := s'.fibers, workers := s'.workers, pool := Pool(s'));
  }

  // ---------------------------------------------------------------- return

  predicate MayEnd(s: System, w: nat)
    requires Runs(s, w)
  {
    s.workers[w].cbFiber == Some(Current(s, w)) ==> Tokens(s, Current(s, w)) == 0
  }

  /** The ways running code gives its worker back. */
  predicate MayReturn(s: System, w: nat, st: FiberState, pc: Pc) {
    && Runs(s, w) && s.workers[w].phase.body == None
    && match st
       case TERM => pc == Code && CurrentPc(s, w) == Code && MayEnd(s, w)
       case EXCEPT => pc == Code && CurrentPc(s, w) == Code && MayEnd(s, w)
       case READY => pc == Code && CurrentPc(s, w) == Code && Tokens(s, Current(s, w)) == 0
       case HOLD =>
         || (pc == Parked && CurrentPc(s, w) == Code)
         || (CurrentPc(s, w).Registered? && pc == Waiting(CurrentPc(s, w).io))
         || (pc == Sleeping && CurrentPc(s, w) == SleepArmed)
       case _ => false
  }

  lemma ReturnPool(s: System, w: nat, st: FiberState, pc: Pc)
    requires Runs(s, w) && s.workers[w].phase.body == None
    ensures var s' := Return(s, w, st, pc);
            && Pool(s') == Pool(s) + (if st == READY then multiset{FiberWork(Current(s, w))} else multiset{})
            && Total(s'.workers, BusyOf) == Total(s.workers, BusyOf) - 1
  {
    var s' := Return(s, w, st, pc);
    var t := s.(tasks := s'.tasks);
    var k := s'.workers[w];
    if st == READY { PoolPush(s, Task(FiberWork(Current(s, w)), -1)); }
    assert s'.workers == s.workers[w := k] && WorkerWork(s.workers[w]) == multiset{};
    PoolWorkerSame(t, w, k);
    SamePool(s', t.(workers := s.workers[w := k]));
    SamePool(s, s);
  }

  lemma QueuedToken(p: multiset<Work>, g: FiberId)
    ensures forall f: FiberId :: TokensIn(p + multiset{FiberWork(g)}, f) == TokensIn(p, f) + (if f == g then 1 else 0)
    ensures p + multiset{} == p
  {
  }

  lemma ReturnCounts(s: System, w: nat, st: FiberState, pc: Pc)
    requires Runs(s, w) && s.workers[w].phase.body == None
    ensures var s', g := Return(s, w, st, pc), Current(s, w);
            forall h: FiberId ::
              TokensIn(Pool(s'), h) == TokensIn(Pool(s), h) + (if h == g && st == READY then 1 else 0)
  {
    ReturnPool(s, w, st, pc);
    QueuedToken(Pool(s), Current(s, w));
  }

  /** The bookkeeping of a return, for a fiber with n tokens that is or is not the worker's own. */
  lemma ReturnOk(now: Pc, n: nat, lost: bool, reserved: bool, mine: bool, st: FiberState, pc: Pc)
    requires FiberOk(Fiber(EXEC, now), n, lost, reserved) && st in {TERM, EXCEPT, READY, HOLD}
    requires st in {TERM, EXCEPT} ==> pc == Code == now && (mine ==> n == 0)
    requires st == READY ==> pc == Code == now && n == 0
    requires st == HOLD ==>
      (pc == Parked && now == Code) || (now.Registered? && pc == Waiting(now.io)) || (pc == Sleeping && now == SleepArmed)
    ensures var final := if st in {TERM, EXCEPT} && mine then INIT else st;
            FiberOk(Fiber(final, pc), n + (if st == READY then 1 else 0), lost, final == INIT)
  {
  }

  /** The tokens with which the current fiber is left, and those of the others. */
  lemma ReturnTokens(s: System, w: nat, st: FiberState, pc: Pc)
    requires Shape(ViewOf(s)) && MayReturn(s, w, st, pc)
    ensures var s', g := Return(s, w, st, pc), Current(s, w); var final := s'.fibers[g].state;
            && (forall h: FiberId :: h != g ==> TokensIn(Pool(s'), h) == TokensIn(Pool(s), h))
            && (final == INIT ==> s.workers[w].cbFiber == Some(g)) && final != EXEC
            && FiberOk(Fiber(final, pc), TokensIn(Pool(s'), g), g in s.dropped, final == INIT)
            && (FiberWork(g) in EventTable.Waiting(s.table.contexts) ==> pc.Waiting?)
  {
    var g := Current(s, w);
    assert GoodWorker(s.fibers, s.workers[w]) && GoodFiber(ViewOf(s), g) && GoodRegistration(ViewOf(s), g);
    ReturnCounts(s, w, st, pc);
    ReturnOk(CurrentPc(s, w), TokensIn(Pool(s), g), g in s.dropped, ReservedIn(s.workers, g),
             s.workers[w].cbFiber == Some(g), st, pc);
  }

  lemma ReturnShape(s: System, w: nat, st: FiberState, pc: Pc)
    requires Shape(ViewOf(s)) && MayReturn(s, w, st, pc)
    ensures Shape(ViewOf(Return(s, w, st, pc)))
  {
    var s' := Return(s, w, st, pc);
    var g := Current(s, w);
    var final := s'.fibers[g].state;
    ReturnTokens(s, w, st, pc);
    Leave(ViewOf(s), w, final, pc, Pool(s'), s.workers[w].cbFiber == Some(g) && final != INIT);
    assert ViewOf(s') == ViewOf(s).(fibers := s'.fibers, workers := s'.workers, pool := Pool(s'));
  }

  lemma ReturnKeeps(s: System, w: nat, st: FiberState, pc: Pc)
    requires Core(s) && MayReturn(s, w, st, pc)
    ensures Core(Return(s, w, st, pc))
  {
    ReturnPool(s, w, st, pc);
    ReturnShape(s, w, st, pc);
  }

  // ---------------------------------------------------------------- code that queues work

  lemma QueueFiberKeeps(s: System, g: FiberId, thread: int)
    requires Core(s) && MaySchedule(s, g)
    ensures Core(s.(tasks := s.tasks + [Task(FiberWork(g), thread)], dropped := s.dropped - {g}))
  {
    var t := Task(FiberWork(g), thread);
    var s' := s.(tasks := s.tasks + [t], dropped := s.dropped - {g});
    PoolPush(s, t);
    SamePool(s', s.(tasks := s.tasks + [t]));
    QueueFiber(ViewOf(s), g);
    assert ViewOf(s') == ViewOf(s).(pool := Pool(s'), dropped := s.dropped - {g});
  }

  lemma QueueCallbackKeeps(s: System, cb: Callback, thread: int)
    requires Core(s) && !cb.WakeFiber?
    ensures Core(s.(tasks := s.tasks + [Task(CallbackWork(cb), thread)]))
  {
    PoolPush(s, Task(CallbackWork(cb), thread));
    SameTokens(ViewOf(s), Pool(s) + multiset{CallbackWork(cb)}, EventTable.Waiting(s.table.contexts));
  }

  lemma SpawnKeeps(s: System, g: FiberId, thread: int)
    requires Core(s) && g !in s.fibers
    ensures Core(Spawn(s, g, thread))
  {
    var s1 := s.(fibers := s.fibers[g := Fiber(INIT, Code)]);
    PoolPush(s1, Task(FiberWork(g), thread));
    assert Pool(s1) == Pool(s);
    Create(ViewOf(s), g);
  }

  // ---------------------------------------------------------------- timers

  lemma AddTimerKeeps(s: System, t: Timer)
    requires Core(s) && t.cb.UserCallback?
    ensures Core(s.(timers := s.timers + [t], nextTimer := s.nextTimer + 1))
  {
    var s' := s.(timers := s.timers + [t], nextTimer := s.nextTimer + 1);
    PoolPushTimer(s, t);
    SamePool(s', s.(timers := s.timers + [t]));
    NoTokens(Pool(s'), Pool(s), t.cb);
    SameTokens(ViewOf(s), Pool(s'), EventTable.Waiting(s.table.contexts));
    assert ViewOf(s') == ViewOf(s).(pool := Pool(s'));
  }

  lemma TakeTimerKeeps(s: System, i: nat)
    requires Core(s) && i < |s.timers| && !s.timers[i].cb.WakeFiber?
    ensures Core(s.(timers := Without(s.timers, i)))
  {
    PoolTakeTimer(s, i);
    SameTokens(ViewOf(s), Pool(s.(timers := Without(s.timers, i))), EventTable.Waiting(s.table.contexts));
  }

  /** An idle worker changes what it has seen and taken; the rest of the pool changes to match. */
  lemma IdleMoves(s: System, w: nat, k: Worker, s': System)
    requires Core(s) && Idles(s, w) && (k.phase.Idle? || k.phase == Head) && k.cbFiber == s.workers[w].cbFiber
    requires s'.workers == s.workers[w := k] && s'.fibers == s.fibers && s'.table == s.table && s'.dropped == s.dropped
    requires s'.active == s.active && TimersOk(s'.timers)
    requires forall f: FiberId :: TokensIn(Pool(s'), f) == TokensIn(Pool(s), f)
    ensures Core(s')
  {
    TotalUpdate(s.workers, w, k, BusyOf);
    forall v | 0 <= v < |s.workers| && v != w ensures Apart(k, s.workers[v]) && Apart(s.workers[v], k) {
      assert Apart(s.workers[w], s.workers[v]) && Apart(s.workers[v], s.workers[w]);
    }
    assert GoodWorker(s.fibers, s.workers[w]);
    var v := ViewOf(s).(workers := s.workers[w := k]);
    MoveWorker(ViewOf(s), w, k);
    SameTokens(v, Pool(s'), v.kept);
    assert ViewOf(s') == v.(pool := Pool(s'));
  }

  lemma OneMoreTaken(taken: seq<Callback>, cb: Callback)
    ensures multiset(Works(taken + [cb])) == multiset(Works(taken)) + multiset{CallbackWork(cb)}
  {
    assert Works(taken + [cb]) == Works(taken) + [CallbackWork(cb)];
  }

  /** A taken callback moves from its timer to the worker; a recurring timer stays as well. */
  lemma TakePool(s: System, w: nat, i: nat)
    requires Idles(s, w) && i < |s.timers|
    ensures var t := s.timers[i];
            Pool(TakeExpired(s, w, i)) == Pool(s) + (if t.recurring then multiset{CallbackWork(t.cb)} else multiset{})
  {
    var t := s.timers[i];
    var s' := TakeExpired(s, w, i);
    var s1 := s.(timers := s'.timers);
    var k := s'.workers[w];
    var more := multiset{CallbackWork(t.cb)};
    OneMoreTaken(s.workers[w].phase.taken, t.cb);
    assert WorkerWork(s.workers[w]) + more == WorkerWork(k) + multiset{};
    PoolWorker(s1, w, k, multiset{}, more);
    SamePool(s', s1.(workers := s1.workers[w := k]));
    if t.recurring { SamePool(s1, s); } else { PoolTakeTimer(s, i); }
  }

  lemma NoWakeTokens(p: multiset<Work>, cb: Callback)
    requires !cb.WakeFiber?
    ensures forall f: FiberId :: TokensIn(p + multiset{CallbackWork(cb)}, f) == TokensIn(p, f)
  {
  }

  lemma TakeExpiredKeeps(s: System, w: nat, i: nat)
    requires Core(s) && Idles(s, w) && i < |s.timers|
    ensures Core(TakeExpired(s, w, i))
  {
    var s' := TakeExpired(s, w, i);
    TakePool(s, w, i);
    if s.timers[i].recurring { NoWakeTokens(Pool(s), s.timers[i].cb); }
    IdleMoves(s, w, s'.workers[w], s');
  }

  lemma QueueTakenPool(s: System, w: nat)
    requires Idles(s, w)
    ensures Pool(QueueTaken(s, w)) == Pool(s)
  {
    var ws := Works(s.workers[w].phase.taken);
    var s' := QueueTaken(s, w);
    var s1 := s.(workers := s'.workers);
    IdleHoldsNothing();
    PoolWorkerDrop(s, w, s'.workers[w], multiset(ws));
    PoolPushAll(s1, ws);
    SamePool(s', Push(s1, ws));
  }

  lemma QueueTakenKeeps(s: System, w: nat)
    requires Core(s) && Idles(s, w)
    ensures Core(QueueTaken(s, w))
  {
    QueueTakenPool(s, w);
    IdleMoves(s, w, QueueTaken(s, w).workers[w], QueueTaken(s, w));
  }

  lemma {:induction false} DropTimerPool(timers: seq<Timer>, t: Timer) returns (gone: multiset<Work>)
    ensures gone == multiset{} || gone == multiset{CallbackWork(t.cb)}
    ensures InTimers(timers) == InTimers(DropTimer(timers, t)) + gone
  {
    if timers == [] {
      gone := multiset{};
    } else if timers[0] == t {
      gone := multiset{CallbackWork(t.cb)};
    } else {
      gone := DropTimerPool(timers[1..], t);
      assert ([timers[0]] + DropTimer(timers[1..], t))[1..] == DropTimer(timers[1..], t);
    }
  }

  lemma {:induction false} DropTimerOk(timers: seq<Timer>, t: Timer)
    ensures TimersOk(timers) ==> TimersOk(DropTimer(timers, t))
  {
    if timers != [] && timers[0] != t {
      DropTimerOk(timers[1..], t);
      var rest := DropTimer(timers[1..], t);
      assert TimersOk(timers) ==> TimersOk(timers[1..]) && TimersOk([timers[0]]);
    }
  }

  /** Cancelling a do_io timer takes no token away. */
  lemma DropIoTimerTokens(s: System, io: Io)
    ensures var s' := s.(timers := DropIoTimer(s.timers, io));
            TimersOk(s.timers) ==> TimersOk(s'.timers) && forall f: FiberId :: Tokens(s', f) == Tokens(s, f)
  {
    if io.timer.Some? {
      var t := IoTimer(io)[0];
      DropTimerOk(s.timers, t);
      var gone := DropTimerPool(s.timers, t);
      var s' := s.(timers := DropTimer(s.timers, t));
      Added(InTasks(s.tasks), EventTable.Waiting(s.table.contexts), InTimers(s'.timers), InWorkers(s.workers), gone);
      assert Pool(s) == Pool(s') + gone;
    }
  }

  // ---------------------------------------------------------------- the event table

  lemma PushEffectPool(s: System, r: EventTable.Effect)
    requires EventTable.Waiting(s.table.contexts) == EventTable.Waiting(r.table.contexts) + multiset(r.pushed)
    ensures Pool(ApplyEffect(s, r)) == Pool(s)
  {
    var t := s.(table := r.table);
    PoolTable(s, r.table, multiset{}, multiset(r.pushed));
    PoolPushAll(t, r.pushed);
    SamePool(ApplyEffect(s, r), Push(t, r.pushed));
    SamePool(s, s);
  }

  /** cancelEvent, cancelAll and dispatch: registrations become queued work. */
  lemma PushEffectKeeps(s: System, r: EventTable.Effect)
    requires Core(s) && EventTable.Valid(r.table) && r.dropped == []
    requires EventTable.Waiting(s.table.contexts) == EventTable.Waiting(r.table.contexts) + multiset(r.pushed)
    ensures Core(ApplyEffect(s, r))
  {
    var s' := ApplyEffect(s, r);
    PushEffectPool(s, r);
    SameTokens(ViewOf(s), Pool(s'), EventTable.Waiting(r.table.contexts));
    assert s.dropped + FibersOf(r.dropped) == s.dropped;
    assert ViewOf(s') == ViewOf(s).(pool := Pool(s'), kept := EventTable.Waiting(r.table.contexts));
  }

  lemma DropEffectPool(s: System, r: EventTable.Effect, u: Work)
    requires r.pushed == [] && r.dropped == [u]
    requires EventTable.Waiting(s.table.contexts) == EventTable.Waiting(r.table.contexts) + multiset{u}
    ensures Pool(s) == Pool(ApplyEffect(s, r)) + multiset{u} && ApplyEffect(s, r).tasks == s.tasks
  {
    PoolTable(s, r.table, multiset{}, multiset{u});
    SamePool(s, s);
    assert s.tasks + Wrap([]) == s.tasks;
    SamePool(ApplyEffect(s, r), s.(table := r.table));
  }

  lemma OneFiberOf(u: Work)
    ensures FibersOf([u]) == if u.FiberWork? then {u.fiber} else {}
  {
    assert [u][0] == u;
  }

  /** delEvent: one registration is thrown away. */
  lemma DropEffectKeeps(s: System, r: EventTable.Effect)
    requires Core(s) && EventTable.Valid(r.table) && r.pushed == [] && |r.dropped| == 1
    requires EventTable.Waiting(s.table.contexts) == EventTable.Waiting(r.table.contexts) + multiset(r.dropped)
    ensures Core(ApplyEffect(s, r))
  {
    var s' := ApplyEffect(s, r);
    var u := r.dropped[0];
    assert r.dropped == [u];
    DropEffectPool(s, r, u);
    OneFiberOf(u);
    Drop(ViewOf(s), Pool(s'), EventTable.Waiting(r.table.contexts), u);
    assert ViewOf(s') == ViewOf(s).(pool := Pool(s'), kept := EventTable.Waiting(r.table.contexts), dropped := s'.dropped);
  }

  lemma NoEffect(s: System)
    ensures ApplyEffect(s, EventTable.Nothing(s.table)) == s
  {
    assert s.tasks + Wrap([]) == s.tasks;
    assert s.dropped + FibersOf([]) == s.dropped;
  }

  lemma ClearOneStepKeeps(s: System, at: nat, e: Event, env: bool, push: bool)
    requires Core(s) && at < |s.table.contexts|
    ensures Core(ApplyEffect(s, EventTable.ClearOne(s.table, at, e, env, push)))
  {
    var r := EventTable.ClearOne(s.table, at, e, env, push);
    EventTableProofs.ClearOneKeeps(s.table, at, e, env, push);
    EventTableProofs.ClearOneConserves(s.table, at, e, env, push);
    if !r.ok { NoEffect(s); } else if push { PushEffectKeeps(s, r); } else { DropEffectKeeps(s, r); }
  }

  lemma CancelAllStepKeeps(s: System, at: nat, env: bool)
    requires Core(s) && at < |s.table.contexts|
    ensures Core(ApplyEffect(s, EventTable.CancelAll(s.table, at, env)))
  {
    EventTableProofs.CancelAllKeeps(s.table, at, env);
    EventTableProofs.CancelAllConserves(s.table, at, env);
    PushEffectKeeps(s, EventTable.CancelAll(s.table, at, env));
  }

  lemma DispatchEffectKeeps(s: System, at: nat, fired: Mask, env: bool)
    requires Core(s) && at < |s.table.contexts|
    ensures Core(ApplyEffect(s, EventTable.Dispatch(s.table, at, fired, env)))
  {
    EventTableProofs.DispatchKeeps(s.table, at, fired, env);
    EventTableProofs.DispatchConserves(s.table, at, fired, env);
    PushEffectKeeps(s, EventTable.Dispatch(s.table, at, fired, env));
  }

  lemma DispatchStepKeeps(s: System, w: nat, at: nat, fired: Mask, env: bool)
    requires Core(s) && EnabledEvent(s, w, SDispatch(at, fired), env)
    ensures Core(NextEvent(s, w, SDispatch(at, fired), env))
  {
    DispatchEffectKeeps(s, at, fired, env);
    ForgetSeen(ApplyEffect(s, EventTable.Dispatch(s.table, at, fired, env)), w);
  }

  lemma ForgetSeen(s: System, w: nat)
    requires Core(s) && Idles(s, w)
    ensures Core(SetPhase(s, w, Idle(0, s.workers[w].phase.taken)))
  {
    var k := s.workers[w].(phase := Idle(0, s.workers[w].phase.taken));
    PoolWorkerSame(s, w, k);
    IdleMoves(s, w, k, s.(workers := s.workers[w := k]));
  }

  /** addEvent with a callback. */
  lemma AddCallbackKeeps(s: System, at: nat, e: Event, id: nat, env: bool)
    requires Core(s) && BitFree(s.table, at, e)
    ensures Core(s.(table := EventTable.AddEvent(s.table, at, e, CallbackWork(UserCallback(id)), env).table))
  {
    var u := CallbackWork(UserCallback(id));
    var r := EventTable.AddEvent(s.table, at, e, u, env);
    var s' := s.(table := r.table);
    var more := if r.ok then multiset{u} else multiset{};
    EventTableProofs.AddEventKeeps(s.table, at, e, u, env);
    EventTableProofs.AddEventConserves(s.table, at, e, u, env);
    PoolTable(s, r.table, more, multiset{});
    SamePool(s', s');
    MoreCallbacks(ViewOf(s), Pool(s'), EventTable.Waiting(r.table.contexts), u, more);
  }

  /** contextResize moves no work. */
  lemma GrowKeeps(s: System, fd: nat)
    requires Core(s) && fd >= EventTable.INITIAL_CONTEXTS
    ensures var t := s.(table := EventTable.GrowFor(s.table, fd));
            Core(t) && ViewOf(t) == ViewOf(s) && forall f: FiberId :: Tokens(t, f) == Tokens(s, f)
  {
    EventTableProofs.ResizeKeeps(s.table, fd * 3 / 2);
  }

  // ---------------------------------------------------------------- do_io and sleep

  lemma OnWorker(s: System, w: nat)
    requires Core(s) && Runs(s, w)
    ensures s.fibers[Current(s, w)].state == EXEC
    ensures GoodFiber(ViewOf(s), Current(s, w)) && GoodRegistration(ViewOf(s), Current(s, w))
  {
    assert GoodWorker(s.fibers, s.workers[w]);
  }

  /** Positions in which a running fiber has no wake-up token of its own making. */
  predicate Plain(pc: Pc) {
    || pc == Code || pc.Armed? || pc.Growing? || pc.Located? || pc.Resumed? || pc.Deciding?
    || pc.TimedOut? || pc.Cancelling?
  }

  /** The current fiber moves from one such position to another, while the timers change without
      touching any token. */
  lemma StepAlong(s: System, w: nat, s': System, pc: Pc)
    requires Core(s) && Runs(s, w) && s.workers[w].phase.body == None
    requires Plain(CurrentPc(s, w)) && Plain(pc)
    requires TimersOk(s'.timers) && forall f: FiberId :: Tokens(s', f) == Tokens(s, f)
    requires s'.table == s.table && s'.active == s.active && s'.workers == s.workers && s'.dropped == s.dropped
    requires s'.fibers == s.fibers[Current(s, w) := Fiber(EXEC, pc)]
    ensures Core(s')
  {
    OnWorker(s, w);
    forall h: FiberId ensures TokensIn(Pool(s'), h) == TokensIn(Pool(s), h) { assert Tokens(s', h) == Tokens(s, h); }
    Continue(ViewOf(s), w, pc, Pool(s'), EventTable.Waiting(s.table.contexts));
    assert ViewOf(s') == ViewOf(s).(fibers := s'.fibers, pool := Pool(s'));
  }

  lemma MoveAlong(s: System, w: nat, pc: Pc)
    requires Core(s) && Runs(s, w) && s.workers[w].phase.body == None && Plain(CurrentPc(s, w)) && Plain(pc)
    ensures Core(SetPc(s, w, pc))
  {
    var s' := SetPc(s, w, pc);
    OnWorker(s, w);
    SamePool(s', s);
    StepAlong(s, w, s', pc);
  }

  function CurrentPcIo(s: System, w: nat): Io
    requires Runs(s, w)
  {
    match CurrentPc(s, w)
    case Armed(io) => io
    case Registered(io) => io
    case Waiting(io) => io
    case Resumed(io) => io
    case Deciding(io) => io
    case _ => Io(0, READ, 0, None)
  }

  lemma IoTimerTokens(s: System, io: Io)
    ensures var s' := s.(timers := s.timers + IoTimer(io));
            && (TimersOk(s.timers) ==> TimersOk(s'.timers))
            && forall f: FiberId :: Tokens(s', f) == Tokens(s, f)
  {
    if io.timer.Some? { PoolPushTimer(s, IoTimer(io)[0]); } else { assert s.timers + IoTimer(io) == s.timers; }
  }

  lemma BeginIoKeeps(s: System, w: nat, fd: nat, e: Event, timed: bool)
    requires Core(s) && Acting(s, w)
    ensures Core(BeginIo(s, w, fd, e, timed))
  {
    var s' := BeginIo(s, w, fd, e, timed);
    var io := CurrentPcIo(s', w);
    OnWorker(s, w);
    IoTimerTokens(s, io);
    SamePool(s', s.(timers := s.timers + IoTimer(io)));
    StepAlong(s, w, s', Armed(io));
  }

  lemma CancelIoTimerKeeps(s: System, w: nat)
    requires Core(s) && Runs(s, w) && s.workers[w].phase.body == None && CurrentPc(s, w).Resumed?
    ensures Core(CancelIoTimer(s, w))
  {
    var s' := CancelIoTimer(s, w);
    var io := CurrentPc(s, w).io;
    OnWorker(s, w);
    DropIoTimerTokens(s, io);
    SamePool(s', s.(timers := DropIoTimer(s.timers, io)));
    StepAlong(s, w, s', Deciding(io));
  }

  lemma DecideKeeps(s: System, w: nat, again: bool, timed: bool)
    requires Core(s) && Runs(s, w) && s.workers[w].phase.body == None && CurrentPc(s, w).Deciding?
    ensures Core(Decide(s, w, again, timed))
  {
    var s' := Decide(s, w, again, timed);
    OnWorker(s, w);
    if CurrentPc(s', w) == Code {
      SamePool(s', s);
      StepAlong(s, w, s', Code);
    } else {
      var io := CurrentPcIo(s', w);
      IoTimerTokens(s, io);
      SamePool(s', s.(timers := s.timers + IoTimer(io)));
      StepAlong(s, w, s', Armed(io));
    }
  }

  lemma LocateIoKeeps(s: System, w: nat)
    requires Core(s) && EnabledIo(s, w, SLocate)
    ensures Core(LocateIo(s, w))
  {
    match EventTable.Locate(s.table, CurrentPc(s, w).io.fd)
    case Some(at) => MoveAlong(s, w, Located(CurrentPc(s, w).io, at));
    case None => MoveAlong(s, w, Growing(CurrentPc(s, w).io));
  }

  lemma GrowIoKeeps(s: System, w: nat)
    requires Core(s) && EnabledIo(s, w, SGrow) && PcOk(CurrentPc(s, w), s.table.contexts)
    ensures Core(GrowIo(s, w))
  {
    var io := CurrentPc(s, w).io;
    var t := EventTable.GrowFor(s.table, io.fd);
    GrowKeeps(s, io.fd);
    MoveAlong(s.(table := t), w, Located(io, EventTable.Locate(t, io.fd).value));
  }

  lemma RegisterFails(s: System, w: nat, env: bool)
    requires Core(s) && EnabledIo(s, w, SRegister(env))
    requires !EventTable.AddEvent(s.table, CurrentPc(s, w).at, CurrentPc(s, w).io.event, FiberWork(Current(s, w)), env).ok
    ensures Core(Register(s, w, env))
  {
    var s' := Register(s, w, env);
    var io := CurrentPc(s, w).io;
    OnWorker(s, w);
    DropIoTimerTokens(s, io);
    SamePool(s', s.(timers := DropIoTimer(s.timers, io)));
    StepAlong(s, w, s', Code);
  }

  lemma RegisterPool(s: System, w: nat, env: bool)
    requires EventTable.Valid(s.table) && EnabledIo(s, w, SRegister(env))
    requires EventTable.AddEvent(s.table, CurrentPc(s, w).at, CurrentPc(s, w).io.event, FiberWork(Current(s, w)), env).ok
    ensures var s' := Register(s, w, env); var u := FiberWork(Current(s, w)); var io := CurrentPc(s, w).io;
            && s' == SetPc(s.(table := s'.table), w, Registered(io)) && EventTable.Valid(s'.table)
            && Pool(s') == Pool(s) + multiset{u}
            && EventTable.Waiting(s'.table.contexts) == EventTable.Waiting(s.table.contexts) + multiset{u}
  {
    var s' := Register(s, w, env);
    var pc := CurrentPc(s, w);
    var u := FiberWork(Current(s, w));
    EventTableProofs.AddEventKeeps(s.table, pc.at, pc.io.event, u, env);
    EventTableProofs.AddEventConserves(s.table, pc.at, pc.io.event, u, env);
    PoolTable(s, s'.table, multiset{u}, multiset{});
    SamePool(s', s.(table := s'.table));
  }

  lemma RegisterSucceeds(s: System, w: nat, env: bool)
    requires Core(s) && EnabledIo(s, w, SRegister(env))
    requires EventTable.AddEvent(s.table, CurrentPc(s, w).at, CurrentPc(s, w).io.event, FiberWork(Current(s, w)), env).ok
    ensures Core(Register(s, w, env))
  {
    var s' := Register(s, w, env);
    OnWorker(s, w);
    RegisterPool(s, w, env);
    QueuedToken(Pool(s), Current(s, w));
    Continue(ViewOf(s), w, Registered(CurrentPc(s, w).io), Pool(s'), EventTable.Waiting(s'.table.contexts));
    assert ViewOf(s') == ViewOf(s).(fibers := s'.fibers, pool := Pool(s'), kept := EventTable.Waiting(s'.table.contexts));
  }

  lemma RegisterKeeps(s: System, w: nat, env: bool)
    requires Core(s) && EnabledIo(s, w, SRegister(env))
    ensures Core(Register(s, w, env))
  {
    var pc := CurrentPc(s, w);
    if EventTable.AddEvent(s.table, pc.at, pc.io.event, FiberWork(Current(s, w)), env).ok {
      RegisterSucceeds(s, w, env);
    } else {
      RegisterFails(s, w, env);
    }
  }

  lemma SleepToken(p: multiset<Work>, g: FiberId)
    ensures forall f: FiberId ::
              TokensIn(p + multiset{CallbackWork(WakeFiber(g))}, f) == TokensIn(p, f) + (if f == g then 1 else 0)
  {
  }

  lemma BeginSleepPool(s: System, w: nat)
    requires Runs(s, w)
    ensures Pool(BeginSleep(s, w)) == Pool(s) + multiset{CallbackWork(WakeFiber(Current(s, w)))}
  {
    var t := Timer(s.nextTimer, WakeFiber(Current(s, w)), false);
    PoolPushTimer(s, t);
    SamePool(BeginSleep(s, w), s.(timers := s.timers + [t]));
  }

  lemma BeginSleepKeeps(s: System, w: nat)
    requires Core(s) && Acting(s, w) && Tokens(s, Current(s, w)) == 0
    ensures Core(BeginSleep(s, w))
  {
    var s' := BeginSleep(s, w);
    OnWorker(s, w);
    BeginSleepPool(s, w);
    SleepToken(Pool(s), Current(s, w));
    Continue(ViewOf(s), w, SleepArmed, Pool(s'), EventTable.Waiting(s.table.contexts));
    assert ViewOf(s') == ViewOf(s).(fibers := s'.fibers, pool := Pool(s'));
  }

  // ---------------------------------------------------------------- timer bodies

  lemma SameTokensAfterBody(p: multiset<Work>, cb: Callback)
    ensures forall f: FiberId :: TokensIn(p + multiset{CallbackWork(cb)}, f) ==
              TokensIn(if cb.WakeFiber? then p + multiset{FiberWork(cb.fiber)} else p, f)
  {
  }

  lemma BodyPool(s: System, w: nat, ts: seq<Task>, t: System)
    requires Runs(s, w) && s.workers[w].phase.body.Some?
    requires ts == BodyTasks(s.workers[w].phase.body.value)
    requires t == SetPhase(s, w, Running(Current(s, w), None)).(tasks := s.tasks + ts)
    ensures forall f: FiberId :: TokensIn(Pool(t), f) == TokensIn(Pool(s), f)
    ensures Total(t.workers, BusyOf) == Total(s.workers, BusyOf)
  {
    var cb := s.workers[w].phase.body.value;
    var k := t.workers[w];
    var s1 := s.(workers := s.workers[w := k]);
    PoolWorkerDrop(s, w, k, multiset{CallbackWork(cb)});
    SameTokensAfterBody(Pool(s1), cb);
    if cb.WakeFiber? { PoolPush(s1, ts[0]); } else { assert s.tasks + ts == s.tasks; }
    SamePool(t, s1.(tasks := s.tasks + ts));
  }

  function BodyTasks(cb: Callback): seq<Task> {
    match cb case WakeFiber(g) => [Task(FiberWork(g), -1)] case _ => []
  }

  /** A body leaves the worker; what it queues carries the same tokens. */
  lemma BodyLeaves(s: System, w: nat, ts: seq<Task>, t: System)
    requires Core(s) && Runs(s, w) && s.workers[w].phase.body.Some? && !s.workers[w].phase.body.value.UserCallback?
    requires ts == BodyTasks(s.workers[w].phase.body.value)
    requires t == SetPhase(s, w, Running(Current(s, w), None)).(tasks := s.tasks + ts)
    ensures Core(t)
  {
    OnWorker(s, w);
    BodyPool(s, w, ts, t);
    BodyDone(ViewOf(s), w, Pool(t));
    assert ViewOf(t) == ViewOf(s).(workers := t.workers, pool := Pool(t));
  }

  lemma RunBodyKeeps(s: System, w: nat)
    requires Core(s) && Runs(s, w) && s.workers[w].phase.body.Some?
    ensures Core(RunBody(s, w))
  {
    var cb := s.workers[w].phase.body.value;
    var ts := BodyTasks(cb);
    var t := SetPhase(s, w, Running(Current(s, w), None)).(tasks := s.tasks + ts);
    var s' := RunBody(s, w);
    OnWorker(s, w);
    assert GoodWorker(s.fibers, s.workers[w]);
    BodyLeaves(s, w, ts, t);
    if cb.IoTimeout? {
      assert s.tasks + ts == s.tasks;
      if cb.info in s.infos && !s.infos[cb.info] {
        SamePool(s', t);
        StepAlong(t, w, s', TimedOut(cb.fd, cb.event));
      }
    }
  }

  lemma LocateTimedOutKeeps(s: System, w: nat)
    requires Core(s) && EnabledTimer(s, w, SLocateTimedOut)
    ensures Core(LocateTimedOut(s, w))
  {
    match EventTable.Locate(s.table, CurrentPc(s, w).fd)
    case Some(at) => MoveAlong(s, w, Cancelling(at, CurrentPc(s, w).event));
    case None => MoveAlong(s, w, Code);
  }

  lemma CancelTimedOutKeeps(s: System, w: nat, env: bool)
    requires Core(s) && EnabledTimer(s, w, SCancelTimedOut(env))
    ensures Core(CancelTimedOut(s, w, env))
  {
    var s' := CancelTimedOut(s, w, env);
    var pc := CurrentPc(s, w);
    var t := ApplyEffect(s, EventTable.ClearOne(s.table, pc.at, pc.event, env, true));
    OnWorker(s, w);
    ClearOneStepKeeps(s, pc.at, pc.event, env, true);
    SamePool(s', t);
    StepAlong(t, w, s', Code);
  }

  // ---------------------------------------------------------------- idle and stop

  lemma IdleMoveKeeps(s: System, w: nat, k: Worker)
    requires Core(s) && Idles(s, w) && s.workers[w].phase.taken == [] && k.cbFiber == s.workers[w].cbFiber
    requires k.phase == Head || (k.phase.Idle? && k.phase.taken == [])
    ensures Core(s.(workers := s.workers[w := k]))
  {
    IdleHoldsNothing();
    PoolWorkerSame(s, w, k);
    IdleMoves(s, w, k, s.(workers := s.workers[w := k]));
  }

  lemma StopKeeps(s: System)
    requires Core(s)
    ensures Core(s.(autoStop := true, stopping := true))
  {
    var s' := s.(autoStop := true, stopping := true);
    SamePool(s', s);
    assert ViewOf(s') == ViewOf(s);
  }

  // ---------------------------------------------------------------- the theorem

  lemma LoopKeeps(s: System, w: nat, step: LoopStep)
    requires Core(s) && EnabledLoop(s, w, step)
    ensures Core(NextLoop(s, w, step))
  {
    match step
    case SPick => PickKeeps(s, w);
    case SEnter(spare) =>
      if s.workers[w].phase.work.FiberWork? {
        assert Enter(s, w, spare) == Enter(s, w, 0);
        EnterFiberKeeps(s, w, s.workers[w].phase.work.fiber);
      } else {
        EnterCallbackKeeps(s, w, spare, s.workers[w].phase.work.cb);
      }
    case SFinish(exception) => ReturnKeeps(s, w, if exception then EXCEPT else TERM, Code);
    case SYieldReady => ReturnKeeps(s, w, READY, Code);
    case SPark => ReturnKeeps(s, w, HOLD, Parked);
    case SYieldIo => ReturnKeeps(s, w, HOLD, Waiting(CurrentPc(s, w).io));
    case SYieldSleep => ReturnKeeps(s, w, HOLD, Sleeping);
  }

  lemma QueueStepKeeps(s: System, w: nat, step: QueueStep)
    requires Core(s) && EnabledQueue(s, w, step)
    ensures Core(NextQueue(s, w, step))
  {
    match step
    case SSpawn(g, thread) => SpawnKeeps(s, g, thread);
    case SScheduleFiber(g, thread) => QueueFiberKeeps(s, g, thread);
    case SScheduleCallback(id, thread) => QueueCallbackKeeps(s, UserCallback(id), thread);
    case SAddTimer(id, recurring) => AddTimerKeeps(s, Timer(s.nextTimer, UserCallback(id), recurring));
    case SCancelTimer(i) => TakeTimerKeeps(s, i);
  }

  lemma EventKeeps(s: System, w: nat, step: EventStep, env: bool)
    requires Core(s) && EnabledEvent(s, w, step, env)
    ensures Core(NextEvent(s, w, step, env))
  {
    match step
    case SGrowFor(fd) => GrowKeeps(s, fd);
    case SAddCallbackEvent(at, e, id) => AddCallbackKeeps(s, at, e, id, env);
    case SDelEvent(at, e) => ClearOneStepKeeps(s, at, e, env, false);
    case SCancelEvent(at, e) => ClearOneStepKeeps(s, at, e, env, true);
    case SCancelAll(at) => CancelAllStepKeeps(s, at, env);
    case SDispatch(at, fired) => DispatchStepKeeps(s, w, at, fired, env);
  }

  lemma IoKeeps(s: System, w: nat, step: IoStep)
    requires Core(s) && EnabledIo(s, w, step) && PcOk(CurrentPc(s, w), s.table.contexts)
    ensures Core(NextIo(s, w, step))
  {
    match step
    case SBeginIo(fd, e, timed) => BeginIoKeeps(s, w, fd, e, timed);
    case SLocate => LocateIoKeeps(s, w);
    case SGrow => GrowIoKeeps(s, w);
    case SRegister(env) => RegisterKeeps(s, w, env);
    case SCancelIoTimer => CancelIoTimerKeeps(s, w);
    case SDecide(again, timed) => DecideKeeps(s, w, again, timed);
  }

  lemma TimerKeeps(s: System, w: nat, step: TimerStep)
    requires Core(s) && EnabledTimer(s, w, step)
    ensures Core(NextTimer(s, w, step))
  {
    match step
    case SBeginSleep => BeginSleepKeeps(s, w);
    case SRunBody => RunBodyKeeps(s, w);
    case SLocateTimedOut => LocateTimedOutKeeps(s, w);
    case SCancelTimedOut(env) => CancelTimedOutKeeps(s, w, env);
    case STake(i) => TakeExpiredKeeps(s, w, i);
    case SQueueTaken => QueueTakenKeeps(s, w);
  }

  lemma OuterKeeps(s: System, step: OuterStep)
    requires Core(s) && EnabledOuter(s, step)
    ensures Core(NextOuter(s, step))
  {
    match step
    case SLookTimers(w) => IdleMoveKeeps(s, w, s.workers[w].(phase := Idle(1, [])));
    case SLookPending(w) => IdleMoveKeeps(s, w, s.workers[w].(phase := Idle(2, [])));
    case SIdleExit(w) => IdleMoveKeeps(s, w, Worker(Head, s.workers[w].cbFiber, true));
    case SIdleReturn(w) => IdleMoveKeeps(s, w, s.workers[w].(phase := Head));
    case SStop => StopKeeps(s);
    case SOuterCallback(id, thread) => QueueCallbackKeeps(s, UserCallback(id), thread);
    case SOuterFiber(g, thread) => SpawnKeeps(s, g, thread);
  }

  /** Every enabled step keeps the invariant. */
  lemma StepKeeps(s: System, step: Step)
    requires Inv(s) && Enabled(s, step)
    ensures Inv(Next(s, step))
  {
    PcsKeep(s, step);
    match step
    case Loop(w, l) => LoopKeeps(s, w, l);
    case Queue(w, q) => QueueStepKeeps(s, w, q);
    case Events(w, e, env) => EventKeeps(s, w, e, env);
    case Ios(w, i) => IoKeeps(s, w, i);
    case Timers(w, t) => TimerKeeps(s, w, t);
    case Outer(o) => OuterKeeps(s, o);
  }
}
