// Runs that show why the rules and conditions of the other files are needed.

module RuntimeWindows {
  import opened Base
  import opened FiberTypes
  import opened TaskList
  import opened Runtime
  import opened RuntimeInvariant
  import opened RuntimeTheorems
  import EventTable
  import EventTableProofs

  /** A step of a run that is followed state by state. */
  lemma Onward(s: System, step: Step, s': System)
    requires Reachable(s) && Enabled(s, step) && Next(s, step) == s'
    ensures Reachable(s')
  {
    ReachableStep(s, step);
  }

  const FIRST := Worker(Head, None, false)

  /** A reachable state of two workers, without registrations. */
  function Two(a: Worker, b: Worker, tasks: seq<Task>, active: int, fibers: map<FiberId, Fiber>, timers: seq<Timer>): System {
    Init(2).(workers := [a, b], tasks := tasks, active := active, fibers := fibers, timers := timers, nextTimer := |timers|)
  }

  lemma Started()
    ensures Reachable(Two(FIRST, FIRST, [], 0, map[], []))
  {
    ReachableInit(2);
    assert Init(2).workers == [FIRST, FIRST];
  }

  /** Fiber 7 has been queued by an outside thread. */
  lemma FiberQueued(t: Task) returns (s: System)
    requires t == Task(FiberWork(7), -1)
    ensures Enabled(Init(2), Outer(SOuterFiber(7, -1))) && s == Next(Init(2), Outer(SOuterFiber(7, -1))) && Reachable(s)
    ensures s == Two(FIRST, FIRST, [t], 0, map[7 := Fiber(INIT, Code)], [])
  {
    ReachableInit(2);
    assert Init(2).workers == [FIRST, FIRST] && Init(2).tasks + [t] == [t];
    s := Two(FIRST, FIRST, [t], 0, map[7 := Fiber(INIT, Code)], []);
    assert Init(2).fibers[7 := Fiber(INIT, Code)] == s.fibers;
    Onward(Init(2), Outer(SOuterFiber(7, -1)), s);
  }

  /** It has been taken by worker w. */
  lemma FiberPicked(w: nat) returns (s: System)
    requires w < 2
    ensures Reachable(s)
    ensures var k := Worker(Picked(FiberWork(7)), None, false);
            s == Two(if w == 0 then k else FIRST, if w == 1 then k else FIRST, [], 1, map[7 := Fiber(INIT, Code)], [])
  {
    var s1 := FiberQueued(Task(FiberWork(7), -1));
    assert Executing(s1) == {};
    var k := Worker(Picked(FiberWork(7)), None, false);
    s := Two(if w == 0 then k else FIRST, if w == 1 then k else FIRST, [], 1, map[7 := Fiber(INIT, Code)], []);
    assert s1.workers[w := k] == s.workers;
    assert Without(s1.tasks, 0) == [];
    Onward(s1, Loop(w, SPick), s);
  }

  lemma NoTokens(s: System, a: Worker, b: Worker, active: int, fibers: map<FiberId, Fiber>, f: FiberId)
    requires s == Two(a, b, [], active, fibers, []) && WorkerWork(a) == multiset{} && WorkerWork(b) == multiset{}
    ensures Tokens(s, f) == 0
  {
    EventTableProofs.InitialValid();
    SumOne(a, WorkerWork);
    SumOne(b, WorkerWork);
    SumAppend([a], [b], WorkerWork);
    assert [a] + [b] == [a, b];
    assert InTasks([]) == multiset{} && InTimers([]) == multiset{};
  }

  const SLEEPER := Timer(0, WakeFiber(7), false)
  const ASLEEP := map[7 := Fiber(HOLD, Sleeping)]

  /** The fiber picked by worker w runs and goes to sleep, whatever the other worker does, as long as
      that holds no work. */
  lemma FallsAsleep(w: nat, other: Worker) returns (s: System)
    requires w < 2 && WorkerWork(other) == multiset{}
    requires var k := Worker(Running(7, None), None, false);
      Reachable(Two(if w == 0 then k else other, if w == 1 then k else other, [], 1, map[7 := Fiber(EXEC, Code)], []))
    ensures Reachable(s)
    ensures s == Two(if w == 0 then FIRST else other, if w == 1 then FIRST else other, [], 0, ASLEEP, [SLEEPER])
  {
    var k := Worker(Running(7, None), None, false);
    var a, b := if w == 0 then k else other, if w == 1 then k else other;
    var s4 := SetsTimer(w, k, a, b);
    s := Two(if w == 0 then FIRST else other, if w == 1 then FIRST else other, [], 0, ASLEEP, [SLEEPER]);
    assert s4.workers[w := FIRST] == s.workers;
    assert s4.fibers[7 := Fiber(HOLD, Sleeping)] == s.fibers;
    Onward(s4, Loop(w, SYieldSleep), s);
  }

  lemma SetsTimer(w: nat, k: Worker, a: Worker, b: Worker) returns (s4: System)
    requires w < 2 && k == Worker(Running(7, None), None, false) && (if w == 0 then a else b) == k
    requires WorkerWork(a) == multiset{} && WorkerWork(b) == multiset{}
    requires Reachable(Two(a, b, [], 1, map[7 := Fiber(EXEC, Code)], []))
    ensures Reachable(s4) && s4 == Two(a, b, [], 1, map[7 := Fiber(EXEC, SleepArmed)], [SLEEPER])
  {
    var s3 := Two(a, b, [], 1, map[7 := Fiber(EXEC, Code)], []);
    s4 := Two(a, b, [], 1, map[7 := Fiber(EXEC, SleepArmed)], [SLEEPER]);
    NoTokens(s3, a, b, 1, map[7 := Fiber(EXEC, Code)], 7);
    assert s3.timers + [SLEEPER] == [SLEEPER];
    assert s3.fibers[7 := Fiber(EXEC, SleepArmed)] == s4.fibers;
    Onward(s3, Timers(w, SBeginSleep), s4);
  }

  lemma FiberRuns(w: nat) returns (s: System)
    requires w < 2
    ensures Reachable(s)
    ensures var k := Worker(Running(7, None), None, false);
            s == Two(if w == 0 then k else FIRST, if w == 1 then k else FIRST, [], 1, map[7 := Fiber(EXEC, Code)], [])
  {
    var s2 := FiberPicked(w);
    var k := Worker(Running(7, None), None, false);
    s := Two(if w == 0 then k else FIRST, if w == 1 then k else FIRST, [], 1, map[7 := Fiber(EXEC, Code)], []);
    assert s2.workers[w := k] == s.workers;
    assert s2.fibers[7 := Fiber(EXEC, Code)] == s.fibers;
    Onward(s2, Loop(w, SEnter(0)), s);
  }

  function Stopped(s: System): System { s.(autoStop := true, stopping := true) }

  lemma GoesIdle(s: System, w: nat, s': System)
    requires Reachable(s) && w < |s.workers| && s.workers[w] == FIRST && s.tasks == []
    requires s' == s.(workers := s.workers[w := Worker(Idle(0, []), None, false)])
    ensures Reachable(s')
  {
    Onward(s, Loop(w, SPick), s');
  }

  /** The window between taking expired callbacks and queueing them: fiber 7 sleeps, its timer has
      been taken by an idle worker, and stopping() holds, but not for good; another worker's idle fiber
      can end meanwhile. */
  lemma TakenWindow() returns (s: System)
    ensures Reachable(s) && Stopping(s) && !NoneTaken(s) && !StopsForGood(s)
    ensures 7 in s.fibers && s.fibers[7] == Fiber(HOLD, Sleeping) && 7 !in s.dropped
    ensures Enabled(s, Timers(0, SQueueTaken)) && !Stopping(Next(s, Timers(0, SQueueTaken)))
  {
    var s3 := FiberRuns(0);
    var s5 := FallsAsleep(0, FIRST);
    var s6 := Stopped(s5);
    Onward(s5, Outer(SStop), s6);
    var s7 := Stopped(Two(Worker(Idle(0, []), None, false), FIRST, [], 0, ASLEEP, [SLEEPER]));
    assert s6.workers[0 := Worker(Idle(0, []), None, false)] == s7.workers;
    GoesIdle(s6, 0, s7);
    s := s7.(workers := [Worker(Idle(0, [WakeFiber(7)]), None, false), FIRST], timers := []);
    assert s7.workers[0 := Worker(Idle(0, [WakeFiber(7)]), None, false)] == s.workers;
    assert Without(s7.timers, 0) == [];
    assert [] + [WakeFiber(7)] == [WakeFiber(7)];
    Onward(s7, Timers(0, STake(0)), s);
    ReachableInv(s);
    assert s.workers[0].phase.taken != [];
    StoppingFinalExactly(s);
    assert |Next(s, Timers(0, SQueueTaken)).tasks| == 1;
  }

  /** The window between the reads of stopping(): worker 0 sees no timer, then fiber 7 adds one and
      goes to sleep, then worker 0 sees no pending event and nothing queued, and leaves run() for good,
      although a sleeper is still to be woken. */
  lemma LeavesTooEarly() returns (s: System)
    ensures Reachable(s) && 0 < |s.workers| && s.workers[0].phase == Exited && !Stopping(s)
    ensures s.timers == [SLEEPER] && 7 in s.fibers && s.fibers[7] == Fiber(HOLD, Sleeping)
  {
    var k := Worker(Running(7, None), None, false);
    var seen := Worker(Idle(1, []), None, false);
    var s3 := FiberRuns(1);
    var s4 := Two(Worker(Idle(0, []), None, false), k, [], 1, map[7 := Fiber(EXEC, Code)], []);
    assert s3.workers[0 := Worker(Idle(0, []), None, false)] == s4.workers;
    GoesIdle(s3, 0, s4);
    var s5 := Two(seen, k, [], 1, map[7 := Fiber(EXEC, Code)], []);
    assert s4.workers[0 := seen] == s5.workers;
    Onward(s4, Outer(SLookTimers(0)), s5);
    var s7 := FallsAsleep(1, seen);
    Onward(s7, Outer(SStop), Stopped(s7));
    s := LookedTwice(Stopped(s7), seen);
  }

  lemma LookedTwice(s8: System, seen: Worker) returns (s: System)
    requires seen == Worker(Idle(1, []), None, false) && Reachable(s8)
    requires s8 == Stopped(Two(seen, FIRST, [], 0, ASLEEP, [SLEEPER]))
    ensures Reachable(s) && s == s8.(workers := [Worker(Exited, None, true), FIRST])
  {
    var s9 := s8.(workers := [Worker(Idle(2, []), None, false), FIRST]);
    assert s8.workers[0 := Worker(Idle(2, []), None, false)] == s9.workers;
    Onward(s8, Outer(SLookPending(0)), s9);
    var s10 := s8.(workers := [Worker(Head, None, true), FIRST]);
    assert s9.workers[0 := Worker(Head, None, true)] == s10.workers;
    Onward(s9, Outer(SIdleExit(0)), s10);
    s := s8.(workers := [Worker(Exited, None, true), FIRST]);
    assert s10.workers[0 := Worker(Exited, None, true)] == s.workers;
    Onward(s10, Loop(0, SPick), s);
  }

  // ---------------------------------------------------------------- scheduling by hand

  lemma ThreeSteps(s: System, a: Step, s1: System, b: Step, s2: System, c: Step, s3: System)
    requires Enabled(s, a) && Next(s, a) == s1 && Enabled(s1, b) && Next(s1, b) == s2 && Enabled(s2, c) && Next(s2, c) == s3
    ensures Legal(s, [a, b, c]) && After(s, [a, b, c]) == s3
  {
    assert Legal(s, []) && After(s, []) == s;
    RunMore(s, [], a);
    assert [] + [a] == [a] && [a] + [b] == [a, b] && [a, b] + [c] == [a, b, c];
    RunMore(s, [a], b);
    RunMore(s, [a, b], c);
  }

  /** The rule that a fiber is scheduled by hand only when it has no token is needed: fiber 7 is
      scheduled from outside and once more before it has run; two workers pick it, and the second swapIn
      finds it executing. */
  lemma DoubleScheduleBreaks() returns (once: System, twice: System, run: seq<Step>, last: System)
    ensures Enabled(Init(2), Outer(SOuterFiber(7, -1))) && once == Next(Init(2), Outer(SOuterFiber(7, -1)))
    ensures Tokens(once, 7) == 1 && twice == once.(tasks := once.tasks + [Task(FiberWork(7), -1)])
    ensures Legal(twice, run) && After(twice, run) == last
    ensures |last.workers| == 2 && last.workers[1].phase == Picked(FiberWork(7))
    ensures 7 in last.fibers && last.fibers[7].state == EXEC
  {
    var t := Task(FiberWork(7), -1);
    once := FiberQueued(t);
    OneToken(once, t);
    twice := Two(FIRST, FIRST, [t, t], 0, map[7 := Fiber(INIT, Code)], []);
    assert once.tasks + [t] == [t, t];
    run, last := PickedTwice(twice, t);
  }

  lemma PickedTwice(twice: System, t: Task) returns (run: seq<Step>, last: System)
    requires t == Task(FiberWork(7), -1) && twice == Two(FIRST, FIRST, [t, t], 0, map[7 := Fiber(INIT, Code)], [])
    ensures Legal(twice, run) && After(twice, run) == last
    ensures |last.workers| == 2 && last.workers[1].phase == Picked(FiberWork(7))
    ensures 7 in last.fibers && last.fibers[7].state == EXEC
  {
    var p := Worker(Picked(FiberWork(7)), None, false);
    var r := Worker(Running(7, None), None, false);
    assert Without([t, t], 0) == [t] && Without([t], 0) == [];
    assert Executing(twice) == {};
    var s1 := Two(p, FIRST, [t], 1, map[7 := Fiber(INIT, Code)], []);
    assert Executing(s1) == {};
    var s2 := Two(p, p, [], 2, map[7 := Fiber(INIT, Code)], []);
    last := Two(r, p, [], 2, map[7 := Fiber(EXEC, Code)], []);
    assert twice.workers[0 := p] == s1.workers && s1.workers[1 := p] == s2.workers && s2.workers[0 := r] == last.workers;
    assert s2.fibers[7 := Fiber(EXEC, Code)] == last.fibers;
    run := [Loop(0, SPick), Loop(1, SPick), Loop(0, SEnter(0))];
    ThreeSteps(twice, Loop(0, SPick), s1, Loop(1, SPick), s2, Loop(0, SEnter(0)), last);
  }

  /** The rule that an ended callback fiber is not scheduled by hand is needed too, although it has no
      token: another worker swaps it in, and the next callback of its own worker finds it executing where
      Fiber::reset asserts that it is not. */
  lemma CallbackFiberBreaks() returns (s: System, again: System, run: seq<Step>, last: System)
    ensures Reachable(s) && 5 in s.fibers && s.fibers[5].state == INIT && Tokens(s, 5) == 0 && ReservedIn(s.workers, 5)
    ensures again == s.(tasks := s.tasks + [Task(FiberWork(5), -1)])
    ensures Legal(again, run) && After(again, run) == last
    ensures |last.workers| == 2 && last.workers[0].phase == Picked(CallbackWork(UserCallback(2)))
    ensures last.workers[0].cbFiber == Some(5) && 5 in last.fibers && last.fibers[5].state == EXEC
  {
    s := CallbackEnded();
    var k := Worker(Head, Some(5), false);
    var c, f := Task(CallbackWork(UserCallback(2)), 0), Task(FiberWork(5), -1);
    again := Two(k, FIRST, [f], 0, map[5 := Fiber(INIT, Code)], []);
    assert s.tasks + [f] == [f];
    NoTokens(s, k, FIRST, 0, map[5 := Fiber(INIT, Code)], 5);
    assert s.workers[0].cbFiber == Some(5);
    run, last := CallbackFollows(again, k, c, f);
  }

  lemma CallbackFollows(again: System, k: Worker, c: Task, f: Task) returns (run: seq<Step>, last: System)
    requires k == Worker(Head, Some(5), false)
    requires c == Task(CallbackWork(UserCallback(2)), 0) && f == Task(FiberWork(5), -1)
    requires again == Two(k, FIRST, [f], 0, map[5 := Fiber(INIT, Code)], [])
    ensures Legal(again, run) && After(again, run) == last
    ensures |last.workers| == 2 && last.workers[0].phase == Picked(c.work)
    ensures last.workers[0].cbFiber == Some(5) && 5 in last.fibers && last.fibers[5].state == EXEC
  {
    var s1 := Two(k, FIRST, [f, c], 0, map[5 := Fiber(INIT, Code)], []);
    assert again.tasks + [c] == [f, c];
    run, last := BothStart(s1, k, c, f);
    Longer(again, Outer(SOuterCallback(2, 0)), s1, run, last);
    run := [Outer(SOuterCallback(2, 0))] + run;
  }

  lemma Longer(s: System, step: Step, s1: System, run: seq<Step>, last: System)
    requires Enabled(s, step) && Next(s, step) == s1 && Legal(s1, run) && After(s1, run) == last
    ensures Legal(s, [step] + run) && After(s, [step] + run) == last
  {
    assert ([step] + run)[1..] == run;
  }

  lemma BothStart(s1: System, k: Worker, c: Task, f: Task) returns (run: seq<Step>, last: System)
    requires k == Worker(Head, Some(5), false)
    requires c == Task(CallbackWork(UserCallback(2)), 0) && f == Task(FiberWork(5), -1)
    requires s1 == Two(k, FIRST, [f, c], 0, map[5 := Fiber(INIT, Code)], [])
    ensures Legal(s1, run) && After(s1, run) == last
    ensures |last.workers| == 2 && last.workers[0].phase == Picked(c.work)
    ensures last.workers[0].cbFiber == Some(5) && 5 in last.fibers && last.fibers[5].state == EXEC
  {
    var p := Worker(Picked(f.work), None, false);
    var r := Worker(Running(5, None), None, false);
    var q := Worker(Picked(c.work), Some(5), false);
    assert Executing(s1) == {} && Without([f, c], 0) == [c] && Without([c], 0) == [];
    var s2 := Two(k, p, [c], 1, map[5 := Fiber(INIT, Code)], []);
    var s3 := Two(k, r, [c], 1, map[5 := Fiber(EXEC, Code)], []);
    last := Two(q, r, [], 2, map[5 := Fiber(EXEC, Code)], []);
    assert s1.workers[1 := p] == s2.workers && s2.workers[1 := r] == s3.workers && s3.workers[0 := q] == last.workers;
    assert s2.fibers[5 := Fiber(EXEC, Code)] == s3.fibers;
    run := [Loop(1, SPick), Loop(1, SEnter(0)), Loop(0, SPick)];
    ThreeSteps(s1, Loop(1, SPick), s2, Loop(1, SEnter(0)), s3, Loop(0, SPick), last);
  }

  /** A callback has run on worker 0 and ended; its fiber is kept for the next one. */
  lemma CallbackEnded() returns (s: System)
    ensures Reachable(s) && s == Two(Worker(Head, Some(5), false), FIRST, [], 0, map[5 := Fiber(INIT, Code)], [])
  {
    var c := Task(CallbackWork(UserCallback(1)), -1);
    var p := Worker(Picked(c.work), None, false);
    Started();
    var s0 := Two(FIRST, FIRST, [], 0, map[], []);
    var s1 := Two(FIRST, FIRST, [c], 0, map[], []);
    assert s0.tasks + [c] == [c];
    Onward(s0, Outer(SOuterCallback(1, -1)), s1);
    assert Executing(s1) == {} && Without([c], 0) == [];
    var s2 := Two(p, FIRST, [], 1, map[], []);
    assert s1.workers[0 := p] == s2.workers;
    Onward(s1, Loop(0, SPick), s2);
    s := CallbackRuns(s2, p);
  }

  lemma CallbackRuns(s2: System, p: Worker) returns (s: System)
    requires p == Worker(Picked(CallbackWork(UserCallback(1))), None, false)
    requires s2 == Two(p, FIRST, [], 1, map[], []) && Reachable(s2)
    ensures Reachable(s) && s == Two(Worker(Head, Some(5), false), FIRST, [], 0, map[5 := Fiber(INIT, Code)], [])
  {
    var r := Worker(Running(5, None), Some(5), false);
    var s3 := Two(r, FIRST, [], 1, map[5 := Fiber(EXEC, Code)], []);
    assert s2.workers[0 := r] == s3.workers;
    assert Enter(s2, 0, 5) == s3;
    Onward(s2, Loop(0, SEnter(5)), s3);
    s := CallbackReturns(s3, r);
  }

  lemma CallbackReturns(s3: System, r: Worker) returns (s: System)
    requires r == Worker(Running(5, None), Some(5), false)
    requires s3 == Two(r, FIRST, [], 1, map[5 := Fiber(EXEC, Code)], []) && Reachable(s3)
    ensures Reachable(s) && s == Two(Worker(Head, Some(5), false), FIRST, [], 0, map[5 := Fiber(INIT, Code)], [])
  {
    s := Returned(s3, r);
    assert Enabled(s3, Loop(0, SFinish(false))) by { NoTokens(s3, r, FIRST, 1, map[5 := Fiber(EXEC, Code)], 5); }
    ReachableStep(s3, Loop(0, SFinish(false)));
  }

  lemma Returned(s3: System, r: Worker) returns (s: System)
    requires r == Worker(Running(5, None), Some(5), false)
    requires s3 == Two(r, FIRST, [], 1, map[5 := Fiber(EXEC, Code)], [])
    ensures Runs(s3, 0) && Return(s3, 0, TERM, Code) == s
    ensures s == Two(Worker(Head, Some(5), false), FIRST, [], 0, map[5 := Fiber(INIT, Code)], [])
  {
    s := Two(Worker(Head, Some(5), false), FIRST, [], 0, map[5 := Fiber(INIT, Code)], []);
    assert s3.workers[0 := Worker(Head, Some(5), false)] == s.workers && s3.fibers[5 := Fiber(INIT, Code)] == s.fibers;
  }

  lemma OneToken(s: System, t: Task)
    requires t == Task(FiberWork(7), -1) && s.tasks == [t] && Reachable(s)
    ensures Tokens(s, 7) == 1
  {
    ReachableInv(s);
    SumOne(t, TaskWork);
    assert GoodFiber(ViewOf(s), 7);
    InPool(s, FiberWork(7));
  }
}
