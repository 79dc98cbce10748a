// No worker is ever stuck: in every reachable state it has something to do next.

module RuntimeProgress {
  import opened Base
  import opened FiberTypes
  import opened TaskList
  import opened Runtime
  import opened RuntimeInvariant
  import opened RuntimeTheorems
  import EventTable
  import EventTableProofs

  /** Whose step it is, if it is one worker's. */
  function WorkerOf(step: Step): Option<nat> {
    match step
    case Loop(w, _) => Some(w)
    case Queue(w, _) => Some(w)
    case Events(w, _, _) => Some(w)
    case Ios(w, _) => Some(w)
    case Timers(w, _) => Some(w)
    case Outer(SLookTimers(w)) => Some(w)
    case Outer(SLookPending(w)) => Some(w)
    case Outer(SIdleExit(w)) => Some(w)
    case Outer(SIdleReturn(w)) => Some(w)
    case Outer(_) => None
  }

  lemma {:induction false} Above(ids: set<nat>) returns (m: nat)
    ensures forall i :: i in ids ==> i < m
    decreases ids
  {
    if ids == {} {
      m := 0;
    } else {
      var x :| x in ids;
      var rest := Above(ids - {x});
      m := if rest <= x then x + 1 else rest;
      forall i | i in ids ensures i < m {
        assert i == x || i in ids - {x};
      }
    }
  }

  /** addEvent's last section cannot be entered: its bit is set, which it asserts against, or the fiber has
      been scheduled by hand and takes that entry first. */
  predicate Barred(s: System, w: nat) {
    Runs(s, w) && CurrentPc(s, w).Located? &&
    (!BitFree(s.table, CurrentPc(s, w).at, CurrentPc(s, w).io.event) || Tokens(s, Current(s, w)) > 0)
  }

  lemma RunningGoesOn(s: System, w: nat) returns (step: Step)
    requires Inv(s) && w < |s.workers| && s.workers[w].phase.Running? && !Barred(s, w)
    ensures Enabled(s, step) && WorkerOf(step) == Some(w)
  {
    assert GoodWorker(s.fibers, s.workers[w]);
    var f := s.workers[w].phase.fiber;
    assert GoodFiber(ViewOf(s), f);
    if s.workers[w].phase.body.Some? {
      step := Timers(w, SRunBody);
    } else {
      step := NextOf(s, w, s.fibers[f].pc);
    }
  }

  lemma NextOf(s: System, w: nat, pc: Pc) returns (step: Step)
    requires Runs(s, w) && s.workers[w].phase.body == None && pc == CurrentPc(s, w) && !Barred(s, w)
    requires EventTable.Valid(s.table) && PcOk(pc, s.table.contexts) && !pc.Waiting? && !pc.Sleeping? && !pc.Parked?
    ensures Enabled(s, step) && WorkerOf(step) == Some(w)
  {
    match pc
    case Code => step := Loop(w, SPark);
    case Armed(_) => step := Ios(w, SLocate);
    case Growing(io) =>
      EventTableProofs.GrowForLocates(s.table, io.fd);
      step := Ios(w, SGrow);
    case Located(_, _) => step := Ios(w, SRegister(true));
    case Registered(_) => step := Loop(w, SYieldIo);
    case Resumed(_) => step := Ios(w, SCancelIoTimer);
    case Deciding(_) => step := Ios(w, SDecide(false, false));
    case SleepArmed => step := Loop(w, SYieldSleep);
    case TimedOut(_, _) => step := Timers(w, SLocateTimedOut);
    case Cancelling(_, _) => step := Timers(w, SCancelTimedOut(true));
  }

  /** In every reachable state every worker that has not left run() has a step that it can take, but at a
      set bit in addEvent. */
  lemma NeverStuck(s: System, w: nat) returns (step: Step)
    requires Reachable(s) && w < |s.workers| && s.workers[w].phase != Exited && !Barred(s, w)
    ensures Enabled(s, step) && WorkerOf(step) == Some(w)
  {
    ReachableInv(s);
    assert GoodWorker(s.fibers, s.workers[w]);
    match s.workers[w].phase
    case Head => step := Loop(w, SPick);
    case Picked(_) =>
      var spare := Above(s.fibers.Keys);
      step := Loop(w, SEnter(spare));
    case Running(_, _) => step := RunningGoesOn(s, w);
    case Idle(_, _) => step := Timers(w, SQueueTaken);
  }

  // ---------------------------------------------------------------- what code may do, and what yielding leaves

  /** Code on a fiber may do all of this at any moment: nothing but the stated rules stands in its way. */
  lemma CodeMayDo(s: System, w: nat, n: nat, e: Event, flag: bool)
    requires Acting(s, w)
    ensures Enabled(s, Ios(w, SBeginIo(n, e, flag))) && Enabled(s, Loop(w, SPark))
  {
  }

  lemma CodeMaySleep(s: System, w: nat)
    requires Acting(s, w)
    ensures Enabled(s, Timers(w, SBeginSleep)) <==> Tokens(s, Current(s, w)) == 0
  {
  }

  lemma CodeMaySchedule(s: System, w: nat, g: FiberId, thread: int)
    requires Acting(s, w)
    ensures Enabled(s, Queue(w, SSpawn(g, thread))) <==> g !in s.fibers
    ensures Enabled(s, Queue(w, SScheduleFiber(g, thread))) <==> Resumable(s, g)
  {
    if g in s.fibers { MayScheduleExactly(s.fibers[g].state, Tokens(s, g), s.workers, s, g); }
  }

  /** Nothing else is going to resume the fiber, and it is not an ended callback fiber. */
  predicate Resumable(s: System, g: FiberId) {
    && g in s.fibers && Tokens(s, g) == 0
    && (s.fibers[g].state == EXEC || forall v :: 0 <= v < |s.workers| ==> s.workers[v].cbFiber != Some(g))
  }

  lemma MayScheduleExactly(st: FiberState, tokens: nat, workers: seq<Worker>, s: System, g: FiberId)
    requires g in s.fibers && st == s.fibers[g].state && tokens == Tokens(s, g) && workers == s.workers
    ensures MaySchedule(s, g) <==>
              tokens == 0 && (st == EXEC || forall v :: 0 <= v < |workers| ==> workers[v].cbFiber != Some(g))
  {
  }

  lemma CodeMayQueue(s: System, w: nat, id: nat, thread: int, flag: bool)
    requires Acting(s, w)
    ensures Enabled(s, Queue(w, SScheduleCallback(id, thread))) && Enabled(s, Queue(w, SAddTimer(id, flag)))
  {
  }

  lemma CodeMayUseEvents(s: System, w: nat, at: nat, e: Event, id: nat, env: bool)
    requires Acting(s, w) && at < |s.table.contexts|
    ensures Enabled(s, Events(w, SDelEvent(at, e), env)) && Enabled(s, Events(w, SCancelEvent(at, e), env))
    ensures Enabled(s, Events(w, SCancelAll(at), env))
    ensures Enabled(s, Events(w, SAddCallbackEvent(at, e, id), env)) <==> !s.table.contexts[at].events.Has(e)
  {
  }

  /** The state that a fiber is in once it has given its worker back: as it yielded or ended, but that an
      ended callback fiber is ready to be used again. */
  lemma StateAfter(s: System, w: nat, l: LoopStep)
    requires Enabled(s, Loop(w, l)) && !l.SPick? && !l.SEnter?
    ensures var f, s' := Current(s, w), Next(s, Loop(w, l));
            && s'.workers[w].phase == Head && f in s'.fibers
            && s'.fibers[f].state == match l
               case SFinish(exception) =>
                 if s.workers[w].cbFiber == Some(f) then INIT else if exception then EXCEPT else TERM
               case SYieldReady => READY
               case _ => HOLD
  {
  }

  /** A fiber that has been picked runs on the worker exactly when it has not ended; a callback runs on
      the worker's callback fiber, if it has one, and a timer body acts before anything else. */
  lemma PickedRuns(s: System, w: nat, spare: FiberId)
    requires Enabled(s, Loop(w, SEnter(spare)))
    ensures var k, s' := s.workers[w], Next(s, Loop(w, SEnter(spare)));
            match k.phase.work
            case FiberWork(f) =>
              if s.fibers[f].state == TERM || s.fibers[f].state == EXCEPT then s'.workers[w].phase == Head && s'.fibers == s.fibers
              else s'.workers[w].phase == Running(f, None) && s'.fibers[f].state == EXEC
            case CallbackWork(cb) =>
              var g := if k.cbFiber == None then spare else k.cbFiber.value;
              && s'.workers[w].phase == Running(g, if cb.UserCallback? then None else Some(cb))
              && s'.workers[w].cbFiber == Some(g) && g in s'.fibers && s'.fibers[g].state == EXEC
  {
  }

  /** A fiber that is scheduled for the first time has not started. */
  lemma SpawnedFresh(s: System, step: Step, g: FiberId, thread: int)
    requires Enabled(s, step)
    requires step == Outer(SOuterFiber(g, thread)) || (step.Queue? && step.queue == SSpawn(g, thread))
    ensures Next(s, step).fibers == s.fibers[g := Fiber(INIT, Code)]
  {
  }

  /** An idle worker may at any moment take any timer, queue what it has taken, or handle a report that
      fails no assertion; outside threads may stop, and schedule until then. */
  lemma IdleMayDo(s: System, w: nat, i: nat, at: nat, fired: Mask, env: bool)
    requires Idles(s, w)
    ensures Enabled(s, Timers(w, STake(i))) <==> i < |s.timers|
    ensures Enabled(s, Timers(w, SQueueTaken))
    ensures at < |s.table.contexts| ==>
              (Enabled(s, Events(w, SDispatch(at, fired), env)) <==> !EventTable.Dispatch(s.table, at, fired, env).aborted)
  {
  }

  lemma OutsideMayDo(s: System, id: nat, g: FiberId, thread: int)
    ensures Enabled(s, Outer(SStop)) && (Enabled(s, Outer(SOuterCallback(id, thread))) <==> !s.autoStop)
    ensures Enabled(s, Outer(SOuterFiber(g, thread))) <==> !s.autoStop && g !in s.fibers
  {
  }

  /** The callbacks of expired timers go to the end of the list in the order in which they were taken. */
  lemma TakenInOrder(s: System, w: nat, i: nat)
    requires Idles(s, w) && i < |s.timers|
    ensures var taken := s.workers[w].phase.taken;
            && Next(s, Timers(w, STake(i))).workers[w].phase == Idle(0, taken + [s.timers[i].cb])
            && var s' := Next(s, Timers(w, SQueueTaken));
            && s'.workers[w].phase == Idle(0, [])
            && |s'.tasks| == |s.tasks| + |taken| && s'.tasks[..|s.tasks|] == s.tasks
            && forall j :: 0 <= j < |taken| ==> s'.tasks[|s.tasks| + j] == Task(CallbackWork(taken[j]), -1)
  {
  }

  /** Only the reads themselves count: whatever else an idle worker does, it begins them anew. */
  lemma ReadsBeginAnew(s: System, w: nat, step: Step)
    requires Enabled(s, step) && WorkerOf(step) == Some(w) && Idles(s, w) && Idles(Next(s, step), w)
    ensures Next(s, step).workers[w].phase.seen ==
              if step == Outer(SLookTimers(w)) then 1 else if step == Outer(SLookPending(w)) then 2 else 0
  {
    match step
    case Loop(_, _) =>
    case Queue(_, _) =>
    case Events(_, e, env) => EventBeginsAnew(s, w, e, env);
    case Ios(_, _) =>
    case Timers(_, t) => TimerBeginsAnew(s, w, t);
    case Outer(_) =>
  }

  lemma EventBeginsAnew(s: System, w: nat, e: EventStep, env: bool)
    requires Idles(s, w) && EnabledEvent(s, w, e, env)
    ensures e.SDispatch? && NextEvent(s, w, e, env).workers[w].phase == Idle(0, s.workers[w].phase.taken)
  {
  }

  lemma TimerBeginsAnew(s: System, w: nat, t: TimerStep)
    requires Idles(s, w) && EnabledTimer(s, w, t)
    ensures NextTimer(s, w, t).workers[w].phase.Idle? && NextTimer(s, w, t).workers[w].phase.seen == 0
  {
  }

  // ---------------------------------------------------------------- the reads of stopping()

  lemma {:induction false} PrefixLegal(s: System, run: seq<Step>, k: nat)
    requires Legal(s, run) && k <= |run|
    ensures Legal(s, run[..k])
    ensures k < |run| ==> Enabled(After(s, run[..k]), run[k]) && Legal(s, run[..k + 1])
                          && After(s, run[..k + 1]) == Next(After(s, run[..k]), run[k])
    decreases |run|
  {
    if run != [] {
      if k > 0 {
        PrefixLegal(Next(s, run[0]), run[1..], k - 1);
        assert run[..k][1..] == run[1..][..k - 1];
        if k < |run| { assert run[..k + 1][1..] == run[1..][..k]; }
      } else {
        assert run[..0] == [] && run[..1] == [run[0]] && [run[0]][1..] == [];
        assert Legal(Next(s, run[0]), []);
      }
    }
  }

  ghost function At(s: System, run: seq<Step>, k: nat): System
    requires Legal(s, run) && k <= |run|
  {
    PrefixLegal(s, run, k);
    After(s, run[..k])
  }

  ghost predicate NoTimersAt(s: System, run: seq<Step>, i: nat)
    requires Legal(s, run)
  {
    i <= |run| && At(s, run, i).timers == []
  }

  ghost predicate NoPendingAt(s: System, run: seq<Step>, i: nat, j: nat)
    requires Legal(s, run)
  {
    NoTimersAt(s, run, i) && i <= j <= |run| && At(s, run, j).table.pending == 0
  }

  ghost predicate AllReadAt(s: System, run: seq<Step>, i: nat, j: nat, k: nat)
    requires Legal(s, run)
  {
    NoPendingAt(s, run, i, j) && j <= k <= |run| &&
    var t := At(s, run, k); t.autoStop && t.stopping && t.active == 0 && t.tasks == []
  }

  /** What worker w has read by the end of the run, in order. */
  ghost predicate HasRead(s: System, run: seq<Step>, w: nat)
    requires Legal(s, run)
  {
    var t := After(s, run);
    w < |t.workers| ==>
      && (t.workers[w].phase.Idle? && t.workers[w].phase.seen >= 1 ==> exists i: nat :: NoTimersAt(s, run, i))
      && (t.workers[w].phase.Idle? && t.workers[w].phase.seen >= 2 ==> exists i: nat, j: nat :: NoPendingAt(s, run, i, j))
      && (t.workers[w].idleDone ==> exists i: nat, j: nat, k: nat :: AllReadAt(s, run, i, j, k))
  }

  lemma AtLonger(s: System, run: seq<Step>, last: Step, i: nat)
    requires Legal(s, run) && Legal(s, run + [last]) && i <= |run|
    ensures At(s, run + [last], i) == At(s, run, i)
  {
    assert (run + [last])[..i] == run[..i];
  }

  lemma LongerReads(s: System, run: seq<Step>, last: Step)
    requires Legal(s, run) && Legal(s, run + [last])
    ensures forall i: nat :: NoTimersAt(s, run, i) ==> NoTimersAt(s, run + [last], i)
    ensures forall i: nat, j: nat :: NoPendingAt(s, run, i, j) ==> NoPendingAt(s, run + [last], i, j)
    ensures forall i: nat, j: nat, k: nat :: AllReadAt(s, run, i, j, k) ==> AllReadAt(s, run + [last], i, j, k)
  {
    forall i: nat | i <= |run| ensures At(s, run + [last], i) == At(s, run, i) { AtLonger(s, run, last, i); }
  }

  /** What one step adds to what a worker has seen. */
  predicate SeesMore(s: System, s': System, w: nat)
    requires w < |s.workers| && w < |s'.workers|
  {
    var k, k' := s.workers[w], s'.workers[w];
    && (k'.phase.Idle? && k'.phase.seen >= 1 ==> (k.phase.Idle? && k.phase.seen >= 1) || s.timers == [])
    && (k'.phase.Idle? && k'.phase.seen >= 2 ==>
          k.phase.Idle? && k.phase.seen >= 1 && (k.phase.seen >= 2 || s.table.pending == 0))
    && (k'.idleDone ==> k.idleDone || (k.phase.Idle? && k.phase.seen >= 2 && SchedulerStopping(s)))
  }

  lemma EnterSees(s: System, v: nat, spare: FiberId, w: nat)
    requires EnabledLoop(s, v, SEnter(spare)) && w < |s.workers|
    ensures w < |Enter(s, v, spare).workers| && SeesMore(s, Enter(s, v, spare), w)
  {
  }

  lemma ReturnSees(s: System, v: nat, st: FiberState, pc: Pc, w: nat)
    requires Runs(s, v) && w < |s.workers|
    ensures w < |Return(s, v, st, pc).workers| && SeesMore(s, Return(s, v, st, pc), w)
  {
  }

  lemma LoopSees(s: System, v: nat, l: LoopStep, w: nat)
    requires EnabledLoop(s, v, l) && w < |s.workers|
    ensures w < |NextLoop(s, v, l).workers| && SeesMore(s, NextLoop(s, v, l), w)
  {
    match l
    case SPick =>
    case SEnter(spare) => EnterSees(s, v, spare, w);
    case SFinish(exception) => ReturnSees(s, v, if exception then EXCEPT else TERM, Code, w);
    case SYieldReady => ReturnSees(s, v, READY, Code, w);
    case SPark => ReturnSees(s, v, HOLD, Parked, w);
    case SYieldIo => ReturnSees(s, v, HOLD, Waiting(CurrentPc(s, v).io), w);
    case SYieldSleep => ReturnSees(s, v, HOLD, Sleeping, w);
  }

  lemma EventSees(s: System, v: nat, e: EventStep, env: bool, w: nat)
    requires EnabledEvent(s, v, e, env) && w < |s.workers|
    ensures w < |NextEvent(s, v, e, env).workers| && SeesMore(s, NextEvent(s, v, e, env), w)
  {
  }

  lemma OuterSees(s: System, o: OuterStep, w: nat)
    requires EnabledOuter(s, o) && w < |s.workers|
    ensures w < |NextOuter(s, o).workers| && SeesMore(s, NextOuter(s, o), w)
  {
  }

  lemma OtherSees(s: System, step: Step, w: nat)
    requires Enabled(s, step) && w < |s.workers| && !step.Loop?
    ensures w < |Next(s, step).workers| && SeesMore(s, Next(s, step), w)
  {
    match step
    case Queue(_, _) =>
    case Events(v, e, env) => EventSees(s, v, e, env, w);
    case Ios(v, i) => IoStays(s, v, i, w);
    case Timers(v, t) => TimerSees(s, v, t, w);
    case Outer(o) => OuterSees(s, o, w);
  }

  lemma TimerSees(s: System, v: nat, t: TimerStep, w: nat)
    requires EnabledTimer(s, v, t) && w < |s.workers|
    ensures w < |NextTimer(s, v, t).workers| && SeesMore(s, NextTimer(s, v, t), w)
  {
  }

  lemma StepSees(s: System, step: Step, w: nat)
    requires Enabled(s, step) && w < |s.workers|
    ensures w < |Next(s, step).workers| && SeesMore(s, Next(s, step), w)
  {
    if step.Loop? { LoopSees(s, step.w, step.loop, w); } else { OtherSees(s, step, w); }
  }

  lemma SameCount(s: System, step: Step)
    requires Enabled(s, step)
    ensures |Next(s, step).workers| == |s.workers|
  {
    if s.workers == [] { NoWorkers(s, step); } else if !(step.Outer? && step.outer.SIdleExit?) { OtherStepsStayInside(s, step, 0); }
  }

  lemma ReadsOn(s: System, run: seq<Step>, last: Step, w: nat)
    requires Legal(s, run) && Enabled(After(s, run), last) && Legal(s, run + [last])
    requires After(s, run + [last]) == Next(After(s, run), last) && HasRead(s, run, w)
    ensures HasRead(s, run + [last], w)
  {
    var t, n := After(s, run), |run|;
    SameCount(t, last);
    if w < |t.workers| {
      StepSees(t, last, w);
      LongerReads(s, run, last);
      assert run[..n] == run;
      AtLonger(s, run, last, n);
      assert At(s, run + [last], n) == t;
      var k := t.workers[w];
      if k.phase.Idle? && k.phase.seen >= 1 {
        var i: nat :| NoTimersAt(s, run, i);
        assert NoPendingAt(s, run + [last], i, n) <== t.table.pending == 0;
      }
      if k.phase.Idle? && k.phase.seen >= 2 {
        var i: nat, j: nat :| NoPendingAt(s, run, i, j);
        assert AllReadAt(s, run + [last], i, j, n) <== SchedulerStopping(t);
      }
      assert NoTimersAt(s, run + [last], n) <== t.timers == [];
    }
  }

  /** Over any run from the start, an idle fiber that has ended saw an empty timer set, then no pending
      event, and then a stopping scheduler with nothing active and nothing queued, in this order. */
  lemma {:induction false} ThreeReads(n: nat, run: seq<Step>, w: nat)
    requires Legal(Init(n), run)
    ensures HasRead(Init(n), run, w)
    decreases |run|
  {
    if run != [] {
      var m := |run| - 1;
      PrefixLegal(Init(n), run, m);
      ThreeReads(n, run[..m], w);
      assert run == run[..m] + [run[m]] && run[..m + 1] == run;
      ReadsOn(Init(n), run[..m], run[m], w);
    }
  }
}
