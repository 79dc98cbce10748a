// What holds in every reachable state, and over every run, of the fiber runtime.

module RuntimeTheorems {
  import opened Base
  import opened FiberTypes
  import opened TaskList
  import opened Runtime
  import opened RuntimeInvariant
  import opened RuntimeKeeps
  import EventTable
  import EventTableProofs

  // ---------------------------------------------------------------- runs

  ghost predicate Legal(s: System, run: seq<Step>)
    decreases |run|
  {
    run == [] || (Enabled(s, run[0]) && Legal(Next(s, run[0]), run[1..]))
  }

  ghost function After(s: System, run: seq<Step>): System
    requires Legal(s, run)
    decreases |run|
  {
    if run == [] then s else After(Next(s, run[0]), run[1..])
  }

  lemma {:induction false} HeadWorkers(n: nat)
    ensures InWorkers(Init(n).workers) == multiset{} && Total(Init(n).workers, BusyOf) == 0
  {
    var k := Worker(Head, None, false);
    if n > 0 {
      assert seq(n, _ => k)[1..] == seq(n - 1, _ => k);
      HeadWorkers(n - 1);
    }
  }

  lemma EmptyShape(workers: seq<Worker>)
    requires forall w :: 0 <= w < |workers| ==> workers[w] == Worker(Head, None, false)
    ensures Shape(View(map[], workers, {}, multiset{}, multiset{}))
  {
    var v := View(map[], workers, {}, multiset{}, multiset{});
    forall f: FiberId ensures GoodFiber(v, f) {}
    forall f: FiberId ensures GoodRegistration(v, f) {}
  }

  lemma InitInv(n: nat)
    ensures Inv(Init(n))
  {
    var s := Init(n);
    HeadWorkers(n);
    EventTableProofs.InitialValid();
    EmptyShape(s.workers);
    assert InTasks([]) == multiset{} && InTimers([]) == multiset{};
    assert ViewOf(s) == View(map[], s.workers, {}, multiset{}, multiset{});
  }

  /** The invariant holds after every legal run. */
  lemma {:induction false} RunKeeps(s: System, run: seq<Step>)
    requires Inv(s) && Legal(s, run)
    ensures Inv(After(s, run))
    decreases |run|
  {
    if run != [] {
      StepKeeps(s, run[0]);
      RunKeeps(Next(s, run[0]), run[1..]);
    }
  }

  /** The states that legal runs of any number of workers lead to. */
  ghost predicate Reachable(s: System) {
    exists n: nat, run: seq<Step> :: Legal(Init(n), run) && After(Init(n), run) == s
  }

  /** The invariant holds in every reachable state. */
  lemma ReachableInv(s: System)
    requires Reachable(s)
    ensures Inv(s)
  {
    var n: nat, run: seq<Step> :| Legal(Init(n), run) && After(Init(n), run) == s;
    InitInv(n);
    RunKeeps(Init(n), run);
  }

  lemma {:induction false} RunMore(s: System, run: seq<Step>, step: Step)
    requires Legal(s, run) && Enabled(After(s, run), step)
    ensures Legal(s, run + [step]) && After(s, run + [step]) == Next(After(s, run), step)
    decreases |run|
  {
    if run == [] {
      assert run + [step] == [step] && [step][1..] == [];
      assert Legal(Next(s, step), []);
    } else {
      assert (run + [step])[0] == run[0] && (run + [step])[1..] == run[1..] + [step];
      RunMore(Next(s, run[0]), run[1..], step);
    }
  }

  lemma ReachableStep(s: System, step: Step)
    requires Reachable(s) && Enabled(s, step)
    ensures Reachable(Next(s, step))
  {
    var n: nat, run: seq<Step> :| Legal(Init(n), run) && After(Init(n), run) == s;
    RunMore(Init(n), run, step);
  }

  lemma ReachableInit(n: nat)
    ensures Reachable(Init(n))
  {
    assert Legal(Init(n), []) && After(Init(n), []) == Init(n);
  }

  // ---------------------------------------------------------------- one fiber, one worker

  /** A fiber in EXEC is current on exactly one worker. */
  lemma ExecutingOnOneWorker(s: System, f: FiberId)
    requires Reachable(s)
    ensures f in s.fibers && s.fibers[f].state == EXEC ==>
              exists w: nat :: RunningOn(s.workers, w, f) && forall v: nat :: RunningOn(s.workers, v, f) ==> v == w
  {
    ReachableInv(s);
    if f in s.fibers && s.fibers[f].state == EXEC {
      assert HasWorker(ViewOf(s), f);
      var w: nat :| RunningOn(s.workers, w, f);
      forall v: nat | RunningOn(s.workers, v, f) ensures v == w {
        assert v != w ==> Apart(s.workers[v], s.workers[w]);
      }
    }
  }

  /** The assertions that a pick runs into hold: swapIn finds the fiber not executing, and
      Fiber::reset finds the worker's callback fiber in INIT with nothing left to resume it. */
  lemma EnterAssertionsHold(s: System, w: nat)
    requires Reachable(s)
    ensures w < |s.workers| && s.workers[w].phase.Picked? ==>
              match s.workers[w].phase.work
              case FiberWork(f) => f in s.fibers && s.fibers[f].state != EXEC
              case CallbackWork(_) => s.workers[w].cbFiber.Some? ==>
                var g := s.workers[w].cbFiber.value;
                g in s.fibers && s.fibers[g].state == INIT && Tokens(s, g) == 0
  {
    ReachableInv(s);
    if w < |s.workers| && s.workers[w].phase.Picked? {
      assert GoodWorker(s.fibers, s.workers[w]);
      if s.workers[w].cbFiber.Some? {
        var g := s.workers[w].cbFiber.value;
        assert ReservedIn(s.workers, g);
        assert GoodFiber(ViewOf(s), g);
      }
    }
  }

  /** At the head of a round the callback fiber is absent or in INIT. */
  lemma CallbackFiberReusable(s: System, w: nat)
    requires Reachable(s)
    ensures w < |s.workers| && s.workers[w].phase == Head && s.workers[w].cbFiber.Some? ==>
              var g := s.workers[w].cbFiber.value;
              g in s.fibers && s.fibers[g].state == INIT && Tokens(s, g) == 0
  {
    ReachableInv(s);
    if w < |s.workers| && s.workers[w].phase == Head && s.workers[w].cbFiber.Some? {
      assert GoodWorker(s.fibers, s.workers[w]);
      assert ReservedIn(s.workers, s.workers[w].cbFiber.value);
      assert GoodFiber(ViewOf(s), s.workers[w].cbFiber.value);
    }
  }

  // ---------------------------------------------------------------- nobody is forgotten

  /** A fiber suspended in do_io or sleep has exactly one thing that will resume it: an event
      registration, a timer, a queued entry or a worker about to enter it. The one exception is
      a registration that somebody threw away with delEvent. */
  lemma SuspendedHasOneToken(s: System, f: FiberId)
    requires Reachable(s)
    ensures && Tokens(s, f) <= 1
            && (f in s.fibers && s.fibers[f].state == HOLD && s.fibers[f].pc != Parked ==>
                  Tokens(s, f) == if f in s.dropped then 0 else 1)
            && (f in s.fibers && s.fibers[f].state == READY ==> Tokens(s, f) == 1)
            && (f in s.dropped ==> f in s.fibers && (s.fibers[f].pc.Registered? || s.fibers[f].pc.Waiting?))
  {
    ReachableInv(s);
    assert GoodFiber(ViewOf(s), f);
  }

  lemma {:induction false} NoBitsNothingWaiting(contexts: seq<EventTable.FdContext>)
    requires EventTable.TotalBits(contexts) == 0
    ensures EventTable.Waiting(contexts) == multiset{}
  {
    if contexts != [] {
      NoBitsNothingWaiting(contexts[1..]);
    }
  }

  lemma {:induction false} NothingHeld(workers: seq<Worker>)
    requires Total(workers, BusyOf) == 0
    requires forall w :: 0 <= w < |workers| && workers[w].phase.Idle? ==> workers[w].phase.taken == []
    ensures InWorkers(workers) == multiset{}
    ensures forall w :: 0 <= w < |workers| ==> !workers[w].phase.Picked? && !workers[w].phase.Running?
  {
    if workers != [] {
      IdleHoldsNothing();
      NothingHeld(workers[1..]);
      forall w | 0 <= w < |workers| ensures !workers[w].phase.Picked? && !workers[w].phase.Running? {
        assert w > 0 ==> workers[w] == workers[1..][w - 1];
      }
    }
  }

  lemma StoppingPoolEmpty(s: System)
    requires Inv(s) && Stopping(s) && NoneTaken(s)
    ensures Pool(s) == multiset{}
    ensures forall w :: 0 <= w < |s.workers| ==> !s.workers[w].phase.Picked? && !s.workers[w].phase.Running?
  {
    NoBitsNothingWaiting(s.table.contexts);
    NothingHeld(s.workers);
  }

  /** When stopping() holds and no worker has callbacks in its hands, nothing is stranded: no fiber
      is running or ready, and every suspended one either parked itself by hand or lost its
      registration to delEvent. */
  lemma NothingStranded(s: System, f: FiberId)
    requires Reachable(s) && Stopping(s) && NoneTaken(s)
    ensures f in s.fibers ==>
              && s.fibers[f].state != EXEC && s.fibers[f].state != READY
              && (s.fibers[f].state == HOLD ==> s.fibers[f].pc == Parked || f in s.dropped)
  {
    ReachableInv(s);
    assert GoodFiber(ViewOf(s), f);
    assert f in s.fibers && s.fibers[f].state == EXEC ==> HasWorker(ViewOf(s), f);
    StoppingPoolEmpty(s);
  }

  // ---------------------------------------------------------------- when stopping is final

  lemma NoBitSet(t: Table, at: nat)
    requires EventTable.Valid(t) && t.pending == 0 && at < |t.contexts|
    ensures t.contexts[at].events == NONE
  {
    TotalUpdate(t.contexts, at, t.contexts[at], EventTable.Bits);
  }

  lemma NoReports(s: System, w: nat, at: nat, fired: Mask, env: bool)
    requires Inv(s) && Stopping(s) && NoneTaken(s) && EnabledEvent(s, w, SDispatch(at, fired), env)
    ensures NextEvent(s, w, SDispatch(at, fired), env) == SetPhase(s, w, Idle(0, []))
  {
    NoBitSet(s.table, at);
    NoEffect(s);
  }

  /** Nobody runs, and nothing is queued, waiting or in anybody's hands. */
  ghost predicate Quiet(s: System) {
    && Stopping(s) && NoneTaken(s)
    && forall w :: 0 <= w < |s.workers| ==> !s.workers[w].phase.Picked? && !s.workers[w].phase.Running?
  }

  lemma QuietLoop(s: System, w: nat, l: LoopStep)
    requires Quiet(s) && EnabledLoop(s, w, l)
    ensures Stopping(NextLoop(s, w, l)) && NoneTaken(NextLoop(s, w, l))
  {
  }

  lemma QuietTimer(s: System, w: nat, t: TimerStep)
    requires Quiet(s) && EnabledTimer(s, w, t)
    ensures Stopping(NextTimer(s, w, t)) && NoneTaken(NextTimer(s, w, t))
  {
    if t.SQueueTaken? { assert s.tasks + Wrap(Works([])) == s.tasks; }
  }

  lemma QuietOuter(s: System, o: OuterStep)
    requires Quiet(s) && EnabledOuter(s, o)
    ensures Stopping(NextOuter(s, o)) && NoneTaken(NextOuter(s, o))
  {
  }

  lemma StoppingStays(s: System, step: Step)
    requires Inv(s) && Stopping(s) && NoneTaken(s) && Enabled(s, step)
    ensures Stopping(Next(s, step)) && NoneTaken(Next(s, step))
  {
    StoppingPoolEmpty(s);
    match step
    case Loop(w, l) => QuietLoop(s, w, l);
    case Queue(w, q) =>
    case Events(w, e, env) => if e.SDispatch? { NoReports(s, w, e.at, e.fired, env); }
    case Ios(w, i) =>
    case Timers(w, t) => QuietTimer(s, w, t);
    case Outer(o) => QuietOuter(s, o);
  }

  /** Once stopping() holds with nothing in the workers' hands, it holds forever. */
  lemma {:induction false} StoppingForever(s: System, run: seq<Step>)
    requires Inv(s) && Stopping(s) && NoneTaken(s) && Legal(s, run)
    ensures Stopping(After(s, run)) && NoneTaken(After(s, run))
    decreases |run|
  {
    if run != [] {
      StoppingStays(s, run[0]);
      StepKeeps(s, run[0]);
      StoppingForever(Next(s, run[0]), run[1..]);
    }
  }

  lemma OneStepRun(s: System, step: Step)
    requires Enabled(s, step)
    ensures Legal(s, [step]) && After(s, [step]) == Next(s, step)
  {
    assert [step][1..] == [] && Legal(Next(s, step), []);
  }

  /** stopping() holds whatever happens. */
  ghost predicate StopsForGood(s: System) {
    forall run: seq<Step> :: Legal(s, run) ==> Stopping(After(s, run))
  }

  lemma StopsNow(s: System)
    requires StopsForGood(s)
    ensures Stopping(s)
  {
    assert Legal(s, []) && After(s, []) == s;
  }

  /** stopping() is final exactly when no idle worker holds callbacks that it has taken from the
      timer set and not yet queued. */
  lemma StoppingFinalExactly(s: System)
    requires Inv(s) && Stopping(s)
    ensures NoneTaken(s) <==> StopsForGood(s)
  {
    if NoneTaken(s) {
      forall run: seq<Step> | Legal(s, run) ensures Stopping(After(s, run)) { StoppingForever(s, run); }
    } else {
      var w: nat :| w < |s.workers| && s.workers[w].phase.Idle? && s.workers[w].phase.taken != [];
      var step := Timers(w, SQueueTaken);
      OneStepRun(s, step);
      assert |Next(s, step).tasks| > 0;
    }
  }

  lemma ExitTakesNothing(s: System, w: nat)
    requires Enabled(s, Outer(SIdleExit(w)))
    ensures var s' := Next(s, Outer(SIdleExit(w))); (NoneTaken(s') <==> NoneTaken(s)) && (Stopping(s') <==> Stopping(s))
  {
    var s' := Next(s, Outer(SIdleExit(w)));
    assert forall v :: 0 <= v < |s.workers| && v != w ==> s'.workers[v] == s.workers[v];
  }

  /** An idle fiber ends rightly, with the runtime stopping for good, exactly when at that moment
      there are still no timers and no pending events and no worker has callbacks in its hands; the three
      reads of stopping() do not ensure it. */
  lemma ExitFinalExactly(s: System, w: nat)
    requires Inv(s) && Enabled(s, Outer(SIdleExit(w)))
    ensures s.timers == [] && s.table.pending == 0 && NoneTaken(s) <==> StopsForGood(Next(s, Outer(SIdleExit(w))))
  {
    var s' := Next(s, Outer(SIdleExit(w)));
    StepKeeps(s, Outer(SIdleExit(w)));
    ExitTakesNothing(s, w);
    if Stopping(s') { StoppingFinalExactly(s'); }
    if StopsForGood(s') { StopsNow(s'); }
  }

  ghost predicate AnyIdleDone(workers: seq<Worker>) {
    exists w :: 0 <= w < |workers| && workers[w].idleDone
  }

  /** Every idle fiber of the run ends rightly. */
  ghost predicate SoundExits(s: System, run: seq<Step>)
    requires Legal(s, run)
    decreases |run|
  {
    run != [] ==>
      && (run[0].Outer? && run[0].outer.SIdleExit? ==> Stopping(s) && NoneTaken(s))
      && SoundExits(Next(s, run[0]), run[1..])
  }

  /** Worker w has not ended its idle fiber, nor left run(), between s and s'. */
  predicate StaysInside(s: System, s': System, w: nat, mayLeave: bool)
    requires w < |s.workers|
  {
    && |s'.workers| == |s.workers| && s'.workers[w].idleDone == s.workers[w].idleDone
    && (s'.workers[w].phase == Exited ==> s.workers[w].phase == Exited || mayLeave)
  }

  lemma EnterStays(s: System, v: nat, spare: FiberId, w: nat)
    requires EnabledLoop(s, v, SEnter(spare)) && w < |s.workers|
    ensures StaysInside(s, Enter(s, v, spare), w, false)
  {
  }

  lemma LoopStays(s: System, v: nat, l: LoopStep, w: nat)
    requires EnabledLoop(s, v, l) && w < |s.workers|
    ensures StaysInside(s, NextLoop(s, v, l), w, l.SPick? && v == w)
  {
    if l.SEnter? { EnterStays(s, v, l.spare, w); }
  }

  lemma EventStays(s: System, v: nat, e: EventStep, env: bool, w: nat)
    requires EnabledEvent(s, v, e, env) && w < |s.workers|
    ensures StaysInside(s, NextEvent(s, v, e, env), w, false)
  {
  }

  lemma IoStays(s: System, v: nat, i: IoStep, w: nat)
    requires EnabledIo(s, v, i) && w < |s.workers|
    ensures NextIo(s, v, i).workers == s.workers
  {
  }

  lemma BodyStays(s: System, v: nat, w: nat)
    requires EnabledTimer(s, v, SRunBody) && w < |s.workers|
    ensures StaysInside(s, RunBody(s, v), w, false)
  {
  }

  lemma TimerStays(s: System, v: nat, t: TimerStep, w: nat)
    requires EnabledTimer(s, v, t) && w < |s.workers|
    ensures StaysInside(s, NextTimer(s, v, t), w, false)
  {
    if t.SRunBody? { BodyStays(s, v, w); }
  }

  /** Only the step that ends an idle fiber sets the flag, and only a pick leaves the loop. */
  lemma OtherStepsStayInside(s: System, step: Step, w: nat)
    requires Enabled(s, step) && !(step.Outer? && step.outer.SIdleExit?) && w < |s.workers|
    ensures StaysInside(s, Next(s, step), w, step == Loop(w, SPick))
  {
    match step
    case Loop(v, l) => LoopStays(s, v, l, w);
    case Queue(_, _) =>
    case Events(v, e, env) => EventStays(s, v, e, env, w);
    case Ios(v, i) => IoStays(s, v, i, w);
    case Timers(v, t) => TimerStays(s, v, t, w);
    case Outer(_) =>
  }

  lemma SameIdleDone(j: seq<Worker>, k: seq<Worker>)
    requires forall w :: 0 <= w < |j| ==> |k| == |j| && k[w].idleDone == j[w].idleDone
    requires j == [] ==> k == []
    ensures AnyIdleDone(k) ==> AnyIdleDone(j)
  {
    if AnyIdleDone(k) {
      var w :| 0 <= w < |k| && k[w].idleDone;
      assert j[w].idleDone;
    }
  }

  lemma NoWorkers(s: System, step: Step)
    requires Enabled(s, step) && s.workers == []
    ensures Next(s, step).workers == []
  {
  }

  lemma NoNewIdleDone(s: System, step: Step, s': System)
    requires Enabled(s, step) && !(step.Outer? && step.outer.SIdleExit?) && s' == Next(s, step)
    ensures AnyIdleDone(s'.workers) ==> AnyIdleDone(s.workers)
  {
    if s.workers == [] { NoWorkers(s, step); }
    forall w | 0 <= w < |s.workers| ensures |s'.workers| == |s.workers| && s'.workers[w].idleDone == s.workers[w].idleDone {
      OtherStepsStayInside(s, step, w);
    }
    SameIdleDone(s.workers, s'.workers);
  }

  lemma {:induction false} SoundExitsOnly(s: System, run: seq<Step>)
    requires Inv(s) && Legal(s, run) && SoundExits(s, run)
    requires AnyIdleDone(s.workers) ==> Stopping(s) && NoneTaken(s)
    ensures var t := After(s, run); AnyIdleDone(t.workers) ==> Stopping(t) && NoneTaken(t)
    decreases |run|
  {
    if run != [] {
      var step := run[0];
      StepKeeps(s, step);
      if Stopping(s) && NoneTaken(s) { StoppingStays(s, step); } else { NoNewIdleDone(s, step, Next(s, step)); }
      SoundExitsOnly(Next(s, step), run[1..]);
    }
  }

  /** When every idle fiber ends rightly, a worker is outside run() only when the whole runtime is
      stopping for good. */
  lemma ExitedMeansStopping(n: nat, run: seq<Step>, w: nat)
    requires Legal(Init(n), run) && SoundExits(Init(n), run)
    ensures var s := After(Init(n), run);
            w < |s.workers| && s.workers[w].phase == Exited ==> s.workers[w].idleDone && Stopping(s) && NoneTaken(s)
  {
    InitInv(n);
    assert !AnyIdleDone(Init(n).workers);
    ExitedFrom(Init(n), run, w);
  }

  lemma ExitedFrom(s: System, run: seq<Step>, w: nat)
    requires Inv(s) && !AnyIdleDone(s.workers) && Legal(s, run) && SoundExits(s, run)
    ensures var t := After(s, run);
            w < |t.workers| && t.workers[w].phase == Exited ==> t.workers[w].idleDone && Stopping(t) && NoneTaken(t)
  {
    var t := After(s, run);
    RunKeeps(s, run);
    SoundExitsOnly(s, run);
    if w < |t.workers| && t.workers[w].phase == Exited { ExitedIsDone(t, w); }
  }

  lemma ExitedIsDone(s: System, w: nat)
    requires Inv(s) && w < |s.workers| && s.workers[w].phase == Exited
    ensures s.workers[w].idleDone && AnyIdleDone(s.workers)
  {
    assert GoodWorker(s.fibers, s.workers[w]);
  }

  /** The step by which a worker leaves run() found no eligible entry. */
  lemma LeavesOnlyWithNothingToDo(s: System, step: Step, w: nat)
    requires Enabled(s, step) && w < |s.workers|
    requires s.workers[w].phase != Exited && w < |Next(s, step).workers| && Next(s, step).workers[w].phase == Exited
    ensures step == Loop(w, SPick) && s.workers[w].idleDone
    ensures forall i :: 0 <= i < |s.tasks| ==> !Eligible(s.tasks[i], w, Executing(s))
  {
    if !(step.Outer? && step.outer.SIdleExit?) { OtherStepsStayInside(s, step, w); }
  }

  // ---------------------------------------------------------------- the active count

  function BusySet(workers: seq<Worker>): set<nat> {
    set w: nat | w < |workers| && BusyOf(workers[w]) == 1
  }

  lemma {:induction false} TotalIsCard(workers: seq<Worker>)
    ensures Total(workers, BusyOf) == |BusySet(workers)|
  {
    if workers != [] {
      var n := |workers| - 1;
      TotalIsCard(workers[..n]);
      assert workers == workers[..n] + [workers[n]];
      TotalAppend(workers[..n], [workers[n]], BusyOf);
      assert BusySet(workers) == BusySet(workers[..n]) + (if BusyOf(workers[n]) == 1 then {n} else {});
    }
  }

  /** m_activeThreadCount is the number of workers between Pick and Return. */
  lemma ActiveCount(s: System)
    requires Reachable(s)
    ensures s.active == |BusySet(s.workers)|
  {
    ReachableInv(s);
    TotalIsCard(s.workers);
  }
}
