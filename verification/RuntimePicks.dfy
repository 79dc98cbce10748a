// Who takes what from the task list, and who puts it there.

module RuntimePicks {
  import opened Base
  import opened FiberTypes
  import opened TaskList
  import opened Runtime
  import opened RuntimeTheorems
  import EventTable

  /** An entry that worker w may run: pinned to nobody else, and not a fiber in EXEC. */
  predicate MayRun(s: System, t: Task, w: nat) {
    && (t.thread == -1 || t.thread == w)
    && (t.work.FiberWork? && t.work.fiber in s.fibers ==> s.fibers[t.work.fiber].state != EXEC)
  }

  lemma EligibleMayRun(s: System, t: Task, w: nat)
    ensures Eligible(t, w, Executing(s)) <==> MayRun(s, t, w)
  {
  }

  /** Worker w takes entry i, the first that it may run, and leaves the others in their order. */
  predicate Takes(s: System, s': System, w: nat, i: nat) {
    && i < |s.tasks| && MayRun(s, s.tasks[i], w) && (forall j :: 0 <= j < i ==> !MayRun(s, s.tasks[j], w))
    && s'.tasks == s.tasks[..i] + s.tasks[i + 1..]
    && w < |s'.workers| && s'.workers[w].phase == Picked(s.tasks[i].work)
  }

  /** The scan at the head of a round: the first entry that the worker may run is taken; when it takes
      none, there is none that it may run. */
  lemma PickTakes(s: System, w: nat)
    requires Enabled(s, Loop(w, SPick))
    ensures var s' := Next(s, Loop(w, SPick));
            if s'.workers[w].phase.Picked? then exists i :: 0 <= i < |s.tasks| && Takes(s, s', w, i)
            else s'.tasks == s.tasks && forall j :: 0 <= j < |s.tasks| ==> !MayRun(s, s.tasks[j], w)
  {
    var s' := Next(s, Loop(w, SPick));
    var i := FirstEligible(s.tasks, w, Executing(s));
    forall j | 0 <= j < i ensures !MayRun(s, s.tasks[j], w) { EligibleMayRun(s, s.tasks[j], w); }
    if i < |s.tasks| {
      EligibleMayRun(s, s.tasks[i], w);
      assert Takes(s, s', w, i);
    }
  }

  // ---------------------------------------------------------------- only picks take, the others append

  /** The thread that a step pins its new entry to: the caller's choice when something is scheduled by
      name, no thread otherwise. */
  function PinOf(step: Step): int {
    match step
    case Queue(_, SSpawn(_, thread)) => thread
    case Queue(_, SScheduleFiber(_, thread)) => thread
    case Queue(_, SScheduleCallback(_, thread)) => thread
    case Outer(SOuterCallback(_, thread)) => thread
    case Outer(SOuterFiber(_, thread)) => thread
    case _ => -1
  }

  /** The list grows at its end only, by entries with the given pin. */
  predicate Appends(tasks: seq<Task>, tasks': seq<Task>, thread: int) {
    tasks <= tasks' && forall k :: |tasks| <= k < |tasks'| ==> tasks'[k].thread == thread
  }

  lemma WrapAppends(tasks: seq<Task>, ws: seq<Work>)
    ensures Appends(tasks, tasks + Wrap(ws), -1)
  {
  }

  lemma OneAppended(tasks: seq<Task>, t: Task)
    ensures Appends(tasks, tasks + [t], t.thread)
  {
  }

  lemma LoopAppends(s: System, w: nat, l: LoopStep)
    requires EnabledLoop(s, w, l) && !l.SPick?
    ensures Appends(s.tasks, NextLoop(s, w, l).tasks, -1)
  {
    if l.SEnter? {
      assert NextLoop(s, w, l).tasks == s.tasks;
    } else {
      OneAppended(s.tasks, Task(FiberWork(Current(s, w)), -1));
    }
  }

  lemma EventAppends(s: System, w: nat, e: EventStep, env: bool)
    requires EnabledEvent(s, w, e, env)
    ensures Appends(s.tasks, NextEvent(s, w, e, env).tasks, -1)
  {
    match e
    case SGrowFor(fd) =>
    case SAddCallbackEvent(at, e, id) =>
    case SDelEvent(at, e) => WrapAppends(s.tasks, EventTable.ClearOne(s.table, at, e, env, false).pushed);
    case SCancelEvent(at, e) => WrapAppends(s.tasks, EventTable.ClearOne(s.table, at, e, env, true).pushed);
    case SCancelAll(at) => WrapAppends(s.tasks, EventTable.CancelAll(s.table, at, env).pushed);
    case SDispatch(at, fired) => WrapAppends(s.tasks, EventTable.Dispatch(s.table, at, fired, env).pushed);
  }

  lemma TimerAppends(s: System, w: nat, t: TimerStep)
    requires EnabledTimer(s, w, t)
    ensures Appends(s.tasks, NextTimer(s, w, t).tasks, -1)
  {
    match t
    case SRunBody => BodyAppends(s, w);
    case SCancelTimedOut(env) =>
      WrapAppends(s.tasks, EventTable.ClearOne(s.table, CurrentPc(s, w).at, CurrentPc(s, w).event, env, true).pushed);
    case SQueueTaken => WrapAppends(s.tasks, Works(s.workers[w].phase.taken));
    case _ =>
  }

  lemma BodyAppends(s: System, w: nat)
    requires EnabledTimer(s, w, SRunBody)
    ensures Appends(s.tasks, NextTimer(s, w, SRunBody).tasks, -1)
  {
    match s.workers[w].phase.body.value
    case WakeFiber(g) => OneAppended(s.tasks, Task(FiberWork(g), -1));
    case _ =>
  }

  lemma IoAppends(s: System, w: nat, i: IoStep)
    requires EnabledIo(s, w, i)
    ensures NextIo(s, w, i).tasks == s.tasks
  {
  }

  lemma QueueAppends(s: System, w: nat, q: QueueStep)
    requires EnabledQueue(s, w, q)
    ensures Appends(s.tasks, NextQueue(s, w, q).tasks, PinOf(Queue(w, q)))
  {
  }

  lemma OuterAppends(s: System, o: OuterStep)
    requires EnabledOuter(s, o)
    ensures Appends(s.tasks, NextOuter(s, o).tasks, PinOf(Outer(o)))
  {
  }

  /** The list is first come, first served: no step but a pick takes an entry away or moves one, and what
      is added goes to the end, pinned as its caller asked and otherwise to no thread. */
  lemma OnlyPicksTake(s: System, step: Step)
    requires Enabled(s, step) && !(step.Loop? && step.loop.SPick?)
    ensures Appends(s.tasks, Next(s, step).tasks, PinOf(step))
  {
    match step
    case Loop(w, l) => LoopAppends(s, w, l);
    case Queue(w, q) => QueueAppends(s, w, q);
    case Events(w, e, env) => EventAppends(s, w, e, env);
    case Ios(w, i) => IoAppends(s, w, i);
    case Timers(w, t) => TimerAppends(s, w, t);
    case Outer(o) => OuterAppends(s, o);
  }

  // ---------------------------------------------------------------- pinned entries wait for their worker

  /** The entries pinned to a thread, in order. */
  function PinnedTo(tasks: seq<Task>, thread: nat): seq<Task> {
    if tasks == [] then []
    else (if tasks[0].thread == thread then [tasks[0]] else []) + PinnedTo(tasks[1..], thread)
  }

  lemma {:induction false} PinnedAppend(a: seq<Task>, b: seq<Task>, thread: nat)
    ensures PinnedTo(a + b, thread) == PinnedTo(a, thread) + PinnedTo(b, thread)
  {
    if a == [] {
      assert a + b == b;
    } else {
      PinnedAppend(a[1..], b, thread);
      PinnedHead(a[0], a[1..], b, a, a + b, thread);
    }
  }

  lemma PinnedHead(t: Task, rest: seq<Task>, b: seq<Task>, a: seq<Task>, all: seq<Task>, thread: nat)
    requires a == [t] + rest && all == a + b
    ensures PinnedTo(a, thread) == (if t.thread == thread then [t] else []) + PinnedTo(rest, thread)
    ensures PinnedTo(all, thread) == (if t.thread == thread then [t] else []) + PinnedTo(rest + b, thread)
  {
    assert a[1..] == rest && all[1..] == rest + b && all[0] == t;
  }

  lemma PinnedTaken(tasks: seq<Task>, i: nat, thread: nat)
    requires i < |tasks| && tasks[i].thread != thread
    ensures PinnedTo(tasks[..i] + tasks[i + 1..], thread) == PinnedTo(tasks, thread)
  {
    assert tasks == tasks[..i] + ([tasks[i]] + tasks[i + 1..]);
    PinnedAppend(tasks[..i], tasks[i + 1..], thread);
    PinnedAppend(tasks[..i], [tasks[i]] + tasks[i + 1..], thread);
    PinnedAppend([tasks[i]], tasks[i + 1..], thread);
    assert PinnedTo([tasks[i]], thread) == [];
  }

  predicate PicksOf(step: Step, thread: nat) { step == Loop(thread, SPick) }

  lemma StepKeepsPinned(s: System, step: Step, thread: nat)
    requires Enabled(s, step) && !PicksOf(step, thread)
    ensures PinnedTo(s.tasks, thread) <= PinnedTo(Next(s, step).tasks, thread)
  {
    var s' := Next(s, step);
    if step.Loop? && step.loop.SPick? {
      PickTakes(s, step.w);
      if s'.workers[step.w].phase.Picked? {
        var i :| 0 <= i < |s.tasks| && Takes(s, s', step.w, i);
        PinnedTaken(s.tasks, i, thread);
      }
    } else {
      OnlyPicksTake(s, step);
      assert s'.tasks == s.tasks + s'.tasks[|s.tasks|..];
      PinnedAppend(s.tasks, s'.tasks[|s.tasks|..], thread);
    }
  }

  /** Over any run in which a worker does not pick, the entries pinned to its thread stay on the list, in
      their order and ahead of those that come later: no other worker takes one. */
  lemma {:induction false} PinnedWait(s: System, run: seq<Step>, thread: nat)
    requires Legal(s, run) && forall k :: 0 <= k < |run| ==> !PicksOf(run[k], thread)
    ensures PinnedTo(s.tasks, thread) <= PinnedTo(After(s, run).tasks, thread)
    decreases |run|
  {
    if run != [] {
      StepKeepsPinned(s, run[0], thread);
      assert !PicksOf(run[0], thread);
      forall k | 0 <= k < |run[1..]| ensures !PicksOf(run[1..][k], thread) {
        assert run[1..][k] == run[k + 1];
      }
      PinnedWait(Next(s, run[0]), run[1..], thread);
    }
  }
}
