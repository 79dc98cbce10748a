// IOManager as an object: the scheduler, the event table and the workers' positions in fields
// that the methods update, each method tied to the step function that specifies it.

module IOManagers {
  import opened Base
  import opened FiberTypes
  import opened TaskList
  import opened Runtime
  import EventTable
  import EventTableProofs
  import EventTableRuns
  import RuntimeInvariant
  import RuntimeKeeps

  class FdContext {
    /** The place of this context among all that were ever made. */
    ghost const id: nat
    var fd: nat
    var events: Mask
    var read: EventTable.EventContext
    var write: EventTable.EventContext

    function State(): EventTable.FdContext
      reads this
    {
      EventTable.FdContext(fd, events, read, write)
    }

    constructor (fd: nat, ghost id: nat)
      ensures State() == EventTable.Unused(fd) && this.id == id
    {
      this.fd, this.id := fd, id;
      events, read, write := NONE, EventTable.EMPTY, EventTable.EMPTY;
    }

    method SetContext(e: Event, c: EventTable.EventContext)
      modifies this
      ensures State() == old(State()).With(e, c)
    {
      match e {
        case READ => read := c;
        case WRITE => write := c;
      }
    }

    /** Clears the bit, then hands the callback, or else the fiber, to the scheduler. The
        scheduler swaps the work out of the context, so the context ends up empty. */
    method TriggerEvent(e: Event, scheduler: IOManager)
      requires events.Has(e) && EventTable.ContextOk(State())
      modifies this, scheduler`tasks
      ensures State() == EventTable.ClearBit(old(State()), e)
      ensures scheduler.tasks == old(scheduler.tasks) + Wrap(EventTable.Listed(EventTable.WorkOf(old(State()).Get(e))))
    {
      events := events.Set(e, false);
      var ctx := State().Get(e);
      var _ := scheduler.Schedule(EventTable.WorkOf(ctx), -1);
      ctx := if ctx.cb.Some? then ctx.(cb := None) else ctx.(fiber := None);
      SetContext(e, ctx.(hasScheduler := false));
    }
  }

  /** What the kernel was told about an fd: the events, and data.ptr. */
  datatype Watched = Watched(mask: Mask, ptr: FdContext)

  ghost function Interests(kernel: map<nat, Watched>): map<nat, EventTable.Interest> {
    map fd | fd in kernel :: EventTable.Interest(kernel[fd].mask, kernel[fd].ptr.id)
  }

  ghost function StatesOf(made: seq<FdContext>): (r: seq<EventTable.FdContext>)
    reads made
    ensures |r| == |made| && forall i :: 0 <= i < |made| ==> r[i] == made[i].State()
  {
    seq(|made|, i requires 0 <= i < |made| reads made => made[i].State())
  }

  ghost function Ids(contexts: seq<FdContext>): (r: seq<nat>)
    ensures |r| == |contexts| && forall i :: 0 <= i < |contexts| ==> r[i] == contexts[i].id
  {
    seq(|contexts|, i requires 0 <= i < |contexts| => contexts[i].id)
  }

  /** One entry of epoll_wait's answer. */
  datatype KernelReport = KernelReport(ctx: FdContext, reported: Mask, errorOrHup: bool, env: bool)

  class IOManager {
    // Scheduler
    var tasks: seq<Task>
    var active: int
    var autoStop: bool
    var stopping: bool
    var workers: seq<Worker>
    var fibers: map<FiberId, Fiber>
    // the event table: m_fdContexts, all contexts ever made, the kernel's interest set
    var contexts: seq<FdContext>
    ghost var made: seq<FdContext>
    var kernel: map<nat, Watched>
    var pending: int
    // timers and timer_info objects
    var timers: seq<Timer>
    var nextTimer: nat
    var infos: map<nat, bool>
    var nextInfo: nat
    ghost var dropped: set<FiberId>

    /** Contexts are told apart by their place among all that were made; the vector and the kernel
        hold contexts that were made. */
    ghost predicate Valid()
      reads `contexts, `made, `kernel
    {
      && (forall i :: 0 <= i < |made| ==> made[i].id == i)
      && (forall i :: 0 <= i < |contexts| ==> Made(contexts[i]))
      && (forall fd :: fd in kernel ==> Made(kernel[fd].ptr))
    }

    ghost predicate Made(ctx: FdContext)
      reads `made
    {
      ctx.id < |made| && made[ctx.id] == ctx
    }

    ghost function States(): seq<EventTable.FdContext>
      reads `made, made
    {
      StatesOf(made)
    }

    ghost function TableState(): EventTable.Table
      reads `contexts, `made, `kernel, `pending, made
    {
      EventTable.Table(States(), Ids(contexts), Interests(kernel), pending)
    }

    ghost function Sys(): System
      reads this, made
    {
      System(tasks, active, autoStop, stopping, workers, fibers, TableState(), timers, nextTimer, infos, nextInfo, dropped)
    }

    // -------------------------------------------------------------- scheduling

    /** An empty FiberAndThread is not queued; a tickle is asked for when the list was empty. */
    method ScheduleNoLock(work: Option<Work>, thread: int) returns (needTickle: bool)
      modifies this`tasks
      ensures (tasks, needTickle) == Scheduled(old(tasks), work, thread)
      ensures tasks == (if work.Some? then old(tasks) + [Task(work.value, thread)] else old(tasks))
      ensures needTickle <==> old(tasks) == []
    {
      needTickle := tasks == [];
      if work.Some? {
        tasks := tasks + [Task(work.value, thread)];
      }
    }

    method Schedule(work: Option<Work>, thread: int) returns (needTickle: bool)
      modifies this`tasks
      ensures (tasks, needTickle) == Scheduled(old(tasks), work, thread)
    {
      needTickle := ScheduleNoLock(work, thread);
    }

    /** The batch form: the non-empty items are queued in order, unpinned, and a tickle is asked
        for exactly when the list was empty before the batch and the batch is not. */
    method ScheduleAll(works: seq<Option<Work>>) returns (needTickle: bool)
      modifies this`tasks
      ensures tasks == old(tasks) + Wrap(Present(works))
      ensures needTickle <==> works != [] && old(tasks) == []
    {
      needTickle := false;
      var i := 0;
      while i < |works|
        invariant 0 <= i <= |works| && tasks == Batch(old(tasks), works, i)
        invariant needTickle <==> i > 0 && old(tasks) == []
      {
        BatchStep(old(tasks), works, i);
        var need := ScheduleNoLock(works[i], -1);
        needTickle := need || needTickle;
        i := i + 1;
      }
      assert works[..|works|] == works;
    }

    // -------------------------------------------------------------- run()

    /** The locked scan of one round. */
    method PickTask(thread: nat) returns (ft: Option<Task>, tickleMe: bool)
      requires thread < |workers|
      modifies this`tasks, this`active
      ensures var i := FirstEligible(old(tasks), thread, Executing(old(Sys())));
        && (if i < |old(tasks)|
            then ft == Some(old(tasks)[i]) && tasks == Without(old(tasks), i) && active == old(active) + 1
            else ft == None && tasks == old(tasks) && active == old(active))
        && (tickleMe <==> exists j :: 0 <= j < i && old(tasks)[j].thread != -1 && old(tasks)[j].thread != thread)
        && (forall j :: 0 <= j < i ==>
              (old(tasks)[j].thread != -1 && old(tasks)[j].thread != thread) || InExec(fibers, old(tasks)[j]))
      ensures ft.Some? ==> (ft.value.thread == -1 || ft.value.thread == thread) && !InExec(fibers, ft.value)
    {
      ft, tickleMe := None, false;
      ghost var executing := Executing(Sys());
      ghost var first := FirstEligible(tasks, thread, executing);
      var it := 0;
      while it < |tasks|
        invariant 0 <= it <= |tasks| && it <= first
        invariant tasks == old(tasks) && active == old(active) && ft == None
        invariant forall j :: 0 <= j < it ==> !Eligible(tasks[j], thread, executing)
        invariant tickleMe <==> exists j :: 0 <= j < it && tasks[j].thread != -1 && tasks[j].thread != thread
        invariant forall j :: 0 <= j < it ==>
                    (tasks[j].thread != -1 && tasks[j].thread != thread) || InExec(fibers, tasks[j])
      {
        if ForOther(tasks[it], thread) {
          it := it + 1;
          tickleMe := true;
          continue;
        }
        if tasks[it].work.FiberWork? && tasks[it].work.fiber in fibers && fibers[tasks[it].work.fiber].state == EXEC {
          it := it + 1;
          continue;
        }
        assert Eligible(tasks[it], thread, executing);
        ft := Some(tasks[it]);
        tasks := Without(tasks, it);
        active := active + 1;
        break;
      }
    }

    /** One round up to the switch: take a task, or go idle, or leave. */
    method TakeRound(w: nat)
      requires w < |workers| && workers[w].phase == Head
      modifies this`tasks, this`active, this`workers
      ensures Sys() == Pick(old(Sys()), w)
    {
      var ft, tickleMe := PickTask(w);
      if ft.Some? {
        workers := workers[w := workers[w].(phase := Picked(ft.value.work))];
      } else if workers[w].idleDone {
        workers := workers[w := workers[w].(phase := Exited)];
      } else {
        workers := workers[w := workers[w].(phase := Idle(0, []))];
      }
    }

    /** Starting what was taken. */
    method StartRound(w: nat, spare: FiberId)
      requires w < |workers| && workers[w].phase.Picked?
      requires workers[w].phase.work.FiberWork? ==> workers[w].phase.work.fiber in fibers
      modifies this`active, this`workers, this`fibers
      ensures Sys() == Enter(old(Sys()), w, spare)
    {
      var k := workers[w];
      match k.phase.work {
        case FiberWork(f) =>
          if fibers[f].state != TERM && fibers[f].state != EXCEPT {
            fibers := fibers[f := Fiber(EXEC, Awake(fibers[f].pc))];
            workers := workers[w := k.(phase := Running(f, None))];
          } else {
            active := active - 1;
            workers := workers[w := k.(phase := Head)];
          }
        case CallbackWork(cb) =>
          var g := spare;
          if k.cbFiber.Some? {
            g := k.cbFiber.value;
          }
          fibers := fibers[g := Fiber(INIT, Code)];
          fibers := fibers[g := Fiber(EXEC, Code)];
          workers := workers[w := Worker(Running(g, BodyOf(cb)), Some(g), k.idleDone)];
      }
    }

    /** The bookkeeping after swapIn comes back from a fiber that was taken from the list. */
    method EndFiberRound(w: nat, st: FiberState, pc: Pc)
      requires Runs(Sys(), w) && workers[w].cbFiber != Some(workers[w].phase.fiber)
      modifies this`tasks, this`active, this`workers, this`fibers
      ensures Sys() == Return(old(Sys()), w, st, pc)
    {
      var k := workers[w];
      var f := k.phase.fiber;
      var final := st;
      active := active - 1;
      if st == READY {
        var _ := Schedule(Some(FiberWork(f)), -1);
      } else if st != TERM && st != EXCEPT {
        final := HOLD;
      }
      fibers := fibers[f := Fiber(final, pc)];
      workers := workers[w := k.(phase := Head)];
    }

    /** The bookkeeping after swapIn comes back from the worker's callback fiber. */
    method EndCallbackRound(w: nat, st: FiberState, pc: Pc)
      requires Runs(Sys(), w) && workers[w].cbFiber == Some(workers[w].phase.fiber)
      modifies this`tasks, this`active, this`workers, this`fibers
      ensures Sys() == Return(old(Sys()), w, st, pc)
    {
      var k := workers[w];
      var f := k.phase.fiber;
      var final := HOLD;
      active := active - 1;
      if st == READY {
        var _ := Schedule(Some(FiberWork(f)), -1);
        final := READY;
        k := k.(cbFiber := None);
      } else if st == TERM || st == EXCEPT {
        final := INIT;
      } else {
        k := k.(cbFiber := None);
      }
      fibers := fibers[f := Fiber(final, pc)];
      workers := workers[w := k.(phase := Head)];
    }

    /** The bookkeeping after swapIn comes back. */
    method EndRound(w: nat, st: FiberState, pc: Pc)
      requires Runs(Sys(), w)
      modifies this`tasks, this`active, this`workers, this`fibers
      ensures Sys() == Return(old(Sys()), w, st, pc)
    {
      if workers[w].cbFiber != Some(workers[w].phase.fiber) {
        EndFiberRound(w, st, pc);
      } else {
        EndCallbackRound(w, st, pc);
      }
    }

    /** The flags that stop() sets. */
    method Stop()
      modifies this`autoStop, this`stopping
      ensures Sys() == NextOuter(old(Sys()), SStop)
    {
      autoStop := true;
      stopping := true;
    }

    // -------------------------------------------------------------- events

    /** epoll_ctl on the kernel's interest set; 0 is success. */
    method EpollCtl(op: EventTable.CtlOp, fd: nat, mask: Mask, ctx: FdContext, env: bool) returns (rt: int)
      requires Valid() && Made(ctx)
      modifies this`kernel
      ensures Valid()
      ensures match EventTable.EpollCtl(Interests(old(kernel)), op, fd, EventTable.Interest(mask, ctx.id), env)
              case None => rt == -1 && kernel == old(kernel)
              case Some(k) => rt == 0 && Interests(kernel) == k
    {
      if !env || (op == EventTable.CtlAdd && fd in kernel) || (op != EventTable.CtlAdd && fd !in kernel) {
        return -1;
      }
      kernel := if op == EventTable.CtlDel then kernel - {fd} else kernel[fd := Watched(mask, ctx)];
      rt := 0;
    }

    /** New contexts for the places behind the end of the vector. */
    method FillUp(size: nat)
      requires Valid() && |contexts| <= size
      modifies this`contexts, this`made
      ensures Valid() && old(made) <= made && fresh(made[|old(made)|..])
      ensures TableState() == EventTable.Resize(old(TableState()), size)
    {
      ghost var n := |contexts|;
      while |contexts| < size
        invariant Valid() && n <= |contexts| <= size && contexts[..n] == old(contexts)
        invariant old(made) <= made && |made| == |old(made)| + |contexts| - n
        invariant forall i :: |old(made)| <= i < |made| ==> fresh(made[i])
        invariant forall i :: n <= i < |contexts| ==> contexts[i].id == |old(made)| + i - n
        invariant forall i :: |old(made)| <= i < |made| ==> made[i].State() == EventTable.Unused(n + i - |old(made)|)
      {
        ghost var id := |made|;
        var ctx := new FdContext(|contexts|, id);
        contexts := contexts + [ctx];
        made := made + [ctx];
      }
      assert States() == old(States()) + EventTable.UnusedFrom(n, size - n);
      assert Ids(contexts) == Ids(old(contexts)) + EventTable.IdsFrom(|old(made)|, size - n);
    }

    /** Cuts the vector short, or fills it up with new contexts; no context is freed. */
    method ContextResize(size: nat)
      requires Valid()
      modifies this`contexts, this`made
      ensures Valid() && old(made) <= made && fresh(made[|old(made)|..])
      ensures TableState() == EventTable.Resize(old(TableState()), size)
    {
      if size < |contexts| {
        contexts := contexts[..size];
        assert Ids(contexts) == Ids(old(contexts))[..size];
        assert States() == old(States());
      } else {
        FillUp(size);
      }
    }

    /** The contexts other than ctx are untouched, so only its entry of States() moves. */
    twostate lemma OneContext(ctx: FdContext)
      requires made == old(made) && contexts == old(contexts) && Made(ctx)
      requires forall i :: 0 <= i < |made| ==> made[i].id == i && (made[i] != ctx ==> unchanged(made[i]))
      ensures TableState() ==
                EventTable.Table(old(TableState()).contexts[ctx.id := ctx.State()], old(TableState()).vector,
                                 Interests(kernel), pending)
    {
    }

    /** The table when the context becomes c and n bits more are counted. */
    ghost function With(ctx: FdContext, c: EventTable.FdContext, n: int): EventTable.Table
      requires Made(ctx)
      reads `contexts, `made, `kernel, `pending, made
    {
      Moved(TableState(), ctx.id, c, n)
    }

    /** The end of addEvent: the event is counted, its bit set, and its context filled. */
    method FillSlot(ctx: FdContext, e: Event, work: Work)
      requires Valid() && Made(ctx) && ctx.State().Get(e) == EventTable.EMPTY
      modifies this`pending, ctx
      ensures TableState() == old(With(ctx, EventTable.SetBit(ctx.State(), e, work), 1))
    {
      pending := pending + 1;
      ctx.events := ctx.events.Set(e, true);
      ctx.SetContext(e, EventTable.ContextOf(work));
      OneContext(ctx);
    }

    /** The end of delEvent: the event is no longer counted, its bit and context are reset. */
    method ResetSlot(ctx: FdContext, e: Event)
      requires Valid() && Made(ctx)
      modifies this`pending, ctx
      ensures TableState() == old(With(ctx, EventTable.ClearBit(ctx.State(), e), -1))
    {
      pending := pending - 1;
      ctx.events := ctx.events.Set(e, false);
      ctx.SetContext(e, EventTable.EMPTY);
      OneContext(ctx);
    }

    /** The end of cancelEvent: the event is triggered and no longer counted. */
    method TriggerSlot(ctx: FdContext, e: Event)
      requires Valid() && Made(ctx) && ctx.events.Has(e) && EventTable.ContextOk(ctx.State())
      modifies this`pending, this`tasks, ctx
      ensures TableState() == old(With(ctx, EventTable.ClearBit(ctx.State(), e), -1))
      ensures tasks == old(tasks) + Wrap(EventTable.Listed(EventTable.WorkOf(old(ctx.State()).Get(e))))
    {
      ctx.TriggerEvent(e, this);
      pending := pending - 1;
      OneContext(ctx);
    }

    /** Triggers the given events of one context, READ before WRITE; each must be set. */
    method TriggerAll(ctx: FdContext, which: Mask)
      requires Valid() && Made(ctx) && EventTable.ContextOk(ctx.State()) && which.Within(ctx.events)
      modifies this`pending, this`tasks, ctx
      ensures TableState() == old(With(ctx, EventTable.Trigger(ctx.State(), which).0, 0 - which.Count()))
      ensures tasks == old(tasks) + Wrap(EventTable.Trigger(old(ctx.State()), which).1)
    {
      ghost var t, c := TableState(), ctx.State();
      assert c == States()[ctx.id];
      if which.read {
        TriggerSlot(ctx, READ);
      }
      assert ctx.State() == States()[ctx.id];
      if which.write {
        TriggerSlot(ctx, WRITE);
      }
      MovedTwice(t, ctx.id, c, which);
    }

    /** The section under the read lock. */
    method Locate(fd: nat) returns (ctx: FdContext?)
      requires Valid()
      ensures match EventTable.Locate(TableState(), fd)
              case None => ctx == null
              case Some(at) => ctx != null && Made(ctx) && ctx.id == at
    {
      ctx := if fd < |contexts| then contexts[fd] else null;
    }

    /** addEvent's section under the write lock, when fd was not found. */
    method GrowFor(fd: nat) returns (ctx: FdContext)
      requires Valid() && EventTable.Valid(TableState()) && fd >= EventTable.INITIAL_CONTEXTS
      modifies this`contexts, this`made
      ensures Valid() && old(made) <= made && fresh(made[|old(made)|..]) && Made(ctx)
      ensures EventTable.Valid(TableState()) && TableState() == EventTable.GrowFor(old(TableState()), fd)
      ensures EventTable.Locate(TableState(), fd) == Some(ctx.id)
    {
      EventTableProofs.GrowForLocates(TableState(), fd);
      ContextResize(fd * 3 / 2);
      assert fd < |Ids(contexts)|;
      ctx := contexts[fd];
    }

    /** addEvent's section under the lock of the context; rc is 0 on success and -1 when the kernel
        refuses. A set bit fails the assertion. */
    method RegisterAt(ctx: FdContext, e: Event, work: Work, env: bool) returns (rc: int, aborted: bool)
      requires Valid() && Made(ctx) && EventTable.ContextOk(ctx.State())
      modifies this`kernel, this`pending, ctx
      ensures Valid()
      ensures var r := EventTable.AddEvent(old(TableState()), ctx.id, e, work, env);
              TableState() == r.table && rc == (if r.ok then 0 else -1) && aborted == r.aborted
    {
      rc, aborted := -1, false;
      ghost var t := TableState();
      assert ctx.State() == States()[ctx.id];
      if ctx.events.Has(e) {
        aborted := true;
        return;
      }
      var op := if ctx.events.IsNone() then EventTable.CtlAdd else EventTable.CtlMod;
      var rt := EpollCtl(op, ctx.fd, ctx.events.Set(e, true), ctx, env);
      if rt != 0 {
        return;
      }
      AddGranted(t, TableState(), ctx.id, e, work, env);
      FillSlot(ctx, e, work);
      rc := 0;
    }

    /** addEvent with nothing in between its three sections. */
    method AddEvent(fd: nat, e: Event, work: Work, env: bool) returns (rc: int, aborted: bool)
      requires Valid() && EventTable.Valid(TableState())
      modifies this`contexts, this`made, this`kernel, this`pending, made
      ensures Valid()
      ensures var t := Grown(old(TableState()), fd);
              match EventTable.Locate(t, fd)
              case None => false
              case Some(at) =>
                at < |t.contexts| &&
                var r := EventTable.AddEvent(t, at, e, work, env);
                TableState() == r.table && rc == (if r.ok then 0 else -1) && aborted == r.aborted
    {
      var found := Locate(fd);
      if found != null {
        assert found.State() == States()[found.id];
        rc, aborted := RegisterAt(found, e, work, env);
      } else {
        var ctx := GrowFor(fd);
        assert ctx in old(made) || ctx in made[|old(made)|..];
        assert ctx.State() == States()[ctx.id];
        rc, aborted := RegisterAt(ctx, e, work, env);
      }
    }

    /** delEvent's section under the lock: one registration is dropped without running it. */
    method DropAt(ctx: FdContext, e: Event, env: bool) returns (ok: bool)
      requires Valid() && Made(ctx)
      modifies this`kernel, this`pending, ctx
      ensures Valid()
      ensures var r := EventTable.ClearOne(old(TableState()), ctx.id, e, env, false); TableState() == r.table && ok == r.ok
    {
      ghost var t := TableState();
      assert ctx.State() == States()[ctx.id];
      if !ctx.events.Has(e) {
        return false;
      }
      var rest := ctx.events.Set(e, false);
      var rt := EpollCtl(if rest.IsNone() then EventTable.CtlDel else EventTable.CtlMod, ctx.fd, rest, ctx, env);
      if rt != 0 {
        return false;
      }
      ClearGranted(t, TableState(), ctx.id, e, env, false);
      ResetSlot(ctx, e);
      ok := true;
    }

    method DelEvent(fd: nat, e: Event, env: bool) returns (ok: bool)
      requires Valid() && EventTable.Valid(TableState())
      modifies this`kernel, this`pending, this`dropped, made
      ensures Valid()
      ensures var r := ClearByFd(old(TableState()), fd, e, env, false);
              TableState() == r.table && dropped == old(dropped) + FibersOf(r.dropped) && ok == r.ok
    {
      ghost var gone := FibersOf(ClearByFd(TableState(), fd, e, env, false).dropped);
      var ctx := Locate(fd);
      if ctx == null {
        assert gone == {};
        return false;
      }
      ok := DropAt(ctx, e, env);
      dropped := dropped + gone;
    }

    /** cancelEvent's section under the lock: one registration is taken out and its work queued. */
    method CancelAt(ctx: FdContext, e: Event, env: bool) returns (ok: bool)
      requires Valid() && Made(ctx) && EventTable.ContextOk(ctx.State())
      modifies this`kernel, this`pending, this`tasks, ctx
      ensures Valid()
      ensures var r := EventTable.ClearOne(old(TableState()), ctx.id, e, env, true);
              TableState() == r.table && tasks == old(tasks) + Wrap(r.pushed) && ok == r.ok
    {
      ghost var t := TableState();
      assert ctx.State() == States()[ctx.id];
      if !ctx.events.Has(e) {
        return false;
      }
      var rest := ctx.events.Set(e, false);
      var rt := EpollCtl(if rest.IsNone() then EventTable.CtlDel else EventTable.CtlMod, ctx.fd, rest, ctx, env);
      if rt != 0 {
        return false;
      }
      ClearGranted(t, TableState(), ctx.id, e, env, true);
      TriggerSlot(ctx, e);
      ok := true;
    }

    method CancelEvent(fd: nat, e: Event, env: bool) returns (ok: bool)
      requires Valid() && EventTable.Valid(TableState())
      modifies this`kernel, this`pending, this`tasks, made
      ensures Valid()
      ensures var r := ClearByFd(old(TableState()), fd, e, env, true);
              TableState() == r.table && tasks == old(tasks) + Wrap(r.pushed) && ok == r.ok
    {
      var ctx := Locate(fd);
      if ctx == null {
        return false;
      }
      assert ctx.State() == States()[ctx.id];
      ok := CancelAt(ctx, e, env);
    }

    /** cancelAll's section under the lock: every registration is taken out and queued. */
    method CancelAllAt(ctx: FdContext, env: bool) returns (ok: bool)
      requires Valid() && Made(ctx) && EventTable.ContextOk(ctx.State())
      modifies this`kernel, this`pending, this`tasks, ctx
      ensures Valid()
      ensures var r := EventTable.CancelAll(old(TableState()), ctx.id, env);
              TableState() == r.table && tasks == old(tasks) + Wrap(r.pushed) && ok == r.ok
    {
      ghost var r := EventTable.CancelAll(TableState(), ctx.id, env);
      assert ctx.State() == States()[ctx.id];
      if ctx.events.IsNone() {
        return false;
      }
      var rt := EpollCtl(EventTable.CtlDel, ctx.fd, NONE, ctx, env);
      if rt != 0 {
        return false;
      }
      TriggerAll(ctx, ctx.events);
      assert TableState() == r.table;
      ok := true;
    }

    method CancelAll(fd: nat, env: bool) returns (ok: bool)
      requires Valid() && EventTable.Valid(TableState())
      modifies this`kernel, this`pending, this`tasks, made
      ensures Valid()
      ensures var r := CancelAllByFd(old(TableState()), fd, env);
              TableState() == r.table && tasks == old(tasks) + Wrap(r.pushed) && ok == r.ok
    {
      var ctx := Locate(fd);
      if ctx == null {
        return false;
      }
      assert ctx.State() == States()[ctx.id];
      ok := CancelAllAt(ctx, env);
    }

    /** The rest of a dispatch loop entry, for the events it acts on. A bit that is not registered
        fails the assertion of triggerEvent when another one is. */
    method DispatchAt(ctx: FdContext, fired: Mask, env: bool) returns (aborted: bool)
      requires Valid() && Made(ctx) && EventTable.ContextOk(ctx.State())
      modifies this`kernel, this`pending, this`tasks, ctx
      ensures var r := EventTable.Dispatch(old(TableState()), ctx.id, fired, env);
              && aborted == r.aborted
              && (!aborted ==> Valid() && TableState() == r.table && tasks == old(tasks) + Wrap(r.pushed))
    {
      ghost var t := TableState();
      assert ctx.State() == States()[ctx.id];
      aborted := false;
      if !fired.Meets(ctx.events) {
        return;
      }
      var left := ctx.events.Minus(fired);
      var rt := EpollCtl(if left.IsNone() then EventTable.CtlDel else EventTable.CtlMod, ctx.fd, left, ctx, env);
      if rt != 0 {
        return;
      }
      if !fired.Within(ctx.events) {
        aborted := true;
        return;
      }
      DispatchGranted(t, TableState(), ctx.id, fired, env);
      TriggerAll(ctx, fired);
    }

    /** A hit event of the report's context is registered, and the kernel grants the call. */
    ghost predicate ActsOn(k: KernelReport)
      reads `kernel, k.ctx
    {
      k.env && k.ctx.fd in kernel && EventTableProofs.HitsSome(k.ctx.State(), k.reported, k.errorOrHup)
    }

    /** One entry of the dispatch loop, under the lock of the context that the kernel handed back.
        An error or hang-up stands for every registered event as well; what is reported is not cut down
        to the registered bits. */
    method HandleReport(k: KernelReport) returns (aborted: bool)
      requires Valid() && Made(k.ctx) && EventTable.ContextOk(k.ctx.State())
      modifies this`kernel, this`pending, this`tasks, k.ctx
      ensures var r := EventTableRuns.Apply(old(TableState()), ReportOp(old(TableState()), k));
              && aborted == r.aborted
              && (!aborted ==> Valid() && TableState() == r.table && tasks == old(tasks) + Wrap(r.pushed))
      ensures aborted == old(ActsOn(k) && EventTableProofs.HasStale(k.ctx.State(), k.reported))
      ensures && (!old(ActsOn(k)) ==> k.ctx.State() == old(k.ctx.State()) && tasks == old(tasks))
              && (old(ActsOn(k)) && !aborted ==>
                    && (forall e: Event :: EventTableProofs.Answered(old(k.ctx.State()), k.ctx.State(), k.reported, k.errorOrHup, e))
                    && tasks == old(tasks) + Wrap(EventTableProofs.HitWork(old(k.ctx.State()), k.reported, k.errorOrHup)))
    {
      ghost var t, c := TableState(), k.ctx.State();
      assert c == States()[k.ctx.id];
      var fired := EventTable.RealEvents(k.reported, k.errorOrHup, k.ctx.events);
      ReportAnswered(t, k.ctx.id, c, k.reported, k.errorOrHup, fired, k.env);
      aborted := DispatchAt(k.ctx, fired, k.env);
      assert k.ctx.State() == States()[k.ctx.id];
    }

    /** The dispatch loop over everything epoll_wait returned, up to an assertion that fails. */
    method HandleReports(reports: seq<KernelReport>) returns (aborted: bool)
      requires Valid() && EventTable.Valid(TableState())
      requires forall i :: 0 <= i < |reports| ==> Made(reports[i].ctx)
      modifies this`kernel, this`pending, this`tasks, made
      ensures var h := RunReports(old(TableState()), reports);
              && aborted == h.aborted
              && (!aborted ==> Valid() && TableState() == h.table && tasks == old(tasks) + Wrap(h.pushed))
    {
      aborted := false;
      var i := 0;
      while i < |reports|
        invariant 0 <= i <= |reports| && Valid() && EventTable.Valid(TableState())
        invariant forall j :: 0 <= j < |reports| ==> Made(reports[j].ctx)
        invariant Dispatched(old(TableState()), reports[..i], old(tasks), TableState(), tasks)
      {
        OneReport(old(TableState()), reports, i, old(tasks), TableState(), tasks);
        EventTableRuns.ApplyKeeps(TableState(), ReportOp(TableState(), reports[i]));
        assert reports[i].ctx.State() == States()[reports[i].ctx.id];
        aborted := HandleReport(reports[i]);
        if aborted {
          return;
        }
        i := i + 1;
      }
      assert reports[..i] == reports;
    }
  }

  /** The entry is a fiber in EXEC. */
  predicate InExec(fibers: map<FiberId, Fiber>, t: Task) {
    t.work.FiberWork? && t.work.fiber in fibers && fibers[t.work.fiber].state == EXEC
  }

  /** One context becomes c, and n bits more are counted. */
  function Moved(t: Table, at: nat, c: EventTable.FdContext, n: int): Table
    requires at < |t.contexts|
  {
    t.(contexts := t.contexts[at := c], pending := t.pending + n)
  }

  lemma MovedTwice(t: Table, at: nat, c: EventTable.FdContext, which: Mask)
    requires at < |t.contexts| && t.contexts[at] == c
    ensures var t1 := if which.read then Moved(t, at, EventTable.ClearBit(c, READ), -1) else t;
            var t2 := if which.write then Moved(t1, at, EventTable.ClearBit(t1.contexts[at], WRITE), -1) else t1;
            t2 == Moved(t, at, EventTable.Trigger(c, which).0, 0 - which.Count())
  {
  }

  /** What is left of addEvent once the kernel has granted the call. */
  lemma AddGranted(t: Table, t1: Table, at: nat, e: Event, work: Work, env: bool)
    requires at < |t.contexts| && EventTable.ContextOk(t.contexts[at]) && !t.contexts[at].events.Has(e)
    requires t1 == t.(kernel := t1.kernel)
    requires var c := t.contexts[at];
      EventTable.EpollCtl(t.kernel, if c.events.IsNone() then EventTable.CtlAdd else EventTable.CtlMod, c.fd,
                          EventTable.Interest(c.events.Set(e, true), at), env) == Some(t1.kernel)
    ensures var c := t.contexts[at]; var r := EventTable.AddEvent(t, at, e, work, env);
            c.Get(e) == EventTable.EMPTY && r.ok && !r.aborted && r.table == Moved(t1, at, EventTable.SetBit(c, e, work), 1)
  {
  }

  /** What is left of delEvent and cancelEvent once the kernel has granted the call. */
  lemma ClearGranted(t: Table, t1: Table, at: nat, e: Event, env: bool, push: bool)
    requires at < |t.contexts| && t.contexts[at].events.Has(e) && t1 == t.(kernel := t1.kernel)
    requires var c := t.contexts[at]; var rest := c.events.Set(e, false);
      EventTable.EpollCtl(t.kernel, if rest.IsNone() then EventTable.CtlDel else EventTable.CtlMod, c.fd,
                          EventTable.Interest(rest, at), env) == Some(t1.kernel)
    ensures var c := t.contexts[at]; var r := EventTable.ClearOne(t, at, e, env, push);
            && r.ok && r.table == Moved(t1, at, EventTable.ClearBit(c, e), -1)
            && (push ==> r.pushed == EventTable.Listed(EventTable.WorkOf(c.Get(e))))
  {
  }

  /** What is left of a report once the kernel has granted the call. */
  lemma DispatchGranted(t: Table, t1: Table, at: nat, fired: Mask, env: bool)
    requires at < |t.contexts| && fired.Meets(t.contexts[at].events) && fired.Within(t.contexts[at].events)
    requires t1 == t.(kernel := t1.kernel)
    requires var c := t.contexts[at]; var left := c.events.Minus(fired);
      EventTable.EpollCtl(t.kernel, if left.IsNone() then EventTable.CtlDel else EventTable.CtlMod, c.fd,
                          EventTable.Interest(left, at), env) == Some(t1.kernel)
    ensures var c := t.contexts[at]; var r := EventTable.Dispatch(t, at, fired, env);
            && !r.aborted && r.table == Moved(t1, at, EventTable.Trigger(c, fired).0, 0 - fired.Count())
            && r.pushed == EventTable.Trigger(c, fired).1
  {
  }

  /** What the methods of a round compute from a state in which the invariant holds is such a state
      again. */
  lemma RoundKeepsInv(s: System, w: nat, spare: FiberId, st: FiberState, pc: Pc)
    requires RuntimeInvariant.Inv(s)
    ensures w < |s.workers| && s.workers[w].phase == Head ==> RuntimeInvariant.Inv(Pick(s, w))
    ensures EnabledLoop(s, w, SEnter(spare)) ==> RuntimeInvariant.Inv(Enter(s, w, spare))
    ensures RuntimeKeeps.MayReturn(s, w, st, pc) ==> RuntimeInvariant.Core(Return(s, w, st, pc))
  {
    if w < |s.workers| && s.workers[w].phase == Head { RuntimeKeeps.StepKeeps(s, Loop(w, SPick)); }
    if EnabledLoop(s, w, SEnter(spare)) { RuntimeKeeps.StepKeeps(s, Loop(w, SEnter(spare))); }
    if RuntimeKeeps.MayReturn(s, w, st, pc) { RuntimeKeeps.ReturnKeeps(s, w, st, pc); }
  }

  /** What a call by fd from running code computes keeps it, too. */
  lemma CallKeepsInv(s: System, w: nat, fd: nat, e: Event, env: bool)
    requires RuntimeInvariant.Inv(s) && Acting(s, w)
    ensures RuntimeInvariant.Inv(ApplyEffect(s, ClearByFd(s.table, fd, e, env, true)))
    ensures RuntimeInvariant.Inv(ApplyEffect(s, ClearByFd(s.table, fd, e, env, false)))
    ensures RuntimeInvariant.Inv(ApplyEffect(s, CancelAllByFd(s.table, fd, env)))
  {
    match EventTable.Locate(s.table, fd)
    case None => RuntimeKeeps.NoEffect(s);
    case Some(at) =>
      RuntimeKeeps.StepKeeps(s, Events(w, SCancelEvent(at, e), env));
      RuntimeKeeps.StepKeeps(s, Events(w, SDelEvent(at, e), env));
      RuntimeKeeps.StepKeeps(s, Events(w, SCancelAll(at), env));
  }

  /** addEvent's first two sections. */
  function Grown(t: Table, fd: nat): Table {
    if EventTable.Locate(t, fd) == None then EventTable.GrowFor(t, fd) else t
  }

  function ClearByFd(t: Table, fd: nat, e: Event, env: bool, push: bool): EventTable.Effect
    requires EventTable.Valid(t)
  {
    match EventTable.Locate(t, fd)
    case None => EventTable.Nothing(t)
    case Some(at) => EventTable.ClearOne(t, at, e, env, push)
  }

  function CancelAllByFd(t: Table, fd: nat, env: bool): EventTable.Effect
    requires EventTable.Valid(t)
  {
    match EventTable.Locate(t, fd)
    case None => EventTable.Nothing(t)
    case Some(at) => EventTable.CancelAll(t, at, env)
  }

  /** What a report leaves of its context, event by event, whatever the rest of the table is. */
  lemma ReportAnswered(t: Table, at: nat, c: EventTable.FdContext, reported: Mask, errorOrHup: bool, fired: Mask, env: bool)
    requires at < |t.contexts| && c == t.contexts[at] && EventTable.ContextOk(c)
    requires fired == EventTable.RealEvents(reported, errorOrHup, c.events)
    ensures var r := EventTable.Dispatch(t, at, fired, env);
            var acts := env && c.fd in t.kernel && EventTableProofs.HitsSome(c, reported, errorOrHup);
            && r.aborted == (acts && EventTableProofs.HasStale(c, reported))
            && (!acts ==> r == EventTable.Nothing(t))
            && (acts && !r.aborted ==>
                  && |r.table.contexts| == |t.contexts|
                  && (forall e: Event :: EventTableProofs.Answered(c, r.table.contexts[at], reported, errorOrHup, e))
                  && r.pushed == EventTableProofs.HitWork(c, reported, errorOrHup))
  {
    EventTableProofs.HitMask(c, reported, errorOrHup, fired);
    if fired.Within(c.events) { EventTableProofs.HitTriggers(c, reported, errorOrHup, fired); }
  }

  /** A call by fd and event touches that event only: delEvent and cancelEvent take its bit and its
      context, and its work is the one thrown away or queued. */
  lemma CallTouchesItsEvent(t: Table, fd: nat, at: nat, e: Event, push: bool)
    requires EventTable.Valid(t) && EventTable.Locate(t, fd) == Some(at) && t.contexts[at].events.Has(e)
    ensures var c, r := t.contexts[at], ClearByFd(t, fd, e, true, push);
            && r.ok && |r.table.contexts| == |t.contexts| && c.fd == fd
            && !r.table.contexts[at].events.Has(e) && r.table.contexts[at].Get(e) == EventTable.EMPTY
            && (forall d: Event :: d != e ==>
                  r.table.contexts[at].events.Has(d) == c.events.Has(d) && r.table.contexts[at].Get(d) == c.Get(d))
            && EventTable.WorkOf(c.Get(e)).Some?
            && r.pushed == (if push then [EventTable.WorkOf(c.Get(e)).value] else [])
            && r.dropped == (if push then [] else [EventTable.WorkOf(c.Get(e)).value])
  {
    EventTableProofs.ClearOneIs(t, at, e, true, push);
    EventTableProofs.ClearBitReleases(t.contexts[at], e);
  }

  /** A report of the kernel as an operation on the table that it meets. */
  ghost function ReportOp(t: Table, k: KernelReport): EventTableRuns.Op {
    var registered := if k.ctx.id < |t.contexts| then t.contexts[k.ctx.id].events else NONE;
    EventTableRuns.Report(k.ctx.id, EventTable.RealEvents(k.reported, k.errorOrHup, registered), k.env)
  }

  ghost function RunReports(t: Table, reports: seq<KernelReport>): EventTableRuns.History
    decreases |reports|
  {
    if reports == [] then EventTableRuns.History(t, [], [], [], false)
    else
      var n := |reports| - 1;
      var h := RunReports(t, reports[..n]);
      EventTableRuns.Extend(h, ReportOp(h.table, reports[n]))
  }

  ghost predicate Dispatched(t0: Table, done: seq<KernelReport>, tasks0: seq<Task>, t: Table, tasks: seq<Task>) {
    var h := RunReports(t0, done);
    !h.aborted && t == h.table && tasks == tasks0 + Wrap(h.pushed)
  }

  /** One more report. */
  lemma OneReport(t0: Table, reports: seq<KernelReport>, i: nat, tasks0: seq<Task>, t: Table, tasks: seq<Task>)
    requires i < |reports| && Dispatched(t0, reports[..i], tasks0, t, tasks)
    ensures var r := EventTableRuns.Apply(t, ReportOp(t, reports[i]));
            if r.aborted then RunReports(t0, reports).aborted
            else Dispatched(t0, reports[..i + 1], tasks0, r.table, tasks + Wrap(r.pushed))
  {
    var h := RunReports(t0, reports[..i]);
    var r := EventTableRuns.Apply(h.table, ReportOp(h.table, reports[i]));
    RunOneMore(t0, reports, i);
    ExtendPushes(h, ReportOp(h.table, reports[i]), r);
    Queued(tasks0, h.pushed, r.pushed);
    if r.aborted { AbortedStays(t0, reports, i + 1); }
  }

  lemma RunOneMore(t: Table, reports: seq<KernelReport>, i: nat)
    requires i < |reports|
    ensures var h := RunReports(t, reports[..i]);
            RunReports(t, reports[..i + 1]) == EventTableRuns.Extend(h, ReportOp(h.table, reports[i]))
  {
    assert reports[..i + 1][..i] == reports[..i];
  }

  lemma ExtendPushes(h: EventTableRuns.History, op: EventTableRuns.Op, r: EventTable.Effect)
    requires !h.aborted && r == EventTableRuns.Apply(h.table, op)
    ensures var h' := EventTableRuns.Extend(h, op);
            h'.table == r.table && h'.aborted == r.aborted && h'.pushed == h.pushed + r.pushed
  {
  }

  lemma Queued(tasks: seq<Task>, a: seq<Work>, b: seq<Work>)
    ensures tasks + Wrap(a + b) == tasks + Wrap(a) + Wrap(b)
  {
    WrapAppend(a, b);
    assert tasks + (Wrap(a) + Wrap(b)) == tasks + Wrap(a) + Wrap(b);
  }

  lemma {:induction false} AbortedStays(t: Table, reports: seq<KernelReport>, i: nat)
    requires i <= |reports| && RunReports(t, reports[..i]).aborted
    ensures RunReports(t, reports).aborted
    decreases |reports|
  {
    if i == |reports| {
      assert reports[..i] == reports;
    } else {
      var n := |reports| - 1;
      assert reports[..n][..i] == reports[..i];
      AbortedStays(t, reports[..n], i);
    }
  }

  /** Every reported bit is registered when the report is handled. */
  ghost predicate Fresh(t: Table, reports: seq<KernelReport>)
    decreases |reports|
  {
    reports == [] ||
    var n := |reports| - 1;
    var u := RunReports(t, reports[..n]).table;
    && Fresh(t, reports[..n])
    && reports[n].ctx.id < |u.contexts| && reports[n].reported.Within(u.contexts[reports[n].ctx.id].events)
  }

  /** Reports without stale bits, errors and hang-ups among them, fail no assertion. */
  lemma {:induction false} FreshReportsSafe(t: Table, reports: seq<KernelReport>)
    requires EventTable.Valid(t) && Fresh(t, reports)
    ensures !RunReports(t, reports).aborted && EventTable.Valid(RunReports(t, reports).table)
    decreases |reports|
  {
    if reports != [] {
      var n := |reports| - 1;
      FreshReportsSafe(t, reports[..n]);
      var u := RunReports(t, reports[..n]).table;
      var op := ReportOp(u, reports[n]);
      EventTableProofs.FreshReportSafe(u.contexts[op.at].events, reports[n].reported, reports[n].errorOrHup);
      EventTableProofs.DispatchKeeps(u, op.at, op.fired, op.env);
    }
  }

  lemma WrapAppend(a: seq<Work>, b: seq<Work>)
    ensures Wrap(a + b) == Wrap(a) + Wrap(b)
  {
  }

  /** The task list after the first i items of a batch. */
  function Batch(tasks: seq<Task>, works: seq<Option<Work>>, i: nat): (r: seq<Task>)
    requires i <= |works|
  {
    tasks + Wrap(Present(works[..i]))
  }

  lemma BatchStep(tasks: seq<Task>, works: seq<Option<Work>>, i: nat)
    requires i < |works|
    ensures Batch(tasks, works, i + 1) == Scheduled(Batch(tasks, works, i), works[i], -1).0
    ensures Batch(tasks, works, 0) == tasks
    ensures i > 0 && tasks != [] ==> Batch(tasks, works, i) != []
  {
    assert works[..i + 1] == works[..i] + [works[i]];
    PresentAppend(works[..i], works[i]);
  }

  function Present(works: seq<Option<Work>>): seq<Work> {
    if works == [] then [] else EventTable.Listed(works[0]) + Present(works[1..])
  }

  lemma {:induction false} PresentAppend(works: seq<Option<Work>>, o: Option<Work>)
    ensures Present(works + [o]) == Present(works) + EventTable.Listed(o)
  {
    if works == [] {
      assert works + [o] == [o] && [o][1..] == [];
    } else {
      assert (works + [o])[1..] == works[1..] + [o];
      PresentAppend(works[1..], o);
    }
  }
}
