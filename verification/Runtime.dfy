// The fiber runtime as a transition system: N workers in Scheduler::run, a shared task list,
// the event table, pending timers, and fibers that suspend through do_io, sleep or a bare
// yield. One step is one locked section, or one Return: the state write, the context switch
// and the bookkeeping after swapIn in run(). What the code does in several locked sections is
// several steps here: addEvent (locate, grow, register), cancelEvent by a timeout (locate,
// cancel), stopping (three reads) and expiry (take, queue).

module Runtime {
  import opened Base
  import opened FiberTypes
  import opened TaskList
  import EventTable

  type Table = EventTable.Table

  /** One do_io round: what it waits for, its shared timer_info and its timer, if any. */
  datatype Io = Io(fd: nat, event: Event, info: nat, timer: Option<nat>)

  /** Where a fiber's own code stands. */
  datatype Pc =
    | Code                      // anywhere outside the hooks
    | Armed(io: Io)             // do_io: timer added, addEvent next
    | Growing(io: Io)           // addEvent: fd not found, contextResize next
    | Located(io: Io, at: nat)  // addEvent: context found, its lock next
    | Registered(io: Io)        // do_io: addEvent succeeded, YieldToHold next
    | Waiting(io: Io)           // do_io: suspended
    | Resumed(io: Io)           // do_io: running again, timer->cancel next
    | Deciding(io: Io)          // do_io: timer cancelled, tinfo->cancelled is read next
    | SleepArmed                // sleep: timer added, YieldToHold next
    | Sleeping                  // sleep: suspended
    | Parked                    // suspended by a bare YieldToHold; someone else may schedule it
    | TimedOut(fd: nat, event: Event)      // do_io's timer body: tinfo marked, cancelEvent next
    | Cancelling(at: nat, event: Event)    // cancelEvent: context found, its lock next

  datatype Fiber = Fiber(state: FiberState, pc: Pc)

  /** Where a worker stands in run(). A body is a timer body that is about to act. An idle worker has
      made `seen` of the three reads of stopping() with the answer yes, and holds the callbacks that
      it has taken from the timer set and not yet queued. */
  datatype Phase =
    | Head
    | Picked(work: Work)
    | Running(fiber: FiberId, body: Option<Callback>)
    | Idle(seen: nat, taken: seq<Callback>)
    | Exited

  /** idleDone: the idle fiber reached TERM. */
  datatype Worker = Worker(phase: Phase, cbFiber: Option<FiberId>, idleDone: bool)

  datatype Timer = Timer(id: nat, cb: Callback, recurring: bool)

  /** dropped: fibers whose registration was thrown away by delEvent. infos: the live
      timer_info objects and whether each is marked cancelled. The counters name timers and
      timer_info objects by the order of their creation. */
  datatype System = System(
    tasks: seq<Task>, active: int, autoStop: bool, stopping: bool,
    workers: seq<Worker>, fibers: map<FiberId, Fiber>,
    table: Table, timers: seq<Timer>, nextTimer: nat, infos: map<nat, bool>, nextInfo: nat, dropped: set<FiberId>)

  function Init(workers: nat): System {
    System([], 0, false, false, seq(workers, _ => Worker(Head, None, false)), map[],
           EventTable.Initial(), [], 0, map[], 0, {})
  }

  // ---------------------------------------------------------------- observations

  function Executing(s: System): set<FiberId> {
    set f | f in s.fibers && s.fibers[f].state == EXEC
  }

  predicate SchedulerStopping(s: System) { s.autoStop && s.stopping && s.active == 0 && s.tasks == [] }

  /** What IOManager::stopping asks for: no timers, no pending events, and Scheduler::stopping. */
  predicate Stopping(s: System) { s.timers == [] && s.table.pending == 0 && SchedulerStopping(s) }

  predicate Runs(s: System, w: nat) {
    w < |s.workers| && s.workers[w].phase.Running? && s.workers[w].phase.fiber in s.fibers
  }

  function Current(s: System, w: nat): FiberId
    requires Runs(s, w)
  {
    s.workers[w].phase.fiber
  }

  function CurrentPc(s: System, w: nat): Pc
    requires Runs(s, w)
  {
    s.fibers[Current(s, w)].pc
  }

  /** The current fiber is in ordinary code. */
  predicate Acting(s: System, w: nat) {
    Runs(s, w) && s.workers[w].phase.body == None && CurrentPc(s, w) == Code
  }

  predicate Idles(s: System, w: nat) {
    w < |s.workers| && s.workers[w].phase.Idle?
  }

  /** No idle worker holds callbacks that it has taken from the timer set. */
  predicate NoneTaken(s: System) {
    forall w :: 0 <= w < |s.workers| && s.workers[w].phase.Idle? ==> s.workers[w].phase.taken == []
  }

  predicate BitFree(t: Table, at: nat, e: Event) {
    at < |t.contexts| && !t.contexts[at].events.Has(e)
  }

  /** f is some worker's callback fiber. */
  predicate ReservedIn(workers: seq<Worker>, f: FiberId) {
    exists w :: 0 <= w < |workers| && workers[w].cbFiber == Some(f)
  }

  /** The timers that one do_io round or one sleep puts into the set. */
  function IoTimer(io: Io): seq<Timer> {
    if io.timer.Some? then [Timer(io.timer.value, IoTimeout(io.info, io.fd, io.event), false)] else []
  }

  /** timer->cancel(): the timer leaves the set if it is still there. */
  function DropTimer(timers: seq<Timer>, t: Timer): seq<Timer> {
    if timers == [] then []
    else if timers[0] == t then timers[1..]
    else [timers[0]] + DropTimer(timers[1..], t)
  }

  function DropIoTimer(timers: seq<Timer>, io: Io): seq<Timer> {
    if io.timer.Some? then DropTimer(timers, IoTimer(io)[0]) else timers
  }

  // ---------------------------------------------------------------- outstanding work

  function TaskWork(t: Task): multiset<Work> { multiset{t.work} }
  function TimerWork(t: Timer): multiset<Work> { multiset{CallbackWork(t.cb)} }
  function WorkerWork(w: Worker): multiset<Work> {
    match w.phase
    case Picked(work) => multiset{work}
    case Running(_, Some(cb)) => multiset{CallbackWork(cb)}
    case Idle(_, taken) => multiset(Works(taken))
    case _ => multiset{}
  }

  function Works(cbs: seq<Callback>): (ws: seq<Work>)
    ensures |ws| == |cbs| && forall i :: 0 <= i < |cbs| ==> ws[i] == CallbackWork(cbs[i])
  {
    seq(|cbs|, i requires 0 <= i < |cbs| => CallbackWork(cbs[i]))
  }

  function InTasks(tasks: seq<Task>): multiset<Work> { Sum(tasks, TaskWork) }
  function InTimers(timers: seq<Timer>): multiset<Work> { Sum(timers, TimerWork) }
  function InWorkers(workers: seq<Worker>): multiset<Work> { Sum(workers, WorkerWork) }

  /** Everything that is still going to run: queued, registered, on a timer, or just taken. */
  function Pool(s: System): multiset<Work> {
    InTasks(s.tasks) + EventTable.Waiting(s.table.contexts) + InTimers(s.timers) + InWorkers(s.workers)
  }

  /** The wake-up tokens of a fiber: the outstanding work that will resume it. */
  function TokensIn(pool: multiset<Work>, f: FiberId): nat {
    pool[FiberWork(f)] + pool[CallbackWork(WakeFiber(f))]
  }

  function Tokens(s: System, f: FiberId): nat { TokensIn(Pool(s), f) }

  // ---------------------------------------------------------------- steps of run()

  function SetPhase(s: System, w: nat, p: Phase): System
    requires w < |s.workers|
  {
    s.(workers := s.workers[w := s.workers[w].(phase := p)])
  }

  function SetPc(s: System, w: nat, pc: Pc): System
    requires Runs(s, w)
  {
    s.(fibers := s.fibers[Current(s, w) := s.fibers[Current(s, w)].(pc := pc)])
  }

  function Push(s: System, ws: seq<Work>): System { s.(tasks := s.tasks + Wrap(ws)) }

  /** The locked scan at the head of a round; with nothing to take, the idle fiber is entered,
      or the loop is left when the idle fiber has ended. */
  function Pick(s: System, w: nat): System
    requires w < |s.workers|
  {
    var i := FirstEligible(s.tasks, w, Executing(s));
    if i < |s.tasks| then
      SetPhase(s.(tasks := Without(s.tasks, i), active := s.active + 1), w, Picked(s.tasks[i].work))
    else if s.workers[w].idleDone then SetPhase(s, w, Exited)
    else SetPhase(s, w, Idle(0, []))
  }

  /** The pc a fiber continues with once it is swapped in again. */
  function Awake(pc: Pc): Pc {
    match pc
    case Waiting(io) => Resumed(io)
    case Sleeping => Code
    case Parked => Code
    case _ => pc
  }

  function BodyOf(cb: Callback): Option<Callback> {
    if cb.UserCallback? then None else Some(cb)
  }

  /** After a pick: a fiber is swapped in, or skipped when it has ended; a callback is started
      on the worker's callback fiber, which is created when there is none. */
  function Enter(s: System, w: nat, spare: FiberId): System
    requires w < |s.workers| && s.workers[w].phase.Picked?
    requires s.workers[w].phase.work.FiberWork? ==> s.workers[w].phase.work.fiber in s.fibers
  {
    match s.workers[w].phase.work
    case FiberWork(f) =>
      if s.fibers[f].state in {TERM, EXCEPT} then SetPhase(s.(active := s.active - 1), w, Head)
      else SetPhase(s.(fibers := s.fibers[f := Fiber(EXEC, Awake(s.fibers[f].pc))]), w, Running(f, None))
    case CallbackWork(cb) =>
      var g := match s.workers[w].cbFiber case Some(g) => g case None => spare;
      s.(fibers := s.fibers[g := Fiber(EXEC, Code)],
         workers := s.workers[w := Worker(Running(g, BodyOf(cb)), Some(g), s.workers[w].idleDone)])
  }

  /** Return from swapIn with the fiber's state st and continuation pc: READY is queued again,
      an ended callback fiber is reset to INIT and kept, anything else is put on HOLD. */
  function Return(s: System, w: nat, st: FiberState, pc: Pc): System
    requires Runs(s, w)
  {
    var f := Current(s, w);
    var viaCb := s.workers[w].cbFiber == Some(f);
    var ended := st == TERM || st == EXCEPT;
    var final := if st == READY then READY else if ended then (if viaCb then INIT else st) else HOLD;
    s.(tasks := if st == READY then s.tasks + [Task(FiberWork(f), -1)] else s.tasks,
       active := s.active - 1,
       fibers := s.fibers[f := Fiber(final, pc)],
       workers := s.workers[w := Worker(Head, if viaCb && !ended then None else s.workers[w].cbFiber,
                                        s.workers[w].idleDone)])
  }

  // ---------------------------------------------------------------- steps of running code

  function Spawn(s: System, g: FiberId, thread: int): System {
    s.(fibers := s.fibers[g := Fiber(INIT, Code)], tasks := s.tasks + [Task(FiberWork(g), thread)])
  }

  /** Adding the round's timer, if do_io has a timeout, and moving on to addEvent. */
  function Arm(s: System, w: nat, fd: nat, e: Event, info: nat, timed: bool): System
    requires Runs(s, w)
  {
    var io := Io(fd, e, info, if timed then Some(s.nextTimer) else None);
    SetPc(s.(timers := s.timers + IoTimer(io), nextTimer := s.nextTimer + 1), w, Armed(io))
  }

  function BeginIo(s: System, w: nat, fd: nat, e: Event, timed: bool): System
    requires Runs(s, w)
  {
    Arm(s.(infos := s.infos[s.nextInfo := false], nextInfo := s.nextInfo + 1), w, fd, e, s.nextInfo, timed)
  }

  /** addEvent's first section: the context at the fd, or the decision to grow. */
  function LocateIo(s: System, w: nat): System
    requires Runs(s, w) && CurrentPc(s, w).Armed?
  {
    var io := CurrentPc(s, w).io;
    match EventTable.Locate(s.table, io.fd)
    case Some(at) => SetPc(s, w, Located(io, at))
    case None => SetPc(s, w, Growing(io))
  }

  /** addEvent's second section, when the first found nothing. */
  function GrowIo(s: System, w: nat): System
    requires Runs(s, w) && CurrentPc(s, w).Growing?
    requires EventTable.Locate(EventTable.GrowFor(s.table, CurrentPc(s, w).io.fd), CurrentPc(s, w).io.fd).Some?
  {
    var io := CurrentPc(s, w).io;
    var t := EventTable.GrowFor(s.table, io.fd);
    SetPc(s.(table := t), w, Located(io, EventTable.Locate(t, io.fd).value))
  }

  /** addEvent's section under the lock of the context. */
  function Register(s: System, w: nat, env: bool): System
    requires Runs(s, w) && CurrentPc(s, w).Located? && CurrentPc(s, w).at < |s.table.contexts|
  {
    var io := CurrentPc(s, w).io;
    var r := EventTable.AddEvent(s.table, CurrentPc(s, w).at, io.event, FiberWork(Current(s, w)), env);
    if r.ok then SetPc(s.(table := r.table), w, Registered(io))
    else SetPc(s.(timers := DropIoTimer(s.timers, io), infos := s.infos - {io.info}), w, Code)
  }

  function CancelIoTimer(s: System, w: nat): System
    requires Runs(s, w) && CurrentPc(s, w).Resumed?
  {
    var io := CurrentPc(s, w).io;
    SetPc(s.(timers := DropIoTimer(s.timers, io)), w, Deciding(io))
  }

  /** tinfo->cancelled ends do_io; otherwise the call is retried, which ends do_io or arms
      another round with the same tinfo. */
  function Decide(s: System, w: nat, again: bool, timed: bool): System
    requires Runs(s, w) && CurrentPc(s, w).Deciding?
  {
    var io := CurrentPc(s, w).io;
    if (io.info in s.infos && s.infos[io.info]) || !again then SetPc(s.(infos := s.infos - {io.info}), w, Code)
    else Arm(s, w, io.fd, io.event, io.info, timed)
  }

  function BeginSleep(s: System, w: nat): System
    requires Runs(s, w)
  {
    SetPc(s.(timers := s.timers + [Timer(s.nextTimer, WakeFiber(Current(s, w)), false)], nextTimer := s.nextTimer + 1),
          w, SleepArmed)
  }

  /** The fibers among dropped work. */
  function FibersOf(ws: seq<Work>): set<FiberId> {
    set i | 0 <= i < |ws| && ws[i].FiberWork? :: ws[i].fiber
  }

  function ApplyEffect(s: System, r: EventTable.Effect): System {
    Push(s, r.pushed).(table := r.table, dropped := s.dropped + FibersOf(r.dropped))
  }

  /** The two timer bodies: wake a sleeper; mark a live, unmarked timer_info as timed out. */
  function RunBody(s: System, w: nat): System
    requires Runs(s, w) && s.workers[w].phase.body.Some?
  {
    var t := SetPhase(s, w, Running(Current(s, w), None));
    match s.workers[w].phase.body.value
    case UserCallback(_) => t
    case WakeFiber(g) => t.(tasks := s.tasks + [Task(FiberWork(g), -1)])
    case IoTimeout(info, fd, e) =>
      if info in s.infos && !s.infos[info] then
        SetPc(t.(infos := s.infos[info := true]), w, TimedOut(fd, e))
      else t
  }

  /** The timeout body goes on to cancelEvent: first the context is looked up, then the event is
      cancelled under its lock. */
  function LocateTimedOut(s: System, w: nat): System
    requires Runs(s, w) && CurrentPc(s, w).TimedOut?
  {
    var pc := CurrentPc(s, w);
    match EventTable.Locate(s.table, pc.fd)
    case Some(at) => SetPc(s, w, Cancelling(at, pc.event))
    case None => SetPc(s, w, Code)
  }

  function CancelTimedOut(s: System, w: nat, env: bool): System
    requires Runs(s, w) && CurrentPc(s, w).Cancelling? && CurrentPc(s, w).at < |s.table.contexts|
  {
    var pc := CurrentPc(s, w);
    SetPc(ApplyEffect(s, EventTable.ClearOne(s.table, pc.at, pc.event, env, true)), w, Code)
  }

  /** listExpiredCb takes the callback of an expired timer; the timer goes away unless it recurs. */
  function TakeExpired(s: System, w: nat, i: nat): System
    requires Idles(s, w) && i < |s.timers|
  {
    SetPhase(s.(timers := if s.timers[i].recurring then s.timers else Without(s.timers, i)),
             w, Idle(0, s.workers[w].phase.taken + [s.timers[i].cb]))
  }

  /** schedule(begin, end) puts everything taken on the task list. */
  function QueueTaken(s: System, w: nat): System
    requires Idles(s, w)
  {
    SetPhase(Push(s, Works(s.workers[w].phase.taken)), w, Idle(0, []))
  }

  // ---------------------------------------------------------------- the transition system

  /** run() itself: taking work, swapping in, and the ways a fiber gives its worker back. */
  datatype LoopStep =
    | SPick
    | SEnter(spare: FiberId)
    | SFinish(exception: bool)
    | SYieldReady
    | SPark
    | SYieldIo
    | SYieldSleep

  predicate EnabledLoop(s: System, w: nat, step: LoopStep) {
    match step
    case SPick => w < |s.workers| && s.workers[w].phase == Head
    case SEnter(spare) =>
      && w < |s.workers| && s.workers[w].phase.Picked?
      && (s.workers[w].phase.work.FiberWork? ==> s.workers[w].phase.work.fiber in s.fibers)
      && (s.workers[w].cbFiber == None ==> spare !in s.fibers)
    case SFinish(_) => Acting(s, w) && (s.workers[w].cbFiber == Some(Current(s, w)) ==> Tokens(s, Current(s, w)) == 0)
    case SYieldReady => Acting(s, w) && Tokens(s, Current(s, w)) == 0
    case SPark => Acting(s, w)
    case SYieldIo => Runs(s, w) && s.workers[w].phase.body == None && CurrentPc(s, w).Registered?
    case SYieldSleep => Runs(s, w) && s.workers[w].phase.body == None && CurrentPc(s, w).SleepArmed?
  }

  function NextLoop(s: System, w: nat, step: LoopStep): System
    requires EnabledLoop(s, w, step)
  {
    match step
    case SPick => Pick(s, w)
    case SEnter(spare) => Enter(s, w, spare)
    case SFinish(exception) => Return(s, w, if exception then EXCEPT else TERM, Code)
    case SYieldReady => Return(s, w, READY, Code)
    case SPark => Return(s, w, HOLD, Parked)
    case SYieldIo => Return(s, w, HOLD, Waiting(CurrentPc(s, w).io))
    case SYieldSleep => Return(s, w, HOLD, Sleeping)
  }

  /** Code on a fiber that queues work or sets timers. A fiber, whether it is executing or
      suspended or has ended, is scheduled by hand only when nothing else is going to resume it, and a
      callback fiber only while its callback has not ended. A suspended do_io round whose registration was
      dropped is rescued that way. */
  datatype QueueStep =
    | SSpawn(g: FiberId, thread: int)
    | SScheduleFiber(g: FiberId, thread: int)
    | SScheduleCallback(id: nat, thread: int)
    | SAddTimer(id: nat, recurring: bool)
    | SCancelTimer(i: nat)

  predicate MaySchedule(s: System, g: FiberId) {
    g in s.fibers && Tokens(s, g) == 0 && (ReservedIn(s.workers, g) ==> s.fibers[g].state == EXEC)
  }

  predicate EnabledQueue(s: System, w: nat, step: QueueStep) {
    Acting(s, w) &&
    match step
    case SSpawn(g, _) => g !in s.fibers
    case SScheduleFiber(g, _) => MaySchedule(s, g)
    case SScheduleCallback(_, _) => true
    case SAddTimer(_, _) => true
    case SCancelTimer(i) => i < |s.timers| && s.timers[i].cb.UserCallback?
  }

  function NextQueue(s: System, w: nat, step: QueueStep): System
    requires EnabledQueue(s, w, step)
  {
    match step
    case SSpawn(g, thread) => Spawn(s, g, thread)
    case SScheduleFiber(g, thread) => s.(tasks := s.tasks + [Task(FiberWork(g), thread)], dropped := s.dropped - {g})
    case SScheduleCallback(id, thread) => s.(tasks := s.tasks + [Task(CallbackWork(UserCallback(id)), thread)])
    case SAddTimer(id, recurring) =>
      s.(timers := s.timers + [Timer(s.nextTimer, UserCallback(id), recurring)], nextTimer := s.nextTimer + 1)
    case SCancelTimer(i) => s.(timers := Without(s.timers, i))
  }

  /** The event table, used by code on a fiber, on any context it may have located before, or by
      the dispatch loop of an idle worker, on the context of a report. A set bit is not added again, and
      a run ends with the first assertion of the code that fails. */
  datatype EventStep =
    | SGrowFor(fd: nat)
    | SAddCallbackEvent(at: nat, e: Event, id: nat)
    | SDelEvent(at: nat, e: Event)
    | SCancelEvent(at: nat, e: Event)
    | SCancelAll(at: nat)
    | SDispatch(at: nat, fired: Mask)

  predicate EnabledEvent(s: System, w: nat, step: EventStep, env: bool) {
    match step
    case SGrowFor(fd) => Acting(s, w) && fd >= EventTable.INITIAL_CONTEXTS
    case SAddCallbackEvent(at, e, _) => Acting(s, w) && BitFree(s.table, at, e)
    case SDelEvent(at, _) => Acting(s, w) && at < |s.table.contexts|
    case SCancelEvent(at, _) => Acting(s, w) && at < |s.table.contexts|
    case SCancelAll(at) => Acting(s, w) && at < |s.table.contexts|
    case SDispatch(at, fired) =>
      Idles(s, w) && at < |s.table.contexts| && !EventTable.Dispatch(s.table, at, fired, env).aborted
  }

  function NextEvent(s: System, w: nat, step: EventStep, env: bool): System
    requires EnabledEvent(s, w, step, env)
  {
    match step
    case SGrowFor(fd) => s.(table := EventTable.GrowFor(s.table, fd))
    case SAddCallbackEvent(at, e, id) =>
      s.(table := EventTable.AddEvent(s.table, at, e, CallbackWork(UserCallback(id)), env).table)
    case SDelEvent(at, e) => ApplyEffect(s, EventTable.ClearOne(s.table, at, e, env, false))
    case SCancelEvent(at, e) => ApplyEffect(s, EventTable.ClearOne(s.table, at, e, env, true))
    case SCancelAll(at) => ApplyEffect(s, EventTable.CancelAll(s.table, at, env))
    case SDispatch(at, fired) =>
      SetPhase(ApplyEffect(s, EventTable.Dispatch(s.table, at, fired, env)), w, Idle(0, s.workers[w].phase.taken))
  }

  /** do_io and connect_with_timeout around their suspension. */
  datatype IoStep =
    | SBeginIo(fd: nat, e: Event, timed: bool)
    | SLocate
    | SGrow
    | SRegister(env: bool)
    | SCancelIoTimer
    | SDecide(again: bool, timed: bool)

  predicate EnabledIo(s: System, w: nat, step: IoStep) {
    Runs(s, w) && s.workers[w].phase.body == None &&
    match step
    case SBeginIo(_, _, _) => CurrentPc(s, w) == Code
    case SLocate => CurrentPc(s, w).Armed?
    case SGrow =>
      && CurrentPc(s, w).Growing?
      && EventTable.Locate(EventTable.GrowFor(s.table, CurrentPc(s, w).io.fd), CurrentPc(s, w).io.fd).Some?
    case SRegister(_) =>
      && CurrentPc(s, w).Located? && BitFree(s.table, CurrentPc(s, w).at, CurrentPc(s, w).io.event)
      && Tokens(s, Current(s, w)) == 0
    case SCancelIoTimer => CurrentPc(s, w).Resumed?
    case SDecide(_, _) => CurrentPc(s, w).Deciding?
  }

  function NextIo(s: System, w: nat, step: IoStep): System
    requires EnabledIo(s, w, step)
  {
    match step
    case SBeginIo(fd, e, timed) => BeginIo(s, w, fd, e, timed)
    case SLocate => LocateIo(s, w)
    case SGrow => GrowIo(s, w)
    case SRegister(env) => Register(s, w, env)
    case SCancelIoTimer => CancelIoTimer(s, w)
    case SDecide(again, timed) => Decide(s, w, again, timed)
  }

  /** sleep, the timer bodies, and expiry in an idle worker. */
  datatype TimerStep =
    | SBeginSleep
    | SRunBody
    | SLocateTimedOut
    | SCancelTimedOut(env: bool)
    | STake(i: nat)
    | SQueueTaken

  predicate EnabledTimer(s: System, w: nat, step: TimerStep) {
    match step
    case SBeginSleep => Acting(s, w) && Tokens(s, Current(s, w)) == 0
    case SRunBody => Runs(s, w) && s.workers[w].phase.body.Some?
    case SLocateTimedOut => Runs(s, w) && s.workers[w].phase.body == None && CurrentPc(s, w).TimedOut?
    case SCancelTimedOut(_) =>
      && Runs(s, w) && s.workers[w].phase.body == None
      && CurrentPc(s, w).Cancelling? && CurrentPc(s, w).at < |s.table.contexts|
    case STake(i) => Idles(s, w) && i < |s.timers|
    case SQueueTaken => Idles(s, w)
  }

  function NextTimer(s: System, w: nat, step: TimerStep): System
    requires EnabledTimer(s, w, step)
  {
    match step
    case SBeginSleep => BeginSleep(s, w)
    case SRunBody => RunBody(s, w)
    case SLocateTimedOut => LocateTimedOut(s, w)
    case SCancelTimedOut(env) => CancelTimedOut(s, w, env)
    case STake(i) => TakeExpired(s, w, i)
    case SQueueTaken => QueueTaken(s, w)
  }

  /** The rest of an idle worker, and threads outside the scheduler. stopping() reads the timer set,
      the pending-event count and the scheduler's own fields one after the other, each under its own
      protection; the idle fiber ends when all three say yes. */
  datatype OuterStep =
    | SLookTimers(w: nat)
    | SLookPending(w: nat)
    | SIdleExit(w: nat)
    | SIdleReturn(w: nat)
    | SStop
    | SOuterCallback(id: nat, thread: int)
    | SOuterFiber(g: FiberId, thread: int)

  predicate EnabledOuter(s: System, step: OuterStep) {
    match step
    case SLookTimers(w) => Idles(s, w) && s.workers[w].phase == Idle(0, []) && s.timers == []
    case SLookPending(w) => Idles(s, w) && s.workers[w].phase == Idle(1, []) && s.table.pending == 0
    case SIdleExit(w) => Idles(s, w) && s.workers[w].phase == Idle(2, []) && SchedulerStopping(s)
    case SIdleReturn(w) => Idles(s, w) && s.workers[w].phase.taken == []
    case SStop => true
    case SOuterCallback(_, _) => !s.autoStop
    case SOuterFiber(g, _) => !s.autoStop && g !in s.fibers
  }

  function NextOuter(s: System, step: OuterStep): System
    requires EnabledOuter(s, step)
  {
    match step
    case SLookTimers(w) => SetPhase(s, w, Idle(1, []))
    case SLookPending(w) => SetPhase(s, w, Idle(2, []))
    case SIdleExit(w) => s.(workers := s.workers[w := Worker(Head, s.workers[w].cbFiber, true)])
    case SIdleReturn(w) => SetPhase(s, w, Head)
    case SStop => s.(autoStop := true, stopping := true)
    case SOuterCallback(id, thread) => s.(tasks := s.tasks + [Task(CallbackWork(UserCallback(id)), thread)])
    case SOuterFiber(g, thread) => Spawn(s, g, thread)
  }

  datatype Step =
    | Loop(w: nat, loop: LoopStep)
    | Queue(w: nat, queue: QueueStep)
    | Events(w: nat, event: EventStep, env: bool)
    | Ios(w: nat, io: IoStep)
    | Timers(w: nat, timer: TimerStep)
    | Outer(outer: OuterStep)

  predicate Enabled(s: System, step: Step) {
    match step
    case Loop(w, l) => EnabledLoop(s, w, l)
    case Queue(w, q) => EnabledQueue(s, w, q)
    case Events(w, e, env) => EnabledEvent(s, w, e, env)
    case Ios(w, i) => EnabledIo(s, w, i)
    case Timers(w, t) => EnabledTimer(s, w, t)
    case Outer(o) => EnabledOuter(s, o)
  }

  function Next(s: System, step: Step): System
    requires Enabled(s, step)
  {
    match step
    case Loop(w, l) => NextLoop(s, w, l)
    case Queue(w, q) => NextQueue(s, w, q)
    case Events(w, e, env) => NextEvent(s, w, e, env)
    case Ios(w, i) => NextIo(s, w, i)
    case Timers(w, t) => NextTimer(s, w, t)
    case Outer(o) => NextOuter(s, o)
  }
}
