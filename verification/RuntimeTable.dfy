// The steps of the runtime as operations on the event table, and what addEvent has located.

module RuntimeTable {
  import opened Base
  import opened FiberTypes
  import opened TaskList
  import opened Runtime
  import opened RuntimeInvariant
  import EventTable
  import EventTableProofs
  import EventTableRuns

  /** The part of the invariant that the table and the positions in addEvent need. */
  ghost predicate TableOk(s: System) {
    EventTable.Valid(s.table) && PcsOk(s.fibers, s.table.contexts)
  }

  /** The operation that a step performs on the event table, if it touches it. */
  function TableOp(s: System, step: Step): Option<EventTableRuns.Op>
    requires Enabled(s, step)
  {
    match step
    case Events(_, e, env) => Some(EventOp(e, env))
    case Ios(w, SGrow) => Some(EventTableRuns.Grow(CurrentPc(s, w).io.fd))
    case Ios(w, SRegister(env)) =>
      var pc := CurrentPc(s, w);
      Some(EventTableRuns.Add(pc.at, pc.io.event, FiberWork(Current(s, w)), env))
    case Timers(w, SCancelTimedOut(env)) =>
      var pc := CurrentPc(s, w);
      Some(EventTableRuns.Cancel(pc.at, pc.event, env))
    case _ => None
  }

  function EventOp(e: EventStep, env: bool): EventTableRuns.Op {
    match e
    case SGrowFor(fd) => EventTableRuns.Grow(fd)
    case SAddCallbackEvent(at, e, id) => EventTableRuns.Add(at, e, CallbackWork(UserCallback(id)), env)
    case SDelEvent(at, e) => EventTableRuns.Del(at, e, env)
    case SCancelEvent(at, e) => EventTableRuns.Cancel(at, e, env)
    case SCancelAll(at) => EventTableRuns.CancelFd(at, env)
    case SDispatch(at, fired) => EventTableRuns.Report(at, fired, env)
  }

  /** The table moves by the operation, if there is one, which does not fail an assertion. */
  predicate MovesBy(t: Table, t': Table, op: Option<EventTableRuns.Op>) {
    match op
    case None => t' == t
    case Some(o) => t' == EventTableRuns.Apply(t, o).table && !EventTableRuns.Apply(t, o).aborted
  }

  lemma EventFollows(s: System, w: nat, e: EventStep, env: bool)
    requires TableOk(s) && EnabledEvent(s, w, e, env)
    ensures MovesBy(s.table, NextEvent(s, w, e, env).table, Some(EventOp(e, env)))
  {
    match e
    case SGrowFor(fd) =>
    case SAddCallbackEvent(at, e, id) => AddFollows(s.table, at, e, CallbackWork(UserCallback(id)), env);
    case SDelEvent(at, e) => EventTableProofs.ClearOneKeeps(s.table, at, e, env, false);
    case SCancelEvent(at, e) => EventTableProofs.ClearOneKeeps(s.table, at, e, env, true);
    case SCancelAll(at) => EventTableProofs.CancelAllKeeps(s.table, at, env);
    case SDispatch(at, fired) =>
  }

  lemma GrowFollows(s: System, w: nat)
    requires TableOk(s) && EnabledIo(s, w, SGrow)
    ensures MovesBy(s.table, GrowIo(s, w).table, TableOp(s, Ios(w, SGrow)))
  {
    assert PcOk(CurrentPc(s, w), s.table.contexts);
  }

  lemma RegisterFollows(s: System, w: nat, env: bool)
    requires EventTable.Valid(s.table) && Runs(s, w) && CurrentPc(s, w).Located?
    requires BitFree(s.table, CurrentPc(s, w).at, CurrentPc(s, w).io.event)
    ensures var pc := CurrentPc(s, w);
            MovesBy(s.table, Register(s, w, env).table,
                    Some(EventTableRuns.Add(pc.at, pc.io.event, FiberWork(Current(s, w)), env)))
  {
    var pc := CurrentPc(s, w);
    AddFollows(s.table, pc.at, pc.io.event, FiberWork(Current(s, w)), env);
  }

  lemma AddFollows(t: Table, at: nat, e: Event, u: Work, env: bool)
    requires EventTable.Valid(t) && BitFree(t, at, e)
    ensures var r := EventTable.AddEvent(t, at, e, u, env);
            && MovesBy(t, if r.ok then r.table else t, Some(EventTableRuns.Add(at, e, u, env)))
            && MovesBy(t, r.table, Some(EventTableRuns.Add(at, e, u, env)))
  {
    EventTableProofs.AddEventKeeps(t, at, e, u, env);
  }

  lemma CancelFollows(s: System, w: nat, env: bool)
    requires TableOk(s) && EnabledTimer(s, w, SCancelTimedOut(env))
    ensures MovesBy(s.table, CancelTimedOut(s, w, env).table, TableOp(s, Timers(w, SCancelTimedOut(env))))
  {
    var pc := CurrentPc(s, w);
    EventTableProofs.ClearOneKeeps(s.table, pc.at, pc.event, env, true);
  }

  lemma LoopTable(s: System, w: nat, l: LoopStep)
    requires EnabledLoop(s, w, l)
    ensures NextLoop(s, w, l).table == s.table
  {
  }

  lemma IoTable(s: System, w: nat, i: IoStep)
    requires EnabledIo(s, w, i) && !i.SGrow? && !i.SRegister?
    ensures NextIo(s, w, i).table == s.table
  {
  }

  lemma TimerTable(s: System, w: nat, t: TimerStep)
    requires EnabledTimer(s, w, t) && !t.SCancelTimedOut?
    ensures NextTimer(s, w, t).table == s.table
  {
  }

  lemma RestTable(s: System, step: Step)
    requires Enabled(s, step) && (step.Queue? || step.Outer?)
    ensures Next(s, step).table == s.table
  {
  }

  /** Every step leaves the table alone or performs one operation of the table's own runs, which
      does not fail an assertion. */
  lemma TableFollows(s: System, step: Step)
    requires TableOk(s) && Enabled(s, step)
    ensures MovesBy(s.table, Next(s, step).table, TableOp(s, step))
  {
    match step
    case Loop(w, l) => LoopTable(s, w, l);
    case Queue(_, _) => RestTable(s, step);
    case Events(w, e, env) => EventFollows(s, w, e, env);
    case Ios(w, SGrow) => GrowFollows(s, w);
    case Ios(w, SRegister(env)) => RegisterFollows(s, w, env);
    case Ios(w, i) => IoTable(s, w, i);
    case Timers(w, SCancelTimedOut(env)) => CancelFollows(s, w, env);
    case Timers(w, t) => TimerTable(s, w, t);
    case Outer(_) => RestTable(s, step);
  }

  // ---------------------------------------------------------------- contexts stay

  /** Contexts are never freed, and never change their fd. */
  predicate FdsStay(contexts: seq<EventTable.FdContext>, contexts': seq<EventTable.FdContext>) {
    |contexts| <= |contexts'| && forall i :: 0 <= i < |contexts| ==> contexts'[i].fd == contexts[i].fd
  }

  lemma ApplyFdsStay(t: Table, op: EventTableRuns.Op)
    requires EventTable.Valid(t)
    ensures FdsStay(t.contexts, EventTableRuns.Apply(t, op).table.contexts)
  {
    if !EventTableRuns.Possible(t, op) || (!op.Grow? && !EventTableRuns.Apply(t, op).ok) {
      EventTableRuns.Unmoved(t, op);
    } else {
      match op
      case Grow(fd) => EventTableProofs.ResizeKeeps(t, fd * 3 / 2);
      case Add(at, e, work, env) => EventTableProofs.AddEventKeeps(t, at, e, work, env);
      case Del(at, e, env) => EventTableProofs.ClearOneKeeps(t, at, e, env, false);
      case Cancel(at, e, env) => EventTableProofs.ClearOneKeeps(t, at, e, env, true);
      case CancelFd(at, env) => EventTableProofs.CancelAllKeeps(t, at, env);
      case Report(at, fired, env) =>
        EventTableProofs.DispatchKeeps(t, at, fired, env);
        EventTableProofs.TriggerClears(t.contexts[at], fired);
    }
  }

  lemma StepFdsStay(s: System, step: Step)
    requires TableOk(s) && Enabled(s, step)
    ensures FdsStay(s.table.contexts, Next(s, step).table.contexts)
  {
    TableFollows(s, step);
    match TableOp(s, step)
    case None =>
    case Some(op) => ApplyFdsStay(s.table, op);
  }

  // ---------------------------------------------------------------- positions inside addEvent

  lemma SetPcsOk(fibers: map<FiberId, Fiber>, f: FiberId, fb: Fiber, contexts: seq<EventTable.FdContext>,
                 contexts': seq<EventTable.FdContext>)
    requires PcsOk(fibers, contexts) && FdsStay(contexts, contexts') && PcOk(fb.pc, contexts')
    ensures PcsOk(fibers[f := fb], contexts') && PcsOk(fibers, contexts')
  {
  }

  /** The fiber, if any, whose record a step changes. */
  function Touched(s: System, step: Step): Option<FiberId>
    requires Enabled(s, step)
  {
    match step
    case Loop(w, SPick) => None
    case Loop(w, SEnter(spare)) =>
      (match s.workers[w].phase.work
       case FiberWork(f) => Some(f)
       case CallbackWork(_) => Some(match s.workers[w].cbFiber case Some(g) => g case None => spare))
    case Loop(w, _) => Some(Current(s, w))
    case Queue(_, SSpawn(g, _)) => Some(g)
    case Ios(w, _) => Some(Current(s, w))
    case Timers(w, STake(_)) => None
    case Timers(w, SQueueTaken) => None
    case Timers(w, _) => Some(Current(s, w))
    case Outer(SOuterFiber(g, _)) => Some(g)
    case _ => None
  }

  /** One fiber's record may change, and is left in order. */
  predicate OneRecord(s: System, s': System, f: Option<FiberId>) {
    match f
    case None => s'.fibers == s.fibers
    case Some(g) => g in s'.fibers && s'.fibers == s.fibers[g := s'.fibers[g]] && PcOk(s'.fibers[g].pc, s'.table.contexts)
  }

  lemma SetRecord(s: System, s': System, g: FiberId, fb: Fiber)
    requires s'.fibers == s.fibers[g := fb] && PcOk(fb.pc, s'.table.contexts)
    ensures OneRecord(s, s', Some(g))
  {
  }

  lemma SameRecord(s: System, s': System, g: FiberId)
    requires s'.fibers == s.fibers && g in s.fibers && PcOk(s.fibers[g].pc, s'.table.contexts)
    ensures OneRecord(s, s', Some(g))
  {
    assert s.fibers == s.fibers[g := s.fibers[g]];
  }

  lemma EnterRecord(s: System, w: nat, spare: FiberId)
    requires TableOk(s) && EnabledLoop(s, w, SEnter(spare))
    ensures OneRecord(s, Enter(s, w, spare), Touched(s, Loop(w, SEnter(spare))))
  {
    var s' := Enter(s, w, spare);
    match s.workers[w].phase.work
    case FiberWork(f) =>
      assert PcOk(s.fibers[f].pc, s.table.contexts);
      if s'.fibers == s.fibers { SameRecord(s, s', f); } else { SetRecord(s, s', f, s'.fibers[f]); }
    case CallbackWork(_) => SetRecord(s, s', s'.workers[w].phase.fiber, Fiber(EXEC, Code));
  }

  lemma ReturnRecord(s: System, w: nat, st: FiberState, pc: Pc)
    requires Runs(s, w) && PcOk(pc, s.table.contexts)
    ensures OneRecord(s, Return(s, w, st, pc), Some(Current(s, w)))
  {
    var s' := Return(s, w, st, pc);
    SetRecord(s, s', Current(s, w), s'.fibers[Current(s, w)]);
  }

  lemma LoopRecord(s: System, w: nat, l: LoopStep)
    requires TableOk(s) && EnabledLoop(s, w, l)
    ensures OneRecord(s, NextLoop(s, w, l), Touched(s, Loop(w, l)))
  {
    match l
    case SPick =>
    case SEnter(spare) => EnterRecord(s, w, spare);
    case SFinish(exception) => ReturnRecord(s, w, if exception then EXCEPT else TERM, Code);
    case SYieldReady => ReturnRecord(s, w, READY, Code);
    case SPark => ReturnRecord(s, w, HOLD, Parked);
    case SYieldIo => ReturnRecord(s, w, HOLD, Waiting(CurrentPc(s, w).io));
    case SYieldSleep => ReturnRecord(s, w, HOLD, Sleeping);
  }

  lemma PcRecord(s: System, w: nat, s': System, pc: Pc)
    requires Runs(s, w) && s'.fibers == SetPc(s, w, pc).fibers && PcOk(pc, s'.table.contexts)
    ensures OneRecord(s, s', Some(Current(s, w)))
  {
    SetRecord(s, s', Current(s, w), s.fibers[Current(s, w)].(pc := pc));
  }

  lemma LocateRecord(s: System, w: nat)
    requires TableOk(s) && EnabledIo(s, w, SLocate)
    ensures OneRecord(s, LocateIo(s, w), Some(Current(s, w)))
  {
    PcRecord(s, w, LocateIo(s, w), LocateIo(s, w).fibers[Current(s, w)].pc);
  }

  lemma GrowRecord(s: System, w: nat)
    requires TableOk(s) && EnabledIo(s, w, SGrow)
    ensures OneRecord(s, GrowIo(s, w), Some(Current(s, w)))
  {
    assert PcOk(CurrentPc(s, w), s.table.contexts);
    EventTableProofs.GrowForLocates(s.table, CurrentPc(s, w).io.fd);
    PcRecord(s, w, GrowIo(s, w), GrowIo(s, w).fibers[Current(s, w)].pc);
  }

  lemma IoRecord(s: System, w: nat, i: IoStep)
    requires TableOk(s) && EnabledIo(s, w, i)
    ensures OneRecord(s, NextIo(s, w, i), Some(Current(s, w)))
  {
    match i
    case SLocate => LocateRecord(s, w);
    case SGrow => GrowRecord(s, w);
    case _ => PcRecord(s, w, NextIo(s, w, i), NextIo(s, w, i).fibers[Current(s, w)].pc);
  }

  lemma BodyRecord(s: System, w: nat)
    requires TableOk(s) && EnabledTimer(s, w, SRunBody)
    ensures OneRecord(s, RunBody(s, w), Some(Current(s, w)))
  {
    var s' := RunBody(s, w);
    if s'.fibers == s.fibers { SameRecord(s, s', Current(s, w)); } else { PcRecord(s, w, s', s'.fibers[Current(s, w)].pc); }
  }

  lemma LocateTimedOutRecord(s: System, w: nat)
    requires TableOk(s) && EnabledTimer(s, w, SLocateTimedOut)
    ensures OneRecord(s, LocateTimedOut(s, w), Some(Current(s, w)))
  {
    PcRecord(s, w, LocateTimedOut(s, w), LocateTimedOut(s, w).fibers[Current(s, w)].pc);
  }

  lemma SleepRecord(s: System, w: nat)
    requires Runs(s, w)
    ensures OneRecord(s, BeginSleep(s, w), Some(Current(s, w)))
  {
    PcRecord(s, w, BeginSleep(s, w), SleepArmed);
  }

  lemma CancelRecord(s: System, w: nat, env: bool)
    requires EnabledTimer(s, w, SCancelTimedOut(env))
    ensures OneRecord(s, CancelTimedOut(s, w, env), Some(Current(s, w)))
  {
    PcRecord(s, w, CancelTimedOut(s, w, env), Code);
  }

  lemma TimerRecord(s: System, w: nat, t: TimerStep)
    requires TableOk(s) && EnabledTimer(s, w, t)
    ensures OneRecord(s, NextTimer(s, w, t), Touched(s, Timers(w, t)))
  {
    match t
    case SBeginSleep => SleepRecord(s, w);
    case SRunBody => BodyRecord(s, w);
    case SLocateTimedOut => LocateTimedOutRecord(s, w);
    case SCancelTimedOut(env) => CancelRecord(s, w, env);
    case STake(_) =>
    case SQueueTaken =>
  }

  lemma QueueRecord(s: System, w: nat, q: QueueStep)
    requires EnabledQueue(s, w, q)
    ensures OneRecord(s, NextQueue(s, w, q), Touched(s, Queue(w, q)))
  {
  }

  lemma EventRecord(s: System, w: nat, e: EventStep, env: bool)
    requires EnabledEvent(s, w, e, env)
    ensures NextEvent(s, w, e, env).fibers == s.fibers
  {
  }

  lemma OuterRecord(s: System, o: OuterStep)
    requires EnabledOuter(s, o)
    ensures OneRecord(s, NextOuter(s, o), Touched(s, Outer(o)))
  {
  }

  /** A step changes the record of one fiber at most, and leaves it in order. */
  lemma StepRecord(s: System, step: Step)
    requires TableOk(s) && Enabled(s, step)
    ensures OneRecord(s, Next(s, step), Touched(s, step))
  {
    match step
    case Loop(w, l) => LoopRecord(s, w, l);
    case Queue(w, q) => QueueRecord(s, w, q);
    case Events(w, e, env) => EventRecord(s, w, e, env);
    case Ios(w, i) => IoRecord(s, w, i);
    case Timers(w, t) => TimerRecord(s, w, t);
    case Outer(o) => OuterRecord(s, o);
  }

  /** What a fiber has located stays a context of its fd. */
  lemma PcsKeep(s: System, step: Step)
    requires TableOk(s) && Enabled(s, step)
    ensures PcsOk(Next(s, step).fibers, Next(s, step).table.contexts)
  {
    var s' := Next(s, step);
    StepFdsStay(s, step);
    StepRecord(s, step);
    match Touched(s, step)
    case None => SetPcsOk(s.fibers, 0, Fiber(INIT, Code), s.table.contexts, s'.table.contexts);
    case Some(f) => SetPcsOk(s.fibers, f, s'.fibers[f], s.table.contexts, s'.table.contexts);
  }
}
