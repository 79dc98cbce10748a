// Conservation of outstanding work, item by item: what each step adds to everything that is still
// going to run, and what it takes out.

module RuntimeConserves {
  import opened Base
  import opened FiberTypes
  import opened TaskList
  import opened Runtime
  import opened RuntimeInvariant
  import opened RuntimeTable
  import opened RuntimeKeeps
  import opened RuntimeTheorems
  import EventTable
  import EventTableProofs

  function Timeout(info: nat, fd: nat, e: Event): Option<Work> { Some(CallbackWork(IoTimeout(info, fd, e))) }
  function UserWork(id: nat): Option<Work> { Some(CallbackWork(UserCallback(id))) }

  /** How often the item is u. */
  function Times(o: Option<Work>, u: Work): nat { if o == Some(u) then 1 else 0 }

  /** A live timer_info that a timeout body has marked. */
  predicate Marked(s: System, info: nat) { info in s.infos && s.infos[info] }

  /** addEvent accepts the registration of the fiber that runs on worker w. */
  predicate Accepts(s: System, w: nat, at: nat, e: Event, env: bool)
    requires Runs(s, w)
  {
    at < |s.table.contexts| && EventTable.AddEvent(s.table, at, e, FiberWork(Current(s, w)), env).ok
  }

  /** The round's own timer, if it is still in the set. */
  function OwnTimer(s: System, io: Io): Option<Work> {
    match io.timer
    case None => None
    case Some(id) =>
      if Timer(id, IoTimeout(io.info, io.fd, io.event), false) in s.timers then Timeout(io.info, io.fd, io.event) else None
  }

  /** What delEvent throws away. */
  function Dropped(s: System, at: nat, e: Event, env: bool): Option<Work> {
    if at < |s.table.contexts| && s.table.contexts[at].events.Has(e) && env then
      EventTable.WorkOf(s.table.contexts[at].Get(e))
    else None
  }

  /** The work that a step makes: whoever schedules something, sets a timer, registers or yields
      READY; a recurring timer that expires stays besides its callback. */
  function New(s: System, step: Step): Option<Work> {
    match step
    case Loop(w, l) => NewLoop(s, w, l)
    case Queue(_, q) => NewQueued(q)
    case Events(_, e, env) => NewEvent(s, e, env)
    case Ios(w, i) => if Runs(s, w) then NewIo(s, w, i) else None
    case Timers(w, t) => NewTimed(s, w, t)
    case Outer(o) => NewOuter(o)
  }

  function NewLoop(s: System, w: nat, l: LoopStep): Option<Work> {
    if l.SYieldReady? && Runs(s, w) then Some(FiberWork(Current(s, w))) else None
  }

  function NewQueued(q: QueueStep): Option<Work> {
    match q
    case SSpawn(g, _) => Some(FiberWork(g))
    case SScheduleFiber(g, _) => Some(FiberWork(g))
    case SScheduleCallback(id, _) => UserWork(id)
    case SAddTimer(id, _) => UserWork(id)
    case SCancelTimer(_) => None
  }

  function NewEvent(s: System, e: EventStep, env: bool): Option<Work> {
    match e
    case SAddCallbackEvent(at, e, id) =>
      if at < |s.table.contexts| && EventTable.AddEvent(s.table, at, e, CallbackWork(UserCallback(id)), env).ok then UserWork(id)
      else None
    case _ => None
  }

  function NewIo(s: System, w: nat, i: IoStep): Option<Work>
    requires Runs(s, w)
  {
    match i
    case SBeginIo(fd, e, timed) => if timed then Timeout(s.nextInfo, fd, e) else None
    case SRegister(env) =>
      (match CurrentPc(s, w)
       case Located(io, at) => if Accepts(s, w, at, io.event, env) then Some(FiberWork(Current(s, w))) else None
       case _ => None)
    case SDecide(again, timed) =>
      (match CurrentPc(s, w)
       case Deciding(io) => if timed && again && !Marked(s, io.info) then Timeout(io.info, io.fd, io.event) else None
       case _ => None)
    case _ => None
  }

  function NewTimed(s: System, w: nat, t: TimerStep): Option<Work> {
    match t
    case SBeginSleep => if Runs(s, w) then Some(CallbackWork(WakeFiber(Current(s, w)))) else None
    case SRunBody =>
      (match BodyOn(s, w)
       case Some(WakeFiber(g)) => Some(FiberWork(g))
       case _ => None)
    case STake(i) => if i < |s.timers| && s.timers[i].recurring then Some(CallbackWork(s.timers[i].cb)) else None
    case _ => None
  }

  function NewOuter(o: OuterStep): Option<Work> {
    match o
    case SOuterCallback(id, _) => UserWork(id)
    case SOuterFiber(g, _) => Some(FiberWork(g))
    case _ => None
  }

  /** The timer body that is about to act on worker w. */
  function BodyOn(s: System, w: nat): Option<Callback> {
    if w < |s.workers| && s.workers[w].phase.Running? then s.workers[w].phase.body else None
  }

  /** The work that a step uses up: a fiber or a user callback that is entered, a timer body that
      acts, a timer that is cancelled, a registration that delEvent throws away. */
  function Gone(s: System, step: Step): Option<Work> {
    match step
    case Loop(w, l) => GoneLoop(s, w, l)
    case Queue(_, q) => GoneQueued(s, q)
    case Events(_, e, env) => GoneEvent(s, e, env)
    case Ios(w, i) => if Runs(s, w) then GoneIo(s, w, i) else None
    case Timers(w, t) => GoneTimed(s, w, t)
    case Outer(_) => None
  }

  function GoneLoop(s: System, w: nat, l: LoopStep): Option<Work> {
    if l.SEnter? && w < |s.workers| && s.workers[w].phase.Picked? then
      match s.workers[w].phase.work
      case FiberWork(f) => Some(FiberWork(f))
      case CallbackWork(cb) => if cb.UserCallback? then Some(CallbackWork(cb)) else None
    else None
  }

  function GoneQueued(s: System, q: QueueStep): Option<Work> {
    if q.SCancelTimer? && q.i < |s.timers| then Some(CallbackWork(s.timers[q.i].cb)) else None
  }

  function GoneEvent(s: System, e: EventStep, env: bool): Option<Work> {
    if e.SDelEvent? then Dropped(s, e.at, e.e, env) else None
  }

  function GoneIo(s: System, w: nat, i: IoStep): Option<Work>
    requires Runs(s, w)
  {
    match i
    case SRegister(env) =>
      (match CurrentPc(s, w)
       case Located(io, at) => if Accepts(s, w, at, io.event, env) then None else OwnTimer(s, io)
       case _ => None)
    case SCancelIoTimer =>
      (match CurrentPc(s, w)
       case Resumed(io) => OwnTimer(s, io)
       case _ => None)
    case _ => None
  }

  function GoneTimed(s: System, w: nat, t: TimerStep): Option<Work> {
    match BodyOn(s, w)
    case Some(cb) => if t.SRunBody? then Some(CallbackWork(cb)) else None
    case None => None
  }

  /** The pool changes by exactly these. */
  predicate Balanced(s: System, s': System, more: Option<Work>, less: Option<Work>, u: Work) {
    Pool(s')[u] + Times(less, u) == Pool(s)[u] + Times(more, u)
  }

  // ---------------------------------------------------------------- one lemma for each kind of step

  lemma EvenPool(s: System, s': System, u: Work)
    requires Pool(s') == Pool(s)
    ensures Balanced(s, s', None, None, u)
  {
  }

  lemma MorePool(s: System, s': System, x: Option<Work>, u: Work)
    requires Pool(s') == Pool(s) + (if x.Some? then multiset{x.value} else multiset{})
    ensures Balanced(s, s', x, None, u)
  {
  }

  lemma LessPool(s: System, s': System, x: Option<Work>, u: Work)
    requires Pool(s) == Pool(s') + (if x.Some? then multiset{x.value} else multiset{})
    ensures Balanced(s, s', None, x, u)
  {
  }

  lemma PickBalanced(s: System, w: nat, u: Work)
    requires EnabledLoop(s, w, SPick)
    ensures Balanced(s, Pick(s, w), None, None, u)
  {
    var i := FirstEligible(s.tasks, w, Executing(s));
    var s' := Pick(s, w);
    if i < |s.tasks| {
      TakeTaskPool(s, w, i, s');
    } else {
      IdleHoldsNothing();
      PoolWorkerSame(s, w, s'.workers[w]);
    }
    EvenPool(s, s', u);
  }

  lemma EnterBalanced(s: System, w: nat, spare: FiberId, u: Work)
    requires EnabledLoop(s, w, SEnter(spare))
    ensures Balanced(s, Enter(s, w, spare), None, GoneLoop(s, w, SEnter(spare)), u)
  {
    match s.workers[w].phase.work
    case FiberWork(f) =>
      assert Enter(s, w, spare) == Enter(s, w, 0);
      EnterFiberPool(s, w, f);
      LessPool(s, Enter(s, w, spare), Some(FiberWork(f)), u);
    case CallbackWork(cb) =>
      EnterCallbackPool(s, w, spare, cb);
      LessPool(s, Enter(s, w, spare), if cb.UserCallback? then Some(CallbackWork(cb)) else None, u);
  }

  lemma ReturnBalanced(s: System, w: nat, st: FiberState, pc: Pc, u: Work)
    requires Runs(s, w) && s.workers[w].phase.body == None
    ensures Balanced(s, Return(s, w, st, pc), if st == READY then Some(FiberWork(Current(s, w))) else None, None, u)
  {
    ReturnPool(s, w, st, pc);
    MorePool(s, Return(s, w, st, pc), if st == READY then Some(FiberWork(Current(s, w))) else None, u);
  }

  lemma LoopBalanced(s: System, w: nat, l: LoopStep, u: Work)
    requires EnabledLoop(s, w, l)
    ensures Balanced(s, NextLoop(s, w, l), NewLoop(s, w, l), GoneLoop(s, w, l), u)
  {
    match l
    case SPick => PickBalanced(s, w, u);
    case SEnter(spare) => EnterBalanced(s, w, spare, u);
    case SFinish(exception) => ReturnBalanced(s, w, if exception then EXCEPT else TERM, Code, u);
    case SYieldReady => ReturnBalanced(s, w, READY, Code, u);
    case SPark => ReturnBalanced(s, w, HOLD, Parked, u);
    case SYieldIo => ReturnBalanced(s, w, HOLD, Waiting(CurrentPc(s, w).io), u);
    case SYieldSleep => ReturnBalanced(s, w, HOLD, Sleeping, u);
  }

  lemma PushBalanced(s: System, t: Task, s': System, u: Work)
    requires s'.tasks == s.tasks + [t] && s'.table == s.table && s'.timers == s.timers && s'.workers == s.workers
    ensures Balanced(s, s', Some(t.work), None, u)
  {
    PoolPush(s, t);
    SamePool(s', s.(tasks := s.tasks + [t]));
    MorePool(s, s', Some(t.work), u);
  }

  lemma PushTimerBalanced(s: System, t: Timer, s': System, u: Work)
    requires s'.timers == s.timers + [t] && s'.table == s.table && s'.tasks == s.tasks && s'.workers == s.workers
    ensures Balanced(s, s', Some(CallbackWork(t.cb)), None, u)
  {
    PoolPushTimer(s, t);
    SamePool(s', s.(timers := s.timers + [t]));
    MorePool(s, s', Some(CallbackWork(t.cb)), u);
  }

  lemma QueueBalanced(s: System, w: nat, q: QueueStep, u: Work)
    requires EnabledQueue(s, w, q)
    ensures Balanced(s, NextQueue(s, w, q), NewQueued(q), GoneQueued(s, q), u)
  {
    var s' := NextQueue(s, w, q);
    match q
    case SSpawn(g, thread) => PushBalanced(s, Task(FiberWork(g), thread), s', u);
    case SScheduleFiber(g, thread) => PushBalanced(s, Task(FiberWork(g), thread), s', u);
    case SScheduleCallback(id, thread) => PushBalanced(s, Task(CallbackWork(UserCallback(id)), thread), s', u);
    case SAddTimer(id, recurring) => PushTimerBalanced(s, Timer(s.nextTimer, UserCallback(id), recurring), s', u);
    case SCancelTimer(i) =>
      PoolTakeTimer(s, i);
      LessPool(s, s', Some(CallbackWork(s.timers[i].cb)), u);
  }

  /** cancelEvent, cancelAll and dispatch move work to the task list. */
  lemma PushedBalanced(s: System, r: EventTable.Effect, s': System, u: Work)
    requires EventTable.Waiting(s.table.contexts) == EventTable.Waiting(r.table.contexts) + multiset(r.pushed)
    requires s'.tasks == ApplyEffect(s, r).tasks && s'.table == r.table && s'.timers == s.timers && s'.workers == s.workers
    ensures Balanced(s, s', None, None, u)
  {
    PushEffectPool(s, r);
    SamePool(s', ApplyEffect(s, r));
    EvenPool(s, s', u);
  }

  lemma DropOne(s: System, r: EventTable.Effect, x: Work, u: Work)
    requires r.pushed == [] && r.dropped == [x]
    requires EventTable.Waiting(s.table.contexts) == EventTable.Waiting(r.table.contexts) + multiset{x}
    ensures Balanced(s, ApplyEffect(s, r), None, Some(x), u)
  {
    DropEffectPool(s, r, x);
    LessPool(s, ApplyEffect(s, r), Some(x), u);
  }

  lemma DelEffect(t: Table, at: nat, e: Event, env: bool, r: EventTable.Effect)
    requires EventTable.Valid(t) && at < |t.contexts| && r == EventTable.ClearOne(t, at, e, env, false)
    ensures var x := EventTable.WorkOf(t.contexts[at].Get(e));
            if t.contexts[at].events.Has(e) && env then
              x.Some? && r.pushed == [] && r.dropped == [x.value]
              && EventTable.Waiting(t.contexts) == EventTable.Waiting(r.table.contexts) + multiset{x.value}
            else r == EventTable.Nothing(t)
  {
    EventTableProofs.ClearOneKeeps(t, at, e, env, false);
    EventTableProofs.ClearOneConserves(t, at, e, env, false);
    if t.contexts[at].events.Has(e) && env { EventTableProofs.ClearOneIs(t, at, e, env, false); }
  }

  lemma DelBalanced(s: System, at: nat, e: Event, env: bool, u: Work)
    requires EventTable.Valid(s.table) && at < |s.table.contexts|
    ensures Balanced(s, ApplyEffect(s, EventTable.ClearOne(s.table, at, e, env, false)), None, Dropped(s, at, e, env), u)
  {
    var r := EventTable.ClearOne(s.table, at, e, env, false);
    DelEffect(s.table, at, e, env, r);
    if s.table.contexts[at].events.Has(e) && env {
      DropOne(s, r, r.dropped[0], u);
    } else {
      NoEffect(s);
      EvenPool(s, s, u);
    }
  }

  lemma CancelBalanced(s: System, at: nat, e: Event, env: bool, s': System, u: Work)
    requires EventTable.Valid(s.table) && at < |s.table.contexts|
    requires var r := EventTable.ClearOne(s.table, at, e, env, true);
      s'.tasks == ApplyEffect(s, r).tasks && s'.table == r.table && s'.timers == s.timers && s'.workers == s.workers
    ensures Balanced(s, s', None, None, u)
  {
    EventTableProofs.ClearOneKeeps(s.table, at, e, env, true);
    EventTableProofs.ClearOneConserves(s.table, at, e, env, true);
    PushedBalanced(s, EventTable.ClearOne(s.table, at, e, env, true), s', u);
  }

  lemma DispatchBalanced(s: System, w: nat, at: nat, fired: Mask, env: bool, u: Work)
    requires EventTable.Valid(s.table) && EnabledEvent(s, w, SDispatch(at, fired), env)
    ensures Balanced(s, NextEvent(s, w, SDispatch(at, fired), env), None, None, u)
  {
    var r := EventTable.Dispatch(s.table, at, fired, env);
    var s1 := ApplyEffect(s, r);
    EventTableProofs.DispatchKeeps(s.table, at, fired, env);
    EventTableProofs.DispatchConserves(s.table, at, fired, env);
    PushedBalanced(s, r, s1, u);
    ForgetPool(s1, w);
  }

  lemma ForgetPool(s: System, w: nat)
    requires Idles(s, w)
    ensures Pool(SetPhase(s, w, Idle(0, s.workers[w].phase.taken))) == Pool(s)
  {
    PoolWorkerSame(s, w, s.workers[w].(phase := Idle(0, s.workers[w].phase.taken)));
  }

  lemma AddBalanced(s: System, at: nat, e: Event, x: Work, env: bool, s': System, u: Work)
    requires EventTable.Valid(s.table) && at < |s.table.contexts|
    requires s'.table == EventTable.AddEvent(s.table, at, e, x, env).table
    requires s'.tasks == s.tasks && s'.timers == s.timers && s'.workers == s.workers
    ensures Balanced(s, s', if EventTable.AddEvent(s.table, at, e, x, env).ok then Some(x) else None, None, u)
  {
    EventTableProofs.AddEventConserves(s.table, at, e, x, env);
    MoreWaiting(s, s', if EventTable.AddEvent(s.table, at, e, x, env).ok then Some(x) else None, u);
  }

  lemma MoreWaiting(s: System, s': System, more: Option<Work>, u: Work)
    requires EventTable.Waiting(s'.table.contexts) ==
               EventTable.Waiting(s.table.contexts) + (if more.Some? then multiset{more.value} else multiset{})
    requires s'.tasks == s.tasks && s'.timers == s.timers && s'.workers == s.workers
    ensures Balanced(s, s', more, None, u)
  {
    InPool(s, u);
    InPool(s', u);
  }

  lemma GrowBalanced(s: System, fd: nat, s': System, u: Work)
    requires EventTable.Valid(s.table) && fd >= EventTable.INITIAL_CONTEXTS
    requires s'.table == EventTable.GrowFor(s.table, fd)
    requires s'.tasks == s.tasks && s'.timers == s.timers && s'.workers == s.workers
    ensures Balanced(s, s', None, None, u)
  {
    EventTableProofs.ResizeKeeps(s.table, fd * 3 / 2);
    PoolTable(s, s'.table, multiset{}, multiset{});
    SamePool(s', s.(table := s'.table));
  }

  /** What an event step does, by its kind. */
  lemma EventParts(s: System, w: nat, e: EventStep, env: bool, s': System)
    requires EnabledEvent(s, w, e, env) && s' == NextEvent(s, w, e, env)
    ensures match e
            case SGrowFor(fd) => s' == s.(table := EventTable.GrowFor(s.table, fd))
            case SAddCallbackEvent(at, e, id) =>
              at < |s.table.contexts|
              && s' == s.(table := EventTable.AddEvent(s.table, at, e, CallbackWork(UserCallback(id)), env).table)
            case SDelEvent(at, e) => s' == ApplyEffect(s, EventTable.ClearOne(s.table, at, e, env, false))
            case SCancelEvent(at, e) => s' == ApplyEffect(s, EventTable.ClearOne(s.table, at, e, env, true))
            case SCancelAll(at) => s' == ApplyEffect(s, EventTable.CancelAll(s.table, at, env))
            case SDispatch(_, _) => true
    ensures NewEvent(s, e, env) == match e
            case SAddCallbackEvent(at, e, id) =>
              if EventTable.AddEvent(s.table, at, e, CallbackWork(UserCallback(id)), env).ok then UserWork(id) else None
            case _ => None
    ensures GoneEvent(s, e, env) == match e
            case SDelEvent(at, e) => Dropped(s, at, e, env)
            case _ => None
  {
  }

  lemma CancelAllBalanced(s: System, at: nat, env: bool, u: Work)
    requires EventTable.Valid(s.table) && at < |s.table.contexts|
    ensures Balanced(s, ApplyEffect(s, EventTable.CancelAll(s.table, at, env)), None, None, u)
  {
    EventTableProofs.CancelAllKeeps(s.table, at, env);
    EventTableProofs.CancelAllConserves(s.table, at, env);
    PushedBalanced(s, EventTable.CancelAll(s.table, at, env), ApplyEffect(s, EventTable.CancelAll(s.table, at, env)), u);
  }

  lemma EventBalanced(s: System, w: nat, e: EventStep, env: bool, u: Work)
    requires EventTable.Valid(s.table) && EnabledEvent(s, w, e, env)
    ensures Balanced(s, NextEvent(s, w, e, env), NewEvent(s, e, env), GoneEvent(s, e, env), u)
  {
    var s' := NextEvent(s, w, e, env);
    EventParts(s, w, e, env, s');
    match e
    case SGrowFor(fd) => GrowBalanced(s, fd, s', u);
    case SAddCallbackEvent(at, e, id) => AddBalanced(s, at, e, CallbackWork(UserCallback(id)), env, s', u);
    case SDelEvent(at, e) => DelBalanced(s, at, e, env, u);
    case SCancelEvent(at, e) => CancelBalanced(s, at, e, env, s', u);
    case SCancelAll(at) => CancelAllBalanced(s, at, env, u);
    case SDispatch(at, fired) => DispatchBalanced(s, w, at, fired, env, u);
  }

  /** Setting a round's timer. */
  lemma ArmBalanced(s: System, io: Io, s': System, u: Work)
    requires s'.timers == s.timers + IoTimer(io) && s'.table == s.table && s'.tasks == s.tasks && s'.workers == s.workers
    ensures Balanced(s, s', if io.timer.Some? then Timeout(io.info, io.fd, io.event) else None, None, u)
  {
    if io.timer.Some? {
      PushTimerBalanced(s, IoTimer(io)[0], s', u);
    } else {
      assert s'.timers == s.timers;
      SamePool(s', s);
      EvenPool(s, s', u);
    }
  }

  lemma {:induction false} DropTimerExactly(timers: seq<Timer>, t: Timer)
    ensures InTimers(timers) == InTimers(DropTimer(timers, t)) + (if t in timers then multiset{CallbackWork(t.cb)} else multiset{})
  {
    if timers != [] && timers[0] != t {
      DropTimerExactly(timers[1..], t);
      assert ([timers[0]] + DropTimer(timers[1..], t))[1..] == DropTimer(timers[1..], t);
      assert t in timers <==> t in timers[1..];
    }
  }

  /** Cancelling a round's timer. */
  lemma DropBalanced(s: System, io: Io, s': System, u: Work)
    requires s'.timers == DropIoTimer(s.timers, io) && s'.table == s.table && s'.tasks == s.tasks && s'.workers == s.workers
    ensures Balanced(s, s', None, OwnTimer(s, io), u)
  {
    if io.timer.Some? {
      var t := IoTimer(io)[0];
      DropTimerExactly(s.timers, t);
      assert t == Timer(io.timer.value, IoTimeout(io.info, io.fd, io.event), false);
      Added(InTasks(s.tasks), EventTable.Waiting(s.table.contexts), InTimers(s'.timers), InWorkers(s.workers),
            if t in s.timers then multiset{CallbackWork(t.cb)} else multiset{});
      LessPool(s, s', OwnTimer(s, io), u);
    } else {
      SamePool(s', s);
      EvenPool(s, s', u);
    }
  }

  lemma AcceptedBalanced(s: System, w: nat, env: bool, s': System, u: Work)
    requires EventTable.Valid(s.table) && EnabledIo(s, w, SRegister(env)) && Accepts(s, w, CurrentPc(s, w).at, CurrentPc(s, w).io.event, env) && s' == Register(s, w, env)
    ensures Balanced(s, s', Some(FiberWork(Current(s, w))), None, u)
  {
    RegisterPool(s, w, env);
    MorePool(s, s', Some(FiberWork(Current(s, w))), u);
  }

  lemma RefusedBalanced(s: System, w: nat, env: bool, s': System, u: Work)
    requires EnabledIo(s, w, SRegister(env)) && !Accepts(s, w, CurrentPc(s, w).at, CurrentPc(s, w).io.event, env) && s' == Register(s, w, env)
    ensures Balanced(s, s', None, OwnTimer(s, CurrentPc(s, w).io), u)
  {
    DropBalanced(s, CurrentPc(s, w).io, s', u);
  }

  lemma RegisterParts(s: System, w: nat, env: bool)
    requires EnabledIo(s, w, SRegister(env))
    ensures NewIo(s, w, SRegister(env)) == if Accepts(s, w, CurrentPc(s, w).at, CurrentPc(s, w).io.event, env) then Some(FiberWork(Current(s, w))) else None
    ensures GoneIo(s, w, SRegister(env)) == if Accepts(s, w, CurrentPc(s, w).at, CurrentPc(s, w).io.event, env) then None else OwnTimer(s, CurrentPc(s, w).io)
  {
  }

  lemma RegisterBalanced(s: System, w: nat, env: bool, u: Work)
    requires EventTable.Valid(s.table) && EnabledIo(s, w, SRegister(env))
    ensures Balanced(s, NextIo(s, w, SRegister(env)), NewIo(s, w, SRegister(env)), GoneIo(s, w, SRegister(env)), u)
  {
    var s' := NextIo(s, w, SRegister(env));
    RegisterParts(s, w, env);
    if Accepts(s, w, CurrentPc(s, w).at, CurrentPc(s, w).io.event, env) { AcceptedBalanced(s, w, env, s', u); } else { RefusedBalanced(s, w, env, s', u); }
  }

  lemma BeginBalanced(s: System, w: nat, fd: nat, e: Event, timed: bool, u: Work)
    requires EnabledIo(s, w, SBeginIo(fd, e, timed))
    ensures Balanced(s, NextIo(s, w, SBeginIo(fd, e, timed)), NewIo(s, w, SBeginIo(fd, e, timed)), GoneIo(s, w, SBeginIo(fd, e, timed)), u)
  {
    var io := Io(fd, e, s.nextInfo, if timed then Some(s.nextTimer) else None);
    ArmBalanced(s, io, BeginIo(s, w, fd, e, timed), u);
  }

  lemma DecideBalanced(s: System, w: nat, again: bool, timed: bool, u: Work)
    requires EnabledIo(s, w, SDecide(again, timed))
    ensures Balanced(s, NextIo(s, w, SDecide(again, timed)), NewIo(s, w, SDecide(again, timed)), GoneIo(s, w, SDecide(again, timed)), u)
  {
    var io := CurrentPc(s, w).io;
    var s' := NextIo(s, w, SDecide(again, timed));
    if again && !Marked(s, io.info) {
      ArmBalanced(s, io.(timer := if timed then Some(s.nextTimer) else None), s', u);
    } else {
      SamePool(s', s);
      EvenPool(s, s', u);
    }
  }

  lemma LocateBalanced(s: System, w: nat, u: Work)
    requires EnabledIo(s, w, SLocate)
    ensures Balanced(s, NextIo(s, w, SLocate), NewIo(s, w, SLocate), GoneIo(s, w, SLocate), u)
  {
    SamePool(LocateIo(s, w), s);
    EvenPool(s, LocateIo(s, w), u);
  }

  lemma GrowIoEffect(s: System, w: nat, fd: nat, s': System)
    requires TableOk(s) && EnabledIo(s, w, SGrow) && fd == CurrentPc(s, w).io.fd && s' == NextIo(s, w, SGrow)
    ensures fd >= EventTable.INITIAL_CONTEXTS && s'.table == EventTable.GrowFor(s.table, fd)
    ensures s'.tasks == s.tasks && s'.timers == s.timers && s'.workers == s.workers
    ensures NewIo(s, w, SGrow) == None && GoneIo(s, w, SGrow) == None
  {
    assert PcOk(CurrentPc(s, w), s.table.contexts);
  }

  lemma GrowIoBalanced(s: System, w: nat, u: Work)
    requires TableOk(s) && EnabledIo(s, w, SGrow)
    ensures Balanced(s, NextIo(s, w, SGrow), NewIo(s, w, SGrow), GoneIo(s, w, SGrow), u)
  {
    var fd, s' := CurrentPc(s, w).io.fd, NextIo(s, w, SGrow);
    GrowIoEffect(s, w, fd, s');
    GrowBalanced(s, fd, s', u);
  }

  lemma CancelIoBalanced(s: System, w: nat, u: Work)
    requires EnabledIo(s, w, SCancelIoTimer)
    ensures Balanced(s, NextIo(s, w, SCancelIoTimer), NewIo(s, w, SCancelIoTimer), GoneIo(s, w, SCancelIoTimer), u)
  {
    DropBalanced(s, CurrentPc(s, w).io, CancelIoTimer(s, w), u);
  }

  lemma IoBalanced(s: System, w: nat, i: IoStep, u: Work)
    requires TableOk(s) && EnabledIo(s, w, i)
    ensures Balanced(s, NextIo(s, w, i), NewIo(s, w, i), GoneIo(s, w, i), u)
  {
    match i
    case SBeginIo(fd, e, timed) => BeginBalanced(s, w, fd, e, timed, u);
    case SLocate => LocateBalanced(s, w, u);
    case SGrow => GrowIoBalanced(s, w, u);
    case SRegister(env) => RegisterBalanced(s, w, env, u);
    case SCancelIoTimer => CancelIoBalanced(s, w, u);
    case SDecide(again, timed) => DecideBalanced(s, w, again, timed, u);
  }

  /** A body leaves the worker, and may queue something. */
  lemma BodyMoves(s: System, w: nat, k: Worker, cb: Callback, ts: seq<Task>, s': System, u: Work)
    requires w < |s.workers| && WorkerWork(s.workers[w]) == multiset{CallbackWork(cb)} && WorkerWork(k) == multiset{}
    requires s'.workers == s.workers[w := k] && s'.tasks == s.tasks + ts && s'.timers == s.timers && s'.table == s.table
    requires |ts| <= 1
    ensures Balanced(s, s', if ts == [] then None else Some(ts[0].work), Some(CallbackWork(cb)), u)
  {
    var s1 := s.(workers := s'.workers);
    BodyGone(s, w, k, cb, s1, u);
    if ts == [] {
      assert s'.tasks == s.tasks;
      SamePool(s', s1);
    } else {
      assert ts == [ts[0]];
      PushBalanced(s1, ts[0], s', u);
    }
  }

  lemma BodyGone(s: System, w: nat, k: Worker, cb: Callback, s1: System, u: Work)
    requires w < |s.workers| && WorkerWork(s.workers[w]) == multiset{CallbackWork(cb)} && WorkerWork(k) == multiset{}
    requires s1 == s.(workers := s.workers[w := k])
    ensures Balanced(s, s1, None, Some(CallbackWork(cb)), u)
  {
    PoolWorkerDrop(s, w, k, multiset{CallbackWork(cb)});
    LessPool(s, s1, Some(CallbackWork(cb)), u);
  }

  lemma BodyEffect(s: System, w: nat, cb: Callback)
    requires EnabledTimer(s, w, SRunBody) && cb == s.workers[w].phase.body.value
    ensures var s' := RunBody(s, w);
            && s'.workers == s.workers[w := s.workers[w].(phase := Running(Current(s, w), None))]
            && s'.tasks == s.tasks + BodyTasks(cb) && s'.timers == s.timers && s'.table == s.table
  {
  }

  lemma BodyBalanced(s: System, w: nat, u: Work)
    requires EnabledTimer(s, w, SRunBody)
    ensures Balanced(s, NextTimer(s, w, SRunBody), NewTimed(s, w, SRunBody), GoneTimed(s, w, SRunBody), u)
  {
    var cb := s.workers[w].phase.body.value;
    BodyEffect(s, w, cb);
    BodyMoves(s, w, s.workers[w].(phase := Running(Current(s, w), None)), cb, BodyTasks(cb), RunBody(s, w), u);
  }

  lemma TimedOutBalanced(s: System, w: nat, u: Work)
    requires EnabledTimer(s, w, SLocateTimedOut)
    ensures Balanced(s, LocateTimedOut(s, w), None, None, u)
  {
    SamePool(LocateTimedOut(s, w), s);
    EvenPool(s, LocateTimedOut(s, w), u);
  }

  lemma TimerBalanced(s: System, w: nat, t: TimerStep, u: Work)
    requires EventTable.Valid(s.table) && EnabledTimer(s, w, t)
    ensures Balanced(s, NextTimer(s, w, t), NewTimed(s, w, t), GoneTimed(s, w, t), u)
  {
    match t
    case SBeginSleep =>
      BeginSleepPool(s, w);
      MorePool(s, BeginSleep(s, w), Some(CallbackWork(WakeFiber(Current(s, w)))), u);
    case SRunBody => BodyBalanced(s, w, u);
    case SLocateTimedOut => TimedOutBalanced(s, w, u);
    case SCancelTimedOut(env) => CancelBalanced(s, CurrentPc(s, w).at, CurrentPc(s, w).event, env, CancelTimedOut(s, w, env), u);
    case STake(i) =>
      TakePool(s, w, i);
      MorePool(s, TakeExpired(s, w, i), NewTimed(s, w, t), u);
    case SQueueTaken =>
      QueueTakenPool(s, w);
      EvenPool(s, QueueTaken(s, w), u);
  }

  lemma IdleBalanced(s: System, w: nat, k: Worker, u: Work)
    requires Idles(s, w) && s.workers[w].phase.taken == []
    requires k.phase == Head || (k.phase.Idle? && k.phase.taken == [])
    ensures Balanced(s, s.(workers := s.workers[w := k]), None, None, u)
  {
    IdleHoldsNothing();
    PoolWorkerSame(s, w, k);
    EvenPool(s, s.(workers := s.workers[w := k]), u);
  }

  lemma LookTimersBalanced(s: System, w: nat, u: Work)
    requires EnabledOuter(s, SLookTimers(w))
    ensures Balanced(s, NextOuter(s, SLookTimers(w)), NewOuter(SLookTimers(w)), None, u)
  {
    var k := s.workers[w].(phase := Idle(1, []));
    assert NextOuter(s, SLookTimers(w)) == s.(workers := s.workers[w := k]);
    IdleBalanced(s, w, k, u);
  }

  lemma LookPendingBalanced(s: System, w: nat, u: Work)
    requires EnabledOuter(s, SLookPending(w))
    ensures Balanced(s, NextOuter(s, SLookPending(w)), NewOuter(SLookPending(w)), None, u)
  {
    var k := s.workers[w].(phase := Idle(2, []));
    assert NextOuter(s, SLookPending(w)) == s.(workers := s.workers[w := k]);
    IdleBalanced(s, w, k, u);
  }

  lemma IdleReturnBalanced(s: System, w: nat, u: Work)
    requires EnabledOuter(s, SIdleReturn(w))
    ensures Balanced(s, NextOuter(s, SIdleReturn(w)), NewOuter(SIdleReturn(w)), None, u)
  {
    var k := s.workers[w].(phase := Head);
    assert NextOuter(s, SIdleReturn(w)) == s.(workers := s.workers[w := k]);
    IdleBalanced(s, w, k, u);
  }

  lemma ExitBalanced(s: System, w: nat, u: Work)
    requires EnabledOuter(s, SIdleExit(w))
    ensures Balanced(s, NextOuter(s, SIdleExit(w)), NewOuter(SIdleExit(w)), None, u)
  {
    var k := Worker(Head, s.workers[w].cbFiber, true);
    assert NextOuter(s, SIdleExit(w)) == s.(workers := s.workers[w := k]);
    IdleBalanced(s, w, k, u);
  }

  lemma StopBalanced(s: System, u: Work)
    ensures Balanced(s, NextOuter(s, SStop), NewOuter(SStop), None, u)
  {
    SamePool(NextOuter(s, SStop), s);
    EvenPool(s, NextOuter(s, SStop), u);
  }

  lemma OuterCallbackBalanced(s: System, id: nat, thread: int, u: Work)
    requires EnabledOuter(s, SOuterCallback(id, thread))
    ensures Balanced(s, NextOuter(s, SOuterCallback(id, thread)), NewOuter(SOuterCallback(id, thread)), None, u)
  {
    PushBalanced(s, Task(CallbackWork(UserCallback(id)), thread), NextOuter(s, SOuterCallback(id, thread)), u);
  }

  lemma OuterFiberBalanced(s: System, g: FiberId, thread: int, u: Work)
    requires EnabledOuter(s, SOuterFiber(g, thread))
    ensures Balanced(s, NextOuter(s, SOuterFiber(g, thread)), NewOuter(SOuterFiber(g, thread)), None, u)
  {
    PushBalanced(s, Task(FiberWork(g), thread), NextOuter(s, SOuterFiber(g, thread)), u);
  }

  lemma OuterBalanced(s: System, o: OuterStep, u: Work)
    requires EnabledOuter(s, o)
    ensures Balanced(s, NextOuter(s, o), NewOuter(o), None, u)
  {
    match o
    case SLookTimers(w) => LookTimersBalanced(s, w, u);
    case SLookPending(w) => LookPendingBalanced(s, w, u);
    case SIdleExit(w) => ExitBalanced(s, w, u);
    case SIdleReturn(w) => IdleReturnBalanced(s, w, u);
    case SStop => StopBalanced(s, u);
    case SOuterCallback(id, thread) => OuterCallbackBalanced(s, id, thread, u);
    case SOuterFiber(g, thread) => OuterFiberBalanced(s, g, thread, u);
  }

  // ---------------------------------------------------------------- the theorem

  /** One step, item by item: what is outstanding afterwards, and what the step used up, is what was
      outstanding before, and what the step made. */
  lemma StepConserves(s: System, step: Step, u: Work)
    requires Inv(s) && Enabled(s, step)
    ensures Pool(Next(s, step))[u] + Times(Gone(s, step), u) == Pool(s)[u] + Times(New(s, step), u)
  {
    match step
    case Loop(w, l) => LoopBalanced(s, w, l, u);
    case Queue(w, q) => QueueBalanced(s, w, q, u);
    case Events(w, e, env) => EventBalanced(s, w, e, env, u);
    case Ios(w, i) => IoBalanced(s, w, i, u);
    case Timers(w, t) => TimerBalanced(s, w, t, u);
    case Outer(o) => OuterBalanced(s, o, u);
  }

  /** How often the run makes u, and how often it uses u up. */
  ghost function Made(s: System, run: seq<Step>, u: Work): nat
    requires Legal(s, run)
    decreases |run|
  {
    if run == [] then 0 else Times(New(s, run[0]), u) + Made(Next(s, run[0]), run[1..], u)
  }

  ghost function Used(s: System, run: seq<Step>, u: Work): nat
    requires Legal(s, run)
    decreases |run|
  {
    if run == [] then 0 else Times(Gone(s, run[0]), u) + Used(Next(s, run[0]), run[1..], u)
  }

  /** Over any run nothing is lost and nothing runs twice: every item, however often it is made, is used
      up as often or is still outstanding. */
  lemma {:induction false} RunConserves(s: System, run: seq<Step>, u: Work)
    requires Inv(s) && Legal(s, run)
    ensures Pool(After(s, run))[u] + Used(s, run, u) == Pool(s)[u] + Made(s, run, u)
    decreases |run|
  {
    if run != [] {
      StepConserves(s, run[0], u);
      StepKeeps(s, run[0]);
      RunConserves(Next(s, run[0]), run[1..], u);
    }
  }
}
