// The calls of do_io that are under way: each has a timer_info of its own, and every timeout that is
// set or on its way belongs to the call it was made for.

module RuntimeCalls {
  import opened Base
  import opened FiberTypes
  import opened TaskList
  import opened Runtime
  import opened RuntimeInvariant
  import opened RuntimeTable
  import opened RuntimeKeeps
  import opened RuntimeTheorems
  import opened RuntimeConserves
  import EventTable
  import EventTableProofs

  /** The call that a fiber's code is in; once its timer has been cancelled it has none. */
  function CallOf(pc: Pc): Option<Io> {
    match pc
    case Armed(io) => Some(io)
    case Growing(io) => Some(io)
    case Located(io, _) => Some(io)
    case Registered(io) => Some(io)
    case Waiting(io) => Some(io)
    case Resumed(io) => Some(io)
    case Deciding(io) => Some(io.(timer := None))
    case _ => None
  }

  function CallsIn(fibers: map<FiberId, Fiber>): map<FiberId, Io> {
    map f | f in fibers && CallOf(fibers[f].pc).Some? :: CallOf(fibers[f].pc).value
  }

  function Calls(s: System): map<FiberId, Io> { CallsIn(s.fibers) }

  // ---------------------------------------------------------------- the invariant

  predicate HasCall(calls: map<FiberId, Io>, info: nat) {
    exists f :: f in calls && calls[f].info == info
  }

  /** The live timer_info objects are those of the calls under way, one for each. */
  ghost predicate InfosOk(calls: map<FiberId, Io>, infos: set<nat>, nextInfo: nat) {
    && (forall f :: f in calls ==> calls[f].info in infos)
    && (forall f, g :: f in calls && g in calls && f != g ==> calls[f].info != calls[g].info)
    && (forall i :: i in infos ==> HasCall(calls, i) && i < nextInfo)
  }

  /** A timeout that has been made names the fd and event of its call, as long as that is under way. */
  ghost predicate TimeoutOk(calls: map<FiberId, Io>, nextInfo: nat, info: nat, fd: nat, e: Event) {
    info < nextInfo && forall f :: f in calls && calls[f].info == info ==> calls[f].fd == fd && calls[f].event == e
  }

  ghost predicate TimeoutsOk(s: System) {
    forall info: nat, fd: nat, e: Event :: CallbackWork(IoTimeout(info, fd, e)) in Pool(s) ==>
      TimeoutOk(Calls(s), s.nextInfo, info, fd, e)
  }

  predicate OwnedBy(t: Timer, io: Io) {
    t.cb.IoTimeout? && !t.recurring && io == Io(t.cb.fd, t.cb.event, t.cb.info, Some(t.id))
  }

  ghost predicate Owned(t: Timer, calls: map<FiberId, Io>) {
    t.cb.IoTimeout? ==> exists f :: f in calls && OwnedBy(t, calls[f])
  }

  /** Timers are told apart by their ids, and a timeout in the set is the timer of its call. */
  ghost predicate TimersOwned(timers: seq<Timer>, calls: map<FiberId, Io>, nextTimer: nat) {
    && (forall t :: t in timers ==> t.id < nextTimer && Owned(t, calls))
    && (forall j, k :: 0 <= j < k < |timers| ==> timers[j].id != timers[k].id)
  }

  ghost predicate CallsOk(s: System) {
    && InfosOk(Calls(s), s.infos.Keys, s.nextInfo)
    && TimeoutsOk(s)
    && TimersOwned(s.timers, Calls(s), s.nextTimer)
  }

  // ---------------------------------------------------------------- steps that leave the calls alone

  lemma SameCall(fibers: map<FiberId, Fiber>, g: FiberId, fb: Fiber)
    requires CallOf(fb.pc) == if g in fibers then CallOf(fibers[g].pc) else None
    ensures CallsIn(fibers[g := fb]) == CallsIn(fibers)
  {
  }

  lemma EnteredAwake(s: System, w: nat, f: FiberId)
    requires Inv(s) && w < |s.workers| && s.workers[w].phase == Picked(FiberWork(f))
    ensures f in s.fibers
    ensures var s' := Enter(s, w, 0); f in s'.fibers && CallOf(s'.fibers[f].pc) == CallOf(s.fibers[f].pc)
    ensures Enter(s, w, 0).fibers == s.fibers[f := Enter(s, w, 0).fibers[f]]
  {
    assert GoodWorker(s.fibers, s.workers[w]);
    if s.fibers[f].state in {TERM, EXCEPT} { assert s.fibers == s.fibers[f := s.fibers[f]]; }
  }

  lemma EnterSameCalls(s: System, w: nat, spare: FiberId)
    requires Inv(s) && EnabledLoop(s, w, SEnter(spare))
    ensures Calls(Enter(s, w, spare)) == Calls(s)
  {
    match s.workers[w].phase.work
    case FiberWork(f) =>
      EnteredAwake(s, w, f);
      assert Enter(s, w, spare) == Enter(s, w, 0);
      SameCall(s.fibers, f, Enter(s, w, 0).fibers[f]);
    case CallbackWork(_) =>
      var g := match s.workers[w].cbFiber case Some(x) => x case None => spare;
      CallbackFiberFree(s, w, spare, g);
      assert GoodFiber(ViewOf(s), g);
      SameCall(s.fibers, g, Fiber(EXEC, Code));
  }

  lemma ReturnSameCalls(s: System, w: nat, st: FiberState, pc: Pc)
    requires Runs(s, w) && CallOf(pc) == CallOf(CurrentPc(s, w))
    ensures Calls(Return(s, w, st, pc)) == Calls(s)
  {
    var f, s' := Current(s, w), Return(s, w, st, pc);
    assert s'.fibers == s.fibers[f := s'.fibers[f]];
    SameCall(s.fibers, f, s'.fibers[f]);
  }

  /** The ways of giving the worker back, and where the code then is. */
  lemma YieldSameCalls(s: System, w: nat, l: LoopStep)
    requires EnabledLoop(s, w, l) && !l.SPick? && !l.SEnter?
    ensures Calls(NextLoop(s, w, l)) == Calls(s)
  {
    match l
    case SFinish(exception) => ReturnSameCalls(s, w, if exception then EXCEPT else TERM, Code);
    case SYieldReady => ReturnSameCalls(s, w, READY, Code);
    case SPark => ReturnSameCalls(s, w, HOLD, Parked);
    case SYieldIo => ReturnSameCalls(s, w, HOLD, Waiting(CurrentPc(s, w).io));
    case SYieldSleep => ReturnSameCalls(s, w, HOLD, Sleeping);
  }

  lemma LoopSameCalls(s: System, w: nat, l: LoopStep)
    requires Inv(s) && EnabledLoop(s, w, l)
    ensures Calls(NextLoop(s, w, l)) == Calls(s)
  {
    match l
    case SPick => assert Pick(s, w).fibers == s.fibers;
    case SEnter(spare) => EnterSameCalls(s, w, spare);
    case _ => YieldSameCalls(s, w, l);
  }

  lemma SetPcSameCalls(s: System, w: nat, s': System, pc: Pc)
    requires Runs(s, w) && s'.fibers == s.fibers[Current(s, w) := s.fibers[Current(s, w)].(pc := pc)]
    requires CallOf(pc) == CallOf(CurrentPc(s, w))
    ensures Calls(s') == Calls(s)
  {
    SameCall(s.fibers, Current(s, w), s.fibers[Current(s, w)].(pc := pc));
  }

  /** What a timer body does to timer_info objects and to the code it runs on: do_io's body marks
      exactly its own timer_info, if that is live and unmarked, and goes on to cancel the event of its fd;
      no other body touches any. */
  lemma BodyMarks(s: System, w: nat, cb: Callback, s': System)
    requires Enabled(s, Timers(w, SRunBody)) && s' == Next(s, Timers(w, SRunBody)) && BodyOn(s, w) == Some(cb)
    ensures var f := Current(s, w);
            if cb.IoTimeout? && cb.info in s.infos && !s.infos[cb.info] then
              s'.infos == s.infos[cb.info := true] && s'.fibers == s.fibers[f := s.fibers[f].(pc := TimedOut(cb.fd, cb.event))]
            else s'.infos == s.infos && s'.fibers == s.fibers
    ensures s'.table == s.table && s'.timers == s.timers
  {
  }

  lemma BodySameCalls(s: System, w: nat)
    requires Inv(s) && EnabledTimer(s, w, SRunBody)
    ensures Calls(RunBody(s, w)) == Calls(s)
  {
    assert GoodWorker(s.fibers, s.workers[w]);
    var cb, s' := s.workers[w].phase.body.value, RunBody(s, w);
    BodyMarks(s, w, cb, s');
    if s'.fibers != s.fibers { SetPcSameCalls(s, w, s', TimedOut(cb.fd, cb.event)); }
  }

  lemma SleepSameCalls(s: System, w: nat)
    requires EnabledTimer(s, w, SBeginSleep)
    ensures Calls(NextTimer(s, w, SBeginSleep)) == Calls(s)
  {
    SetPcSameCalls(s, w, BeginSleep(s, w), SleepArmed);
  }

  lemma TimedOutSameCalls(s: System, w: nat)
    requires EnabledTimer(s, w, SLocateTimedOut)
    ensures Calls(NextTimer(s, w, SLocateTimedOut)) == Calls(s)
  {
    SetPcSameCalls(s, w, LocateTimedOut(s, w), LocateTimedOut(s, w).fibers[Current(s, w)].pc);
  }

  lemma CancelledSameCalls(s: System, w: nat, env: bool)
    requires EnabledTimer(s, w, SCancelTimedOut(env))
    ensures Calls(NextTimer(s, w, SCancelTimedOut(env))) == Calls(s)
  {
    SetPcSameCalls(s, w, CancelTimedOut(s, w, env), Code);
  }

  lemma TakeSameFibers(s: System, w: nat, t: TimerStep)
    requires EnabledTimer(s, w, t) && (t.STake? || t.SQueueTaken?)
    ensures NextTimer(s, w, t).fibers == s.fibers
  {
  }

  lemma TimerSameCalls(s: System, w: nat, t: TimerStep)
    requires Inv(s) && EnabledTimer(s, w, t)
    ensures Calls(NextTimer(s, w, t)) == Calls(s)
  {
    match t
    case SBeginSleep => SleepSameCalls(s, w);
    case SRunBody => BodySameCalls(s, w);
    case SLocateTimedOut => TimedOutSameCalls(s, w);
    case SCancelTimedOut(env) => CancelledSameCalls(s, w, env);
    case STake(_) => TakeSameFibers(s, w, t);
    case SQueueTaken => TakeSameFibers(s, w, t);
  }

  lemma QueueSameCalls(s: System, w: nat, q: QueueStep)
    requires EnabledQueue(s, w, q)
    ensures Calls(NextQueue(s, w, q)) == Calls(s)
  {
    if q.SSpawn? { SameCall(s.fibers, q.g, Fiber(INIT, Code)); }
  }

  lemma OuterSameCalls(s: System, o: OuterStep)
    requires EnabledOuter(s, o)
    ensures Calls(NextOuter(s, o)) == Calls(s)
  {
    if o.SOuterFiber? { SameCall(s.fibers, o.g, Fiber(INIT, Code)); }
  }

  /** The steps inside a call that neither begin nor end it nor touch its timer. */
  predicate WithinCall(s: System, w: nat, i: IoStep)
    requires EnabledIo(s, w, i)
  {
    match i
    case SLocate => true
    case SGrow => true
    case SRegister(env) => Accepts(s, w, CurrentPc(s, w).at, CurrentPc(s, w).io.event, env)
    case _ => false
  }

  lemma IoSameCalls(s: System, w: nat, i: IoStep)
    requires EnabledIo(s, w, i) && WithinCall(s, w, i)
    ensures Calls(NextIo(s, w, i)) == Calls(s)
  {
    match i
    case SLocate => SetPcSameCalls(s, w, LocateIo(s, w), LocateIo(s, w).fibers[Current(s, w)].pc);
    case SGrow => SetPcSameCalls(s, w, GrowIo(s, w), GrowIo(s, w).fibers[Current(s, w)].pc);
    case SRegister(env) => SetPcSameCalls(s, w, Register(s, w, env), Registered(CurrentPc(s, w).io));
  }

  /** A step that is no beginning or end of a call, and no cancelling of its timer. */
  predicate Aside(s: System, step: Step)
    requires Enabled(s, step)
  {
    step.Ios? ==> WithinCall(s, step.w, step.io)
  }

  lemma AsideSameCalls(s: System, step: Step)
    requires Inv(s) && Enabled(s, step) && Aside(s, step)
    ensures Calls(Next(s, step)) == Calls(s)
  {
    match step
    case Loop(w, l) => LoopSameCalls(s, w, l);
    case Queue(w, q) => QueueSameCalls(s, w, q);
    case Events(w, e, env) => EventRecord(s, w, e, env);
    case Ios(w, i) => IoSameCalls(s, w, i);
    case Timers(w, t) => TimerSameCalls(s, w, t);
    case Outer(o) => OuterSameCalls(s, o);
  }

  /** The infos and the timers after such a step: one timer may have gone, or one that is no timeout may
      have come. */
  ghost predicate TimersAside(timers: seq<Timer>, timers': seq<Timer>, nextTimer: nat, nextTimer': nat) {
    || (timers' == timers && nextTimer' == nextTimer)
    || (nextTimer' == nextTimer && exists i :: 0 <= i < |timers| && timers' == Without(timers, i))
    || (nextTimer' == nextTimer + 1 && exists t :: timers' == timers + [t] && t.id == nextTimer && !t.cb.IoTimeout?)
  }

  lemma OneMore(timers: seq<Timer>, timers': seq<Timer>, n: nat, t: Timer)
    requires timers' == timers + [t] && t.id == n && !t.cb.IoTimeout?
    ensures TimersAside(timers, timers', n, n + 1)
  {
  }

  lemma OneLess(timers: seq<Timer>, timers': seq<Timer>, n: nat, i: nat)
    requires i < |timers| && timers' == Without(timers, i)
    ensures TimersAside(timers, timers', n, n)
  {
  }

  lemma QueueTimers(s: System, w: nat, q: QueueStep)
    requires EnabledQueue(s, w, q)
    ensures TimersAside(s.timers, NextQueue(s, w, q).timers, s.nextTimer, NextQueue(s, w, q).nextTimer)
    ensures NextQueue(s, w, q).infos == s.infos && NextQueue(s, w, q).nextInfo == s.nextInfo
  {
    var s' := NextQueue(s, w, q);
    match q
    case SAddTimer(id, recurring) => OneMore(s.timers, s'.timers, s.nextTimer, Timer(s.nextTimer, UserCallback(id), recurring));
    case SCancelTimer(i) => OneLess(s.timers, s'.timers, s.nextTimer, i);
    case _ =>
  }

  lemma TimerTimers(s: System, w: nat, t: TimerStep)
    requires EnabledTimer(s, w, t)
    ensures TimersAside(s.timers, NextTimer(s, w, t).timers, s.nextTimer, NextTimer(s, w, t).nextTimer)
    ensures NextTimer(s, w, t).infos.Keys == s.infos.Keys && NextTimer(s, w, t).nextInfo == s.nextInfo
  {
    var s' := NextTimer(s, w, t);
    match t
    case SBeginSleep => OneMore(s.timers, s'.timers, s.nextTimer, Timer(s.nextTimer, WakeFiber(Current(s, w)), false));
    case SRunBody => BodyInfos(s, w);
    case STake(i) => if !s.timers[i].recurring { OneLess(s.timers, s'.timers, s.nextTimer, i); }
    case _ =>
  }

  lemma BodyInfos(s: System, w: nat)
    requires EnabledTimer(s, w, SRunBody)
    ensures var s' := RunBody(s, w);
            s'.timers == s.timers && s'.nextTimer == s.nextTimer && s'.infos.Keys == s.infos.Keys && s'.nextInfo == s.nextInfo
  {
  }

  lemma AsideTimers(s: System, step: Step)
    requires Enabled(s, step) && Aside(s, step)
    ensures var s' := Next(s, step);
            && TimersAside(s.timers, s'.timers, s.nextTimer, s'.nextTimer)
            && s'.infos.Keys == s.infos.Keys && s'.nextInfo == s.nextInfo
  {
    match step
    case Loop(w, l) => LoopTimers(s, w, l);
    case Queue(w, q) => QueueTimers(s, w, q);
    case Events(w, e, env) => EventTimers(s, w, e, env);
    case Ios(w, i) => IoTimers(s, w, i);
    case Timers(w, t) => TimerTimers(s, w, t);
    case Outer(o) =>
  }

  lemma LoopTimers(s: System, w: nat, l: LoopStep)
    requires EnabledLoop(s, w, l)
    ensures var s' := NextLoop(s, w, l);
            s'.timers == s.timers && s'.nextTimer == s.nextTimer && s'.infos == s.infos && s'.nextInfo == s.nextInfo
  {
  }

  lemma EventTimers(s: System, w: nat, e: EventStep, env: bool)
    requires EnabledEvent(s, w, e, env)
    ensures var s' := NextEvent(s, w, e, env);
            s'.timers == s.timers && s'.nextTimer == s.nextTimer && s'.infos == s.infos && s'.nextInfo == s.nextInfo
  {
  }

  lemma IoTimers(s: System, w: nat, i: IoStep)
    requires EnabledIo(s, w, i) && WithinCall(s, w, i)
    ensures var s' := NextIo(s, w, i);
            s'.timers == s.timers && s'.nextTimer == s.nextTimer && s'.infos == s.infos && s'.nextInfo == s.nextInfo
  {
  }

  lemma TimersAsideOwned(timers: seq<Timer>, timers': seq<Timer>, n: nat, n': nat, calls: map<FiberId, Io>)
    requires TimersOwned(timers, calls, n) && TimersAside(timers, timers', n, n')
    ensures TimersOwned(timers', calls, n')
  {
    forall t | t in timers' ensures t.id < n' && Owned(t, calls) {
      assert t in timers || !t.cb.IoTimeout?;
    }
  }

  predicate NoTimeout(o: Option<Work>) { o.Some? && o.value.CallbackWork? ==> !o.value.cb.IoTimeout? }

  lemma QuietNew(s: System, w: nat, l: LoopStep, q: QueueStep, e: EventStep, env: bool, o: OuterStep)
    ensures NoTimeout(NewLoop(s, w, l)) && NoTimeout(NewQueued(q)) && NoTimeout(NewEvent(s, e, env)) && NoTimeout(NewOuter(o))
  {
  }

  lemma IoNew(s: System, w: nat, i: IoStep)
    requires EnabledIo(s, w, i) && WithinCall(s, w, i)
    ensures NoTimeout(NewIo(s, w, i))
  {
  }

  lemma TimedNew(s: System, w: nat, t: TimerStep)
    requires TimersOk(s.timers)
    ensures NoTimeout(NewTimed(s, w, t))
  {
  }

  /** No such step makes a timeout. */
  lemma AsideMakesNoTimeout(s: System, step: Step)
    requires Inv(s) && Enabled(s, step) && Aside(s, step)
    ensures NoTimeout(New(s, step))
  {
    match step
    case Loop(w, l) => QuietNew(s, w, l, SCancelTimer(0), SGrowFor(0), true, SStop);
    case Queue(_, q) => QuietNew(s, 0, SPick, q, SGrowFor(0), true, SStop);
    case Events(_, e, env) => QuietNew(s, 0, SPick, SCancelTimer(0), e, env, SStop);
    case Ios(w, i) => IoNew(s, w, i);
    case Timers(w, t) => TimedNew(s, w, t);
    case Outer(o) => QuietNew(s, 0, SPick, SCancelTimer(0), SGrowFor(0), true, o);
  }

  lemma AsideTimeouts(s: System, step: Step)
    requires Inv(s) && TimeoutsOk(s) && Enabled(s, step) && Aside(s, step)
    ensures TimeoutsOk(Next(s, step))
  {
    var s' := Next(s, step);
    AsideSameCalls(s, step);
    AsideTimers(s, step);
    forall info: nat, fd: nat, e: Event | CallbackWork(IoTimeout(info, fd, e)) in Pool(s')
      ensures TimeoutOk(Calls(s'), s'.nextInfo, info, fd, e)
    {
      AsideMakesNoTimeout(s, step);
      StepConserves(s, step, CallbackWork(IoTimeout(info, fd, e)));
      assert CallbackWork(IoTimeout(info, fd, e)) in Pool(s);
    }
  }

  lemma AsideKeeps(s: System, step: Step)
    requires Inv(s) && CallsOk(s) && Enabled(s, step) && Aside(s, step)
    ensures CallsOk(Next(s, step))
  {
    AsideSameCalls(s, step);
    AsideTimers(s, step);
    AsideTimeouts(s, step);
    TimersAsideOwned(s.timers, Next(s, step).timers, s.nextTimer, Next(s, step).nextTimer, Calls(s));
  }

  // ---------------------------------------------------------------- a call begins, ends, or changes its timer

  lemma CallBegins(calls: map<FiberId, Io>, infos: set<nat>, n: nat, g: FiberId, io: Io)
    requires InfosOk(calls, infos, n) && g !in calls && io.info == n
    ensures InfosOk(calls[g := io], infos + {n}, n + 1)
  {
    var calls' := calls[g := io];
    forall i | i in infos + {n} ensures HasCall(calls', i) {
      if i == n {
        assert calls'[g].info == i;
      } else {
        var f :| f in calls && calls[f].info == i;
        assert calls'[f].info == i;
      }
    }
  }

  lemma CallEnds(calls: map<FiberId, Io>, infos: set<nat>, n: nat, g: FiberId)
    requires InfosOk(calls, infos, n) && g in calls
    ensures InfosOk(calls - {g}, infos - {calls[g].info}, n)
  {
    forall i | i in infos - {calls[g].info} ensures HasCall(calls - {g}, i) {
      var f :| f in calls && calls[f].info == i;
      assert f in calls - {g};
    }
  }

  lemma CallRetimed(calls: map<FiberId, Io>, infos: set<nat>, n: nat, g: FiberId, io: Io)
    requires InfosOk(calls, infos, n) && g in calls && io.info == calls[g].info
    ensures InfosOk(calls[g := io], infos, n)
  {
    var calls' := calls[g := io];
    forall i | i in infos ensures HasCall(calls', i) {
      var f :| f in calls && calls[f].info == i;
      assert calls'[f].info == i;
    }
  }

  lemma TimersArmed(timers: seq<Timer>, calls: map<FiberId, Io>, n: nat, g: FiberId, io: Io, timers': seq<Timer>)
    requires TimersOwned(timers, calls, n) && (g in calls ==> calls[g].timer == None)
    requires io.timer.Some? ==> io.timer.value == n
    requires timers' == timers + IoTimer(io)
    ensures TimersOwned(timers', calls[g := io], n + 1)
  {
    var calls' := calls[g := io];
    forall t | t in timers' ensures t.id < n + 1 && Owned(t, calls') {
      if t in timers {
        if t.cb.IoTimeout? {
          var f :| f in calls && OwnedBy(t, calls[f]);
          assert f in calls' && OwnedBy(t, calls'[f]);
        }
      } else {
        assert g in calls' && OwnedBy(t, calls'[g]);
      }
    }
  }

  lemma {:induction false} DroppedOnce(timers: seq<Timer>, t: Timer)
    requires forall j, k :: 0 <= j < k < |timers| ==> timers[j].id != timers[k].id
    ensures var r := DropTimer(timers, t);
            && t !in r && (forall x :: x in r ==> x in timers)
            && forall j, k :: 0 <= j < k < |r| ==> r[j].id != r[k].id
  {
    if timers != [] && timers[0] != t {
      DroppedOnce(timers[1..], t);
      var rest := DropTimer(timers[1..], t);
      forall k | 0 <= k < |rest| ensures rest[k].id != timers[0].id {
        assert rest[k] in timers[1..];
      }
    }
  }

  /** Cancelling the call's timer leaves no timeout of the call behind. */
  lemma TimersDisarmed(timers: seq<Timer>, calls: map<FiberId, Io>, infos: set<nat>, nextInfo: nat, n: nat, g: FiberId,
                       io: Io, timers': seq<Timer>)
    requires TimersOwned(timers, calls, n) && InfosOk(calls, infos, nextInfo) && g in calls && calls[g] == io
    requires timers' == DropIoTimer(timers, io)
    ensures TimersOwned(timers', calls - {g}, n)
    ensures forall t :: t in timers' && t.cb.IoTimeout? ==> t.cb.info != io.info
  {
    if io.timer.Some? { DroppedOnce(timers, IoTimer(io)[0]); }
    forall t | t in timers' && t.cb.IoTimeout? ensures t.cb.info != io.info && Owned(t, calls - {g}) {
      var f :| f in calls && OwnedBy(t, calls[f]);
      assert f != g;
      assert f in calls - {g};
    }
  }

  /** A call more without a timer owns no timer. */
  lemma UntimedOwnsNothing(timers: seq<Timer>, calls: map<FiberId, Io>, n: nat, g: FiberId, io: Io)
    requires TimersOwned(timers, calls - {g}, n)
    ensures TimersOwned(timers, calls[g := io], n)
  {
    forall t | t in timers ensures Owned(t, calls[g := io]) {
      if t.cb.IoTimeout? {
        var f :| f in calls - {g} && OwnedBy(t, (calls - {g})[f]);
        assert f in calls[g := io] && OwnedBy(t, calls[g := io][f]);
      }
    }
  }

  // ---------------------------------------------------------------- the four steps

  lemma SetCall(fibers: map<FiberId, Fiber>, g: FiberId, fb: Fiber)
    ensures CallsIn(fibers[g := fb]) ==
              if CallOf(fb.pc).Some? then CallsIn(fibers)[g := CallOf(fb.pc).value] else CallsIn(fibers) - {g}
  {
  }

  predicate SameCallAs(a: Io, b: Io) { a.info == b.info && a.fd == b.fd && a.event == b.event }

  /** Only the call of g has changed, begun or ended. */
  predicate OneCall(s: System, s': System, g: FiberId, next: Io) {
    && (Calls(s') == Calls(s) - {g} || Calls(s') == Calls(s)[g := next])
    && (if g in Calls(s) then SameCallAs(Calls(s)[g], next) else next.info == s.nextInfo)
    && s.nextInfo <= s'.nextInfo && next.info < s'.nextInfo
  }

  lemma TimeoutStaysOk(s: System, s': System, g: FiberId, next: Io, info: nat, fd: nat, e: Event)
    requires OneCall(s, s', g, next) && InfosOk(Calls(s), s.infos.Keys, s.nextInfo)
    requires TimeoutOk(Calls(s), s.nextInfo, info, fd, e) || (info == next.info && fd == next.fd && e == next.event)
    ensures TimeoutOk(Calls(s'), s'.nextInfo, info, fd, e)
  {
  }

  /** The timeouts that are out after a step that may have made one of that call. */
  lemma TimeoutsAfter(s: System, step: Step, g: FiberId, next: Io)
    requires Inv(s) && CallsOk(s) && Enabled(s, step) && OneCall(s, Next(s, step), g, next)
    requires New(s, step) == None || New(s, step) == Timeout(next.info, next.fd, next.event)
    ensures TimeoutsOk(Next(s, step))
  {
    var s' := Next(s, step);
    forall info: nat, fd: nat, e: Event | CallbackWork(IoTimeout(info, fd, e)) in Pool(s')
      ensures TimeoutOk(Calls(s'), s'.nextInfo, info, fd, e)
    {
      StepConserves(s, step, CallbackWork(IoTimeout(info, fd, e)));
      assert CallbackWork(IoTimeout(info, fd, e)) in Pool(s) || (info == next.info && fd == next.fd && e == next.event);
      TimeoutStaysOk(s, s', g, next, info, fd, e);
    }
  }

  lemma BeginEffect(s: System, w: nat, fd: nat, e: Event, timed: bool, io: Io, s': System)
    requires Enabled(s, Ios(w, SBeginIo(fd, e, timed))) && s' == Next(s, Ios(w, SBeginIo(fd, e, timed)))
    requires io == Io(fd, e, s.nextInfo, if timed then Some(s.nextTimer) else None)
    ensures Current(s, w) !in Calls(s) && Calls(s') == Calls(s)[Current(s, w) := io]
    ensures s'.infos == s.infos[s.nextInfo := false] && s'.nextInfo == s.nextInfo + 1
    ensures s'.timers == s.timers + IoTimer(io) && s'.nextTimer == s.nextTimer + 1
  {
    SetCall(s.fibers, Current(s, w), s.fibers[Current(s, w)].(pc := Armed(io)));
  }

  lemma BeginKeepsCalls(s: System, w: nat, fd: nat, e: Event, timed: bool)
    requires Inv(s) && CallsOk(s) && Enabled(s, Ios(w, SBeginIo(fd, e, timed)))
    ensures CallsOk(Next(s, Ios(w, SBeginIo(fd, e, timed))))
  {
    var step := Ios(w, SBeginIo(fd, e, timed));
    var s', g := Next(s, step), Current(s, w);
    var io := Io(fd, e, s.nextInfo, if timed then Some(s.nextTimer) else None);
    BeginEffect(s, w, fd, e, timed, io, s');
    assert OneCall(s, s', g, io);
    CallBegins(Calls(s), s.infos.Keys, s.nextInfo, g, io);
    assert s'.infos.Keys == s.infos.Keys + {s.nextInfo};
    TimersArmed(s.timers, Calls(s), s.nextTimer, g, io, s'.timers);
    TimeoutsAfter(s, step, g, io);
  }

  lemma RefuseEffect(s: System, w: nat, env: bool, io: Io, s': System)
    requires Enabled(s, Ios(w, SRegister(env))) && !WithinCall(s, w, SRegister(env)) && s' == Next(s, Ios(w, SRegister(env)))
    requires io == CurrentPc(s, w).io
    ensures Current(s, w) in Calls(s) && Calls(s)[Current(s, w)] == io && Calls(s') == Calls(s) - {Current(s, w)}
    ensures s'.infos == s.infos - {io.info} && s'.nextInfo == s.nextInfo
    ensures s'.timers == DropIoTimer(s.timers, io) && s'.nextTimer == s.nextTimer
  {
    SetCall(s.fibers, Current(s, w), s.fibers[Current(s, w)].(pc := Code));
  }

  lemma RefuseKeepsCalls(s: System, w: nat, env: bool)
    requires Inv(s) && CallsOk(s) && Enabled(s, Ios(w, SRegister(env))) && !WithinCall(s, w, SRegister(env))
    ensures CallsOk(Next(s, Ios(w, SRegister(env))))
  {
    var step := Ios(w, SRegister(env));
    var s', g, io := Next(s, step), Current(s, w), CurrentPc(s, w).io;
    RefuseEffect(s, w, env, io, s');
    CallEnds(Calls(s), s.infos.Keys, s.nextInfo, g);
    assert s'.infos.Keys == s.infos.Keys - {io.info};
    TimersDisarmed(s.timers, Calls(s), s.infos.Keys, s.nextInfo, s.nextTimer, g, io, s'.timers);
    TimeoutsAfter(s, step, g, io);
  }

  lemma CancelEffect(s: System, w: nat, io: Io, s': System)
    requires Enabled(s, Ios(w, SCancelIoTimer)) && s' == Next(s, Ios(w, SCancelIoTimer)) && io == CurrentPc(s, w).io
    ensures Current(s, w) in Calls(s) && Calls(s)[Current(s, w)] == io
    ensures Calls(s') == Calls(s)[Current(s, w) := io.(timer := None)]
    ensures s'.infos == s.infos && s'.nextInfo == s.nextInfo
    ensures s'.timers == DropIoTimer(s.timers, io) && s'.nextTimer == s.nextTimer
  {
    SetCall(s.fibers, Current(s, w), s.fibers[Current(s, w)].(pc := Deciding(io)));
  }

  lemma CancelKeepsCalls(s: System, w: nat)
    requires Inv(s) && CallsOk(s) && Enabled(s, Ios(w, SCancelIoTimer))
    ensures CallsOk(Next(s, Ios(w, SCancelIoTimer)))
  {
    var step := Ios(w, SCancelIoTimer);
    var s', g, io := Next(s, step), Current(s, w), CurrentPc(s, w).io;
    CancelEffect(s, w, io, s');
    CallRetimed(Calls(s), s.infos.Keys, s.nextInfo, g, io.(timer := None));
    TimersDisarmed(s.timers, Calls(s), s.infos.Keys, s.nextInfo, s.nextTimer, g, io, s'.timers);
    UntimedOwnsNothing(s'.timers, Calls(s), s.nextTimer, g, io.(timer := None));
    TimeoutsAfter(s, step, g, io.(timer := None));
  }

  /** What tinfo->cancelled and the retried call decide. */
  lemma DecideEffect(s: System, w: nat, again: bool, timed: bool, io: Io, next: Io, s': System)
    requires Enabled(s, Ios(w, SDecide(again, timed))) && s' == Next(s, Ios(w, SDecide(again, timed)))
    requires io == CurrentPc(s, w).io
    requires next == Io(io.fd, io.event, io.info, if timed then Some(s.nextTimer) else None)
    ensures var f := Current(s, w);
            && f in s'.fibers && f in Calls(s) && Calls(s)[f] == io.(timer := None)
            && if Marked(s, io.info) || !again then
                 && s'.fibers[f].pc == Code && Calls(s') == Calls(s) - {f}
                 && s'.infos == s.infos - {io.info} && s'.nextInfo == s.nextInfo
                 && s'.timers == s.timers && s'.nextTimer == s.nextTimer
               else
                 && s'.fibers[f].pc == Armed(next) && Calls(s') == Calls(s)[f := next]
                 && s'.infos == s.infos && s'.nextInfo == s.nextInfo
                 && s'.nextTimer == s.nextTimer + 1 && s'.timers == s.timers + IoTimer(next)
  {
    var f := Current(s, w);
    SetCall(s.fibers, f, s.fibers[f].(pc := if Marked(s, io.info) || !again then Code else Armed(next)));
  }

  lemma DecideKeepsCalls(s: System, w: nat, again: bool, timed: bool)
    requires Inv(s) && CallsOk(s) && Enabled(s, Ios(w, SDecide(again, timed)))
    ensures CallsOk(Next(s, Ios(w, SDecide(again, timed))))
  {
    var step := Ios(w, SDecide(again, timed));
    var s', g, io := Next(s, step), Current(s, w), CurrentPc(s, w).io;
    var next := Io(io.fd, io.event, io.info, if timed then Some(s.nextTimer) else None);
    DecideEffect(s, w, again, timed, io, next, s');
    if Marked(s, io.info) || !again {
      CallEnds(Calls(s), s.infos.Keys, s.nextInfo, g);
      assert s'.infos.Keys == s.infos.Keys - {io.info};
      TimersDisarmed(s.timers, Calls(s), s.infos.Keys, s.nextInfo, s.nextTimer, g, io.(timer := None), s'.timers);
    } else {
      CallRetimed(Calls(s), s.infos.Keys, s.nextInfo, g, next);
      TimersArmed(s.timers, Calls(s), s.nextTimer, g, next, s'.timers);
    }
    TimeoutsAfter(s, step, g, next);
  }

  /** Every step keeps the calls and their timeouts in order. */
  lemma StepKeepsCalls(s: System, step: Step)
    requires Inv(s) && CallsOk(s) && Enabled(s, step)
    ensures CallsOk(Next(s, step))
  {
    if Aside(s, step) {
      AsideKeeps(s, step);
    } else {
      match step.io
      case SBeginIo(fd, e, timed) => BeginKeepsCalls(s, step.w, fd, e, timed);
      case SRegister(env) => RefuseKeepsCalls(s, step.w, env);
      case SCancelIoTimer => CancelKeepsCalls(s, step.w);
      case SDecide(again, timed) => DecideKeepsCalls(s, step.w, again, timed);
      case SLocate =>
      case SGrow =>
    }
  }

  lemma InitCalls(n: nat)
    ensures CallsOk(Init(n))
  {
    HeadWorkers(n);
    InitInv(n);
    assert Calls(Init(n)) == map[];
    assert Pool(Init(n)) == multiset{} by { EmptyPool(n); }
  }

  lemma EmptyPool(n: nat)
    ensures Pool(Init(n)) == multiset{}
  {
    HeadWorkers(n);
    EventTableProofs.InitialValid();
    assert InTasks([]) == multiset{} && InTimers([]) == multiset{};
  }

  lemma {:induction false} RunKeepsCalls(s: System, run: seq<Step>)
    requires Inv(s) && CallsOk(s) && Legal(s, run)
    ensures Inv(After(s, run)) && CallsOk(After(s, run))
    decreases |run|
  {
    if run != [] {
      StepKeeps(s, run[0]);
      StepKeepsCalls(s, run[0]);
      RunKeepsCalls(Next(s, run[0]), run[1..]);
    }
  }

  lemma ReachableCalls(s: System)
    requires Reachable(s)
    ensures Inv(s) && CallsOk(s)
  {
    var n: nat, run: seq<Step> :| Legal(Init(n), run) && After(Init(n), run) == s;
    InitInv(n);
    InitCalls(n);
    RunKeepsCalls(Init(n), run);
  }
}
