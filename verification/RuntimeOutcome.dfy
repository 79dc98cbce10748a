// What becomes of a call of do_io: when it gives up, when it waits again, and whom its timeout wakes.

module RuntimeOutcomes {
  import opened Base
  import opened FiberTypes
  import opened TaskList
  import opened Runtime
  import opened RuntimeInvariant
  import opened RuntimeTable
  import opened RuntimeKeeps
  import opened RuntimeTheorems
  import opened RuntimeConserves
  import opened RuntimeCalls
  import opened RuntimeFound
  import EventTable
  import EventTableProofs
  import EventTableRuns

  // ---------------------------------------------------------------- marks

  /** The step runs a timeout body of the call with this timer_info. */
  predicate RunsTimeout(s: System, step: Step, info: nat) {
    step.Timers? && step.timer.SRunBody? &&
    match BodyOn(s, step.w)
    case Some(IoTimeout(i, _, _)) => i == info
    case _ => false
  }

  lemma SameInfos(s: System, step: Step)
    requires Enabled(s, step) && Aside(s, step) && !(step.Timers? && step.timer.SRunBody?)
    ensures Next(s, step).infos == s.infos
  {
    match step
    case Loop(w, l) => LoopTimers(s, w, l);
    case Queue(w, q) => QueueTimers(s, w, q);
    case Events(w, e, env) => EventTimers(s, w, e, env);
    case Ios(w, i) => IoTimers(s, w, i);
    case Timers(w, t) => TimerInfos(s, w, t);
    case Outer(o) =>
  }

  lemma TimerInfos(s: System, w: nat, t: TimerStep)
    requires EnabledTimer(s, w, t) && !t.SRunBody?
    ensures NextTimer(s, w, t).infos == s.infos
  {
  }

  lemma BodyHeld(s: System, w: nat, cb: Callback)
    requires Enabled(s, Timers(w, SRunBody)) && BodyOn(s, w) == Some(cb)
    ensures CallbackWork(cb) in Pool(s)
  {
    RuntimeKeeps.Holds(s, w);
  }

  /** How one step changes one timer_info: a live one is marked exactly by a timeout body of its call; a
      new one is unmarked; one that has gone does not come back. */
  lemma MarksExactly(s: System, step: Step, i: nat)
    requires Inv(s) && CallsOk(s) && Enabled(s, step)
    ensures var s' := Next(s, step);
            && (i in s.infos && i in s'.infos ==> (s'.infos[i] <==> s.infos[i] || RunsTimeout(s, step, i)))
            && (i !in s.infos && i in s'.infos ==> i == s.nextInfo && !s'.infos[i])
            && s.nextInfo <= s'.nextInfo && (RunsTimeout(s, step, i) ==> i < s.nextInfo)
  {
    if step.Timers? && step.timer.SRunBody? {
      BodyMarksExactly(s, step.w, i);
    } else if Aside(s, step) {
      SameInfos(s, step);
      AsideTimers(s, step);
    } else {
      IoMarks(s, step.w, step.io);
    }
  }

  lemma BodyMarksExactly(s: System, w: nat, i: nat)
    requires Inv(s) && CallsOk(s) && Enabled(s, Timers(w, SRunBody))
    ensures var step := Timers(w, SRunBody); var s' := Next(s, step);
            && (i in s.infos && i in s'.infos ==> (s'.infos[i] <==> s.infos[i] || RunsTimeout(s, step, i)))
            && (i !in s.infos ==> i !in s'.infos)
            && s.nextInfo <= s'.nextInfo && (RunsTimeout(s, step, i) ==> i < s.nextInfo)
  {
    var step := Timers(w, SRunBody);
    var cb := s.workers[w].phase.body.value;
    BodyMarks(s, w, cb, Next(s, step));
    BodyHeld(s, w, cb);
    AsideTimers(s, step);
    if cb.IoTimeout? { assert TimeoutOk(Calls(s), s.nextInfo, cb.info, cb.fd, cb.event); }
  }

  lemma IoMarks(s: System, w: nat, i: IoStep)
    requires Enabled(s, Ios(w, i)) && !Aside(s, Ios(w, i))
    ensures var s' := Next(s, Ios(w, i));
            && s.nextInfo <= s'.nextInfo
            && (s'.infos == s.infos[s.nextInfo := false] || forall j :: j in s'.infos ==> j in s.infos && s'.infos[j] == s.infos[j])
  {
    var s' := Next(s, Ios(w, i));
    match i
    case SBeginIo(fd, e, timed) =>
    case SRegister(env) => RefuseEffect(s, w, env, CurrentPc(s, w).io, s');
    case SCancelIoTimer => CancelEffect(s, w, CurrentPc(s, w).io, s');
    case SDecide(again, timed) =>
      var io := CurrentPc(s, w).io;
      DecideEffect(s, w, again, timed, io, Io(io.fd, io.event, io.info, if timed then Some(s.nextTimer) else None), s');
    case SLocate =>
    case SGrow =>
  }

  /** A timeout body of the call has run. */
  ghost predicate TimeoutRan(s: System, run: seq<Step>, info: nat)
    requires Legal(s, run)
    decreases |run|
  {
    run != [] && (RunsTimeout(s, run[0], info) || TimeoutRan(Next(s, run[0]), run[1..], info))
  }

  lemma {:induction false} GoneForGood(s: System, run: seq<Step>, i: nat)
    requires Inv(s) && CallsOk(s) && Legal(s, run) && i < s.nextInfo && i !in s.infos
    ensures i !in After(s, run).infos
    decreases |run|
  {
    if run != [] {
      MarksExactly(s, run[0], i);
      StepKeeps(s, run[0]);
      StepKeepsCalls(s, run[0]);
      GoneForGood(Next(s, run[0]), run[1..], i);
    }
  }

  /** Over any run a timer_info that is still live is marked exactly when it was or a timeout body of
      its call has run. */
  lemma {:induction false} MarkedExactly(s: System, run: seq<Step>, i: nat)
    requires Inv(s) && CallsOk(s) && Legal(s, run) && i in After(s, run).infos
    ensures After(s, run).infos[i] <==> Marked(s, i) || TimeoutRan(s, run, i)
    decreases |run|
  {
    if run != [] {
      var s1 := Next(s, run[0]);
      MarksExactly(s, run[0], i);
      StepKeeps(s, run[0]);
      StepKeepsCalls(s, run[0]);
      MarkedExactly(s1, run[1..], i);
      if i !in s1.infos && i < s.nextInfo { GoneForGood(s1, run[1..], i); }
    }
  }

  // ---------------------------------------------------------------- giving up and waiting again

  /** No timeout of the call is in the timer set. */
  predicate NoTimeoutSet(timers: seq<Timer>, info: nat) {
    forall t :: t in timers && t.cb.IoTimeout? ==> t.cb.info != info
  }

  /** The end of a waiting round. The call gives up, leaving no timeout set and no timer_info live, exactly
      when a timeout body of it has run since it began or it is not repeated; otherwise it goes on to wait
      for the same event of the same fd, with the same unmarked timer_info and a new timeout exactly when it
      is timed. */
  lemma RoundOutcome(n: nat, run: seq<Step>, w: nat, again: bool, timed: bool)
    requires Legal(Init(n), run) && Enabled(After(Init(n), run), Ios(w, SDecide(again, timed)))
    ensures var s := After(Init(n), run); var s' := Next(s, Ios(w, SDecide(again, timed)));
            var f, io := Current(s, w), CurrentPc(s, w).io;
            && f in s'.fibers && s'.fibers[f].state == EXEC
            && if TimeoutRan(Init(n), run, io.info) || !again then
                 s'.fibers[f].pc == Code && io.info !in s'.infos && NoTimeoutSet(s'.timers, io.info)
               else
                 var timer := if timed then Some(s.nextTimer) else None;
                 && s'.fibers[f].pc == Armed(Io(io.fd, io.event, io.info, timer))
                 && io.info in s'.infos && !s'.infos[io.info]
                 && s'.timers == s.timers +
                      (if timed then [Timer(s.nextTimer, IoTimeout(io.info, io.fd, io.event), false)] else [])
  {
    var s := After(Init(n), run);
    InitInv(n);
    InitCalls(n);
    RunKeepsCalls(Init(n), run);
    DecidedRound(s, w, again, timed);
    var io := CurrentPc(s, w).io;
    assert Calls(s)[Current(s, w)] == io.(timer := None) by { CallAtDeciding(s, w, io); }
    MarkedExactly(Init(n), run, io.info);
  }

  lemma CallAtDeciding(s: System, w: nat, io: Io)
    requires Runs(s, w) && CurrentPc(s, w) == Deciding(io)
    ensures Current(s, w) in Calls(s) && Calls(s)[Current(s, w)] == io.(timer := None)
  {
  }

  lemma DecidedRound(s: System, w: nat, again: bool, timed: bool)
    requires Inv(s) && CallsOk(s) && Enabled(s, Ios(w, SDecide(again, timed)))
    ensures var s' := Next(s, Ios(w, SDecide(again, timed))); var f, io := Current(s, w), CurrentPc(s, w).io;
            && io.info in s.infos && f in s'.fibers && s'.fibers[f].state == EXEC
            && if s.infos[io.info] || !again then
                 s'.fibers[f].pc == Code && io.info !in s'.infos && NoTimeoutSet(s'.timers, io.info)
               else
                 var timer := if timed then Some(s.nextTimer) else None;
                 && s'.fibers[f].pc == Armed(Io(io.fd, io.event, io.info, timer)) && s'.infos == s.infos
                 && s'.timers == s.timers +
                      (if timed then [Timer(s.nextTimer, IoTimeout(io.info, io.fd, io.event), false)] else [])
  {
    var s', f, io := Next(s, Ios(w, SDecide(again, timed))), Current(s, w), CurrentPc(s, w).io;
    DecideEffect(s, w, again, timed, io, Io(io.fd, io.event, io.info, if timed then Some(s.nextTimer) else None), s');
    CallAtDeciding(s, w, io);
    OnWorker(s, w);
    TimersDisarmed(s.timers, Calls(s), s.infos.Keys, s.nextInfo, s.nextTimer, f, io.(timer := None), s.timers);
    DecideState(s, w, again, timed);
  }

  lemma DecideState(s: System, w: nat, again: bool, timed: bool)
    requires Enabled(s, Ios(w, SDecide(again, timed)))
    ensures var f, s' := Current(s, w), Next(s, Ios(w, SDecide(again, timed)));
            f in s'.fibers && s'.fibers[f].state == s.fibers[f].state
  {
  }

  // ---------------------------------------------------------------- whom the timeout wakes

  type Slot = EventTableRuns.Slot

  /** The slot loses its bit and its work, and no other slot changes. */
  ghost predicate OnlySlotCleared(t: Table, t': Table, slot: Slot) {
    && !EventTableRuns.SetIn(t', slot)
    && forall other: Slot, u: Work :: other != slot ==>
         (EventTableRuns.Holds(t', other, u) <==> EventTableRuns.Holds(t, other, u))
         && (EventTableRuns.SetIn(t', other) <==> EventTableRuns.SetIn(t, other))
  }

  /** The three sections of a timeout body, with nothing in between. */
  function AfterTimeout(s: System, w: nat): System
    requires Enabled(s, Timers(w, SRunBody))
    requires Enabled(Next(s, Timers(w, SRunBody)), Timers(w, SLocateTimedOut))
    requires Enabled(Next(Next(s, Timers(w, SRunBody)), Timers(w, SLocateTimedOut)), Timers(w, SCancelTimedOut(true)))
  {
    Next(Next(Next(s, Timers(w, SRunBody)), Timers(w, SLocateTimedOut)), Timers(w, SCancelTimedOut(true)))
  }

  /** The timeout body of an unmarked call, when the context of its fd is found: it queues exactly the
      fiber that is registered for the event of the fd, takes that registration away, and touches no other. */
  lemma TimeoutWakes(s: System, w: nat, info: nat, fd: nat, e: Event, at: nat, f: FiberId)
    requires Inv(s) && Enabled(s, Timers(w, SRunBody)) && BodyOn(s, w) == Some(IoTimeout(info, fd, e))
    requires info in s.infos && !s.infos[info]
    requires EventTable.Locate(s.table, fd) == Some(at) && EventTableRuns.Holds(s.table, EventTableRuns.Slot(at, e), FiberWork(f))
    ensures var s1 := Next(s, Timers(w, SRunBody));
            && Enabled(s1, Timers(w, SLocateTimedOut))
            && Enabled(Next(s1, Timers(w, SLocateTimedOut)), Timers(w, SCancelTimedOut(true)))
            && var s3 := AfterTimeout(s, w);
            && s3.tasks == s.tasks + [Task(FiberWork(f), -1)]
            && OnlySlotCleared(s.table, s3.table, EventTableRuns.Slot(at, e))
            && s3.infos == s.infos[info := true]
  {
    var s1 := Next(s, Timers(w, SRunBody));
    BodySection(s, w, info, fd, e, s1);
    var s2 := Next(s1, Timers(w, SLocateTimedOut));
    LocateSection(s1, w, fd, e, at, s2);
    CancelSection(s2, w, at, e, f, Next(s2, Timers(w, SCancelTimedOut(true))));
  }

  lemma BodySection(s: System, w: nat, info: nat, fd: nat, e: Event, s1: System)
    requires Inv(s) && Enabled(s, Timers(w, SRunBody)) && BodyOn(s, w) == Some(IoTimeout(info, fd, e))
    requires info in s.infos && !s.infos[info] && s1 == Next(s, Timers(w, SRunBody))
    ensures Enabled(s1, Timers(w, SLocateTimedOut)) && CurrentPc(s1, w) == TimedOut(fd, e)
    ensures s1.table == s.table && s1.tasks == s.tasks && s1.infos == s.infos[info := true]
  {
    BodyMarks(s, w, IoTimeout(info, fd, e), s1);
    BodyEffect(s, w, IoTimeout(info, fd, e));
    assert s.tasks + [] == s.tasks;
  }

  lemma LocateSection(s1: System, w: nat, fd: nat, e: Event, at: nat, s2: System)
    requires Enabled(s1, Timers(w, SLocateTimedOut)) && CurrentPc(s1, w) == TimedOut(fd, e)
    requires EventTable.Locate(s1.table, fd) == Some(at) && at < |s1.table.contexts|
    requires s2 == Next(s1, Timers(w, SLocateTimedOut))
    ensures Enabled(s2, Timers(w, SCancelTimedOut(true))) && CurrentPc(s2, w) == Cancelling(at, e)
    ensures s2.table == s1.table && s2.tasks == s1.tasks && s2.infos == s1.infos
  {
  }

  lemma CancelSection(s2: System, w: nat, at: nat, e: Event, f: FiberId, s3: System)
    requires EventTable.Valid(s2.table) && Enabled(s2, Timers(w, SCancelTimedOut(true))) && CurrentPc(s2, w) == Cancelling(at, e)
    requires EventTableRuns.Holds(s2.table, EventTableRuns.Slot(at, e), FiberWork(f))
    requires s3 == Next(s2, Timers(w, SCancelTimedOut(true)))
    ensures s3.tasks == s2.tasks + [Task(FiberWork(f), -1)] && s3.infos == s2.infos
    ensures OnlySlotCleared(s2.table, s3.table, EventTableRuns.Slot(at, e))
  {
    var r := EventTable.ClearOne(s2.table, at, e, true, true);
    EventTableProofs.ClearOneIs(s2.table, at, e, true, true);
    assert r.pushed == [FiberWork(f)];
    assert Wrap([FiberWork(f)]) == [Task(FiberWork(f), -1)];
    var op := EventTableRuns.Cancel(at, e, true);
    assert s3.table == EventTableRuns.Apply(s2.table, op).table;
    forall other: Slot, u: Work | other != EventTableRuns.Slot(at, e)
      ensures (EventTableRuns.Holds(s3.table, other, u) <==> EventTableRuns.Holds(s2.table, other, u))
      ensures (EventTableRuns.SetIn(s3.table, other) <==> EventTableRuns.SetIn(s2.table, other))
    {
      EventTableRuns.SlotFollows(s2.table, op, other);
    }
    EventTableRuns.SlotFollows(s2.table, op, EventTableRuns.Slot(at, e));
  }

  /** After any gentle run, the timeout of a call whose fiber is still registered, and of which no
      timeout body has run, wakes exactly that fiber: its own. */
  lemma TimeoutWakesItsRound(n: nat, run: seq<Step>, w: nat, info: nat, fd: nat, e: Event, f: FiberId)
    requires Legal(Init(n), run) && GentleSteps(Init(n), run)
    requires var s := After(Init(n), run);
      && Enabled(s, Timers(w, SRunBody)) && BodyOn(s, w) == Some(IoTimeout(info, fd, e))
      && f in Calls(s) && Calls(s)[f].info == info && FiberWork(f) in EventTable.Waiting(s.table.contexts)
      && !TimeoutRan(Init(n), run, info)
    ensures var s := After(Init(n), run); var s1 := Next(s, Timers(w, SRunBody));
            && Calls(s)[f].fd == fd && Calls(s)[f].event == e
            && Enabled(s1, Timers(w, SLocateTimedOut))
            && Enabled(Next(s1, Timers(w, SLocateTimedOut)), Timers(w, SCancelTimedOut(true)))
            && AfterTimeout(s, w).tasks == s.tasks + [Task(FiberWork(f), -1)]
  {
    var s := After(Init(n), run);
    InitInv(n);
    InitCalls(n);
    RunKeepsCalls(Init(n), run);
    BodyHeld(s, w, IoTimeout(info, fd, e));
    assert TimeoutOk(Calls(s), s.nextInfo, info, fd, e);
    var slot := WaiterIsReached(n, run, f);
    RoundIsCall(s, f);
    MarkedExactly(Init(n), run, info);
    TimeoutWakes(s, w, info, fd, e, slot.at, f);
  }

  lemma RoundIsCall(s: System, f: FiberId)
    requires f in s.fibers && RoundIo(s.fibers[f].pc).Some?
    ensures f in Calls(s) && Calls(s)[f] == RoundIo(s.fibers[f].pc).value
  {
  }
}
