// What addEvent has located, and whether a waiting round can be reached by its own fd and event.

module RuntimeFound {
  import opened Base
  import opened FiberTypes
  import opened Runtime
  import opened RuntimeInvariant
  import opened RuntimeTable
  import opened RuntimeKeeps
  import opened RuntimeTheorems
  import opened RuntimeRounds
  import EventTable
  import EventTableProofs
  import EventTableRuns
  import EventTableFound

  type Slot = EventTableRuns.Slot

  /** addEvent's later sections, and a timeout's cancelEvent, never miss their context: growing
      always makes room for the fd, and what was located is still a context of the fd, also when the vector
      has been cut short in between. */
  lemma SectionsFindTheirContext(s: System, w: nat)
    requires Reachable(s) && Runs(s, w)
    ensures match CurrentPc(s, w)
            case Growing(io) => EventTable.Locate(EventTable.GrowFor(s.table, io.fd), io.fd).Some?
            case Located(io, at) => at < |s.table.contexts| && s.table.contexts[at].fd == io.fd
            case Cancelling(at, _) => at < |s.table.contexts|
            case _ => true
  {
    ReachableInv(s);
    assert PcOk(CurrentPc(s, w), s.table.contexts);
    if CurrentPc(s, w).Growing? { EventTableProofs.GrowForLocates(s.table, CurrentPc(s, w).io.fd); }
  }

  // ---------------------------------------------------------------- whose registration it is

  function RoundIo(pc: Pc): Option<Io> {
    match pc
    case Registered(io) => Some(io)
    case Waiting(io) => Some(io)
    case _ => None
  }

  /** A fiber registered in a slot is in a round for the slot's fd and event. */
  ghost predicate OwnedBy(s: System, slot: Slot, f: FiberId) {
    EventTableRuns.Holds(s.table, slot, FiberWork(f)) ==>
      f in s.fibers && InRoundFor(s.fibers[f].pc, s.table.contexts[slot.at].fd, slot.event)
  }

  predicate InRoundFor(pc: Pc, fd: nat, e: Event) {
    match RoundIo(pc)
    case Some(io) => io.fd == fd && io.event == e
    case None => false
  }

  ghost predicate Owned(s: System) {
    forall slot: Slot, f: FiberId :: OwnedBy(s, slot, f)
  }

  lemma HeldIsKept(t: Table, slot: Slot, u: Work)
    requires EventTableRuns.Holds(t, slot, u)
    ensures u in EventTable.Waiting(t.contexts)
  {
    var c := t.contexts[slot.at];
    assert u in EventTable.Bag(EventTable.Listed(EventTable.WorkOf(c.Get(slot.event))));
    assert u in EventTable.Kept(c);
    SumUpdate(t.contexts, slot.at, c, EventTable.Kept);
  }

  lemma KeptIsHeld(t: Table, u: Work) returns (slot: Slot)
    requires EventTable.Valid(t) && u in EventTable.Waiting(t.contexts)
    ensures EventTableRuns.Holds(t, slot, u)
  {
    var i := SumWitness(t.contexts, EventTable.Kept, u);
    var c := t.contexts[i];
    assert EventTable.ContextOk(c);
    slot := if u in EventTable.KeptBy(c.events.read, c.read) then EventTableRuns.Slot(i, READ) else EventTableRuns.Slot(i, WRITE);
  }

  /** f has a registration, and so is between addEvent and its resumption. */
  lemma KeptInRound(s: System, f: FiberId)
    requires Inv(s) && FiberWork(f) in EventTable.Waiting(s.table.contexts)
    ensures MidRound(s, f) && s.fibers[f].state != INIT && Tokens(s, f) == 1
  {
    assert GoodFiber(ViewOf(s), f) && GoodRegistration(ViewOf(s), f);
    KeptInPool(s);
  }

  predicate MidRound(s: System, f: FiberId) { f in s.fibers && RoundIo(s.fibers[f].pc).Some? }

  lemma BodyAtCode(s: System, w: nat)
    requires Inv(s) && Runs(s, w) && s.workers[w].phase.body.Some?
    ensures CurrentPc(s, w) == Code
  {
    assert GoodWorker(s.fibers, s.workers[w]);
  }

  lemma NotEntered(s: System, w: nat, spare: FiberId, f: FiberId)
    requires Inv(s) && EnabledLoop(s, w, SEnter(spare)) && FiberWork(f) in EventTable.Waiting(s.table.contexts)
    ensures Touched(s, Loop(w, SEnter(spare))) != Some(f)
  {
    KeptInRound(s, f);
    match s.workers[w].phase.work
    case FiberWork(g) => Holds(s, w);
    case CallbackWork(_) =>
      var g := match s.workers[w].cbFiber case Some(x) => x case None => spare;
      CallbackFiberFree(s, w, spare, g);
  }

  lemma NotLeft(s: System, w: nat, l: LoopStep, f: FiberId)
    requires EnabledLoop(s, w, l) && !l.SEnter? && MidRound(s, f) && Touched(s, Loop(w, l)) == Some(f)
    ensures l.SYieldIo?
  {
  }

  lemma NotInIo(s: System, w: nat, i: IoStep, f: FiberId)
    requires EnabledIo(s, w, i) && MidRound(s, f)
    ensures Current(s, w) != f
  {
  }

  lemma NotInTimer(s: System, w: nat, t: TimerStep, f: FiberId)
    requires EnabledTimer(s, w, t) && MidRound(s, f) && (t.SRunBody? ==> CurrentPc(s, w) == Code)
    ensures Touched(s, Timers(w, t)) != Some(f)
  {
  }

  /** The only thing that happens to a fiber with a registration is its own yield. */
  lemma OnlyYields(s: System, step: Step, f: FiberId)
    requires Inv(s) && Enabled(s, step) && FiberWork(f) in EventTable.Waiting(s.table.contexts)
    requires Touched(s, step) == Some(f)
    ensures step.Loop? && step.loop.SYieldIo?
  {
    KeptInRound(s, f);
    match step
    case Loop(w, l) => if l.SEnter? { NotEntered(s, w, l.spare, f); } else { NotLeft(s, w, l, f); }
    case Queue(_, _) =>
    case Events(_, _, _) =>
    case Ios(w, i) => NotInIo(s, w, i, f);
    case Timers(w, t) =>
      if t.SRunBody? { BodyAtCode(s, w); }
      NotInTimer(s, w, t, f);
    case Outer(_) =>
  }

  lemma YieldGoesOn(s: System, w: nat)
    requires EnabledLoop(s, w, SYieldIo)
    ensures var f := Current(s, w);
            f in NextLoop(s, w, SYieldIo).fibers && RoundIo(NextLoop(s, w, SYieldIo).fibers[f].pc) == RoundIo(s.fibers[f].pc)
  {
  }

  lemma Untouched(s: System, s': System, g: Option<FiberId>, f: FiberId)
    requires OneRecord(s, s', g) && g != Some(f) && f in s.fibers
    ensures f in s'.fibers && s'.fibers[f] == s.fibers[f]
  {
  }

  /** A fiber with a registration goes on with its round. */
  lemma RoundGoesOn(s: System, step: Step, f: FiberId)
    requires Inv(s) && Enabled(s, step) && FiberWork(f) in EventTable.Waiting(s.table.contexts)
    ensures f in s.fibers && f in Next(s, step).fibers
    ensures RoundIo(Next(s, step).fibers[f].pc) == RoundIo(s.fibers[f].pc)
  {
    KeptInRound(s, f);
    if Touched(s, step) == Some(f) {
      OnlyYields(s, step, f);
      YieldGoesOn(s, step.w);
    } else {
      StepRecord(s, step);
      Untouched(s, Next(s, step), Touched(s, step), f);
    }
  }

  lemma OnlyRegisterAdds(s: System, step: Step, f: FiberId)
    requires Enabled(s, step) && TableOp(s, step).Some?
    requires TableOp(s, step).value.Add? && TableOp(s, step).value.work == FiberWork(f)
    ensures step.Ios? && step.io.SRegister? && Current(s, step.w) == f
  {
  }

  /** A slot that a step fills with a fiber is filled by that fiber's own addEvent. */
  lemma OwnRegistration(s: System, w: nat, env: bool)
    requires EnabledIo(s, w, SRegister(env)) && RegisterOk(s, w, env) && PcOk(CurrentPc(s, w), s.table.contexts)
    ensures var f, pc, s' := Current(s, w), CurrentPc(s, w), Register(s, w, env);
            f in s'.fibers && InRoundFor(s'.fibers[f].pc, s.table.contexts[pc.at].fd, pc.io.event)
  {
    RegisterMoves(s, w, env);
  }

  lemma StepOwnedBy(s: System, step: Step, slot: Slot, f: FiberId)
    requires Inv(s) && Owned(s) && Enabled(s, step)
    ensures OwnedBy(Next(s, step), slot, f)
  {
    var s' := Next(s, step);
    if EventTableRuns.Holds(s'.table, slot, FiberWork(f)) {
      TableFollows(s, step);
      StepFdsStay(s, step);
      var mine := false;
      if TableOp(s, step).Some? { mine := HeldBefore(s.table, TableOp(s, step).value, s'.table, slot, FiberWork(f)); }
      if mine {
        OnlyRegisterAdds(s, step, f);
        OwnRegistration(s, step.w, step.io.env);
      } else {
        assert OwnedBy(s, slot, f);
        HeldIsKept(s.table, slot, FiberWork(f));
        RoundGoesOn(s, step, f);
      }
    }
  }

  lemma HeldBefore(t: Table, op: EventTableRuns.Op, t': Table, slot: Slot, u: Work) returns (mine: bool)
    requires EventTable.Valid(t) && t' == EventTableRuns.Apply(t, op).table && EventTableRuns.Holds(t', slot, u)
    ensures if mine then op.Add? && EventTableRuns.Apply(t, op).ok && EventTableRuns.Slot(op.at, op.e) == slot && op.work == u
            else EventTableRuns.Holds(t, slot, u)
    ensures slot.at < |t.contexts|
  {
    EventTableRuns.SlotFollows(t, op, slot);
    mine := op.Add? && EventTableRuns.Apply(t, op).ok && EventTableRuns.Slot(op.at, op.e) == slot;
  }

  lemma StepOwned(s: System, step: Step)
    requires Inv(s) && Owned(s) && Enabled(s, step)
    ensures Owned(Next(s, step))
  {
    forall slot: Slot, f: FiberId ensures OwnedBy(Next(s, step), slot, f) { StepOwnedBy(s, step, slot, f); }
  }

  // ---------------------------------------------------------------- gentle runs

  /** No step cuts off a context with a bit, or registers on a context that has been cut off. */
  ghost predicate GentleSteps(s: System, run: seq<Step>)
    requires Legal(s, run)
    decreases |run|
  {
    run != [] ==> GentleStep(s, run[0]) && GentleSteps(Next(s, run[0]), run[1..])
  }

  predicate GentleStep(s: System, step: Step)
    requires Enabled(s, step)
  {
    match TableOp(s, step)
    case None => true
    case Some(op) => EventTableFound.Gentle(s.table, op)
  }

  lemma GentleStepFound(s: System, step: Step)
    requires Inv(s) && Enabled(s, step) && EventTable.Found(s.table)
    ensures EventTable.Found(Next(s, step).table) <==> GentleStep(s, step)
  {
    TableFollows(s, step);
    match TableOp(s, step)
    case None =>
    case Some(op) => EventTableFound.GentleExactly(s.table, op);
  }

  lemma {:induction false} RunOwned(s: System, run: seq<Step>)
    requires Inv(s) && Owned(s) && Legal(s, run)
    ensures Owned(After(s, run))
    decreases |run|
  {
    if run != [] {
      StepOwned(s, run[0]);
      StepKeeps(s, run[0]);
      RunOwned(Next(s, run[0]), run[1..]);
    }
  }

  lemma {:induction false} GentleRunFound(s: System, run: seq<Step>)
    requires Inv(s) && Legal(s, run) && GentleSteps(s, run) && EventTable.Found(s.table)
    ensures EventTable.Found(After(s, run).table)
    decreases |run|
  {
    if run != [] {
      GentleStepFound(s, run[0]);
      StepKeeps(s, run[0]);
      GentleRunFound(Next(s, run[0]), run[1..]);
    }
  }

  lemma InitOwned(n: nat)
    ensures Owned(Init(n)) && EventTable.Found(Init(n).table)
  {
    EventTableProofs.InitialValid();
    forall slot: Slot, f: FiberId ensures OwnedBy(Init(n), slot, f) {
      assert slot.at < |Init(n).table.contexts| ==> Init(n).table.contexts[slot.at] == EventTable.Unused(slot.at);
    }
  }

  /** After any run, whatever happened to the vector, a registered fiber is in a round for the fd and
      event it is registered for; and after a gentle run every waiting round is reached by its own fd and
      event, so that its timeout, a cancelEvent or a close wakes exactly this fiber. */
  lemma WaiterIsReached(n: nat, run: seq<Step>, f: FiberId) returns (slot: Slot)
    requires Legal(Init(n), run)
    requires var s := After(Init(n), run); FiberWork(f) in EventTable.Waiting(s.table.contexts)
    ensures var s := After(Init(n), run);
            && f in s.fibers && EventTableRuns.Holds(s.table, slot, FiberWork(f))
            && InRoundFor(s.fibers[f].pc, s.table.contexts[slot.at].fd, slot.event)
            && (GentleSteps(Init(n), run) ==>
                  && EventTable.Locate(s.table, s.table.contexts[slot.at].fd) == Some(slot.at)
                  && EventTable.ClearOne(s.table, slot.at, slot.event, true, true).ok
                  && EventTable.ClearOne(s.table, slot.at, slot.event, true, true).pushed == [FiberWork(f)])
  {
    var s := After(Init(n), run);
    InitInv(n);
    InitOwned(n);
    RunKeeps(Init(n), run);
    RunOwned(Init(n), run);
    slot := KeptIsHeld(s.table, FiberWork(f));
    assert OwnedBy(s, slot, f);
    if GentleSteps(Init(n), run) {
      GentleRunFound(Init(n), run);
      EventTableProofs.ClearOneIs(s.table, slot.at, slot.event, true, true);
    }
  }
}
