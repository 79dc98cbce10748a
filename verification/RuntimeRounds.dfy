// Counting do_io rounds: every round that suspends its fiber resumes it exactly once, whether
// readiness, the timeout or a close wins.

module RuntimeRounds {
  import opened Base
  import opened FiberTypes
  import opened Runtime
  import opened RuntimeInvariant
  import opened RuntimeKeeps
  import opened RuntimeTheorems
  import EventTable
  import EventTableProofs

  predicate RoundPc(pc: Pc) { pc.Registered? || pc.Waiting? }

  /** f is between a successful addEvent and its resumption. */
  function InRoundOf(fibers: map<FiberId, Fiber>, f: FiberId): nat {
    if f in fibers && RoundPc(fibers[f].pc) then 1 else 0
  }

  function InRound(s: System, f: FiberId): nat { InRoundOf(s.fibers, f) }

  /** The step is a successful addEvent of f's own do_io. */
  function Begins(s: System, step: Step, f: FiberId): nat
    requires Enabled(s, step)
  {
    if step.Ios? && step.io.SRegister? && Current(s, step.w) == f && RegisterOk(s, step.w, step.io.env) then 1 else 0
  }

  /** addEvent accepts the registration. */
  predicate RegisterOk(s: System, w: nat, env: bool)
    requires EnabledIo(s, w, SRegister(env))
  {
    var pc := CurrentPc(s, w);
    EventTable.AddEvent(s.table, pc.at, pc.io.event, FiberWork(Current(s, w)), env).ok
  }

  /** The step swaps f in out of its wait. */
  function Resumes(s: System, step: Step, f: FiberId): nat
    requires Enabled(s, step)
  {
    if step.Loop? && step.loop.SEnter? && s.workers[step.w].phase.work == FiberWork(f) && s.fibers[f].pc.Waiting?
    then 1 else 0
  }

  /** Changing one fiber whose position is in a round before exactly if it is after. */
  lemma SameRound(fibers: map<FiberId, Fiber>, g: FiberId, fb: Fiber, f: FiberId)
    requires RoundPc(fb.pc) == (g in fibers && RoundPc(fibers[g].pc))
    ensures InRoundOf(fibers[g := fb], f) == InRoundOf(fibers, f)
  {
  }

  lemma ReturnRounds(s: System, w: nat, st: FiberState, pc: Pc, f: FiberId)
    requires Runs(s, w) && RoundPc(pc) == RoundPc(CurrentPc(s, w))
    ensures InRound(Return(s, w, st, pc), f) == InRound(s, f)
  {
    var g := Current(s, w);
    SameRound(s.fibers, g, Return(s, w, st, pc).fibers[g], f);
    assert Return(s, w, st, pc).fibers == s.fibers[g := Return(s, w, st, pc).fibers[g]];
  }

  lemma PickedIsNotMidRound(s: System, w: nat, g: FiberId)
    requires Inv(s) && w < |s.workers| && s.workers[w].phase == Picked(FiberWork(g))
    ensures g in s.fibers && !s.fibers[g].pc.Registered?
    ensures s.fibers[g].state in {TERM, EXCEPT} ==> s.fibers[g].pc == Code
  {
    assert GoodFiber(ViewOf(s), g);
    assert GoodWorker(s.fibers, s.workers[w]);
  }

  lemma EnterFiberRounds(s: System, w: nat, g: FiberId, f: FiberId)
    requires Inv(s) && w < |s.workers| && s.workers[w].phase == Picked(FiberWork(g)) && g in s.fibers
    ensures InRound(Enter(s, w, 0), f) + (if f == g && s.fibers[g].pc.Waiting? then 1 else 0) == InRound(s, f)
  {
    PickedIsNotMidRound(s, w, g);
  }

  lemma EnterCallbackRounds(s: System, w: nat, spare: FiberId, f: FiberId)
    requires Inv(s) && EnabledLoop(s, w, SEnter(spare)) && s.workers[w].phase.work.CallbackWork?
    ensures InRound(Enter(s, w, spare), f) == InRound(s, f)
  {
    var g := match s.workers[w].cbFiber case Some(x) => x case None => spare;
    CallbackFiberFree(s, w, spare, g);
    assert GoodFiber(ViewOf(s), g);
    SameRound(s.fibers, g, Fiber(EXEC, Code), f);
  }

  lemma EnterRounds(s: System, w: nat, spare: FiberId, f: FiberId)
    requires Inv(s) && EnabledLoop(s, w, SEnter(spare))
    ensures InRound(Enter(s, w, spare), f) + Resumes(s, Loop(w, SEnter(spare)), f) == InRound(s, f)
  {
    if s.workers[w].phase.work.FiberWork? {
      assert Enter(s, w, spare) == Enter(s, w, 0);
      EnterFiberRounds(s, w, s.workers[w].phase.work.fiber, f);
    } else {
      EnterCallbackRounds(s, w, spare, f);
    }
  }

  lemma PickRounds(s: System, w: nat, f: FiberId)
    requires w < |s.workers|
    ensures InRound(Pick(s, w), f) == InRound(s, f)
  {
    assert Pick(s, w).fibers == s.fibers;
  }

  lemma LoopRounds(s: System, w: nat, l: LoopStep, f: FiberId)
    requires Inv(s) && EnabledLoop(s, w, l)
    ensures InRound(NextLoop(s, w, l), f) + Resumes(s, Loop(w, l), f) == InRound(s, f)
  {
    match l
    case SPick => PickRounds(s, w, f);
    case SEnter(spare) => EnterRounds(s, w, spare, f);
    case SFinish(exception) => ReturnRounds(s, w, if exception then EXCEPT else TERM, Code, f);
    case SYieldReady => ReturnRounds(s, w, READY, Code, f);
    case SPark => ReturnRounds(s, w, HOLD, Parked, f);
    case SYieldIo => ReturnRounds(s, w, HOLD, Waiting(CurrentPc(s, w).io), f);
    case SYieldSleep => ReturnRounds(s, w, HOLD, Sleeping, f);
  }

  lemma SetPcRounds(s: System, w: nat, fibers: map<FiberId, Fiber>, pc: Pc, f: FiberId)
    requires Runs(s, w) && fibers == s.fibers[Current(s, w) := s.fibers[Current(s, w)].(pc := pc)]
    requires RoundPc(pc) == RoundPc(CurrentPc(s, w))
    ensures InRoundOf(fibers, f) == InRound(s, f)
  {
    SameRound(s.fibers, Current(s, w), s.fibers[Current(s, w)].(pc := pc), f);
  }

  lemma BodyRounds(s: System, w: nat, f: FiberId)
    requires Inv(s) && EnabledTimer(s, w, SRunBody)
    ensures InRound(RunBody(s, w), f) == InRound(s, f)
  {
    assert GoodWorker(s.fibers, s.workers[w]);
    var s' := RunBody(s, w);
    if s'.fibers != s.fibers { SetPcRounds(s, w, s'.fibers, s'.fibers[Current(s, w)].pc, f); }
  }

  lemma LocateTimedOutRounds(s: System, w: nat, f: FiberId)
    requires EnabledTimer(s, w, SLocateTimedOut)
    ensures InRound(LocateTimedOut(s, w), f) == InRound(s, f)
  {
    var s' := LocateTimedOut(s, w);
    SetPcRounds(s, w, s'.fibers, s'.fibers[Current(s, w)].pc, f);
  }

  lemma TimerRounds(s: System, w: nat, t: TimerStep, f: FiberId)
    requires Inv(s) && EnabledTimer(s, w, t)
    ensures InRound(NextTimer(s, w, t), f) == InRound(s, f)
  {
    match t
    case SBeginSleep => SetPcRounds(s, w, BeginSleep(s, w).fibers, SleepArmed, f);
    case SRunBody => BodyRounds(s, w, f);
    case SLocateTimedOut => LocateTimedOutRounds(s, w, f);
    case SCancelTimedOut(env) => SetPcRounds(s, w, CancelTimedOut(s, w, env).fibers, Code, f);
    case STake(i) =>
    case SQueueTaken =>
  }

  lemma QueueRounds(s: System, w: nat, q: QueueStep, f: FiberId)
    requires EnabledQueue(s, w, q)
    ensures InRound(NextQueue(s, w, q), f) == InRound(s, f)
  {
    if q.SSpawn? { SameRound(s.fibers, q.g, Fiber(INIT, Code), f); }
  }

  lemma OuterRounds(s: System, o: OuterStep, f: FiberId)
    requires EnabledOuter(s, o)
    ensures InRound(NextOuter(s, o), f) == InRound(s, f)
  {
    if o.SOuterFiber? { SameRound(s.fibers, o.g, Fiber(INIT, Code), f); }
  }

  lemma EventRounds(s: System, w: nat, e: EventStep, env: bool, f: FiberId)
    requires EnabledEvent(s, w, e, env)
    ensures InRound(NextEvent(s, w, e, env), f) == InRound(s, f)
  {
  }

  lemma RegisterRounds(s: System, w: nat, env: bool, f: FiberId)
    requires EnabledIo(s, w, SRegister(env))
    ensures InRound(Register(s, w, env), f) == InRound(s, f) + (if Current(s, w) == f && RegisterOk(s, w, env) then 1 else 0)
  {
    RegisterMoves(s, w, env);
    var g, ok := Current(s, w), RegisterOk(s, w, env);
    EnterRound(s.fibers, g, s.fibers[g].(pc := if ok then Registered(CurrentPc(s, w).io) else Code), f);
  }

  lemma RegisterMoves(s: System, w: nat, env: bool)
    requires EnabledIo(s, w, SRegister(env))
    ensures var g := Current(s, w);
            Register(s, w, env).fibers ==
              s.fibers[g := s.fibers[g].(pc := if RegisterOk(s, w, env) then Registered(CurrentPc(s, w).io) else Code)]
  {
  }

  lemma EnterRound(fibers: map<FiberId, Fiber>, g: FiberId, fb: Fiber, f: FiberId)
    requires g in fibers && !RoundPc(fibers[g].pc)
    ensures InRoundOf(fibers[g := fb], f) == InRoundOf(fibers, f) + (if f == g && RoundPc(fb.pc) then 1 else 0)
  {
  }

  lemma LocateRounds(s: System, w: nat, f: FiberId)
    requires EnabledIo(s, w, SLocate)
    ensures InRound(LocateIo(s, w), f) == InRound(s, f)
  {
    var s' := LocateIo(s, w);
    SetPcRounds(s, w, s'.fibers, s'.fibers[Current(s, w)].pc, f);
  }

  lemma IoRounds(s: System, w: nat, i: IoStep, f: FiberId)
    requires EnabledIo(s, w, i)
    ensures InRound(NextIo(s, w, i), f) == InRound(s, f) + Begins(s, Ios(w, i), f)
  {
    match i
    case SRegister(env) => RegisterRounds(s, w, env, f);
    case SLocate => LocateRounds(s, w, f);
    case _ => SetPcRounds(s, w, NextIo(s, w, i).fibers, CurrentPc(NextIo(s, w, i), w), f);
  }

  /** One step: beginning a round enters it, resuming leaves it, nothing else touches it. */
  lemma StepRounds(s: System, step: Step, f: FiberId)
    requires Inv(s) && Enabled(s, step)
    ensures InRound(s, f) + Begins(s, step, f) == InRound(Next(s, step), f) + Resumes(s, step, f)
  {
    match step
    case Loop(w, l) => LoopRounds(s, w, l, f);
    case Queue(w, q) => QueueRounds(s, w, q, f);
    case Events(w, e, env) => EventRounds(s, w, e, env, f);
    case Ios(w, i) => IoRounds(s, w, i, f);
    case Timers(w, t) => TimerRounds(s, w, t, f);
    case Outer(o) => OuterRounds(s, o, f);
  }

  function BeginCount(s: System, run: seq<Step>, f: FiberId): nat
    requires Legal(s, run)
    decreases |run|
  {
    if run == [] then 0 else Begins(s, run[0], f) + BeginCount(Next(s, run[0]), run[1..], f)
  }

  function ResumeCount(s: System, run: seq<Step>, f: FiberId): nat
    requires Legal(s, run)
    decreases |run|
  {
    if run == [] then 0 else Resumes(s, run[0], f) + ResumeCount(Next(s, run[0]), run[1..], f)
  }

  /** Over any run, the rounds that f begins are resumed one for one; the last one may still be
      open. */
  lemma {:induction false} RoundsBalance(s: System, run: seq<Step>, f: FiberId)
    requires Inv(s) && Legal(s, run)
    ensures InRound(s, f) + BeginCount(s, run, f) == ResumeCount(s, run, f) + InRound(After(s, run), f)
    decreases |run|
  {
    if run != [] {
      var step := run[0];
      StepRounds(s, step, f);
      StepKeeps(s, step);
      RoundsBalance(Next(s, step), run[1..], f);
    }
  }

  lemma RoundTokens(s: System, f: FiberId)
    requires Inv(s)
    ensures InRound(s, f) == 1 && f !in s.dropped ==> Tokens(s, f) == 1
    ensures Tokens(s, f) <= 1
  {
    assert GoodFiber(ViewOf(s), f);
  }

  /** From the start: as many resumptions as completed rounds, and an open round whose
      registration was not thrown away still holds exactly one token, which resuming uses up. */
  lemma EachRoundResumesOnce(n: nat, run: seq<Step>, f: FiberId)
    requires Legal(Init(n), run)
    ensures BeginCount(Init(n), run, f) == ResumeCount(Init(n), run, f) + InRound(After(Init(n), run), f)
    ensures var s := After(Init(n), run);
            && (InRound(s, f) == 1 && f !in s.dropped ==> Tokens(s, f) == 1)
            && Tokens(s, f) <= 1
  {
    InitInv(n);
    assert InRound(Init(n), f) == 0;
    RoundsBalance(Init(n), run, f);
    RunKeeps(Init(n), run);
    RoundTokens(After(Init(n), run), f);
  }
}
