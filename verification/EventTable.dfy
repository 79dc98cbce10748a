// The event table of IOManager as a value: the contexts, the vector that finds them by fd, the
// kernel interest set and the pending-event counter, with the sections of addEvent, the three
// clearing operations and the dispatch loop body.

module EventTable {
  import opened Base
  import opened FiberTypes

  datatype EventContext = EventContext(hasScheduler: bool, fiber: Option<FiberId>, cb: Option<Callback>)

  const EMPTY := EventContext(false, None, None)

  datatype FdContext = FdContext(fd: nat, events: Mask, read: EventContext, write: EventContext) {
    function Get(e: Event): EventContext {
      match e case READ => read case WRITE => write
    }

    function With(e: Event, c: EventContext): FdContext {
      match e case READ => this.(read := c) case WRITE => this.(write := c)
    }
  }

  function Unused(fd: nat): FdContext { FdContext(fd, NONE, EMPTY, EMPTY) }

  /** What the kernel keeps for an fd: the mask, and the context it hands back in reports. */
  datatype Interest = Interest(mask: Mask, ptr: nat)

  /** contexts: every context ever made, named by its place; none is ever freed while the manager
      lives. vector: m_fdContexts, the context found at each fd. */
  datatype Table = Table(contexts: seq<FdContext>, vector: seq<nat>, kernel: map<nat, Interest>, pending: int)

  const INITIAL_CONTEXTS := 32

  /** n new contexts for the fds from fd on, and the n ids from id on. */
  function UnusedFrom(fd: nat, n: nat): (r: seq<FdContext>)
    ensures |r| == n && forall i :: 0 <= i < n ==> r[i] == Unused(fd + i)
  {
    seq(n, i requires 0 <= i < n => Unused(fd + i))
  }

  function IdsFrom(id: nat, n: nat): (r: seq<nat>)
    ensures |r| == n && forall i :: 0 <= i < n ==> r[i] == id + i
  {
    seq(n, i requires 0 <= i < n => id + i)
  }

  function Initial(): Table {
    Table(UnusedFrom(0, INITIAL_CONTEXTS), IdsFrom(0, INITIAL_CONTEXTS), map[], 0)
  }

  // ---------------------------------------------------------------- operations

  datatype CtlOp = CtlAdd | CtlMod | CtlDel

  /** epoll_ctl: ADD needs an absent fd, MOD and DEL a present one; env says whether the
      kernel grants the call as far as every other reason goes. */
  function EpollCtl(kernel: map<nat, Interest>, op: CtlOp, fd: nat, i: Interest, env: bool): Option<map<nat, Interest>> {
    if !env then None
    else match op
      case CtlAdd => if fd in kernel then None else Some(kernel[fd := i])
      case CtlMod => if fd in kernel then Some(kernel[fd := i]) else None
      case CtlDel => if fd in kernel then Some(kernel - {fd}) else None
  }

  /** The section under the read lock: the context at fd, if the vector reaches so far. */
  function Locate(t: Table, fd: nat): Option<nat> {
    if fd < |t.vector| then Some(t.vector[fd]) else None
  }

  /** contextResize: cut short, or filled up with new contexts. */
  function Resize(t: Table, size: nat): Table {
    if size <= |t.vector| then t.(vector := t.vector[..size])
    else
      var n := size - |t.vector|;
      t.(contexts := t.contexts + UnusedFrom(|t.vector|, n), vector := t.vector + IdsFrom(|t.contexts|, n))
  }

  /** The section under the write lock, entered when fd was not found: there is no second test. */
  function GrowFor(t: Table, fd: nat): Table { Resize(t, fd * 3 / 2) }

  function ContextOf(work: Work): EventContext {
    match work
    case FiberWork(f) => EventContext(true, Some(f), None)
    case CallbackWork(c) => EventContext(true, None, Some(c))
  }

  /** What triggerEvent hands to the scheduler: the callback if there is one, else the fiber. */
  function WorkOf(c: EventContext): Option<Work> {
    if c.cb.Some? then Some(CallbackWork(c.cb.value))
    else if c.fiber.Some? then Some(FiberWork(c.fiber.value))
    else None
  }

  /** Result of an operation: new table, return value, work put on the task list in order, work
      thrown away, and whether an assertion of the code failed. */
  datatype Effect = Effect(table: Table, ok: bool, pushed: seq<Work>, dropped: seq<Work>, aborted: bool)

  function Nothing(t: Table): Effect { Effect(t, false, [], [], false) }

  function Aborted(t: Table): Effect { Effect(t, false, [], [], true) }

  function Listed(o: Option<Work>): seq<Work> {
    match o case None => [] case Some(w) => [w]
  }

  /** Taking one bit out of a context; both triggerEvent and resetContext leave it empty. */
  function ClearBit(c: FdContext, e: Event): FdContext {
    c.With(e, EMPTY).(events := c.events.Set(e, false))
  }

  function SetBit(c: FdContext, e: Event, work: Work): FdContext {
    c.With(e, ContextOf(work)).(events := c.events.Set(e, true))
  }

  /** The section of addEvent under the lock of context `at`, located before. */
  function AddEvent(t: Table, at: nat, e: Event, work: Work, env: bool): Effect
    requires at < |t.contexts|
  {
    var c := t.contexts[at];
    if c.events.Has(e) then Aborted(t)
    else
      var events := c.events.Set(e, true);
      match EpollCtl(t.kernel, if c.events.IsNone() then CtlAdd else CtlMod, c.fd, Interest(events, at), env)
      case None => Nothing(t)
      case Some(k) =>
        if c.Get(e) != EMPTY then Aborted(t)
        else Effect(Table(t.contexts[at := SetBit(c, e, work)], t.vector, k, t.pending + 1), true, [], [], false)
  }

  /** The shared shape of delEvent (push false) and cancelEvent (push true) on context `at`. */
  function ClearOne(t: Table, at: nat, e: Event, env: bool, push: bool): Effect
    requires at < |t.contexts|
  {
    var c := t.contexts[at];
    if !c.events.Has(e) then Nothing(t)
    else
      var rest := c.events.Set(e, false);
      match EpollCtl(t.kernel, if rest.IsNone() then CtlDel else CtlMod, c.fd, Interest(rest, at), env)
      case None => Nothing(t)
      case Some(k) =>
        var w := Listed(WorkOf(c.Get(e)));
        Effect(Table(t.contexts[at := ClearBit(c, e)], t.vector, k, t.pending - 1), true,
               if push then w else [], if push then [] else w, false)
  }

  /** Triggering every event of `which`, READ before WRITE. */
  function Trigger(c: FdContext, which: Mask): (FdContext, seq<Work>) {
    var (c1, w1) := if which.read then (ClearBit(c, READ), Listed(WorkOf(c.read))) else (c, []);
    var (c2, w2) := if which.write then (ClearBit(c1, WRITE), Listed(WorkOf(c1.write))) else (c1, []);
    (c2, w1 + w2)
  }

  function CancelAll(t: Table, at: nat, env: bool): Effect
    requires at < |t.contexts|
  {
    var c := t.contexts[at];
    if c.events.IsNone() then Nothing(t)
    else
      match EpollCtl(t.kernel, CtlDel, c.fd, Interest(NONE, at), env)
      case None => Nothing(t)
      case Some(k) =>
        var (c', w) := Trigger(c, c.events);
        Effect(Table(t.contexts[at := c'], t.vector, k, t.pending - c.events.Count()), true, w, [], false)
  }

  /** The mask the dispatch loop acts on: an error or hang-up report stands for every
      registered event as well. */
  function RealEvents(reported: Mask, errorOrHup: bool, registered: Mask): Mask {
    if errorOrHup then reported.Plus(registered) else reported
  }

  /** Every triggerEvent assertion reached by dispatching this mask holds. */
  predicate DispatchSafe(registered: Mask, fired: Mask) {
    !fired.Meets(registered) || fired.Within(registered)
  }

  /** One report of the kernel for context `at`. */
  function Dispatch(t: Table, at: nat, fired: Mask, env: bool): Effect
    requires at < |t.contexts|
  {
    var c := t.contexts[at];
    if !fired.Meets(c.events) then Nothing(t)
    else
      var left := c.events.Minus(fired);
      match EpollCtl(t.kernel, if left.IsNone() then CtlDel else CtlMod, c.fd, Interest(left, at), env)
      case None => Nothing(t)
      case Some(k) =>
        if !fired.Within(c.events) then Aborted(t)
        else
          var (c', w) := Trigger(c, fired);
          Effect(Table(t.contexts[at := c'], t.vector, k, t.pending - fired.Count()), true, w, [], false)
  }

  // ---------------------------------------------------------------- invariant

  predicate SlotOk(bit: bool, c: EventContext) {
    if bit then c.hasScheduler && (c.fiber.Some? != c.cb.Some?) else c == EMPTY
  }

  /** A bit is set exactly when its context has a scheduler and exactly one of fiber and
      callback; otherwise the context is wholly empty. */
  predicate ContextOk(c: FdContext) {
    SlotOk(c.events.read, c.read) && SlotOk(c.events.write, c.write)
  }

  /** The kernel knows exactly the contexts with bits, each by its own fd, mask and address. */
  ghost predicate KernelAgrees(contexts: seq<FdContext>, kernel: map<nat, Interest>) {
    && (forall fd :: fd in kernel ==>
          && kernel[fd].ptr < |contexts| && contexts[kernel[fd].ptr].fd == fd
          && contexts[kernel[fd].ptr].events == kernel[fd].mask && !kernel[fd].mask.IsNone())
    && (forall i :: 0 <= i < |contexts| && !contexts[i].events.IsNone() ==>
          contexts[i].fd in kernel && kernel[contexts[i].fd].ptr == i)
  }

  /** Every entry of the vector is a context of its fd. */
  ghost predicate VectorOk(contexts: seq<FdContext>, vector: seq<nat>) {
    forall fd :: 0 <= fd < |vector| ==> vector[fd] < |contexts| && contexts[vector[fd]].fd == fd
  }

  function Bits(c: FdContext): nat { c.events.Count() }

  /** The number of set event bits over all contexts. */
  function TotalBits(contexts: seq<FdContext>): nat { Total(contexts, Bits) }

  ghost predicate Valid(t: Table) {
    && (forall i :: 0 <= i < |t.contexts| ==> ContextOk(t.contexts[i]))
    && KernelAgrees(t.contexts, t.kernel)
    && VectorOk(t.contexts, t.vector) && |t.vector| >= INITIAL_CONTEXTS
    && t.pending == TotalBits(t.contexts)
  }

  /** Every context with a bit is the one that is found by its fd. */
  ghost predicate Found(t: Table) {
    forall i :: 0 <= i < |t.contexts| && !t.contexts[i].events.IsNone() ==> Locate(t, t.contexts[i].fd) == Some(i)
  }

  function Bag(ws: seq<Work>): multiset<Work> { multiset(ws) }

  function KeptBy(bit: bool, c: EventContext): multiset<Work> {
    if bit then Bag(Listed(WorkOf(c))) else multiset{}
  }

  /** The work one context is keeping for its set bits. */
  function Kept(c: FdContext): multiset<Work> {
    KeptBy(c.events.read, c.read) + KeptBy(c.events.write, c.write)
  }

  function Waiting(contexts: seq<FdContext>): multiset<Work> { Sum(contexts, Kept) }
}
