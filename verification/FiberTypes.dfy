// The values that the scheduler, the event table and the timers hand to each other.

module FiberTypes {
  import opened Base

  type FiberId = nat

  datatype FiberState = INIT | HOLD | EXEC | TERM | READY | EXCEPT

  datatype Event = READ | WRITE

  /** A bit mask over the two events (READ is 0x1, WRITE is 0x4). */
  datatype Mask = Mask(read: bool, write: bool) {
    predicate Has(e: Event) { match e case READ => read case WRITE => write }
    function Set(e: Event, b: bool): Mask { match e case READ => this.(read := b) case WRITE => this.(write := b) }
    predicate IsNone() { !read && !write }
    predicate Meets(m: Mask) { (read && m.read) || (write && m.write) }
    predicate Within(m: Mask) { (read ==> m.read) && (write ==> m.write) }
    function Minus(m: Mask): Mask { Mask(read && !m.read, write && !m.write) }
    function Plus(m: Mask): Mask { Mask(read || m.read, write || m.write) }
    function Count(): nat { (if read then 1 else 0) + (if write then 1 else 0) }
  }

  const NONE := Mask(false, false)

  /** The mask operations, event by event. */
  lemma MaskMeaning(m: Mask, n: Mask, e: Event, b: bool)
    ensures m.Has(READ) == m.read && m.Has(WRITE) == m.write
    ensures forall d: Event :: m.Set(e, b).Has(d) == if d == e then b else m.Has(d)
    ensures m.IsNone() <==> forall d: Event :: !m.Has(d)
    ensures m.Meets(n) <==> exists d: Event :: m.Has(d) && n.Has(d)
    ensures m.Within(n) <==> forall d: Event :: m.Has(d) ==> n.Has(d)
    ensures m.Minus(n).Has(e) <==> m.Has(e) && !n.Has(e)
    ensures m.Plus(n).Has(e) <==> m.Has(e) || n.Has(e)
    ensures m.Count() == (if m.Has(READ) then 1 else 0) + (if m.Has(WRITE) then 1 else 0)
  {
    assert m.read ==> m.Has(READ);
    assert m.write ==> m.Has(WRITE);
    assert m.Meets(n) ==> (m.Has(READ) && n.Has(READ)) || (m.Has(WRITE) && n.Has(WRITE));
  }

  /** The three kinds of callback that reach the task list: user code, the timer body of
      sleep/usleep/nanosleep, and the timer body of do_io and connect_with_timeout. */
  datatype Callback =
    | UserCallback(id: nat)
    | WakeFiber(fiber: FiberId)
    | IoTimeout(info: nat, fd: nat, event: Event)

  /** What FiberAndThread carries: a fiber or a callback, never both, never neither. */
  datatype Work = FiberWork(fiber: FiberId) | CallbackWork(cb: Callback)

  /** One entry of m_fibers; thread -1 means any thread. */
  datatype Task = Task(work: Work, thread: int)
}
