// Runs of the timer manager: any sequence of calls under a monotone clock.

module TimerRuns {
  import opened Base
  import opened FiberTypes
  import opened TimerManagers

  /** Calls on the manager, and on the k-th timer it has returned. */
  datatype Call =
    | Add(ms: nat, cb: Option<Callback>, recurring: bool, addr: nat)
    | Cancel(k: nat)
    | Refresh(k: nat)
    | Reset(k: nat, ms: nat, fromNow: bool)
    | NextTimer
    | Expire(probe: nat)
    | ExpireLate(probe: nat)   // the write-locked section alone, its test having been made earlier

  datatype Timed = Timed(now: nat, call: Call)

  /** Half the range of uint64_t: a moment and a period below it do not wrap when added. */
  const HALF := TWO_64 / 2

  predicate InRange(c: Timed) {
    c.now < HALF && (c.call.Add? || c.call.Reset? ==> c.call.ms < HALF)
  }

  /** The clock never goes back, and nothing is near the end of uint64_t. */
  predicate Monotone(start: nat, run: seq<Timed>) {
    && start < HALF && (forall i :: 0 <= i < |run| ==> start <= run[i].now && InRange(run[i]))
    && (forall i, j :: 0 <= i < j < |run| ==> run[i].now <= run[j].now)
  }

  /** No two timers are created at one address. */
  predicate FreshAddresses(run: seq<Timed>) {
    forall i, j :: 0 <= i < j < |run| && run[i].call.Add? && run[j].call.Add? ==> run[i].call.addr != run[j].call.addr
  }

  /** What holds between two calls at moment now. */
  ghost predicate Sound(m: TimerManager, now: nat)
    reads m, m.issued
  {
    && m.Valid() && m.Awake() && m.Timely(now)
    && forall t :: t in m.issued ==> t.ms < HALF
  }

  lemma SoundLater(m: TimerManager, now: nat, later: nat)
    requires Sound(m, now) && now <= later
    ensures Sound(m, later)
  {
  }

  method PerformAdd(m: TimerManager, ms: nat, cb: Option<Callback>, recurring: bool, now: nat, addr: nat) returns (t: Timer)
    requires Sound(m, now) && now < HALF && ms < HALF && forall s :: s in m.issued ==> s.addr != addr
    modifies m`timers, m`tickled, m`notified, m`issued
    ensures Sound(m, now) && fresh(t) && t.addr == addr && m.issued == old(m.issued) + {t}
  {
    NoWrap(now, ms);
    t := m.AddTimer(ms, cb, recurring, now, addr);
  }

  method PerformReset(m: TimerManager, t: Timer, ms: nat, fromNow: bool, now: nat)
    requires Sound(m, now) && t in m.issued && now < HALF && ms < HALF
    modifies m`timers, m`tickled, m`notified, t`next, t`ms
    ensures Sound(m, now)
  {
    if t.cb.Some? {
      TimerManager.RestartTimely(t.next, t.ms, ms, now, fromNow);
    }
    var _ := m.Reset(t, ms, fromNow, now);
  }

  /** One call. Only the late section of listExpiredCb can fault. */
  method Perform(m: TimerManager, c: Timed, handles: seq<Timer>) returns (made: seq<Timer>, faulted: bool)
    requires Sound(m, c.now) && InRange(c)
    requires forall t :: t in handles ==> t in m.issued
    requires c.call.Add? ==> forall s :: s in m.issued ==> s.addr != c.call.addr
    modifies m, m.issued
    ensures Sound(m, c.now)
    ensures faulted <==> c.call.ExpireLate? && old(m.timers) == [] && !RolledBack(c.now, old(m.previousTime))
    ensures m.issued == old(m.issued) + (set t | t in made)
    ensures forall t :: t in made ==> fresh(t) && c.call.Add? && t.addr == c.call.addr
  {
    made, faulted := [], false;
    match c.call {
      case Add(ms, cb, recurring, addr) =>
        var t := PerformAdd(m, ms, cb, recurring, c.now, addr);
        made := [t];
      case Cancel(k) =>
        if k < |handles| {
          var _ := m.Cancel(handles[k]);
        }
      case Refresh(k) =>
        if k < |handles| {
          NoWrap(c.now, handles[k].ms);
          var _ := m.Refresh(handles[k], c.now);
        }
      case Reset(k, ms, fromNow) =>
        if k < |handles| {
          PerformReset(m, handles[k], ms, fromNow, c.now);
        }
      case NextTimer =>
        var _ := m.GetNextTimer(c.now);
      case Expire(probe) =>
        var _, _ := m.ListExpired(c.now, probe);
      case ExpireLate(probe) =>
        var _, late, _ := m.ExpireLocked(c.now, probe);
        faulted := late;
    }
  }

  /** No wake-up is lost over any run: after any sequence of calls, or up to the one that faults, if
      some timer is due before the deadline the event loop was last told, the event loop has been
      notified since then. */
  method Drive(start: nat, run: seq<Timed>) returns (m: TimerManager)
    requires Monotone(start, run) && FreshAddresses(run)
    ensures fresh(m) && m.Valid()
    ensures forall t :: t in m.timers && t.next < m.seen ==> m.notified > m.notifiedThen
  {
    m := new TimerManager(start);
    var handles: seq<Timer> := [];
    ghost var now := start;
    var i := 0;
    while i < |run|
      invariant 0 <= i <= |run| && fresh(m) && Sound(m, now)
      invariant now == if i == 0 then start else run[i - 1].now
      invariant forall t :: t in m.issued ==> fresh(t)
      invariant forall t :: t in handles ==> t in m.issued
      invariant forall t :: t in m.issued ==> exists j :: 0 <= j < i && run[j].call.Add? && run[j].call.addr == t.addr
    {
      SoundLater(m, now, run[i].now);
      var made, faulted := Perform(m, run[i], handles);
      handles := handles + made;
      now := run[i].now;
      i := i + 1;
      if faulted {
        break;
      }
    }
    forall t | t in m.timers && t.next < m.seen ensures m.notified > m.notifiedThen {
      m.LostNothing(t);
    }
  }
}
