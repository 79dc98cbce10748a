// TimerManager and Timer: an ordered set of timers, expiry with clock rollback, and the flag
// that suppresses repeated front-of-queue notifications.

module TimerManagers {
  import opened Base
  import opened FiberTypes

  const ROLLOVER_MS := 60 * 60 * 1000

  /** uint64_t addition and subtraction. */
  function Add64(a: nat, b: nat): nat { (a + b) % TWO_64 }
  function Sub64(a: nat, b: nat): nat { (a - b) % TWO_64 }

  lemma NoWrap(a: nat, b: nat)
    requires a + b < TWO_64
    ensures Add64(a, b) == a + b
  {
  }

  lemma Wraps(a: nat, b: nat)
    requires a < 0x1_0000_0000_0000_0000 && b < 0x1_0000_0000_0000_0000
    ensures a + b >= 0x1_0000_0000_0000_0000 ==> Add64(a, b) == a + b - 0x1_0000_0000_0000_0000
    ensures a < b ==> Sub64(a, b) == a - b + 0x1_0000_0000_0000_0000
  {
  }

  lemma NoBorrow(a: nat, b: nat)
    requires b <= a < TWO_64
    ensures Sub64(a, b) == a - b
  {
  }

  // ---------------------------------------------------------------- the order

  /** What Comparator looks at: the deadline and the address of the timer. */
  datatype Key = Key(next: nat, addr: nat)

  predicate Before(lhs: Option<Key>, rhs: Option<Key>) {
    if lhs == None && rhs == None then false
    else if lhs == None then true
    else if rhs == None then false
    else if lhs.value.next < rhs.value.next then true
    else if rhs.value.next < lhs.value.next then false
    else lhs.value.addr < rhs.value.addr
  }

  predicate Less(a: Key, b: Key) { Before(Some(a), Some(b)) }

  /** Comparator is a strict total order on keys and null: what std::set asks of it, and two
      keys that neither precedes are the same timer. */
  lemma ComparatorOrder(a: Option<Key>, b: Option<Key>, c: Option<Key>)
    ensures !Before(a, a)
    ensures Before(a, b) && Before(b, c) ==> Before(a, c)
    ensures !Before(a, b) && !Before(b, a) <==> a == b
    ensures a == None && b != None ==> Before(a, b)
    ensures a.Some? && b.Some? ==>
              (Before(a, b) <==> a.value.next < b.value.next || (a.value.next == b.value.next && a.value.addr < b.value.addr))
  {
  }

  // ---------------------------------------------------------------- clock rollback

  /** The clock has gone back by more than an hour; the subtraction wraps around, so within
      the first hour of the epoch any step back counts. */
  predicate RolledBack(now: nat, previous: nat) {
    now < previous && now < Sub64(previous, ROLLOVER_MS)
  }

  lemma RolledBackExactly(now: nat, previous: nat)
    requires now < TWO_64 && previous < TWO_64
    ensures RolledBack(now, previous) <==>
              now < previous && (previous < 3_600_000 || now + 3_600_000 < previous)
  {
    if previous < ROLLOVER_MS {
      assert (previous - ROLLOVER_MS) % TWO_64 == previous - ROLLOVER_MS + TWO_64;
    } else {
      assert (previous - ROLLOVER_MS) % TWO_64 == previous - ROLLOVER_MS;
    }
  }

  // ---------------------------------------------------------------- timers

  /** hollow: created with an empty callback. */
  class Timer {
    const addr: nat
    const recurring: bool
    const hollow: bool
    var ms: nat
    var next: nat
    var cb: Option<Callback>

    constructor (addr: nat, ms: nat, cb: Option<Callback>, recurring: bool, now: nat)
      ensures this.addr == addr && this.recurring == recurring && this.hollow == (cb == None)
      ensures this.ms == ms && this.next == Add64(now, ms) && this.cb == cb
    {
      this.addr, this.recurring, this.hollow := addr, recurring, cb == None;
      this.ms, this.next, this.cb := ms, Add64(now, ms), cb;
    }

    function GetKey(): Key
      reads this
    {
      Key(next, addr)
    }
  }

  predicate Sorted(ts: seq<Timer>)
    reads ts
  {
    forall i, j :: 0 <= i < j < |ts| ==> Less(ts[i].GetKey(), ts[j].GetKey())
  }

  predicate DistinctAddresses(ts: set<Timer>) {
    forall s, t :: s in ts && t in ts && s.addr == t.addr ==> s == t
  }

  /** The callbacks of a run of timers, in order. */
  function Callbacks(ts: seq<Timer>): seq<Option<Callback>>
    reads ts
  {
    seq(|ts|, i requires 0 <= i < |ts| reads ts => ts[i].cb)
  }

  class TimerManager {
    var timers: seq<Timer>
    var tickled: bool
    var previousTime: nat
    var notified: nat                 // calls of onTimerInsertedAtFront
    ghost var issued: set<Timer>      // every timer this manager ever made
    ghost var seen: nat               // the earliest deadline at the last getNextTimer, TWO_64 if none
    ghost var notifiedThen: nat       // notified at that moment

    /** The set is ordered; a timer that has a callback is in the set, and a timer in the set
        has its callback unless it never had one. */
    ghost predicate Valid()
      reads this, issued
    {
      && (forall t :: t in timers ==> t in issued)
      && DistinctAddresses(issued)
      && Sorted(timers)
      && (forall t :: t in issued && t.cb.Some? ==> t in timers && !t.hollow)
      && (forall t :: t in timers && !t.hollow ==> t.cb.Some?)
      && notified >= notifiedThen + (if tickled then 1 else 0)
    }

    /** With the flag down, no deadline is earlier than the one last reported. */
    ghost predicate Awake()
      reads this, timers
    {
      !tickled ==> forall t :: t in timers ==> t.next >= seen
    }

    /** Every deadline was set at most one period after a moment that is not in the future. */
    ghost predicate Timely(now: nat)
      reads this, timers
    {
      forall t :: t in timers ==> t.ms <= t.next <= now + t.ms
    }

    constructor (now: nat)
      ensures Valid() && Awake() && Timely(now) && timers == [] && !tickled && previousTime == now
      ensures issued == {} && seen == TWO_64 && notified == notifiedThen == 0
    {
      timers, tickled, previousTime, notified := [], false, now, 0;
      issued, seen, notifiedThen := {}, TWO_64, 0;
    }

    // -------------------------------------------------------------- the ordered set

    /** std::set::find: the index of t, which is in the set. */
    method Find(t: Timer) returns (i: nat)
      requires Valid() && t in timers
      ensures i < |timers| && timers[i] == t
    {
      i := 0;
      while Less(timers[i].GetKey(), t.GetKey()) || Less(t.GetKey(), timers[i].GetKey())
        invariant i < |timers|
        invariant forall j :: 0 <= j < i ==> timers[j] != t
        decreases |timers| - i
      {
        assert timers[i] != t;
        assert i + 1 < |timers| by {
          var j :| 0 <= j < |timers| && timers[j] == t;
        }
        i := i + 1;
      }
      assert timers[i].addr == t.addr;
    }

    /** std::set::lower_bound on a bare deadline: the first timer not before the probe, where
        the probe's address is whatever the allocator gave it. */
    method LowerBound(probe: Key) returns (i: nat)
      requires Valid()
      ensures i <= |timers|
      ensures forall j :: 0 <= j < i ==> Less(timers[j].GetKey(), probe)
      ensures forall j :: i <= j < |timers| ==> !Less(timers[j].GetKey(), probe)
    {
      i := 0;
      while i < |timers| && Less(timers[i].GetKey(), probe)
        invariant i <= |timers|
        invariant forall j :: 0 <= j < i ==> Less(timers[j].GetKey(), probe)
      {
        i := i + 1;
      }
      forall j | i <= j < |timers| ensures !Less(timers[j].GetKey(), probe) {
        assert j > i ==> Less(timers[i].GetKey(), timers[j].GetKey());
      }
    }

    /** std::set::insert: puts t where its key belongs. */
    method Insert(t: Timer) returns (i: nat)
      requires Sorted(timers) && t !in timers
      requires forall s :: s in timers ==> s.addr != t.addr
      modifies this`timers
      ensures i <= |old(timers)| && timers == old(timers)[..i] + [t] + old(timers)[i..]
      ensures Sorted(timers)
    {
      i := 0;
      while i < |timers| && Less(timers[i].GetKey(), t.GetKey())
        invariant i <= |timers| && timers == old(timers)
        invariant forall j :: 0 <= j < i ==> Less(timers[j].GetKey(), t.GetKey())
      {
        i := i + 1;
      }
      forall j | i <= j < |timers| ensures Less(t.GetKey(), timers[j].GetKey()) {
        assert timers[j] in timers;
        assert Less(t.GetKey(), timers[i].GetKey());
        assert j > i ==> Less(timers[i].GetKey(), timers[j].GetKey());
      }
      timers := timers[..i] + [t] + timers[i..];
    }

    /** In a sorted set every timer stands at one index only. */
    lemma OnceInSet(i: nat)
      requires Sorted(timers) && i < |timers|
      ensures timers[i] !in timers[..i] + timers[i + 1..]
      ensures forall s :: s in timers[..i] + timers[i + 1..] <==> s in timers && s != timers[i]
    {
      forall s | s in timers && s != timers[i] ensures s in timers[..i] + timers[i + 1..] {
        var j :| 0 <= j < |timers| && timers[j] == s;
        if j < i { assert timers[..i][j] == s; } else { assert timers[i + 1..][j - i - 1] == s; }
      }
    }

    /** find and erase. */
    method Erase(t: Timer)
      requires Valid() && t in timers
      modifies this`timers
      ensures Sorted(timers) && forall s :: s in timers <==> s in old(timers) && s != t
    {
      var it := Find(t);
      OnceInSet(it);
      timers := timers[..it] + timers[it + 1..];
    }

    // -------------------------------------------------------------- adding

    /** The locked part of addTimer: insert, and notify when the new timer is first and nobody
        has been notified since the last getNextTimer. */
    method AddLocked(t: Timer)
      requires Sorted(timers) && t !in timers
      requires forall s :: s in timers ==> s.addr != t.addr
      modifies this`timers, this`tickled, this`notified
      ensures Sorted(timers) && timers != []
      ensures forall s :: s in timers <==> s in old(timers) || s == t
      ensures tickled == (old(tickled) || timers[0] == t)
      ensures notified == old(notified) + (if timers[0] == t && !old(tickled) then 1 else 0)
      ensures old(Awake()) ==> Awake()
    {
      var i := Insert(t);
      var atFront := i == 0 && !tickled;
      assert i > 0 ==> timers[0] == old(timers)[0];
      if atFront {
        tickled := true;
      }
      if atFront {
        notified := notified + 1;
      }
      if !tickled {
        assert Less(timers[0].GetKey(), timers[i].GetKey());
        assert timers[0] in old(timers);
      }
    }

    /** addTimer; addr is the address of the new object, which no live timer has. */
    method AddTimer(ms: nat, cb: Option<Callback>, recurring: bool, now: nat, addr: nat) returns (t: Timer)
      requires Valid() && forall s :: s in issued ==> s.addr != addr
      modifies this`timers, this`tickled, this`notified, this`issued
      ensures Valid() && fresh(t) && issued == old(issued) + {t}
      ensures t.addr == addr && t.recurring == recurring && t.ms == ms && t.next == Add64(now, ms) && t.cb == cb
      ensures forall s :: s in timers <==> s in old(timers) || s == t
      ensures tickled == (old(tickled) || timers[0] == t)
      ensures notified == old(notified) + (if timers[0] == t && !old(tickled) then 1 else 0)
      ensures old(Awake()) ==> Awake()
      ensures old(Timely(now)) && t.next == now + ms ==> Timely(now)
    {
      t := new Timer(addr, ms, cb, recurring, now);
      Issue(t);
    }

    /** A timer just made goes into the set. */
    method Issue(t: Timer)
      requires Valid() && t !in issued && (forall s :: s in issued ==> s.addr != t.addr) && t.hollow == (t.cb == None)
      modifies this`timers, this`tickled, this`notified, this`issued
      ensures Valid() && issued == old(issued) + {t}
      ensures forall s :: s in timers <==> s in old(timers) || s == t
      ensures tickled == (old(tickled) || timers[0] == t)
      ensures notified == old(notified) + (if timers[0] == t && !old(tickled) then 1 else 0)
      ensures old(Awake()) ==> Awake()
    {
      AddLocked(t);
      issued := issued + {t};
    }

    // -------------------------------------------------------------- Timer's own methods

    /** Timer::cancel: takes a live timer out of the set; find never fails on one. */
    method Cancel(t: Timer) returns (ok: bool)
      requires Valid() && t in issued
      modifies this`timers, t`cb
      ensures Valid() && ok == old(t.cb.Some?) && t.cb == None
      ensures forall s :: s in timers <==> s in old(timers) && !(ok && s == t)
      ensures old(Awake()) ==> Awake()
      ensures forall now: nat :: old(Timely(now)) ==> Timely(now)
    {
      if t.cb == None {
        return false;
      }
      Erase(t);
      t.cb := None;
      ok := true;
    }

    /** Timer::refresh: a live timer is due one period from now. It never notifies, so it keeps
        the flag's promise exactly when the new deadline is not before the last one reported. */
    method Refresh(t: Timer, now: nat) returns (ok: bool)
      requires Valid() && t in issued
      modifies this`timers, t`next
      ensures Valid() && ok == t.cb.Some?
      ensures t.next == if ok then Add64(now, t.ms) else old(t.next)
      ensures forall s :: s in timers <==> s in old(timers)
      ensures old(Timely(now)) && t.next == now + t.ms ==> Timely(now)
      ensures old(Awake()) && ok && !tickled ==> (Awake() <==> t.next >= seen)
      ensures old(Awake()) && old(Timely(now)) && t.next == now + t.ms ==> Awake()
    {
      if t.cb == None {
        return false;
      }
      Erase(t);
      t.next := Add64(now, t.ms);
      var i := Insert(t);
      ok := true;
    }

    /** The locked part of reset: out of the set, a new deadline, and in again. */
    method Restart(t: Timer, ms: nat, start: nat)
      requires Valid() && t in issued && t.cb.Some?
      modifies this`timers, this`tickled, this`notified, t`next, t`ms
      ensures Valid() && t.ms == ms && t.next == Add64(start, ms)
      ensures forall s :: s in timers <==> s in old(timers)
      ensures timers != [] && tickled == (old(tickled) || timers[0] == t)
      ensures notified == old(notified) + (if timers[0] == t && !old(tickled) then 1 else 0)
      ensures old(Awake()) ==> Awake()
    {
      Erase(t);
      t.ms := ms;
      t.next := Add64(start, t.ms);
      AddLocked(t);
    }

    /** Timer::reset: a new period, counted from now or from when the old one began. */
    method Reset(t: Timer, ms: nat, fromNow: bool, now: nat) returns (ok: bool)
      requires Valid() && t in issued
      modifies this`timers, this`tickled, this`notified, t`next, t`ms
      ensures Valid()
      ensures ok == ((ms != old(t.ms) || fromNow) && t.cb.Some?)
      ensures !ok ==> t.next == old(t.next) && t.ms == old(t.ms) && timers == old(timers) && tickled == old(tickled)
                      && notified == old(notified)
      ensures ok ==> t.ms == ms && t.next == Add64(if fromNow then now else Sub64(old(t.next), old(t.ms)), ms)
      ensures ok ==> timers != [] && tickled == (old(tickled) || timers[0] == t)
                     && notified == old(notified) + (if timers[0] == t && !old(tickled) then 1 else 0)
      ensures forall s :: s in timers <==> s in old(timers)
      ensures old(Awake()) ==> Awake()
      ensures old(Timely(now)) && ok && ms <= t.next <= now + ms ==> Timely(now)
    {
      if ms == t.ms && !fromNow {
        return false;
      }
      if t.cb == None {
        return false;
      }
      var start := 0;
      if fromNow {
        start := now;
      } else {
        start := Sub64(t.next, t.ms);
      }
      Restart(t, ms, start);
      ok := true;
    }

    /** A timer restarted without wrap-around stays timely. */
    static lemma RestartTimely(next: nat, ms: nat, newMs: nat, now: nat, fromNow: bool)
      requires ms <= next <= now + ms && next < TWO_64 && now + newMs < TWO_64
      ensures var next' := Add64(if fromNow then now else Sub64(next, ms), newMs); newMs <= next' <= now + newMs
    {
      NoBorrow(next, ms);
      NoWrap(if fromNow then now else next - ms, newMs);
    }

    // -------------------------------------------------------------- the event loop's side

    /** getNextTimer: lowers the flag and says how long to sleep. */
    method GetNextTimer(now: nat) returns (timeout: nat)
      requires Valid() && forall t :: t in timers ==> t.next < TWO_64
      modifies this`tickled, this`seen, this`notifiedThen
      ensures Valid() && Awake() && !tickled && notifiedThen == notified
      ensures timers == [] ==> timeout == TWO_64 - 1 && seen == TWO_64
      ensures timers != [] ==> seen == timers[0].next && timeout == (if now >= seen then 0 else seen - now)
      ensures forall t :: t in timers ==> seen <= t.next
    {
      tickled := false;
      notifiedThen := notified;
      if timers == [] {
        seen := TWO_64;
        return TWO_64 - 1;
      }
      var next := timers[0];
      seen := next.next;
      forall t | t in timers ensures seen <= t.next {
        var j :| 0 <= j < |timers| && timers[j] == t;
        assert j > 0 ==> Less(timers[0].GetKey(), timers[j].GetKey());
      }
      if now >= next.next {
        timeout := 0;
      } else {
        timeout := next.next - now;
      }
    }

    method DetectClockRollover(now: nat) returns (rollover: bool)
      modifies this`previousTime
      ensures rollover == RolledBack(now, old(previousTime)) && previousTime == now
    {
      rollover := false;
      if now < previousTime && now < Sub64(previousTime, ROLLOVER_MS) {
        rollover := true;
      }
      previousTime := now;
    }

    /** The index where the timers that are not due begin, and what set it apart: a timer is due
        at its deadline, however its address compares with the probe's. */
    method ExpiredEnd(now: nat, probe: nat, rollover: bool) returns (it: nat)
      requires Valid()
      ensures it <= |timers|
      ensures forall i :: 0 <= i < it ==> rollover || timers[i].next <= now
      ensures rollover ==> it == |timers|
      ensures forall i :: it <= i < |timers| ==> timers[i].next > now
    {
      if rollover {
        return |timers|;
      }
      it := LowerBound(Key(now, probe));
      while it < |timers| && timers[it].next == now
        invariant it <= |timers|
        invariant forall i :: 0 <= i < it ==> timers[i].next <= now
        invariant forall i :: it <= i < |timers| ==> timers[i].next >= now
      {
        it := it + 1;
      }
      forall i | it <= i < |timers| ensures timers[i].next > now {
        assert i > it ==> Less(timers[it].GetKey(), timers[i].GetKey());
      }
    }

    /** One expired timer, already out of the set: armed again if it recurs, else finished. */
    method Settle(t: Timer, now: nat) returns (cb: Option<Callback>)
      requires Sorted(timers) && t !in timers
      requires forall s :: s in timers ==> s.addr != t.addr
      modifies this`timers, t`next, t`cb
      ensures Sorted(timers) && cb == old(t.cb)
      ensures t.recurring ==> t.next == Add64(now, t.ms) && t.cb == old(t.cb)
      ensures !t.recurring ==> t.next == old(t.next) && t.cb == None
      ensures forall s :: s in timers <==> s in old(timers) || (s == t && t.recurring)
    {
      cb := t.cb;
      if t.recurring {
        t.next := Add64(now, t.ms);
        var _ := Insert(t);
      } else {
        t.cb := None;
      }
    }

    /** The loop over the expired timers. */
    method SettleAll(expired: seq<Timer>, now: nat) returns (cbs: seq<Option<Callback>>)
      requires Sorted(timers) && DistinctAddresses(issued)
      requires forall t :: t in timers || t in expired ==> t in issued
      requires forall t :: t in expired ==> t !in timers
      requires forall i, j :: 0 <= i < j < |expired| ==> expired[i] != expired[j]
      modifies this`timers, expired
      ensures Sorted(timers) && cbs == old(Callbacks(expired))
      ensures forall t :: t in expired ==> Settled(t, now, old(t.next), old(t.cb)) && t.ms == old(t.ms)
      ensures forall t :: t in timers <==> t in old(timers) || (t in expired && t.recurring)
    {
      cbs := [];
      var i := 0;
      while i < |expired|
        invariant 0 <= i <= |expired| && cbs == old(Callbacks(expired[..i]))
        invariant Sorted(timers)
        invariant forall t :: t in timers <==> t in old(timers) || (t in expired[..i] && t.recurring)
        invariant forall j :: 0 <= j < i ==> Settled(expired[j], now, old(expired[j].next), old(expired[j].cb))
        invariant forall j :: i <= j < |expired| ==> unchanged(expired[j])
        invariant forall t :: t in expired ==> t.ms == old(t.ms)
      {
        var cb := Settle(expired[i], now);
        cbs := cbs + [cb];
        i := i + 1;
      }
      assert expired[..i] == expired;
    }

    /** Taking the expired timers out of the set: those due by now, or all of them after a clock
        rollback. On a set that has become empty since it was last looked at, the first timer is looked at
        all the same, which faults, unless the clock has gone back. */
    method TakeExpired(now: nat, probe: nat) returns (expired: seq<Timer>, faulted: bool)
      requires Valid()
      modifies this`timers, this`previousTime
      ensures previousTime == now
      ensures faulted <==> old(timers) == [] && !RolledBack(now, old(previousTime))
      ensures old(timers) == expired + timers
      ensures RolledBack(now, old(previousTime)) ==> timers == []
      ensures !RolledBack(now, old(previousTime)) ==> forall t :: t in expired ==> t.next <= now
      ensures forall t :: t in timers ==> t.next > now
    {
      expired, faulted := [], false;
      var rollover := DetectClockRollover(now);
      if !rollover {
        if timers == [] {
          faulted := true;
          return;
        }
        FirstIsEarliest();
        if timers[0].next > now {
          return;
        }
      }
      var it := ExpiredEnd(now, probe, rollover);
      expired := timers[..it];
      timers := timers[it..];
    }

    /** The expired timers are exactly those due by now, or all of them after a rollback. */
    twostate predicate SplitAt(expired: seq<Timer>, now: nat)
      requires expired <= old(timers)
    {
      && (forall t :: t in old(timers)[|expired|..] ==> old(t.next) > now)
      && (if RolledBack(now, old(previousTime)) then expired == old(timers)
          else forall t :: t in expired ==> old(t.next) <= now)
    }

    /** What became of the timers: the expired ones are settled and stay only if they recur, the
        others are untouched. */
    twostate predicate Rearmed(before: seq<Timer>, expired: seq<Timer>, now: nat)
      requires expired <= before
      reads this, before
    {
      && (forall t :: t in expired ==> Settled(t, now, old(t.next), old(t.cb)) && t.ms == old(t.ms))
      && (forall t :: t in before[|expired|..] ==> unchanged(t))
      && (forall t :: t in before[|expired|..] ==> t in timers)
      && (forall t :: t in expired && t.recurring ==> t in timers)
      && (forall t :: t in timers ==> t in before[|expired|..] || (t in expired && t.recurring))
    }

    /** No deadline was brought forward, so the flag's promise still holds. */
    twostate predicate NotForward(now: nat)
      reads this, timers
    {
      && (forall t :: t in timers ==> t in old(timers) && t.next >= old(t.next))
      && Timely(now)
      && (old(Awake()) ==> Awake())
    }

    /** Taking the expired timers out and settling them. */
    method TakeAndSettle(now: nat, probe: nat) returns (cbs: seq<Option<Callback>>, faulted: bool, ghost expired: seq<Timer>)
      requires Valid()
      modifies this`timers, this`previousTime, timers
      ensures Valid() && previousTime == now
      ensures faulted <==> old(timers) == [] && !RolledBack(now, old(previousTime))
      ensures expired <= old(timers) && cbs == old(Callbacks(timers))[..|expired|]
      ensures SplitAt(expired, now) && Rearmed(old(timers), expired, now)
    {
      ApartFrom(timers);
      ghost var all := Callbacks(timers);
      var due;
      due, faulted := TakeExpired(now, probe);
      expired := due;
      assert timers == old(timers)[|expired|..];
      assert Callbacks(due) == all[..|expired|];
      cbs := SettleAll(due, now);
    }

    /** listExpiredCb's section under the write lock, whatever has happened since the test under the
        read lock: the callbacks of the expired timers are returned in deadline order; the recurring ones
        are due again one period from now, the others lose their callback and leave the set; nothing else
        changes. With a monotone clock and no wrap-around no deadline is ever brought forward, so the
        flag's promise is kept without a notification. It faults exactly on a set that has been emptied in
        between, with the clock not gone back. */
    method ExpireLocked(now: nat, probe: nat) returns (cbs: seq<Option<Callback>>, faulted: bool, ghost expired: seq<Timer>)
      requires Valid()
      modifies this`timers, this`previousTime, timers
      ensures Valid() && previousTime == now
      ensures faulted <==> old(timers) == [] && !RolledBack(now, old(previousTime))
      ensures expired <= old(timers) && cbs == old(Callbacks(timers))[..|expired|]
      ensures SplitAt(expired, now) && Rearmed(old(timers), expired, now)
      ensures old(Timely(now) && NoneWraps(now)) ==> NotForward(now)
    {
      cbs, faulted, expired := TakeAndSettle(now, probe);
      if old(Timely(now) && NoneWraps(now)) {
        forall t | t in timers ensures t in old(timers) && t.ms <= t.next <= now + t.ms && t.next >= old(t.next) {
          if t in expired {
            NoWrap(now, t.ms);
          }
        }
      }
    }

    /** The test under the read lock. */
    method AnyTimers() returns (any: bool)
      ensures any <==> timers != []
    {
      any := timers != [];
    }

    /** listExpiredCb with nothing in between its two sections never faults. */
    method ListExpired(now: nat, probe: nat) returns (cbs: seq<Option<Callback>>, ghost expired: seq<Timer>)
      requires Valid()
      modifies this`timers, this`previousTime, timers
      ensures Valid()
      ensures previousTime == if old(timers) == [] then old(previousTime) else now
      ensures old(timers) == [] ==> timers == [] && cbs == [] && expired == []
      ensures old(timers) != [] ==>
                && expired <= old(timers) && cbs == old(Callbacks(timers))[..|expired|]
                && SplitAt(expired, now) && Rearmed(old(timers), expired, now)
      ensures old(Timely(now) && NoneWraps(now)) ==> NotForward(now)
    {
      cbs, expired := [], [];
      var any := AnyTimers();
      if any {
        var faulted;
        cbs, faulted, expired := ExpireLocked(now, probe);
        assert !faulted;
      }
    }

    /** Re-arming any timer now stays within uint64_t. */
    ghost predicate NoneWraps(now: nat)
      reads this, timers
    {
      forall t :: t in timers ==> now + t.ms < TWO_64
    }

    predicate Settled(t: Timer, now: nat, next: nat, cb: Option<Callback>)
      reads t
    {
      if t.recurring then t.next == Add64(now, t.ms) && t.cb == cb else t.next == next && t.cb == None
    }

    /** Timers at different places of the ordered set are different timers. */
    lemma ApartFrom(ts: seq<Timer>)
      requires Sorted(ts)
      ensures forall i, j :: 0 <= i < j < |ts| ==> ts[i] != ts[j]
    {
      forall i, j | 0 <= i < j < |ts| ensures ts[i] != ts[j] {
        assert Less(ts[i].GetKey(), ts[j].GetKey());
      }
    }

    lemma FirstIsEarliest()
      requires Sorted(timers) && timers != []
      ensures forall i :: 0 <= i < |timers| ==> timers[0].next <= timers[i].next
    {
      forall i | 0 <= i < |timers| ensures timers[0].next <= timers[i].next {
        assert i > 0 ==> Less(timers[0].GetKey(), timers[i].GetKey());
      }
    }

    /** No wake-up is lost: whenever some timer is due before the deadline the event loop went to
        sleep with, the event loop has been notified since then. */
    lemma LostNothing(t: Timer)
      requires Valid() && Awake() && t in timers && t.next < seen
      ensures notified > notifiedThen
    {
      assert tickled;
    }
  }
}
