// Runs of the event table alone: any interleaving of the locked sections of any number of
// threads, and what becomes of every registered work item.

module EventTableRuns {
  import opened Base
  import opened FiberTypes
  import opened EventTable
  import opened EventTableProofs

  /** One locked section. `at` is the context that a thread has located before, or that a report of
      the kernel points to; between locating and locking anything may happen. */
  datatype Op =
    | Grow(fd: nat)
    | Add(at: nat, e: Event, work: Work, env: bool)
    | Del(at: nat, e: Event, env: bool)
    | Cancel(at: nat, e: Event, env: bool)
    | CancelFd(at: nat, env: bool)
    | Report(at: nat, fired: Mask, env: bool)

  /** The vector was never shorter than it started, so only an fd beyond that can be missed; and
      only contexts that were made can be named. */
  predicate Possible(t: Table, op: Op) {
    if op.Grow? then op.fd >= INITIAL_CONTEXTS else op.at < |t.contexts|
  }

  function Apply(t: Table, op: Op): Effect {
    if !Possible(t, op) then Nothing(t)
    else match op
      case Grow(fd) => Nothing(GrowFor(t, fd))
      case Add(at, e, work, env) => AddEvent(t, at, e, work, env)
      case Del(at, e, env) => ClearOne(t, at, e, env, false)
      case Cancel(at, e, env) => ClearOne(t, at, e, env, true)
      case CancelFd(at, env) => CancelAll(t, at, env)
      case Report(at, fired, env) => Dispatch(t, at, fired, env)
  }

  /** What a run did: the last table, the work added, queued and thrown away, and whether it
      ended in a failed assertion. */
  datatype History = History(table: Table, added: seq<Work>, pushed: seq<Work>, dropped: seq<Work>, aborted: bool)

  function Added(op: Op, r: Effect): seq<Work> { if op.Add? && r.ok then [op.work] else [] }

  function Extend(h: History, op: Op): History {
    if h.aborted then h
    else
      var r := Apply(h.table, op);
      History(r.table, h.added + Added(op, r), h.pushed + r.pushed, h.dropped + r.dropped, r.aborted)
  }

  function Run(t: Table, ops: seq<Op>): History
    decreases |ops|
  {
    if ops == [] then History(t, [], [], [], false) else Extend(Run(t, ops[..|ops| - 1]), ops[|ops| - 1])
  }

  // ---------------------------------------------------------------- conservation

  lemma ApplyKeeps(t: Table, op: Op)
    requires Valid(t)
    ensures Valid(Apply(t, op).table)
  {
    if Possible(t, op) {
      match op
      case Grow(fd) => GrowForLocates(t, fd);
      case Add(at, e, work, env) => AddEventKeeps(t, at, e, work, env);
      case Del(at, e, env) => ClearOneKeeps(t, at, e, env, false);
      case Cancel(at, e, env) => ClearOneKeeps(t, at, e, env, true);
      case CancelFd(at, env) => CancelAllKeeps(t, at, env);
      case Report(at, fired, env) => DispatchKeeps(t, at, fired, env);
    }
  }

  /** One operation moves work, never makes or loses any: what was waiting, plus what an
      addEvent adds, is waiting still, queued or thrown away. */
  lemma ApplyConserves(t: Table, op: Op)
    requires Valid(t)
    ensures var r := Apply(t, op);
            Waiting(t.contexts) + Bag(Added(op, r)) == Waiting(r.table.contexts) + Bag(r.pushed) + Bag(r.dropped)
  {
    if Possible(t, op) {
      match op
      case Grow(fd) => ResizeKeeps(t, fd * 3 / 2);
      case Add(at, e, work, env) => AddEventConserves(t, at, e, work, env); AddEventKeeps(t, at, e, work, env);
      case Del(at, e, env) => ClearOneConserves(t, at, e, env, false);
      case Cancel(at, e, env) => ClearOneConserves(t, at, e, env, true);
      case CancelFd(at, env) => CancelAllConserves(t, at, env); CancelAllKeeps(t, at, env);
      case Report(at, fired, env) => DispatchConserves(t, at, fired, env); DispatchKeeps(t, at, fired, env);
    }
  }

  lemma Bags(a: seq<Work>, b: seq<Work>)
    ensures Bag(a + b) == Bag(a) + Bag(b)
  {
  }

  lemma Chained(a: multiset<Work>, b: multiset<Work>, c: multiset<Work>, more: multiset<Work>, more': multiset<Work>,
                pushed: multiset<Work>, pushed': multiset<Work>, dropped: multiset<Work>, dropped': multiset<Work>)
    requires a + more == b + pushed + dropped && b + more' == c + pushed' + dropped'
    ensures a + (more + more') == c + (pushed + pushed') + (dropped + dropped')
  {
    calc {
      a + (more + more');
      (b + pushed + dropped) + more';
      (b + more') + (pushed + dropped);
      (c + pushed' + dropped') + (pushed + dropped);
    }
  }

  /** Over any run of any threads' sections from a valid table: the table stays valid, and what
      was waiting plus what was added is what is waiting, was queued or was thrown away. */
  lemma {:induction false} RunConserves(t: Table, ops: seq<Op>)
    requires Valid(t)
    ensures var h := Run(t, ops);
            && Valid(h.table)
            && Waiting(t.contexts) + Bag(h.added) == Waiting(h.table.contexts) + Bag(h.pushed) + Bag(h.dropped)
    decreases |ops|
  {
    if ops != [] {
      var h, op := Run(t, ops[..|ops| - 1]), ops[|ops| - 1];
      RunConserves(t, ops[..|ops| - 1]);
      if !h.aborted {
        var r := Apply(h.table, op);
        ApplyKeeps(h.table, op);
        ApplyConserves(h.table, op);
        Bags(h.added, Added(op, r));
        Bags(h.pushed, r.pushed);
        Bags(h.dropped, r.dropped);
        Chained(Waiting(t.contexts), Waiting(h.table.contexts), Waiting(r.table.contexts), Bag(h.added), Bag(Added(op, r)),
                Bag(h.pushed), Bag(r.pushed), Bag(h.dropped), Bag(r.dropped));
      }
    }
  }

  /** After every run, however the sections interleave: the pending-event count is the number of
      set bits, the kernel knows exactly the contexts with bits, each by its own fd, mask and
      address, and a context is filled in exactly where its bits say. */
  lemma CountAndKernelAgree(ops: seq<Op>)
    ensures var t := Run(Initial(), ops).table;
            && t.pending == TotalBits(t.contexts)
            && KernelAgrees(t.contexts, t.kernel)
            && forall i :: 0 <= i < |t.contexts| ==> ContextOk(t.contexts[i])
  {
    InitialValid();
    RunConserves(Initial(), ops);
  }

  // ---------------------------------------------------------------- slots

  datatype Slot = Slot(at: nat, event: Event)

  predicate SetIn(t: Table, s: Slot) {
    s.at < |t.contexts| && t.contexts[s.at].events.Has(s.event)
  }

  /** The slot holds work u. */
  predicate Holds(t: Table, s: Slot, u: Work) {
    SetIn(t, s) && WorkOf(t.contexts[s.at].Get(s.event)) == Some(u)
  }

  function Slots(at: nat, which: Mask): seq<Slot> {
    (if which.read then [Slot(at, READ)] else []) + (if which.write then [Slot(at, WRITE)] else [])
  }

  /** The slots that an operation clears, READ before WRITE. */
  function Cleared(t: Table, op: Op): seq<Slot> {
    if !Apply(t, op).ok then []
    else match op
      case Del(at, e, _) => [Slot(at, e)]
      case Cancel(at, e, _) => [Slot(at, e)]
      case CancelFd(at, _) => Slots(at, t.contexts[at].events)
      case Report(at, fired, _) => Slots(at, fired)
      case _ => []
  }

  /** The work that an operation releases: thrown away by delEvent, queued by the others. */
  function Released(t: Table, op: Op): seq<Work> {
    if op.Del? then Apply(t, op).dropped else Apply(t, op).pushed
  }

  /** The works are those of the slots, one for one, and no slot comes twice. */
  predicate Matches(t: Table, slots: seq<Slot>, works: seq<Work>) {
    && |slots| == |works|
    && (forall p :: 0 <= p < |slots| ==> Holds(t, slots[p], works[p]))
    && (forall p, q :: 0 <= p < q < |slots| ==> slots[p] != slots[q])
  }

  lemma OneMatches(t: Table, at: nat, e: Event)
    requires at < |t.contexts| && ContextOk(t.contexts[at]) && t.contexts[at].events.Has(e)
    ensures Matches(t, [Slot(at, e)], Listed(WorkOf(t.contexts[at].Get(e))))
  {
  }

  lemma TriggerMatches(t: Table, at: nat, which: Mask)
    requires at < |t.contexts| && ContextOk(t.contexts[at]) && which.Within(t.contexts[at].events)
    ensures Matches(t, Slots(at, which), Trigger(t.contexts[at], which).1)
  {
    var c := t.contexts[at];
    if which.read { OneMatches(t, at, READ); }
    if which.write {
      OneMatches(t, at, WRITE);
      assert WorkOf(ClearBit(c, READ).write) == WorkOf(c.write);
    }
  }

  /** An operation releases exactly the work of the slots that it clears, each slot once and in
      order; delEvent queues nothing, and nothing else throws work away. */
  lemma ReleasesWhatItClears(t: Table, op: Op)
    requires Valid(t)
    ensures Matches(t, Cleared(t, op), Released(t, op))
    ensures if op.Del? then Apply(t, op).pushed == [] else Apply(t, op).dropped == []
  {
    if !Possible(t, op) || !Apply(t, op).ok {
      NothingReleased(t, op);
    } else {
      match op
      case Grow(fd) =>
      case Add(at, e, work, env) => AddEventKeeps(t, at, e, work, env);
      case Del(at, e, env) => OneMatches(t, at, e);
      case Cancel(at, e, env) => OneMatches(t, at, e);
      case CancelFd(at, env) => TriggerMatches(t, at, t.contexts[at].events);
      case Report(at, fired, env) => TriggerMatches(t, at, fired);
    }
  }

  lemma NothingReleased(t: Table, op: Op)
    requires Valid(t) && !Apply(t, op).ok
    ensures Apply(t, op).pushed == [] && Apply(t, op).dropped == []
  {
  }

  /** The given slots lose their bits, no slot gains one, and a slot that keeps its bit keeps its work. */
  ghost predicate Loses(t: Table, t': Table, slots: seq<Slot>, s: Slot) {
    && (s in slots <==> SetIn(t, s) && !SetIn(t', s))
    && (SetIn(t', s) ==> SetIn(t, s) && forall u :: Holds(t, s, u) <==> Holds(t', s, u))
  }

  /** The slots of one context when `which` of its events are triggered or reset. */
  lemma SlotsTaken(t: Table, t': Table, at: nat, c: FdContext, which: Mask, s: Slot)
    requires at < |t.contexts| && t'.contexts == t.contexts[at := c] && which.Within(t.contexts[at].events)
    requires c.events == t.contexts[at].events.Minus(which)
    requires forall e :: c.events.Has(e) ==> c.Get(e) == t.contexts[at].Get(e)
    ensures Loses(t, t', Slots(at, which), s)
  {
  }

  /** The slots when addEvent fills one. */
  lemma SlotFilled(t: Table, t': Table, at: nat, e: Event, work: Work, s: Slot)
    requires at < |t.contexts| && !t.contexts[at].events.Has(e)
    requires t'.contexts == t.contexts[at := SetBit(t.contexts[at], e, work)]
    ensures SetIn(t', s) <==> SetIn(t, s) || s == Slot(at, e)
    ensures s == Slot(at, e) ==> !SetIn(t, s) && Holds(t', s, work)
    ensures s != Slot(at, e) ==> forall u :: Holds(t, s, u) <==> Holds(t', s, u)
  {
  }

  /** What happens to one slot: it loses its bit exactly when it is among the cleared ones, gains
      it exactly by a successful addEvent of its own, with that work, and is otherwise left alone. */
  lemma SlotFollows(t: Table, op: Op, s: Slot)
    requires Valid(t)
    ensures var r := Apply(t, op); var mine := op.Add? && r.ok && Slot(op.at, op.e) == s;
            if mine then Cleared(t, op) == [] && !SetIn(t, s) && Holds(r.table, s, op.work)
            else Loses(t, r.table, Cleared(t, op), s)
  {
    var r := Apply(t, op);
    if !Possible(t, op) || (!op.Grow? && !r.ok) {
      Unmoved(t, op);
    } else if op.Grow? {
      ResizeKeeps(t, op.fd * 3 / 2);
    } else {
      match op
      case Add(at, e, work, env) => AddEventKeeps(t, at, e, work, env); SlotFilled(t, r.table, at, e, work, s);
      case Del(at, e, env) => OneLoses(t, at, e, env, false, s);
      case Cancel(at, e, env) => OneLoses(t, at, e, env, true, s);
      case CancelFd(at, env) => AllLose(t, at, env, s);
      case Report(at, fired, env) => ReportedLose(t, at, fired, env, s);
    }
  }

  lemma OneLoses(t: Table, at: nat, e: Event, env: bool, push: bool, s: Slot)
    requires Valid(t) && at < |t.contexts| && ClearOne(t, at, e, env, push).ok
    ensures Loses(t, ClearOne(t, at, e, env, push).table, [Slot(at, e)], s)
  {
    var t' := ClearOne(t, at, e, env, push).table;
    ClearOneKeeps(t, at, e, env, push);
    SlotsTaken(t, t', at, t'.contexts[at], NONE.Set(e, true), s);
    assert Slots(at, NONE.Set(e, true)) == [Slot(at, e)];
  }

  lemma AllLose(t: Table, at: nat, env: bool, s: Slot)
    requires Valid(t) && at < |t.contexts| && CancelAll(t, at, env).ok
    ensures Loses(t, CancelAll(t, at, env).table, Slots(at, t.contexts[at].events), s)
  {
    CancelAllKeeps(t, at, env);
    SlotsTaken(t, CancelAll(t, at, env).table, at, Unused(t.contexts[at].fd), t.contexts[at].events, s);
  }

  lemma ReportedLose(t: Table, at: nat, fired: Mask, env: bool, s: Slot)
    requires Valid(t) && at < |t.contexts| && Dispatch(t, at, fired, env).ok
    ensures Loses(t, Dispatch(t, at, fired, env).table, Slots(at, fired), s)
  {
    DispatchKeeps(t, at, fired, env);
    TriggerClears(t.contexts[at], fired);
    SlotsTaken(t, Dispatch(t, at, fired, env).table, at, Trigger(t.contexts[at], fired).0, fired, s);
  }

  /** An operation that does not succeed changes nothing. */
  lemma Unmoved(t: Table, op: Op)
    requires Valid(t) && !Apply(t, op).ok && (op.Grow? ==> !Possible(t, op))
    ensures Apply(t, op).table == t
  {
    if Possible(t, op) {
      match op
      case Grow(fd) =>
      case Add(at, e, work, env) => AddEventKeeps(t, at, e, work, env);
      case Del(at, e, env) => ClearOneKeeps(t, at, e, env, false);
      case Cancel(at, e, env) => ClearOneKeeps(t, at, e, env, true);
      case CancelFd(at, env) => CancelAllKeeps(t, at, env);
      case Report(at, fired, env) => DispatchKeeps(t, at, fired, env);
    }
  }

  /** The table that operation k of a run finds. */
  function Before(t: Table, ops: seq<Op>, k: nat): Table
    requires k <= |ops|
  {
    Run(t, ops[..k]).table
  }

  // ---------------------------------------------------------------- the log of a run

  /** What one operation of a run found, did, and released from which slots. */
  datatype Entry = Entry(before: Table, op: Op, effect: Effect, cleared: seq<Slot>, released: seq<Work>)

  function Record(t: Table, op: Op): Entry { Entry(t, op, Apply(t, op), Cleared(t, op), Released(t, op)) }

  function Log(t: Table, ops: seq<Op>): (log: seq<Entry>)
    ensures |log| == |ops|
    decreases |ops|
  {
    if ops == [] then []
    else
      var n := |ops| - 1;
      Log(t, ops[..n]) + [Record(Run(t, ops[..n]).table, ops[n])]
  }

  /** The table that operation k of a logged run finds, or that the run leaves. */
  function StateOf(t: Table, log: seq<Entry>, k: nat): Table
    requires k <= |log|
  {
    if k == 0 then t else log[k - 1].effect.table
  }

  predicate Registering(e: Entry, s: Slot) { e.op.Add? && e.effect.ok && Slot(e.op.at, e.op.e) == s }

  ghost predicate GoodEntry(e: Entry) {
    && Matches(e.before, e.cleared, e.released)
    && (if e.op.Del? then e.effect.pushed == [] && e.released == e.effect.dropped
        else e.effect.dropped == [] && e.released == e.effect.pushed)
    && forall s: Slot :: SlotMoves(e, s)
  }

  ghost predicate SlotMoves(e: Entry, s: Slot) {
    if Registering(e, s) then e.cleared == [] && !SetIn(e.before, s) && Holds(e.effect.table, s, e.op.work)
    else Loses(e.before, e.effect.table, e.cleared, s)
  }

  ghost predicate GoodAt(t: Table, log: seq<Entry>, k: nat)
    requires k < |log|
  {
    GoodEntry(log[k]) && log[k].before == StateOf(t, log, k)
  }

  ghost predicate GoodLog(t: Table, log: seq<Entry>) {
    forall k: nat :: k < |log| ==> GoodAt(t, log, k)
  }

  lemma RecordGood(t: Table, op: Op)
    requires Valid(t)
    ensures GoodEntry(Record(t, op))
  {
    ReleasesWhatItClears(t, op);
    forall s: Slot ensures SlotMoves(Record(t, op), s) { SlotFollows(t, op, s); }
  }

  /** In the log of a run every entry is in order and finds the table that the one before left. */
  lemma {:induction false} LogGood(t: Table, ops: seq<Op>)
    requires Valid(t) && !Run(t, ops).aborted
    ensures GoodLog(t, Log(t, ops)) && StateOf(t, Log(t, ops), |ops|) == Run(t, ops).table
    decreases |ops|
  {
    if ops != [] {
      var shorter := ops[..|ops| - 1];
      var e := LastEntry(t, ops, shorter);
      LogGood(t, shorter);
      LogLonger(t, Log(t, shorter), Log(t, ops), e);
    }
  }

  lemma LastEntry(t: Table, ops: seq<Op>, shorter: seq<Op>) returns (e: Entry)
    requires Valid(t) && !Run(t, ops).aborted && ops != [] && shorter == ops[..|ops| - 1]
    ensures !Run(t, shorter).aborted && Log(t, ops) == Log(t, shorter) + [e] && GoodEntry(e)
    ensures e.before == Run(t, shorter).table && e.effect.table == Run(t, ops).table
  {
    RunConserves(t, shorter);
    e := Record(Run(t, shorter).table, ops[|ops| - 1]);
    RecordGood(Run(t, shorter).table, ops[|ops| - 1]);
  }

  lemma LogLonger(t: Table, shorter: seq<Entry>, log: seq<Entry>, e: Entry)
    requires GoodLog(t, shorter) && GoodEntry(e) && e.before == StateOf(t, shorter, |shorter|) && log == shorter + [e]
    ensures GoodLog(t, log)
  {
    forall k: nat | k < |log| ensures GoodAt(t, log, k) {
      assert StateOf(t, log, k) == StateOf(t, shorter, k);
      if k < |shorter| { assert GoodAt(t, shorter, k); }
    }
  }

  // ---------------------------------------------------------------- the fate of a registration

  /** Entry i is a successful addEvent of work u on slot s. */
  predicate Registers(log: seq<Entry>, i: nat, s: Slot, u: Work) {
    i < |log| && Registering(log[i], s) && log[i].op.work == u
  }

  /** The first entry from k on that clears slot s, or the length of the log. */
  function ClearTime(log: seq<Entry>, k: nat, s: Slot): (j: nat)
    requires k <= |log|
    ensures k <= j <= |log| && (j < |log| ==> s in log[j].cleared)
    ensures forall m :: k <= m < j ==> s !in log[m].cleared
    decreases |log| - k
  {
    if k == |log| || s in log[k].cleared then k else ClearTime(log, k + 1, s)
  }

  /** The slot is cleared at one place, and the work there is u. */
  predicate ReleasedOnce(slots: seq<Slot>, works: seq<Work>, s: Slot, u: Work) {
    |slots| == |works| &&
    exists p :: 0 <= p < |slots| && slots[p] == s && works[p] == u && forall q :: 0 <= q < |slots| && q != p ==> slots[q] != s
  }

  /** The entry takes work u out of slot s: delEvent throws it away, any other operation queues it. */
  predicate Takes(e: Entry, s: Slot, u: Work) {
    ReleasedOnce(e.cleared, if e.op.Del? then e.effect.dropped else e.effect.pushed, s, u) && !SetIn(e.effect.table, s)
  }

  lemma ClearingTakes(e: Entry, s: Slot, u: Work)
    requires GoodEntry(e) && Holds(e.before, s, u) && s in e.cleared
    ensures Takes(e, s, u)
  {
    var p :| 0 <= p < |e.cleared| && e.cleared[p] == s;
    assert Holds(e.before, e.cleared[p], e.released[p]);
    assert SlotMoves(e, s);
  }

  /** A slot that nothing clears keeps its work. */
  lemma {:induction false} HeldUntil(t: Table, log: seq<Entry>, i: nat, k: nat, s: Slot, u: Work)
    requires GoodLog(t, log) && i <= k <= |log| && Holds(StateOf(t, log, i), s, u)
    requires forall m :: i <= m < k ==> s !in log[m].cleared
    ensures Holds(StateOf(t, log, k), s, u)
    decreases k - i
  {
    if i < k {
      HeldUntil(t, log, i, k - 1, s, u);
      assert GoodAt(t, log, k - 1) && SlotMoves(log[k - 1], s);
    }
  }

  /** The fate of a registration in any good log. */
  lemma FateIn(t: Table, log: seq<Entry>, i: nat, s: Slot, u: Work)
    requires GoodLog(t, log) && Registers(log, i, s, u)
    ensures var j := ClearTime(log, i + 1, s);
            && (forall k :: i < k <= j ==> Holds(StateOf(t, log, k), s, u))
            && (j < |log| ==> Takes(log[j], s, u))
  {
    var j := ClearTime(log, i + 1, s);
    assert GoodAt(t, log, i) && SlotMoves(log[i], s);
    forall k | i < k <= j ensures Holds(StateOf(t, log, k), s, u) {
      HeldUntil(t, log, i + 1, k, s, u);
    }
    if j < |log| {
      assert GoodAt(t, log, j);
      ClearingTakes(log[j], s, u);
    }
  }

  /** The fate of every registration, whatever other registrations of the same work there are:
      its slot holds the work until the first operation that clears it; that operation releases
      this work exactly once, queued unless it is delEvent; if there is none, the slot holds it still. */
  lemma RegistrationFate(t: Table, ops: seq<Op>, i: nat, s: Slot, u: Work)
    requires Valid(t) && !Run(t, ops).aborted && Registers(Log(t, ops), i, s, u)
    ensures var log := Log(t, ops); var j := ClearTime(log, i + 1, s);
            && (forall k :: i < k <= j ==> Holds(StateOf(t, log, k), s, u))
            && (if j < |ops| then Takes(log[j], s, u) else Holds(Run(t, ops).table, s, u))
  {
    LogGood(t, ops);
    FateIn(t, Log(t, ops), i, s, u);
  }

  /** Two registrations of one slot are cleared by different operations: the second comes after
      the first has been cleared. */
  lemma FatesApart(t: Table, ops: seq<Op>, i: nat, j: nat, s: Slot, u: Work, v: Work)
    requires Valid(t) && !Run(t, ops).aborted && i < j
    requires Registers(Log(t, ops), i, s, u) && Registers(Log(t, ops), j, s, v)
    ensures ClearTime(Log(t, ops), i + 1, s) < j
  {
    var log := Log(t, ops);
    LogGood(t, ops);
    FateIn(t, log, i, s, u);
    assert GoodAt(t, log, j) && SlotMoves(log[j], s);
  }

  ghost predicate NothingSet(t: Table) {
    forall i :: 0 <= i < |t.contexts| ==> t.contexts[i].events == NONE
  }

  /** What a slot holds was registered there, and nothing has cleared the slot since. */
  lemma {:induction false} Origin(t: Table, log: seq<Entry>, k: nat, s: Slot, u: Work) returns (i: nat)
    requires GoodLog(t, log) && NothingSet(t) && k <= |log| && Holds(StateOf(t, log, k), s, u)
    ensures i < k && Registers(log, i, s, u) && ClearTime(log, i + 1, s) >= k
    decreases k
  {
    assert k > 0 && GoodAt(t, log, k - 1) && SlotMoves(log[k - 1], s);
    if Registering(log[k - 1], s) {
      i := k - 1;
    } else {
      i := Origin(t, log, k - 1, s, u);
    }
  }

  /** Every released item belongs to exactly one registration: the one whose slot is cleared there
      for the first time since. */
  lemma ReleaseHasOrigin(t: Table, ops: seq<Op>, k: nat, p: nat)
    requires Valid(t) && NothingSet(t) && !Run(t, ops).aborted && k < |ops|
    requires p < |Log(t, ops)[k].effect.pushed + Log(t, ops)[k].effect.dropped|
    ensures var log := Log(t, ops); var out := log[k].effect.pushed + log[k].effect.dropped;
            && p < |log[k].cleared|
            && exists i :: 0 <= i < k && Registers(log, i, log[k].cleared[p], out[p])
                 && ClearTime(log, i + 1, log[k].cleared[p]) == k
  {
    var log := Log(t, ops);
    LogGood(t, ops);
    assert GoodAt(t, log, k);
    assert log[k].released == log[k].effect.pushed + log[k].effect.dropped;
    var s := log[k].cleared[p];
    var i := Origin(t, log, k, s, log[k].released[p]);
    assert ClearTime(log, i + 1, s) == k;
  }

  // ---------------------------------------------------------------- the dispatch assertions

  /** The assertions met by triggering READ and then WRITE as `fired` says. */
  predicate TriggersAssert(c: FdContext, fired: Mask) {
    && (fired.read ==> c.events.read)
    && (fired.write ==> (if fired.read then ClearBit(c, READ) else c).events.write)
  }

  /** The dispatch loop acts on the reported mask without cutting it down to the registered
      bits; its assertions hold exactly when the mask is disjoint from those or within them. */
  lemma DispatchAssertsIffSafe(c: FdContext, fired: Mask)
    ensures (fired.Meets(c.events) ==> TriggersAssert(c, fired)) <==> DispatchSafe(c.events, fired)
  {
  }

  /** A report that was true when epoll_wait returned can end the process by the time the lock of
      the context is taken: both events were registered and ready, and WRITE was cancelled in
      between. */
  lemma StaleReportBreaksDispatch(t: Table, at: nat)
    requires Valid(t) && at < |t.contexts| && t.contexts[at].events == Mask(true, true)
    ensures var t' := Apply(t, Cancel(at, WRITE, true)).table; var fired := Mask(true, true);
            && DispatchSafe(t.contexts[at].events, fired)
            && at < |t'.contexts| && !TriggersAssert(t'.contexts[at], fired)
            && Apply(t', Report(at, fired, true)).aborted
  {
    ClearOneKeeps(t, at, WRITE, true, true);
    DispatchKeeps(Apply(t, Cancel(at, WRITE, true)).table, at, Mask(true, true), true);
  }
}
