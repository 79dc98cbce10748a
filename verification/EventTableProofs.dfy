// What every operation of the event table keeps, and where each registered work item goes.

module EventTableProofs {
  import opened Base
  import opened FiberTypes
  import opened EventTable

  // ---------------------------------------------------------------- helpers

  /** Contexts without bits count for nothing and keep nothing. */
  lemma {:induction false} NoBitsSums(contexts: seq<FdContext>)
    requires forall i :: 0 <= i < |contexts| ==> contexts[i].events == NONE
    ensures TotalBits(contexts) == 0 && Waiting(contexts) == multiset{}
  {
    if contexts != [] {
      assert Bits(contexts[0]) == 0 && Kept(contexts[0]) == multiset{};
      NoBitsSums(contexts[1..]);
    }
  }

  /** A table of n unused contexts, each at its fd. */
  lemma FreshTable(n: nat, vector: seq<nat>)
    requires n >= INITIAL_CONTEXTS && |vector| == n && forall i :: 0 <= i < n ==> vector[i] == i
    ensures var t := Table(UnusedFrom(0, n), vector, map[], 0); Valid(t) && Found(t) && Waiting(t.contexts) == multiset{}
  {
    NoBitsSums(UnusedFrom(0, n));
  }

  lemma InitialValid()
    ensures Valid(Initial()) && Found(Initial()) && Waiting(Initial().contexts) == multiset{} && |Initial().vector| == 32
  {
    FreshTable(INITIAL_CONTEXTS, Initial().vector);
  }

  /** A set bit keeps exactly one work item, and clearing it releases exactly that item. */
  lemma ClearBitReleases(c: FdContext, e: Event)
    requires ContextOk(c) && c.events.Has(e)
    ensures ContextOk(ClearBit(c, e)) && WorkOf(c.Get(e)).Some?
    ensures Kept(c) == Kept(ClearBit(c, e)) + Bag(Listed(WorkOf(c.Get(e))))
  {
  }

  lemma SetBitGains(c: FdContext, e: Event, work: Work)
    requires !c.events.Has(e)
    ensures Kept(SetBit(c, e, work)) == Kept(c) + multiset{work}
  {
    assert WorkOf(ContextOf(work)) == Some(work);
  }

  lemma Joined(a: multiset<Work>, b: multiset<Work>, c: multiset<Work>, x: seq<Work>, y: seq<Work>)
    requires a == b + Bag(x) && b == c + Bag(y)
    ensures a == c + Bag(x + y)
  {
    assert multiset(x + y) == multiset(x) + multiset(y);
  }

  lemma TriggerClears(c: FdContext, which: Mask)
    requires ContextOk(c) && which.Within(c.events)
    ensures var (c', w) := Trigger(c, which);
            && ContextOk(c') && c'.fd == c.fd && c'.events == c.events.Minus(which) && |w| == which.Count()
            && Bits(c') == Bits(c) - which.Count()
  {
  }

  lemma TriggerReleases(c: FdContext, which: Mask)
    requires ContextOk(c) && which.Within(c.events)
    ensures var (c', w) := Trigger(c, which); Kept(c) == Kept(c') + Bag(w)
  {
    var c1 := if which.read then ClearBit(c, READ) else c;
    var w1 := if which.read then Listed(WorkOf(c.read)) else [];
    var c2 := if which.write then ClearBit(c1, WRITE) else c1;
    var w2 := if which.write then Listed(WorkOf(c1.write)) else [];
    assert Trigger(c, which) == (c2, w1 + w2);
    if which.read { ClearBitReleases(c, READ); } else { assert Kept(c) == Kept(c1) + Bag(w1); }
    if which.write { ClearBitReleases(c1, WRITE); } else { assert Kept(c1) == Kept(c2) + Bag(w2); }
    Joined(Kept(c), Kept(c1), Kept(c2), w1, w2);
  }

  // ---------------------------------------------------------------- replacing one context

  /** The kernel's set when context `at` of fd is left with these events. */
  function Follow(kernel: map<nat, Interest>, at: nat, fd: nat, events: Mask): map<nat, Interest> {
    if events.IsNone() then kernel - {fd} else kernel[fd := Interest(events, at)]
  }

  /** The kernel goes on agreeing when it follows one context; a context without bits may gain
      some only when the kernel does not know its fd. */
  lemma FollowAgrees(contexts: seq<FdContext>, kernel: map<nat, Interest>, at: nat, c: FdContext)
    requires KernelAgrees(contexts, kernel) && at < |contexts| && c.fd == contexts[at].fd
    requires contexts[at].events.IsNone() ==> c.fd !in kernel && !c.events.IsNone()
    ensures KernelAgrees(contexts[at := c], Follow(kernel, at, c.fd, c.events))
  {
    var k := Follow(kernel, at, c.fd, c.events);
    forall fd | fd in k && fd != c.fd ensures kernel[fd].ptr != at {
      assert fd in kernel;
    }
    forall i | 0 <= i < |contexts| && i != at && !contexts[i].events.IsNone()
      ensures contexts[i].fd != c.fd
    {
      assert kernel[contexts[i].fd].ptr == i;
    }
  }

  /** Replacing one context of a valid table, with the kernel and the counter following. */
  lemma ReplaceKeepsValid(t: Table, at: nat, c: FdContext)
    requires Valid(t) && at < |t.contexts| && ContextOk(c) && c.fd == t.contexts[at].fd
    requires t.contexts[at].events.IsNone() ==> c.fd !in t.kernel && !c.events.IsNone()
    ensures Valid(Table(t.contexts[at := c], t.vector, Follow(t.kernel, at, c.fd, c.events),
                        t.pending - Bits(t.contexts[at]) + Bits(c)))
  {
    FollowAgrees(t.contexts, t.kernel, at, c);
    TotalUpdate(t.contexts, at, c, Bits);
  }

  /** Every epoll_ctl on a context with bits is legal, and so is ADD for an fd the kernel does not
      know. */
  lemma CtlLegal(t: Table, at: nat, rest: Mask, env: bool)
    requires Valid(t) && at < |t.contexts| && !t.contexts[at].events.IsNone()
    ensures EpollCtl(t.kernel, if rest.IsNone() then CtlDel else CtlMod, t.contexts[at].fd, Interest(rest, at), env) ==
              if env then Some(Follow(t.kernel, at, t.contexts[at].fd, rest)) else None
  {
  }

  // ---------------------------------------------------------------- what each operation keeps

  /** contextResize keeps everything there is, whatever the size: contexts that are cut off are
      not freed, and the kernel still has their addresses. */
  lemma ResizeKeeps(t: Table, size: nat)
    requires Valid(t) && size >= INITIAL_CONTEXTS
    ensures var r := Resize(t, size);
            && Valid(r) && |r.vector| == size && Waiting(r.contexts) == Waiting(t.contexts)
            && t.contexts <= r.contexts
            && (forall i :: |t.contexts| <= i < |r.contexts| ==> r.contexts[i] == Unused(r.contexts[i].fd))
  {
    var n := size - |t.vector|;
    if n > 0 {
      MoreContexts(t, UnusedFrom(|t.vector|, n), IdsFrom(|t.contexts|, n));
    } else {
      assert forall fd :: 0 <= fd < size ==> t.vector[..size][fd] == t.vector[fd];
    }
  }

  /** New unused contexts, found from the end of the vector on. */
  lemma MoreContexts(t: Table, extra: seq<FdContext>, ids: seq<nat>)
    requires Valid(t) && |ids| == |extra|
    requires forall i :: 0 <= i < |extra| ==> extra[i] == Unused(|t.vector| + i) && ids[i] == |t.contexts| + i
    ensures var r := t.(contexts := t.contexts + extra, vector := t.vector + ids);
            Valid(r) && Waiting(r.contexts) == Waiting(t.contexts)
  {
    NoBitsSums(extra);
    TotalAppend(t.contexts, extra, Bits);
    SumAppendNothing(t.contexts, extra, Kept);
    MoreKernelAgrees(t.contexts, t.kernel, extra);
  }

  lemma MoreKernelAgrees(contexts: seq<FdContext>, kernel: map<nat, Interest>, extra: seq<FdContext>)
    requires KernelAgrees(contexts, kernel) && forall i :: 0 <= i < |extra| ==> extra[i].events == NONE
    ensures KernelAgrees(contexts + extra, kernel)
  {
  }

  /** After the write-locked section fd is found, whatever happened to the vector before. */
  lemma GrowForLocates(t: Table, fd: nat)
    requires Valid(t) && fd >= INITIAL_CONTEXTS
    ensures Valid(GrowFor(t, fd)) && Locate(GrowFor(t, fd), fd).Some? && |GrowFor(t, fd).vector| == fd + fd / 2
  {
    ResizeKeeps(t, fd * 3 / 2);
  }

  /** addEvent fails an assertion exactly when the bit is set, and succeeds exactly when the kernel
      grants the call and does not know the fd by another context. */
  lemma AddEventKeeps(t: Table, at: nat, e: Event, work: Work, env: bool)
    requires Valid(t) && at < |t.contexts|
    ensures var r := AddEvent(t, at, e, work, env); var c := t.contexts[at];
            && Valid(r.table)
            && r.aborted == c.events.Has(e)
            && r.ok == (!r.aborted && env && (c.events.IsNone() ==> c.fd !in t.kernel))
            && (!r.ok ==> r.table == t) && r.pushed == [] && r.dropped == []
            && r.table.vector == t.vector && |r.table.contexts| == |t.contexts|
            && r.table.pending == t.pending + (if r.ok then 1 else 0)
            && (r.ok ==> r.table.contexts == t.contexts[at := SetBit(c, e, work)]
                         && c.fd in r.table.kernel && r.table.kernel[c.fd] == Interest(c.events.Set(e, true), at))
  {
    var c := t.contexts[at];
    var c' := SetBit(c, e, work);
    if !c.events.Has(e) && env && (c.events.IsNone() ==> c.fd !in t.kernel) {
      ReplaceKeepsValid(t, at, c');
      assert AddEvent(t, at, e, work, env) ==
               Effect(Table(t.contexts[at := c'], t.vector, Follow(t.kernel, at, c'.fd, c'.events), t.pending + 1),
                      true, [], [], false);
    }
  }

  lemma ClearOneIs(t: Table, at: nat, e: Event, env: bool, push: bool)
    requires Valid(t) && at < |t.contexts| && t.contexts[at].events.Has(e) && env
    ensures var c := t.contexts[at]; var c' := ClearBit(c, e); var w := Listed(WorkOf(c.Get(e)));
            && ContextOk(c') && |w| == 1
            && ClearOne(t, at, e, env, push) ==
                 Effect(Table(t.contexts[at := c'], t.vector, Follow(t.kernel, at, c'.fd, c'.events), t.pending - 1), true,
                        if push then w else [], if push then [] else w, false)
  {
    var c := t.contexts[at];
    var c' := ClearBit(c, e);
    ClearBitReleases(c, e);
    assert c'.events == c.events.Set(e, false) && c'.fd == c.fd;
    CtlLegal(t, at, c'.events, env);
    ClearOneGranted(t, at, e, push, c', Follow(t.kernel, at, c'.fd, c'.events));
  }

  lemma ClearOneGranted(t: Table, at: nat, e: Event, push: bool, c': FdContext, k: map<nat, Interest>)
    requires at < |t.contexts| && t.contexts[at].events.Has(e) && c' == ClearBit(t.contexts[at], e)
    requires c'.events == t.contexts[at].events.Set(e, false)
    requires EpollCtl(t.kernel, if c'.events.IsNone() then CtlDel else CtlMod, t.contexts[at].fd, Interest(c'.events, at), true)
               == Some(k)
    ensures var w := Listed(WorkOf(t.contexts[at].Get(e)));
            ClearOne(t, at, e, true, push) ==
              Effect(Table(t.contexts[at := c'], t.vector, k, t.pending - 1), true,
                     if push then w else [], if push then [] else w, false)
  {
  }

  /** delEvent and cancelEvent succeed exactly when the bit is set and the kernel grants the
      call; exactly one work item leaves, to the task list or to nowhere. */
  lemma ClearOneKeeps(t: Table, at: nat, e: Event, env: bool, push: bool)
    requires Valid(t) && at < |t.contexts|
    ensures var r := ClearOne(t, at, e, env, push);
            && Valid(r.table) && !r.aborted
            && r.ok == (t.contexts[at].events.Has(e) && env)
            && (!r.ok ==> r == Nothing(t))
            && |r.pushed| == (if r.ok && push then 1 else 0)
            && |r.dropped| == (if r.ok && !push then 1 else 0)
            && r.table.vector == t.vector
            && r.table.pending == t.pending - (if r.ok then 1 else 0)
            && (r.ok ==> r.table.contexts == t.contexts[at := ClearBit(t.contexts[at], e)])
  {
    if t.contexts[at].events.Has(e) && env {
      ClearOneIs(t, at, e, env, push);
      ReplaceKeepsValid(t, at, ClearBit(t.contexts[at], e));
    }
  }

  /** cancelAll: one push for each set bit, after which the context has none left. */
  lemma CancelAllKeeps(t: Table, at: nat, env: bool)
    requires Valid(t) && at < |t.contexts|
    ensures var r := CancelAll(t, at, env); var c := t.contexts[at];
            && Valid(r.table) && !r.aborted
            && r.ok == (!c.events.IsNone() && env)
            && (!r.ok ==> r == Nothing(t))
            && r.dropped == [] && r.table.vector == t.vector
            && (r.ok ==> r.table.contexts == t.contexts[at := Unused(c.fd)] && |r.pushed| == c.events.Count())
  {
    var c := t.contexts[at];
    if !c.events.IsNone() && env {
      var (c', w) := Trigger(c, c.events);
      TriggerClears(c, c.events);
      CtlLegal(t, at, NONE, env);
      ReplaceKeepsValid(t, at, c');
      assert c' == Unused(c.fd);
      assert CancelAll(t, at, env) ==
               Effect(Table(t.contexts[at := c'], t.vector, Follow(t.kernel, at, c'.fd, c'.events), t.pending - c.events.Count()),
                      true, w, [], false);
    }
  }

  /** One dispatched report. A triggerEvent assertion fails exactly when the mask meets the
      registered bits without lying within them and the kernel grants the call; otherwise one push
      for each reported bit. */
  lemma DispatchKeeps(t: Table, at: nat, fired: Mask, env: bool)
    requires Valid(t) && at < |t.contexts|
    ensures var r := Dispatch(t, at, fired, env); var c := t.contexts[at];
            && Valid(r.table)
            && r.aborted == (env && !DispatchSafe(c.events, fired))
            && r.ok == (env && fired.Meets(c.events) && fired.Within(c.events))
            && (!r.ok && !r.aborted ==> r == Nothing(t))
            && r.dropped == [] && r.table.vector == t.vector
            && (r.ok ==> |r.pushed| == fired.Count() && r.table.contexts == t.contexts[at := Trigger(c, fired).0])
  {
    var c := t.contexts[at];
    if fired.Meets(c.events) && env {
      CtlLegal(t, at, c.events.Minus(fired), env);
      if fired.Within(c.events) {
        var (c', w) := Trigger(c, fired);
        TriggerClears(c, fired);
        ReplaceKeepsValid(t, at, c');
        assert Dispatch(t, at, fired, env) ==
                 Effect(Table(t.contexts[at := c'], t.vector, Follow(t.kernel, at, c'.fd, c'.events), t.pending - fired.Count()),
                        true, w, [], false);
      }
    }
  }

  /** An event is acted on when the kernel reported it, or when it reported an error or a hang-up
      and the event is registered. */
  predicate Hit(registered: Mask, reported: Mask, errorOrHup: bool, e: Event) {
    reported.Has(e) || (errorOrHup && registered.Has(e))
  }

  lemma RealEventsExactly(registered: Mask, reported: Mask, errorOrHup: bool, e: Event)
    ensures RealEvents(reported, errorOrHup, registered).Has(e) <==> Hit(registered, reported, errorOrHup, e)
  {
  }

  /** A hit event loses its bit and its context; every other bit and context stays. */
  predicate Answered(c: FdContext, c': FdContext, reported: Mask, errorOrHup: bool, e: Event) {
    if Hit(c.events, reported, errorOrHup, e) then !c'.events.Has(e) && c'.Get(e) == EMPTY
    else c'.events.Has(e) == c.events.Has(e) && c'.Get(e) == c.Get(e)
  }

  /** The work of the hit events, READ before WRITE. */
  function HitWork(c: FdContext, reported: Mask, errorOrHup: bool): seq<Work> {
    (if Hit(c.events, reported, errorOrHup, READ) then Listed(WorkOf(c.read)) else []) +
    (if Hit(c.events, reported, errorOrHup, WRITE) then Listed(WorkOf(c.write)) else [])
  }

  ghost predicate HitsSome(c: FdContext, reported: Mask, errorOrHup: bool) {
    exists e :: c.events.Has(e) && Hit(c.events, reported, errorOrHup, e)
  }

  /** A stale bit: reported, but not registered. */
  ghost predicate HasStale(c: FdContext, reported: Mask) {
    exists e :: reported.Has(e) && !c.events.Has(e)
  }

  /** What the dispatch loop does with one report of the kernel, event by event. It acts when a hit event
      is registered and the kernel grants the call; then it fails an assertion exactly when a stale bit
      was reported, and otherwise answers each event and queues the work of the hit ones. */
  lemma ReportEffect(t: Table, at: nat, reported: Mask, errorOrHup: bool, env: bool)
    requires Valid(t) && at < |t.contexts|
    ensures var c := t.contexts[at];
            var r := Dispatch(t, at, RealEvents(reported, errorOrHup, c.events), env);
            if !env || !HitsSome(c, reported, errorOrHup) then r == Nothing(t)
            else if HasStale(c, reported) then r.aborted
            else
              && r.ok && !r.aborted && r.pushed == HitWork(c, reported, errorOrHup) && r.dropped == []
              && |r.table.contexts| == |t.contexts| && (forall e: Event :: Answered(c, r.table.contexts[at], reported, errorOrHup, e))
              && (forall i :: 0 <= i < |t.contexts| && i != at ==> r.table.contexts[i] == t.contexts[i])
  {
    var c := t.contexts[at];
    var fired := RealEvents(reported, errorOrHup, c.events);
    HitMask(c, reported, errorOrHup, fired);
    DispatchKeeps(t, at, fired, env);
    if env && HitsSome(c, reported, errorOrHup) && !HasStale(c, reported) {
      HitTriggers(c, reported, errorOrHup, fired);
      CtlLegal(t, at, c.events.Minus(fired), env);
    }
  }

  lemma HitMask(c: FdContext, reported: Mask, errorOrHup: bool, fired: Mask)
    requires fired == RealEvents(reported, errorOrHup, c.events)
    ensures fired.Meets(c.events) <==> HitsSome(c, reported, errorOrHup)
    ensures fired.Within(c.events) <==> !HasStale(c, reported)
  {
    RealEventsExactly(c.events, reported, errorOrHup, READ);
    RealEventsExactly(c.events, reported, errorOrHup, WRITE);
    MaskMeaning(fired, c.events, READ, true);
    assert reported.Has(READ) && !c.events.Has(READ) ==> HasStale(c, reported);
    assert reported.Has(WRITE) && !c.events.Has(WRITE) ==> HasStale(c, reported);
  }

  lemma HitTriggers(c: FdContext, reported: Mask, errorOrHup: bool, fired: Mask)
    requires ContextOk(c) && fired == RealEvents(reported, errorOrHup, c.events) && fired.Within(c.events)
    ensures var (c', w) := Trigger(c, fired);
            w == HitWork(c, reported, errorOrHup) && forall e: Event :: Answered(c, c', reported, errorOrHup, e)
  {
    RealEventsExactly(c.events, reported, errorOrHup, READ);
    RealEventsExactly(c.events, reported, errorOrHup, WRITE);
  }

  /** A report without a stale bit is safe, with or without an error or hang-up. */
  lemma FreshReportSafe(registered: Mask, reported: Mask, errorOrHup: bool)
    requires reported.Within(registered)
    ensures DispatchSafe(registered, RealEvents(reported, errorOrHup, registered))
    ensures errorOrHup ==> RealEvents(reported, errorOrHup, registered) == registered
  {
  }

  // ---------------------------------------------------------------- conservation of work

  lemma AddEventConserves(t: Table, at: nat, e: Event, work: Work, env: bool)
    requires Valid(t) && at < |t.contexts|
    ensures var r := AddEvent(t, at, e, work, env);
            Waiting(r.table.contexts) == Waiting(t.contexts) + (if r.ok then multiset{work} else multiset{})
  {
    AddEventKeeps(t, at, e, work, env);
    if AddEvent(t, at, e, work, env).ok {
      SetBitGains(t.contexts[at], e, work);
      SumGain(t.contexts, at, SetBit(t.contexts[at], e, work), Kept, multiset{work});
    }
  }

  lemma OneSide(a: multiset<Work>, b: multiset<Work>, w: seq<Work>, push: bool)
    requires a == b + Bag(w)
    ensures a == b + Bag(if push then w else []) + Bag(if push then [] else w)
  {
  }

  lemma ClearOneConserves(t: Table, at: nat, e: Event, env: bool, push: bool)
    requires Valid(t) && at < |t.contexts|
    ensures var r := ClearOne(t, at, e, env, push);
            Waiting(t.contexts) == Waiting(r.table.contexts) + Bag(r.pushed) + Bag(r.dropped)
  {
    if t.contexts[at].events.Has(e) && env {
      var c := t.contexts[at];
      var w := Listed(WorkOf(c.Get(e)));
      ClearOneIs(t, at, e, env, push);
      ClearBitReleases(c, e);
      SumRelease(t.contexts, at, ClearBit(c, e), Kept, Bag(w));
      OneSide(Waiting(t.contexts), Waiting(t.contexts[at := ClearBit(c, e)]), w, push);
    }
  }

  lemma CancelAllConserves(t: Table, at: nat, env: bool)
    requires Valid(t) && at < |t.contexts|
    ensures var r := CancelAll(t, at, env);
            Waiting(t.contexts) == Waiting(r.table.contexts) + Bag(r.pushed)
  {
    if CancelAll(t, at, env).ok {
      var c := t.contexts[at];
      TriggerReleases(c, c.events);
      var (c', w) := Trigger(c, c.events);
      SumRelease(t.contexts, at, c', Kept, Bag(w));
    }
  }

  lemma DispatchConserves(t: Table, at: nat, fired: Mask, env: bool)
    requires Valid(t) && at < |t.contexts|
    ensures var r := Dispatch(t, at, fired, env);
            Waiting(t.contexts) == Waiting(r.table.contexts) + Bag(r.pushed)
  {
    if Dispatch(t, at, fired, env).ok {
      var c := t.contexts[at];
      TriggerReleases(c, fired);
      var (c', w) := Trigger(c, fired);
      SumRelease(t.contexts, at, c', Kept, Bag(w));
    }
  }
}
