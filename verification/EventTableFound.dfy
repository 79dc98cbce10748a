// Which registrations can still be reached by their fd. addEvent tests the length of the vector
// under one lock and resizes it under another, without a second test, so a resize can cut the
// vector short.

module EventTableFound {
  import opened Base
  import opened FiberTypes
  import opened EventTable
  import opened EventTableProofs
  import opened EventTableRuns

  // ---------------------------------------------------------------- one section

  /** A resize keeps every waiting context findable exactly when it cuts off none with a bit. */
  lemma ResizeFound(t: Table, size: nat)
    requires Valid(t) && Found(t)
    ensures Found(Resize(t, size)) <==> forall fd :: size <= fd < |t.vector| ==> t.contexts[t.vector[fd]].events.IsNone()
  {
    var r := Resize(t, size);
    assert t.contexts <= r.contexts;
    if forall fd :: size <= fd < |t.vector| ==> t.contexts[t.vector[fd]].events.IsNone() {
      forall i | 0 <= i < |r.contexts| && !r.contexts[i].events.IsNone() ensures Locate(r, r.contexts[i].fd) == Some(i) {
        assert i < |t.contexts| && Locate(t, t.contexts[i].fd) == Some(i);
      }
    } else {
      var fd :| size <= fd < |t.vector| && !t.contexts[t.vector[fd]].events.IsNone();
      assert Locate(r, r.contexts[t.vector[fd]].fd) == None;
    }
  }

  /** A registration is findable exactly when its context is still the one at its fd; then the
      kernel refuses it only for reasons of its own. */
  lemma AddEventFound(t: Table, at: nat, e: Event, work: Work, env: bool)
    requires Valid(t) && Found(t) && at < |t.contexts|
    ensures var r := AddEvent(t, at, e, work, env); var here := Locate(t, t.contexts[at].fd) == Some(at);
            && (r.ok ==> (Found(r.table) <==> here)) && (!r.ok ==> Found(r.table))
            && (here && !r.aborted ==> r.ok == env)
  {
    var c := t.contexts[at];
    AddEventKeeps(t, at, e, work, env);
    var r := AddEvent(t, at, e, work, env);
    if r.ok {
      assert r.table.contexts[at].fd == c.fd && !r.table.contexts[at].events.IsNone();
      assert Locate(r.table, c.fd) == Locate(t, c.fd);
    }
  }

  /** Taking bits away loses nothing. */
  lemma FewerBitsFound(t: Table, r: Table, at: nat, c: FdContext)
    requires Found(t) && at < |t.contexts| && r.contexts == t.contexts[at := c] && r.vector == t.vector
    requires c.fd == t.contexts[at].fd && (t.contexts[at].events.IsNone() ==> c.events.IsNone())
    ensures Found(r)
  {
    forall i | 0 <= i < |r.contexts| && !r.contexts[i].events.IsNone() ensures Locate(r, r.contexts[i].fd) == Some(i) {
      assert !t.contexts[i].events.IsNone();
    }
  }

  /** The operation cuts off no context with a bit, and registers only on a context that is still
      the one at its fd. */
  predicate Gentle(t: Table, op: Op) {
    Possible(t, op) ==>
      match op
      case Grow(fd) => forall i :: fd * 3 / 2 <= i < |t.vector| && t.vector[i] < |t.contexts| ==>
                         t.contexts[t.vector[i]].events.IsNone()
      case Add(at, _, _, _) => Apply(t, op).ok ==> Locate(t, t.contexts[at].fd) == Some(at)
      case _ => true
  }

  /** One section keeps every waiting context findable exactly when it is gentle. */
  lemma GentleExactly(t: Table, op: Op)
    requires Valid(t) && Found(t)
    ensures Found(Apply(t, op).table) <==> Gentle(t, op)
  {
    var r := Apply(t, op);
    if !Possible(t, op) || (!op.Grow? && !r.ok) {
      Unmoved(t, op);
    } else {
      match op
      case Grow(fd) => ResizeFound(t, fd * 3 / 2);
      case Add(at, e, work, env) => AddEventFound(t, at, e, work, env);
      case Del(at, e, env) => ClearOneKeeps(t, at, e, env, false); FewerBitsFound(t, r.table, at, ClearBit(t.contexts[at], e));
      case Cancel(at, e, env) => ClearOneKeeps(t, at, e, env, true); FewerBitsFound(t, r.table, at, ClearBit(t.contexts[at], e));
      case CancelFd(at, env) => CancelAllKeeps(t, at, env); FewerBitsFound(t, r.table, at, Unused(t.contexts[at].fd));
      case Report(at, fired, env) =>
        DispatchKeeps(t, at, fired, env);
        TriggerClears(t.contexts[at], fired);
        FewerBitsFound(t, r.table, at, Trigger(t.contexts[at], fired).0);
    }
  }

  predicate GentleRun(t: Table, ops: seq<Op>) {
    forall k :: 0 <= k < |ops| ==> Gentle(Before(t, ops, k), ops[k])
  }

  /** Over a gentle run every waiting context stays findable. */
  lemma {:induction false} GentleRunFound(t: Table, ops: seq<Op>)
    requires Valid(t) && Found(t) && GentleRun(t, ops)
    ensures Found(Run(t, ops).table)
    decreases |ops|
  {
    if ops != [] {
      var n := |ops| - 1;
      forall k | 0 <= k < n ensures Gentle(Before(t, ops[..n], k), ops[..n][k]) {
        assert ops[..n][..k] == ops[..k];
      }
      GentleRunFound(t, ops[..n]);
      RunConserves(t, ops[..n]);
      GentleExactly(Before(t, ops, n), ops[n]);
    }
  }

  // ---------------------------------------------------------------- the count over the vector

  /** The contexts that the vector finds. */
  function Seen(contexts: seq<FdContext>, vector: seq<nat>): (r: seq<FdContext>)
    requires forall i :: 0 <= i < |vector| ==> vector[i] < |contexts|
    ensures |r| == |vector| && forall i :: 0 <= i < |vector| ==> r[i] == contexts[vector[i]]
  {
    seq(|vector|, i requires 0 <= i < |vector| => contexts[vector[i]])
  }

  /** All contexts, with those that the vector finds emptied. */
  function Unseen(contexts: seq<FdContext>, vector: seq<nat>): (r: seq<FdContext>)
    ensures |r| == |contexts|
    ensures forall i :: 0 <= i < |r| ==> r[i] == if i in vector then Unused(contexts[i].fd) else contexts[i]
  {
    seq(|contexts|, i requires 0 <= i < |contexts| => if i in vector then Unused(contexts[i].fd) else contexts[i])
  }

  /** Set bits are in contexts that the vector finds or in others. */
  lemma {:induction false} SeenAndUnseen(contexts: seq<FdContext>, vector: seq<nat>)
    requires forall i :: 0 <= i < |vector| ==> vector[i] < |contexts|
    requires forall i, j :: 0 <= i < j < |vector| ==> vector[i] != vector[j]
    ensures TotalBits(contexts) == TotalBits(Seen(contexts, vector)) + TotalBits(Unseen(contexts, vector))
    decreases |vector|
  {
    if vector == [] {
      assert Unseen(contexts, vector) == contexts;
    } else {
      var n := |vector| - 1;
      var last := vector[n];
      SeenAndUnseen(contexts, vector[..n]);
      assert Seen(contexts, vector) == Seen(contexts, vector[..n]) + [contexts[last]];
      TotalAppend(Seen(contexts, vector[..n]), [contexts[last]], Bits);
      assert last !in vector[..n];
      OneMoreSeen(contexts, vector[..n], vector, last);
      TotalUpdate(Unseen(contexts, vector[..n]), last, Unused(contexts[last].fd), Bits);
    }
  }

  lemma OneMoreSeen(contexts: seq<FdContext>, vector: seq<nat>, longer: seq<nat>, last: nat)
    requires last < |contexts| && |longer| == |vector| + 1 && longer[..|vector|] == vector && longer[|vector|] == last
    ensures Unseen(contexts, longer) == Unseen(contexts, vector)[last := Unused(contexts[last].fd)]
  {
    assert longer == vector + [last];
  }

  lemma {:induction false} NoBitsLeft(contexts: seq<FdContext>)
    requires TotalBits(contexts) == 0
    ensures forall i :: 0 <= i < |contexts| ==> contexts[i].events.IsNone()
  {
    if contexts != [] {
      NoBitsLeft(contexts[1..]);
      forall i | 0 <= i < |contexts| ensures contexts[i].events.IsNone() {
        assert i > 0 ==> contexts[i] == contexts[1..][i - 1];
      }
    }
  }

  /** The pending-event count is the number of bits in the vector's contexts exactly when every
      waiting context is found by its fd. */
  lemma VectorCountsExactly(t: Table)
    requires Valid(t)
    ensures TotalBits(Seen(t.contexts, t.vector)) == t.pending <==> Found(t)
  {
    var rest := Unseen(t.contexts, t.vector);
    SeenAndUnseen(t.contexts, t.vector);
    if TotalBits(rest) == 0 {
      NoBitsLeft(rest);
      forall i | 0 <= i < |t.contexts| && !t.contexts[i].events.IsNone() ensures Locate(t, t.contexts[i].fd) == Some(i) {
        assert !rest[i].events.IsNone() || i in t.vector;
      }
    }
    if Found(t) {
      forall i | 0 <= i < |rest| ensures rest[i].events == NONE {
        var fd := t.contexts[i].fd;
        if fd < |t.vector| { assert t.vector[fd] in t.vector; }
      }
      NoBitsSums(rest);
    }
  }

  // ---------------------------------------------------------------- the failing run

  /** Two threads find the vector too short for fds 100 and 40. The first grows it to 150 and
      registers READ for fd 100; the second then "grows" it to 60. The registration is still counted
      and still in the kernel, but its fd finds no context, so that no cancelEvent, delEvent or
      cancelAll of fd 100 can reach it; and after the vector has been grown again for fd 100, the
      kernel refuses every registration on the context made there. */
  lemma ShrinkHidesWaiter(u: Work, v: Work)
    ensures Locate(Initial(), 100) == None && Locate(Initial(), 40) == None
    ensures var ops := [Grow(100), Add(100, READ, u, true), Grow(40)];
            var t := Run(Initial(), ops).table;
            && !Run(Initial(), ops).aborted && Valid(t)
            && Locate(Before(Initial(), ops, 1), 100) == Some(100)
            && t.pending == 1 && 100 in t.kernel && Holds(t, Slot(100, READ), u)
            && Locate(t, 100) == None
            && TotalBits(Seen(t.contexts, t.vector)) == 0
            && forall at: nat :: Locate(GrowFor(t, 100), 100) == Some(at) ==>
                 !AddEvent(GrowFor(t, 100), at, READ, v, true).ok
  {
    var ops := [Grow(100), Add(100, READ, u, true), Grow(40)];
    RunThree(Initial(), ops[0], ops[1], ops[2]);
    var t2 := FirstTwo(u);
    ThreeExtends(u, t2);
    CutBack(t2, GrowFor(t2, 40), u, v);
  }

  lemma ThreeExtends(u: Work, t2: Table)
    requires var r := AddEvent(GrowFor(Initial(), 100), 100, READ, u, true); r.ok && !r.aborted && t2 == r.table
    ensures var h := Extend(History(Initial(), [], [], [], false), Grow(100));
            && h.table == GrowFor(Initial(), 100)
            && Extend(Extend(h, Add(100, READ, u, true)), Grow(40)).table == GrowFor(t2, 40)
            && !Extend(Extend(h, Add(100, READ, u, true)), Grow(40)).aborted
  {
    var h := Extend(History(Initial(), [], [], [], false), Grow(100));
    assert h == History(GrowFor(Initial(), 100), [], [], [], false);
    var h2 := Extend(h, Add(100, READ, u, true));
    assert h2.table == t2 && !h2.aborted;
  }

  lemma RunMore(t: Table, ops: seq<Op>, op: Op, more: seq<Op>)
    requires more == ops + [op]
    ensures Run(t, more) == Extend(Run(t, ops), op)
  {
    assert more[..|more| - 1] == ops;
  }

  lemma RunThree(t: Table, a: Op, b: Op, c: Op)
    ensures Run(t, [a, b, c]) == Extend(Extend(Extend(History(t, [], [], [], false), a), b), c)
    ensures Before(t, [a, b, c], 1) == Apply(t, a).table
  {
    RunMore(t, [], a, [a]);
    RunMore(t, [a], b, [a, b]);
    RunMore(t, [a, b], c, [a, b, c]);
    assert [a, b, c][..1] == [a];
  }

  lemma FirstTwo(u: Work) returns (t2: Table)
    ensures Locate(GrowFor(Initial(), 100), 100) == Some(100)
    ensures var r := AddEvent(GrowFor(Initial(), 100), 100, READ, u, true); r.ok && !r.aborted && t2 == r.table
    ensures Valid(t2) && Unregistered(t2) && 100 in t2.kernel && t2.pending == 1 && Holds(t2, Slot(100, READ), u)
  {
    var t1 := GrowFor(Initial(), 100);
    InitialValid();
    ResizeKeeps(Initial(), 150);
    FirstGrow(t1);
    t2 := FirstAdd(t1, u);
  }

  lemma FirstAdd(t1: Table, u: Work) returns (t2: Table)
    requires Valid(t1) && Unregistered(t1) && t1.contexts[100] == Unused(100) && 100 !in t1.kernel && t1.pending == 0
    ensures var r := AddEvent(t1, 100, READ, u, true); r.ok && !r.aborted && t2 == r.table
    ensures Valid(t2) && Unregistered(t2) && 100 in t2.kernel && t2.pending == 1 && Holds(t2, Slot(100, READ), u)
  {
    AddEventKeeps(t1, 100, READ, u, true);
    t2 := AddEvent(t1, 100, READ, u, true).table;
    SlotFilled(t1, t2, 100, READ, u, Slot(100, READ));
  }

  /** 150 contexts at their fds, only fd 100 in use. */
  predicate Unregistered(t: Table) {
    && |t.contexts| == 150 && |t.vector| == 150
    && forall i :: 0 <= i < 150 ==> t.vector[i] == i && (i != 100 ==> t.contexts[i] == Unused(i))
  }

  lemma CutBack(t2: Table, t: Table, u: Work, v: Work)
    requires Valid(t2) && Unregistered(t2) && 100 in t2.kernel && Holds(t2, Slot(100, READ), u) && t == GrowFor(t2, 40)
    ensures Valid(t) && 100 in t.kernel && t.pending == t2.pending && Holds(t, Slot(100, READ), u)
    ensures Locate(t, 100) == None && TotalBits(Seen(t.contexts, t.vector)) == 0
    ensures forall at: nat :: Locate(GrowFor(t, 100), 100) == Some(at) ==>
              !AddEvent(GrowFor(t, 100), at, READ, v, true).ok
  {
    ResizeKeeps(t2, 60);
    assert t == t2.(vector := t2.vector[..60]);
    NoBitsSums(Seen(t.contexts, t.vector));
    RefusedAgain(t, GrowFor(t, 100), v);
  }

  lemma RefusedAgain(t: Table, r: Table, v: Work)
    requires |t.vector| == 60 && r == GrowFor(t, 100) && 100 in t.kernel
    ensures forall at: nat :: Locate(r, 100) == Some(at) ==> at < |r.contexts| && !AddEvent(r, at, READ, v, true).ok
  {
    assert r.vector[100] == |t.contexts| + 40;
    assert r.contexts[|t.contexts| + 40] == Unused(100);
  }

  lemma FirstGrow(t1: Table)
    requires t1 == GrowFor(Initial(), 100)
    ensures |t1.contexts| == 150 && |t1.vector| == 150 && t1.kernel == map[] && t1.pending == 0
    ensures forall i :: 0 <= i < 150 ==> t1.contexts[i] == Unused(i) && t1.vector[i] == i
  {
  }
}
