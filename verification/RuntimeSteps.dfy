// How the elementary moves of the runtime act on the fiber invariant.

module RuntimeSteps {
  import opened Base
  import opened FiberTypes
  import opened Runtime
  import opened RuntimeInvariant

  lemma SameReservations(j: seq<Worker>, k: seq<Worker>)
    requires |j| == |k| && forall w :: 0 <= w < |j| ==> j[w].cbFiber == k[w].cbFiber
    ensures forall f: FiberId :: ReservedIn(j, f) == ReservedIn(k, f)
  {
    forall f: FiberId ensures ReservedIn(j, f) == ReservedIn(k, f) {
      if ReservedIn(j, f) {
        var w :| 0 <= w < |j| && j[w].cbFiber == Some(f);
        assert k[w].cbFiber == Some(f);
      }
      if ReservedIn(k, f) {
        var w :| 0 <= w < |k| && k[w].cbFiber == Some(f);
        assert j[w].cbFiber == Some(f);
      }
    }
  }

  /** Workers may move between positions in which no fiber is current. */
  lemma MoveWorker(v: View, w: nat, k: Worker)
    requires Shape(v) && w < |v.workers| && !v.workers[w].phase.Running? && !k.phase.Running?
    requires k.cbFiber == v.workers[w].cbFiber && GoodWorker(v.fibers, k)
    requires forall u :: 0 <= u < |v.workers| && u != w ==> Apart(k, v.workers[u]) && Apart(v.workers[u], k)
    ensures Shape(v.(workers := v.workers[w := k]))
  {
    var v' := v.(workers := v.workers[w := k]);
    SameReservations(v.workers, v'.workers);
    forall f: FiberId ensures GoodFiber(v', f) { assert GoodFiber(v, f); }
    forall f: FiberId ensures GoodRegistration(v', f) { assert GoodRegistration(v, f); }
    forall f | f in v'.fibers && v'.fibers[f].state == EXEC ensures HasWorker(v', f) {
      assert HasWorker(v, f);
      var u: nat :| RunningOn(v.workers, u, f);
      assert RunningOn(v'.workers, u, f);
    }
  }

  /** Outstanding work may move about and change as long as every fiber keeps its tokens. */
  lemma SameTokens(v: View, pool: multiset<Work>, kept: multiset<Work>)
    requires Shape(v) && kept <= v.kept
    requires forall f: FiberId :: TokensIn(pool, f) == TokensIn(v.pool, f)
    ensures Shape(v.(pool := pool, kept := kept))
  {
    var v' := v.(pool := pool, kept := kept);
    forall f: FiberId ensures GoodFiber(v', f) { assert GoodFiber(v, f); }
    forall f: FiberId ensures GoodRegistration(v', f) { assert GoodRegistration(v, f); }
    forall f | f in v'.fibers && v'.fibers[f].state == EXEC ensures HasWorker(v', f) {
      assert HasWorker(v, f);
    }
  }

  /** swapIn on a picked fiber: its one token is consumed. */
  lemma SwapIn(v: View, w: nat, g: FiberId, pool: multiset<Work>)
    requires Shape(v) && w < |v.workers| && v.workers[w].phase == Picked(FiberWork(g))
    requires v.pool == pool + multiset{FiberWork(g)} && v.kept <= pool
    requires g in v.fibers && v.fibers[g].state != TERM && v.fibers[g].state != EXCEPT
    ensures Shape(v.(fibers := v.fibers[g := Fiber(EXEC, Awake(v.fibers[g].pc))],
                     workers := v.workers[w := v.workers[w].(phase := Running(g, None))], pool := pool))
  {
    var v' := v.(fibers := v.fibers[g := Fiber(EXEC, Awake(v.fibers[g].pc))],
                 workers := v.workers[w := v.workers[w].(phase := Running(g, None))], pool := pool);
    SameReservations(v.workers, v'.workers);
    assert GoodFiber(v, g) && GoodRegistration(v, g);
    assert GoodWorker(v.fibers, v.workers[w]);
    assert FiberWork(g) !in v.kept by {
      assert pool[FiberWork(g)] == 0;
    }
    forall f: FiberId ensures GoodFiber(v', f) { assert GoodFiber(v, f); }
    forall f: FiberId ensures GoodRegistration(v', f) { assert GoodRegistration(v, f); }
    forall u | 0 <= u < |v'.workers| ensures GoodWorker(v'.fibers, v'.workers[u]) {
      assert GoodWorker(v.fibers, v.workers[u]);
    }
    forall i, j | 0 <= i < |v'.workers| && 0 <= j < |v'.workers| && i != j ensures Apart(v'.workers[i], v'.workers[j]) {
      assert Apart(v.workers[i], v.workers[j]);
      assert GoodWorker(v.fibers, v.workers[i]) && GoodWorker(v.fibers, v.workers[j]);
    }
    forall f | f in v'.fibers && v'.fibers[f].state == EXEC ensures HasWorker(v', f) {
      if f == g {
        assert RunningOn(v'.workers, w, f);
      } else {
        assert HasWorker(v, f);
        var u: nat :| RunningOn(v.workers, u, f);
        assert RunningOn(v'.workers, u, f);
      }
    }
  }

  /** A fiber that has ended is skipped: its token is consumed, nothing runs. */
  lemma SkipEnded(v: View, w: nat, g: FiberId, pool: multiset<Work>)
    requires Shape(v) && w < |v.workers| && v.workers[w].phase == Picked(FiberWork(g))
    requires v.pool == pool + multiset{FiberWork(g)} && v.kept <= pool
    requires g in v.fibers && (v.fibers[g].state == TERM || v.fibers[g].state == EXCEPT)
    ensures Shape(v.(workers := v.workers[w := v.workers[w].(phase := Head)], pool := pool))
  {
    var v' := v.(workers := v.workers[w := v.workers[w].(phase := Head)], pool := pool);
    SameReservations(v.workers, v'.workers);
    forall f: FiberId ensures GoodFiber(v', f) { assert GoodFiber(v, f); }
    forall f: FiberId ensures GoodRegistration(v', f) { assert GoodRegistration(v, f); }
    forall u | 0 <= u < |v'.workers| ensures GoodWorker(v'.fibers, v'.workers[u]) {
      assert GoodWorker(v.fibers, v.workers[u]);
    }
    forall f | f in v'.fibers && v'.fibers[f].state == EXEC ensures HasWorker(v', f) {
      assert HasWorker(v, f);
      var u: nat :| RunningOn(v.workers, u, f);
      assert RunningOn(v'.workers, u, f);
    }
  }

  lemma OneMoreReservation(j: seq<Worker>, k: seq<Worker>, w: nat, g: FiberId)
    requires w < |j| && |j| == |k| && j[w].cbFiber in {None, Some(g)} && k[w].cbFiber == Some(g)
    requires forall u :: 0 <= u < |j| && u != w ==> j[u].cbFiber == k[u].cbFiber
    ensures forall f: FiberId :: ReservedIn(k, f) == (ReservedIn(j, f) || f == g)
  {
    forall f: FiberId ensures ReservedIn(k, f) == (ReservedIn(j, f) || f == g) {
      if ReservedIn(j, f) {
        var u :| 0 <= u < |j| && j[u].cbFiber == Some(f);
        assert k[u].cbFiber == Some(f);
      }
      if ReservedIn(k, f) {
        var u :| 0 <= u < |k| && k[u].cbFiber == Some(f);
        if u != w { assert j[u].cbFiber == Some(f); }
      }
      if f == g { assert k[w].cbFiber == Some(f); }
    }
  }

  /** A callback starts on the worker's callback fiber g: its own one, which is in INIT with
      no token, or a new one. */
  lemma StartCallback(v: View, w: nat, g: FiberId, cb: Callback, pool: multiset<Work>)
    requires Shape(v) && w < |v.workers| && v.workers[w].phase == Picked(CallbackWork(cb))
    requires v.workers[w].cbFiber == Some(g) || (v.workers[w].cbFiber == None && g !in v.fibers)
    requires forall u :: 0 <= u < |v.workers| ==> v.workers[u].phase != Picked(FiberWork(g))
    requires forall f: FiberId :: TokensIn(pool, f) == TokensIn(v.pool, f)
    ensures Shape(v.(fibers := v.fibers[g := Fiber(EXEC, Code)],
                     workers := v.workers[w := Worker(Running(g, BodyOf(cb)), Some(g), v.workers[w].idleDone)], pool := pool))
  {
    var k := Worker(Running(g, BodyOf(cb)), Some(g), v.workers[w].idleDone);
    var v' := v.(fibers := v.fibers[g := Fiber(EXEC, Code)], workers := v.workers[w := k], pool := pool);
    OneMoreReservation(v.workers, v'.workers, w, g);
    assert GoodFiber(v, g) && GoodRegistration(v, g);
    assert GoodWorker(v.fibers, v.workers[w]);
    assert v.workers[w].cbFiber == Some(g) ==> ReservedIn(v.workers, g);
    forall f: FiberId ensures GoodFiber(v', f) { assert GoodFiber(v, f); }
    forall f: FiberId ensures GoodRegistration(v', f) { assert GoodRegistration(v, f); }
    forall u | 0 <= u < |v'.workers| ensures GoodWorker(v'.fibers, v'.workers[u]) {
      assert GoodWorker(v.fibers, v.workers[u]);
      if u != w {
        assert Apart(v.workers[w], v.workers[u]);
      }
    }
    forall i, j | 0 <= i < |v'.workers| && 0 <= j < |v'.workers| && i != j ensures Apart(v'.workers[i], v'.workers[j]) {
      assert Apart(v.workers[i], v.workers[j]);
      assert GoodWorker(v.fibers, v.workers[i]) && GoodWorker(v.fibers, v.workers[j]);
    }
    forall f | f in v'.fibers && v'.fibers[f].state == EXEC ensures HasWorker(v', f) {
      if f == g {
        assert RunningOn(v'.workers, w, f);
      } else {
        assert HasWorker(v, f);
        var u: nat :| RunningOn(v.workers, u, f);
        assert RunningOn(v'.workers, u, f);
      }
    }
  }

  /** The running fiber f on worker w moves on inside its own code: its pc changes, and with it
      the pool, the registrations and the dropped set, as long as only f's tokens change and f
      ends up in order. */
  lemma Continue(v: View, w: nat, pc: Pc, pool: multiset<Work>, kept: multiset<Work>)
    requires Shape(v) && w < |v.workers| && v.workers[w].phase.Running? && v.workers[w].phase.body == None
    requires var f := v.workers[w].phase.fiber;
      && (forall h: FiberId :: h != f ==> TokensIn(pool, h) == TokensIn(v.pool, h))
      && FiberOk(Fiber(EXEC, pc), TokensIn(pool, f), f in v.dropped, false)
      && (kept <= v.kept || (kept == v.kept + multiset{FiberWork(f)} && pc.Registered?))
      && (FiberWork(f) in v.kept ==> pc.Registered?)
    ensures var f := v.workers[w].phase.fiber;
      Shape(v.(fibers := v.fibers[f := Fiber(EXEC, pc)], pool := pool, kept := kept))
  {
    var g := v.workers[w].phase.fiber;
    var v' := v.(fibers := v.fibers[g := Fiber(EXEC, pc)], pool := pool, kept := kept);
    assert GoodWorker(v.fibers, v.workers[w]);
    assert GoodFiber(v, g);
    forall f: FiberId ensures GoodFiber(v', f) { assert GoodFiber(v, f); }
    forall f: FiberId ensures GoodRegistration(v', f) { assert GoodRegistration(v, f); }
    forall u | 0 <= u < |v'.workers| ensures GoodWorker(v'.fibers, v'.workers[u]) {
      assert GoodWorker(v.fibers, v.workers[u]);
      if u != w { assert Apart(v.workers[u], v.workers[w]); }
    }
    forall f | f in v'.fibers && v'.fibers[f].state == EXEC ensures HasWorker(v', f) {
      assert HasWorker(v, f);
    }
  }

  lemma OneLessReservation(j: seq<Worker>, k: seq<Worker>, w: nat, g: FiberId)
    requires w < |j| && |j| == |k| && j[w].cbFiber == Some(g) && k[w].cbFiber == None
    requires forall u :: 0 <= u < |j| && u != w ==> j[u].cbFiber == k[u].cbFiber && j[u].cbFiber != Some(g)
    ensures forall f: FiberId :: ReservedIn(k, f) == (ReservedIn(j, f) && f != g)
  {
    forall f: FiberId ensures ReservedIn(k, f) == (ReservedIn(j, f) && f != g) {
      if ReservedIn(j, f) && f != g {
        var u :| 0 <= u < |j| && j[u].cbFiber == Some(f);
        assert k[u].cbFiber == Some(f);
      }
      if ReservedIn(k, f) {
        var u :| 0 <= u < |k| && k[u].cbFiber == Some(f);
        assert j[u].cbFiber == Some(f);
      }
    }
  }

  /** Return from swapIn: the running fiber g leaves its worker with the final state and pc
      that the bookkeeping gives it, and the worker forgets its callback fiber if that is g
      and g has not ended. */
  lemma Leave(v: View, w: nat, st: FiberState, pc: Pc, pool: multiset<Work>, forget: bool)
    requires Shape(v) && w < |v.workers| && v.workers[w].phase.Running? && v.workers[w].phase.body == None
    requires st != EXEC
    requires var g := v.workers[w].phase.fiber;
      var mine := v.workers[w].cbFiber == Some(g);
      && (forall h: FiberId :: h != g ==> TokensIn(pool, h) == TokensIn(v.pool, h))
      && forget == (mine && st != INIT)
      && (st == INIT ==> mine)
      && FiberOk(Fiber(st, pc), TokensIn(pool, g), g in v.dropped, st == INIT)
      && (FiberWork(g) in v.kept ==> pc.Waiting?)
    ensures var g := v.workers[w].phase.fiber;
      Shape(v.(fibers := v.fibers[g := Fiber(st, pc)], pool := pool,
               workers := v.workers[w := Worker(Head, if forget then None else v.workers[w].cbFiber, v.workers[w].idleDone)]))
  {
    var g := v.workers[w].phase.fiber;
    var k := Worker(Head, if forget then None else v.workers[w].cbFiber, v.workers[w].idleDone);
    var v' := v.(fibers := v.fibers[g := Fiber(st, pc)], pool := pool, workers := v.workers[w := k]);
    assert GoodWorker(v.fibers, v.workers[w]);
    forall u | 0 <= u < |v.workers| && u != w ensures v.workers[u].cbFiber != Some(g) {
      assert Apart(v.workers[u], v.workers[w]);
      assert GoodWorker(v.fibers, v.workers[u]);
    }
    if forget { OneLessReservation(v.workers, v'.workers, w, g); } else { SameReservations(v.workers, v'.workers); }
    assert ReservedIn(v.workers, g) ==> v.workers[w].cbFiber == Some(g);
    forall f: FiberId ensures GoodFiber(v', f) { assert GoodFiber(v, f); }
    forall f: FiberId ensures GoodRegistration(v', f) { assert GoodRegistration(v, f); }
    forall u | 0 <= u < |v'.workers| ensures GoodWorker(v'.fibers, v'.workers[u]) {
      assert GoodWorker(v.fibers, v.workers[u]);
      if u != w { assert Apart(v.workers[u], v.workers[w]); }
    }
    forall i, j | 0 <= i < |v'.workers| && 0 <= j < |v'.workers| && i != j ensures Apart(v'.workers[i], v'.workers[j]) {
      assert Apart(v.workers[i], v.workers[j]);
    }
    forall f | f in v'.fibers && v'.fibers[f].state == EXEC ensures HasWorker(v', f) {
      assert HasWorker(v, f);
      var u: nat :| RunningOn(v.workers, u, f);
      assert RunningOn(v'.workers, u, f);
    }
  }

  /** A fiber without tokens gets one, whatever it is doing; a round that had lost its
      registration is rescued. */
  lemma QueueFiber(v: View, g: FiberId)
    requires Shape(v) && g in v.fibers && TokensIn(v.pool, g) == 0
    requires ReservedIn(v.workers, g) ==> v.fibers[g].state == EXEC
    ensures Shape(v.(pool := v.pool + multiset{FiberWork(g)}, dropped := v.dropped - {g}))
  {
    var v' := v.(pool := v.pool + multiset{FiberWork(g)}, dropped := v.dropped - {g});
    forall f: FiberId ensures GoodFiber(v', f) { assert GoodFiber(v, f); }
    forall f: FiberId ensures GoodRegistration(v', f) { assert GoodRegistration(v, f); }
    forall f | f in v'.fibers && v'.fibers[f].state == EXEC ensures HasWorker(v', f) { assert HasWorker(v, f); }
  }

  /** A new fiber is created and queued. */
  lemma Create(v: View, g: FiberId)
    requires Shape(v) && g !in v.fibers
    ensures Shape(v.(fibers := v.fibers[g := Fiber(INIT, Code)], pool := v.pool + multiset{FiberWork(g)}))
  {
    var v' := v.(fibers := v.fibers[g := Fiber(INIT, Code)], pool := v.pool + multiset{FiberWork(g)});
    forall f: FiberId ensures GoodFiber(v', f) { assert GoodFiber(v, f); }
    forall f: FiberId ensures GoodRegistration(v', f) { assert GoodRegistration(v, f); }
    forall u | 0 <= u < |v'.workers| ensures GoodWorker(v'.fibers, v'.workers[u]) {
      assert GoodWorker(v.fibers, v.workers[u]);
    }
    forall f | f in v'.fibers && v'.fibers[f].state == EXEC ensures HasWorker(v', f) { assert HasWorker(v, f); }
  }

  /** delEvent throws away one registration: a do_io round loses its token, and the loss is
      recorded. */
  lemma Drop(v: View, pool: multiset<Work>, kept: multiset<Work>, u: Work)
    requires Shape(v) && v.pool == pool + multiset{u} && v.kept == kept + multiset{u}
    ensures Shape(v.(pool := pool, kept := kept, dropped := v.dropped + (if u.FiberWork? then {u.fiber} else {})))
  {
    var v' := v.(pool := pool, kept := kept, dropped := v.dropped + (if u.FiberWork? then {u.fiber} else {}));
    assert u in v.kept;
    if u.FiberWork? { assert GoodRegistration(v, u.fiber) && GoodFiber(v, u.fiber); }
    forall f: FiberId ensures GoodFiber(v', f) { assert GoodFiber(v, f) && GoodRegistration(v, f); }
    forall f: FiberId ensures GoodRegistration(v', f) { assert GoodRegistration(v, f); }
    forall f | f in v'.fibers && v'.fibers[f].state == EXEC ensures HasWorker(v', f) { assert HasWorker(v, f); }
  }

  /** A timer body has done its part. */
  lemma BodyDone(v: View, w: nat, pool: multiset<Work>)
    requires Shape(v) && w < |v.workers| && v.workers[w].phase.Running?
    requires forall f: FiberId :: TokensIn(pool, f) == TokensIn(v.pool, f)
    ensures Shape(v.(workers := v.workers[w := v.workers[w].(phase := Running(v.workers[w].phase.fiber, None))], pool := pool))
  {
    var k := v.workers[w].(phase := Running(v.workers[w].phase.fiber, None));
    var v' := v.(workers := v.workers[w := k], pool := pool);
    SameReservations(v.workers, v'.workers);
    forall f: FiberId ensures GoodFiber(v', f) { assert GoodFiber(v, f); }
    forall f: FiberId ensures GoodRegistration(v', f) { assert GoodRegistration(v, f); }
    forall u | 0 <= u < |v'.workers| ensures GoodWorker(v'.fibers, v'.workers[u]) {
      assert GoodWorker(v.fibers, v.workers[u]);
    }
    forall i, j | 0 <= i < |v'.workers| && 0 <= j < |v'.workers| && i != j ensures Apart(v'.workers[i], v'.workers[j]) {
      assert Apart(v.workers[i], v.workers[j]);
    }
    forall f | f in v'.fibers && v'.fibers[f].state == EXEC ensures HasWorker(v', f) {
      assert HasWorker(v, f);
      var u: nat :| RunningOn(v.workers, u, f);
      assert RunningOn(v'.workers, u, f);
    }
  }

  /** A registered user callback is nobody's token. */
  lemma MoreCallbacks(v: View, pool: multiset<Work>, kept: multiset<Work>, u: Work, more: multiset<Work>)
    requires Shape(v) && u.CallbackWork? && !u.cb.WakeFiber? && (more == multiset{} || more == multiset{u})
    requires pool == v.pool + more && kept == v.kept + more
    ensures Shape(v.(pool := pool, kept := kept))
  {
    var v' := v.(pool := pool, kept := kept);
    forall f: FiberId ensures GoodFiber(v', f) { assert GoodFiber(v, f); }
    forall f: FiberId ensures GoodRegistration(v', f) { assert GoodRegistration(v, f); }
    forall f | f in v'.fibers && v'.fibers[f].state == EXEC ensures HasWorker(v', f) { assert HasWorker(v, f); }
  }
}
