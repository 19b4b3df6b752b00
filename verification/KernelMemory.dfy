/** The memory of an operation. A coroutine hands the kernel the address of a buffer that lives in its
    own frame, or in the frame of a coroutine that waits for it. Under epoll the event loop touches it,
    between its test of running_ and the callback; under uring the kernel does, whenever it likes, until
    the operation completes. */
module KernelMemory {
  import opened Program
  import opened Frames
  import opened Invariant
  import Mirror
  import opened Runs
  import opened SuspendedChains
  import opened AsyncIo
  import opened Pool
  import B = Backends
  import J = JointSystem
  import U = Uring
  import UP = UringProofs

  // ---- What a ring and the kernel behind it hold ----

  /** Context `c` carries the request `q`, and the kernel still needs its memory. The address that a
      connect passes is copied when its entry is taken. */
  ghost predicate Holds(u: U.Instance, c: Ctx, q: Req) {
    && c in u.pool.content && u.pool.content[c] == Content(q.op, Some(q.id))
    && (c in u.sq || (c in u.kernel && !q.op.event.Connect?))
  }

  /** ... and it may use it in this very moment. */
  ghost predicate Uses(u: U.Instance, c: Ctx, q: Req) {
    && c in u.pool.content && u.pool.content[c] == Content(q.op, Some(q.id))
    && ((c in u.kernel && !q.op.event.Connect?) || (u.sq != [] && c == u.sq[0] && q.op.event.Connect?))
  }

  ghost predicate HoldsAt(s: B.Instance, c: Ctx, q: Req) {
    s.Uringing? && Holds(s.u, c, q)
  }

  ghost predicate UsesAt(s: B.Instance, c: Ctx, q: Req) {
    s.Uringing? && Uses(s.u, c, q)
  }

  /** The kernel holds the request `q`, in some ring. */
  ghost predicate KernelHas(inst: seq<B.Instance>, q: Req) {
    exists i, c :: 0 <= i < |inst| && HoldsAt(inst[i], c, q)
  }

  lemma HeldOutside(u: U.Instance, c: Ctx, q: Req)
    requires U.Good(u) && Holds(u, c, q)
    ensures c !in u.pool.entering && c !in u.cq && U.Live(u, c) && U.Held(u, c) == q && q in U.Pending(u)
  {
    UP.SpotMeaning(u, c);
    UP.OneSpot(u, c, if c in u.sq then U.Queued else U.InKernel);
  }

  lemma HeldNotEntering(s: B.Instance, c: Ctx, q: Req)
    requires B.Sound(s) && HoldsAt(s, c, q)
    ensures q in B.Pending(s) && q !in B.Entering(s)
  {
    HeldOutside(s.u, c, q);
    forall d | d in s.u.pool.entering ensures s.u.pool.entering[d].req != q {
      assert U.Live(s.u, d) && U.Live(s.u, c);
    }
  }

  /** What the loop takes, the kernel has finished with. */
  lemma ServedNotHeld(s: B.Instance, c: Ctx, q: Req)
    requires B.Sound(s) && HoldsAt(s, c, q) && B.HasNext(s)
    ensures q != B.NextReq(s)
  {
    HeldOutside(s.u, c, q);
    assert U.Live(s.u, s.u.cq[0]);
  }

  lemma ReleasedNotHeld(u: U.Instance, d: Ctx, c: Ctx, q: Req)
    requires d in u.pool.content && Holds(u.(pool := Release(u.pool, d)), c, q)
    ensures Holds(u, c, q)
  {
  }

  lemma RingKeeps(u: U.Instance, e: U.Event, c: Ctx, q: Req)
    requires U.Good(u) && U.Enabled(u, e) && Holds(U.Next(u, e), c, q)
    ensures Holds(u, c, q) || (e == U.Queue(c) && c in u.pool.entering && u.pool.entering[c].req == q)
  {
    if e.Filling? { UP.InPool(u, e.c); }
  }

  lemma UringMoves(s: B.Instance, e: B.Event)
    requires s.Uringing? && B.Enabled(s, e)
    ensures B.UringEvent(e).Some? && U.Enabled(s.u, B.UringEvent(e).value)
    ensures B.Next(s, e) == B.Uringing(U.Next(s.u, B.UringEvent(e).value))
    ensures forall c :: B.UringEvent(e).value == U.Queue(c) ==> e == B.Register(c)
  {
  }

  /** Only a thread that queues its entry gives the kernel something new to hold. */
  lemma InstanceKeeps(s: B.Instance, e: B.Event, c: Ctx, q: Req)
    requires B.Sound(s) && B.Enabled(s, e) && HoldsAt(B.Next(s, e), c, q)
    ensures HoldsAt(s, c, q) || (e == B.Register(c) && c in B.PoolOf(s).entering && B.PoolOf(s).entering[c].req == q)
  {
    UringMoves(s, e);
    RingKeeps(s.u, B.UringEvent(e).value, c, q);
  }

  lemma StopKeepsHolding(s: B.Instance, c: Ctx, q: Req)
    requires B.Enabled(s, B.Stop) && HoldsAt(B.Next(s, B.Stop), c, q)
    ensures HoldsAt(s, c, q)
  {
  }

  // ---- The joint system with the kernel's memory ----

  /** `waiter` remembers which frame made each request; `wild` that memory of a destroyed frame was
      used. */
  datatype Machine = Machine(j: J.System, waiter: map<nat, Id>, wild: bool)

  datatype Act =
    | Moves(e: J.Event)
    | Accesses(h: Id)   // the memory of frame h's operation is read or written

  /** Under epoll, do_io of the loop that is about to call back; under uring, the kernel. */
  ghost predicate MayAccess(m: Machine, h: Id) {
    || (h in m.j.w.calling && exists i :: 0 <= i < |m.j.inst| && m.j.inst[i].Epolling?)
    || (exists i, c, q :: 0 <= i < |m.j.inst| && UsesAt(m.j.inst[i], c, q) && q.id in m.waiter && m.waiter[q.id] == h)
  }

  /** The kernel holds no memory of a coroutine that destroy_all would destroy. */
  ghost predicate BuffersFree(m: Machine) {
    forall q :: KernelHas(m.j.inst, q) && q.id in m.waiter && m.waiter[q.id] in m.j.w.frames ==>
      m.j.w.frames[m.waiter[q.id]].root !in m.j.w.registry
  }

  ghost predicate IsDestroyAll(e: J.Event) {
    e.Plain? && e.act.DestroyAll?
  }

  ghost predicate Can(m: Machine, a: Act) {
    match a
    case Moves(e) => J.Can(m.j, e) && J.Polite(m.j, e) && (IsDestroyAll(e) ==> BuffersFree(m))
    case Accesses(h) => MayAccess(m, h)
  }

  ghost function Acted(code: Code, m: Machine, a: Act): Machine
    requires Can(m, a)
  {
    match a
    case Moves(e) =>
      m.(j := J.After(code, m.j, e), waiter := if e.Enters? then m.waiter[m.j.nextTag := e.h] else m.waiter)
    case Accesses(h) => m.(wild := m.wild || h !in m.j.w.frames)
  }

  /** From `m`, these acts lead to `t`. */
  ghost predicate ActsLead(code: Code, m: Machine, acts: seq<Act>, t: Machine)
    decreases |acts|
  {
    if acts == [] then t == m else Can(m, acts[0]) && ActsLead(code, Acted(code, m, acts[0]), acts[1..], t)
  }

  ghost predicate Started(m: Machine) {
    J.Initial(m.j) && m.waiter == map[] && !m.wild
  }

  // ---- What every act keeps ----

  /** A frame is suspended, and no thread is about to submit or to resume it. */
  ghost predicate Resting(w: World, h: Id) {
    h in w.frames && w.frames[h].status.InIo? && h !in w.submitting && h !in w.calling
  }

  /** The waiters of all requests made so far are known. */
  ghost predicate Known(m: Machine) {
    && (forall id: nat :: id < m.j.nextTag ==> id in m.waiter)
    && (forall h :: h in m.j.begun ==> m.j.begun[h].id in m.waiter && m.waiter[m.j.begun[h].id] == h)
    && (forall h :: h in m.j.flying ==> m.j.flying[h].id in m.waiter && m.waiter[m.j.flying[h].id] == h)
  }

  /** What the kernel holds belongs to a frame that rests. */
  ghost predicate Guarded(m: Machine) {
    forall q :: KernelHas(m.j.inst, q) ==> q.id in m.waiter && Resting(m.j.w, m.waiter[q.id])
  }

  ghost predicate Safe(code: Code, m: Machine) {
    Inv(code, m.j.w) && J.BackendOk(m.j) && Known(m) && Guarded(m) && !m.wild
  }

  /** The instance that a step moves, and how. */
  ghost function InstanceStep(j: J.System, e: J.Event): Option<(nat, B.Event)>
    requires J.Can(j, e)
  {
    match e
    case Enters(h, c) => Some((B.ShardOf(j.w.submitting[h].fd), B.Enter(Req(j.nextTag, j.w.submitting[h]), c)))
    case Inside(i, f) => Some((i, f))
    case Registers(h, c) => Some((J.ShardOfReq(j.begun[h]), B.Register(c)))
    case Refuses(h, c, err) => Some((J.ShardOfReq(j.begun[h]), B.Fail(c, err)))
    case Handles(i, _, res) => Some((i, B.Serve(res)))
    case Frees(i, _) => Some((i, B.Serve(0)))
    case _ => None
  }

  lemma OneInstanceMoves(code: Code, j: J.System, e: J.Event)
    requires J.Can(j, e) && !e.Stops?
    ensures InstanceStep(j, e).None? ==> J.After(code, j, e).inst == j.inst
    ensures InstanceStep(j, e).Some? ==>
              var (i, f) := InstanceStep(j, e).value;
              i < |j.inst| && B.Enabled(j.inst[i], f) && J.After(code, j, e).inst == j.inst[i := B.Next(j.inst[i], f)]
  {
  }

  lemma SoundHere(j: J.System, i: nat)
    requires J.BackendOk(j) && i < |j.inst|
    ensures B.Sound(j.inst[i]) && |j.inst| == B.NUM_INSTANCES
  {
    assert J.InstanceOk(j.inst[i], i, j.begun, j.flying, j.w.running, j.nextTag);
  }

  lemma StopMoves(code: Code, j: J.System)
    requires J.Can(j, J.Stops)
    ensures forall i :: 0 <= i < |j.inst| ==> B.Enabled(j.inst[i], B.Stop)
    ensures J.After(code, j, J.Stops).inst
            == seq(|j.inst|, i requires 0 <= i < |j.inst| => B.Next(j.inst[i], B.Stop))
  {
  }

  lemma StopKeepsKernel(code: Code, j: J.System, q: Req)
    requires J.Can(j, J.Stops) && KernelHas(J.After(code, j, J.Stops).inst, q)
    ensures KernelHas(j.inst, q)
  {
    StopMoves(code, j);
    var inst' := J.After(code, j, J.Stops).inst;
    var i, c :| 0 <= i < |inst'| && HoldsAt(inst'[i], c, q);
    StopKeepsHolding(j.inst[i], c, q);
  }

  lemma OneKeepsKernel(inst: seq<B.Instance>, i: nat, f: B.Event, q: Req)
    requires i < |inst| && B.Sound(inst[i]) && B.Enabled(inst[i], f) && KernelHas(inst[i := B.Next(inst[i], f)], q)
    ensures KernelHas(inst, q) || exists c :: f == B.Register(c) && c in B.PoolOf(inst[i]).entering
                                              && B.PoolOf(inst[i]).entering[c].req == q
  {
    var inst' := inst[i := B.Next(inst[i], f)];
    var k, c :| 0 <= k < |inst'| && HoldsAt(inst'[k], c, q);
    if k == i { InstanceKeeps(inst[i], f, c, q); } else { assert HoldsAt(inst[k], c, q); }
  }

  /** The kernel comes to hold a request only when the thread of its coroutine queues it. */
  lemma KernelKept(code: Code, j: J.System, e: J.Event, q: Req)
    requires J.BackendOk(j) && J.Can(j, e) && KernelHas(J.After(code, j, e).inst, q)
    ensures KernelHas(j.inst, q) || (e.Registers? && q == j.begun[e.h])
  {
    if e.Stops? {
      StopKeepsKernel(code, j, q);
    } else {
      OneInstanceMoves(code, j, e);
      if InstanceStep(j, e).Some? {
        var (i, f) := InstanceStep(j, e).value;
        SoundHere(j, i);
        OneKeepsKernel(j.inst, i, f, q);
      }
    }
  }

  // ---- Frames that rest ----

  /** What a step adds to the frames inside async_io and to those that are called back. */
  ghost predicate Adds(w: World, w': World, called: Option<Id>) {
    && (forall h :: h in w'.submitting ==> h in w.submitting || (h in w.frames && w.frames[h].status.Running?))
    && (forall h :: h in w'.calling ==> h in w.calling || Some(h) == called)
  }

  lemma SubmitAdds(w: World, h: Id)
    requires h in w.submitting
    ensures Adds(w, SubmitOp(w, h), None)
  {
  }

  lemma BookStepAdds(code: Code, w: World, e: Frames.Event)
    requires Frames.Enabled(w, e) && (e.Harvest? || e.Discard? || e.Stop? || e.Join?)
    ensures Adds(w, Frames.Next(code, w, e), if e.Harvest? then Some(e.h) else None)
  {
    match e
    case Harvest(_, _) => case Discard(_) => case Stop => case Join =>
  }

  lemma RefusalAdds(code: Code, w: World, h: Id, err: nat)
    requires Inv(code, w) && h in w.submitting
    ensures Adds(w, RefuseOp(w, h, err), None)
  {
    var t := J.RefusingThread(code, w, h, err);
    J.DeliverStay(w, h, Negative(err), t);
  }

  lemma StepAdds(code: Code, w: World, e: Frames.Event)
    requires Inv(code, w) && Legal(w, e)
    ensures Adds(w, Frames.Next(code, w, e), if e.Harvest? then Some(e.h) else None)
  {
    if J.IsPlain(e) {
      J.PlainStay(code, w, e);
    } else if e.Refuse? {
      RefusalAdds(code, w, e.h, e.err);
    } else if e.Submit? {
      SubmitAdds(w, e.h);
    } else {
      BookStepAdds(code, w, e);
    }
  }

  lemma NotEnding(w: World, e: Frames.Event, h: Id)
    requires Frames.Enabled(w, e) && Resting(w, h) && (e.DestroyAll? ==> w.frames[h].root !in w.registry)
    ensures !EndsSuspension(w, e, h)
  {
  }

  lemma StillRests(w: World, w': World, called: Option<Id>, h: Id)
    requires Resting(w, h) && SameFrame(w, w', h) && Adds(w, w', called) && called != Some(h)
    ensures Resting(w', h)
  {
  }

  lemma RestsOn(code: Code, w: World, e: Frames.Event, h: Id)
    requires Inv(code, w) && Legal(w, e) && Resting(w, h) && !(e.Harvest? && e.h == h)
    requires e.DestroyAll? ==> w.frames[h].root !in w.registry
    ensures Resting(Frames.Next(code, w, e), h)
  {
    NotEnding(w, e, h);
    OnlyResumptionEnds(code, w, e, h);
    StepAdds(code, w, e);
    StillRests(w, Frames.Next(code, w, e), if e.Harvest? then Some(e.h) else None, h);
  }

  /** A frame whose memory the kernel holds rests on, unless it is served or destroyed. */
  lemma RestsInSystem(code: Code, j: J.System, e: J.Event, h: Id)
    requires Inv(code, j.w) && J.Can(j, e) && Resting(j.w, h) && !(e.Handles? && e.h == h)
    requires IsDestroyAll(e) ==> j.w.frames[h].root !in j.w.registry
    ensures Resting(J.After(code, j, e).w, h)
  {
    J.WorldMoves(code, j, e);
    if J.WorldEvent(e).Some? { RestsOn(code, j.w, J.WorldEvent(e).value, h); }
  }

  /** A thread that has queued its entry leaves its frame resting. */
  lemma RestsAfterSubmit(code: Code, w: World, h: Id)
    requires Inv(code, w) && h in w.submitting
    ensures Resting(SubmitOp(w, h), h)
  {
    var chains: Mirror.ChainMap :| Kept(code, w, chains);
  }

  lemma ServedHere(code: Code, j: J.System, i: nat, h: Id, res: int)
    requires J.BackendOk(j) && J.Can(j, J.Handles(i, h, res))
    ensures i < |j.inst| && h in j.flying && B.Sound(j.inst[i]) && B.HasNext(j.inst[i])
    ensures j.flying[h] == B.NextReq(j.inst[i]) && J.ShardOfReq(j.flying[h]) == i && j.w.running
  {
    J.HandlesAfter(code, j, i, h, res);
    SoundHere(j, i);
    assert J.InstanceOk(j.inst[i], i, j.begun, j.flying, j.w.running, j.nextTag);
    B.ServeStep(j.inst[i], res);
  }

  lemma HeldFlies(j: J.System, k: nat, c: Ctx, q: Req)
    requires J.BackendOk(j) && j.w.running && k < |j.inst| && HoldsAt(j.inst[k], c, q)
    ensures q in j.flying.Values && J.ShardOfReq(q) == k
  {
    SoundHere(j, k);
    assert J.InstanceOk(j.inst[k], k, j.begun, j.flying, j.w.running, j.nextTag);
    HeldNotEntering(j.inst[k], c, q);
  }

  lemma OwnFlight(m: Machine, q: Req, h: Id)
    requires Known(m) && q in m.j.flying.Values && q.id in m.waiter && m.waiter[q.id] == h
    ensures h in m.j.flying && m.j.flying[h] == q
  {
    var x: Id :| x in m.j.flying && m.j.flying[x] == q;
  }

  lemma HeldNotNext(j: J.System, i: nat, k: nat, c: Ctx, q: Req)
    requires J.BackendOk(j) && j.w.running && i < |j.inst| && k < |j.inst| && HoldsAt(j.inst[k], c, q)
    requires B.Loaded(j.inst[i]) && B.HasNext(j.inst[i]) && J.ShardOfReq(B.NextReq(j.inst[i])) == i
    ensures q in j.flying.Values && q != B.NextReq(j.inst[i])
  {
    HeldFlies(j, k, c, q);
    if i == k {
      SoundHere(j, i);
      ServedNotHeld(j.inst[i], c, q);
    }
  }

  /** The loop serves no frame whose memory the kernel still holds. */
  lemma ServedFrameFree(code: Code, m: Machine, i: nat, h: Id, res: int, q: Req)
    requires J.BackendOk(m.j) && Known(m) && J.Can(m.j, J.Handles(i, h, res)) && KernelHas(m.j.inst, q)
    ensures !(q.id in m.waiter && m.waiter[q.id] == h)
  {
    ServedHere(code, m.j, i, h, res);
    var k, c :| 0 <= k < |m.j.inst| && HoldsAt(m.j.inst[k], c, q);
    HeldNotNext(m.j, i, k, c, q);
    if q.id in m.waiter && m.waiter[q.id] == h { OwnFlight(m, q, h); }
  }

  lemma OldGuarded(code: Code, m: Machine, e: J.Event, q: Req)
    requires Inv(code, m.j.w) && J.BackendOk(m.j) && Known(m) && Guarded(m) && Can(m, Moves(e))
             && KernelHas(m.j.inst, q)
    ensures q.id in m.waiter && Resting(J.After(code, m.j, e).w, m.waiter[q.id])
  {
    var h := m.waiter[q.id];
    if e.Handles? && e.h == h { ServedFrameFree(code, m, e.i, h, e.res, q); }
    RestsInSystem(code, m.j, e, h);
  }

  lemma NewGuarded(code: Code, m: Machine, h: Id, c: Ctx)
    requires Inv(code, m.j.w) && J.BackendOk(m.j) && Known(m) && J.Can(m.j, J.Registers(h, c))
    ensures h in m.j.begun && m.j.begun[h].id in m.waiter && m.waiter[m.j.begun[h].id] == h
    ensures Resting(J.After(code, m.j, J.Registers(h, c)).w, h)
  {
    J.RegistersAfter(code, m.j, h, c);
    RestsAfterSubmit(code, m.j.w, h);
  }

  /** A request keeps its waiter: new requests have new ids. */
  lemma WaiterKept(code: Code, m: Machine, e: J.Event, id: nat)
    requires J.BackendOk(m.j) && Can(m, Moves(e)) && id in m.waiter && (e.Enters? ==> id != m.j.nextTag)
    ensures var m' := Acted(code, m, Moves(e)); id in m'.waiter && m'.waiter[id] == m.waiter[id]
  {
  }

  lemma HeldIsOld(m: Machine, q: Req)
    requires J.BackendOk(m.j) && KernelHas(m.j.inst, q)
    ensures q.id < m.j.nextTag
  {
    var i, c :| 0 <= i < |m.j.inst| && HoldsAt(m.j.inst[i], c, q);
    SoundHere(m.j, i);
    assert J.InstanceOk(m.j.inst[i], i, m.j.begun, m.j.flying, m.j.w.running, m.j.nextTag);
    HeldNotEntering(m.j.inst[i], c, q);
    assert q in B.Abstract(m.j.inst[i]).pending;
    ServiceOf(m.j.inst[i]);
  }

  lemma ServiceOf(s: B.Instance)
    requires B.Sound(s)
    ensures ExactlyOnce(B.Abstract(s)) && B.Abstract(s).accepted == B.Ids(s)
  {
  }

  lemma GuardedStep(code: Code, m: Machine, e: J.Event)
    requires Inv(code, m.j.w) && J.BackendOk(m.j) && Known(m) && Guarded(m) && Can(m, Moves(e))
    ensures Guarded(Acted(code, m, Moves(e)))
  {
    var m' := Acted(code, m, Moves(e));
    forall q | KernelHas(m'.j.inst, q) ensures q.id in m'.waiter && Resting(m'.j.w, m'.waiter[q.id]) {
      KernelKept(code, m.j, e, q);
      if KernelHas(m.j.inst, q) {
        HeldIsOld(m, q);
        OldGuarded(code, m, e, q);
        WaiterKept(code, m, e, q.id);
      } else {
        NewGuarded(code, m, e.h, e.c);
      }
    }
  }

  /** Who has begun a request, and whose request flies, after a step: nobody new, but for Enters and
      Registers. */
  lemma BooksAfter(code: Code, j: J.System, e: J.Event)
    requires J.BackendOk(j) && J.Can(j, e)
    ensures var j' := J.After(code, j, e);
            && j'.nextTag == (if e.Enters? then j.nextTag + 1 else j.nextTag)
            && (forall h :: h in j'.begun ==>
                  (h in j.begun && j'.begun[h] == j.begun[h]) || (e.Enters? && h == e.h && j'.begun[h].id == j.nextTag))
            && (forall h :: h in j'.flying ==>
                  || (h in j.flying && j'.flying[h] == j.flying[h])
                  || (e.Registers? && h == e.h && h in j.begun && j'.flying[h] == j.begun[h]))
  {
  }

  lemma KnownBooks(m: Machine, m': Machine, made: Option<Id>)
    requires Known(m) && J.Tagged(m.j.begun, m.j.flying, m.j.nextTag)
    requires m'.waiter == (if made.Some? then m.waiter[m.j.nextTag := made.value] else m.waiter)
    requires m'.j.nextTag == if made.Some? then m.j.nextTag + 1 else m.j.nextTag
    requires forall h :: h in m'.j.begun ==>
               (h in m.j.begun && m'.j.begun[h] == m.j.begun[h]) || (made == Some(h) && m'.j.begun[h].id == m.j.nextTag)
    requires forall h :: h in m'.j.flying ==>
               (h in m.j.flying && m'.j.flying[h] == m.j.flying[h])
                 || (h in m.j.begun && m'.j.flying[h] == m.j.begun[h])
    ensures Known(m')
  {
  }

  lemma KnownStep(code: Code, m: Machine, e: J.Event)
    requires J.BackendOk(m.j) && Known(m) && Can(m, Moves(e))
    ensures Known(Acted(code, m, Moves(e)))
  {
    BooksAfter(code, m.j, e);
    KnownBooks(m, Acted(code, m, Moves(e)), if e.Enters? then Some(e.h) else None);
  }

  /** No access meets the memory of a destroyed frame. */
  lemma AccessIsSafe(code: Code, m: Machine, h: Id)
    requires Inv(code, m.j.w) && Guarded(m) && MayAccess(m, h)
    ensures h in m.j.w.frames
  {
    if h in m.j.w.calling {
      var chains: Mirror.ChainMap :| Kept(code, m.j.w, chains);
    } else {
      var i, c, q :| 0 <= i < |m.j.inst| && UsesAt(m.j.inst[i], c, q) && q.id in m.waiter && m.waiter[q.id] == h;
      assert HoldsAt(m.j.inst[i], c, q);
    }
  }

  lemma SafeStep(code: Code, m: Machine, a: Act)
    requires Safe(code, m) && Can(m, a)
    ensures Safe(code, Acted(code, m, a))
  {
    match a
    case Moves(e) =>
      J.SystemKeeps(code, m.j, e);
      KnownStep(code, m, e);
      GuardedStep(code, m, e);
    case Accesses(h) => AccessIsSafe(code, m, h);
  }

  lemma {:induction false} LeadsSafe(code: Code, m: Machine, acts: seq<Act>, t: Machine)
    requires Safe(code, m) && ActsLead(code, m, acts, t)
    ensures Safe(code, t)
    decreases |acts|
  {
    if acts != [] {
      SafeStep(code, m, acts[0]);
      LeadsSafe(code, Acted(code, m, acts[0]), acts[1..], t);
    }
  }

  lemma StartsSafe(code: Code, m: Machine)
    requires Started(m)
    ensures Safe(code, m)
  {
    J.EmptyInv(code);
    J.InitiallyOk(m.j);
    forall q | KernelHas(m.j.inst, q) ensures false { HeldIsOld(m, q); }
  }

  /** In every run whose destroy_all calls come at a safe moment: nobody touches the memory of a destroyed
      frame, and what the kernel holds belongs to a frame that is still suspended and that no thread is
      about to resume. */
  lemma MemoryIsAlive(code: Code, m: Machine, acts: seq<Act>, t: Machine, q: Req)
    requires Started(m) && ActsLead(code, m, acts, t)
    ensures !t.wild && !t.j.w.fault
    ensures KernelHas(t.j.inst, q) ==> q.id in t.waiter && Resting(t.j.w, t.waiter[q.id])
  {
    StartsSafe(code, m);
    LeadsSafe(code, m, acts, t);
    var chains: Mirror.ChainMap :| Kept(code, t.j.w, chains);
  }
}
