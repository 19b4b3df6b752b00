/** A detached coroutine that is merely suspended in its first operation, over uring: nothing refers to it
    any more but the kernel, and that is enough to make destroy_all harmful. */
module PendingRead {
  import opened Program
  import opened Chains
  import opened Frames
  import opened Shutdown
  import opened AsyncIo
  import opened Pool
  import opened KernelMemory
  import opened KernelShutdown
  import B = Backends
  import J = JointSystem
  import U = Uring

  function AllUring(): seq<B.Instance> {
    var s := B.Uringing(U.NEW_INSTANCE);
    [s, s, s, s]
  }

  function Beginning(): Machine {
    Machine(J.System(EMPTY_WORLD, AllUring(), map[], map[], 0), map[], false)
  }

  lemma ReachedStart(code: Code)
    ensures Reached(code, Beginning()) && J.BackendOk(Beginning().j)
  {
    assert ActsLead(code, Beginning(), [], Beginning());
    J.InitiallyOk(Beginning().j);
  }

  lemma {:induction false} LeadFurther(code: Code, m: Machine, acts: seq<Act>, t: Machine, a: Act)
    requires ActsLead(code, m, acts, t) && Can(t, a)
    ensures ActsLead(code, m, acts + [a], Acted(code, t, a))
    decreases |acts|
  {
    if acts == [] {
      assert [a][1..] == [];
      assert ActsLead(code, Acted(code, t, a), [], Acted(code, t, a));
    } else {
      LeadFurther(code, Acted(code, m, acts[0]), acts[1..], t, a);
      assert (acts + [a])[1..] == acts[1..] + [a];
    }
  }

  lemma ReachedNext(code: Code, m: Machine, a: Act)
    requires Reached(code, m) && Can(m, a)
    ensures Reached(code, Acted(code, m, a))
  {
    var start, acts :| Started(start) && ActsLead(code, start, acts, m);
    LeadFurther(code, start, acts, m, a);
  }

  // ---- The runtime: frame 0 is the coroutine, frame 1 its wrapper ----

  ghost predicate TwoFrames(w: World) {
    && w.frames.Keys == {0, 1} && w.frames[0].root == 1 && w.frames[1].root == 1
    && w.registry == [1] && w.spawning == map[] && w.queue == []
    && w.inflight == map[] && w.calling == map[] && w.running && !w.joined
  }

  ghost predicate Made(w: World, p: Point) {
    && TwoFrames(w) && w.taken == {1} && w.submitting == map[] && w.runner == map[]
    && w.frames[0].status == Fresh(User(p)) && w.frames[0].task == None
    && w.frames[1].status == Fresh(Entry(Detached)) && w.frames[1].task == Some(0)
  }

  ghost predicate Entered(w: World, p: Point) {
    && TwoFrames(w) && w.taken == {} && w.submitting == map[] && w.runner == map[1 := PoolThread]
    && w.frames[0].status == Fresh(User(p)) && w.frames[0].task == None
    && w.frames[1].status == Running(Entry(Detached)) && w.frames[1].task == Some(0)
  }

  ghost predicate Called(w: World, p: Point) {
    && TwoFrames(w) && w.taken == {} && w.submitting == map[] && w.runner == map[1 := PoolThread]
    && w.frames[0].status == Running(User(p)) && w.frames[1].status.Awaiting?
  }

  ghost predicate Submits(w: World, op: Request) {
    && TwoFrames(w) && w.taken == {} && w.submitting == map[0 := op] && w.runner == map[1 := PoolThread]
    && w.frames[0].status.InIo? && w.frames[1].status.Awaiting?
  }

  ghost predicate Waits(w: World) {
    && w.frames.Keys == {0, 1} && w.frames[0].root == 1 && w.frames[1].root == 1
    && w.registry == [1] && w.spawning == map[] && w.queue == []
    && w.taken == {} && w.submitting == map[] && w.calling == map[] && w.runner == map[]
    && w.frames[0].status.InIo? && w.frames[1].status.Awaiting?
  }

  lemma Plainly(code: Code, m: Machine, e: Frames.Event) returns (t: Machine)
    requires Reached(code, m) && J.IsPlain(e) && !e.DestroyAll? && Frames.Enabled(m.j.w, e) && m.j.flying == map[]
    ensures Reached(code, t) && t == m.(j := m.j.(w := Frames.Next(code, m.j.w, e)))
  {
    ReachedSafe(code, m);
    PlainCan(m, e);
    ReachedNext(code, m, Moves(J.Plain(e)));
    t := Acted(code, m, Moves(J.Plain(e)));
    assert J.StillFlying(map[], t.j.w) == map[];
  }

  lemma Detaches(code: Code, p: Point)
    ensures var w1 := Frames.Next(code, EMPTY_WORLD, Spawn(Detached, p));
            && Frames.Enabled(w1, Register(1)) && var w2 := Frames.Next(code, w1, Register(1));
            && Frames.Enabled(w2, Enqueue(1)) && var w3 := Frames.Next(code, w2, Enqueue(1));
            && Frames.Enabled(w3, Take) && Made(Frames.Next(code, w3, Take), p)
  {
  }

  /** detach(), up to where a worker has the task. */
  lemma IsMade(code: Code, p: Point) returns (m: Machine)
    ensures Reached(code, m) && Made(m.j.w, p) && m == Beginning().(j := Beginning().j.(w := m.j.w))
  {
    ReachedStart(code);
    Detaches(code, p);
    m := Plainly(code, Beginning(), Spawn(Detached, p));
    m := Plainly(code, m, Register(1));
    m := Plainly(code, m, Enqueue(1));
    m := Plainly(code, m, Take);
  }

  lemma Starts(w: World, p: Point)
    requires Made(w, p)
    ensures Entered(StartRoot(w, 1), p)
  {
  }

  lemma Calls(code: Code, w: World, p: Point)
    requires Entered(w, p)
    ensures Called(ExecFrame(code, w, 1), p)
  {
  }

  lemma ReadsOn(code: Code, w: World, p: Point, op: Request, onResult: int -> Point)
    requires Called(w, p) && code(p) == Io(op, onResult)
    ensures Submits(ExecFrame(code, w, 0), op)
  {
  }

  /** ... and until the coroutine is about to submit its operation. */
  lemma IsSubmitting(code: Code, p: Point, op: Request, onResult: int -> Point) returns (m: Machine)
    requires code(p) == Io(op, onResult)
    ensures Reached(code, m) && Submits(m.j.w, op) && m == Beginning().(j := Beginning().j.(w := m.j.w))
  {
    m := IsMade(code, p);
    Starts(m.j.w, p);
    m := Plainly(code, m, Start(1));
    Calls(code, m.j.w, p);
    m := Plainly(code, m, Exec(1));
    ReadsOn(code, m.j.w, p, op, onResult);
    m := Plainly(code, m, Exec(0));
  }

  // ---- The ring ----

  /** The ring with one context, as far as the thread inside async_io has come. */
  ghost predicate InHand(u: U.Instance, q: Req, stage: Pool.Stage) {
    && u.pool.entering == map[0 := Claim(q, stage)] && u.refusing.None? && u.sq == []
    && 0 in u.pool.content && (stage.Filled? ==> u.pool.content[0] == Content(q.op, Some(q.id)))
  }

  lemma RingEnters(q: Req)
    ensures U.Enabled(U.NEW_INSTANCE, U.Enter(q, 0)) && InHand(U.Next(U.NEW_INSTANCE, U.Enter(q, 0)), q, Pool.New)
  {
  }

  lemma RingFills(u: U.Instance, q: Req)
    requires InHand(u, q, Pool.New)
    ensures U.Enabled(u, U.Recorded(0)) && var v := U.Next(u, U.Recorded(0));
            && InHand(v, q, Got) && U.Enabled(v, U.Filling(0)) && InHand(U.Next(v, U.Filling(0)), q, Filled)
  {
  }

  lemma RingQueues(u: U.Instance, q: Req)
    requires InHand(u, q, Filled)
    ensures U.Enabled(u, U.Queue(0)) && Holds(U.Next(u, U.Queue(0)), 0, q)
  {
  }

  /** Inside async_io, with the machine otherwise as it was. */
  ghost predicate Begins(m: Machine, op: Request, stage: Pool.Stage) {
    var q, i := Req(0, op), B.ShardOf(op.fd);
    && Submits(m.j.w, op) && m.j.begun == map[0 := q] && m.j.flying == map[] && m.waiter == map[0 := 0]
    && |m.j.inst| == B.NUM_INSTANCES && m.j.inst[i].Uringing? && InHand(m.j.inst[i].u, q, stage)
  }

  lemma CanEnter(j: J.System, h: Id, c: Ctx)
    requires J.BackendOk(j) && h in j.w.submitting && h !in j.begun && j.w.running
    requires var op := j.w.submitting[h];
             j.inst[B.ShardOf(op.fd)].Uringing? && B.Enabled(j.inst[B.ShardOf(op.fd)], B.Enter(Req(j.nextTag, op), c))
    ensures J.Can(j, J.Enters(h, c)) && J.Polite(j, J.Enters(h, c))
  {
    J.AllLoaded(j);
  }

  lemma EntersAfter(code: Code, m: Machine, h: Id, c: Ctx)
    requires J.Can(m.j, J.Enters(h, c)) && J.Polite(m.j, J.Enters(h, c))
    ensures var op := m.j.w.submitting[h]; var q, i := Req(m.j.nextTag, op), B.ShardOf(op.fd);
            && B.Enabled(m.j.inst[i], B.Enter(q, c)) && Can(m, Moves(J.Enters(h, c)))
            && Acted(code, m, Moves(J.Enters(h, c)))
               == m.(j := m.j.(inst := m.j.inst[i := B.Next(m.j.inst[i], B.Enter(q, c))], begun := m.j.begun[h := q],
                               nextTag := m.j.nextTag + 1),
                     waiter := m.waiter[m.j.nextTag := h])
  {
  }

  lemma InstanceEnters(q: Req)
    ensures var s := B.Uringing(U.NEW_INSTANCE);
            && B.Enabled(s, B.Enter(q, 0)) && B.Next(s, B.Enter(q, 0)).Uringing?
            && InHand(B.Next(s, B.Enter(q, 0)).u, q, Pool.New)
  {
    RingEnters(q);
  }

  /** Nothing has been submitted yet. */
  ghost predicate Unused(m: Machine) {
    && m.j.begun == map[] && m.j.flying == map[] && m.j.nextTag == 0 && m.waiter == map[]
    && |m.j.inst| == B.NUM_INSTANCES && forall i :: 0 <= i < |m.j.inst| ==> m.j.inst[i] == B.Uringing(U.NEW_INSTANCE)
  }

  lemma NothingUsed(m: Machine)
    requires m == Beginning().(j := Beginning().j.(w := m.j.w))
    ensures Unused(m)
  {
  }

  /** The machine after its first request. */
  ghost function AfterFirst(m: Machine, op: Request, s: B.Instance): Machine
    requires |m.j.inst| == B.NUM_INSTANCES
  {
    m.(j := m.j.(inst := m.j.inst[B.ShardOf(op.fd) := s], begun := m.j.begun[0 := Req(0, op)], nextTag := 1),
       waiter := m.waiter[0 := 0])
  }

  lemma FirstBegins(m: Machine, op: Request, s: B.Instance)
    requires Submits(m.j.w, op) && Unused(m) && s.Uringing? && InHand(s.u, Req(0, op), Pool.New)
    ensures Begins(AfterFirst(m, op, s), op, Pool.New)
  {
  }

  lemma FirstEnters(code: Code, m: Machine, op: Request) returns (t: Machine, s: B.Instance)
    requires Reached(code, m) && J.BackendOk(m.j) && Submits(m.j.w, op) && Unused(m)
    ensures Reached(code, t) && t == AfterFirst(m, op, s) && s.Uringing? && InHand(s.u, Req(0, op), Pool.New)
  {
    InstanceEnters(Req(0, op));
    s := B.Next(m.j.inst[B.ShardOf(op.fd)], B.Enter(Req(0, op), 0));
    CanEnter(m.j, 0, 0);
    EntersAfter(code, m, 0, 0);
    ReachedNext(code, m, Moves(J.Enters(0, 0)));
    t := Acted(code, m, Moves(J.Enters(0, 0)));
  }

  lemma EntersRing(code: Code, m: Machine, op: Request) returns (t: Machine)
    requires Reached(code, m) && Submits(m.j.w, op) && Unused(m)
    ensures Reached(code, t) && Begins(t, op, Pool.New)
  {
    ReachedSafe(code, m);
    var s;
    t, s := FirstEnters(code, m, op);
    FirstBegins(m, op, s);
  }

  lemma InstanceMoves(s: B.Instance, f: U.Event)
    requires s.Uringing? && U.Enabled(s.u, f) && (f.Recorded? || f.Filling?)
    ensures var e := B.UringInside(f);
            && B.Enabled(s, e) && B.Inside(e) && !B.ByLoop(e) && B.Next(s, e) == B.Uringing(U.Next(s.u, f))
  {
  }

  lemma MovesInside(code: Code, m: Machine, i: nat, f: U.Event) returns (t: Machine)
    requires Reached(code, m) && i < |m.j.inst| && m.j.inst[i].Uringing? && U.Enabled(m.j.inst[i].u, f)
    requires f.Recorded? || f.Filling?
    ensures Reached(code, t) && t.waiter == m.waiter
    ensures t.j == m.j.(inst := m.j.inst[i := B.Uringing(U.Next(m.j.inst[i].u, f))])
  {
    ReachedSafe(code, m);
    InstanceMoves(m.j.inst[i], f);
    InsideMove(code, m, i, B.UringInside(f));
    ReachedNext(code, m, Moves(J.Inside(i, B.UringInside(f))));
    t := Acted(code, m, Moves(J.Inside(i, B.UringInside(f))));
  }

  lemma FillsRing(code: Code, m: Machine, op: Request) returns (t: Machine)
    requires Reached(code, m) && Begins(m, op, Pool.New)
    ensures Reached(code, t) && Begins(t, op, Filled)
  {
    var i := B.ShardOf(op.fd);
    RingFills(m.j.inst[i].u, Req(0, op));
    t := MovesInside(code, m, i, U.Recorded(0));
    t := MovesInside(code, t, i, U.Filling(0));
  }

  /** The entry is queued, and the coroutine waits. */
  ghost predicate Queued(m: Machine, op: Request) {
    && Waits(m.j.w) && KernelHas(m.j.inst, Req(0, op)) && m.waiter == map[0 := 0]
  }

  lemma SubmitWaits(w: World, op: Request)
    requires Submits(w, op)
    ensures Waits(SubmitOp(w, 0)) && SubmitOp(w, 0).running && !SubmitOp(w, 0).joined
  {
  }

  lemma InstanceQueues(s: B.Instance, q: Req)
    requires s.Uringing? && InHand(s.u, q, Filled)
    ensures B.Enabled(s, B.Register(0)) && HoldsAt(B.Next(s, B.Register(0)), 0, q)
  {
    RingQueues(s.u, q);
  }

  lemma CanRegister(code: Code, m: Machine, h: Id, c: Ctx)
    requires J.BackendOk(m.j) && h in m.j.begun && h in m.j.w.submitting
    requires var s := m.j.inst[J.ShardOfReq(m.j.begun[h])];
             B.Enabled(s, B.Register(c)) && c in B.PoolOf(s).entering && B.PoolOf(s).entering[c].req == m.j.begun[h]
    ensures Can(m, Moves(J.Registers(h, c)))
    ensures var i, t := J.ShardOfReq(m.j.begun[h]), Acted(code, m, Moves(J.Registers(h, c)));
            && t.j.w == SubmitOp(m.j.w, h) && t.waiter == m.waiter
            && t.j.inst == m.j.inst[i := B.Next(m.j.inst[i], B.Register(c))]
  {
    J.AllLoaded(m.j);
    J.RegistersAfter(code, m.j, h, c);
  }

  lemma QueuesRing(code: Code, m: Machine, op: Request) returns (t: Machine)
    requires Reached(code, m) && Begins(m, op, Filled)
    ensures Reached(code, t) && Queued(t, op) && t.j.w.running
  {
    var i, q := B.ShardOf(op.fd), Req(0, op);
    ReachedSafe(code, m);
    InstanceQueues(m.j.inst[i], q);
    CanRegister(code, m, 0, 0);
    ReachedNext(code, m, Moves(J.Registers(0, 0)));
    t := Acted(code, m, Moves(J.Registers(0, 0)));
    SubmitWaits(m.j.w, op);
    assert HoldsAt(t.j.inst[i], 0, q);
  }

  lemma StopKeepsHeld(code: Code, j: J.System, q: Req)
    requires J.Can(j, J.Stops) && KernelHas(j.inst, q)
    ensures KernelHas(J.After(code, j, J.Stops).inst, q)
  {
    StopMoves(code, j);
    var i, c :| 0 <= i < |j.inst| && HoldsAt(j.inst[i], c, q);
    assert HoldsAt(J.After(code, j, J.Stops).inst[i], c, q);
  }

  lemma StopsAfter(code: Code, m: Machine)
    requires J.BackendOk(m.j)
    ensures Can(m, Moves(J.Stops)) && Acted(code, m, Moves(J.Stops)).waiter == m.waiter
    ensures Acted(code, m, Moves(J.Stops)).j == J.After(code, m.j, J.Stops)
    ensures J.After(code, m.j, J.Stops).w == m.j.w.(running := false)
  {
    J.AllLoaded(m.j);
  }

  lemma IsStopped(code: Code, m: Machine, op: Request) returns (t: Machine)
    requires Reached(code, m) && Queued(m, op)
    ensures Reached(code, t) && Queued(t, op) && !t.j.w.running
  {
    ReachedSafe(code, m);
    StopsAfter(code, m);
    StopKeepsHeld(code, m.j, Req(0, op));
    ReachedNext(code, m, Moves(J.Stops));
    t := Acted(code, m, Moves(J.Stops));
  }

  lemma IsJoined(code: Code, m: Machine, op: Request) returns (t: Machine)
    requires Reached(code, m) && Queued(m, op) && !m.j.w.running
    ensures Reached(code, t) && Queued(t, op) && t.j.w.joined && !t.j.w.running
  {
    ReachedSafe(code, m);
    J.AllLoaded(m.j);
    assert Frames.Enabled(m.j.w, Join);
    ReachedNext(code, m, Moves(J.Joins));
    t := Acted(code, m, Moves(J.Joins));
  }

  lemma WaitingIsUntouched(w: World)
    requires Waits(w)
    ensures ShutdownSafe(w)
  {
  }

  /** From the start, for every coroutine that begins with an operation: detached, suspended in it, the
      event loops stopped and joined. No thread, task, callback or loop refers to it. Yet destroy_all does
      harm, for the kernel has the address of its buffer. */
  lemma SuspendedReadOutlived(code: Code, p: Point, op: Request, onResult: int -> Point) returns (m: Machine)
    requires code(p) == Io(op, onResult)
    ensures Reached(code, m) && m.j.w.joined && ShutdownSafe(m.j.w)
    ensures KernelHas(m.j.inst, Req(0, op)) && CanHarm(code, Destroyed(m))
  {
    m := IsSubmitting(code, p, op, onResult);
    NothingUsed(m);
    m := EntersRing(code, m, op);
    m := FillsRing(code, m, op);
    m := QueuesRing(code, m, op);
    m := IsStopped(code, m, op);
    m := IsJoined(code, m, op);
    WaitingIsUntouched(m.j.w);
    HarmlessIff(code, m);
  }
}
