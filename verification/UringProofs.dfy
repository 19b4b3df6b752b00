/** A uring instance implements the service, whatever its callers do. */
module UringProofs {
  import opened Lists
  import opened Program
  import opened AsyncIo
  import opened Pool
  import opened Uring

  // ---- Pending requests, when one context changes ----

  lemma PendingSame(s: Instance, s': Instance)
    requires Loaded(s) && Loaded(s') && Apart(s)
    requires forall c :: Live(s', c) <==> Live(s, c)
    requires forall c :: Live(s, c) && Live(s', c) ==> Held(s', c) == Held(s, c)
    ensures Pending(s') == Pending(s) && Apart(s')
  {
    forall q ensures q in Pending(s') <==> q in Pending(s) {
      if q in Pending(s) { var c :| Live(s, c) && Held(s, c) == q; assert Live(s', c); }
      if q in Pending(s') { var c :| Live(s', c) && Held(s', c) == q; assert Live(s, c); }
    }
  }

  lemma PendingMore(s: Instance, s': Instance, c: Ctx, q: Req)
    requires Loaded(s) && Loaded(s') && Apart(s)
    requires !Live(s, c) && Live(s', c) && Held(s', c) == q
    requires forall d :: d != c ==> (Live(s', d) <==> Live(s, d))
    requires forall d :: d != c && Live(s, d) && Live(s', d) ==> Held(s', d) == Held(s, d)
    requires forall p :: p in Pending(s) ==> p.id != q.id
    ensures Pending(s') == Pending(s) + {q} && Apart(s')
  {
    forall p ensures p in Pending(s') <==> p in Pending(s) || p == q {
      if p in Pending(s) { var d :| Live(s, d) && Held(s, d) == p; assert Live(s', d); }
      if p in Pending(s') { var d :| Live(s', d) && Held(s', d) == p; assert d == c || Live(s, d); }
    }
    forall d, e | Live(s', d) && Live(s', e) && Held(s', d).id == Held(s', e).id ensures d == e {
      if d != c { assert Live(s, d) && Held(s, d) in Pending(s); }
      if e != c { assert Live(s, e) && Held(s, e) in Pending(s); }
    }
  }

  lemma PendingLess(s: Instance, s': Instance, c: Ctx)
    requires Loaded(s) && Loaded(s') && Apart(s)
    requires Live(s, c) && !Live(s', c)
    requires forall d :: d != c ==> (Live(s', d) <==> Live(s, d))
    requires forall d :: d != c && Live(s, d) && Live(s', d) ==> Held(s', d) == Held(s, d)
    ensures Held(s, c) in Pending(s) && Pending(s') == Pending(s) - {Held(s, c)} && Apart(s')
  {
    forall p ensures p in Pending(s') <==> p in Pending(s) && p != Held(s, c) {
      if p in Pending(s) && p != Held(s, c) { var d :| Live(s, d) && Held(s, d) == p; assert Live(s', d); }
      if p in Pending(s') { var d :| Live(s', d) && Held(s', d) == p; assert Live(s, d); }
    }
    forall d, e | Live(s', d) && Live(s', e) && Held(s', d).id == Held(s', e).id ensures d == e {
      assert Live(s, d) && Live(s, e);
    }
  }

  // ---- The partition, when one context moves ----

  ghost predicate OthersStay(s: Instance, s': Instance, c: Ctx) {
    forall x :: x != c ==> Spots(s', x) == Spots(s, x) && (Out(s'.pool, x) <==> Out(s.pool, x))
  }

  lemma PartitionMoves(s: Instance, s': Instance, c: Ctx)
    requires Partition(s) && OthersStay(s, s', c) && Placed(s'.pool, c, Spots(s', c))
    requires PoolOk(s'.pool) && Distinct(s'.sq) && Distinct(s'.cq)
    ensures Partition(s')
  {
    forall x ensures Placed(s'.pool, x, Spots(s', x)) { assert Placed(s.pool, x, Spots(s, x)); }
  }

  lemma SpotMeaning(s: Instance, c: Ctx)
    ensures Queued in Spots(s, c) <==> c in s.sq
    ensures InKernel in Spots(s, c) <==> c in s.kernel
    ensures Completed in Spots(s, c) <==> c in s.cq
    ensures InCallback in Spots(s, c) <==> s.inCall == Some(c)
    ensures InRefusal in Spots(s, c) <==> s.refusing == Some(c)
  {
  }

  lemma InPool(s: Instance, c: Ctx)
    requires Partition(s) && !Out(s.pool, c)
    ensures Spots(s, c) == {} && c !in s.sq && c !in s.kernel && c !in s.cq && s.inCall != Some(c)
            && s.refusing != Some(c)
  {
    assert Placed(s.pool, c, Spots(s, c));
    SpotMeaning(s, c);
  }

  lemma OneSpot(s: Instance, c: Ctx, spot: Spot)
    requires Partition(s) && spot in Spots(s, c)
    ensures Out(s.pool, c) && Spots(s, c) == {spot}
    ensures c in s.sq <==> spot.Queued?
    ensures c in s.kernel <==> spot.InKernel?
    ensures c in s.cq <==> spot.Completed?
    ensures s.inCall == Some(c) <==> spot.InCallback?
    ensures s.refusing == Some(c) <==> spot.InRefusal?
  {
    assert Placed(s.pool, c, Spots(s, c));
    SpotMeaning(s, c);
  }

  lemma Shifted(q: seq<Ctx>)
    requires q != [] && Distinct(q)
    ensures Distinct(q[1..]) && q[0] !in q[1..] && forall x :: x in q <==> x == q[0] || x in q[1..]
  {
  }

  // ---- Simulation, event by event ----

  ghost function LabelOf(s: Instance, e: Event): Label
    requires Loaded(s) && Enabled(s, e)
  {
    match e
    case Enter(req, _) => Accepted(req)
    case Refuse(c) => Called(s.pool.entering[c].req, 0 - ENOMEM)
    case Handle =>
      assert Live(s, s.cq[0]);
      if s.running then Called(Held(s, s.cq[0]), s.answer[s.cq[0]]) else Forgotten(Held(s, s.cq[0]))
    case Stop => Stopped
    case _ => Silent
  }

  ghost predicate Simulates(s: Instance, s': Instance, l: Label)
    requires Loaded(s)
  {
    Partition(s') && Loaded(s') && Apart(s') && ServiceStep(Abstract(s), l, Abstract(s'))
  }

  ghost function Acquired(s: Instance, c: Ctx): Ctx {
    if s.pool.free != [] then s.pool.free[|s.pool.free| - 1] else c
  }

  lemma EnterPartition(s: Instance, req: Req, c: Ctx)
    requires Partition(s) && (s.pool.free == [] ==> c !in s.pool.made)
    ensures Partition(AcceptReq(s, req, c)) && !Live(s, Acquired(s, c))
  {
    var s', d := AcceptReq(s, req, c), Acquired(s, c);
    PoolKeeps(s.pool, c, req);
    if s.pool.free != [] { Popped(s.pool.free); }
    InPool(s, d);
    PartitionMoves(s, s', d);
  }

  lemma EnterLoaded(s: Instance, req: Req, c: Ctx)
    requires PoolOk(s.pool) && Loaded(s) && (s.pool.free == [] ==> c !in s.pool.made) && !Live(s, Acquired(s, c))
    ensures Loaded(AcceptReq(s, req, c))
  {
  }

  lemma EnterSimulates(s: Instance, req: Req, c: Ctx)
    requires Good(s) && Enabled(s, Enter(req, c))
    ensures Simulates(s, AcceptReq(s, req, c), Accepted(req))
  {
    EnterPartition(s, req, c);
    EnterLoaded(s, req, c);
    PendingMore(s, AcceptReq(s, req, c), Acquired(s, c), req);
  }

  lemma PoolStepPartition(s: Instance, s': Instance, c: Ctx)
    requires Partition(s) && s' == s.(pool := s'.pool) && PoolOk(s'.pool) && PoolStep(s.pool, s'.pool, c)
    ensures Partition(s')
  {
    InPool(s, c);
    PartitionMoves(s, s', c);
  }

  lemma PoolStepLoaded(s: Instance, s': Instance, c: Ctx)
    requires Partition(s) && Loaded(s) && s' == s.(pool := s'.pool) && PoolOk(s'.pool) && PoolStep(s.pool, s'.pool, c)
    ensures Loaded(s')
  {
    InPool(s, c);
  }

  lemma PoolStepSimulates(s: Instance, s': Instance, c: Ctx)
    requires Good(s) && s' == s.(pool := s'.pool) && PoolOk(s'.pool) && PoolStep(s.pool, s'.pool, c)
    ensures Simulates(s, s', Silent)
  {
    PoolStepPartition(s, s', c);
    PoolStepLoaded(s, s', c);
    PendingSame(s, s');
  }

  lemma QueuePartition(s: Instance, c: Ctx)
    requires Partition(s) && Enabled(s, Queue(c))
    ensures Partition(QueueCtx(s, c))
    ensures forall x :: x in s.sq + [c] <==> x in s.sq || x == c
  {
    PoolKeeps(s.pool, c, s.pool.entering[c].req);
    InPool(s, c);
    Pushed(s.sq, c);
    PartitionMoves(s, QueueCtx(s, c), c);
  }

  lemma QueueLoaded(s: Instance, c: Ctx)
    requires Partition(s) && Loaded(s) && Enabled(s, Queue(c))
    ensures Loaded(QueueCtx(s, c))
  {
    InPool(s, c);
    Pushed(s.sq, c);
  }

  lemma QueueSimulates(s: Instance, c: Ctx)
    requires Good(s) && Enabled(s, Queue(c))
    ensures Simulates(s, QueueCtx(s, c), Silent)
  {
    QueuePartition(s, c);
    QueueLoaded(s, c);
    PendingSame(s, QueueCtx(s, c));
  }

  lemma RefusePartition(s: Instance, c: Ctx)
    requires Partition(s) && Enabled(s, Refuse(c))
    ensures Partition(RefuseCtx(s, c))
  {
    PoolKeeps(s.pool, c, s.pool.entering[c].req);
    InPool(s, c);
    PartitionMoves(s, RefuseCtx(s, c), c);
  }

  lemma RefuseLoaded(s: Instance, c: Ctx)
    requires Partition(s) && Loaded(s) && Enabled(s, Refuse(c))
    ensures Loaded(RefuseCtx(s, c)) && !Live(RefuseCtx(s, c), c)
  {
    InPool(s, c);
  }

  lemma RefuseSimulates(s: Instance, c: Ctx)
    requires Good(s) && Enabled(s, Refuse(c))
    ensures Simulates(s, RefuseCtx(s, c), Called(s.pool.entering[c].req, 0 - ENOMEM))
  {
    RefusePartition(s, c);
    RefuseLoaded(s, c);
    PendingLess(s, RefuseCtx(s, c), c);
  }

  lemma TakeSimulates(s: Instance)
    requires Good(s) && s.sq != []
    ensures Simulates(s, TakeEntry(s), Silent)
  {
    var s', c := TakeEntry(s), s.sq[0];
    Shifted(s.sq);
    SpotMeaning(s, c);
    OneSpot(s, c, Queued);
    PartitionMoves(s, s', c);
    PendingSame(s, s');
  }

  lemma CompleteSimulates(s: Instance, c: Ctx, res: int)
    requires Good(s) && Enabled(s, KernelDone(c, res))
    ensures Simulates(s, Complete(s, c, res), Silent)
  {
    var s' := Complete(s, c, res);
    SpotMeaning(s, c);
    OneSpot(s, c, InKernel);
    Pushed(s.cq, c);
    PartitionMoves(s, s', c);
    PendingSame(s, s');
  }

  lemma CallPartition(s: Instance)
    requires Good(s) && Enabled(s, Handle) && s.running
    ensures Partition(HandleNext(s)) && Loaded(HandleNext(s)) && Live(s, s.cq[0]) && !Live(HandleNext(s), s.cq[0])
  {
    var s', c := HandleNext(s), s.cq[0];
    Shifted(s.cq);
    SpotMeaning(s, c);
    OneSpot(s, c, Completed);
    assert Live(s, c);
    PartitionMoves(s, s', c);
  }

  lemma DiscardPartition(s: Instance)
    requires Good(s) && Enabled(s, Handle) && !s.running
    ensures Partition(HandleNext(s)) && Loaded(HandleNext(s)) && Live(s, s.cq[0]) && !Live(HandleNext(s), s.cq[0])
  {
    var s', c := HandleNext(s), s.cq[0];
    Shifted(s.cq);
    SpotMeaning(s, c);
    OneSpot(s, c, Completed);
    assert Live(s, c);
    PoolKeeps(s.pool, c, Held(s, c));
    PartitionMoves(s, s', c);
  }

  lemma HandleSimulates(s: Instance)
    requires Good(s) && Enabled(s, Handle)
    ensures Simulates(s, HandleNext(s), LabelOf(s, Handle))
  {
    if s.running { CallPartition(s); } else { DiscardPartition(s); }
    Shifted(s.cq);
    PendingLess(s, HandleNext(s), s.cq[0]);
  }

  /** A callback has returned; its context goes back to the free list. */
  ghost function Returned(s: Instance, c: Ctx): Instance
    requires c in s.pool.content
  {
    s.(pool := Release(s.pool, c), inCall := if s.inCall == Some(c) then None else s.inCall,
       refusing := if s.refusing == Some(c) then None else s.refusing)
  }

  lemma ReleasePartition(s: Instance, c: Ctx)
    requires Partition(s) && (s.inCall == Some(c) || s.refusing == Some(c)) && c in s.pool.content
    ensures Partition(Returned(s, c)) && !Live(s, c)
  {
    var s' := Returned(s, c);
    SpotMeaning(s, c);
    OneSpot(s, c, if s.inCall == Some(c) then InCallback else InRefusal);
    PoolKeeps(s.pool, c, Req(0, s.pool.content[c].op));
    PartitionMoves(s, s', c);
  }

  lemma ReleaseLoaded(s: Instance, c: Ctx)
    requires PoolOk(s.pool) && Loaded(s) && c in s.pool.content && !Live(s, c)
    ensures Loaded(Returned(s, c))
  {
  }

  lemma ReleaseSimulates(s: Instance, c: Ctx)
    requires Good(s) && (s.inCall == Some(c) || s.refusing == Some(c)) && c in s.pool.content
    ensures Simulates(s, Returned(s, c), Silent)
  {
    ReleasePartition(s, c);
    ReleaseLoaded(s, c);
    PendingSame(s, Returned(s, c));
  }

  lemma UnseenSimulates(s: Instance, s': Instance, l: Label)
    requires Good(s) && s' == s.(seen := s'.seen, running := s'.running)
    requires (l.Silent? && s'.running == s.running) || (l.Stopped? && !s'.running)
    ensures Simulates(s, s', l)
  {
    assert forall x :: Spots(s', x) == Spots(s, x);
    forall x ensures Placed(s'.pool, x, Spots(s', x)) { assert Placed(s.pool, x, Spots(s, x)); }
    PendingSame(s, s');
  }

  // ---- Whole runs ----

  lemma RecordSimulates(s: Instance, c: Ctx)
    requires Good(s) && Enabled(s, Recorded(c))
    ensures Simulates(s, s.(pool := Record(s.pool, c)), Silent)
  {
    PoolKeeps(s.pool, c, s.pool.entering[c].req);
    PoolStepSimulates(s, s.(pool := Record(s.pool, c)), c);
  }

  lemma FillSimulates(s: Instance, c: Ctx)
    requires Good(s) && Enabled(s, Filling(c))
    ensures Simulates(s, s.(pool := Fill(s.pool, c)), Silent)
  {
    PoolKeeps(s.pool, c, s.pool.entering[c].req);
    PoolStepSimulates(s, s.(pool := Fill(s.pool, c)), c);
  }

  lemma SubmitterSimulates(s: Instance, e: Event)
    requires Good(s) && Enabled(s, e)
    requires e.Enter? || e.Recorded? || e.Filling? || e.Queue? || e.Refuse?
    ensures Simulates(s, Next(s, e), LabelOf(s, e))
  {
    match e {
      case Enter(req, c) => EnterSimulates(s, req, c);
      case Recorded(c) => RecordSimulates(s, c);
      case Filling(c) => FillSimulates(s, c);
      case Queue(c) => QueueSimulates(s, c);
      case Refuse(c) => RefuseSimulates(s, c);
    }
  }

  lemma DoneSimulates(s: Instance, e: Event)
    requires Good(s) && Enabled(s, e) && (e.Return? || e.RefusalDone?)
    ensures Simulates(s, Next(s, e), Silent)
  {
    var c := if e.Return? then s.inCall.value else s.refusing.value;
    SpotMeaning(s, c);
    OneSpot(s, c, if e.Return? then InCallback else InRefusal);
    ReleaseSimulates(s, c);
    assert Next(s, e) == Returned(s, c);
  }

  lemma LoopSimulates(s: Instance, e: Event)
    requires Good(s) && Enabled(s, e)
    requires !(e.Enter? || e.Recorded? || e.Filling? || e.Queue? || e.Refuse?)
    ensures Simulates(s, Next(s, e), LabelOf(s, e))
  {
    match e {
      case RefusalDone => DoneSimulates(s, e);
      case KernelTakes => TakeSimulates(s);
      case KernelDone(c, res) => CompleteSimulates(s, c, res);
      case Handle => HandleSimulates(s);
      case Return => DoneSimulates(s, e);
      case Advance => UnseenSimulates(s, s.(seen := 0), Silent);
      case Stop => UnseenSimulates(s, s.(running := false), Stopped);
    }
  }

  /** Forward simulation, without any condition on the callers: every event, the refusal on a
      full submission queue included, is a step of the service. */
  lemma StepRefines(s: Instance, e: Event)
    requires Good(s) && Enabled(s, e)
    ensures Loaded(Next(s, e)) && ServiceStep(Abstract(s), LabelOf(s, e), Abstract(Next(s, e)))
    ensures Good(Next(s, e))
  {
    if e.Enter? || e.Recorded? || e.Filling? || e.Queue? || e.Refuse? {
      SubmitterSimulates(s, e);
    } else {
      LoopSimulates(s, e);
    }
    ServiceKeeps(Abstract(s), LabelOf(s, e), Abstract(Next(s, e)));
  }

  ghost predicate Leads(s: Instance, es: seq<Event>, t: Instance)
    decreases |es|
  {
    if es == [] then t == s else Enabled(s, es[0]) && Leads(Next(s, es[0]), es[1..], t)
  }

  lemma {:induction false} LeadsKeeps(s: Instance, es: seq<Event>, t: Instance)
    requires Good(s) && Leads(s, es, t)
    ensures Good(t)
    decreases |es|
  {
    if es != [] {
      StepRefines(s, es[0]);
      LeadsKeeps(Next(s, es[0]), es[1..], t);
    }
  }

  lemma FreshGood()
    ensures Good(NEW_INSTANCE)
  {
    assert forall c :: Spots(NEW_INSTANCE, c) == {};
    assert Pending(NEW_INSTANCE) == {};
  }

  /** Whole runs: exactly one callback per accepted operation, and the contexts stay partitioned. */
  lemma UringExactlyOnce(es: seq<Event>, t: Instance)
    requires Leads(NEW_INSTANCE, es, t)
    ensures Loaded(t) && ExactlyOnce(Abstract(t)) && Partition(t)
  {
    FreshGood();
    LeadsKeeps(NEW_INSTANCE, es, t);
  }
}
