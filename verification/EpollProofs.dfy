/** An epoll instance implements the service, as long as no registration is overwritten. */
module EpollProofs {
  import opened Lists
  import opened Program
  import opened AsyncIo
  import opened Pool
  import opened Epoll

  // ---- Pending requests, when one context changes ----

  ghost predicate Carries(s: Instance, c: Ctx) {
    c in s.pool.made && Live(s, c) && Loads(s, c)
  }

  lemma PendingSame(s: Instance, s': Instance)
    requires Loaded(s) && Loaded(s')
    requires forall c :: Carries(s', c) <==> Carries(s, c)
    requires forall c :: Carries(s, c) && Carries(s', c) ==> Held(s', c) == Held(s, c)
    ensures Pending(s') == Pending(s)
    ensures Apart(s) && (forall c :: Live(s, c) || Live(s', c) ==> c in s.pool.made && c in s'.pool.made) ==> Apart(s')
  {
    forall q ensures q in Pending(s') <==> q in Pending(s) {
      if q in Pending(s) { var c :| Carries(s, c) && Held(s, c) == q; assert Carries(s', c); }
      if q in Pending(s') { var c :| Carries(s', c) && Held(s', c) == q; assert Carries(s, c); }
    }
    if Apart(s) && (forall c :: Live(s, c) || Live(s', c) ==> c in s.pool.made && c in s'.pool.made) {
      forall c, d | Live(s', c) && Live(s', d) && Loads(s', c) && Loads(s', d) && Held(s', c).id == Held(s', d).id
        ensures c == d
      {
        assert Carries(s', c) && Carries(s', d);
        assert Carries(s, c) && Carries(s, d);
      }
    }
  }

  ghost predicate LiveMade(s: Instance) {
    forall c :: Live(s, c) ==> c in s.pool.made
  }

  lemma PendingMore(s: Instance, s': Instance, c: Ctx, q: Req)
    requires Loaded(s) && Loaded(s') && LiveMade(s) && LiveMade(s') && Apart(s)
    requires !Carries(s, c) && Carries(s', c) && Held(s', c) == q
    requires forall d :: d != c ==> (Carries(s', d) <==> Carries(s, d))
    requires forall d :: d != c && Carries(s, d) && Carries(s', d) ==> Held(s', d) == Held(s, d)
    requires forall p :: p in Pending(s) ==> p.id != q.id
    ensures Pending(s') == Pending(s) + {q} && Apart(s')
  {
    forall p ensures p in Pending(s') <==> p in Pending(s) || p == q {
      if p in Pending(s) { var d :| Carries(s, d) && Held(s, d) == p; assert Carries(s', d); }
      if p in Pending(s') { var d :| Carries(s', d) && Held(s', d) == p; assert d == c || Carries(s, d); }
      if p == q { assert Carries(s', c); }
    }
    forall d, e | Live(s', d) && Live(s', e) && Loads(s', d) && Loads(s', e) && Held(s', d).id == Held(s', e).id
      ensures d == e
    {
      assert Carries(s', d) && Carries(s', e);
      if d != c { assert Carries(s, d) && Held(s, d) in Pending(s); }
      if e != c { assert Carries(s, e) && Held(s, e) in Pending(s); }
    }
  }

  lemma PendingLess(s: Instance, s': Instance, c: Ctx)
    requires Loaded(s) && Loaded(s') && LiveMade(s) && LiveMade(s') && Apart(s)
    requires Carries(s, c) && !Carries(s', c)
    requires forall d :: d != c ==> (Carries(s', d) <==> Carries(s, d))
    requires forall d :: d != c && Carries(s, d) && Carries(s', d) ==> Held(s', d) == Held(s, d)
    ensures Held(s, c) in Pending(s) && Pending(s') == Pending(s) - {Held(s, c)} && Apart(s')
  {
    forall p ensures p in Pending(s') <==> p in Pending(s) && p != Held(s, c) {
      if p in Pending(s) && p != Held(s, c) {
        var d :| Carries(s, d) && Held(s, d) == p;
        assert Carries(s', d);
      }
      if p in Pending(s') {
        var d :| Carries(s', d) && Held(s', d) == p;
        assert Carries(s, d);
      }
    }
    forall d, e | Live(s', d) && Live(s', e) && Loads(s', d) && Loads(s', e) && Held(s', d).id == Held(s', e).id
      ensures d == e
    {
      assert Carries(s', d) && Carries(s', e);
      assert Carries(s, d) && Carries(s, e);
    }
  }

  // ---- Registrations ----

  lemma ArmedAfterArm(s: Instance, s': Instance, c: Ctx, fd: int)
    requires s'.armed == s.armed[fd := c] && fd !in s.armed
    ensures forall x :: Armed(s', x) <==> Armed(s, x) || x == c
  {
    forall x ensures Armed(s', x) <==> Armed(s, x) || x == c {
      if x == c { assert s'.armed[fd] == c; }
      if Armed(s, x) { var f :| f in s.armed && s.armed[f] == x; assert s'.armed[f] == x; }
      if Armed(s', x) && x != c { var f :| f in s'.armed && s'.armed[f] == x; assert s.armed[f] == x; }
    }
  }

  lemma ArmedAfterWait(s: Instance, fds: seq<int>)
    requires Partition(s) && Enabled(s, Wait(fds))
    ensures var s' := Next(s, Wait(fds));
            && (forall x :: Armed(s, x) <==> Armed(s', x) || x in s'.batch)
            && (forall x :: x in s'.batch ==> !Armed(s', x))
            && Distinct(s'.batch)
  {
    var s', gone := Next(s, Wait(fds)), set i | 0 <= i < |fds| :: fds[i];
    forall x ensures Armed(s, x) <==> Armed(s', x) || x in s'.batch {
      if Armed(s, x) {
        var f :| f in s.armed && s.armed[f] == x;
        if f in gone {
          var i :| 0 <= i < |fds| && fds[i] == f;
          assert s'.batch[i] == x;
        } else {
          assert s'.armed[f] == x;
        }
      }
      if Armed(s', x) { var f :| f in s'.armed && s'.armed[f] == x; assert s.armed[f] == x; }
      if x in s'.batch { var i :| 0 <= i < |s'.batch| && s'.batch[i] == x; assert s.armed[fds[i]] == x; }
    }
    forall x | x in s'.batch ensures !Armed(s', x) {
      var i :| 0 <= i < |s'.batch| && s'.batch[i] == x;
      forall f | f in s'.armed ensures s'.armed[f] != x { assert f in s.armed && fds[i] in s.armed && fds[i] in gone; }
    }
    forall i, j | 0 <= i < j < |s'.batch| ensures s'.batch[i] != s'.batch[j] {
      assert s.armed[fds[i]] == s'.batch[i] && s.armed[fds[j]] == s'.batch[j];
    }
  }

  // ---- The partition, when one context moves ----

  /** Everybody but `c` stays where it was. */
  ghost predicate OthersStay(s: Instance, s': Instance, c: Ctx) {
    forall x :: x != c ==> Spots(s', x) == Spots(s, x) && (Out(s'.pool, x) <==> Out(s.pool, x))
  }

  lemma PartitionMoves(s: Instance, s': Instance, c: Ctx)
    requires Partition(s) && OthersStay(s, s', c) && Placed(s'.pool, c, Spots(s', c))
    requires PoolOk(s'.pool) && Distinct(s'.batch)
    requires forall f, g :: f in s'.armed && g in s'.armed && s'.armed[f] == s'.armed[g] ==> f == g
    ensures Partition(s')
  {
    forall x ensures Placed(s'.pool, x, Spots(s', x)) { assert Placed(s.pool, x, Spots(s, x)); }
  }

  lemma SameBackend(s: Instance, s': Instance)
    requires s' == s.(pool := s'.pool, accepted := s'.accepted)
    ensures forall x :: Armed(s', x) <==> Armed(s, x)
    ensures forall x :: Spots(s', x) == Spots(s, x)
  {
    assert forall x :: Armed(s', x) <==> Armed(s, x);
  }

  /** A context in the pool is nowhere else. */
  lemma InPool(s: Instance, c: Ctx)
    requires Partition(s) && !Out(s.pool, c)
    ensures Spots(s, c) == {} && !Armed(s, c) && c !in s.batch && s.inCall != Some(c) && c !in s.failing && c !in s.lost
  {
    assert Placed(s.pool, c, Spots(s, c));
    SpotMeaning(s, c);
  }

  lemma SpotMeaning(s: Instance, c: Ctx)
    ensures AtKernel in Spots(s, c) <==> Armed(s, c)
    ensures Reported in Spots(s, c) <==> c in s.batch
    ensures InCallback in Spots(s, c) <==> s.inCall == Some(c)
    ensures InFailure in Spots(s, c) <==> c in s.failing
    ensures Lost in Spots(s, c) <==> c in s.lost
  {
  }

  /** A context outside the pool is in one spot only. */
  lemma OneSpot(s: Instance, c: Ctx, spot: Spot)
    requires Partition(s) && spot in Spots(s, c)
    ensures Out(s.pool, c) && Spots(s, c) == {spot}
    ensures Armed(s, c) <==> spot.AtKernel?
    ensures c in s.batch <==> spot.Reported?
    ensures s.inCall == Some(c) <==> spot.InCallback?
    ensures c in s.failing <==> spot.InFailure?
    ensures c in s.lost <==> spot.Lost?
  {
    assert Placed(s.pool, c, Spots(s, c));
    SpotMeaning(s, c);
  }

  /** A context that is not armed is no registration's context. */
  lemma NotRegistered(s: Instance, c: Ctx)
    requires !Armed(s, c)
    ensures forall fd :: fd in s.armed ==> s.armed[fd] != c
  {
    forall fd | fd in s.armed ensures s.armed[fd] != c { assert Armed(s, s.armed[fd]); }
  }

  lemma LiveIsMade(s: Instance)
    requires Partition(s)
    ensures LiveMade(s)
  {
    forall c | Live(s, c) ensures c in s.pool.made {
      if c !in s.pool.entering && !Out(s.pool, c) { InPool(s, c); }
    }
  }

  // ---- Simulation, event by event ----

  ghost function LabelOf(s: Instance, e: Event): Label
    requires Loaded(s) && Enabled(s, e)
  {
    match e
    case Enter(req, _) => Accepted(req)
    case ArmFails(c, err) => Called(s.pool.entering[c].req, 0 - err)
    case Handle(res) => if s.running then Called(Held(s, s.batch[0]), res) else Forgotten(Held(s, s.batch[0]))
    case Stop => Stopped
    case _ => Silent
  }

  ghost predicate Simulates(s: Instance, s': Instance, l: Label)
    requires Loaded(s)
  {
    Partition(s') && Loaded(s') && Apart(s') && ServiceStep(Abstract(s), l, Abstract(s'))
  }

  ghost function Acquired(s: Instance, c: Ctx): Ctx {
    if s.pool.free != [] then s.pool.free[|s.pool.free| - 1] else c
  }

  lemma EnterPartition(s: Instance, req: Req, c: Ctx)
    requires Good(s) && (s.pool.free == [] ==> c !in s.pool.made)
    ensures Partition(AcceptReq(s, req, c)) && Loaded(AcceptReq(s, req, c))
  {
    var s', d := AcceptReq(s, req, c), Acquired(s, c);
    PoolKeeps(s.pool, c, req);
    SameBackend(s, s');
    if s.pool.free != [] { Popped(s.pool.free); }
    InPool(s, d);
    PartitionMoves(s, s', d);
  }

  lemma EnterSimulates(s: Instance, req: Req, c: Ctx)
    requires Good(s) && Enabled(s, Enter(req, c))
    ensures Simulates(s, AcceptReq(s, req, c), Accepted(req))
  {
    var s', d := AcceptReq(s, req, c), Acquired(s, c);
    EnterPartition(s, req, c);
    SameBackend(s, s');
    InPool(s, d);
    LiveIsMade(s);
    LiveIsMade(s');
    PendingMore(s, s', d, req);
  }

  lemma PoolStepPartition(s: Instance, s': Instance, c: Ctx)
    requires Partition(s) && Loaded(s) && s' == s.(pool := s'.pool) && PoolOk(s'.pool) && PoolStep(s.pool, s'.pool, c)
    ensures Partition(s') && Loaded(s')
    ensures forall x :: Armed(s', x) <==> Armed(s, x)
    ensures !Armed(s, c) && c !in s.batch
  {
    SameBackend(s, s');
    InPool(s, c);
    PartitionMoves(s, s', c);
    NotRegistered(s, c);
  }

  lemma PoolStepSimulates(s: Instance, s': Instance, c: Ctx)
    requires Good(s) && s' == s.(pool := s'.pool) && PoolOk(s'.pool) && PoolStep(s.pool, s'.pool, c)
    ensures Simulates(s, s', Silent)
  {
    PoolStepPartition(s, s', c);
    LiveIsMade(s);
    LiveIsMade(s');
    PendingSame(s, s');
  }

  lemma RecordSimulates(s: Instance, c: Ctx)
    requires Good(s) && Enabled(s, Recorded(c))
    ensures Simulates(s, s.(pool := Record(s.pool, c)), Silent)
  {
    PoolKeeps(s.pool, c, s.pool.entering[c].req);
    PoolStepSimulates(s, s.(pool := Record(s.pool, c)), c);
  }

  lemma FillSimulates(s: Instance, c: Ctx)
    requires Good(s) && Enabled(s, Filling(c))
    ensures Simulates(s, s.(pool := Fill(s.pool, c)), Silent)
  {
    PoolKeeps(s.pool, c, s.pool.entering[c].req);
    PoolStepSimulates(s, s.(pool := Fill(s.pool, c)), c);
  }

  lemma ArmLoaded(s: Instance, c: Ctx)
    requires PoolOk(s.pool) && Loaded(s) && Enabled(s, Arm(c)) && s.pool.content[c].op.fd !in s.armed
    ensures Loaded(ArmCtx(s, c))
  {
  }

  lemma ArmSpots(s: Instance, c: Ctx)
    requires Partition(s) && Enabled(s, Arm(c)) && s.pool.content[c].op.fd !in s.armed
    ensures OthersStay(s, ArmCtx(s, c), c) && Spots(ArmCtx(s, c), c) == {AtKernel}
  {
    ArmedAfterArm(s, ArmCtx(s, c), c, s.pool.content[c].op.fd);
    InPool(s, c);
  }

  lemma ArmPartition(s: Instance, c: Ctx)
    requires Partition(s) && Enabled(s, Arm(c)) && s.pool.content[c].op.fd !in s.armed
    ensures Partition(ArmCtx(s, c))
  {
    var s' := ArmCtx(s, c);
    PoolKeeps(s.pool, c, s.pool.entering[c].req);
    ArmSpots(s, c);
    InPool(s, c);
    NotRegistered(s, c);
    PartitionMoves(s, s', c);
  }

  lemma ArmCarries(s: Instance, c: Ctx)
    requires Good(s) && Enabled(s, Arm(c)) && s.pool.content[c].op.fd !in s.armed
    ensures Loaded(ArmCtx(s, c))
    ensures forall x :: Carries(ArmCtx(s, c), x) <==> Carries(s, x)
    ensures forall x :: Carries(s, x) && Carries(ArmCtx(s, c), x) ==> Held(ArmCtx(s, c), x) == Held(s, x)
  {
    ArmLoaded(s, c);
    ArmedAfterArm(s, ArmCtx(s, c), c, s.pool.content[c].op.fd);
  }

  lemma ArmSimulates(s: Instance, c: Ctx)
    requires Good(s) && Enabled(s, Arm(c)) && s.pool.content[c].op.fd !in s.armed
    ensures Simulates(s, ArmCtx(s, c), Silent)
  {
    ArmPartition(s, c);
    ArmLoaded(s, c);
    ArmCarries(s, c);
    LiveIsMade(s);
    LiveIsMade(ArmCtx(s, c));
    PendingSame(s, ArmCtx(s, c));
  }

  lemma FailSpots(s: Instance, c: Ctx, err: nat)
    requires Partition(s) && Enabled(s, ArmFails(c, err))
    ensures OthersStay(s, FailCtx(s, c, err), c) && Spots(FailCtx(s, c, err), c) == {InFailure}
    ensures !Live(FailCtx(s, c, err), c) && forall x :: Armed(FailCtx(s, c, err), x) <==> Armed(s, x)
  {
    assert forall x :: Armed(FailCtx(s, c, err), x) <==> Armed(s, x);
    InPool(s, c);
  }

  lemma FailPartition(s: Instance, c: Ctx, err: nat)
    requires Partition(s) && Enabled(s, ArmFails(c, err))
    ensures Partition(FailCtx(s, c, err))
  {
    PoolKeeps(s.pool, c, s.pool.entering[c].req);
    FailSpots(s, c, err);
    PartitionMoves(s, FailCtx(s, c, err), c);
  }

  lemma FailCarries(s: Instance, c: Ctx, err: nat)
    requires PoolOk(s.pool) && Loaded(s) && Enabled(s, ArmFails(c, err))
    requires !Live(FailCtx(s, c, err), c) && forall x :: Armed(FailCtx(s, c, err), x) <==> Armed(s, x)
    ensures Loaded(FailCtx(s, c, err)) && Carries(s, c) && !Carries(FailCtx(s, c, err), c)
    ensures forall x :: x != c ==> (Carries(FailCtx(s, c, err), x) <==> Carries(s, x))
    ensures forall x :: x != c && Carries(s, x) && Carries(FailCtx(s, c, err), x) ==>
              Held(FailCtx(s, c, err), x) == Held(s, x)
  {
  }

  lemma FailSimulates(s: Instance, c: Ctx, err: nat)
    requires Good(s) && Enabled(s, ArmFails(c, err))
    ensures Simulates(s, FailCtx(s, c, err), Called(s.pool.entering[c].req, 0 - err))
  {
    FailPartition(s, c, err);
    FailSpots(s, c, err);
    FailCarries(s, c, err);
    LiveIsMade(s);
    LiveIsMade(FailCtx(s, c, err));
    PendingLess(s, FailCtx(s, c, err), c);
  }

  lemma WaitSimulates(s: Instance, fds: seq<int>)
    requires Good(s) && Enabled(s, Wait(fds))
    ensures Simulates(s, Next(s, Wait(fds)), Silent)
  {
    var s' := Next(s, Wait(fds));
    ArmedAfterWait(s, fds);
    forall x ensures Placed(s'.pool, x, Spots(s', x)) {
      assert Placed(s.pool, x, Spots(s, x));
      if Armed(s, x) { OneSpot(s, x, AtKernel); }
    }
    LiveIsMade(s);
    LiveIsMade(s');
    PendingSame(s, s');
  }

  lemma BatchTail(batch: seq<Ctx>)
    requires batch != [] && Distinct(batch)
    ensures Distinct(batch[1..]) && batch[0] !in batch[1..]
    ensures forall x :: x in batch <==> x == batch[0] || x in batch[1..]
  {
  }

  /** What becomes of the handled event's context. */
  ghost predicate Handled(s: Instance, s': Instance, c: Ctx) {
    && PoolOk(s'.pool) && OthersStay(s, s', c) && Placed(s'.pool, c, Spots(s', c))
    && s'.armed == s.armed && !Armed(s, c)
    && (forall x :: x in s.batch <==> x == c || x in s'.batch) && c !in s'.batch && Distinct(s'.batch)
  }

  lemma HandleSpots(s: Instance, res: int)
    requires Partition(s) && Loaded(s) && Enabled(s, Handle(res))
    ensures Handled(s, HandleNext(s, res), s.batch[0])
  {
    SpotMeaning(s, s.batch[0]);
    OneSpot(s, s.batch[0], Reported);
    BatchTail(s.batch);
    if s.running { CallSpots(s, res); } else { DiscardSpots(s, res); }
  }

  lemma CallSpots(s: Instance, res: int)
    requires Partition(s) && Loaded(s) && s.batch != [] && s.inCall.None? && s.running
    requires Spots(s, s.batch[0]) == {Reported} && Out(s.pool, s.batch[0])
    ensures OthersStay(s, HandleNext(s, res), s.batch[0])
    ensures Placed(HandleNext(s, res).pool, s.batch[0], Spots(HandleNext(s, res), s.batch[0]))
  {
    var s', c := HandleNext(s, res), s.batch[0];
    BatchTail(s.batch);
    assert forall x :: Armed(s', x) <==> Armed(s, x);
    SpotMeaning(s, c);
    assert Spots(s', c) == {InCallback};
  }

  lemma DiscardSpots(s: Instance, res: int)
    requires Partition(s) && Loaded(s) && s.batch != [] && s.inCall.None? && !s.running
    requires Spots(s, s.batch[0]) == {Reported} && Out(s.pool, s.batch[0])
    ensures PoolOk(HandleNext(s, res).pool) && OthersStay(s, HandleNext(s, res), s.batch[0])
    ensures Placed(HandleNext(s, res).pool, s.batch[0], Spots(HandleNext(s, res), s.batch[0]))
  {
    var s', c := HandleNext(s, res), s.batch[0];
    BatchTail(s.batch);
    PoolKeeps(s.pool, c, Held(s, c));
    assert forall x :: Armed(s', x) <==> Armed(s, x);
    SpotMeaning(s, c);
    assert Spots(s', c) == {};
  }

  lemma HandlePartition(s: Instance, res: int)
    requires Good(s) && Enabled(s, Handle(res))
    ensures Partition(HandleNext(s, res)) && Loaded(HandleNext(s, res))
  {
    HandleSpots(s, res);
    NotRegistered(s, s.batch[0]);
    PartitionMoves(s, HandleNext(s, res), s.batch[0]);
  }

  lemma HandleSimulates(s: Instance, res: int)
    requires Good(s) && Enabled(s, Handle(res))
    ensures Simulates(s, HandleNext(s, res), LabelOf(s, Handle(res)))
  {
    HandlePartition(s, res);
    HandleSpots(s, res);
    LiveIsMade(s);
    LiveIsMade(HandleNext(s, res));
    PendingLess(s, HandleNext(s, res), s.batch[0]);
  }

  /** A callback has returned; its context goes back to the free list. */
  ghost function Returned(s: Instance, c: Ctx): Instance
    requires c in s.pool.content
  {
    s.(pool := Release(s.pool, c), inCall := if s.inCall == Some(c) then None else s.inCall, failing := s.failing - {c})
  }

  lemma ReleasePartition(s: Instance, c: Ctx)
    requires Good(s) && (s.inCall == Some(c) || c in s.failing) && c in s.pool.content
    ensures Partition(Returned(s, c)) && Loaded(Returned(s, c))
    ensures !Armed(s, c) && c !in s.batch && c !in s.pool.entering
    ensures forall x :: Armed(Returned(s, c), x) <==> Armed(s, x)
  {
    var s' := Returned(s, c);
    SpotMeaning(s, c);
    OneSpot(s, c, if s.inCall == Some(c) then InCallback else InFailure);
    PoolKeeps(s.pool, c, Req(0, s.pool.content[c].op));
    assert forall x :: Armed(s', x) <==> Armed(s, x);
    NotRegistered(s, c);
    PartitionMoves(s, s', c);
  }

  lemma ReleaseSimulates(s: Instance, c: Ctx)
    requires Good(s) && (s.inCall == Some(c) || c in s.failing) && c in s.pool.content
    ensures Simulates(s, Returned(s, c), Silent)
  {
    ReleasePartition(s, c);
    LiveIsMade(s);
    LiveIsMade(Returned(s, c));
    PendingSame(s, Returned(s, c));
  }
}
