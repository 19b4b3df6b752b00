/** What epoll guarantees over whole runs, and exactly when it fails to. */
module EpollService {
  import opened Program
  import opened AsyncIo
  import opened Pool
  import opened Epoll
  import opened EpollProofs

  /** The registration of a descriptor that already has one. */
  ghost predicate Overwrites(s: Instance, e: Event) {
    e.Arm? && e.c in s.pool.content && s.pool.content[e.c].op.fd in s.armed
  }

  lemma StopSimulates(s: Instance)
    requires Good(s)
    ensures Simulates(s, s.(running := false), Stopped)
  {
    var s' := s.(running := false);
    assert forall x :: Armed(s', x) <==> Armed(s, x);
    assert forall x :: Spots(s', x) == Spots(s, x);
    assert forall x :: Placed(s'.pool, x, Spots(s', x)) <==> Placed(s.pool, x, Spots(s, x));
    LiveIsMade(s);
    PendingSame(s, s');
  }

  lemma SubmitterSimulates(s: Instance, e: Event)
    requires Good(s) && Enabled(s, e) && !Overwrites(s, e)
    requires e.Enter? || e.Recorded? || e.Filling? || e.Arm?
    ensures Simulates(s, Next(s, e), LabelOf(s, e))
  {
    match e {
      case Enter(req, c) => EnterSimulates(s, req, c);
      case Recorded(c) => RecordSimulates(s, c);
      case Filling(c) => FillSimulates(s, c);
      case Arm(c) => ArmSimulates(s, c);
    }
  }

  lemma LoopSimulates(s: Instance, e: Event)
    requires Good(s) && Enabled(s, e)
    requires !e.Enter? && !e.Recorded? && !e.Filling? && !e.Arm?
    ensures Simulates(s, Next(s, e), LabelOf(s, e))
  {
    match e {
      case ArmFails(c, err) => FailSimulates(s, c, err);
      case FailureDone(c) => DoneSimulates(s, e, c);
      case Wait(fds) => WaitSimulates(s, fds);
      case Handle(res) => HandleSimulates(s, res);
      case Return => DoneSimulates(s, e, s.inCall.value);
      case Stop => StopSimulates(s);
    }
  }

  lemma SimulatesGood(s: Instance, s': Instance, l: Label)
    requires Good(s) && Simulates(s, s', l)
    ensures Good(s')
  {
    ServiceKeeps(Abstract(s), l, Abstract(s'));
  }

  /** Forward simulation: every event that overwrites no registration is a step of the service. */
  lemma StepRefines(s: Instance, e: Event)
    requires Good(s) && Enabled(s, e) && !Overwrites(s, e)
    ensures Loaded(Next(s, e)) && ServiceStep(Abstract(s), LabelOf(s, e), Abstract(Next(s, e)))
    ensures Good(Next(s, e))
  {
    if e.Enter? || e.Recorded? || e.Filling? || e.Arm? { SubmitterSimulates(s, e); } else { LoopSimulates(s, e); }
    SimulatesGood(s, Next(s, e), LabelOf(s, e));
  }

  lemma DoneSimulates(s: Instance, e: Event, c: Ctx)
    requires Good(s) && Enabled(s, e) && ((e.Return? && s.inCall == Some(c)) || e == FailureDone(c))
    ensures Simulates(s, Next(s, e), Silent)
  {
    SpotMeaning(s, c);
    OneSpot(s, c, if e.Return? then InCallback else InFailure);
    ReleaseSimulates(s, c);
    assert Next(s, e) == Returned(s, c);
  }

  /** Overwriting a registration loses its operation: while the backend runs this is no step of
      the service. Together with StepRefines: a step refines iff it overwrites nothing. */
  lemma OverwriteLoses(s: Instance, e: Event, l: Label)
    requires Good(s) && Enabled(s, e) && Overwrites(s, e) && s.running
    ensures Loaded(Next(s, e)) && !ServiceStep(Abstract(s), l, Abstract(Next(s, e)))
    ensures var q := Held(s, s.armed[s.pool.content[e.c].op.fd]);
            q in Pending(s) && q !in Pending(Next(s, e)) && Next(s, e).called == s.called
  {
    var s', c, fd := Next(s, e), e.c, s.pool.content[e.c].op.fd;
    var d := s.armed[fd];
    SpotMeaning(s, c);
    InPool(s, c);
    NotRegistered(s, c);
    assert Armed(s, d);
    SpotMeaning(s, d);
    OneSpot(s, d, AtKernel);
    var q := Held(s, d);
    assert Carries(s, d);
    forall x | Carries(s', x) ensures Held(s', x) != q {
      if x == c {
        assert Carries(s, c);
      } else {
        if Armed(s', x) {
          var f :| f in s'.armed && s'.armed[f] == x;
          assert f != fd && s.armed[f] == x;
        }
        assert Carries(s, x) && Held(s', x) == Held(s, x) && x != d;
      }
    }
  }

  // ---- One outstanding operation per descriptor ----

  ghost predicate OnePerFd(pending: set<Req>) {
    forall p, q :: p in pending && q in pending && p.op.fd == q.op.fd ==> p == q
  }

  /** A caller that issues no second operation on a descriptor. */
  ghost predicate Disciplined(s: Instance, e: Event)
    requires Loaded(s)
  {
    e.Enter? ==> forall q :: q in Pending(s) ==> q.op.fd != e.req.op.fd
  }

  lemma CarriersDiffer(s: Instance, c: Ctx, d: Ctx)
    requires Loaded(s) && Apart(s) && OnePerFd(Pending(s)) && Carries(s, c) && Carries(s, d) && c != d
    ensures Held(s, c).op.fd != Held(s, d).op.fd
  {
    assert Held(s, c) in Pending(s) && Held(s, d) in Pending(s);
  }

  lemma DisciplineProtects(s: Instance, e: Event)
    requires Good(s) && Enabled(s, e) && OnePerFd(Pending(s))
    ensures !Overwrites(s, e)
  {
    if e.Arm? && s.pool.content[e.c].op.fd in s.armed {
      var c, d := e.c, s.armed[s.pool.content[e.c].op.fd];
      assert Armed(s, d);
      SpotMeaning(s, d);
      OneSpot(s, d, AtKernel);
      CarriersDiffer(s, c, d);
    }
  }

  lemma DisciplineKept(s: Instance, e: Event)
    requires Good(s) && Enabled(s, e) && OnePerFd(Pending(s)) && Disciplined(s, e)
    ensures Good(Next(s, e)) && OnePerFd(Pending(Next(s, e)))
    ensures ServiceStep(Abstract(s), LabelOf(s, e), Abstract(Next(s, e)))
  {
    DisciplineProtects(s, e);
    StepRefines(s, e);
    assert Abstract(s).pending == Pending(s) && Abstract(Next(s, e)).pending == Pending(Next(s, e));
  }

  /** From `s`, the events lead to `t`, and no caller has two operations on one descriptor. */
  ghost predicate Leads(s: Instance, es: seq<Event>, t: Instance)
    decreases |es|
  {
    if es == [] then t == s else
      Enabled(s, es[0]) && Loaded(s) && Disciplined(s, es[0]) && Leads(Next(s, es[0]), es[1..], t)
  }

  lemma {:induction false} LeadsKeeps(s: Instance, es: seq<Event>, t: Instance)
    requires Good(s) && OnePerFd(Pending(s)) && Leads(s, es, t)
    ensures Good(t) && OnePerFd(Pending(t)) && t.lost == s.lost
    decreases |es|
  {
    if es != [] {
      DisciplineProtects(s, es[0]);
      DisciplineKept(s, es[0]);
      LeadsKeeps(Next(s, es[0]), es[1..], t);
    }
  }

  lemma FreshGood()
    ensures Good(NEW_INSTANCE) && OnePerFd(Pending(NEW_INSTANCE))
  {
    assert forall c :: !Armed(NEW_INSTANCE, c);
    assert forall c :: Spots(NEW_INSTANCE, c) == {};
    assert Pending(NEW_INSTANCE) == {};
  }

  /** Whole runs, any interleaving of submitting threads, event loop and re-entrant callbacks:
      every accepted operation is pending, or was called back exactly once; the contexts stay
      partitioned and none is lost. */
  lemma EpollExactlyOnce(es: seq<Event>, t: Instance)
    requires Leads(NEW_INSTANCE, es, t)
    ensures Loaded(t) && ExactlyOnce(Abstract(t)) && Partition(t) && t.lost == {}
  {
    FreshGood();
    LeadsKeeps(NEW_INSTANCE, es, t);
  }

  /** The callback of the operation being handled may submit the next one on the same descriptor:
      its registration is gone by then. */
  lemma RearmFromCallback(s: Instance, res: int, req: Req)
    requires Good(s) && OnePerFd(Pending(s)) && Enabled(s, Handle(res)) && s.running
    requires req.op.fd == Held(s, s.batch[0]).op.fd
    ensures var s' := Next(s, Handle(res)); Loaded(s') && forall q :: q in Pending(s') ==> q.op.fd != req.op.fd
  {
    DisciplineKept(s, Handle(res));
    assert Abstract(Next(s, Handle(res))).pending == Pending(s) - {Held(s, s.batch[0])};
  }

  // ---- Two operations on one descriptor ----

  /** From `s`, the events lead to `t`, whatever the callers do. */
  ghost predicate Steps(s: Instance, es: seq<Event>, t: Instance)
    decreases |es|
  {
    if es == [] then t == s else Enabled(s, es[0]) && Steps(Next(s, es[0]), es[1..], t)
  }

  lemma StepsOnce(s: Instance, e: Event)
    requires Enabled(s, e)
    ensures Steps(s, [e], Next(s, e))
  {
    assert [e][1..] == [];
    assert Steps(Next(s, e), [], Next(s, e));
  }

  /** One thread inside async_io, with a new context. */
  ghost function Prepared(s: Instance, req: Req, c: Ctx): Instance
    requires s.running && s.pool.free == [] && c !in s.pool.made && req.id !in s.accepted
  {
    Next(Next(Next(s, Enter(req, c)), Recorded(c)), Filling(c))
  }

  lemma PreparedSteps(s: Instance, req: Req, c: Ctx)
    requires s.running && s.pool.free == [] && c !in s.pool.made && req.id !in s.accepted
    ensures Steps(s, [Enter(req, c)] + [Recorded(c)] + [Filling(c)], Prepared(s, req, c))
  {
    var s1 := Next(s, Enter(req, c));
    var s2 := Next(s1, Recorded(c));
    StepsOnce(s, Enter(req, c));
    StepsOnce(s1, Recorded(c));
    StepsOnce(s2, Filling(c));
    StepsThen(s, [Enter(req, c)], s1, [Recorded(c)], s2);
    StepsThen(s, [Enter(req, c)] + [Recorded(c)], s2, [Filling(c)], Prepared(s, req, c));
  }

  lemma PreparedGood(s: Instance, req: Req, c: Ctx)
    requires Good(s) && s.running && s.pool.free == [] && c !in s.pool.made && req.id !in s.accepted
    ensures Good(Prepared(s, req, c))
  {
    var s1 := Next(s, Enter(req, c));
    StepRefines(s, Enter(req, c));
    StepRefines(s1, Recorded(c));
    StepRefines(Next(s1, Recorded(c)), Filling(c));
  }

  lemma PreparedIs(s: Instance, req: Req, c: Ctx)
    requires s.running && s.pool.free == [] && c !in s.pool.made && req.id !in s.accepted
    ensures var t := Prepared(s, req, c);
            && t == s.(pool := t.pool, accepted := s.accepted + {req.id})
            && t.pool.free == [] && t.pool.made == s.pool.made + {c}
            && t.pool.entering == s.pool.entering[c := Claim(req, Filled)]
            && t.pool.content == s.pool.content[c := Content(req.op, Some(req.id))]
  {
  }

  lemma StepsThen(s: Instance, es: seq<Event>, t: Instance, fs: seq<Event>, u: Instance)
    requires Steps(s, es, t) && Steps(t, fs, u)
    ensures Steps(s, es + fs, u)
    decreases |es|
  {
    if es == [] {
      assert es + fs == fs;
    } else {
      StepsThen(Next(s, es[0]), es[1..], t, fs, u);
      assert (es + fs)[1..] == es[1..] + fs;
    }
  }

  /** A receive on descriptor 5 is armed, and a thread comes with a send on it. */
  ghost function TwoOnFive(): Instance {
    var q, p := Req(0, Request(IoEvent.Recv, 5, 8)), Req(1, Request(IoEvent.Send, 5, 8));
    PreparedIs(NEW_INSTANCE, q, 0);
    Prepared(Next(Prepared(NEW_INSTANCE, q, 0), Arm(0)), p, 1)
  }

  lemma TwoOnFiveIs()
    ensures var s := TwoOnFive();
            && s.running && s.called == [] && s.armed == map[5 := 0]
            && s.pool.entering == map[1 := Claim(Req(1, Request(IoEvent.Send, 5, 8)), Filled)]
            && s.pool.content == map[0 := Content(Request(IoEvent.Recv, 5, 8), Some(0)),
                                     1 := Content(Request(IoEvent.Send, 5, 8), Some(1))]
  {
    var q, p := Req(0, Request(IoEvent.Recv, 5, 8)), Req(1, Request(IoEvent.Send, 5, 8));
    PreparedIs(NEW_INSTANCE, q, 0);
    var s1 := Prepared(NEW_INSTANCE, q, 0);
    PreparedIs(Next(s1, Arm(0)), p, 1);
  }

  /** The receive alone, armed. */
  ghost function OneOnFive(): Instance {
    PreparedIs(NEW_INSTANCE, Req(0, Request(IoEvent.Recv, 5, 8)), 0);
    Next(Prepared(NEW_INSTANCE, Req(0, Request(IoEvent.Recv, 5, 8)), 0), Arm(0))
  }

  lemma FirstPreparedGood()
    ensures Good(Prepared(NEW_INSTANCE, Req(0, Request(IoEvent.Recv, 5, 8)), 0))
  {
    FreshGood();
    PreparedGood(NEW_INSTANCE, Req(0, Request(IoEvent.Recv, 5, 8)), 0);
  }

  lemma OneOnFiveGood()
    ensures Good(OneOnFive())
  {
    FirstPreparedGood();
    PreparedIs(NEW_INSTANCE, Req(0, Request(IoEvent.Recv, 5, 8)), 0);
    StepRefines(Prepared(NEW_INSTANCE, Req(0, Request(IoEvent.Recv, 5, 8)), 0), Arm(0));
  }

  lemma OneOnFiveIs()
    ensures var s := OneOnFive(); s.running && s.pool.free == [] && s.pool.made == {0} && s.accepted == {0}
  {
    PreparedIs(NEW_INSTANCE, Req(0, Request(IoEvent.Recv, 5, 8)), 0);
  }

  lemma TwoOnFiveGood()
    ensures Good(TwoOnFive())
  {
    OneOnFiveGood();
    OneOnFiveIs();
    PreparedGood(OneOnFive(), Req(1, Request(IoEvent.Send, 5, 8)), 1);
  }

  lemma TwoOnFiveReached()
    ensures exists es :: Steps(NEW_INSTANCE, es, TwoOnFive())
  {
    var q, p := Req(0, Request(IoEvent.Recv, 5, 8)), Req(1, Request(IoEvent.Send, 5, 8));
    PreparedIs(NEW_INSTANCE, q, 0);
    var s1 := Prepared(NEW_INSTANCE, q, 0);
    var s2 := Next(s1, Arm(0));
    PreparedSteps(NEW_INSTANCE, q, 0);
    StepsOnce(s1, Arm(0));
    PreparedSteps(s2, p, 1);
    var first := [Enter(q, 0)] + [Recorded(0)] + [Filling(0)];
    StepsThen(NEW_INSTANCE, first, s1, [Arm(0)], s2);
    StepsThen(NEW_INSTANCE, first + [Arm(0)], s2, [Enter(p, 1)] + [Recorded(1)] + [Filling(1)], TwoOnFive());
  }

  /** From the start, the second registration is enabled and overwrites the first, whose callback
      will never run. */
  lemma SecondOperationOverwrites()
    ensures exists es :: Steps(NEW_INSTANCE, es, TwoOnFive())
    ensures var s, q := TwoOnFive(), Req(0, Request(IoEvent.Recv, 5, 8));
            && Good(s) && Enabled(s, Arm(1)) && Overwrites(s, Arm(1))
            && q in Pending(s) && Loaded(Next(s, Arm(1))) && q !in Pending(Next(s, Arm(1)))
            && Next(s, Arm(1)).called == []
  {
    TwoOnFiveReached();
    TwoOnFiveGood();
    TwoOnFiveIs();
    FiveOverwritten(TwoOnFive());
  }

  lemma FiveOverwritten(s: Instance)
    requires Good(s) && s.running && s.armed == map[5 := 0] && 1 in s.pool.entering && s.pool.entering[1].stage.Filled?
    requires 0 in s.pool.content && s.pool.content[0] == Content(Request(IoEvent.Recv, 5, 8), Some(0))
    requires 1 in s.pool.content && s.pool.content[1].op.fd == 5 && 0 !in s.pool.entering
    ensures Enabled(s, Arm(1)) && Overwrites(s, Arm(1)) && Next(s, Arm(1)).called == s.called
    ensures var q := Req(0, Request(IoEvent.Recv, 5, 8));
            q in Pending(s) && Loaded(Next(s, Arm(1))) && q !in Pending(Next(s, Arm(1)))
  {
    OverwriteLoses(s, Arm(1), Silent);
  }
}
