/** When destroy_all is safe, with everything that can still reach a coroutine: handles, event loops, and
    the kernel that holds the address of a buffer. */
module KernelShutdown {
  import opened Program
  import opened Chains
  import opened Frames
  import Simulation
  import opened Mirror
  import opened Invariant
  import opened Runs
  import opened Shutdown
  import opened ShutdownExact
  import opened AsyncIo
  import opened Pool
  import opened KernelMemory
  import B = Backends
  import J = JointSystem
  import E = Epoll
  import U = Uring
  import UringProofs
  import RootSteps

  /** destroy_all, whether or not the moment is a good one. */
  ghost function Destroyed(m: Machine): Machine {
    m.(j := m.j.(w := ShutDown(m.j.w), flying := J.StillFlying(m.j.flying, ShutDown(m.j.w))))
  }

  /** A bad handle was used, or the memory of a destroyed frame. */
  ghost predicate Harmed(m: Machine) {
    m.wild || m.j.w.fault
  }

  /** Some continuation does harm. */
  ghost predicate CanHarm(code: Code, m: Machine) {
    exists acts, t :: ActsLead(code, m, acts, t) && Harmed(t)
  }

  lemma HarmNow(code: Code, m: Machine)
    requires Harmed(m)
    ensures CanHarm(code, m)
  {
    assert ActsLead(code, m, [], m);
  }

  lemma HarmLater(code: Code, m: Machine, a: Act)
    requires Can(m, a) && CanHarm(code, Acted(code, m, a))
    ensures CanHarm(code, m)
  {
    var m' := Acted(code, m, a);
    var acts, t :| ActsLead(code, m', acts, t) && Harmed(t);
    assert ([a] + acts)[1..] == acts;
    assert ActsLead(code, m, [a] + acts, t);
  }

  // ---- A destroyed coroutine that somebody still refers to ----

  lemma PlainCan(m: Machine, e: Frames.Event)
    requires J.BackendOk(m.j) && J.IsPlain(e) && !e.DestroyAll? && Frames.Enabled(m.j.w, e)
    ensures Can(m, Moves(J.Plain(e)))
  {
    J.AllLoaded(m.j);
  }

  lemma StartHarms(code: Code, m: Machine, r: Id)
    requires J.BackendOk(m.j) && r in m.j.w.taken && r !in m.j.w.frames
    ensures CanHarm(code, m)
  {
    PlainCan(m, Start(r));
    HarmNow(code, Acted(code, m, Moves(J.Plain(Start(r)))));
    HarmLater(code, m, Moves(J.Plain(Start(r))));
  }

  lemma QuietMove(code: Code, m: Machine, e: Frames.Event)
    requires J.BackendOk(m.j) && (e.Take? || e.Enqueue?) && Frames.Enabled(m.j.w, e)
    ensures Can(m, Moves(J.Plain(e)))
    ensures var m' := Acted(code, m, Moves(J.Plain(e)));
            J.BackendOk(m'.j) && m'.j.w == Frames.Next(code, m.j.w, e) && m'.waiter == m.waiter && m'.wild == m.wild
  {
    PlainCan(m, e);
    J.QuietStay(code, m.j.w, e);
    J.PlainKeeps(code, m.j, e);
  }

  lemma {:induction false} QueueHarms(code: Code, m: Machine, k: nat)
    requires J.BackendOk(m.j) && k < |m.j.w.queue| && m.j.w.queue[k] !in m.j.w.frames
    ensures CanHarm(code, m)
    decreases k
  {
    QuietMove(code, m, Take);
    var m' := Acted(code, m, Moves(J.Plain(Take)));
    if k == 0 { StartHarms(code, m', m.j.w.queue[0]); } else { QueueHarms(code, m', k - 1); }
    HarmLater(code, m, Moves(J.Plain(Take)));
  }

  lemma TokenHarms(code: Code, m: Machine, r: Id)
    requires J.BackendOk(m.j) && r !in m.j.w.frames
    requires (r in m.j.w.spawning && m.j.w.spawning[r] == ToQueue) || r in m.j.w.queue || r in m.j.w.taken
    ensures CanHarm(code, m)
  {
    if r in m.j.w.taken {
      StartHarms(code, m, r);
    } else if r in m.j.w.queue {
      var k :| 0 <= k < |m.j.w.queue| && m.j.w.queue[k] == r;
      QueueHarms(code, m, k);
    } else {
      QuietMove(code, m, Enqueue(r));
      QueueHarms(code, Acted(code, m, Moves(J.Plain(Enqueue(r)))), |m.j.w.queue|);
      HarmLater(code, m, Moves(J.Plain(Enqueue(r))));
    }
  }

  lemma CallbackHarms(code: Code, m: Machine, h: Id)
    requires J.BackendOk(m.j) && h in m.j.w.calling && h !in m.j.w.frames
    ensures CanHarm(code, m)
  {
    PlainCan(m, Callback(h));
    HarmNow(code, Acted(code, m, Moves(J.Plain(Callback(h)))));
    HarmLater(code, m, Moves(J.Plain(Callback(h))));
  }

  // ---- ... from inside async_io ----

  lemma IgnoredHarms(code: Code, m: Machine, h: Id)
    requires J.BackendOk(m.j) && !m.j.w.running && h in m.j.w.submitting && h !in m.j.begun && h !in m.j.w.frames
    ensures CanHarm(code, m)
  {
    J.AllLoaded(m.j);
    assert Can(m, Moves(J.Ignored(h)));
    HarmNow(code, Acted(code, m, Moves(J.Ignored(h))));
    HarmLater(code, m, Moves(J.Ignored(h)));
  }

  /** Thread and context of a frame inside async_io. */
  ghost predicate Claims(m: Machine, h: Id, i: nat, c: Ctx) {
    && h in m.j.begun && h in m.j.w.submitting && i == J.ShardOfReq(m.j.begun[h]) && i < |m.j.inst|
    && c in B.PoolOf(m.j.inst[i]).entering && B.PoolOf(m.j.inst[i]).entering[c].req == m.j.begun[h]
  }

  lemma RegistersHarms(code: Code, m: Machine, h: Id, i: nat, c: Ctx)
    requires J.BackendOk(m.j) && Claims(m, h, i, c) && h !in m.j.w.frames && B.Enabled(m.j.inst[i], B.Register(c))
    ensures CanHarm(code, m)
  {
    J.AllLoaded(m.j);
    assert J.Can(m.j, J.Registers(h, c));
    J.RegistersAfter(code, m.j, h, c);
    HarmNow(code, Acted(code, m, Moves(J.Registers(h, c))));
    HarmLater(code, m, Moves(J.Registers(h, c)));
  }

  lemma RefusesHarms(code: Code, m: Machine, h: Id, i: nat, c: Ctx, err: nat)
    requires J.BackendOk(m.j) && Claims(m, h, i, c) && h !in m.j.w.frames && B.Enabled(m.j.inst[i], B.Fail(c, err))
    ensures CanHarm(code, m)
  {
    J.AllLoaded(m.j);
    assert J.Can(m.j, J.Refuses(h, c, err));
    J.RefusesAfter(code, m.j, h, c, err);
    HarmNow(code, Acted(code, m, Moves(J.Refuses(h, c, err))));
    HarmLater(code, m, Moves(J.Refuses(h, c, err)));
  }

  lemma InsideMove(code: Code, m: Machine, i: nat, f: B.Event)
    requires J.BackendOk(m.j) && i < |m.j.inst| && B.Inside(f) && !B.ByLoop(f) && B.Enabled(m.j.inst[i], f)
    ensures Can(m, Moves(J.Inside(i, f)))
    ensures var m' := Acted(code, m, Moves(J.Inside(i, f)));
            && J.BackendOk(m'.j) && m'.j == m.j.(inst := m.j.inst[i := B.Next(m.j.inst[i], f)])
            && m'.waiter == m.waiter && m'.wild == m.wild
  {
    J.AllLoaded(m.j);
    SoundHere(m.j, i);
    J.InsideKeeps(code, m.j, i, f);
  }

  /** The next thing that a thread inside async_io does with its context, until it is filled. */
  ghost function Progress(s: B.Instance, c: Ctx): B.Event
    requires c in B.PoolOf(s).entering
  {
    var New := B.PoolOf(s).entering[c].stage.New?;
    match s
    case Epolling(_) => B.EpollInside(if New then E.Recorded(c) else E.Filling(c))
    case Uringing(_) => B.UringInside(if New then U.Recorded(c) else U.Filling(c))
  }

  lemma ProgressIs(s: B.Instance, c: Ctx)
    requires c in B.PoolOf(s).entering && !B.PoolOf(s).entering[c].stage.Filled?
    ensures var f := Progress(s, c); B.Enabled(s, f) && B.Inside(f) && !B.ByLoop(f)
    ensures var e, e' := B.PoolOf(s).entering, B.PoolOf(B.Next(s, Progress(s, c))).entering;
            && c in e' && e'[c].req == e[c].req
            && e'[c].stage == if e[c].stage.New? then Got else Filled
  {
  }

  lemma FilledCan(s: B.Instance, c: Ctx)
    requires B.Sound(s) && c in B.PoolOf(s).entering && B.PoolOf(s).entering[c].stage.Filled?
    requires s.Uringing? ==> s.u.refusing.None?
    ensures B.Enabled(s, B.Register(c)) || B.Enabled(s, B.Fail(c, U.ENOMEM))
  {
  }

  lemma RefusalEnds(s: B.Instance, c: Ctx)
    requires B.Sound(s) && c in B.PoolOf(s).entering && s.Uringing? && s.u.refusing.Some?
    ensures var f := B.UringInside(U.RefusalDone);
            && B.Enabled(s, f) && B.Inside(f) && !B.ByLoop(f)
            && B.PoolOf(B.Next(s, f)).entering == B.PoolOf(s).entering && B.Next(s, f).u.refusing.None?
  {
    UringProofs.SpotMeaning(s.u, s.u.refusing.value);
    UringProofs.OneSpot(s.u, s.u.refusing.value, U.InRefusal);
  }

  lemma FilledHarms(code: Code, m: Machine, h: Id, i: nat, c: Ctx)
    requires J.BackendOk(m.j) && Claims(m, h, i, c) && h !in m.j.w.frames
    requires B.PoolOf(m.j.inst[i]).entering[c].stage.Filled?
    requires m.j.inst[i].Uringing? ==> m.j.inst[i].u.refusing.None?
    ensures CanHarm(code, m)
  {
    SoundHere(m.j, i);
    FilledCan(m.j.inst[i], c);
    if B.Enabled(m.j.inst[i], B.Register(c)) {
      RegistersHarms(code, m, h, i, c);
    } else {
      RefusesHarms(code, m, h, i, c, U.ENOMEM);
    }
  }

  lemma UnlockedHarms(code: Code, m: Machine, h: Id, i: nat, c: Ctx)
    requires J.BackendOk(m.j) && Claims(m, h, i, c) && h !in m.j.w.frames
    requires B.PoolOf(m.j.inst[i]).entering[c].stage.Filled?
    ensures CanHarm(code, m)
  {
    var s := m.j.inst[i];
    if s.Uringing? && s.u.refusing.Some? {
      SoundHere(m.j, i);
      RefusalEnds(s, c);
      InsideMove(code, m, i, B.UringInside(U.RefusalDone));
      FilledHarms(code, Acted(code, m, Moves(J.Inside(i, B.UringInside(U.RefusalDone)))), h, i, c);
      HarmLater(code, m, Moves(J.Inside(i, B.UringInside(U.RefusalDone))));
    } else {
      FilledHarms(code, m, h, i, c);
    }
  }

  lemma {:induction false} ClaimHarms(code: Code, m: Machine, h: Id, i: nat, c: Ctx)
    requires J.BackendOk(m.j) && Claims(m, h, i, c) && h !in m.j.w.frames
    ensures CanHarm(code, m)
    decreases match B.PoolOf(m.j.inst[i]).entering[c].stage case New => 2 case Got => 1 case Filled => 0
  {
    var s := m.j.inst[i];
    if B.PoolOf(s).entering[c].stage.Filled? {
      UnlockedHarms(code, m, h, i, c);
    } else {
      ProgressIs(s, c);
      InsideMove(code, m, i, Progress(s, c));
      ClaimHarms(code, Acted(code, m, Moves(J.Inside(i, Progress(s, c)))), h, i, c);
      HarmLater(code, m, Moves(J.Inside(i, Progress(s, c))));
    }
  }

  lemma BegunClaims(m: Machine, h: Id) returns (i: nat, c: Ctx)
    requires J.BackendOk(m.j) && h in m.j.begun
    ensures Claims(m, h, i, c)
  {
    i := J.ShardOfReq(m.j.begun[h]);
    assert J.InstanceOk(m.j.inst[i], i, m.j.begun, m.j.flying, m.j.w.running, m.j.nextTag);
    assert m.j.begun[h] in B.Entering(m.j.inst[i]);
    c :| c in B.PoolOf(m.j.inst[i]).entering && B.PoolOf(m.j.inst[i]).entering[c].req == m.j.begun[h];
  }

  lemma SubmitHarms(code: Code, m: Machine, h: Id)
    requires J.BackendOk(m.j) && !m.j.w.running && h in m.j.w.submitting && h !in m.j.w.frames
    ensures CanHarm(code, m)
  {
    if h in m.j.begun {
      var i, c := BegunClaims(m, h);
      ClaimHarms(code, m, h, i, c);
    } else {
      IgnoredHarms(code, m, h);
    }
  }

  // ---- ... or from the kernel ----

  lemma AccessHarms(code: Code, m: Machine, i: nat, c: Ctx, q: Req)
    requires i < |m.j.inst| && UsesAt(m.j.inst[i], c, q) && q.id in m.waiter && m.waiter[q.id] !in m.j.w.frames
    ensures CanHarm(code, m)
  {
    var h := m.waiter[q.id];
    assert MayAccess(m, h);
    HarmNow(code, Acted(code, m, Accesses(h)));
    HarmLater(code, m, Accesses(h));
  }

  lemma TakesEntry(s: B.Instance, c: Ctx, q: Req, k: nat)
    requires HoldsAt(s, c, q) && k < |s.u.sq| && s.u.sq[k] == c && !(k == 0 && q.op.event.Connect?)
    ensures var f := B.UringInside(U.KernelTakes);
            && B.Enabled(s, f) && B.Inside(f) && !B.ByLoop(f) && B.Next(s, f).Uringing?
            && (k == 0 ==> UsesAt(B.Next(s, f), c, q))
            && (k > 0 ==>
                  && HoldsAt(B.Next(s, f), c, q)
                  && |B.Next(s, f).u.sq| == |s.u.sq| - 1 && B.Next(s, f).u.sq[k - 1] == c)
  {
  }

  lemma TakesMove(code: Code, m: Machine, i: nat, c: Ctx, q: Req, k: nat) returns (t: Machine)
    requires J.BackendOk(m.j) && i < |m.j.inst| && HoldsAt(m.j.inst[i], c, q)
    requires k < |m.j.inst[i].u.sq| && m.j.inst[i].u.sq[k] == c && !(k == 0 && q.op.event.Connect?)
    ensures J.BackendOk(t.j) && t.j.w == m.j.w && t.waiter == m.waiter && |t.j.inst| == |m.j.inst|
    ensures k == 0 ==> UsesAt(t.j.inst[i], c, q)
    ensures k > 0 ==> HoldsAt(t.j.inst[i], c, q) && k <= |t.j.inst[i].u.sq| && t.j.inst[i].u.sq[k - 1] == c
    ensures CanHarm(code, t) ==> CanHarm(code, m)
  {
    var take := B.UringInside(U.KernelTakes);
    TakesEntry(m.j.inst[i], c, q, k);
    InsideMove(code, m, i, take);
    t := Acted(code, m, Moves(J.Inside(i, take)));
    if CanHarm(code, t) { HarmLater(code, m, Moves(J.Inside(i, take))); }
  }

  /** Entry `k` of a ring is the request `q` of a frame that is gone. */
  ghost predicate Orphan(m: Machine, i: nat, c: Ctx, q: Req, k: nat) {
    && i < |m.j.inst| && HoldsAt(m.j.inst[i], c, q) && k < |m.j.inst[i].u.sq| && m.j.inst[i].u.sq[k] == c
    && q.id in m.waiter && m.waiter[q.id] !in m.j.w.frames
  }

  lemma FirstHarms(code: Code, m: Machine, i: nat, c: Ctx, q: Req)
    requires J.BackendOk(m.j) && Orphan(m, i, c, q, 0)
    ensures CanHarm(code, m)
  {
    if q.op.event.Connect? {
      AccessHarms(code, m, i, c, q);
    } else {
      var t := TakesMove(code, m, i, c, q, 0);
      AccessHarms(code, t, i, c, q);
    }
  }

  /** The kernel gets at every buffer whose address it has: at once, or after it has taken the entries
      before. */
  lemma {:induction false} EntryHarms(code: Code, m: Machine, i: nat, c: Ctx, q: Req, k: nat)
    requires J.BackendOk(m.j) && Orphan(m, i, c, q, k)
    ensures CanHarm(code, m)
    decreases k
  {
    if k == 0 {
      FirstHarms(code, m, i, c, q);
    } else {
      var t := TakesMove(code, m, i, c, q, k);
      EntryHarms(code, t, i, c, q, k - 1);
    }
  }

  lemma KernelHarms(code: Code, m: Machine, q: Req)
    requires J.BackendOk(m.j) && KernelHas(m.j.inst, q) && q.id in m.waiter && m.waiter[q.id] !in m.j.w.frames
    ensures CanHarm(code, m)
  {
    var i, c :| 0 <= i < |m.j.inst| && HoldsAt(m.j.inst[i], c, q);
    if c in m.j.inst[i].u.sq {
      var k :| 0 <= k < |m.j.inst[i].u.sq| && m.j.inst[i].u.sq[k] == c;
      EntryHarms(code, m, i, c, q, k);
    } else {
      AccessHarms(code, m, i, c, q);
    }
  }

  // ---- The exact condition ----

  /** No thread, task or callback refers to a registered coroutine, and the kernel has no buffer of one. */
  ghost predicate SafeMoment(m: Machine) {
    ShutdownSafe(m.j.w) && BuffersFree(m)
  }

  lemma DestroyedOk(m: Machine)
    requires J.BackendOk(m.j) && !m.j.w.running
    ensures J.BackendOk(Destroyed(m).j) && Destroyed(m).j.inst == m.j.inst && Destroyed(m).j.w == ShutDown(m.j.w)
  {
    J.ShutDownStay(m.j.w);
    J.FewerFly(m.j, ShutDown(m.j.w));
  }

  lemma DestroyedSafe(code: Code, m: Machine)
    requires Safe(code, m) && !m.j.w.running && SafeMoment(m)
    ensures Safe(code, Destroyed(m))
  {
    J.AllLoaded(m.j);
    assert Can(m, Moves(J.Plain(DestroyAll)));
    SafeStep(code, m, Moves(J.Plain(DestroyAll)));
    assert Acted(code, m, Moves(J.Plain(DestroyAll))) == Destroyed(m);
  }

  lemma NoHarm(code: Code, m: Machine)
    requires Safe(code, m)
    ensures !CanHarm(code, m)
  {
    forall acts, t | ActsLead(code, m, acts, t) ensures !Harmed(t) {
      LeadsSafe(code, m, acts, t);
      var chains: ChainMap :| Kept(code, t.j.w, chains);
    }
  }

  /** The registered coroutine whose frame `h` is suspended dies. */
  lemma WaiterDies(w: World, chains: ChainMap, h: Id)
    requires FramesKept(w, chains) && RootsKept(w, chains) && h in w.frames && w.frames[h].status.InIo?
    requires w.frames[h].root in w.registry
    ensures ShutDown(w).fault || h !in ShutDown(w).frames
  {
    Simulation.ActiveFrame(w.frames, chains, h);
    RegisteredDies(w, chains, w.frames[h].root);
  }

  lemma BufferHarms(code: Code, m: Machine, chains: ChainMap, q: Req)
    requires Safe(code, m) && Kept(code, m.j.w, chains) && !m.j.w.running && KernelHas(m.j.inst, q)
    requires q.id in m.waiter && m.waiter[q.id] in m.j.w.frames
    requires m.j.w.frames[m.waiter[q.id]].root in m.j.w.registry
    ensures CanHarm(code, Destroyed(m))
  {
    DestroyedOk(m);
    WaiterDies(m.j.w, chains, m.waiter[q.id]);
    if ShutDown(m.j.w).fault { HarmNow(code, Destroyed(m)); } else { KernelHarms(code, Destroyed(m), q); }
  }

  lemma TouchedHarms(code: Code, m: Machine, chains: ChainMap, h: Id)
    requires FramesKept(m.j.w, chains) && RootsKept(m.j.w, chains) && J.BackendOk(m.j) && !m.j.w.running
    requires h in m.j.w.frames && m.j.w.frames[h].root in m.j.w.registry
    requires m.j.w.frames[h].status.Running? || h in m.j.w.submitting || h in m.j.w.calling
    ensures CanHarm(code, Destroyed(m))
  {
    DestroyedOk(m);
    TouchedChain(m.j.w, chains, h);
    RegisteredDies(m.j.w, chains, m.j.w.frames[h].root);
    if m.j.w.frames[h].status.Running? { RunningFaults(m.j.w, chains, h); }
    if ShutDown(m.j.w).fault {
      HarmNow(code, Destroyed(m));
    } else if h in m.j.w.submitting {
      SubmitHarms(code, Destroyed(m), h);
    } else {
      CallbackHarms(code, Destroyed(m), h);
    }
  }

  ghost predicate Unstarted(w: World, r: Id) {
    r in w.registry && (r in w.spawning || r in w.queue || r in w.taken)
  }

  lemma UnstartedFacts(w: World, chains: ChainMap, r: Id)
    requires RootsKept(w, chains) && Unstarted(w, r)
    ensures r in chains && RootFresh(chains[r]) && !PastBody(chains[r])
    ensures r in w.spawning ==> w.spawning[r] == ToQueue
  {
    assert Listed(w.spawning, r, chains[r]);
  }

  lemma UnstartedDies(w: World, chains: ChainMap, r: Id)
    requires FramesKept(w, chains) && RootsKept(w, chains) && Unstarted(w, r)
    ensures ShutDown(w).fault || r !in ShutDown(w).frames
  {
    UnstartedFacts(w, chains, r);
    RegisteredDies(w, chains, r);
    if !ShutDown(w).fault { RootFrame(w, chains, r); }
  }

  lemma RootFrame(w: World, chains: ChainMap, r: Id)
    requires Mirrors(w.frames, chains) && r in chains
    ensures r in w.frames && w.frames[r].root == r
  {
    RootSteps.RootsLive(w.frames, chains, r);
  }

  lemma UnstartedHarms(code: Code, m: Machine, r: Id)
    requires J.BackendOk(m.j) && !m.j.w.running && Unstarted(m.j.w, r)
    requires r in m.j.w.spawning ==> m.j.w.spawning[r] == ToQueue
    requires ShutDown(m.j.w).fault || r !in ShutDown(m.j.w).frames
    ensures CanHarm(code, Destroyed(m))
  {
    DestroyedOk(m);
    if ShutDown(m.j.w).fault { HarmNow(code, Destroyed(m)); } else { TokenHarms(code, Destroyed(m), r); }
  }

  ghost predicate TouchedFrame(w: World, h: Id) {
    h in w.frames && w.frames[h].root in w.registry
    && (w.frames[h].status.Running? || h in w.submitting || h in w.calling)
  }

  lemma SomeReference(w: World)
    requires !ShutdownSafe(w)
    ensures (exists r :: Unstarted(w, r)) || (exists h :: TouchedFrame(w, h))
  {
    var r :| r in w.registry && (r in w.spawning || r in w.queue || r in w.taken || !Untouched(w, r));
    if Untouched(w, r) {
      assert Unstarted(w, r);
    } else {
      var h :| h in w.frames && w.frames[h].root == r
               && (w.frames[h].status.Running? || h in w.submitting || h in w.calling);
      assert TouchedFrame(w, h);
    }
  }

  lemma ReferredHarms(code: Code, m: Machine, chains: ChainMap)
    requires FramesKept(m.j.w, chains) && RootsKept(m.j.w, chains) && J.BackendOk(m.j) && !m.j.w.running
    requires !ShutdownSafe(m.j.w)
    ensures CanHarm(code, Destroyed(m))
  {
    SomeReference(m.j.w);
    if r :| Unstarted(m.j.w, r) {
      UnstartedFacts(m.j.w, chains, r);
      UnstartedDies(m.j.w, chains, r);
      UnstartedHarms(code, m, r);
    } else {
      var h :| TouchedFrame(m.j.w, h);
      TouchedHarms(code, m, chains, h);
    }
  }

  ghost predicate Reached(code: Code, m: Machine) {
    exists start, acts :: Started(start) && ActsLead(code, start, acts, m)
  }

  lemma ReachedSafe(code: Code, m: Machine)
    requires Reached(code, m)
    ensures Safe(code, m)
  {
    var start, acts :| Started(start) && ActsLead(code, start, acts, m);
    StartsSafe(code, start);
    LeadsSafe(code, start, acts, m);
  }

  lemma UnsafeHarms(code: Code, m: Machine)
    requires Safe(code, m) && !m.j.w.running && !SafeMoment(m)
    ensures CanHarm(code, Destroyed(m))
  {
    var chains: ChainMap :| Kept(code, m.j.w, chains);
    if !ShutdownSafe(m.j.w) {
      ReferredHarms(code, m, chains);
    } else {
      var q :| KernelHas(m.j.inst, q) && q.id in m.waiter && m.waiter[q.id] in m.j.w.frames
               && m.j.w.frames[m.waiter[q.id]].root in m.j.w.registry;
      BufferHarms(code, m, chains, q);
    }
  }

  /** After stop(), over instances of either backend: destroy_all is harmless in all futures exactly if it
      comes at a safe moment. */
  lemma HarmlessIff(code: Code, m: Machine)
    requires Reached(code, m) && !m.j.w.running
    ensures !CanHarm(code, Destroyed(m)) <==> SafeMoment(m)
  {
    ReachedSafe(code, m);
    if SafeMoment(m) {
      DestroyedSafe(code, m);
      NoHarm(code, Destroyed(m));
    } else {
      UnsafeHarms(code, m);
    }
  }

  /** Under epoll no kernel holds a buffer, and the condition is the one about handles. */
  lemma EpollHarmlessIff(code: Code, m: Machine)
    requires Reached(code, m) && !m.j.w.running && forall i :: 0 <= i < |m.j.inst| ==> m.j.inst[i].Epolling?
    ensures !CanHarm(code, Destroyed(m)) <==> ShutdownSafe(m.j.w)
  {
    HarmlessIff(code, m);
  }
}
