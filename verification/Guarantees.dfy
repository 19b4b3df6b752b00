/** What the invariant means for a reader who does not know about chains. */
module Guarantees {
  import opened Lists
  import opened Program
  import opened Direct
  import opened Chains
  import opened Frames
  import opened Mirror
  import opened Simulation
  import opened Invariant
  import opened Meaning
  import opened RootSteps
  import opened Shutdown
  import opened Runs
  import opened Termination

  // ---- Ownership ----

  /** The frames whose task object owns `h`. */
  ghost function Owners(fs: map<Id, Frame>, h: Id): set<Id> {
    set p | p in fs && fs[p].task == Some(h)
  }

  lemma OwnerIsBelow(fs: map<Id, Frame>, chains: ChainMap, p: Id, h: Id)
    requires Mirrors(fs, chains) && p in fs && fs[p].task == Some(h)
    ensures h in fs && fs[h].depth == fs[p].depth + 1 && fs[h].root == fs[p].root
    ensures chains[fs[p].root].cells[fs[p].depth].id == p
  {
    assert Placed(fs, chains, p);
    var r, i := fs[p].root, fs[p].depth;
    Laid(fs, chains, r);
    assert At(fs, r, chains[r], i);
    assert At(fs, r, chains[r], i + 1);
  }

  lemma SingleOwner(fs: map<Id, Frame>, chains: ChainMap, h: Id)
    requires Mirrors(fs, chains) && h in fs
    ensures if fs[h].selfDestroy then Owners(fs, h) == {} else exists p :: Owners(fs, h) == {p}
  {
    assert Placed(fs, chains, h);
    var r, i := fs[h].root, fs[h].depth;
    Laid(fs, chains, r);
    assert At(fs, r, chains[r], i);
    forall p | p in Owners(fs, h) ensures i > 0 && p == chains[r].cells[i - 1].id {
      OwnerIsBelow(fs, chains, p, h);
    }
    if i > 0 {
      assert At(fs, r, chains[r], i - 1);
      assert Owners(fs, h) == {chains[r].cells[i - 1].id};
    }
  }

  /** As long as destroy_all comes at safe moments, the runtime itself never resumes or destroys a
      coroutine that is running, finished or gone. */
  lemma NeverFaults(code: Code, w: World)
    requires Reachable(code, w)
    ensures !w.fault
  {
    ReachableInv(code, w);
  }

  /** From `w`, the events lead to `w'`, and destroy_all comes whenever it can. */
  ghost predicate Anyhow(code: Code, w: World, es: seq<Event>, w': World)
    decreases |es|
  {
    if es == [] then w' == w else Enabled(w, es[0]) && Anyhow(code, Next(code, w, es[0]), es[1..], w')
  }

  /** Before event `k` the run had come to `u`; there it destroys a coroutine that somebody refers to. */
  ghost predicate UnsafeAt(code: Code, w: World, es: seq<Event>, k: nat, u: World) {
    k < |es| && es[k].DestroyAll? && Leads(code, w, es[..k], u) && !u.running && !ShutdownSafe(u)
  }

  lemma UnsafeLater(code: Code, w: World, es: seq<Event>, k: nat, u: World)
    requires es != [] && Legal(w, es[0]) && UnsafeAt(code, Next(code, w, es[0]), es[1..], k, u)
    ensures UnsafeAt(code, w, es, k + 1, u)
  {
    assert es[..k + 1][1..] == es[1..][..k];
  }

  lemma UnsafeFirst(code: Code, w: World, es: seq<Event>)
    requires es != [] && Enabled(w, es[0]) && !Legal(w, es[0])
    ensures UnsafeAt(code, w, es, 0, w)
  {
    assert es[..0] == [];
    assert Leads(code, w, [], w);
  }

  lemma InvNoFault(code: Code, w: World)
    requires Inv(code, w)
    ensures !w.fault
  {
    var chains: ChainMap :| Kept(code, w, chains);
  }

  ghost predicate SomeUnsafe(code: Code, w: World, es: seq<Event>) {
    exists k, u :: UnsafeAt(code, w, es, k, u)
  }

  lemma SomeUnsafeLater(code: Code, w: World, es: seq<Event>)
    requires es != [] && Legal(w, es[0]) && SomeUnsafe(code, Next(code, w, es[0]), es[1..])
    ensures SomeUnsafe(code, w, es)
  {
    var k, u :| UnsafeAt(code, Next(code, w, es[0]), es[1..], k, u);
    UnsafeLater(code, w, es, k, u);
  }

  lemma {:induction false} FaultComesFrom(code: Code, w: World, es: seq<Event>, w': World)
    requires Inv(code, w) && Anyhow(code, w, es, w') && w'.fault
    ensures SomeUnsafe(code, w, es)
    decreases |es|
  {
    if es == [] {
      InvNoFault(code, w);
    } else if Legal(w, es[0]) {
      StepKeepsInv(code, w, es[0]);
      FaultComesFrom(code, Next(code, w, es[0]), es[1..], w');
      SomeUnsafeLater(code, w, es);
    } else {
      UnsafeFirst(code, w, es);
    }
  }

  /** In every run at all, with destroy_all at any moment after stop(): the runtime uses a bad handle only
      after a destroy_all that came too early. */
  lemma OnlyShutdownFaults(code: Code, es: seq<Event>, w: World)
    requires Anyhow(code, EMPTY_WORLD, es, w) && w.fault
    ensures SomeUnsafe(code, EMPTY_WORLD, es)
  {
    assert Leads(code, EMPTY_WORLD, [], EMPTY_WORLD);
    ReachableInv(code, EMPTY_WORLD);
    FaultComesFrom(code, EMPTY_WORLD, es, w);
  }

  /** Linear ownership, for programs that await no empty or finished task: a released wrapper is owned
      by nobody but itself, any other frame by the task object of exactly one frame; nothing is
      destroyed twice, and no handle at all is used on a frame that is running, finished or gone. */
  lemma OwnershipLinear(code: Code, w: World, h: Id)
    requires Reachable(code, w) && h in w.frames
    requires forall r :: r in w.history && w.history[r].body.User? ==>
               !MisusesOn(code, w.history[r].body.p, w.history[r].fed)
    ensures !w.fault && w.misused == {}
    ensures if w.frames[h].selfDestroy then Owners(w.frames, h) == {} else exists p :: Owners(w.frames, h) == {p}
    ensures Distinct(w.destroyed) && h !in w.destroyed
  {
    ReachableInv(code, w);
    var chains: ChainMap :| Kept(code, w, chains);
    SingleOwner(w.frames, chains, h);
    forall r | r in w.misused ensures false { MisuseIff(code, w, r); }
  }

  /** Every frame ever created is alive or was destroyed, never both. */
  lemma FramesConserved(code: Code, w: World, h: Id)
    requires Reachable(code, w) && h < w.next
    ensures h in w.frames <==> h !in w.destroyed
  {
    ReachableInv(code, w);
  }

  /** The registry holds exactly the live detached wrappers that were added and have not been
      unregistered (or passed over by destroy_all), each once. */
  lemma RegistryIsExact(code: Code, w: World)
    requires Reachable(code, w)
    ensures Distinct(w.registry)
    ensures forall r :: r in w.registry <==>
              r in w.frames && w.frames[r].onDestroy
              && !(r in w.spawning && w.spawning[r] == ToRegister)
              && !(w.frames[r].status.Done? && w.frames[r].status.unregistered)
              && r !in w.skipped
  {
    ReachableInv(code, w);
    var chains: ChainMap :| Kept(code, w, chains);
    forall r | r in chains ensures r in w.frames && w.frames[r] == FrameAt(r, chains[r], 0) {
      RootsLive(w.frames, chains, r);
    }
    forall r | r in w.frames && w.frames[r].onDestroy ensures r in chains && chains[r].kind.Detached? {
      assert Placed(w.frames, chains, r);
      Laid(w.frames, chains, w.frames[r].root);
      assert At(w.frames, w.frames[r].root, chains[w.frames[r].root], w.frames[r].depth);
    }
  }

  /** `x` and `y` are suspended in operations on one descriptor. */
  ghost predicate SameFd(w: World, x: Id, y: Id) {
    && x in w.frames && y in w.frames && w.frames[x].status.InIo? && w.frames[y].status.InIo?
    && w.frames[x].status.op.fd == w.frames[y].status.op.fd
  }

  /** At this moment, each descriptor is used by the coroutines of one root only. */
  ghost predicate Owned(w: World) {
    forall x, y :: SameFd(w, x, y) ==> w.frames[x].root == w.frames[y].root
  }

  /** Frames waiting for I/O belong to different roots; so at most one operation per descriptor is
      outstanding if and only if no two roots use a descriptor at a time. */
  lemma OneOperationPerFd(code: Code, w: World)
    requires Inv(code, w)
    ensures Owned(w) <==> forall x, y :: SameFd(w, x, y) ==> x == y
  {
    forall x, y | SameFd(w, x, y) && w.frames[x].root == w.frames[y].root ensures x == y {
      OnlyOneWaits(code, w, x, y);
    }
  }

  lemma OnlyOneWaits(code: Code, w: World, x: Id, y: Id)
    requires Inv(code, w) && SameFd(w, x, y) && w.frames[x].root == w.frames[y].root
    ensures x == y
  {
    var chains: ChainMap :| Kept(code, w, chains);
    ActiveFrame(w.frames, chains, x);
    ActiveFrame(w.frames, chains, y);
  }

  /** A callback on its way refers to a live frame suspended in that very operation, and no
      other callback refers to the same frame. */
  lemma CallbackFindsItsFrame(code: Code, w: World, h: Id)
    requires Reachable(code, w)
    requires h in w.submitting || h in w.inflight || h in w.calling
    ensures h in w.frames && w.frames[h].status.InIo?
    ensures h in w.submitting ==> h !in w.inflight && h !in w.calling
    ensures h in w.inflight ==> h !in w.calling
  {
    ReachableInv(code, w);
  }

  // ---- Misuse ----

  /** A thread executes the root, or it has not been started. */
  ghost predicate OnItsWay(w: World, r: Id) {
    exists h :: h in w.frames && w.frames[h].root == r
                && (w.frames[h].status.Running? || (h == r && w.frames[h].status.Fresh?))
  }

  lemma OnItsWayIff(w: World, chains: ChainMap, r: Id)
    requires Mirrors(w.frames, chains)
    ensures OnItsWay(w, r) <==> r in chains && Shape(chains[r]) && (Top(chains[r]).Running? || Top(chains[r]).Fresh?)
  {
    if OnItsWay(w, r) {
      var h :| h in w.frames && w.frames[h].root == r
               && (w.frames[h].status.Running? || (h == r && w.frames[h].status.Fresh?));
      assert Placed(w.frames, chains, h);
      Laid(w.frames, chains, r);
      assert At(w.frames, r, chains[r], w.frames[h].depth) && At(w.frames, r, chains[r], 0);
    }
    if r in chains && Shape(chains[r]) && (Top(chains[r]).Running? || Top(chains[r]).Fresh?) {
      Laid(w.frames, chains, r);
      TopIs(w.frames, r, chains[r]);
      var h := chains[r].cells[chains[r].active].id;
      assert h in w.frames && w.frames[h].root == r
             && (w.frames[h].status.Running? || (h == r && w.frames[h].status.Fresh?));
    }
  }

  /** A chain that is not on its way: it stands at a misused await exactly if evaluation is stuck. */
  lemma StandsIffStuck(code: Code, hst: History, ch: Chain)
    requires Explains(code, hst, ch) && !Top(ch).Running? && !Top(ch).Fresh?
    ensures Top(ch).Undefined? <==> StuckOn(code, hst)
  {
    match Top(ch)
    case InIo(op, _) =>
      BlockedBody(code, hst, ch);
      var f: nat :| Eval(code, f, hst.body, None, hst.fed) == Blocked(hst.log, op);
      NotStuck(code, f, hst);
    case Done(_, _) =>
      DoneCompleted(code, hst, ch);
      FinishedOver(code, hst);
      assert StuckOn(code, hst) ==> StuckOn(code, hst.(phase := Finished));
    case Undefined => StuckBody(code, hst, ch);
  }

  /** In every run: a root has resumed an empty or finished task exactly if the direct run of its
      code, on the results it was given, does, and the root has got there. */
  lemma MisuseIff(code: Code, w: World, r: Id)
    requires Reachable(code, w) && r in w.history
    ensures w.history[r].body.User?
    ensures r in w.misused <==> MisusesOn(code, w.history[r].body.p, w.history[r].fed) && !OnItsWay(w, r)
  {
    ReachableInv(code, w);
    BodiesAreUsers(code, w, r);
    StuckIsMisuse(code, w.history[r]);
    MisusedIffStuck(code, w, r);
  }

  lemma MisusedIffStuck(code: Code, w: World, r: Id)
    requires Reachable(code, w) && r in w.history
    ensures r in w.misused <==> StuckOn(code, w.history[r]) && !OnItsWay(w, r)
  {
    ReachableInv(code, w);
    var chains: ChainMap :| Kept(code, w, chains);
    OnItsWayIff(w, chains, r);
    if r in chains {
      assert Explains(code, w.history[r], chains[r]);
      if !Top(chains[r]).Running? && !Top(chains[r]).Fresh? { StandsIffStuck(code, w.history[r], chains[r]); }
    } else {
      assert Over(code, w.history[r], r in w.misused);
    }
  }

  /** A call of detach or sync_wait, up to where a worker holds the new root's task. */
  lemma SpawnTaken(code: Code, kind: Kind, p: Point) returns (w: World)
    ensures Reachable(code, w) && w.running && 1 in w.taken && 1 in w.history
    ensures w.history[1].kind == kind && w.history[1].body == User(p)
  {
    var w1 := Next(code, EMPTY_WORLD, Spawn(kind, p));
    LeadsOnce(code, EMPTY_WORLD, Spawn(kind, p));
    var es, w2 := [Spawn(kind, p)], w1;
    if kind.Detached? {
      w2 := Next(code, w1, Register(1));
      LeadsNext(code, EMPTY_WORLD, es, w1, Register(1));
      es := es + [Register(1)];
    }
    var w3 := Next(code, w2, Enqueue(1));
    LeadsNext(code, EMPTY_WORLD, es, w2, Enqueue(1));
    w := Next(code, w3, Take);
    LeadsNext(code, EMPTY_WORLD, es + [Enqueue(1)], w3, Take);
  }

  /** A direct run of the user's own code awaits an empty or finished task. */
  ghost predicate MisusesOn(code: Code, p: Point, ios: seq<int>) {
    exists f: nat :: Run(code, f, p, None, ios).Misuses?
  }

  lemma StuckIsMisuse(code: Code, hst: History)
    requires hst.body.User?
    ensures StuckOn(code, hst) <==> MisusesOn(code, hst.body.p, hst.fed)
  {
    if f: nat :| Eval(code, f, hst.body, None, hst.fed).Stuck? {
      EvalIsRun(code, f, hst.body.p, None, hst.fed);
      assert Run(code, f, hst.body.p, None, hst.fed).Misuses?;
    }
    if f: nat :| Run(code, f, hst.body.p, None, hst.fed).Misuses? {
      EvalIsRun(code, f, hst.body.p, None, hst.fed);
      assert Eval(code, f, hst.body, None, hst.fed).Stuck?;
    }
  }

  /** Every root's body is user code. */
  lemma BodiesAreUsers(code: Code, w: World, r: Id)
    requires Inv(code, w) && r in w.history
    ensures w.history[r].body.User?
  {
  }

  /** Over all runs: a program misuses a task object in some run exactly if a direct run of it does,
      for some results of its operations. */
  lemma ProgramMisusesIff(code: Code, kind: Kind, p: Point)
    ensures (exists w, r :: MisusedBy(code, w, r, kind, p)) <==> (exists ios: seq<int> :: MisusesOn(code, p, ios))
  {
    if w, r :| MisusedBy(code, w, r, kind, p) {
      MisuseIff(code, w, r);
      assert MisusesOn(code, p, w.history[r].fed);
    }
    if ios: seq<int> :| MisusesOn(code, p, ios) {
      var f: nat :| Run(code, f, p, None, ios).Misuses?;
      var w := SpawnTaken(code, kind, p);
      ReachableInv(code, w);
      var es, w' := MisusesToo(code, w, 1, p, f, ios);
      AloneLeads(code, w, es, w', 1);
      ReachableLater(code, w, es, w');
      assert MisusedBy(code, w', 1, kind, p);
    }
  }

  ghost predicate MisusedBy(code: Code, w: World, r: Id, kind: Kind, p: Point) {
    Reachable(code, w) && r in w.misused && r in w.history && w.history[r].kind == kind && w.history[r].body == User(p)
  }

  /** A coroutine that awaits one task object twice. */
  function TwoAwaits(p: Point): Action<Point, int> {
    match p.pc
    case 0 => Create(Point(3, []), Point(1, []))
    case 1 => Await(o => Point(2, []))
    case 2 => Await(o => Point(3, []))
    case _ => Return(0)
  }

  lemma TwoAwaitsMisuse(kind: Kind)
    ensures exists w, r :: MisusedBy(TwoAwaits, w, r, kind, Point(0, []))
  {
    assert Run(TwoAwaits, 2, Point(3, []), None, []) == Leaves(Value(0), [], []);
    assert Run(TwoAwaits, 2, Point(2, []), None, []) == Misuses([]);
    assert Run(TwoAwaits, 3, Point(1, []), Some(Point(3, [])), []) == Misuses([]);
    assert Run(TwoAwaits, 4, Point(0, []), None, []) == Misuses([]);
    assert MisusesOn(TwoAwaits, Point(0, []), []);
    ProgramMisusesIff(TwoAwaits, kind, Point(0, []));
  }

  // ---- Meaning ----

  lemma CompletedFact(code: Code, w: World, r: Id)
    requires Inv(code, w) && r in w.history && w.history[r].phase.Finished?
    ensures Completed(code, w.history[r])
  {
  }

  lemma FinishedIsEval(code: Code, hst: History)
    requires Completed(code, hst)
    ensures exists f: nat, o, inner ::
              Eval(code, f, hst.body, None, hst.fed) == Ends(o, inner, []) && hst.log == inner + PromiseOf(hst.kind, o)
  {
    EntryUnfolds(code, hst.steps, hst.kind, hst.body, hst.fed, hst.log);
    var f: nat, o, inner :| Eval(code, f, hst.body, None, hst.fed) == Ends(o, inner, [])
                            && hst.log == inner + (if hst.kind.Synced? then [PromiseSet(o)] else []);
    assert hst.log == inner + PromiseOf(hst.kind, o);
  }

  /** The direct run of the root's code, on the results it was given, leaves `o` after `effects`. */
  ghost predicate RanTo(code: Code, hst: History, f: nat, o: Outcome, effects: seq<int>)
    requires hst.body.User?
  {
    && Run(code, f, hst.body.p, None, hst.fed) == Leaves(o, effects, [])
    && hst.log == Observed(effects) + PromiseOf(hst.kind, o)
  }

  lemma FinishedRan(code: Code, w: World, r: Id)
    requires Inv(code, w) && r in w.history && w.history[r].phase.Finished?
    ensures w.history[r].body.User?
    ensures exists f, o, effects :: RanTo(code, w.history[r], f, o, effects)
  {
    BodiesAreUsers(code, w, r);
    CompletedFact(code, w, r);
    var hst := w.history[r];
    FinishedIsEval(code, hst);
    var f: nat, o, inner :| Eval(code, f, hst.body, None, hst.fed) == Ends(o, inner, [])
                            && hst.log == inner + PromiseOf(hst.kind, o);
    EvalIsRun(code, f, hst.body.p, None, hst.fed);
    assert RanTo(code, hst, f, o, Run(code, f, hst.body.p, None, hst.fed).effects);
  }

  /** In every run: a coroutine that finished did exactly what the direct run of its code does on the
      I/O results it was given, and sync_wait's promise got its outcome, value or exception. */
  lemma FinishedIsDirect(code: Code, w: World, r: Id)
    requires Reachable(code, w) && r in w.history && w.history[r].phase.Finished?
    ensures w.history[r].body.User?
    ensures exists f, o, effects :: RanTo(code, w.history[r], f, o, effects)
  {
    ReachableInv(code, w);
    FinishedRan(code, w, r);
  }

  /** ... and every direct run that ends, ends that way. */
  lemma FinishedOneWay(code: Code, w: World, r: Id, f: nat)
    requires Reachable(code, w) && r in w.history && w.history[r].phase.Finished? && w.history[r].body.User?
    requires Run(code, f, w.history[r].body.p, None, w.history[r].fed) != Unsaid
    ensures var a := Run(code, f, w.history[r].body.p, None, w.history[r].fed);
            a.Leaves? && RanTo(code, w.history[r], f, a.outcome, a.effects)
  {
    FinishedIsDirect(code, w, r);
    var hst := w.history[r];
    var g, o, effects :| RanTo(code, hst, g, o, effects);
    if f <= g {
      RunMonotone(code, f, g, hst.body.p, hst.fed);
    } else {
      RunMonotone(code, g, f, hst.body.p, hst.fed);
    }
  }

  lemma SuspendedIsEval(code: Code, w: World, h: Id)
    requires Inv(code, w) && h in w.frames && w.frames[h].status.InIo?
    ensures w.frames[h].root in w.history
    ensures var hst := w.history[w.frames[h].root];
            exists f: nat :: Eval(code, f, hst.body, None, hst.fed) == Blocked(hst.log, w.frames[h].status.op)
  {
    var chains: ChainMap :| Kept(code, w, chains);
    ActiveFrame(w.frames, chains, h);
    var r := w.frames[h].root;
    BlockedBody(code, w.history[r], chains[r]);
  }

  /** The direct run of the root's code shows `effects` and then needs the result of `op`. */
  ghost predicate RanUpTo(code: Code, hst: History, f: nat, op: Request, effects: seq<int>)
    requires hst.body.User?
  {
    Run(code, f, hst.body.p, None, hst.fed) == Waits(effects, op) && hst.log == Observed(effects)
  }

  lemma SuspendedRan(code: Code, w: World, h: Id)
    requires Inv(code, w) && h in w.frames && w.frames[h].status.InIo?
    ensures w.frames[h].root in w.history && w.history[w.frames[h].root].body.User?
    ensures exists f, effects :: RanUpTo(code, w.history[w.frames[h].root], f, w.frames[h].status.op, effects)
  {
    SuspendedIsEval(code, w, h);
    BodiesAreUsers(code, w, w.frames[h].root);
    var hst, op := w.history[w.frames[h].root], w.frames[h].status.op;
    var f: nat :| Eval(code, f, hst.body, None, hst.fed) == Blocked(hst.log, op);
    EvalIsRun(code, f, hst.body.p, None, hst.fed);
    assert RanUpTo(code, hst, f, op, Run(code, f, hst.body.p, None, hst.fed).effects);
  }

  /** In every run: a coroutine suspended in an operation has shown exactly what the direct run of its
      code shows before it needs that operation's result. */
  lemma SuspendedIsDirect(code: Code, w: World, h: Id)
    requires Reachable(code, w) && h in w.frames && w.frames[h].status.InIo?
    ensures w.frames[h].root in w.history && w.history[w.frames[h].root].body.User?
    ensures exists f, effects :: RanUpTo(code, w.history[w.frames[h].root], f, w.frames[h].status.op, effects)
  {
    ReachableInv(code, w);
    SuspendedRan(code, w, h);
  }

  /** One root more, whose whole program is the child, still to be registered. */
  ghost predicate Detaches(w: World, w': World, child: Point) {
    var inner, r := w.next, w.next + 1;
    && w'.next == w.next + 2 && inner !in w.frames && r !in w.frames
    && r in w'.history && w'.history[r] == History(Detached, User(child), [], [], 0, Alive)
    && inner in w'.frames && w'.frames[inner] == Frame(Fresh(User(child)), None, None, false, false, r, 1)
    && r in w'.frames && w'.frames[r] == Frame(Fresh(Entry(Detached)), None, Some(inner), true, true, r, 0)
    && w'.spawning == w.spawning[r := ToRegister]
  }

  /** The frame `h` goes on at `next`, every other frame and the history of every other root is as before. */
  ghost predicate MovesOnly(w: World, w': World, h: Id, next: Point) {
    && h in w.frames && h in w'.frames && w'.frames[h] == w.frames[h].(status := Running(User(next)))
    && (forall x :: x in w.frames && x != h ==> x in w'.frames && w'.frames[x] == w.frames[x])
    && (forall x :: x in w.history && x != w.frames[h].root ==> x in w'.history && w'.history[x] == w.history[x])
  }

  lemma DetachIs(code: Code, w: World, h: Id, p: Point, child: Point, next: Point)
    requires h in w.frames && w.frames[h].status == Running(User(p)) && code(p) == Detach(child, next)
    requires w.frames[h].root in w.history
    ensures var on := NewRoot(SetStatus(w, h, Running(User(next))), Detached, User(child));
            ExecFrame(code, w, h) == Note(on, w.frames[h].root, [], [], 1)
  {
    assert Decode(code, User(p)) == Action<Body, Obs>.Detach(User(child), User(next));
  }

  lemma NewRootDetaches(w: World, h: Id, child: Point, next: Point)
    requires h in w.frames && w.frames[h].root in w.history && w.frames[h].root < w.next
    requires (forall x :: x in w.frames ==> x < w.next) && (forall x :: x in w.history ==> x < w.next)
    ensures var w' := Note(NewRoot(SetStatus(w, h, Running(User(next))), Detached, User(child)),
                           w.frames[h].root, [], [], 1);
            Detaches(w, w', child) && MovesOnly(w, w', h, next)
  {
  }

  ghost predicate IdsBelow(w: World, h: Id) {
    && h in w.frames && w.frames[h].root in w.history && w.frames[h].root < w.next
    && (forall x :: x in w.frames ==> x < w.next) && (forall x :: x in w.history ==> x < w.next)
  }

  lemma KnowsIds(code: Code, w: World, h: Id)
    requires Inv(code, w) && h in w.frames && w.frames[h].status.Running?
    ensures IdsBelow(w, h)
  {
    var chains: ChainMap :| Kept(code, w, chains);
    ActiveFrame(w.frames, chains, h);
  }

  lemma DetachFromBelow(code: Code, w: World, h: Id, p: Point, child: Point, next: Point)
    requires IdsBelow(w, h) && w.frames[h].status == Running(User(p)) && code(p) == Detach(child, next)
    ensures var w' := ExecFrame(code, w, h); Detaches(w, w', child) && MovesOnly(w, w', h, next)
  {
    DetachIs(code, w, h, p, child, next);
    NewRootDetaches(w, h, child, next);
  }

  /** A step of a frame whose code calls detach: the child becomes a program of its own. */
  lemma DetachMakesRoot(code: Code, w: World, h: Id, p: Point, child: Point, next: Point)
    requires Inv(code, w) && h in w.frames && w.frames[h].status == Running(User(p))
    requires code(p) == Detach(child, next)
    ensures var w' := ExecFrame(code, w, h); Detaches(w, w', child) && MovesOnly(w, w', h, next)
  {
    KnowsIds(code, w, h);
    DetachFromBelow(code, w, h, p, child, next);
  }

  /** Whatever a program comes to when run directly, some run of the runtime brings it there. */
  lemma Finishes(code: Code, kind: Kind, p: Point, f: nat, ios: seq<int>, a: Answer) returns (w: World, r: Id)
    requires a == Run(code, f, p, None, ios) && a.Leaves?
    ensures Reachable(code, w) && r in w.history
    ensures var hst := w.history[r];
            && hst.kind == kind && hst.body == User(p) && hst.phase.Finished?
            && hst.log == Observed(a.effects) + PromiseOf(kind, a.outcome) && hst.fed + a.rest == ios
  {
    r := 1;
    var u := SpawnTaken(code, kind, p);
    ReachableInv(code, u);
    var es;
    es, w := Terminates(code, u, r, p, f, ios, a);
    AloneLeads(code, u, es, w, r);
    ReachableLater(code, u, es, w);
  }

  // ---- An exception on its way to sync_wait ----

  /** The child throws; the parent catches what co_await rethrows, and throws it on. */
  function PassesOn(p: Point): Action<Point, int> {
    match p.pc
    case 0 => Create(Point(2, []), Point(1, []))
    case 1 => Await((o: Outcome) => if o.Exception? then Point(3, [o.e]) else Point(4, [o.v]))
    case 2 => Throw(7)
    case 3 => if p.locals == [] then Return(0) else Throw(p.locals[0])
    case _ => Return(0)
  }

  lemma PassesOnRuns()
    ensures Run(PassesOn, 4, Point(0, []), None, []) == Leaves(Exception(7), [], [])
  {
    assert Run(PassesOn, 1, Point(2, []), None, []) == Leaves(Exception(7), [], []);
    assert Run(PassesOn, 1, Point(3, [7]), None, []) == Leaves(Exception(7), [], []);
    assert Run(PassesOn, 2, Point(2, []), None, []) == Leaves(Exception(7), [], []);
    assert Run(PassesOn, 2, Point(3, [7]), None, []) == Leaves(Exception(7), [], []);
    assert Run(PassesOn, 3, Point(1, []), Some(Point(2, [])), []) == Leaves(Exception(7), [], []);
  }

  ghost predicate WaitedFor(w: World, r: Id, p: Point, fed: seq<int>, log: seq<Obs>) {
    r in w.history && w.history[r] == History(Synced, User(p), fed, log, w.history[r].steps, Finished)
  }

  /** sync_wait of that coroutine can come to its end, and the promise then holds the child's exception. */
  lemma ExceptionReachesSyncWait()
    ensures exists w, r ::
              Reachable(PassesOn, w) && WaitedFor(w, r, Point(0, []), [], [PromiseSet(Exception(7))])
  {
    PassesOnRuns();
    var w, r := Finishes(PassesOn, Synced, Point(0, []), 4, [], Leaves(Exception(7), [], []));
    assert Observed([]) + PromiseOf(Synced, Exception(7)) == [PromiseSet(Exception(7))];
    assert WaitedFor(w, r, Point(0, []), [], [PromiseSet(Exception(7))]);
  }

  // ---- sync_wait ----

  function Promises(log: seq<Obs>): nat {
    if log == [] then 0 else Promises(log[..|log| - 1]) + if log[|log| - 1].PromiseSet? then 1 else 0
  }

  lemma {:induction false} NoPromises(log: seq<Obs>)
    requires NoPromise(log)
    ensures Promises(log) == 0
    decreases |log|
  {
    if log != [] { NoPromises(log[..|log| - 1]); }
  }

  lemma PromiseCount(hst: History, ch: Chain)
    requires PromiseOnce(hst, ch) && hst.kind == ch.kind
    ensures Promises(hst.log) <= 1
    ensures ch.kind.Detached? ==> Promises(hst.log) == 0
    ensures ch.kind.Synced? && ch.cells[0].status.Done? ==> Promises(hst.log) == 1
  {
    if NoPromise(hst.log) { NoPromises(hst.log); } else { NoPromises(hst.log[..|hst.log| - 1]); }
  }

  lemma PromiseOfFinished(code: Code, hst: History)
    requires Completed(code, hst) && hst.body.User?
    ensures Promises(hst.log) == if hst.kind.Synced? then 1 else 0
  {
    EntryUnfolds(code, hst.steps, hst.kind, hst.body, hst.fed, hst.log);
    var f: nat, o, inner :| Eval(code, f, hst.body, None, hst.fed) == Ends(o, inner, [])
                            && hst.log == inner + (if hst.kind.Synced? then [PromiseSet(o)] else []);
    EvalNoPromise(code, f, hst.body, None, hst.fed);
    NoPromises(inner);
    if hst.kind.Synced? {
      assert hst.log[..|hst.log| - 1] == inner;
    } else {
      assert hst.log == inner;
    }
  }

  lemma RootGone(w: World, chains: ChainMap, r: Id)
    requires Mirrors(w.frames, chains) && r !in chains
    ensures forall h :: h in w.frames ==> w.frames[h].root != r
  {
    forall h | h in w.frames ensures w.frames[h].root != r { assert Placed(w.frames, chains, h); }
  }

  /** In every run and for every root that ever was: the promise is set at most once, by detach never,
      and exactly once by a sync_wait that has finished; and of a root that has finished or was
      destroyed no frame is left, neither the wrapper nor anything it owned. */
  lemma PromiseAtMostOnce(code: Code, w: World, r: Id)
    requires Reachable(code, w) && r in w.history
    ensures var hst := w.history[r];
            && Promises(hst.log) <= 1
            && (hst.kind.Detached? ==> Promises(hst.log) == 0)
            && (hst.kind.Synced? && hst.phase.Finished? ==> Promises(hst.log) == 1)
            && (!hst.phase.Alive? ==> forall h :: h in w.frames ==> w.frames[h].root != r)
  {
    ReachableInv(code, w);
    var chains: ChainMap :| Kept(code, w, chains);
    if r in chains {
      assert Explains(code, w.history[r], chains[r]);
      PromiseCount(w.history[r], chains[r]);
    } else {
      RootGone(w, chains, r);
      assert Over(code, w.history[r], r in w.misused);
      if w.history[r].phase.Killed? {
        NoPromises(w.history[r].log);
      } else {
        PromiseOfFinished(code, w.history[r]);
      }
    }
  }
}
