/** Whole runs: any interleaving of any number of threads, coroutines and I/O answers. */
module Runs {
  import opened Program
  import opened Chains
  import opened Frames
  import opened Mirror
  import opened Simulation
  import opened Invariant
  import opened RootSteps
  import opened Steps
  import opened Shutdown

  /** A step that can happen; destroy_all only where shutdown() may call it. */
  ghost predicate Legal(w: World, e: Event) {
    Enabled(w, e) && (e.DestroyAll? ==> ShutdownSafe(w))
  }

  /** From `w`, the events lead to `w'`. */
  ghost predicate Leads(code: Code, w: World, es: seq<Event>, w': World)
    decreases |es|
  {
    if es == [] then w' == w else Legal(w, es[0]) && Leads(code, Next(code, w, es[0]), es[1..], w')
  }

  ghost predicate Reachable(code: Code, w: World) {
    exists es :: Leads(code, EMPTY_WORLD, es, w)
  }

  lemma ExecKeeps(code: Code, w: World, chains: ChainMap, h: Id)
    requires Kept(code, w, chains) && h in w.frames && w.frames[h].status.Running?
    ensures Inv(code, ExecFrame(code, w, h))
  {
    ActiveFrame(w.frames, chains, h);
    var chains' := KeptExec(code, w, chains, h, w.frames[h].root);
  }

  lemma StartKeeps(code: Code, w: World, chains: ChainMap, r: Id)
    requires Kept(code, w, chains) && r in w.taken
    ensures Inv(code, StartRoot(w, r))
  {
    KeptStart(code, w, chains, r);
  }

  lemma CallbackKeeps(code: Code, w: World, chains: ChainMap, h: Id)
    requires Kept(code, w, chains) && h in w.calling
    ensures Inv(code, Deliver(UseUp(w, h), h, w.calling[h], LoopThread))
  {
    DeliverKeeps(code, w, chains, h, w.calling[h], LoopThread);
  }

  lemma RefusalIs(w: World, chains: ChainMap, h: Id, err: nat) returns (t: Runner)
    requires Mirrors(w.frames, chains) && Threads(w.runner, w.submitting, chains)
    requires h in w.frames && w.frames[h].status.InIo? && h in w.submitting
    ensures w.frames[h].root in w.runner && t == w.runner[w.frames[h].root]
    ensures RefuseOp(w, h, err) == Deliver(UseUp(w, h), h, Negative(err), t)
  {
    ActiveFrame(w.frames, chains, h);
    assert Busy(w.submitting, chains[w.frames[h].root]);
    t := w.runner[w.frames[h].root];
  }

  lemma RefuseKeeps(code: Code, w: World, chains: ChainMap, h: Id, err: nat)
    requires Kept(code, w, chains) && h in w.submitting
    ensures Inv(code, RefuseOp(w, h, err))
  {
    var t := RefusalIs(w, chains, h, err);
    DeliverKeeps(code, w, chains, h, Negative(err), t);
  }

  lemma DeliverKeeps(code: Code, w: World, chains: ChainMap, h: Id, res: int, t: Runner)
    requires Kept(code, w, chains) && (w.joined ==> t.PoolThread?) && h in w.frames && w.frames[h].status.InIo?
    ensures Inv(code, Deliver(UseUp(w, h), h, res, t))
  {
    KeptSuspended(code, w, chains, h);
    var chains' := KeptDelivery(code, w, chains, h, w.frames[h].root, res, t);
  }

  lemma KeptDelivery(code: Code, w: World, chains: ChainMap, h: Id, r: Id, res: int, t: Runner)
    returns (chains': ChainMap)
    requires Kept(code, w, chains) && (w.joined ==> t.PoolThread?)
    requires r in chains && Shape(chains[r]) && Top(chains[r]).InIo? && h == chains[r].cells[chains[r].active].id
    ensures Kept(code, Deliver(UseUp(w, h), h, res, t), chains')
  {
    chains' := chains[r := ResumeChain(chains[r], res)];
    KeptDeliver(code, w, chains, h, r, res, t);
  }

  lemma KeptSuspended(code: Code, w: World, chains: ChainMap, h: Id)
    requires Kept(code, w, chains) && h in w.frames && w.frames[h].status.InIo?
    ensures var r := w.frames[h].root;
            && r in chains && Shape(chains[r]) && Top(chains[r]).InIo?
            && h == chains[r].cells[chains[r].active].id
  {
    ActiveFrame(w.frames, chains, h);
  }

  lemma UnregisterKeeps(code: Code, w: World, chains: ChainMap, h: Id)
    requires Kept(code, w, chains) && h in w.frames && w.frames[h].selfDestroy
    requires w.frames[h].status.Done? && !w.frames[h].status.unregistered
    ensures Inv(code, UnregisterRoot(w, h))
  {
    FinalRoot(w.frames, chains, h);
    KeptUnregister(code, w, chains, h);
  }

  lemma DestroyKeeps(code: Code, w: World, chains: ChainMap, h: Id)
    requires Kept(code, w, chains) && h in w.frames && w.frames[h].selfDestroy
    requires w.frames[h].status.Done? && w.frames[h].status.unregistered
    ensures Inv(code, DestroyRoot(w, h))
  {
    FinalRoot(w.frames, chains, h);
    KeptDestroySelf(code, w, chains, h);
  }

  ghost predicate AboutRoots(e: Event) {
    e.Spawn? || e.Register? || e.Enqueue? || e.Take? || e.Start?
  }

  ghost predicate AboutIo(e: Event) {
    e.Submit? || e.Refuse? || e.Harvest? || e.Callback? || e.Discard?
  }

  lemma RootStepKeeps(code: Code, w: World, chains: ChainMap, e: Event)
    requires Kept(code, w, chains) && AboutRoots(e) && Enabled(w, e)
    ensures Inv(code, Next(code, w, e))
  {
    match e {
      case Spawn(kind, p) => KeptNewRoot(code, w, chains, kind, User(p));
      case Register(r) => KeptRegister(code, w, chains, r);
      case Enqueue(r) => KeptEnqueue(code, w, chains, r);
      case Take => KeptTake(code, w, chains);
      case Start(r) => StartKeeps(code, w, chains, r);
    }
  }

  lemma IoStepKeeps(code: Code, w: World, chains: ChainMap, e: Event)
    requires Kept(code, w, chains) && AboutIo(e) && Enabled(w, e)
    ensures Inv(code, Next(code, w, e))
  {
    match e {
      case Submit(h) => KeptSubmit(code, w, chains, h);
      case Refuse(h, err) => RefuseKeeps(code, w, chains, h, err);
      case Harvest(h, res) => KeptHarvest(code, w, chains, h, res);
      case Callback(h) => CallbackKeeps(code, w, chains, h);
      case Discard(h) => KeptDiscard(code, w, chains, h);
    }
  }

  lemma OtherStepKeeps(code: Code, w: World, chains: ChainMap, e: Event)
    requires Kept(code, w, chains) && !AboutRoots(e) && !AboutIo(e) && Legal(w, e)
    ensures Inv(code, Next(code, w, e))
  {
    match e {
      case Exec(h) => ExecKeeps(code, w, chains, h);
      case Unregister(h) => UnregisterKeeps(code, w, chains, h);
      case DestroySelf(h) => DestroyKeeps(code, w, chains, h);
      case Stop => KeptStop(code, w, chains);
      case Join => KeptJoin(code, w, chains);
      case DestroyAll => KeptShutDown(code, w, chains);
    }
  }

  /** Every step of every thread keeps the invariant. */
  lemma StepKeepsInv(code: Code, w: World, e: Event)
    requires Inv(code, w) && Legal(w, e)
    ensures Inv(code, Next(code, w, e))
  {
    var chains: ChainMap :| Kept(code, w, chains);
    if AboutRoots(e) {
      RootStepKeeps(code, w, chains, e);
    } else if AboutIo(e) {
      IoStepKeeps(code, w, chains, e);
    } else {
      OtherStepKeeps(code, w, chains, e);
    }
  }

  lemma {:induction false} LeadsKeepsInv(code: Code, w: World, es: seq<Event>, w': World)
    requires Inv(code, w) && Leads(code, w, es, w')
    ensures Inv(code, w')
    decreases |es|
  {
    if es != [] {
      StepKeepsInv(code, w, es[0]);
      LeadsKeepsInv(code, Next(code, w, es[0]), es[1..], w');
    }
  }

  lemma LeadsOnce(code: Code, w: World, e: Event)
    requires Legal(w, e)
    ensures Leads(code, w, [e], Next(code, w, e))
  {
    assert [e][1..] == [];
    assert Leads(code, Next(code, w, e), [], Next(code, w, e));
  }

  lemma {:induction false} LeadsAll(code: Code, w: World, es: seq<Event>, u: World, fs: seq<Event>, w': World)
    requires Leads(code, w, es, u) && Leads(code, u, fs, w')
    ensures Leads(code, w, es + fs, w')
    decreases |es|
  {
    if es == [] {
      assert es + fs == fs;
    } else {
      LeadsAll(code, Next(code, w, es[0]), es[1..], u, fs, w');
      assert (es + fs)[1..] == es[1..] + fs;
    }
  }

  lemma LeadsNext(code: Code, w: World, es: seq<Event>, u: World, e: Event)
    requires Leads(code, w, es, u) && Legal(u, e)
    ensures Leads(code, w, es + [e], Next(code, u, e))
  {
    LeadsOnce(code, u, e);
    LeadsAll(code, w, es, u, [e], Next(code, u, e));
  }

  lemma ReachableLater(code: Code, w: World, es: seq<Event>, w': World)
    requires Reachable(code, w) && Leads(code, w, es, w')
    ensures Reachable(code, w')
  {
    var before :| Leads(code, EMPTY_WORLD, before, w);
    LeadsAll(code, EMPTY_WORLD, before, w, es, w');
  }

  lemma ReachableInv(code: Code, w: World)
    requires Reachable(code, w)
    ensures Inv(code, w)
  {
    InitiallyKept(code);
    assert Kept(code, EMPTY_WORLD, map[]);
    var es :| Leads(code, EMPTY_WORLD, es, w);
    LeadsKeepsInv(code, EMPTY_WORLD, es, w);
  }
}
