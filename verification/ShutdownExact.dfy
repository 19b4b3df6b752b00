/** The condition of Shutdown is exact as far as coroutine handles are concerned: without it, destroy_all
    leads to a use of a dangling or running coroutine. Buffers are the subject of KernelShutdown. */
module ShutdownExact {
  import opened Lists
  import opened Program
  import opened Chains
  import opened Frames
  import opened Mirror
  import opened Simulation
  import opened Invariant
  import opened RootSteps
  import opened Shutdown
  import opened Runs

  /** Destroying a chain that a thread executes destroys the running frame. */
  lemma {:induction false} DestroyRunning(fs: map<Id, Frame>, r: Id, ch: Chain, i: nat)
    requires Shape(ch) && i <= ch.active && Top(ch).Running?
    requires forall j :: i <= j < |ch.cells| ==> At(fs, r, ch, j)
    ensures Destroy(fs, ch.cells[i].id).fault
    decreases ch.active - i
  {
    assert At(fs, r, ch, i);
    if i < ch.active {
      var left := fs - {ch.cells[i].id};
      forall j | i + 1 <= j < |ch.cells| ensures At(left, r, ch, j) { assert At(fs, r, ch, j); }
      DestroyRunning(left, r, ch, i + 1);
    }
  }

  lemma IdleStep(chains: ChainMap, handles: seq<Id>)
    requires handles != [] && handles[0] in chains && Shape(chains[handles[0]])
    requires PastBody(chains[handles[0]]) || !Top(chains[handles[0]]).Running?
    ensures Destroyable(chains, handles[1..]) ==> Destroyable(chains, handles)
    ensures Destroyable(chains - {handles[0]}, handles[1..]) ==> Destroyable(chains, handles)
  {
    assert forall x :: x in handles <==> x == handles[0] || x in handles[1..];
  }

  /** destroy_all breaks a rule, or every registered chain was idle. */
  lemma {:induction false} FaultOrIdle(fs: map<Id, Frame>, chains: ChainMap, handles: seq<Id>)
    requires Mirrors(fs, chains) && Distinct(handles)
    requires forall r :: r in handles ==> r in chains
    ensures DestroyFrom(fs, handles).fault || Destroyable(chains, handles)
    decreases |handles|
  {
    if handles != [] {
      var r, rest := handles[0], handles[1..];
      forall x | x in rest ensures x in chains && x != r { assert x in handles; }
      RootsLive(fs, chains, r);
      Laid(fs, chains, r);
      if PastBody(chains[r]) {
        IdleStep(chains, handles);
        FaultOrIdle(fs, chains, rest);
      } else if Top(chains[r]).Running? {
        DestroyRunning(fs, r, chains[r], 0);
      } else {
        IdleStep(chains, handles);
        DestroyRootChain(fs, chains, r);
        FaultOrIdle(Destroy(fs, r).frames, chains - {r}, rest);
      }
    }
  }

  /** Without a fault, destroy_all leaves the spared chains, as they were. */
  ghost predicate LeavesSpared(w: World, chains: ChainMap) {
    var d := DestroyFrom(w.frames, w.registry);
    && Mirrors(d.frames, Spared(chains, w.registry))
    && (forall h :: h in d.frames ==> h in w.frames && d.frames[h] == w.frames[h])
  }

  lemma NoFaultLeaves(w: World, chains: ChainMap)
    requires FramesKept(w, chains) && RootsKept(w, chains) && !DestroyFrom(w.frames, w.registry).fault
    ensures LeavesSpared(w, chains)
  {
    FaultOrIdle(w.frames, chains, w.registry);
    DestroyFromChains(w.frames, chains, w.next, w.destroyed, w.registry);
  }

  lemma UnsparedGone(w: World, chains: ChainMap, r: Id)
    requires LeavesSpared(w, chains) && r !in Spared(chains, w.registry)
    ensures forall h :: h in w.frames && w.frames[h].root == r ==> h !in DestroyFrom(w.frames, w.registry).frames
  {
    var d := DestroyFrom(w.frames, w.registry);
    forall h | h in d.frames ensures w.frames[h].root != r { assert Placed(d.frames, Spared(chains, w.registry), h); }
  }

  /** A registered root that is not past its body does not survive destroy_all. */
  lemma RegisteredDies(w: World, chains: ChainMap, r: Id)
    requires FramesKept(w, chains) && RootsKept(w, chains) && r in w.registry && r in chains && !PastBody(chains[r])
    ensures ShutDown(w).fault || ChainGone(ShutDown(w), w, r)
  {
    if !DestroyFrom(w.frames, w.registry).fault {
      NoFaultLeaves(w, chains);
      UnsparedGone(w, chains, r);
    }
  }

  ghost predicate ChainGone(w': World, w: World, r: Id) {
    forall h :: h in w.frames && w.frames[h].root == r ==> h !in w'.frames
  }

  /** The events lead from `w` to an illegal use of a handle. */
  ghost predicate Breaks(code: Code, w: World, es: seq<Event>) {
    exists w' :: Leads(code, w, es, w') && w'.fault
  }

  lemma BreaksLater(code: Code, w: World, e: Event, es: seq<Event>)
    requires Legal(w, e) && Breaks(code, Next(code, w, e), es)
    ensures Breaks(code, w, [e] + es)
  {
    var w' :| Leads(code, Next(code, w, e), es, w') && w'.fault;
    assert ([e] + es)[1..] == es;
    assert Leads(code, w, [e] + es, w');
  }

  lemma BreaksNow(code: Code, w: World)
    requires w.fault
    ensures Breaks(code, w, [])
  {
    assert Leads(code, w, [], w);
  }

  /** A worker takes and resumes a handle whose frame is gone. */
  lemma StartBreaks(code: Code, w: World, r: Id)
    requires r in w.taken && r !in w.frames
    ensures Breaks(code, w, [Start(r)])
  {
    BreaksNow(code, Next(code, w, Start(r)));
    BreaksLater(code, w, Start(r), []);
    assert [Start(r)] + [] == [Start(r)];
  }

  lemma {:induction false} QueueBreaks(code: Code, w: World, k: nat) returns (es: seq<Event>)
    requires k < |w.queue| && w.queue[k] !in w.frames
    ensures Breaks(code, w, es)
    decreases k
  {
    var w1 := Next(code, w, Take);
    if k == 0 {
      StartBreaks(code, w1, w.queue[0]);
      es := [Start(w.queue[0])];
    } else {
      es := QueueBreaks(code, w1, k - 1);
    }
    BreaksLater(code, w, Take, es);
    es := [Take] + es;
  }

  lemma SubmitBreaks(code: Code, w: World, h: Id)
    requires h in w.submitting && h !in w.frames
    ensures Breaks(code, w, [Submit(h)])
  {
    BreaksNow(code, Next(code, w, Submit(h)));
    BreaksLater(code, w, Submit(h), []);
    assert [Submit(h)] + [] == [Submit(h)];
  }

  /** A registered wrapper that still waits to be started: the thread that starts it breaks. */
  lemma TokenBreaks(code: Code, w: World, r: Id) returns (es: seq<Event>)
    requires r !in w.frames
    requires (r in w.spawning && w.spawning[r] == ToQueue) || r in w.queue || r in w.taken
    ensures Breaks(code, w, es)
  {
    if r in w.taken {
      es := [Start(r)];
      StartBreaks(code, w, r);
    } else if r in w.queue {
      var k :| 0 <= k < |w.queue| && w.queue[k] == r;
      es := QueueBreaks(code, w, k);
    } else {
      es := QueueBreaks(code, Next(code, w, Enqueue(r)), |w.queue|);
      BreaksLater(code, w, Enqueue(r), es);
      es := [Enqueue(r)] + es;
    }
  }

  /** An event loop invokes a callback whose frame is gone. */
  lemma CallbackBreaks(code: Code, w: World, h: Id)
    requires h in w.calling && h !in w.frames
    ensures Breaks(code, w, [Callback(h)])
  {
    BreaksNow(code, Next(code, w, Callback(h)));
    BreaksLater(code, w, Callback(h), []);
    assert [Callback(h)] + [] == [Callback(h)];
  }

  /** The frames of a root that some thread executes, submits or calls back lie on an unfinished chain. */
  lemma TouchedChain(w: World, chains: ChainMap, h: Id)
    requires FramesKept(w, chains) && h in w.frames
             && (w.frames[h].status.Running? || h in w.submitting || h in w.calling)
    ensures w.frames[h].root in chains && !PastBody(chains[w.frames[h].root])
  {
    ActiveFrame(w.frames, chains, h);
  }

  /** destroy_all meets a coroutine that a thread executes. */
  lemma RunningFaults(w: World, chains: ChainMap, h: Id)
    requires FramesKept(w, chains) && RootsKept(w, chains) && h in w.frames && w.frames[h].root in w.registry
    requires w.frames[h].status.Running?
    ensures ShutDown(w).fault
  {
    if !ShutDown(w).fault {
      FaultOrIdle(w.frames, chains, w.registry);
      TouchedChain(w, chains, h);
      ActiveFrame(w.frames, chains, h);
      assert false;
    }
  }

  lemma TouchedBreaks(code: Code, w: World, chains: ChainMap, h: Id) returns (es: seq<Event>)
    requires FramesKept(w, chains) && RootsKept(w, chains) && h in w.frames && w.frames[h].root in w.registry
    requires w.frames[h].status.Running? || h in w.submitting || h in w.calling
    ensures Breaks(code, ShutDown(w), es)
  {
    var r := w.frames[h].root;
    TouchedChain(w, chains, h);
    RegisteredDies(w, chains, r);
    if w.frames[h].status.Running? { RunningFaults(w, chains, h); }
    if ShutDown(w).fault {
      es := [];
      BreaksNow(code, ShutDown(w));
    } else {
      if h in w.submitting {
        es := [Submit(h)];
        SubmitBreaks(code, ShutDown(w), h);
      } else {
        es := [Callback(h)];
        CallbackBreaks(code, ShutDown(w), h);
      }
    }
  }

  lemma UnstartedBreaks(code: Code, w: World, chains: ChainMap, r: Id) returns (es: seq<Event>)
    requires FramesKept(w, chains) && RootsKept(w, chains) && r in w.registry
    requires r in w.spawning || r in w.queue || r in w.taken
    ensures Breaks(code, ShutDown(w), es)
  {
    assert RootFresh(chains[r]);
    RootsLive(w.frames, chains, r);
    RegisteredDies(w, chains, r);
    if ShutDown(w).fault {
      es := [];
      BreaksNow(code, ShutDown(w));
    } else {
      assert Listed(w.spawning, r, chains[r]);
      es := TokenBreaks(code, ShutDown(w), r);
    }
  }

  /** destroy_all after stop(), joined or not, leaves no handle dangling exactly when ShutdownSafe holds:
      then the invariant goes on, and otherwise some continuation uses a handle illegally. */
  lemma ShutdownIff(code: Code, w: World)
    requires Reachable(code, w) && !w.running
    ensures ShutdownSafe(w) ==> Inv(code, ShutDown(w)) && forall es :: !Breaks(code, ShutDown(w), es)
    ensures !ShutdownSafe(w) ==> exists es :: Breaks(code, ShutDown(w), es)
  {
    ReachableInv(code, w);
    var chains: ChainMap :| Kept(code, w, chains);
    if ShutdownSafe(w) {
      KeptShutDown(code, w, chains);
      forall es ensures !Breaks(code, ShutDown(w), es) { NeverBreaks(code, ShutDown(w), es); }
    } else {
      var es := UnsafeBreaks(code, w, chains);
    }
  }

  lemma NeverBreaks(code: Code, w: World, es: seq<Event>)
    requires Inv(code, w)
    ensures !Breaks(code, w, es)
  {
    forall w' | Leads(code, w, es, w') ensures !w'.fault { LeadsKeepsInv(code, w, es, w'); }
  }

  lemma UnsafeBreaks(code: Code, w: World, chains: ChainMap) returns (es: seq<Event>)
    requires FramesKept(w, chains) && RootsKept(w, chains) && !ShutdownSafe(w)
    ensures Breaks(code, ShutDown(w), es)
  {
    var r :| r in w.registry && (r in w.spawning || r in w.queue || r in w.taken || !Untouched(w, r));
    if Untouched(w, r) {
      es := UnstartedBreaks(code, w, chains, r);
    } else {
      var h :| h in w.frames && w.frames[h].root == r
               && (w.frames[h].status.Running? || h in w.submitting || h in w.calling);
      es := TouchedBreaks(code, w, chains, h);
    }
  }

  /** What shutdown() destroys: the frames of every registered coroutine that is not past its
      body, and no other frame. */
  lemma ShutdownDestroys(code: Code, w: World, h: Id)
    requires Reachable(code, w) && !w.running && ShutdownSafe(w) && h in w.frames
    ensures var r := w.frames[h].root;
            r in w.frames && (h !in ShutDown(w).frames <==> r in w.registry && !w.frames[r].status.Done?)
  {
    ReachableInv(code, w);
    var chains: ChainMap :| Kept(code, w, chains);
    ShutDownFrames(w, chains);
    HitOrSpared(w, chains, h);
    RootsLive(w.frames, chains, w.frames[h].root);
  }

  lemma HitOrSpared(w: World, chains: ChainMap, h: Id)
    requires Mirrors(w.frames, chains) && LeavesSpared(w, chains) && h in w.frames
    ensures w.frames[h].root in chains
    ensures h in DestroyFrom(w.frames, w.registry).frames <==> w.frames[h].root in Spared(chains, w.registry)
  {
    var d, r, i := DestroyFrom(w.frames, w.registry), w.frames[h].root, w.frames[h].depth;
    assert Placed(w.frames, chains, h);
    if r in Spared(chains, w.registry) {
      Laid(d.frames, Spared(chains, w.registry), r);
      assert At(d.frames, r, chains[r], i);
    }
    if h in d.frames { assert Placed(d.frames, Spared(chains, w.registry), h); }
  }

  /** A second destroy_all, and the one of the registry's destructor, changes nothing at all. */
  lemma ShutDownTwice(w: World)
    ensures ShutDown(ShutDown(w)) == ShutDown(w)
  {
    var d, w' := DestroyFrom(w.frames, w.registry), ShutDown(w);
    assert w'.destroyed + [] == w'.destroyed;
    assert ShutDown(w').inflight == w'.inflight;
  }

  /** shutdown() empties the registry, destroys nothing twice, and a second call does nothing. */
  lemma ShutdownOnce(code: Code, w: World)
    requires Reachable(code, w) && !w.running && ShutdownSafe(w)
    ensures var w' := ShutDown(w);
            w'.registry == [] && !w'.fault && Distinct(w'.destroyed) && ShutDown(w') == w'
  {
    ReachableInv(code, w);
    var chains: ChainMap :| Kept(code, w, chains);
    ShutDownFrames(w, chains);
    ShutDownTwice(w);
  }

  /** A coroutine that was detached, but whose detach() has not reached the pool yet when shutdown()
      comes: the worker that gets its task resumes a destroyed frame. */
  lemma ShutdownTooEarly(code: Code, p: Point) returns (w: World)
    ensures Reachable(code, w) && w.joined && !ShutdownSafe(w)
    ensures exists es :: Breaks(code, ShutDown(w), es)
  {
    var w1 := Next(code, EMPTY_WORLD, Spawn(Detached, p));
    LeadsOnce(code, EMPTY_WORLD, Spawn(Detached, p));
    var w2 := Next(code, w1, Register(1));
    LeadsNext(code, EMPTY_WORLD, [Spawn(Detached, p)], w1, Register(1));
    var w3 := Next(code, w2, Stop);
    LeadsNext(code, EMPTY_WORLD, [Spawn(Detached, p)] + [Register(1)], w2, Stop);
    w := Next(code, w3, Join);
    LeadsNext(code, EMPTY_WORLD, [Spawn(Detached, p)] + [Register(1)] + [Stop], w3, Join);
    assert w.registry == [1] && 1 in w.spawning;
    ShutdownIff(code, w);
  }
}
