/** co_excutor::shutdown: when destroy_all meets no coroutine that is in use, and what it destroys. */
module Shutdown {
  import opened Lists
  import opened Program
  import opened Chains
  import opened Frames
  import opened Mirror
  import opened Simulation
  import opened Invariant
  import opened ExecStep
  import opened RootSteps
  import opened Meaning

  /** No thread executes a frame of root `r`, is about to register its operation, or to call it back. */
  ghost predicate Untouched(w: World, r: Id) {
    forall h :: h in w.frames && w.frames[h].root == r ==>
      !w.frames[h].status.Running? && h !in w.submitting && h !in w.calling
  }

  /** No thread, and no task queued or taken, refers to a registered coroutine. */
  ghost predicate ShutdownSafe(w: World) {
    forall r :: r in w.registry ==> r !in w.spawning && r !in w.queue && r !in w.taken && Untouched(w, r)
  }

  ghost predicate PastBody(ch: Chain) {
    0 < |ch.cells| && ch.cells[0].status.Done?
  }

  /** The chains that destroy_all leaves alone. */
  ghost function Spared(chains: ChainMap, handles: seq<Id>): ChainMap {
    map r | r in chains && (r in handles ==> PastBody(chains[r])) :: chains[r]
  }

  /** A destruction that breaks no rule and leaves exactly the frames of `left`. */
  ghost predicate Clean(fs: map<Id, Frame>, d: Wreck, left: ChainMap, next: Id, destroyed: seq<Id>) {
    && !d.fault
    && Mirrors(d.frames, left)
    && IdsAccounted(d.frames, next, destroyed + d.order)
    && (forall h :: h in d.frames ==> h in fs && d.frames[h] == fs[h])
  }

  lemma CleanNothing(fs: map<Id, Frame>, chains: ChainMap, next: Id, destroyed: seq<Id>)
    requires Mirrors(fs, chains) && IdsAccounted(fs, next, destroyed)
    ensures Clean(fs, Wreck(fs, [], false), chains, next, destroyed)
  {
    assert destroyed + [] == destroyed;
  }

  lemma CleanBoth(fs: map<Id, Frame>, d: Wreck, e: Wreck, mid: ChainMap, left: ChainMap, next: Id, destroyed: seq<Id>)
    requires Clean(fs, d, mid, next, destroyed) && Clean(d.frames, e, left, next, destroyed + d.order)
    ensures Clean(fs, Wreck(e.frames, d.order + e.order, d.fault || e.fault), left, next, destroyed)
  {
    assert destroyed + d.order + e.order == destroyed + (d.order + e.order);
  }

  lemma CleanFirst(fs: map<Id, Frame>, chains: ChainMap, next: Id, destroyed: seq<Id>, r: Id)
    requires Mirrors(fs, chains) && IdsAccounted(fs, next, destroyed)
    requires r in chains && Shape(chains[r]) && !PastBody(chains[r]) && !Top(chains[r]).Running?
    ensures r in fs && !fs[r].status.Done?
    ensures Clean(fs, Destroy(fs, r), chains - {r}, next, destroyed)
  {
    RootsLive(fs, chains, r);
    DestroyRootChain(fs, chains, r);
    GoneIds(EMPTY_WORLD.(frames := fs, next := next, destroyed := destroyed), chains, r);
  }

  lemma SparedStep(chains: ChainMap, handles: seq<Id>)
    requires handles != [] && Distinct(handles) && handles[0] in chains
    ensures var r, rest := handles[0], handles[1..];
            Spared(chains, handles) == Spared(if PastBody(chains[r]) then chains else chains - {r}, rest)
  {
    assert forall x :: x in handles <==> x == handles[0] || x in handles[1..];
  }

  /** Each handle names a chain that destroy_all can deal with. */
  ghost predicate Destroyable(chains: ChainMap, handles: seq<Id>) {
    forall r :: r in handles ==> r in chains && Shape(chains[r]) && (PastBody(chains[r]) || !Top(chains[r]).Running?)
  }

  lemma {:induction false} DestroyFromChains(fs: map<Id, Frame>, chains: ChainMap, next: Id, destroyed: seq<Id>,
                                             handles: seq<Id>)
    requires Mirrors(fs, chains) && IdsAccounted(fs, next, destroyed) && Distinct(handles)
             && Destroyable(chains, handles)
    ensures Clean(fs, DestroyFrom(fs, handles), Spared(chains, handles), next, destroyed)
    decreases |handles|
  {
    if handles == [] {
      assert Spared(chains, handles) == chains;
      CleanNothing(fs, chains, next, destroyed);
    } else {
      var r, rest := handles[0], handles[1..];
      RootsLive(fs, chains, r);
      SparedStep(chains, handles);
      if PastBody(chains[r]) {
        CleanNothing(fs, chains, next, destroyed);
        DestroyFromChains(fs, chains, next, destroyed + [], rest);
        CleanBoth(fs, Wreck(fs, [], false), DestroyFrom(fs, rest), chains, Spared(chains, rest), next, destroyed);
      } else {
        CleanFirst(fs, chains, next, destroyed, r);
        var d := Destroy(fs, r);
        forall x | x in rest ensures x in chains - {r} { assert x in handles; }
        DestroyFromChains(d.frames, chains - {r}, next, destroyed + d.order, rest);
        CleanBoth(fs, d, DestroyFrom(d.frames, rest), chains - {r}, Spared(chains - {r}, rest), next, destroyed);
      }
    }
  }

  /** A root survives destroy_all exactly when its chain is spared. */
  lemma SparedLive(fs: map<Id, Frame>, fs': map<Id, Frame>, chains: ChainMap, handles: seq<Id>, r: Id)
    requires Mirrors(fs, chains) && Mirrors(fs', Spared(chains, handles)) && r in chains
    requires forall h :: h in fs' ==> h in fs && fs'[h] == fs[h]
    ensures r in fs' <==> r in Spared(chains, handles)
  {
    RootsLive(fs, chains, r);
    if r in Spared(chains, handles) { RootsLive(fs', Spared(chains, handles), r); }
    if r in fs' { assert Placed(fs', Spared(chains, handles), r); }
  }

  /** What is known of a registered chain when shutdown is safe. */
  lemma RegisteredIdle(w: World, chains: ChainMap, r: Id)
    requires FramesKept(w, chains) && RootsKept(w, chains) && ShutdownSafe(w) && r in w.registry
    ensures r in chains && Shape(chains[r]) && !RootFresh(chains[r])
    ensures !Top(chains[r]).Running?
    ensures Top(chains[r]).InIo? ==>
              var h := chains[r].cells[chains[r].active].id; h !in w.submitting && h !in w.calling
  {
    Laid(w.frames, chains, r);
    TopIs(w.frames, r, chains[r]);
  }

  lemma ShutDownFrames(w: World, chains: ChainMap)
    requires FramesKept(w, chains) && RootsKept(w, chains) && ShutdownSafe(w)
    requires !w.running
    ensures var d, chains' := DestroyFrom(w.frames, w.registry), Spared(chains, w.registry);
            && !d.fault
            && Mirrors(d.frames, chains')
            && IdsAccounted(d.frames, w.next, w.destroyed + d.order)
            && IoTokens(d.frames, w.submitting, ShutDown(w).inflight, w.calling, w.running)
            && (forall h :: h in d.frames ==> h in w.frames && d.frames[h] == w.frames[h])
            && (forall r :: r in chains ==> (r in d.frames <==> r in chains'))
  {
    var d, chains' := DestroyFrom(w.frames, w.registry), Spared(chains, w.registry);
    forall r | r in w.registry
      ensures r in chains && Shape(chains[r]) && !Top(chains[r]).Running?
    {
      RegisteredIdle(w, chains, r);
    }
    DestroyFromChains(w.frames, chains, w.next, w.destroyed, w.registry);
    forall r | r in chains ensures r in d.frames <==> r in chains' {
      SparedLive(w.frames, d.frames, chains, w.registry, r);
    }
    forall h | h in w.submitting || h in w.calling ensures h in d.frames && d.frames[h] == w.frames[h] {
      ActiveFrame(w.frames, chains, h);
      var r := w.frames[h].root;
      if r in w.registry { RegisteredIdle(w, chains, r); }
      Laid(d.frames, chains', r);
      TopIs(d.frames, r, chains'[r]);
    }
    AliveTokens(w.frames, d.frames, w.submitting, w.inflight, w.calling);
  }

  /** Callbacks of dead frames are never called, the others keep their frames. */
  lemma AliveTokens(fs: map<Id, Frame>, fs': map<Id, Frame>, submitting: map<Id, Request>, inflight: map<Id, Request>,
                    calling: map<Id, int>)
    requires IoTokens(fs, submitting, inflight, calling, false)
    requires forall h :: h in fs' ==> h in fs && fs'[h] == fs[h]
    requires forall h :: h in submitting || h in calling ==> h in fs'
    ensures IoTokens(fs', submitting, map h | h in inflight && h in fs' :: inflight[h], calling, false)
  {
  }

  lemma ShutDownThreads(w: World, chains: ChainMap)
    requires FramesKept(w, chains) && RootsKept(w, chains) && ShutdownSafe(w)
    requires forall r :: r in chains ==>
               (r in DestroyFrom(w.frames, w.registry).frames <==> r in Spared(chains, w.registry))
    ensures Threads(ShutDown(w).runner, w.submitting, Spared(chains, w.registry))
  {
    assert forall r :: r in w.registry ==> r in chains;
  }

  lemma ShutDownRoots(w: World, chains: ChainMap)
    requires FramesKept(w, chains) && RootsKept(w, chains) && ShutdownSafe(w)
    requires forall r :: r in chains ==>
               (r in DestroyFrom(w.frames, w.registry).frames <==> r in Spared(chains, w.registry))
    ensures RootsKept(ShutDown(w), Spared(chains, w.registry))
  {
    RootsBelow(w, chains);
    forall r | r in w.registry ensures r in chains && Shape(chains[r]) && !RootFresh(chains[r]) {
      RegisteredIdle(w, chains, r);
    }
  }

  lemma ShutDownHistories(code: Code, w: World, chains: ChainMap)
    requires Histories(code, w.history, w.next, chains) && RegistryExact(w.registry, w.spawning, w.skipped, chains)
    requires forall r :: r in chains ==>
               (r in DestroyFrom(w.frames, w.registry).frames <==> r in Spared(chains, w.registry))
    ensures Histories(code, ShutDown(w).history, w.next, Spared(chains, w.registry))
  {
  }

  /** The roots that die were suspended, or stood at a misused await. */
  lemma ShutDownMisused(code: Code, w: World, chains: ChainMap)
    requires FramesKept(w, chains) && RootsKept(w, chains) && ShutdownSafe(w)
    requires Histories(code, w.history, w.next, chains) && Misused(code, w.misused, w.history, chains)
    requires forall r :: r in chains ==>
               (r in DestroyFrom(w.frames, w.registry).frames <==> r in Spared(chains, w.registry))
    ensures Misused(code, w.misused, ShutDown(w).history, Spared(chains, w.registry))
  {
    var chains' := Spared(chains, w.registry);
    forall r | r in w.history && r !in chains' ensures Over(code, ShutDown(w).history[r], r in w.misused) {
      if r in chains { DiesOver(code, w, chains, r); }
    }
  }

  lemma DiesOver(code: Code, w: World, chains: ChainMap, r: Id)
    requires FramesKept(w, chains) && RootsKept(w, chains) && ShutdownSafe(w)
    requires Histories(code, w.history, w.next, chains) && Misused(code, w.misused, w.history, chains)
    requires r in chains && r in w.registry && !PastBody(chains[r])
    ensures r in w.history && Over(code, w.history[r].(phase := Killed), r in w.misused)
  {
    RegisteredIdle(w, chains, r);
    assert Explains(code, w.history[r], chains[r]) && Listed(w.spawning, r, chains[r]);
    IdleTop(chains[r]);
    KilledOver(code, w.history[r], chains[r]);
  }

  lemma IdleTop(ch: Chain)
    requires Shape(ch) && !RootFresh(ch) && !PastBody(ch) && !Top(ch).Running?
    ensures Top(ch).InIo? || Top(ch).Undefined?
  {
  }

  lemma KeptShutDown(code: Code, w: World, chains: ChainMap)
    requires Kept(code, w, chains) && !w.running && ShutdownSafe(w)
    ensures Kept(code, ShutDown(w), Spared(chains, w.registry))
  {
    ShutDownFrames(w, chains);
    ShutDownThreads(w, chains);
    ShutDownRoots(w, chains);
    ShutDownHistories(code, w, chains);
    ShutDownMisused(code, w, chains);
  }
}
