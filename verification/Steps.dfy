/** Every step keeps the invariant. */
module Steps {
  import opened Lists
  import opened Program
  import opened Chains
  import opened Frames
  import opened Mirror
  import opened Simulation
  import opened Invariant

  // ---- Steps that only move handles around ----

  lemma AppendNew(s: seq<Id>, r: Id)
    requires Distinct(s) && r !in s
    ensures Distinct(s + [r])
    ensures forall x :: x in s + [r] <==> x in s || x == r
  {
  }

  lemma ListNew(registry: seq<Id>, spawning: map<Id, Stage>, skipped: set<Id>, chains: ChainMap, r: Id)
    requires RegistryExact(registry, spawning, skipped, chains)
    requires r in spawning && spawning[r] == ToRegister && r in chains && RootFresh(chains[r])
    requires chains[r].kind.Detached? && r !in skipped
    ensures RegistryExact(registry + [r], spawning[r := ToQueue], skipped, chains)
  {
    AppendNew(registry, r);
    assert forall x :: x in chains && x != r ==>
             (Listed(spawning[r := ToQueue], x, chains[x]) <==> Listed(spawning, x, chains[x]));
  }

  lemma QueueNew(spawning: map<Id, Stage>, queue: seq<Id>, taken: set<Id>, chains: ChainMap, r: Id)
    requires StartTokens(spawning, queue, taken, chains) && r in spawning
    ensures StartTokens(spawning - {r}, queue + [r], taken, chains)
  {
    AppendNew(queue, r);
  }

  lemma TakeFirst(spawning: map<Id, Stage>, queue: seq<Id>, taken: set<Id>, chains: ChainMap)
    requires StartTokens(spawning, queue, taken, chains) && queue != []
    ensures StartTokens(spawning, queue[1..], taken + {queue[0]}, chains)
  {
    assert forall x :: x in queue <==> x == queue[0] || x in queue[1..];
  }

  lemma RegisterTokens(spawning: map<Id, Stage>, queue: seq<Id>, taken: set<Id>, chains: ChainMap, r: Id)
    requires StartTokens(spawning, queue, taken, chains) && r in spawning
    ensures StartTokens(spawning[r := ToQueue], queue, taken, chains)
  {
  }

  lemma ListQueued(registry: seq<Id>, spawning: map<Id, Stage>, skipped: set<Id>, chains: ChainMap, r: Id)
    requires RegistryExact(registry, spawning, skipped, chains)
    requires r in spawning && spawning[r] == ToQueue
    ensures RegistryExact(registry, spawning - {r}, skipped, chains)
  {
    assert forall x :: x in chains ==> (Listed(spawning - {r}, x, chains[x]) <==> Listed(spawning, x, chains[x]));
  }

  lemma SubmitTokens(frames: map<Id, Frame>, submitting: map<Id, Request>, inflight: map<Id, Request>,
                     calling: map<Id, int>, running: bool, h: Id)
    requires IoTokens(frames, submitting, inflight, calling, running) && h in submitting
    ensures IoTokens(frames, submitting - {h}, if running then inflight[h := submitting[h]] else inflight, calling,
                     running)
  {
  }

  lemma KeptRegister(code: Code, w: World, chains: ChainMap, r: Id)
    requires Kept(code, w, chains) && Enabled(w, Register(r))
    ensures Kept(code, Next(code, w, Register(r)), chains)
  {
    ListNew(w.registry, w.spawning, w.skipped, chains, r);
    RegisterTokens(w.spawning, w.queue, w.taken, chains, r);
  }

  lemma KeptEnqueue(code: Code, w: World, chains: ChainMap, r: Id)
    requires Kept(code, w, chains) && Enabled(w, Enqueue(r))
    ensures Kept(code, Next(code, w, Enqueue(r)), chains)
  {
    QueueNew(w.spawning, w.queue, w.taken, chains, r);
    ListQueued(w.registry, w.spawning, w.skipped, chains, r);
  }

  lemma KeptTake(code: Code, w: World, chains: ChainMap)
    requires Kept(code, w, chains) && Enabled(w, Take)
    ensures Kept(code, Next(code, w, Take), chains)
  {
    TakeFirst(w.spawning, w.queue, w.taken, chains);
  }

  lemma KeptHarvest(code: Code, w: World, chains: ChainMap, h: Id, res: int)
    requires Kept(code, w, chains) && Enabled(w, Harvest(h, res))
    ensures Kept(code, Next(code, w, Harvest(h, res)), chains)
  {
  }

  lemma KeptDiscard(code: Code, w: World, chains: ChainMap, h: Id)
    requires Kept(code, w, chains) && Enabled(w, Discard(h))
    ensures Kept(code, Next(code, w, Discard(h)), chains)
  {
  }

  lemma KeptStop(code: Code, w: World, chains: ChainMap)
    requires Kept(code, w, chains)
    ensures Kept(code, Next(code, w, Stop), chains)
  {
  }

  lemma NobodyCalls(frames: map<Id, Frame>, submitting: map<Id, Request>, inflight: map<Id, Request>,
                    calling: map<Id, int>)
    requires IoTokens(frames, submitting, inflight, calling, false)
    ensures IoTokens(frames, submitting, map[], calling, false)
  {
  }

  lemma OnlyWorkers(runner: map<Id, Runner>, calling: map<Id, int>)
    requires calling == map[] && LoopThread !in runner.Values
    ensures LoopsQuiet(true, false, map[], calling, runner)
  {
    forall r | r in runner ensures runner[r] == PoolThread { assert runner[r] in runner.Values; }
  }

  lemma KeptJoin(code: Code, w: World, chains: ChainMap)
    requires Kept(code, w, chains) && Enabled(w, Join)
    ensures Kept(code, Next(code, w, Join), chains)
  {
    NobodyCalls(w.frames, w.submitting, w.inflight, w.calling);
    OnlyWorkers(w.runner, w.calling);
  }

  lemma ThreadLeaves(w: World, chains: ChainMap, h: Id)
    requires Mirrors(w.frames, chains) && Threads(w.runner, w.submitting, chains)
    requires h in w.submitting && h in w.frames && w.frames[h].status.InIo?
    ensures Threads(w.runner - {w.frames[h].root}, w.submitting - {h}, chains)
  {
    ActiveFrame(w.frames, chains, h);
    var root := w.frames[h].root;
    forall r | r in chains && r != root
      ensures Busy(w.submitting - {h}, chains[r]) <==> Busy(w.submitting, chains[r])
    {
      TopIs(w.frames, r, chains[r]);
    }
  }

  lemma KeptSubmit(code: Code, w: World, chains: ChainMap, h: Id)
    requires Kept(code, w, chains) && Enabled(w, Submit(h))
    ensures Kept(code, Next(code, w, Submit(h)), chains)
  {
    ThreadLeaves(w, chains, h);
    SubmitTokens(w.frames, w.submitting, w.inflight, w.calling, w.running, h);
  }
}
