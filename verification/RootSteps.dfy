/** Starting, resuming, finishing and destroying roots keeps the invariant. */
module RootSteps {
  import opened Lists
  import opened Program
  import opened Chains
  import opened Frames
  import opened Mirror
  import opened Simulation
  import opened Invariant
  import opened Meaning
  import opened ExecStep

  lemma RootsLive(fs: map<Id, Frame>, chains: ChainMap, r: Id)
    requires Mirrors(fs, chains) && r in chains
    ensures r in fs && fs[r] == FrameAt(r, chains[r], 0)
  {
    Laid(fs, chains, r);
    assert At(fs, r, chains[r], 0);
  }

  // ---- A new root ----

  lemma NewIds(w: World, kind: Kind, body: Body)
    requires IdsAccounted(w.frames, w.next, w.destroyed)
    ensures var w' := NewRoot(w, kind, body); IdsAccounted(w'.frames, w'.next, w'.destroyed)
  {
    var w' := NewRoot(w, kind, body);
    IdsKept(w.frames, w.next, w.destroyed, w'.frames, w'.next, []);
    assert w.destroyed + [] == w.destroyed;
  }

  lemma NewStartTokens(spawning: map<Id, Stage>, queue: seq<Id>, taken: set<Id>, chains: ChainMap, r: Id, ch: Chain)
    requires StartTokens(spawning, queue, taken, chains) && r !in chains && RootFresh(ch)
    ensures StartTokens(spawning[r := if ch.kind.Detached? then ToRegister else ToQueue], queue, taken, chains[r := ch])
  {
  }

  lemma NewListed(registry: seq<Id>, spawning: map<Id, Stage>, skipped: set<Id>, chains: ChainMap, r: Id, ch: Chain)
    requires RegistryExact(registry, spawning, skipped, chains) && r !in chains && RootFresh(ch)
    ensures RegistryExact(registry, spawning[r := if ch.kind.Detached? then ToRegister else ToQueue], skipped,
                          chains[r := ch])
  {
    var s := spawning[r := if ch.kind.Detached? then ToRegister else ToQueue];
    assert !Listed(s, r, ch);
    assert forall x :: x in chains ==> (Listed(s, x, chains[x]) <==> Listed(spawning, x, chains[x]));
  }

  lemma NewTokens(w: World, chains: ChainMap, kind: Kind, body: Body)
    requires RootsKept(w, chains) && w.next + 1 !in chains
    ensures RootsKept(NewRoot(w, kind, body), chains[w.next + 1 := NewChain(kind, w.next, w.next + 1, body)])
  {
    var r, ch := w.next + 1, NewChain(kind, w.next, w.next + 1, body);
    NewStartTokens(w.spawning, w.queue, w.taken, chains, r, ch);
    NewListed(w.registry, w.spawning, w.skipped, chains, r, ch);
  }

  lemma NewThreads(runner: map<Id, Runner>, submitting: map<Id, Request>, chains: ChainMap, r: Id, ch: Chain)
    requires Threads(runner, submitting, chains) && r !in chains && RootFresh(ch)
    ensures Threads(runner, submitting, chains[r := ch])
  {
  }

  lemma NewHistory(code: Code, w: World, chains: ChainMap, kind: Kind, body: Body)
    requires Histories(code, w.history, w.next, chains) && body.User?
    requires w.next + 1 !in chains
    ensures Histories(code, NewRoot(w, kind, body).history, NewRoot(w, kind, body).next,
                      chains[w.next + 1 := NewChain(kind, w.next, w.next + 1, body)])
  {
    NewFaithful(code, kind, w.next, w.next + 1, body);
    assert Explains(code, History(kind, body, [], [], 0, Alive), NewChain(kind, w.next, w.next + 1, body));
  }

  lemma RootsBelow(w: World, chains: ChainMap)
    requires Mirrors(w.frames, chains) && IdsAccounted(w.frames, w.next, w.destroyed)
    ensures forall r :: r in chains ==> r < w.next
  {
    forall r | r in chains ensures r < w.next { RootsLive(w.frames, chains, r); }
  }

  lemma NewFrames(w: World, chains: ChainMap, kind: Kind, body: Body)
    requires FramesKept(w, chains)
    ensures FramesKept(NewRoot(w, kind, body), chains[w.next + 1 := NewChain(kind, w.next, w.next + 1, body)])
  {
    var r, ch := w.next + 1, NewChain(kind, w.next, w.next + 1, body);
    RootsBelow(w, chains);
    NewRootMirrors(w, chains, kind, body);
    NewIds(w, kind, body);
    NewThreads(w.runner, w.submitting, chains, r, ch);
    NewInIo(w, kind, body);
  }

  lemma NewInIo(w: World, kind: Kind, body: Body)
    requires IoTokens(w.frames, w.submitting, w.inflight, w.calling, w.running)
    requires w.next !in w.frames && w.next + 1 !in w.frames
    ensures IoTokens(NewRoot(w, kind, body).frames, w.submitting, w.inflight, w.calling, w.running)
  {
    SameInIo(w.frames, NewRoot(w, kind, body).frames, w.submitting, w.inflight, w.calling, w.running);
  }

  lemma NewMisused(code: Code, misused: set<Id>, history: map<Id, History>, chains: ChainMap, r: Id, hst: History,
                   ch: Chain)
    requires Misused(code, misused, history, chains) && r !in history && r !in chains && RootFresh(ch)
    ensures Misused(code, misused, history[r := hst], chains[r := ch])
  {
  }

  lemma KeptNewRoot(code: Code, w: World, chains: ChainMap, kind: Kind, body: Body)
    requires Kept(code, w, chains) && body.User?
    ensures Kept(code, NewRoot(w, kind, body), chains[w.next + 1 := NewChain(kind, w.next, w.next + 1, body)])
  {
    RootsBelow(w, chains);
    NewFrames(w, chains, kind, body);
    NewTokens(w, chains, kind, body);
    NewHistory(code, w, chains, kind, body);
    NewMisused(code, w.misused, w.history, chains, w.next + 1, NewRoot(w, kind, body).history[w.next + 1],
               NewChain(kind, w.next, w.next + 1, body));
  }

  /** An action on the heap; for Detach, the action and the new root do not interfere. */
  lemma ExecSplits(code: Code, w: World, h: Id)
    requires h in w.frames && w.frames[h].status.Running?
    requires w.frames[h].root in w.history && forall r :: r in w.history ==> r < w.next
    ensures var r, a := w.frames[h].root, Decode(code, w.frames[h].status.body);
            var w1 := Note(Core(w, h, a), r, [], ObsOf(a), 1);
            ExecFrame(code, w, h) == if a.Detach? then NewRoot(w1, Detached, a.child) else w1
    ensures var a := Decode(code, w.frames[h].status.body); a.Detach? ==> a.child.User?
  {
    assert w.frames[h].root < w.next;
  }

  lemma KeptExec(code: Code, w: World, chains: ChainMap, h: Id, r: Id) returns (chains': ChainMap)
    requires Kept(code, w, chains) && h in w.frames && w.frames[h].status.Running? && w.frames[h].root == r
    requires r in chains && Shape(chains[r]) && Top(chains[r]) == w.frames[h].status
    requires h == chains[r].cells[chains[r].active].id
    ensures Kept(code, ExecFrame(code, w, h), chains')
    ensures r in chains' && chains'[r] == ExecChain(code, chains[r], w.next)
  {
    var a := Decode(code, w.frames[h].status.body);
    ExecSplits(code, w, h);
    KeptCore(code, w, chains, r, h, a);
    chains' := chains[r := ExecChain(code, chains[r], w.next)];
    if a.Detach? { chains' := KeptDetach(code, Note(Core(w, h, a), r, [], ObsOf(a), 1), chains', a.child); }
  }

  lemma KeptDetach(code: Code, w: World, chains: ChainMap, child: Body) returns (chains': ChainMap)
    requires Kept(code, w, chains) && child.User?
    ensures Kept(code, NewRoot(w, Detached, child), chains')
    ensures forall r :: r in chains ==> r in chains' && chains'[r] == chains[r]
  {
    RootsBelow(w, chains);
    KeptNewRoot(code, w, chains, Detached, child);
    chains' := chains[w.next + 1 := NewChain(Detached, w.next, w.next + 1, child)];
  }

  // ---- Changes of one frame's status ----

  lemma StatusInIo(w: World, h: Id, s: Status)
    requires IoTokens(w.frames, w.submitting, w.inflight, w.calling, w.running)
    requires h in w.frames && !w.frames[h].status.InIo? && !s.InIo?
    ensures IoTokens(SetStatus(w, h, s).frames, w.submitting, w.inflight, w.calling, w.running)
  {
    SameInIo(w.frames, SetStatus(w, h, s).frames, w.submitting, w.inflight, w.calling, w.running);
  }

  lemma StatusFrames(w: World, chains: ChainMap, r: Id, s: Status)
    requires Mirrors(w.frames, chains) && IdsAccounted(w.frames, w.next, w.destroyed)
    requires r in chains && Shape(chains[r]) && Shape(SetTop(chains[r], s))
    ensures var h := chains[r].cells[chains[r].active].id;
            && h in w.frames
            && Mirrors(SetStatus(w, h, s).frames, chains[r := SetTop(chains[r], s)])
            && IdsAccounted(SetStatus(w, h, s).frames, w.next, w.destroyed)
  {
    Laid(w.frames, chains, r);
    TopIs(w.frames, r, chains[r]);
    var h := chains[r].cells[chains[r].active].id;
    SetTopRewrites(w.frames, r, chains[r], s);
    RewriteKeepsMirror(w.frames, SetStatus(w, h, s).frames, chains, r, SetTop(chains[r], s));
  }

  // ---- A worker resumes a wrapper ----

  lemma StartTokensKept(spawning: map<Id, Stage>, queue: seq<Id>, taken: set<Id>, chains: ChainMap, r: Id, ch: Chain)
    requires StartTokens(spawning, queue, taken, chains) && r in taken && !RootFresh(ch)
    ensures StartTokens(spawning, queue, taken - {r}, chains[r := ch])
  {
  }

  lemma StartThreads(runner: map<Id, Runner>, submitting: map<Id, Request>, chains: ChainMap, r: Id, ch: Chain,
                     t: Runner)
    requires Threads(runner, submitting, chains) && Busy(submitting, ch)
    ensures Threads(runner[r := t], submitting, chains[r := ch])
  {
  }

  lemma StartExplains(code: Code, hst: History, ch: Chain)
    requires Explains(code, hst, ch) && RootFresh(ch)
    ensures Explains(code, hst, SetTop(ch, Running(Top(ch).body)))
  {
    SilentFaithful(code, hst, ch, Running(Top(ch).body));
    var ch' := SetTop(ch, Running(Top(ch).body));
    forall i | 0 < i < |ch'.cells| ensures UserStatus(ch'.cells[i].status) { assert UserStatus(ch.cells[i].status); }
  }

  lemma StartFrames(w: World, chains: ChainMap, r: Id)
    requires FramesKept(w, chains) && r in chains && RootFresh(chains[r])
    ensures r in w.frames && w.frames[r].status == Top(chains[r])
    ensures var s := Running(Top(chains[r]).body);
            && Shape(SetTop(chains[r], s))
            && FramesKept(SetStatus(w, r, s).(runner := w.runner[r := PoolThread]), chains[r := SetTop(chains[r], s)])
  {
    RootsLive(w.frames, chains, r);
    Laid(w.frames, chains, r);
    var s := Running(Top(chains[r]).body);
    SetTopKeepsShape(chains[r], s);
    StatusFrames(w, chains, r, s);
    StartThreads(w.runner, w.submitting, chains, r, SetTop(chains[r], s), PoolThread);
    StatusInIo(w, r, s);
  }

  lemma SameHistory(code: Code, history: map<Id, History>, next: Id, chains: ChainMap, r: Id, ch: Chain)
    requires Histories(code, history, next, chains) && r in chains && Explains(code, history[r], ch)
    ensures Histories(code, history, next, chains[r := ch])
  {
  }

  lemma KeptStart(code: Code, w: World, chains: ChainMap, r: Id)
    requires Kept(code, w, chains) && r in w.taken
    ensures Kept(code, StartRoot(w, r), chains[r := SetTop(chains[r], Running(Top(chains[r]).body))])
  {
    var ch := chains[r];
    var ch' := SetTop(ch, Running(Top(ch).body));
    StartFrames(w, chains, r);
    StartTokensKept(w.spawning, w.queue, w.taken, chains, r, ch');
    ListedKept(w.registry, w.spawning, w.skipped, chains, r, ch');
    SkipsKept(w.skipped, w.next, w.next, chains, r, ch');
    StartExplains(code, w.history[r], ch);
    SameHistory(code, w.history, w.next, chains, r, ch');
    MisusedSame(code, w.misused, w.history, chains, r, ch');
  }

  // ---- A callback resumes a frame ----

  /** The callback of `h` is consumed, and `h` does not wait any more. */
  lemma DeliverTokens(fs: map<Id, Frame>, fs': map<Id, Frame>, submitting: map<Id, Request>,
                      inflight: map<Id, Request>, calling: map<Id, int>, running: bool, h: Id)
    requires IoTokens(fs, submitting, inflight, calling, running)
    requires forall x :: x in fs && fs[x].status.InIo? && x != h ==> x in fs' && fs'[x] == fs[x]
    requires forall x :: x in fs' && fs'[x].status.InIo? ==> x != h && x in fs && fs'[x] == fs[x]
    ensures IoTokens(fs', submitting - {h}, inflight - {h}, calling - {h}, running)
  {
  }

  lemma DeliverThreads(w: World, chains: ChainMap, r: Id, ch': Chain, t: Runner)
    requires Mirrors(w.frames, chains) && Threads(w.runner, w.submitting, chains)
    requires r in chains && Shape(chains[r]) && Top(chains[r]).InIo? && Shape(ch') && Top(ch').Running?
    ensures Threads(w.runner[r := t], w.submitting - {chains[r].cells[chains[r].active].id}, chains[r := ch'])
  {
    var h := chains[r].cells[chains[r].active].id;
    Laid(w.frames, chains, r);
    TopIs(w.frames, r, chains[r]);
    forall r' | r' in chains && r' != r
      ensures Busy(w.submitting - {h}, chains[r']) <==> Busy(w.submitting, chains[r'])
    {
      Laid(w.frames, chains, r');
      TopIs(w.frames, r', chains[r']);
    }
  }

  lemma DeliverFrames(w: World, chains: ChainMap, h: Id, r: Id, res: int, t: Runner)
    requires FramesKept(w, chains) && r in chains && Shape(chains[r]) && Top(chains[r]).InIo?
    requires h == chains[r].cells[chains[r].active].id
    ensures h in w.frames && w.frames[h].status == Top(chains[r]) && w.frames[h].root == r
    ensures var s := Running(Top(chains[r]).onResult(res));
            Shape(SetTop(chains[r], s)) &&
            FramesKept(SetStatus(w, h, s).(runner := w.runner[r := t], submitting := w.submitting - {h},
                                           inflight := w.inflight - {h}, calling := w.calling - {h}),
                       chains[r := SetTop(chains[r], s)])
  {
    Laid(w.frames, chains, r);
    TopIs(w.frames, r, chains[r]);
    var s := Running(Top(chains[r]).onResult(res));
    SetTopKeepsShape(chains[r], s);
    StatusFrames(w, chains, r, s);
    DeliverThreads(w, chains, r, SetTop(chains[r], s), t);
    DeliverInIo(w, h, s);
  }

  lemma DeliverInIo(w: World, h: Id, s: Status)
    requires IoTokens(w.frames, w.submitting, w.inflight, w.calling, w.running)
    requires h in w.frames && !s.InIo?
    ensures IoTokens(SetStatus(w, h, s).frames, w.submitting - {h}, w.inflight - {h}, w.calling - {h}, w.running)
  {
    DeliverTokens(w.frames, SetStatus(w, h, s).frames, w.submitting, w.inflight, w.calling, w.running, h);
  }

  lemma DeliverHistory(code: Code, history: map<Id, History>, next: Id, chains: ChainMap, r: Id, res: int)
    requires Histories(code, history, next, chains) && r in chains && Shape(chains[r]) && Top(chains[r]).InIo?
    ensures r in history
    ensures Histories(code, history[r := history[r].(fed := history[r].fed + [res])], next,
                      chains[r := ResumeChain(chains[r], res)])
  {
    ResumeExplains(code, history[r], chains[r], res);
    HistoryKept(code, history, next, next, chains, r, history[r].(fed := history[r].fed + [res]),
      ResumeChain(chains[r], res));
  }

  lemma DeliverMisused(code: Code, misused: set<Id>, history: map<Id, History>, chains: ChainMap, r: Id, res: int)
    requires Misused(code, misused, history, chains) && r in chains && r in history
    requires Shape(chains[r]) && Top(chains[r]).InIo?
    ensures Misused(code, misused, history[r := history[r].(fed := history[r].fed + [res])],
                    chains[r := ResumeChain(chains[r], res)])
  {
    MisusedKept(code, misused, misused, history, chains, r, history[r].(fed := history[r].fed + [res]),
                ResumeChain(chains[r], res));
  }

  lemma Delivered(w: World, h: Id, res: int, t: Runner)
    requires h in w.frames && w.frames[h].status.InIo? && w.frames[h].root in w.history
    ensures var r := w.frames[h].root;
            Deliver(w, h, res, t)
            == SetStatus(w, h, Running(w.frames[h].status.onResult(res)))
               .(runner := w.runner[r := t], history := w.history[r := w.history[r].(fed := w.history[r].fed + [res])])
  {
    var r := w.frames[h].root;
    assert w.history[r].log + [] == w.history[r].log;
  }

  lemma DeliverRoots(w: World, chains: ChainMap, r: Id, ch: Chain)
    requires RootsKept(w, chains) && r in chains && Shape(chains[r]) && Top(chains[r]).InIo?
    requires Shape(ch) && Top(ch).Running? && ch == SetTop(chains[r], Top(ch))
    ensures RootsKept(w, chains[r := ch])
  {
    TokensKept(w.spawning, w.queue, w.taken, chains, r, ch);
    ListedKept(w.registry, w.spawning, w.skipped, chains, r, ch);
    SkipsKept(w.skipped, w.next, w.next, chains, r, ch);
  }

  /** A callback delivered to a waiting frame, with the callback itself taken off the books. */
  lemma KeptDeliver(code: Code, w: World, chains: ChainMap, h: Id, r: Id, res: int, t: Runner)
    requires Kept(code, w, chains) && (w.joined ==> t.PoolThread?)
    requires r in chains && Shape(chains[r]) && Top(chains[r]).InIo? && h == chains[r].cells[chains[r].active].id
    ensures Kept(code, Deliver(UseUp(w, h), h, res, t), chains[r := ResumeChain(chains[r], res)])
  {
    DeliverFrames(w, chains, h, r, res, t);
    DeliverRoots(w, chains, r, ResumeChain(chains[r], res));
    DeliverHistory(code, w.history, w.next, chains, r, res);
    Delivered(UseUp(w, h), h, res, t);
    DeliverMisused(code, w.misused, w.history, chains, r, res);
  }

  // ---- final_awaiter of a root ----

  /** A frame that destroys itself is the root of its chain, at its final suspend point. */
  lemma FinalRoot(fs: map<Id, Frame>, chains: ChainMap, h: Id)
    requires Mirrors(fs, chains) && h in fs && fs[h].selfDestroy && fs[h].status.Done?
    ensures h in chains && Shape(chains[h]) && chains[h].active == 0 && Top(chains[h]) == fs[h].status
    ensures chains[h].cells[0].id == h && fs[h] == FrameAt(h, chains[h], 0)
  {
    var r := fs[h].root;
    assert Placed(fs, chains, h);
    Laid(fs, chains, r);
    assert At(fs, r, chains[r], fs[h].depth);
    assert At(fs, r, chains[r], 0);
  }

  lemma RemoveExact(s: seq<Id>, h: Id)
    requires Distinct(s) && h in s
    ensures Distinct(Remove(s, h))
    ensures forall x :: x in Remove(s, h) <==> x in s && x != h
  {
    var i, n := IndexOf(s, h), |s|;
    var t := Remove(s, h);
    assert t == s[i := s[n - 1]][..n - 1];
    forall x | x in s && x != h ensures x in t {
      var j :| 0 <= j < n && s[j] == x;
      if j == n - 1 { assert t[i] == x; } else { assert t[j] == x; }
    }
    forall x | x in t ensures x in s && x != h {
      var j :| 0 <= j < n - 1 && t[j] == x;
      if j == i { assert x == s[n - 1]; } else { assert x == s[j]; }
    }
  }

  lemma Unlist(registry: seq<Id>, spawning: map<Id, Stage>, skipped: set<Id>, chains: ChainMap, r: Id, ch: Chain)
    requires RegistryExact(registry, spawning, skipped, chains) && r in chains && r !in spawning
    requires Shape(chains[r]) && chains[r].cells[0].status.Done? && !chains[r].cells[0].status.unregistered
    requires ch.kind == chains[r].kind && Shape(ch) && ch.cells[0].status.Done? && ch.cells[0].status.unregistered
    ensures RegistryExact(if ch.kind.Detached? then Remove(registry, r) else registry, spawning, skipped,
                          chains[r := ch])
  {
    if ch.kind.Detached? {
      assert Listed(spawning, r, chains[r]);
      if r in registry { RemoveExact(registry, r); }
    }
  }

  lemma UnregisterExplains(code: Code, hst: History, ch: Chain)
    requires Explains(code, hst, ch) && ch.active == 0 && Top(ch).Done?
    ensures Explains(code, hst, SetTop(ch, Done(Top(ch).outcome, true)))
  {
    var ch' := SetTop(ch, Done(Top(ch).outcome, true));
    SilentFaithful(code, hst, ch, Done(Top(ch).outcome, true));
    forall i | 0 < i < |ch'.cells| ensures UserStatus(ch'.cells[i].status) { assert UserStatus(ch.cells[i].status); }
  }

  lemma UnregisterFrames(w: World, chains: ChainMap, r: Id)
    requires FramesKept(w, chains) && r in chains && Shape(chains[r]) && chains[r].active == 0 && Top(chains[r]).Done?
    ensures r in w.frames && w.frames[r] == FrameAt(r, chains[r], 0)
    ensures var s := Done(Top(chains[r]).outcome, true);
            && Shape(SetTop(chains[r], s))
            && FramesKept(SetStatus(w, r, s), chains[r := SetTop(chains[r], s)])
  {
    RootsLive(w.frames, chains, r);
    Laid(w.frames, chains, r);
    var s := Done(Top(chains[r]).outcome, true);
    SetTopKeepsShape(chains[r], s);
    StatusFrames(w, chains, r, s);
    assert Busy(w.submitting, chains[r]) && Busy(w.submitting, SetTop(chains[r], s));
    SameThreads(w.runner, w.submitting, chains, r, SetTop(chains[r], s));
    StatusInIo(w, r, s);
  }

  lemma SameThreads(runner: map<Id, Runner>, submitting: map<Id, Request>, chains: ChainMap, r: Id, ch: Chain)
    requires Threads(runner, submitting, chains) && r in chains && Busy(submitting, chains[r]) && Busy(submitting, ch)
    ensures Threads(runner, submitting, chains[r := ch])
  {
  }

  lemma KeptUnregister(code: Code, w: World, chains: ChainMap, h: Id)
    requires Kept(code, w, chains) && h in chains && Shape(chains[h]) && chains[h].active == 0
    requires Top(chains[h]).Done? && !Top(chains[h]).unregistered
    ensures h in w.frames && w.frames[h].status.Done?
    ensures Kept(code, UnregisterRoot(w, h), chains[h := SetTop(chains[h], Done(Top(chains[h]).outcome, true))])
  {
    var ch := chains[h];
    var ch' := SetTop(ch, Done(Top(ch).outcome, true));
    UnregisterFrames(w, chains, h);
    TokensKept(w.spawning, w.queue, w.taken, chains, h, ch');
    Unlist(w.registry, w.spawning, w.skipped, chains, h, ch');
    SkipsKept(w.skipped, w.next, w.next, chains, h, ch');
    UnregisterExplains(code, w.history[h], ch);
    SameHistory(code, w.history, w.next, chains, h, ch');
    MisusedSame(code, w.misused, w.history, chains, h, ch');
  }

  // ---- A chain disappears ----

  lemma GoneIds(w: World, chains: ChainMap, r: Id)
    requires Mirrors(w.frames, chains) && r in chains && IdsAccounted(w.frames, w.next, w.destroyed)
    ensures var cells := chains[r].cells;
            IdsAccounted(w.frames - IdSet(cells), w.next, w.destroyed + IdList(cells))
  {
    var cells := chains[r].cells;
    Laid(w.frames, chains, r);
    DistinctCells(w.frames, r, chains[r]);
    NoDupIds(cells);
    IdListSet(cells);
    forall x | x in IdSet(cells) ensures x in w.frames { CellsLive(w.frames, r, chains[r], x); }
    IdsKept(w.frames, w.next, w.destroyed, w.frames - IdSet(cells), w.next, IdList(cells));
  }

  lemma GoneTokens(w: World, chains: ChainMap, r: Id)
    requires StartTokens(w.spawning, w.queue, w.taken, chains)
             && RegistryExact(w.registry, w.spawning, w.skipped, chains)
    requires r in chains && !RootFresh(chains[r]) && !Listed(w.spawning, r, chains[r])
    ensures StartTokens(w.spawning, w.queue, w.taken, chains - {r})
            && RegistryExact(w.registry, w.spawning, w.skipped, chains - {r})
  {
  }

  lemma GoneThreads(runner: map<Id, Runner>, submitting: map<Id, Request>, chains: ChainMap, r: Id)
    requires Threads(runner, submitting, chains)
    ensures Threads(runner - {r}, submitting, chains - {r})
  {
  }

  lemma GoneInIo(w: World, chains: ChainMap, r: Id)
    requires Mirrors(w.frames, chains) && r in chains && !Top(chains[r]).InIo?
    requires IoTokens(w.frames, w.submitting, w.inflight, w.calling, w.running)
    ensures IoTokens(w.frames - IdSet(chains[r].cells), w.submitting, w.inflight, w.calling, w.running)
  {
    forall x | x in w.frames && w.frames[x].status.InIo? ensures x !in IdSet(chains[r].cells) {
      ActiveFrame(w.frames, chains, x);
      ChainFrames(w.frames, chains, r, x);
    }
    SameInIo(w.frames, w.frames - IdSet(chains[r].cells), w.submitting, w.inflight, w.calling, w.running);
  }

  lemma GoneHistory(code: Code, history: map<Id, History>, next: Id, chains: ChainMap, r: Id)
    requires Histories(code, history, next, chains) && r in chains
    requires Shape(chains[r]) && chains[r].active == 0 && Top(chains[r]).Done?
    ensures r in history && Completed(code, history[r])
    ensures Histories(code, history[r := history[r].(phase := Finished)], next, chains - {r})
  {
    DoneCompleted(code, history[r], chains[r]);
  }

  lemma GoneMisused(code: Code, misused: set<Id>, history: map<Id, History>, chains: ChainMap, r: Id)
    requires Misused(code, misused, history, chains) && r in chains && r in history
    requires Top(chains[r]).Done? && Completed(code, history[r])
    ensures Misused(code, misused, history[r := history[r].(phase := Finished)], chains - {r})
  {
    FinishedOver(code, history[r]);
  }

  lemma DestroyFrames(w: World, chains: ChainMap, r: Id)
    requires FramesKept(w, chains) && r in chains && Shape(chains[r]) && chains[r].active == 0 && Top(chains[r]).Done?
    ensures r in w.frames && w.frames[r] == FrameAt(r, chains[r], 0)
    ensures var d := Destroy(w.frames, r);
            !d.fault && FramesKept(ApplyWreck(w, d).(runner := w.runner - {r}), chains - {r})
  {
    RootsLive(w.frames, chains, r);
    DestroyRootChain(w.frames, chains, r);
    GoneIds(w, chains, r);
    GoneInIo(w, chains, r);
    GoneThreads(w.runner, w.submitting, chains, r);
  }

  lemma KeptDestroySelf(code: Code, w: World, chains: ChainMap, h: Id)
    requires Kept(code, w, chains) && h in chains && Shape(chains[h]) && chains[h].active == 0
    requires Top(chains[h]).Done? && Top(chains[h]).unregistered
    ensures h in w.frames && w.frames[h].status.Done?
    ensures Kept(code, DestroyRoot(w, h), chains - {h})
  {
    DestroyFrames(w, chains, h);
    GoneTokens(w, chains, h);
    GoneHistory(code, w.history, w.next, chains, h);
    GoneMisused(code, w.misused, w.history, chains, h);
  }
}
