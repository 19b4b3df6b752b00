/** While a coroutine stays suspended in one operation, no step touches it or the frames that wait for
    it: whatever their locals are, they are still there. */
module SuspendedChains {
  import opened Program
  import opened Chains
  import opened Frames
  import opened Mirror
  import opened Simulation
  import opened Invariant
  import opened ExecStep
  import opened RootSteps
  import opened Shutdown
  import opened ShutdownExact
  import opened Runs

  /** Frame `g` waits, through the frames between, for `h`, or is `h`. */
  ghost predicate Below(w: World, g: Id, h: Id) {
    && g in w.frames && h in w.frames
    && w.frames[g].root == w.frames[h].root && w.frames[g].depth <= w.frames[h].depth
  }

  /** The frames of root `r` are as they were. */
  ghost predicate RootUntouched(fs: map<Id, Frame>, fs': map<Id, Frame>, r: Id) {
    forall x :: x in fs && fs[x].root == r ==> x in fs' && fs'[x] == fs[x]
  }

  lemma CoreElsewhere(code: Code, w: World, chains: ChainMap, h: Id, r: Id)
    requires Mirrors(w.frames, chains) && w.next !in w.frames
    requires h in w.frames && w.frames[h].status.Running? && w.frames[h].root != r
    ensures var core := Core(w, h, Decode(code, w.frames[h].status.body));
            RootUntouched(w.frames, core.frames, r) && core.history == w.history
  {
    ActiveFrame(w.frames, chains, h);
    var q := w.frames[h].root;
    Laid(w.frames, chains, q);
    ActSimulates(code, w, q, chains[q], Decode(code, w.frames[h].status.body));
    forall x | x in w.frames && w.frames[x].root == r ensures x !in IdSet(chains[q].cells) {
      ChainFrames(w.frames, chains, q, x);
    }
  }

  lemma SpawnElsewhere(w: World, kind: Kind, body: Body, r: Id)
    requires w.next !in w.frames && w.next + 1 !in w.frames
    ensures RootUntouched(w.frames, NewRoot(w, kind, body).frames, r)
  {
  }

  lemma NoteFrames(w: World, r: Id, log: seq<Obs>)
    requires r in w.history
    ensures Note(w, r, [], log, 1).frames == w.frames
    ensures Note(w, r, [], log, 1).next == w.next
  {
  }

  lemma CoreDetach(w: World, h: Id, a: Action<Body, Obs>)
    requires h in w.frames && w.frames[h].status.Running? && a.Detach?
    ensures Core(w, h, a).next == w.next && Core(w, h, a).frames.Keys == w.frames.Keys
  {
  }

  lemma Onwards(fs: map<Id, Frame>, mid: map<Id, Frame>, fs': map<Id, Frame>, r: Id)
    requires RootUntouched(fs, mid, r) && RootUntouched(mid, fs', r)
    ensures RootUntouched(fs, fs', r)
  {
  }

  lemma ExecElsewhere(code: Code, w: World, h: Id, r: Id)
    requires h in w.frames && w.frames[h].status.Running?
    requires w.frames[h].root in w.history && forall x :: x in w.history ==> x < w.next
    requires w.next !in w.frames && w.next + 1 !in w.frames
    requires var core := Core(w, h, Decode(code, w.frames[h].status.body));
             RootUntouched(w.frames, core.frames, r) && core.history == w.history
    ensures RootUntouched(w.frames, ExecFrame(code, w, h).frames, r)
  {
    var a := Decode(code, w.frames[h].status.body);
    ExecSplits(code, w, h);
    NoteFrames(Core(w, h, a), w.frames[h].root, ObsOf(a));
    if a.Detach? {
      var w1 := Note(Core(w, h, a), w.frames[h].root, [], ObsOf(a), 1);
      CoreDetach(w, h, a);
      SpawnElsewhere(w1, Detached, a.child, r);
      Onwards(w.frames, w1.frames, NewRoot(w1, Detached, a.child).frames, r);
    }
  }

  lemma ExecKeepsOthers(code: Code, w: World, chains: ChainMap, h: Id, r: Id)
    requires Kept(code, w, chains) && h in w.frames && w.frames[h].status.Running? && w.frames[h].root != r
    ensures RootUntouched(w.frames, ExecFrame(code, w, h).frames, r)
  {
    ActiveFrame(w.frames, chains, h);
    CoreElsewhere(code, w, chains, h, r);
    ExecElsewhere(code, w, h, r);
  }

  lemma StatusElsewhere(w: World, h: Id, s: Status, r: Id)
    requires h in w.frames && w.frames[h].root != r
    ensures RootUntouched(w.frames, SetStatus(w, h, s).frames, r)
  {
  }

  lemma DestroyElsewhere(code: Code, w: World, chains: ChainMap, h: Id, r: Id)
    requires Kept(code, w, chains) && h in w.frames && w.frames[h].selfDestroy && w.frames[h].status.Done? && h != r
    ensures RootUntouched(w.frames, DestroyRoot(w, h).frames, r)
  {
    FinalRoot(w.frames, chains, h);
    DestroyRootChain(w.frames, chains, h);
    forall x | x in w.frames && w.frames[x].root == r ensures x !in IdSet(chains[h].cells) {
      ChainFrames(w.frames, chains, h, x);
    }
  }

  /** destroy_all takes whole chains. */
  lemma ShutDownElsewhere(code: Code, w: World, chains: ChainMap, h: Id)
    requires Kept(code, w, chains) && !w.running && ShutdownSafe(w) && h in w.frames && h in ShutDown(w).frames
    ensures RootUntouched(w.frames, ShutDown(w).frames, w.frames[h].root)
  {
    ShutDownFrames(w, chains);
    HitOrSpared(w, chains, h);
    forall x | x in w.frames && w.frames[x].root == w.frames[h].root ensures x in ShutDown(w).frames {
      HitOrSpared(w, chains, x);
    }
  }

  lemma ResumeElsewhere(w: World, h: Id, res: int, t: Runner, r: Id)
    requires h in w.frames && w.frames[h].status.InIo? && w.frames[h].root in w.history && w.frames[h].root != r
    ensures RootUntouched(w.frames, Deliver(UseUp(w, h), h, res, t).frames, r)
  {
    Delivered(UseUp(w, h), h, res, t);
    StatusElsewhere(w, h, Running(w.frames[h].status.onResult(res)), r);
  }

  lemma CallbackElsewhere(code: Code, w: World, chains: ChainMap, h: Id, r: Id)
    requires Kept(code, w, chains) && h in w.calling
    ensures h in w.frames && w.frames[h].status.InIo?
    ensures w.frames[h].root != r ==>
              RootUntouched(w.frames, Deliver(UseUp(w, h), h, w.calling[h], LoopThread).frames, r)
  {
    ActiveFrame(w.frames, chains, h);
    if w.frames[h].root != r { ResumeElsewhere(w, h, w.calling[h], LoopThread, r); }
  }

  lemma RefuseElsewhere(code: Code, w: World, chains: ChainMap, h: Id, err: nat, r: Id)
    requires Kept(code, w, chains) && h in w.submitting
    ensures h in w.frames && w.frames[h].status.InIo?
    ensures w.frames[h].root != r ==> RootUntouched(w.frames, RefuseOp(w, h, err).frames, r)
  {
    ActiveFrame(w.frames, chains, h);
    var t := RefusalIs(w, chains, h, err);
    if w.frames[h].root != r { ResumeElsewhere(w, h, Negative(err), t, r); }
  }

  /** Steps that do not touch the heap of frames. */
  ghost predicate Aside(e: Event) {
    e.Register? || e.Enqueue? || e.Take? || e.Submit? || e.Harvest? || e.Discard? || e.Stop? || e.Join?
  }

  lemma AsideFrames(code: Code, w: World, e: Event)
    requires Enabled(w, e) && Aside(e)
    ensures Next(code, w, e).frames == w.frames
  {
    match e {
      case Register(_) =>
      case Enqueue(_) =>
      case Take =>
      case Submit(_) =>
      case Harvest(_, _) =>
      case Discard(_) =>
      case Stop =>
      case Join =>
    }
  }

  /** A root with a frame suspended in an operation is neither started, nor executing, nor done. */
  lemma SuspendedRoot(fs: map<Id, Frame>, chains: ChainMap, h: Id, x: Id)
    requires Mirrors(fs, chains) && h in fs && fs[h].status.InIo? && x in fs && fs[x].root == fs[h].root
    ensures !fs[x].status.Running? && (fs[x].status.InIo? ==> x == h)
    ensures x == fs[h].root ==> !fs[x].status.Fresh? && !fs[x].status.Done?
  {
    ActiveFrame(fs, chains, h);
    var r := fs[h].root;
    Laid(fs, chains, r);
    SuspendedCells(fs, r, chains[r], h, x) by { assert Placed(fs, chains, x); }
  }

  lemma SuspendedCells(fs: map<Id, Frame>, r: Id, ch: Chain, h: Id, x: Id)
    requires Holds(fs, r, ch) && ch.cells[ch.active].id == h && Top(ch).InIo?
    requires x in fs && fs[x].depth < |ch.cells| && ch.cells[fs[x].depth].id == x
    ensures !fs[x].status.Running? && (fs[x].status.InIo? ==> x == h)
    ensures x == r ==> !fs[x].status.Fresh? && !fs[x].status.Done?
  {
    assert At(fs, r, ch, fs[x].depth) && At(fs, r, ch, 0);
  }

  lemma StartElsewhere(code: Code, w: World, chains: ChainMap, h: Id, q: Id)
    requires Kept(code, w, chains) && h in w.frames && w.frames[h].status.InIo? && q in w.taken
    ensures RootUntouched(w.frames, StartRoot(w, q).frames, w.frames[h].root)
  {
    RootsLive(w.frames, chains, q);
    if q == w.frames[h].root { SuspendedRoot(w.frames, chains, h, q); }
    StatusElsewhere(w, q, Running(w.frames[q].status.body), w.frames[h].root);
  }

  lemma FinalElsewhere(code: Code, w: World, chains: ChainMap, h: Id, q: Id)
    requires Kept(code, w, chains) && h in w.frames && w.frames[h].status.InIo?
    requires q in w.frames && w.frames[q].selfDestroy && w.frames[q].status.Done?
    ensures RootUntouched(w.frames, UnregisterRoot(w, q).frames, w.frames[h].root)
    ensures RootUntouched(w.frames, DestroyRoot(w, q).frames, w.frames[h].root)
  {
    FinalRoot(w.frames, chains, q);
    if q == w.frames[h].root { SuspendedRoot(w.frames, chains, h, q); }
    StatusElsewhere(w, q, Done(w.frames[q].status.outcome, true), w.frames[h].root);
    DestroyElsewhere(code, w, chains, q, w.frames[h].root);
  }

  /** Resuming a frame suspended in an operation takes it out of that operation. */
  lemma OwnResumed(code: Code, w: World, chains: ChainMap, h: Id, x: Id, res: int, t: Runner)
    requires Kept(code, w, chains) && h in w.frames && w.frames[h].status.InIo?
    requires x in w.frames && w.frames[x].status.InIo? && w.frames[x].root == w.frames[h].root
    ensures var fs := Deliver(UseUp(w, x), x, res, t).frames; h in fs && fs[h].status.Running?
  {
    SuspendedRoot(w.frames, chains, h, x);
    ActiveFrame(w.frames, chains, x);
    Delivered(UseUp(w, x), x, res, t);
  }

  /** `h` is suspended in the same operation in `w` as in `w'`. */
  ghost predicate StillSuspended(w: World, w': World, h: Id) {
    h in w.frames && h in w'.frames && w.frames[h].status.InIo? && w.frames[h].status == w'.frames[h].status
  }

  lemma ExecStays(code: Code, w: World, chains: ChainMap, h: Id, x: Id)
    requires Kept(code, w, chains) && h in w.frames && w.frames[h].status.InIo?
    requires x in w.frames && w.frames[x].status.Running?
    ensures RootUntouched(w.frames, ExecFrame(code, w, x).frames, w.frames[h].root)
  {
    if w.frames[x].root == w.frames[h].root { SuspendedRoot(w.frames, chains, h, x); }
    ExecKeepsOthers(code, w, chains, x, w.frames[h].root);
  }

  lemma RefuseStays(code: Code, w: World, chains: ChainMap, h: Id, x: Id, err: nat)
    requires Kept(code, w, chains) && x in w.submitting && StillSuspended(w, RefuseOp(w, x, err), h)
    ensures RootUntouched(w.frames, RefuseOp(w, x, err).frames, w.frames[h].root)
  {
    RefuseElsewhere(code, w, chains, x, err, w.frames[h].root);
    if w.frames[x].root == w.frames[h].root {
      var t := RefusalIs(w, chains, x, err);
      OwnResumed(code, w, chains, h, x, Negative(err), t);
    }
  }

  lemma CallbackStays(code: Code, w: World, chains: ChainMap, h: Id, x: Id)
    requires Kept(code, w, chains) && x in w.calling
    requires StillSuspended(w, Deliver(UseUp(w, x), x, w.calling[x], LoopThread), h)
    ensures RootUntouched(w.frames, Deliver(UseUp(w, x), x, w.calling[x], LoopThread).frames, w.frames[h].root)
  {
    CallbackElsewhere(code, w, chains, x, w.frames[h].root);
    if w.frames[x].root == w.frames[h].root { OwnResumed(code, w, chains, h, x, w.calling[x], LoopThread); }
  }

  lemma ResumeStays(code: Code, w: World, chains: ChainMap, e: Event, h: Id)
    requires Kept(code, w, chains) && Enabled(w, e) && (e.Refuse? || e.Callback?)
             && StillSuspended(w, Next(code, w, e), h)
    ensures RootUntouched(w.frames, Next(code, w, e).frames, w.frames[h].root)
  {
    match e {
      case Refuse(x, err) => RefuseStays(code, w, chains, h, x, err);
      case Callback(x) => CallbackStays(code, w, chains, h, x);
    }
  }

  lemma OtherStepStays(code: Code, w: World, chains: ChainMap, e: Event, h: Id)
    requires Kept(code, w, chains) && Legal(w, e) && !Aside(e) && !e.Refuse? && !e.Callback?
    requires StillSuspended(w, Next(code, w, e), h)
    ensures RootUntouched(w.frames, Next(code, w, e).frames, w.frames[h].root)
  {
    match e {
      case Spawn(kind, p) => SpawnElsewhere(w, kind, User(p), w.frames[h].root);
      case Start(q) => StartElsewhere(code, w, chains, h, q);
      case Exec(x) => ExecStays(code, w, chains, h, x);
      case Unregister(q) => FinalElsewhere(code, w, chains, h, q);
      case DestroySelf(q) => FinalElsewhere(code, w, chains, h, q);
      case DestroyAll => ShutDownElsewhere(code, w, chains, h);
    }
  }

  /** A step after which a frame is still suspended in the same operation has left all frames of its
      root as they were. */
  lemma SuspendedChainStays(code: Code, w: World, e: Event, h: Id)
    requires Inv(code, w) && Legal(w, e) && StillSuspended(w, Next(code, w, e), h)
    ensures RootUntouched(w.frames, Next(code, w, e).frames, w.frames[h].root)
  {
    var chains: ChainMap :| Kept(code, w, chains);
    if Aside(e) {
      AsideFrames(code, w, e);
    } else if e.Refuse? || e.Callback? {
      ResumeStays(code, w, chains, e, h);
    } else {
      OtherStepStays(code, w, chains, e, h);
    }
  }

  /** Its own callback, the refusal of its own operation, or destroy_all of its root. */
  ghost predicate EndsSuspension(w: World, e: Event, h: Id)
    requires h in w.frames
  {
    e == Callback(h) || (e.Refuse? && e.h == h) || (e.DestroyAll? && w.frames[h].root in w.registry)
  }

  ghost predicate SameFrame(w: World, w': World, h: Id)
    requires h in w.frames
  {
    h in w'.frames && w'.frames[h] == w.frames[h]
  }

  lemma SpareRests(code: Code, w: World, chains: ChainMap, h: Id)
    requires Kept(code, w, chains) && !w.running && ShutdownSafe(w) && h in w.frames && w.frames[h].root !in w.registry
    ensures SameFrame(w, ShutDown(w), h)
  {
    ShutDownFrames(w, chains);
    HitOrSpared(w, chains, h);
  }

  lemma RefuseRests(code: Code, w: World, chains: ChainMap, h: Id, x: Id, err: nat)
    requires Kept(code, w, chains) && x in w.submitting && h in w.frames && w.frames[h].status.InIo? && x != h
    ensures SameFrame(w, RefuseOp(w, x, err), h)
  {
    RefuseElsewhere(code, w, chains, x, err, w.frames[h].root);
    if w.frames[x].root == w.frames[h].root { SuspendedRoot(w.frames, chains, h, x); }
  }

  lemma CallbackRests(code: Code, w: World, chains: ChainMap, h: Id, x: Id)
    requires Kept(code, w, chains) && x in w.calling && h in w.frames && w.frames[h].status.InIo? && x != h
    ensures SameFrame(w, Deliver(UseUp(w, x), x, w.calling[x], LoopThread), h)
  {
    CallbackElsewhere(code, w, chains, x, w.frames[h].root);
    if w.frames[x].root == w.frames[h].root { SuspendedRoot(w.frames, chains, h, x); }
  }

  lemma ResumeRests(code: Code, w: World, chains: ChainMap, e: Event, h: Id)
    requires Kept(code, w, chains) && Enabled(w, e) && (e.Refuse? || e.Callback?)
    requires h in w.frames && w.frames[h].status.InIo? && !EndsSuspension(w, e, h)
    ensures SameFrame(w, Next(code, w, e), h)
  {
    match e {
      case Refuse(x, err) => RefuseRests(code, w, chains, h, x, err);
      case Callback(x) => CallbackRests(code, w, chains, h, x);
    }
  }

  lemma OtherStepRests(code: Code, w: World, chains: ChainMap, e: Event, h: Id)
    requires Kept(code, w, chains) && Legal(w, e) && !Aside(e) && !e.Refuse? && !e.Callback?
    requires h in w.frames && w.frames[h].status.InIo? && !EndsSuspension(w, e, h)
    ensures SameFrame(w, Next(code, w, e), h)
  {
    match e {
      case Spawn(kind, p) => SpawnElsewhere(w, kind, User(p), w.frames[h].root);
      case Start(q) => StartElsewhere(code, w, chains, h, q);
      case Exec(x) => ExecStays(code, w, chains, h, x);
      case Unregister(q) => FinalElsewhere(code, w, chains, h, q);
      case DestroySelf(q) => FinalElsewhere(code, w, chains, h, q);
      case DestroyAll => SpareRests(code, w, chains, h);
    }
  }

  /** Conversely, nothing else ends the suspension of a frame, nor changes the frame meanwhile. */
  lemma OnlyResumptionEnds(code: Code, w: World, e: Event, h: Id)
    requires Inv(code, w) && Legal(w, e) && h in w.frames && w.frames[h].status.InIo? && !EndsSuspension(w, e, h)
    ensures SameFrame(w, Next(code, w, e), h)
  {
    var chains: ChainMap :| Kept(code, w, chains);
    if Aside(e) {
      AsideFrames(code, w, e);
    } else if e.Refuse? || e.Callback? {
      ResumeRests(code, w, chains, e, h);
    } else {
      OtherStepRests(code, w, chains, e, h);
    }
  }
}
