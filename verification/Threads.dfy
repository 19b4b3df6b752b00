/** Who runs what when: the pool's tasks are taken in the order in which they were queued, and a chain
    stays on the thread that resumed it. */
module Threads {
  import opened Program
  import opened Chains
  import opened Frames
  import opened Mirror
  import opened Simulation
  import opened Invariant
  import opened RootSteps
  import opened Runs

  /** Tasks and threads are left alone. */
  ghost predicate SameTasks(w: World, w': World) {
    w'.queue == w.queue && w'.taken == w.taken && w'.runner == w.runner
  }

  lemma CoreTasks(code: Code, w: World, chains: ChainMap, h: Id)
    requires Mirrors(w.frames, chains) && w.next !in w.frames && h in w.frames && w.frames[h].status.Running?
    ensures SameTasks(w, Core(w, h, Decode(code, w.frames[h].status.body)))
    ensures Core(w, h, Decode(code, w.frames[h].status.body)).history == w.history
  {
    ActiveFrame(w.frames, chains, h);
    var q := w.frames[h].root;
    Laid(w.frames, chains, q);
    ActSimulates(code, w, q, chains[q], Decode(code, w.frames[h].status.body));
  }

  lemma NoteTasks(w: World, r: Id, log: seq<Obs>)
    requires r in w.history
    ensures SameTasks(w, Note(w, r, [], log, 1))
  {
  }

  lemma KnownIds(code: Code, w: World, chains: ChainMap, h: Id)
    requires Kept(code, w, chains) && h in w.frames && w.frames[h].status.Running?
    ensures w.frames[h].root in w.history && w.next !in w.frames && forall r :: r in w.history ==> r < w.next
  {
    ActiveFrame(w.frames, chains, h);
  }

  lemma NewRootTasks(w: World, kind: Kind, body: Body)
    ensures SameTasks(w, NewRoot(w, kind, body))
  {
  }

  lemma ExecTasks(code: Code, w: World, h: Id)
    requires h in w.frames && w.frames[h].status.Running?
    requires w.frames[h].root in w.history && forall r :: r in w.history ==> r < w.next
    requires Core(w, h, Decode(code, w.frames[h].status.body)).history == w.history
    requires SameTasks(w, Core(w, h, Decode(code, w.frames[h].status.body)))
    ensures SameTasks(w, ExecFrame(code, w, h))
  {
    var r, a := w.frames[h].root, Decode(code, w.frames[h].status.body);
    ExecSplits(code, w, h);
    NoteTasks(Core(w, h, a), r, ObsOf(a));
    if a.Detach? { NewRootTasks(Note(Core(w, h, a), r, [], ObsOf(a), 1), Detached, a.child); }
  }

  lemma ExecKeepsTasks(code: Code, w: World, chains: ChainMap, h: Id)
    requires Kept(code, w, chains) && h in w.frames && w.frames[h].status.Running?
    ensures SameTasks(w, ExecFrame(code, w, h))
  {
    KnownIds(code, w, chains, h);
    CoreTasks(code, w, chains, h);
    ExecTasks(code, w, h);
  }

  /** The root whose chain a step puts on a thread, and the thread. */
  ghost function Resumes(w: World, e: Event): Option<(Id, Runner)> {
    match e
    case Start(r) => Some((r, PoolThread))
    case Callback(h) => if h in w.frames then Some((w.frames[h].root, LoopThread)) else None
    case _ => None
  }

  /** The root whose chain leaves its thread: its frame's operation is registered, or it is gone. */
  ghost predicate LeavesThread(w: World, e: Event, r: Id) {
    || (e.Submit? && e.h in w.frames && w.frames[e.h].root == r)
    || e == DestroySelf(r)
    || (e.DestroyAll? && r in w.registry && r !in DestroyFrom(w.frames, w.registry).frames)
  }

  /** Which thread executes which root. */
  ghost predicate ThreadsAfter(w: World, e: Event, w': World) {
    forall r :: (r in w'.runner <==> (r in w.runner && !LeavesThread(w, e, r))
                                     || (Resumes(w, e).Some? && Resumes(w, e).value.0 == r))
                && (r in w'.runner ==>
                      w'.runner[r] == if Resumes(w, e).Some? && Resumes(w, e).value.0 == r then Resumes(w, e).value.1
                                      else if r in w.runner then w.runner[r] else w'.runner[r])
  }

  /** First in, first out. */
  ghost predicate QueueAfter(w: World, e: Event, w': World) {
    && w'.queue == (if e.Enqueue? then w.queue + [e.r] else if e.Take? && w.queue != [] then w.queue[1..] else w.queue)
    && (forall r :: r in w'.taken ==> r in w.taken || (e.Take? && w.queue != [] && r == w.queue[0]))
  }

  ghost predicate TasksAfter(w: World, e: Event, w': World) {
    ThreadsAfter(w, e, w') && QueueAfter(w, e, w')
  }

  predicate Stays(e: Event) {
    || e.Spawn? || e.Register? || e.Exec? || e.Refuse? || e.Harvest? || e.Discard? || e.Stop? || e.Join?
    || e.Unregister?
  }

  lemma SameAfter(w: World, e: Event, w': World)
    requires SameTasks(w, w') && Stays(e)
    ensures TasksAfter(w, e, w')
  {
  }

  lemma RootStepTasks(code: Code, w: World, e: Event)
    requires Enabled(w, e) && (e.Spawn? || e.Register? || e.Enqueue? || e.Take?)
    ensures TasksAfter(w, e, Next(code, w, e))
  {
    match e {
      case Spawn(kind, p) => SameAfter(w, e, NewRoot(w, kind, User(p)));
      case Register(_) => SameAfter(w, e, Next(code, w, e));
      case Enqueue(_) =>
      case Take =>
    }
  }

  lemma StartTasks(code: Code, w: World, chains: ChainMap, r: Id)
    requires Kept(code, w, chains) && r in w.taken
    ensures StartRoot(w, r).queue == w.queue && StartRoot(w, r).taken == w.taken - {r}
    ensures StartRoot(w, r).runner == w.runner[r := PoolThread]
  {
    RootsLive(w.frames, chains, r);
  }

  lemma DeliverTasks(w: World, h: Id, res: int, t: Runner)
    requires h in w.frames && w.frames[h].status.InIo? && w.frames[h].root in w.history
    ensures var w' := Deliver(UseUp(w, h), h, res, t);
            w'.queue == w.queue && w'.taken == w.taken && w'.runner == w.runner[w.frames[h].root := t]
  {
    Delivered(UseUp(w, h), h, res, t);
  }

  lemma CallbackTasks(code: Code, w: World, chains: ChainMap, h: Id)
    requires Kept(code, w, chains) && h in w.calling
    ensures var w' := Deliver(UseUp(w, h), h, w.calling[h], LoopThread);
            && h in w.frames && w'.queue == w.queue && w'.taken == w.taken
            && w'.runner == w.runner[w.frames[h].root := LoopThread]
  {
    ActiveFrame(w.frames, chains, h);
    DeliverTasks(w, h, w.calling[h], LoopThread);
  }

  /** A refused frame goes on where it was. */
  lemma RefusedTasks(w: World, h: Id, res: int, t: Runner, w': World)
    requires h in w.frames && w.frames[h].status.InIo? && w.frames[h].root in w.history
    requires w.frames[h].root in w.runner && t == w.runner[w.frames[h].root]
    requires w' == Deliver(UseUp(w, h), h, res, t)
    ensures SameTasks(w, w')
  {
    DeliverTasks(w, h, res, t);
    var r := w.frames[h].root;
    assert w.runner[r := t] == w.runner;
  }

  lemma RefuseTasks(code: Code, w: World, chains: ChainMap, h: Id, err: nat, w': World)
    requires Kept(code, w, chains) && h in w.submitting && w' == RefuseOp(w, h, err)
    ensures SameTasks(w, w')
  {
    ActiveFrame(w.frames, chains, h);
    var t := RefusalIs(w, chains, h, err);
    RefusedTasks(w, h, Negative(err), t, w');
  }

  lemma SubmitTasks(w: World, h: Id)
    requires h in w.submitting && h in w.frames
    ensures var w' := SubmitOp(w, h);
            w'.queue == w.queue && w'.taken == w.taken && w'.runner == w.runner - {w.frames[h].root}
  {
  }

  lemma DestroyTasks(code: Code, w: World, chains: ChainMap, h: Id)
    requires Kept(code, w, chains) && h in w.frames && w.frames[h].selfDestroy && w.frames[h].status.Done?
    ensures var w' := DestroyRoot(w, h);
            w'.queue == w.queue && w'.taken == w.taken && w'.runner == w.runner - {h}
  {
    FinalRoot(w.frames, chains, h);
  }

  lemma ShutDownTasks(w: World)
    ensures var w' := ShutDown(w);
            && w'.queue == w.queue && w'.taken == w.taken
            && w'.runner == map r | r in w.runner && (r in w.registry ==>
                              r in DestroyFrom(w.frames, w.registry).frames) :: w.runner[r]
  {
  }

  lemma QuietTasks(code: Code, w: World, e: Event)
    requires Enabled(w, e) && (e.Harvest? || e.Discard? || e.Stop? || e.Join?)
    ensures SameTasks(w, Next(code, w, e))
  {
  }

  lemma UnregisterTasks(w: World, h: Id)
    requires h in w.frames && w.frames[h].status.Done?
    ensures SameTasks(w, UnregisterRoot(w, h))
  {
  }

  // ---- Every step ----

  lemma OnThread(w: World, e: Event, w': World, r: Id, t: Runner)
    requires w'.queue == w.queue && (forall x :: x in w'.taken ==> x in w.taken) && w'.runner == w.runner[r := t]
    requires Resumes(w, e) == Some((r, t)) && !e.Enqueue? && !e.Take?
    requires forall x :: !LeavesThread(w, e, x)
    ensures TasksAfter(w, e, w')
  {
  }

  lemma OffThread(w: World, e: Event, w': World, r: Id)
    requires w'.queue == w.queue && w'.taken == w.taken && w'.runner == w.runner - {r}
    requires Resumes(w, e).None? && !e.Enqueue? && !e.Take?
    requires forall x :: LeavesThread(w, e, x) <==> x == r
    ensures TasksAfter(w, e, w')
  {
  }

  lemma SubmittedFrame(code: Code, w: World, chains: ChainMap, h: Id)
    requires Kept(code, w, chains) && h in w.submitting
    ensures h in w.frames
  {
  }

  lemma SubmitAfter(w: World, h: Id)
    requires h in w.submitting && h in w.frames
    ensures TasksAfter(w, Submit(h), SubmitOp(w, h))
  {
    SubmitTasks(w, h);
    OffThread(w, Submit(h), SubmitOp(w, h), w.frames[h].root);
  }

  lemma CallbackAfter(w: World, h: Id, w': World)
    requires h in w.frames && w'.queue == w.queue && w'.taken == w.taken
    requires w'.runner == w.runner[w.frames[h].root := LoopThread]
    ensures TasksAfter(w, Callback(h), w')
  {
    OnThread(w, Callback(h), w', w.frames[h].root, LoopThread);
  }

  lemma StartAfter(w: World, r: Id, w': World)
    requires w'.queue == w.queue && w'.taken == w.taken - {r} && w'.runner == w.runner[r := PoolThread]
    ensures TasksAfter(w, Start(r), w')
  {
    OnThread(w, Start(r), w', r, PoolThread);
  }

  lemma DestroyAfter(w: World, h: Id, w': World)
    requires w'.queue == w.queue && w'.taken == w.taken && w'.runner == w.runner - {h}
    ensures TasksAfter(w, DestroySelf(h), w')
  {
    OffThread(w, DestroySelf(h), w', h);
  }

  lemma ShutDownAfter(w: World)
    ensures TasksAfter(w, DestroyAll, ShutDown(w))
  {
    ShutDownTasks(w);
  }

  lemma CallbackStep(code: Code, w: World, chains: ChainMap, h: Id)
    requires Kept(code, w, chains) && h in w.calling
    ensures TasksAfter(w, Callback(h), Deliver(UseUp(w, h), h, w.calling[h], LoopThread))
  {
    CallbackTasks(code, w, chains, h);
    CallbackAfter(w, h, Deliver(UseUp(w, h), h, w.calling[h], LoopThread));
  }

  lemma StartStep(code: Code, w: World, chains: ChainMap, r: Id)
    requires Kept(code, w, chains) && r in w.taken
    ensures TasksAfter(w, Start(r), StartRoot(w, r))
  {
    StartTasks(code, w, chains, r);
    StartAfter(w, r, StartRoot(w, r));
  }

  lemma DestroyStep(code: Code, w: World, chains: ChainMap, h: Id)
    requires Kept(code, w, chains) && h in w.frames && w.frames[h].selfDestroy && w.frames[h].status.Done?
    ensures TasksAfter(w, DestroySelf(h), DestroyRoot(w, h))
  {
    DestroyTasks(code, w, chains, h);
    DestroyAfter(w, h, DestroyRoot(w, h));
  }

  lemma MovingAfter(code: Code, w: World, chains: ChainMap, e: Event)
    requires Kept(code, w, chains) && Enabled(w, e)
    requires e.Start? || e.Submit? || e.Callback? || e.DestroySelf? || e.DestroyAll?
    ensures TasksAfter(w, e, Next(code, w, e))
  {
    match e {
      case Start(r) => StartStep(code, w, chains, r);
      case Submit(h) => SubmittedFrame(code, w, chains, h); SubmitAfter(w, h);
      case Callback(h) => CallbackStep(code, w, chains, h);
      case DestroySelf(h) => DestroyStep(code, w, chains, h);
      case DestroyAll => ShutDownAfter(w);
    }
  }

  lemma StayingSame(code: Code, w: World, chains: ChainMap, e: Event)
    requires Kept(code, w, chains) && Enabled(w, e)
    requires e.Exec? || e.Refuse? || e.Harvest? || e.Discard? || e.Stop? || e.Join? || e.Unregister?
    ensures SameTasks(w, Next(code, w, e))
  {
    match e {
      case Exec(h) => ExecKeepsTasks(code, w, chains, h);
      case Refuse(h, err) => RefuseTasks(code, w, chains, h, err, RefuseOp(w, h, err));
      case Unregister(h) => UnregisterTasks(w, h);
      case Harvest(_, _) => QuietTasks(code, w, e);
      case Discard(_) => QuietTasks(code, w, e);
      case Stop => QuietTasks(code, w, e);
      case Join => QuietTasks(code, w, e);
    }
  }

  /** What every step does to the pool's queue and to the threads: only Start and a callback put a chain
      on a thread, a worker's or the event loop's; it stays there until its frame's operation is
      registered or it is gone. */
  lemma ThreadsStep(code: Code, w: World, e: Event)
    requires Inv(code, w) && Legal(w, e)
    ensures TasksAfter(w, e, Next(code, w, e))
  {
    var chains: ChainMap :| Kept(code, w, chains);
    if e.Spawn? || e.Register? || e.Enqueue? || e.Take? {
      RootStepTasks(code, w, e);
    } else if e.Start? || e.Submit? || e.Callback? || e.DestroySelf? || e.DestroyAll? {
      MovingAfter(code, w, chains, e);
    } else {
      StayingSame(code, w, chains, e);
      SameAfter(w, e, Next(code, w, e));
    }
  }

  // ---- Whole runs ----

  /** The tasks enqueued, in order. */
  function Enqueued(es: seq<Event>): seq<Id> {
    if es == [] then [] else (if es[0].Enqueue? then [es[0].r] else []) + Enqueued(es[1..])
  }

  function Takes(es: seq<Event>): nat {
    if es == [] then 0 else (if es[0].Take? then 1 else 0) + Takes(es[1..])
  }

  /** `taken` tasks of those in `all` have left the queue, the oldest ones. */
  ghost predicate InOrder(w: World, before: set<Id>, all: seq<Id>, taken: nat) {
    && taken <= |all| && w.queue == all[taken..]
    && (forall r :: r in w.taken ==> r in before || r in all[..taken])
  }

  function Added(e: Event): seq<Id> {
    if e.Enqueue? then [e.r] else []
  }

  lemma OneMore(w: World, e: Event, u: World, rest: seq<Id>, w': World, more: nat, all: seq<Id>, n: nat)
    requires QueueAfter(w, e, u) && (e.Take? ==> w.queue != [])
    requires InOrder(w', u.taken, u.queue + rest, more)
    requires all == w.queue + Added(e) + rest && n == more + if e.Take? then 1 else 0
    ensures InOrder(w', w.taken, all, n)
  {
    if e.Take? {
      assert all == [w.queue[0]] + (u.queue + rest);
      assert all[..more + 1] == [w.queue[0]] + (u.queue + rest)[..more];
    } else {
      assert all == u.queue + rest;
    }
  }

  lemma EnqueuedFirst(es: seq<Event>, q: seq<Id>)
    requires es != []
    ensures q + Enqueued(es) == q + Added(es[0]) + Enqueued(es[1..])
    ensures Takes(es) == Takes(es[1..]) + if es[0].Take? then 1 else 0
  {
  }

  lemma OneEventMore(w: World, es: seq<Event>, u: World, w': World)
    requires es != [] && QueueAfter(w, es[0], u) && (es[0].Take? ==> w.queue != [])
    requires InOrder(w', u.taken, u.queue + Enqueued(es[1..]), Takes(es[1..]))
    ensures InOrder(w', w.taken, w.queue + Enqueued(es), Takes(es))
  {
    EnqueuedFirst(es, w.queue);
    OneMore(w, es[0], u, Enqueued(es[1..]), w', Takes(es[1..]), w.queue + Enqueued(es), Takes(es));
  }

  lemma StepFacts(code: Code, w: World, e: Event, u: World)
    requires Inv(code, w) && Legal(w, e) && u == Next(code, w, e)
    ensures Inv(code, u) && QueueAfter(w, e, u) && (e.Take? ==> w.queue != [])
  {
    StepKeepsInv(code, w, e);
    ThreadsStep(code, w, e);
  }

  lemma {:induction false} TakenFrom(code: Code, w: World, es: seq<Event>, w': World)
    requires Inv(code, w) && Leads(code, w, es, w')
    ensures InOrder(w', w.taken, w.queue + Enqueued(es), Takes(es))
    decreases |es|
  {
    if es == [] {
      assert w.queue + [] == w.queue;
    } else {
      var u := Next(code, w, es[0]);
      StepFacts(code, w, es[0], u);
      TakenFrom(code, u, es[1..], w');
      OneEventMore(w, es, u, w');
    }
  }

  /** In every run: the workers take the roots' tasks in the order in which detach and sync_wait queued
      them. */
  lemma TasksInOrder(code: Code, es: seq<Event>, w: World)
    requires Leads(code, EMPTY_WORLD, es, w)
    ensures InOrder(w, {}, Enqueued(es), Takes(es))
  {
    assert Leads(code, EMPTY_WORLD, [], EMPTY_WORLD);
    ReachableInv(code, EMPTY_WORLD);
    TakenFrom(code, EMPTY_WORLD, es, w);
    assert EMPTY_WORLD.queue + Enqueued(es) == Enqueued(es);
  }
}
