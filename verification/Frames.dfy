/** The heap of coroutine frames and everything that holds a coroutine handle: the detached
    registry, the thread pool's tasks and the callbacks of the I/O backend. Threads interleave
    in steps; a step that would use a handle illegally raises `fault` instead. */
module Frames {
  import opened Program
  import opened Chains

  type Id = nat

  /** A frame and its promise. `root` and `depth` only say on whose behalf it was created;
      no step branches on them. */
  datatype Frame = Frame(
    status: Status,
    continuation: Option<Id>,
    task: Option<Id>,           // the child frame owned by a task object stored in this frame
    selfDestroy: bool,
    onDestroy: bool,            // on_destroy_ unregisters from the detached registry
    root: Id,
    depth: nat)

  datatype Stage = ToRegister | ToQueue

  datatype Runner = PoolThread | LoopThread

  datatype Phase = Alive | Finished | Killed

  /** What happened to a root so far: `fed` are the I/O results its chain received. */
  datatype History = History(kind: Kind, body: Body, fed: seq<int>, log: seq<Obs>, steps: nat, phase: Phase)

  datatype World = World(
    frames: map<Id, Frame>,
    next: Id,
    registry: seq<Id>,          // detached_registry::handles_
    spawning: map<Id, Stage>,   // wrappers whose detach()/sync_wait() call is still under way
    queue: seq<Id>,             // pool tasks, each resuming one handle
    taken: set<Id>,             // tasks taken by a worker, resume() not yet called
    submitting: map<Id, Request>, // suspended frames, await_suspend is about to call async_io
    inflight: map<Id, Request>, // callbacks held by the backend
    calling: map<Id, int>,      // an event loop has decided to invoke this callback
    runner: map<Id, Runner>,    // the thread that executes a root's chain
    running: bool,              // running_ of the backend
    joined: bool,               // stop() has joined the event loops
    skipped: set<Id>,           // roots that destroy_all found at their final suspend point
    history: map<Id, History>,
    misused: set<Id>,           // roots that awaited an empty or a finished task object
    destroyed: seq<Id>,
    fault: bool)

  datatype Event =
    | Spawn(kind: Kind, p: Point)  // detach() or sync_wait() called outside any coroutine
    | Register(r: Id)              // detached_registry::add
    | Enqueue(r: Id)               // thrdpool::execute
    | Take                         // a worker pops the oldest task
    | Start(r: Id)                 // ... and runs it: h.resume()
    | Exec(h: Id)                  // the running frame h performs one action
    | Submit(h: Id)                // async_io accepts (or, once stopped, ignores) the operation
    | Refuse(h: Id, err: nat)      // async_io fails and calls back at once
    | Harvest(h: Id, res: int)     // the event loop saw running_, the kernel answered res
    | Callback(h: Id)              // the event loop invokes the callback
    | Discard(h: Id)               // the event loop saw !running_ and frees the context
    | Unregister(h: Id)            // final_awaiter: on_destroy_
    | DestroySelf(h: Id)           // final_awaiter: h.destroy()
    | Stop
    | Join
    | DestroyAll

  const EMPTY_WORLD := World(map[], 0, [], map[], [], {}, map[], map[], map[], map[], true, false, {}, map[],
                             {}, [], false)

  // ---- Destroying frames ----

  datatype Wreck = Wreck(frames: map<Id, Frame>, order: seq<Id>, fault: bool)

  /** coroutine_handle::destroy: the frame dies, and with it the task object it stores. */
  function Destroy(fs: map<Id, Frame>, h: Id): Wreck
    decreases |fs|
  {
    if h !in fs || fs[h].status.Running? then Wreck(fs, [], true) else
      var left := fs - {h};
      assert left.Keys == fs.Keys - {h};
      match fs[h].task
      case None => Wreck(left, [h], false)
      case Some(c) => var d := Destroy(left, c); d.(order := [h] + d.order)
  }

  function DestroyTask(fs: map<Id, Frame>, h: Id): Wreck
    requires h in fs
  {
    match fs[h].task
    case None => Wreck(fs, [], false)
    case Some(c) => Destroy(fs, c)
  }

  function ApplyWreck(w: World, d: Wreck): World {
    w.(frames := d.frames, destroyed := w.destroyed + d.order, fault := w.fault || d.fault)
  }

  /** detached_registry::remove: the last handle takes the place of the first match. */
  function Remove(s: seq<Id>, h: Id): seq<Id> {
    if h in s then var i := IndexOf(s, h); s[i := s[|s| - 1]][..|s| - 1] else s
  }

  function IndexOf(s: seq<Id>, h: Id): (i: nat)
    requires h in s
    ensures i < |s| && s[i] == h && h !in s[..i]
  {
    if s[0] == h then 0 else 1 + IndexOf(s[1..], h)
  }

  /** detached_registry::destroy_all, from handle `i` on. */
  function DestroyFrom(fs: map<Id, Frame>, handles: seq<Id>): Wreck
    decreases |handles|
  {
    if handles == [] then Wreck(fs, [], false) else
      var h := handles[0];
      if h !in fs then Wreck(fs, [], true) else
        var d := if fs[h].status.Done? then Wreck(fs, [], false) else Destroy(fs, h);
        var rest := DestroyFrom(d.frames, handles[1..]);
        Wreck(rest.frames, d.order + rest.order, d.fault || rest.fault)
  }

  // ---- Steps ----

  function SetStatus(w: World, h: Id, s: Status): World
    requires h in w.frames
  {
    w.(frames := w.frames[h := w.frames[h].(status := s)])
  }

  function Fault(w: World): World { w.(fault := true) }

  function Note(w: World, r: Id, fed: seq<int>, log: seq<Obs>, steps: nat): World {
    if r in w.history then
      var was := w.history[r];
      w.(history := w.history[r := was.(fed := was.fed + fed, log := was.log + log, steps := was.steps + steps)])
    else Fault(w)
  }

  function Forget(w: World, r: Id, phase: Phase): World {
    if r in w.history then w.(history := w.history[r := w.history[r].(phase := phase)]) else Fault(w)
  }

  /** detach() and sync_wait(): the inner frame exists already, the wrapper that owns it is
      created, marked self-destroying and released. */
  function NewRoot(w: World, kind: Kind, body: Body): World {
    var inner, r := w.next, w.next + 1;
    w.(frames := w.frames[inner := Frame(Fresh(body), None, None, false, false, r, 1)]
                         [r := Frame(Fresh(Entry(kind)), None, Some(inner), true, kind.Detached?, r, 0)],
       next := w.next + 2,
       spawning := w.spawning[r := if kind.Detached? then ToRegister else ToQueue],
       history := w.history[r := History(kind, body, [], [], 0, Alive)])
  }

  /** Symmetric transfer: the thread goes on in the continuation, if there is one. */
  function Transfer(w: World, cont: Option<Id>, o: Outcome): World {
    match cont
    case None => w
    case Some(p) =>
      if p in w.frames && w.frames[p].status.Awaiting?
      then SetStatus(w, p, Running(w.frames[p].status.resume(o)))
      else Fault(w)
  }

  /** return_value / unhandled_exception, then final_awaiter::await_suspend up to on_destroy_. */
  function FinishFrame(w: World, h: Id, o: Outcome): World
    requires h in w.frames
  {
    var f := w.frames[h];
    var done := SetStatus(w, h, Done(o, false));
    if f.selfDestroy then done else Transfer(done, f.continuation, o)
  }

  function CreateTask(w: World, h: Id, child: Body, next: Body): World
    requires h in w.frames
  {
    var f, n := w.frames[h], w.next;
    var cut := ApplyWreck(w, DestroyTask(w.frames, h));
    cut.(frames := cut.frames[n := Frame(Fresh(child), None, None, false, false, f.root, f.depth + 1)]
                             [h := f.(status := Running(next), task := Some(n))],
         next := n + 1)
  }

  /** task::await_suspend resumes its handle, whatever that is. When it is null, or the child is at
      its final suspend point, C++ defines nothing any more; the chain is recorded and stands. */
  function Misuse(w: World, h: Id): World
    requires h in w.frames
  {
    SetStatus(w, h, Undefined).(misused := w.misused + {w.frames[h].root})
  }

  /** task::await_suspend: link the continuation, then the child runs on this thread. */
  function AwaitTask(w: World, h: Id, resume: Outcome -> Body): World
    requires h in w.frames
  {
    match w.frames[h].task
    case Some(c) =>
      if c in w.frames && w.frames[c].status.Fresh? then
        var child := w.frames[c];
        w.(frames := w.frames[h := w.frames[h].(status := Awaiting(resume))]
                             [c := child.(status := Running(child.status.body), continuation := Some(h))])
      else Misuse(w, h)
    case None => Misuse(w, h)
  }

  function DropTask(w: World, h: Id, next: Body): World
    requires h in w.frames
  {
    var f := w.frames[h];
    var cut := ApplyWreck(w, DestroyTask(w.frames, h));
    cut.(frames := cut.frames[h := f.(status := Running(next), task := None)])
  }

  /** The frame counts as suspended before its operation is registered. */
  function SuspendForIo(w: World, h: Id, op: Request, onResult: int -> Body): World
    requires h in w.frames
  {
    var s := SetStatus(w, h, InIo(op, onResult));
    s.(submitting := s.submitting[h := op])
  }

  function Act(w: World, h: Id, a: Action<Body, Obs>): World
    requires h in w.frames
  {
    match a
    case Return(v) => FinishFrame(w, h, Value(v))
    case Throw(e) => FinishFrame(w, h, Exception(e))
    case Emit(_, next) => SetStatus(w, h, Running(next))
    case Create(child, next) => CreateTask(w, h, child, next)
    case Await(resume) => AwaitTask(w, h, resume)
    case Drop(next) => DropTask(w, h, next)
    case Io(op, onResult) => SuspendForIo(w, h, op, onResult)
    case Detach(child, next) => NewRoot(SetStatus(w, h, Running(next)), Detached, child)
  }

  function ExecFrame(code: Code, w: World, h: Id): World
    requires h in w.frames && w.frames[h].status.Running?
  {
    var a := Decode(code, w.frames[h].status.body);
    Note(Act(w, h, a), w.frames[h].root, [], ObsOf(a), 1)
  }

  /** A callback: it stores the result and resumes the suspended frame on thread `t`. */
  function Deliver(w: World, h: Id, res: int, t: Runner): World {
    if h in w.frames && w.frames[h].status.InIo? then
      var r := w.frames[h].root;
      var on := SetStatus(w, h, Running(w.frames[h].status.onResult(res)));
      Note(on.(runner := on.runner[r := t]), r, [res], [], 0)
    else Fault(w)
  }

  /** How a failed operation reports an errno value to its callback. */
  function Negative(err: nat): int { 0 - err }

  /** A callback runs once: whoever holds it lets go of it. */
  function UseUp(w: World, h: Id): World {
    w.(submitting := w.submitting - {h}, inflight := w.inflight - {h}, calling := w.calling - {h})
  }

  function StartRoot(w: World, r: Id): World {
    var w' := w.(taken := w.taken - {r});
    if r in w.frames && w.frames[r].status.Fresh? then
      SetStatus(w', r, Running(w.frames[r].status.body)).(runner := w.runner[r := PoolThread])
    else Fault(w')
  }

  function SubmitOp(w: World, h: Id): World
    requires h in w.submitting
  {
    if h in w.frames then
      w.(submitting := w.submitting - {h},
         runner := w.runner - {w.frames[h].root},
         inflight := if w.running then w.inflight[h := w.submitting[h]] else w.inflight)
    else Fault(w)
  }

  function RefuseOp(w: World, h: Id, err: nat): World
  {
    if h in w.frames && w.frames[h].root in w.runner
    then Deliver(UseUp(w, h), h, Negative(err), w.runner[w.frames[h].root])
    else Fault(w)
  }

  function UnregisterRoot(w: World, h: Id): World
    requires h in w.frames && w.frames[h].status.Done?
  {
    var f := w.frames[h];
    var w' := SetStatus(w, h, Done(f.status.outcome, true));
    if f.onDestroy then w'.(registry := Remove(w.registry, h)) else w'
  }

  function DestroyRoot(w: World, h: Id): World
    requires h in w.frames && w.frames[h].status.Done?
  {
    var f := w.frames[h];
    var gone := ApplyWreck(w, Destroy(w.frames, h));
    Forget(Transfer(gone.(runner := gone.runner - {h}), f.continuation, f.status.outcome), h, Finished)
  }

  /** destroy_all empties the registry; roots not yet at their final suspend point die. A callback
      that waits for one of them is never called: the loops free its context when they see it. */
  function ShutDown(w: World): World {
    var d := DestroyFrom(w.frames, w.registry);
    ApplyWreck(w, d).(registry := [],
                      skipped := w.skipped + (set r | r in w.registry && r in d.frames),
                      inflight := map h | h in w.inflight && h in d.frames :: w.inflight[h],
                      runner := map r | r in w.runner && (r in w.registry ==> r in d.frames) :: w.runner[r],
                      history := map r | r in w.history ::
                        if r in w.registry && r !in d.frames then w.history[r].(phase := Killed) else w.history[r])
  }

  /** When a step can happen. Exec and the callbacks do not ask whether the handle is good. */
  ghost predicate Enabled(w: World, e: Event) {
    match e
    case Spawn(_, _) => true
    case Register(r) => r in w.spawning && w.spawning[r] == ToRegister
    case Enqueue(r) => r in w.spawning && w.spawning[r] == ToQueue
    case Take => w.queue != []
    case Start(r) => r in w.taken
    case Exec(h) => h in w.frames && w.frames[h].status.Running?
    case Submit(h) => h in w.submitting
    case Refuse(h, _) => h in w.submitting  // running_ was read before, stop() may have come since
    case Harvest(h, _) => w.running && h in w.inflight
    case Callback(h) => h in w.calling
    case Discard(h) => !w.running && h in w.inflight
    case Unregister(h) => h in w.frames && w.frames[h].selfDestroy
                          && w.frames[h].status.Done? && !w.frames[h].status.unregistered
    case DestroySelf(h) => h in w.frames && w.frames[h].selfDestroy
                           && w.frames[h].status.Done? && w.frames[h].status.unregistered
    case Stop => true
    case Join => !w.running && w.calling == map[] && LoopThread !in w.runner.Values
    case DestroyAll => !w.running  // stop() has returned; only its first caller has joined the loops
  }

  ghost function Next(code: Code, w: World, e: Event): World
    requires Enabled(w, e)
  {
    match e
    case Spawn(kind, p) => NewRoot(w, kind, User(p))
    case Register(r) => w.(registry := w.registry + [r], spawning := w.spawning[r := ToQueue])
    case Enqueue(r) => w.(queue := w.queue + [r], spawning := w.spawning - {r})
    case Take => w.(queue := w.queue[1..], taken := w.taken + {w.queue[0]})
    case Start(r) => StartRoot(w, r)
    case Exec(h) => ExecFrame(code, w, h)
    case Submit(h) => SubmitOp(w, h)
    case Refuse(h, err) => RefuseOp(w, h, err)
    case Harvest(h, res) => w.(inflight := w.inflight - {h}, calling := w.calling[h := res])
    case Callback(h) => Deliver(UseUp(w, h), h, w.calling[h], LoopThread)
    case Discard(h) => w.(inflight := w.inflight - {h})
    case Unregister(h) => UnregisterRoot(w, h)
    case DestroySelf(h) => DestroyRoot(w, h)
    case Stop => w.(running := false)
    case Join => w.(joined := true, inflight := map[])  // nobody will look at these callbacks again
    case DestroyAll => ShutDown(w)
  }
}
