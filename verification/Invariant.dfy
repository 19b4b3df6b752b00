/** What holds in every reachable world. */
module Invariant {
  import opened Lists
  import opened Program
  import opened Chains
  import opened Frames
  import opened Mirror

  ghost predicate RootFresh(ch: Chain) {
    ch.active == 0 && 0 < |ch.cells| && ch.cells[0].status.Fresh?
  }

  /** Every id ever handed out names a live frame or one destroyed exactly once. */
  ghost predicate IdsAccounted(frames: map<Id, Frame>, next: Id, destroyed: seq<Id>) {
    && (forall h :: h in frames ==> h < next && h !in destroyed)
    && (forall h :: h in destroyed ==> h < next)
    && (forall h: Id :: h < next ==> h in frames || h in destroyed)
    && Distinct(destroyed)
  }

  /** A wrapper that has not been resumed yet is held by exactly one of: the call that
      builds it, the task queue, a worker; and nobody else holds such a handle. */
  ghost predicate StartTokens(spawning: map<Id, Stage>, queue: seq<Id>, taken: set<Id>, chains: ChainMap) {
    && Distinct(queue)
    && (forall r :: r in spawning || r in queue || r in taken ==> r in chains && RootFresh(chains[r]))
    && (forall r :: r in spawning && spawning[r] == ToRegister ==> chains[r].kind.Detached?)
    && (forall r :: r in spawning ==> r !in queue && r !in taken)
    && (forall r :: r in queue ==> r !in taken)
    && (forall r :: r in chains && RootFresh(chains[r]) ==> r in spawning || r in queue || r in taken)
  }

  /** A callback only ever refers to a frame suspended in exactly that operation, and while
      the backend runs every such frame has exactly one callback on its way. */
  ghost predicate IoTokens(frames: map<Id, Frame>, submitting: map<Id, Request>, inflight: map<Id, Request>,
                           calling: map<Id, int>, running: bool)
  {
    && (forall h :: h in submitting ==> InOp(frames, h, submitting[h]))
    && (forall h :: h in inflight ==> InOp(frames, h, inflight[h]))
    && (forall h :: h in calling ==> h in frames && frames[h].status.InIo?)
    && (forall h :: h in submitting ==> h !in inflight && h !in calling)
    && (forall h :: h in inflight ==> h !in calling)
    && (running ==> forall h :: h in frames && frames[h].status.InIo? ==>
          h in submitting || h in inflight || h in calling)
  }

  ghost predicate InOp(frames: map<Id, Frame>, h: Id, op: Request) {
    h in frames && frames[h].status.InIo? && frames[h].status.op == op
  }

  /** A thread is busy with this chain: executing it, registering its operation, or finishing it. */
  ghost predicate Busy(submitting: map<Id, Request>, ch: Chain) {
    ch.active < |ch.cells| && !RootFresh(ch) && (Top(ch).InIo? ==> ch.cells[ch.active].id in submitting)
  }

  ghost predicate Threads(runner: map<Id, Runner>, submitting: map<Id, Request>, chains: ChainMap) {
    forall r :: r in runner <==> r in chains && Busy(submitting, chains[r])
  }

  /** After stop() has returned no event loop invokes a callback or executes a coroutine. */
  ghost predicate LoopsQuiet(joined: bool, running: bool, inflight: map<Id, Request>, calling: map<Id, int>,
                             runner: map<Id, Runner>)
  {
    joined ==> !running && inflight == map[] && calling == map[] && forall r :: r in runner ==> runner[r] == PoolThread
  }

  /** The registry lists exactly the detached wrappers between their add and their remove. */
  ghost predicate Listed(spawning: map<Id, Stage>, r: Id, ch: Chain) {
    && ch.kind.Detached?
    && !(r in spawning && spawning[r] == ToRegister)
    && 0 < |ch.cells| && !(ch.cells[0].status.Done? && ch.cells[0].status.unregistered)
  }

  ghost predicate RegistryExact(registry: seq<Id>, spawning: map<Id, Stage>, skipped: set<Id>, chains: ChainMap) {
    && Distinct(registry)
    && (forall r :: r in registry <==> r in chains && Listed(spawning, r, chains[r]) && r !in skipped)
  }

  /** destroy_all only leaves roots alone that are past their body. */
  ghost predicate SkipsDone(skipped: set<Id>, next: Id, chains: ChainMap) {
    forall r :: r in skipped ==> r < next && (r in chains ==> 0 < |chains[r].cells| && chains[r].cells[0].status.Done?)
  }

  /** Evaluating what is left of the chain and putting what it did so far in front is
      evaluating its program from the start. */
  ghost predicate Faithful(code: Code, hst: History, ch: Chain) {
    Shape(ch) &&
    forall fuel: nat, ios :: EvalChain(code, fuel, ch, ios) != OutOfFuel ==>
      Eval(code, fuel + hst.steps, Entry(hst.kind), Some(hst.body), hst.fed + ios)
      == Prepend(hst.log, EvalChain(code, fuel, ch, ios))
  }

  /** A root that ran to its end did what direct evaluation does. */
  ghost predicate Completed(code: Code, hst: History) {
    Eval(code, hst.steps, Entry(hst.kind), Some(hst.body), hst.fed) == Ends(Value(0), hst.log, [])
  }

  ghost predicate Histories(code: Code, history: map<Id, History>, next: Id, chains: ChainMap) {
    && (forall r :: r in history ==> r < next && history[r].body.User?)
    && (forall r :: r in chains ==> r in history && Explains(code, history[r], chains[r]))
    && (forall r :: r in history && r !in chains ==> !history[r].phase.Alive?)
    && (forall r :: r in history && history[r].phase.Finished? ==> Completed(code, history[r]))
  }

  /** Before its wrapper is resumed, the inner task is all there is of a root. */
  ghost predicate Unstarted(hst: History, ch: Chain) {
    hst.fed == [] && hst.log == [] && Slot(ch) == Some(hst.body)
  }

  ghost predicate Explains(code: Code, hst: History, ch: Chain) {
    && hst.phase.Alive?
    && hst.kind == ch.kind
    && Faithful(code, hst, ch)
    && RootBody(ch)
    && PromiseOnce(hst, ch)
    && (RootFresh(ch) ==> Unstarted(hst, ch))
  }

  // ---- Programs that misuse a task object ----

  /** Direct evaluation of the body, on the results it was given, awaits an empty or finished task. */
  ghost predicate StuckOn(code: Code, hst: History) {
    exists f: nat :: Eval(code, f, hst.body, None, hst.fed).Stuck?
  }

  /** A root without frames has finished, or was destroyed while it was suspended. */
  ghost predicate Over(code: Code, hst: History, bad: bool) {
    && (bad <==> StuckOn(code, hst))
    && (hst.phase.Killed? ==> hst.kind.Detached? && NoPromise(hst.log))
  }

  /** Exactly the chains that stand at a misused await are recorded, and of the roots that are gone
      exactly those whose evaluation is stuck. */
  ghost predicate Misused(code: Code, misused: set<Id>, history: map<Id, History>, chains: ChainMap) {
    && (forall r :: r in chains ==> chains[r].active < |chains[r].cells|)
    && (forall r :: r in chains ==> (r in misused <==> Top(chains[r]).Undefined?))
    && (forall r :: r in misused ==> r in history)
    && (forall r :: r in history && r !in chains ==> Over(code, history[r], r in misused))
  }

  // ---- The wrappers and the promise of sync_wait ----

  ghost predicate NoPromise(log: seq<Obs>) {
    forall i :: 0 <= i < |log| ==> log[i].Effect?
  }

  /** The promise is set exactly when the wrapper of sync_wait is past it, and then once. */
  ghost predicate PromiseOnce(hst: History, ch: Chain) {
    0 < |ch.cells| &&
    var s := ch.cells[0].status;
    if ch.kind.Synced? && (s.Done? || (s.Running? && s.body == Exit)) then
      hst.log != [] && hst.log[|hst.log| - 1].PromiseSet? && NoPromise(hst.log[..|hst.log| - 1])
    else NoPromise(hst.log)
  }

  function AfterInner(kind: Kind, o: Outcome): Body {
    if kind.Synced? then SetPromise(o) else Exit
  }

  /** The root of a chain is its wrapper, everything above it is user code. */
  ghost predicate RootBody(ch: Chain) {
    && 0 < |ch.cells|
    && (match ch.cells[0].status
        case Fresh(b) => b == Entry(ch.kind) && HasFreshTask(ch)
        case Running(b) => (b == Entry(ch.kind) && HasFreshTask(ch)) || (b.SetPromise? && ch.kind.Synced?) || b == Exit
        case Awaiting(resume) => forall o :: resume(o) == AfterInner(ch.kind, o)
        case Done(o, _) => o == Value(0)
        case InIo(_, _) => false
        case Undefined => false)
    && (forall i :: 0 < i < |ch.cells| ==> UserStatus(ch.cells[i].status))
  }

  ghost predicate UserStatus(s: Status) {
    match s
    case Fresh(b) => b.User?
    case Running(b) => b.User?
    case Awaiting(resume) => forall o :: resume(o).User?
    case InIo(_, onResult) => forall res :: onResult(res).User?
    case Done(_, _) => true
    case Undefined => true
  }

  /** The parts of the invariant that speak about frames. */
  ghost predicate FramesKept(w: World, chains: ChainMap) {
    && Mirrors(w.frames, chains)
    && IdsAccounted(w.frames, w.next, w.destroyed)
    && IoTokens(w.frames, w.submitting, w.inflight, w.calling, w.running)
    && Threads(w.runner, w.submitting, chains)
  }

  /** ... about roots that are not running yet or not any more, and the registry. */
  ghost predicate RootsKept(w: World, chains: ChainMap) {
    && StartTokens(w.spawning, w.queue, w.taken, chains)
    && RegistryExact(w.registry, w.spawning, w.skipped, chains)
    && SkipsDone(w.skipped, w.next, chains)
  }

  ghost predicate Kept(code: Code, w: World, chains: ChainMap) {
    && !w.fault
    && FramesKept(w, chains)
    && RootsKept(w, chains)
    && LoopsQuiet(w.joined, w.running, w.inflight, w.calling, w.runner)
    && Histories(code, w.history, w.next, chains)
    && Misused(code, w.misused, w.history, chains)
  }

  /** The invariant: some set of await chains explains the world. */
  ghost predicate Inv(code: Code, w: World) {
    exists chains :: Kept(code, w, chains)
  }

  lemma InitiallyKept(code: Code)
    ensures Kept(code, EMPTY_WORLD, map[])
  {
  }
}
