/** The runtime running on four instances of its backend: coroutines submit, instances register, report
    and fail, event loops call back, stop() comes at any moment. Nothing here depends on which of the
    two backends an instance is, except what it asks of its callers. */
module JointSystem {
  import opened Lists
  import opened Program
  import opened Frames
  import opened Mirror
  import opened Invariant
  import Simulation
  import RootSteps
  import opened Runs
  import opened Termination
  import opened Guarantees
  import opened AsyncIo
  import opened Pool
  import B = Backends

  /** `begun` are the frames inside async_io, with the request each has made; `flying` those whose
      request the runtime counts as in flight; `nextTag` numbers the requests. */
  datatype System = System(w: World, inst: seq<B.Instance>, begun: map<Id, Req>, flying: map<Id, Req>, nextTag: nat)

  datatype Event =
    | Plain(act: Frames.Event)               // the runtime on its own
    | Enters(h: Id, c: Ctx)                  // async_io: running_ seen true, a context acquired
    | Ignored(h: Id)                         // async_io: running_ seen false
    | Inside(i: nat, step: B.Event)          // an instance on its own
    | Registers(h: Id, c: Ctx)               // the registration succeeds, async_io is done
    | Refuses(h: Id, c: Ctx, err: nat)       // it fails, the callback runs in async_io
    | Handles(i: nat, h: Id, res: int)       // a loop takes the event of frame h, with this answer
    | Frees(i: nat, frame: Option<Id>)       // a loop frees a context after stop(), whose frame may still wait
    | Stops
    | Joins

  /** Four new instances, each of either backend. */
  ghost predicate Initial(j: System) {
    && j == System(EMPTY_WORLD, j.inst, map[], map[], 0) && |j.inst| == B.NUM_INSTANCES
    && forall i :: 0 <= i < B.NUM_INSTANCES ==> B.New(j.inst[i])
  }

  /** The instance of a frame's operation. */
  function ShardOfReq(q: Req): nat {
    B.ShardOf(q.op.fd)
  }

  ghost predicate IsPlain(e: Frames.Event) {
    !e.Submit? && !e.Refuse? && !e.Harvest? && !e.Discard? && !e.Stop? && !e.Join?
  }

  ghost predicate Can(j: System, e: Event) {
    |j.inst| == B.NUM_INSTANCES && (forall i :: 0 <= i < B.NUM_INSTANCES ==> B.Loaded(j.inst[i])) &&
    match e
    case Plain(f) => IsPlain(f) && Legal(j.w, f)
    case Enters(h, c) =>
      h in j.w.submitting && h !in j.begun && j.w.running
      && B.Enabled(j.inst[B.ShardOf(j.w.submitting[h].fd)], B.Enter(Req(j.nextTag, j.w.submitting[h]), c))
    case Ignored(h) => h in j.w.submitting && h !in j.begun && !j.w.running
    case Inside(i, f) =>
      i < B.NUM_INSTANCES && B.Inside(f) && B.Enabled(j.inst[i], f) && (j.w.joined ==> !B.ByLoop(f))
    case Registers(h, c) =>
      h in j.begun && h in j.w.submitting && var s := j.inst[ShardOfReq(j.begun[h])];
      B.Enabled(s, B.Register(c)) && B.PoolOf(s).entering[c].req == j.begun[h]
    case Refuses(h, c, err) =>
      h in j.begun && h in j.w.submitting && var s := j.inst[ShardOfReq(j.begun[h])];
      B.Enabled(s, B.Fail(c, err)) && B.PoolOf(s).entering[c].req == j.begun[h]
    case Handles(i, h, res) =>
      i < B.NUM_INSTANCES && j.w.running && B.Enabled(j.inst[i], B.Serve(res))
      && h in j.flying && h in j.w.inflight && j.flying[h] == B.NextReq(j.inst[i])
    case Frees(i, h) =>
      i < B.NUM_INSTANCES && !j.w.running && !j.w.joined && B.Enabled(j.inst[i], B.Serve(0))
      && (if h.Some? then h.value in j.flying && h.value in j.w.inflight && j.flying[h.value] == B.NextReq(j.inst[i])
          else B.NextReq(j.inst[i]) !in j.flying.Values)
    case Stops => true
    case Joins => Enabled(j.w, Join)
  }

  /** The frames that the runtime still counts as in flight. */
  ghost function StillFlying(flying: map<Id, Req>, w: World): map<Id, Req> {
    map h | h in flying && h in w.inflight :: flying[h]
  }

  ghost function After(code: Code, j: System, e: Event): System
    requires Can(j, e)
  {
    match e
    case Plain(f) => var w' := Next(code, j.w, f); j.(w := w', flying := StillFlying(j.flying, w'))
    case Enters(h, c) =>
      var q, i := Req(j.nextTag, j.w.submitting[h]), B.ShardOf(j.w.submitting[h].fd);
      j.(inst := j.inst[i := B.Next(j.inst[i], B.Enter(q, c))], begun := j.begun[h := q], nextTag := j.nextTag + 1)
    case Ignored(h) => j.(w := Next(code, j.w, Submit(h)))
    case Inside(i, f) => j.(inst := j.inst[i := B.Next(j.inst[i], f)])
    case Registers(h, c) =>
      var i := ShardOfReq(j.begun[h]);
      j.(w := Next(code, j.w, Submit(h)), inst := j.inst[i := B.Next(j.inst[i], B.Register(c))], begun := j.begun - {h},
         flying := if j.w.running then j.flying[h := j.begun[h]] else j.flying)
    case Refuses(h, c, err) =>
      var i := ShardOfReq(j.begun[h]);
      j.(w := Next(code, j.w, Refuse(h, err)), inst := j.inst[i := B.Next(j.inst[i], B.Fail(c, err))],
         begun := j.begun - {h})
    case Handles(i, h, res) =>
      j.(w := Next(code, j.w, Harvest(h, res)), inst := j.inst[i := B.Next(j.inst[i], B.Serve(res))],
         flying := j.flying - {h})
    case Frees(i, h) =>
      j.(w := if h.Some? then Next(code, j.w, Discard(h.value)) else j.w,
         inst := j.inst[i := B.Next(j.inst[i], B.Serve(0))],
         flying := if h.Some? then j.flying - {h.value} else j.flying)
    case Stops =>
      j.(w := Next(code, j.w, Stop),
         inst := seq(|j.inst|, i requires 0 <= i < |j.inst| => B.Next(j.inst[i], B.Stop)))
    case Joins => j.(w := Next(code, j.w, Join), flying := map[])
  }

  // ---- What a step of the runtime does to its operations ----

  /** Frames inside async_io stay there, and only running ones join them; operations in flight stay, but
      after stop() some may be dropped; no callback is decided on. */
  ghost predicate OperationsStay(w: World, w': World) {
    && w'.running == w.running
    && (forall h :: h in w.submitting ==> h in w'.submitting && w'.submitting[h] == w.submitting[h])
    && (forall h :: h in w'.inflight ==> h in w.inflight && w'.inflight[h] == w.inflight[h])
    && (w.running ==> w'.inflight == w.inflight)
    && (forall h :: h in w'.submitting ==> h in w.submitting || (h in w.frames && w.frames[h].status.Running?))
    && (forall h :: h in w'.calling ==> h in w.calling)
  }

  lemma RunningFacts(code: Code, w: World, h: Id)
    requires Inv(code, w) && h in w.frames && w.frames[h].status.Running?
    ensures h !in w.submitting && w.frames[h].root in w.history && forall r :: r in w.history ==> r < w.next
  {
    var chains: ChainMap :| Kept(code, w, chains);
    Simulation.ActiveFrame(w.frames, chains, h);
  }

  lemma ExecStay(code: Code, w: World, h: Id)
    requires h in w.frames && w.frames[h].status.Running? && h !in w.submitting
    requires w.frames[h].root in w.history && forall r :: r in w.history ==> r < w.next
    ensures OperationsStay(w, ExecFrame(code, w, h))
  {
    ExecEffects(code, w, h);
  }

  lemma CallingFacts(code: Code, w: World, h: Id)
    requires Inv(code, w) && h in w.calling
    ensures h in w.frames && w.frames[h].status.InIo? && w.frames[h].root in w.history
    ensures h !in w.submitting && h !in w.inflight
  {
    var chains: ChainMap :| Kept(code, w, chains);
    Simulation.ActiveFrame(w.frames, chains, h);
  }

  lemma DeliverStay(w: World, h: Id, res: int, t: Runner)
    requires h in w.frames && w.frames[h].status.InIo? && w.frames[h].root in w.history
    ensures var w' := Deliver(UseUp(w, h), h, res, t);
            && w'.running == w.running && w'.submitting == w.submitting - {h} && w'.inflight == w.inflight - {h}
            && w'.calling == w.calling - {h}
  {
    RootSteps.Delivered(UseUp(w, h), h, res, t);
  }

  lemma CallbackStay(w: World, h: Id)
    requires h in w.calling && h in w.frames && w.frames[h].status.InIo? && w.frames[h].root in w.history
    requires h !in w.submitting && h !in w.inflight
    ensures OperationsStay(w, Deliver(UseUp(w, h), h, w.calling[h], LoopThread))
  {
    DeliverStay(w, h, w.calling[h], LoopThread);
  }

  lemma DestroyStay(w: World, h: Id)
    requires h in w.frames && w.frames[h].status.Done?
    ensures OperationsStay(w, DestroyRoot(w, h))
  {
    var gone := ApplyWreck(w, Destroy(w.frames, h));
    TransferEffects(gone.(runner := gone.runner - {h}), w.frames[h].continuation, w.frames[h].status.outcome);
  }

  lemma TakenFacts(code: Code, w: World, r: Id)
    requires Inv(code, w) && r in w.taken
    ensures r in w.frames && w.frames[r].status.Fresh?
  {
    var chains: ChainMap :| Kept(code, w, chains);
    RootSteps.RootsLive(w.frames, chains, r);
  }

  lemma StartStay(w: World, r: Id)
    requires r in w.frames && w.frames[r].status.Fresh?
    ensures OperationsStay(w, StartRoot(w, r))
  {
  }

  lemma UnregisterStay(w: World, h: Id)
    requires h in w.frames && w.frames[h].status.Done?
    ensures OperationsStay(w, UnregisterRoot(w, h))
  {
  }

  lemma QuietStay(code: Code, w: World, e: Frames.Event)
    requires Enabled(w, e) && IsQuiet(e)
    ensures OperationsStay(w, Next(code, w, e))
  {
    match e
    case Spawn(kind, p) => assert Next(code, w, e) == NewRoot(w, kind, User(p));
    case Register(_) => case Enqueue(_) => case Take =>
  }

  lemma ShutDownStay(w: World)
    requires !w.running
    ensures OperationsStay(w, ShutDown(w))
  {
  }

  ghost predicate IsQuiet(e: Frames.Event) {
    e.Spawn? || e.Register? || e.Enqueue? || e.Take?
  }

  lemma PlainStay(code: Code, w: World, e: Frames.Event)
    requires Inv(code, w) && Legal(w, e) && IsPlain(e)
    ensures OperationsStay(w, Next(code, w, e))
  {
    if IsQuiet(e) { QuietStay(code, w, e); } else { LoudStay(code, w, e); }
  }

  lemma LoudStay(code: Code, w: World, e: Frames.Event)
    requires Inv(code, w) && Legal(w, e) && IsPlain(e) && !IsQuiet(e)
    ensures OperationsStay(w, Next(code, w, e))
  {
    match e {
      case Exec(h) => RunningFacts(code, w, h); ExecStay(code, w, h);
      case Callback(h) => CallingFacts(code, w, h); CallbackStay(w, h);
      case DestroySelf(h) => DestroyStay(w, h);
      case DestroyAll => ShutDownStay(w);
      case Start(r) => TakenFacts(code, w, r); StartStay(w, r);
      case Unregister(h) => UnregisterStay(w, h);
    }
  }

  // ---- The invariant of the joint system ----

  /** Different frames have different requests. */
  ghost predicate Apart(m: map<Id, Req>) {
    forall h, k :: h in m && k in m && m[h].id == m[k].id ==> h == k
  }

  ghost predicate Below(m: map<Id, Req>, n: nat) {
    forall h :: h in m ==> m[h].id < n
  }

  ghost predicate Tagged(begun: map<Id, Req>, flying: map<Id, Req>, n: nat) {
    && Apart(begun) && Apart(flying) && Below(begun, n) && Below(flying, n)
    && (forall h, k :: h in begun && k in flying ==> begun[h].id != flying[k].id)
  }

  /** The requests are those of the runtime's own operations. */
  ghost predicate Booked(w: World, begun: map<Id, Req>, flying: map<Id, Req>) {
    && (forall h :: h in begun ==> h in w.submitting && begun[h].op == w.submitting[h])
    && (forall h :: h in flying ==> h in w.inflight && flying[h].op == w.inflight[h])
    && (forall h :: h in w.inflight ==> h in flying)
  }

  /** An instance holds exactly the requests of its descriptors: those of the threads inside async_io
      and, while the backend runs, those in flight, and no other. */
  ghost predicate Linked(s: B.Instance, i: nat, begun: map<Id, Req>, flying: map<Id, Req>, running: bool)
    requires B.Loaded(s)
  {
    && (forall q :: q in B.Entering(s) <==> q in begun.Values && ShardOfReq(q) == i)
    && (forall q :: q in flying.Values && ShardOfReq(q) == i ==> q in B.Pending(s) && q !in B.Entering(s))
    && (forall q :: q in B.Pending(s) ==> ShardOfReq(q) == i)
    && (running ==> forall q :: q in B.Pending(s) && q !in B.Entering(s) ==> q in flying.Values)
  }

  ghost predicate InstanceOk(s: B.Instance, i: nat, begun: map<Id, Req>, flying: map<Id, Req>, running: bool, n: nat) {
    && B.Sound(s) && B.Running(s) == running && (forall id :: id in B.Ids(s) ==> id < n)
    && Linked(s, i, begun, flying, running)
  }

  ghost predicate InstancesOk(j: System) {
    |j.inst| == B.NUM_INSTANCES &&
    forall i :: 0 <= i < B.NUM_INSTANCES ==> InstanceOk(j.inst[i], i, j.begun, j.flying, j.w.running, j.nextTag)
  }

  ghost predicate BackendOk(j: System) {
    && Booked(j.w, j.begun, j.flying) && Tagged(j.begun, j.flying, j.nextTag)
    && InstancesOk(j)
  }

  lemma Without(m: map<Id, Req>, h: Id)
    requires Apart(m) && h in m
    ensures (m - {h}).Values == m.Values - {m[h]} && Apart(m - {h})
  {
    forall q | q in m.Values && q != m[h] ensures q in (m - {h}).Values {
      var k :| k in m && m[k] == q;
      assert k in m - {h} && (m - {h})[k] == q;
    }
    forall q | q in (m - {h}).Values ensures q in m.Values && q != m[h] {
      var k :| k in m - {h} && (m - {h})[k] == q;
      assert m[k] == q;
    }
  }

  lemma With(m: map<Id, Req>, h: Id, q: Req)
    requires h !in m
    ensures m[h := q].Values == m.Values + {q}
  {
    var m' := m[h := q];
    assert m'[h] == q;
    forall p | p in m.Values ensures p in m'.Values {
      var k :| k in m && m[k] == p;
      assert m'[k] == p;
    }
  }

  // ---- Each step keeps it ----

  /** A step of the runtime on its own. */
  lemma PlainKeeps(code: Code, j: System, f: Frames.Event)
    requires BackendOk(j) && Can(j, Plain(f)) && OperationsStay(j.w, Next(code, j.w, f))
    ensures BackendOk(After(code, j, Plain(f)))
  {
    FewerFly(j, Next(code, j.w, f));
  }

  /** Some frames fly no more; while the backend runs, none. */
  lemma FewerFly(j: System, w': World)
    requires OperationsStay(j.w, w') && InstancesOk(j)
    requires Booked(j.w, j.begun, j.flying) && Tagged(j.begun, j.flying, j.nextTag)
    ensures var flying' := StillFlying(j.flying, w');
            && Booked(w', j.begun, flying') && Tagged(j.begun, flying', j.nextTag)
            && InstancesOk(j.(w := w', flying := flying'))
  {
    var flying' := StillFlying(j.flying, w');
    if j.w.running { assert flying' == j.flying; }
    forall i | 0 <= i < B.NUM_INSTANCES ensures InstanceOk(j.inst[i], i, j.begun, flying', w'.running, j.nextTag) {
      FewerLinked(j.inst[i], i, j.begun, j.flying, flying', j.w.running);
    }
  }

  lemma FewerLinked(s: B.Instance, i: nat, begun: map<Id, Req>, flying: map<Id, Req>, flying': map<Id, Req>,
                    running: bool)
    requires B.Loaded(s) && Linked(s, i, begun, flying, running)
    requires forall h :: h in flying' ==> h in flying && flying'[h] == flying[h]
    requires running ==> flying' == flying
    ensures Linked(s, i, begun, flying', running)
  {
    forall q | q in flying'.Values ensures q in flying.Values {
      var h :| h in flying' && flying'[h] == q;
      assert flying[h] == q;
    }
  }

  /** One instance moves, and the books with it. */
  lemma OneMoves(j: System, i: nat, s: B.Instance, w': World, begun: map<Id, Req>, flying: map<Id, Req>, n: nat)
    requires InstancesOk(j) && i < B.NUM_INSTANCES && w'.running == j.w.running && j.nextTag <= n
    requires InstanceOk(s, i, begun, flying, w'.running, n)
    requires forall q :: ShardOfReq(q) != i ==> (q in begun.Values <==> q in j.begun.Values)
    requires forall q :: ShardOfReq(q) != i ==> (q in flying.Values <==> q in j.flying.Values)
    ensures InstancesOk(System(w', j.inst[i := s], begun, flying, n))
  {
    forall k | 0 <= k < B.NUM_INSTANCES && k != i ensures InstanceOk(j.inst[k], k, begun, flying, w'.running, n) {
      assert InstanceOk(j.inst[k], k, j.begun, j.flying, j.w.running, j.nextTag);
      B.EnteringPending(j.inst[k]);
    }
  }

  lemma InsideKeeps(code: Code, j: System, i: nat, f: B.Event)
    requires BackendOk(j) && Can(j, Inside(i, f))
    ensures BackendOk(After(code, j, Inside(i, f)))
  {
    B.InsideStep(j.inst[i], f);
    OneMoves(j, i, B.Next(j.inst[i], f), j.w, j.begun, j.flying, j.nextTag);
  }

  ghost predicate Waiting(j: System, q: Req) {
    q in j.begun.Values || q in j.flying.Values
  }

  lemma LoadedHere(j: System, k: nat)
    requires BackendOk(j) && k < B.NUM_INSTANCES
    ensures B.Loaded(j.inst[k])
  {
    assert InstanceOk(j.inst[k], k, j.begun, j.flying, j.w.running, j.nextTag);
  }

  lemma PendingHere(s: B.Instance, k: nat, begun: map<Id, Req>, flying: map<Id, Req>, n: nat, q: Req)
    requires InstanceOk(s, k, begun, flying, true, n)
    ensures q in B.Pending(s) <==> ShardOfReq(q) == k && (q in begun.Values || q in flying.Values)
  {
    B.EnteringPending(s);
  }

  /** What epoll asks of the program: a coroutine that enters async_io is the only one on its descriptor. */
  ghost predicate Polite(j: System, e: Event)
    requires Can(j, e)
  {
    e.Enters? && j.inst[B.ShardOf(j.w.submitting[e.h].fd)].Epolling? ==> Owned(j.w)
  }

  /** While no two roots use a descriptor at a time, a coroutine that submits finds no other request on
      it, neither registered nor on its way into the instance. */
  lemma Discipline(code: Code, j: System, h: Id)
    requires Inv(code, j.w) && BackendOk(j) && Owned(j.w) && h in j.w.submitting && h !in j.begun && j.w.running
    ensures var s, fd := j.inst[B.ShardOf(j.w.submitting[h].fd)], j.w.submitting[h].fd;
            B.Loaded(s) && forall q :: q in B.Pending(s) ==> q.op.fd != fd
  {
    var fd := j.w.submitting[h].fd;
    LoadedHere(j, B.ShardOf(fd));
    forall q | q in B.Pending(j.inst[B.ShardOf(fd)]) ensures q.op.fd != fd {
      PendingHere(j.inst[B.ShardOf(fd)], B.ShardOf(fd), j.begun, j.flying, j.nextTag, q);
      OtherDescriptor(code, j, h, q);
    }
  }

  /** So the backend gets what it asks for. */
  lemma EntersDisciplined(code: Code, j: System, h: Id, c: Ctx)
    requires Inv(code, j.w) && BackendOk(j) && Can(j, Enters(h, c)) && Polite(j, Enters(h, c))
    ensures var op := j.w.submitting[h]; B.Disciplined(j.inst[B.ShardOf(op.fd)], B.Enter(Req(j.nextTag, op), c))
  {
    if j.inst[B.ShardOf(j.w.submitting[h].fd)].Epolling? { Discipline(code, j, h); }
  }

  lemma OtherDescriptor(code: Code, j: System, h: Id, q: Req)
    requires Inv(code, j.w) && Booked(j.w, j.begun, j.flying) && Owned(j.w)
    requires h in j.w.submitting && h !in j.begun
    requires Waiting(j, q)
    ensures q.op.fd != j.w.submitting[h].fd
  {
    var k: Id :| (k in j.begun && j.begun[k] == q) || (k in j.flying && j.flying[k] == q);
    WaitingFacts(code, j.w, h);
    WaitingFacts(code, j.w, k);
    if q.op.fd == j.w.submitting[h].fd { assert SameFd(j.w, h, k); OneOperationPerFd(code, j.w); }
  }

  lemma WaitingFacts(code: Code, w: World, h: Id)
    requires Inv(code, w) && (h in w.submitting || h in w.inflight)
    ensures h in w.frames && w.frames[h].status.InIo? && !(h in w.submitting && h in w.inflight)
    ensures h in w.submitting ==> w.frames[h].status.op == w.submitting[h]
    ensures h in w.inflight ==> w.frames[h].status.op == w.inflight[h]
  {
    var chains: ChainMap :| Kept(code, w, chains);
  }

  lemma EntersLinked(s: B.Instance, s': B.Instance, i: nat, begun: map<Id, Req>, flying: map<Id, Req>, running: bool,
                     h: Id, q: Req)
    requires B.Loaded(s) && B.Loaded(s') && Linked(s, i, begun, flying, running) && h !in begun && ShardOfReq(q) == i
    requires B.Pending(s') == B.Pending(s) + {q} && B.Entering(s') == B.Entering(s) + {q}
    requires q !in flying.Values
    ensures Linked(s', i, begun[h := q], flying, running)
  {
    With(begun, h, q);
  }

  lemma NewTag(begun: map<Id, Req>, flying: map<Id, Req>, n: nat, h: Id, op: Request)
    requires Tagged(begun, flying, n) && h !in begun
    ensures Tagged(begun[h := Req(n, op)], flying, n + 1) && Req(n, op) !in flying.Values
  {
  }

  lemma EntersOk(s: B.Instance, c: Ctx, i: nat, begun: map<Id, Req>, flying: map<Id, Req>, running: bool,
                 h: Id, q: Req, n: nat)
    requires InstanceOk(s, i, begun, flying, running, n) && h !in begun && ShardOfReq(q) == i && q.id == n
    requires B.Enabled(s, B.Enter(q, c)) && B.Disciplined(s, B.Enter(q, c)) && q !in flying.Values
    ensures InstanceOk(B.Next(s, B.Enter(q, c)), i, begun[h := q], flying, running, n + 1)
  {
    B.EnterStep(s, q, c);
    EntersLinked(s, B.Next(s, B.Enter(q, c)), i, begun, flying, running, h, q);
  }

  lemma EntersInstances(j: System, h: Id, c: Ctx, q: Req, i: nat)
    requires InstancesOk(j) && h !in j.begun && q.id == j.nextTag && q !in j.flying.Values && i == ShardOfReq(q)
    requires B.Enabled(j.inst[i], B.Enter(q, c)) && B.Loaded(j.inst[i]) && B.Disciplined(j.inst[i], B.Enter(q, c))
    ensures InstancesOk(System(j.w, j.inst[i := B.Next(j.inst[i], B.Enter(q, c))], j.begun[h := q], j.flying,
                               j.nextTag + 1))
  {
    assert InstanceOk(j.inst[i], i, j.begun, j.flying, j.w.running, j.nextTag);
    EntersOk(j.inst[i], c, i, j.begun, j.flying, j.w.running, h, q, j.nextTag);
    With(j.begun, h, q);
    OneMoves(j, i, B.Next(j.inst[i], B.Enter(q, c)), j.w, j.begun[h := q], j.flying, j.nextTag + 1);
  }

  lemma EntersKeeps(code: Code, j: System, h: Id, c: Ctx)
    requires BackendOk(j) && Can(j, Enters(h, c))
    requires var op := j.w.submitting[h]; B.Disciplined(j.inst[B.ShardOf(op.fd)], B.Enter(Req(j.nextTag, op), c))
    ensures BackendOk(After(code, j, Enters(h, c)))
  {
    var op := j.w.submitting[h];
    NewTag(j.begun, j.flying, j.nextTag, h, op);
    EntersInstances(j, h, c, Req(j.nextTag, op), B.ShardOf(op.fd));
  }

  /** The runtime's Submit: inside async_io no more, and in flight if the backend runs. */
  lemma SubmitEffects(w: World, h: Id)
    requires h in w.submitting && h in w.frames
    ensures SubmitOp(w, h).running == w.running && SubmitOp(w, h).submitting == w.submitting - {h}
    ensures SubmitOp(w, h).inflight == if w.running then w.inflight[h := w.submitting[h]] else w.inflight
  {
  }

  /** async_io after stop(): the runtime drops the operation. */
  lemma IgnoredKeeps(code: Code, j: System, h: Id)
    requires BackendOk(j) && Can(j, Ignored(h)) && h in j.w.frames
    ensures BackendOk(After(code, j, Ignored(h)))
  {
    IgnoredAfter(code, j, h);
    IgnoredBackend(j, h);
  }

  lemma IgnoredAfter(code: Code, j: System, h: Id)
    requires Can(j, Ignored(h))
    ensures After(code, j, Ignored(h)) == j.(w := SubmitOp(j.w, h))
    ensures !j.w.running && h in j.w.submitting && h !in j.begun
  {
  }

  lemma IgnoredBackend(j: System, h: Id)
    requires BackendOk(j) && !j.w.running && h in j.w.submitting && h !in j.begun && h in j.w.frames
    ensures BackendOk(j.(w := SubmitOp(j.w, h)))
  {
    SubmitEffects(j.w, h);
    SameInstances(j, SubmitOp(j.w, h));
  }

  lemma SameInstances(j: System, w': World)
    requires InstancesOk(j) && w'.running == j.w.running
    ensures InstancesOk(j.(w := w'))
  {
    forall i | 0 <= i < B.NUM_INSTANCES ensures InstanceOk(j.inst[i], i, j.begun, j.flying, w'.running, j.nextTag) {
      assert InstanceOk(j.inst[i], i, j.begun, j.flying, j.w.running, j.nextTag);
    }
  }

  lemma SubmitBooks(w: World, w': World, begun: map<Id, Req>, flying: map<Id, Req>, n: nat, h: Id)
    requires Booked(w, begun, flying) && Tagged(begun, flying, n) && h in begun && h in w.submitting && h !in w.inflight
    requires w'.submitting == w.submitting - {h}
    requires w'.inflight == if w.running then w.inflight[h := w.submitting[h]] else w.inflight
    ensures var flying' := if w.running then flying[h := begun[h]] else flying;
            h !in flying && Booked(w', begun - {h}, flying') && Tagged(begun - {h}, flying', n)
  {
  }

  lemma RegistersLinked(s: B.Instance, s': B.Instance, i: nat, begun: map<Id, Req>, flying: map<Id, Req>, running: bool,
                   h: Id)
    requires B.Loaded(s) && B.Loaded(s') && Linked(s, i, begun, flying, running)
    requires h in begun && h !in flying && Apart(begun) && ShardOfReq(begun[h]) == i
    requires B.Pending(s') == B.Pending(s) && B.Entering(s') == B.Entering(s) - {begun[h]} && begun[h] in B.Pending(s)
    ensures Linked(s', i, begun - {h}, if running then flying[h := begun[h]] else flying, running)
  {
    Without(begun, h);
    With(flying, h, begun[h]);
  }

  lemma RegistersInstances(j: System, h: Id, c: Ctx, i: nat, w': World)
    requires InstancesOk(j) && Tagged(j.begun, j.flying, j.nextTag) && w'.running == j.w.running
    requires h in j.begun && h !in j.flying && i == ShardOfReq(j.begun[h])
    requires B.Enabled(j.inst[i], B.Register(c)) && B.PoolOf(j.inst[i]).entering[c].req == j.begun[h]
    ensures var flying' := if j.w.running then j.flying[h := j.begun[h]] else j.flying;
            InstancesOk(System(w', j.inst[i := B.Next(j.inst[i], B.Register(c))], j.begun - {h}, flying', j.nextTag))
  {
    var s, flying' := j.inst[i], if j.w.running then j.flying[h := j.begun[h]] else j.flying;
    assert InstanceOk(s, i, j.begun, j.flying, j.w.running, j.nextTag);
    B.LeaveStep(s, B.Register(c), c);
    RegistersLinked(s, B.Next(s, B.Register(c)), i, j.begun, j.flying, j.w.running, h);
    Without(j.begun, h);
    With(j.flying, h, j.begun[h]);
    OneMoves(j, i, B.Next(s, B.Register(c)), w', j.begun - {h}, flying', j.nextTag);
  }

  lemma RegistersBackend(j: System, h: Id, c: Ctx, i: nat, w': World)
    requires BackendOk(j) && h in j.begun && h in j.w.submitting && h !in j.w.inflight && i == ShardOfReq(j.begun[h])
    requires B.Enabled(j.inst[i], B.Register(c)) && B.PoolOf(j.inst[i]).entering[c].req == j.begun[h]
    requires w'.running == j.w.running && w'.submitting == j.w.submitting - {h}
    requires w'.inflight == if j.w.running then j.w.inflight[h := j.w.submitting[h]] else j.w.inflight
    ensures var flying' := if j.w.running then j.flying[h := j.begun[h]] else j.flying;
            BackendOk(System(w', j.inst[i := B.Next(j.inst[i], B.Register(c))], j.begun - {h}, flying', j.nextTag))
  {
    SubmitBooks(j.w, w', j.begun, j.flying, j.nextTag, h);
    RegistersInstances(j, h, c, i, w');
  }

  lemma RegistersAfter(code: Code, j: System, h: Id, c: Ctx)
    requires Can(j, Registers(h, c))
    ensures h in j.begun && h in j.w.submitting && |j.inst| == B.NUM_INSTANCES
    ensures var i := ShardOfReq(j.begun[h]);
            && B.Enabled(j.inst[i], B.Register(c)) && B.PoolOf(j.inst[i]).entering[c].req == j.begun[h]
            && After(code, j, Registers(h, c))
               == System(SubmitOp(j.w, h), j.inst[i := B.Next(j.inst[i], B.Register(c))], j.begun - {h},
                         if j.w.running then j.flying[h := j.begun[h]] else j.flying, j.nextTag)
  {
  }

  lemma RegistersKeeps(code: Code, j: System, h: Id, c: Ctx)
    requires BackendOk(j) && Can(j, Registers(h, c)) && h in j.w.frames && h !in j.w.inflight
    ensures BackendOk(After(code, j, Registers(h, c)))
  {
    RegistersAfter(code, j, h, c);
    SubmitEffects(j.w, h);
    RegistersBackend(j, h, c, ShardOfReq(j.begun[h]), SubmitOp(j.w, h));
  }

  /** The runtime's Refuse: inside async_io no more. */
  ghost predicate Refused(w: World, w': World, h: Id) {
    w'.running == w.running && w'.submitting == w.submitting - {h} && w'.inflight == w.inflight
  }

  lemma RefusingThread(code: Code, w: World, h: Id, err: nat) returns (t: Runner)
    requires Inv(code, w) && h in w.submitting
    ensures h in w.frames && w.frames[h].status.InIo? && w.frames[h].root in w.history && h !in w.inflight
    ensures RefuseOp(w, h, err) == Deliver(UseUp(w, h), h, Negative(err), t)
  {
    var chains: ChainMap :| Kept(code, w, chains);
    Simulation.ActiveFrame(w.frames, chains, h);
    t := RefusalIs(w, chains, h, err);
  }

  lemma RefuseEffects(w: World, h: Id, err: nat, t: Runner)
    requires h in w.frames && w.frames[h].status.InIo? && w.frames[h].root in w.history && h !in w.inflight
    requires RefuseOp(w, h, err) == Deliver(UseUp(w, h), h, Negative(err), t)
    ensures Refused(w, RefuseOp(w, h, err), h)
  {
    DeliverStay(w, h, Negative(err), t);
  }

  lemma RefuseBooks(w: World, w': World, begun: map<Id, Req>, flying: map<Id, Req>, n: nat, h: Id)
    requires Booked(w, begun, flying) && Tagged(begun, flying, n) && Refused(w, w', h)
    ensures Booked(w', begun - {h}, flying) && Tagged(begun - {h}, flying, n)
  {
  }

  lemma RefusesLinked(s: B.Instance, s': B.Instance, i: nat, begun: map<Id, Req>, flying: map<Id, Req>, running: bool,
                      h: Id)
    requires B.Loaded(s) && B.Loaded(s') && Linked(s, i, begun, flying, running)
    requires h in begun && Apart(begun) && begun[h] !in flying.Values && ShardOfReq(begun[h]) == i
    requires B.Pending(s') == B.Pending(s) - {begun[h]} && B.Entering(s') == B.Entering(s) - {begun[h]}
    ensures Linked(s', i, begun - {h}, flying, running)
  {
    Without(begun, h);
  }

  lemma RefusesOk(s: B.Instance, c: Ctx, err: nat, i: nat, begun: map<Id, Req>, flying: map<Id, Req>, running: bool,
                  h: Id, n: nat)
    requires InstanceOk(s, i, begun, flying, running, n) && B.Enabled(s, B.Fail(c, err))
    requires h in begun && Apart(begun) && begun[h] !in flying.Values && ShardOfReq(begun[h]) == i
    requires c in B.PoolOf(s).entering && B.PoolOf(s).entering[c].req == begun[h]
    ensures InstanceOk(B.Next(s, B.Fail(c, err)), i, begun - {h}, flying, running, n)
  {
    B.LeaveStep(s, B.Fail(c, err), c);
    RefusesLinked(s, B.Next(s, B.Fail(c, err)), i, begun, flying, running, h);
  }

  lemma NotFlying(begun: map<Id, Req>, flying: map<Id, Req>, n: nat, h: Id)
    requires Tagged(begun, flying, n) && h in begun
    ensures begun[h] !in flying.Values
  {
  }

  lemma RefusesInstances(j: System, h: Id, c: Ctx, err: nat, i: nat, w': World)
    requires InstancesOk(j) && Tagged(j.begun, j.flying, j.nextTag) && w'.running == j.w.running
    requires h in j.begun && i == ShardOfReq(j.begun[h]) && B.Enabled(j.inst[i], B.Fail(c, err))
    requires c in B.PoolOf(j.inst[i]).entering && B.PoolOf(j.inst[i]).entering[c].req == j.begun[h]
    ensures InstancesOk(System(w', j.inst[i := B.Next(j.inst[i], B.Fail(c, err))], j.begun - {h}, j.flying,
                               j.nextTag))
  {
    NotFlying(j.begun, j.flying, j.nextTag, h);
    assert InstanceOk(j.inst[i], i, j.begun, j.flying, j.w.running, j.nextTag);
    RefusesOk(j.inst[i], c, err, i, j.begun, j.flying, j.w.running, h, j.nextTag);
    Without(j.begun, h);
    OneMoves(j, i, B.Next(j.inst[i], B.Fail(c, err)), w', j.begun - {h}, j.flying, j.nextTag);
  }

  lemma RefusesBackend(j: System, h: Id, c: Ctx, err: nat, i: nat, w': World)
    requires BackendOk(j) && h in j.begun && i == ShardOfReq(j.begun[h]) && Refused(j.w, w', h)
    requires B.Enabled(j.inst[i], B.Fail(c, err))
    requires c in B.PoolOf(j.inst[i]).entering && B.PoolOf(j.inst[i]).entering[c].req == j.begun[h]
    ensures BackendOk(System(w', j.inst[i := B.Next(j.inst[i], B.Fail(c, err))], j.begun - {h}, j.flying,
                             j.nextTag))
  {
    RefuseBooks(j.w, w', j.begun, j.flying, j.nextTag, h);
    RefusesInstances(j, h, c, err, i, w');
  }

  lemma RefusesAfter(code: Code, j: System, h: Id, c: Ctx, err: nat)
    requires Can(j, Refuses(h, c, err))
    ensures h in j.begun && h in j.w.submitting && |j.inst| == B.NUM_INSTANCES
    ensures var i := ShardOfReq(j.begun[h]);
            && B.Enabled(j.inst[i], B.Fail(c, err))
            && c in B.PoolOf(j.inst[i]).entering && B.PoolOf(j.inst[i]).entering[c].req == j.begun[h]
            && After(code, j, Refuses(h, c, err))
               == System(RefuseOp(j.w, h, err), j.inst[i := B.Next(j.inst[i], B.Fail(c, err))], j.begun - {h},
                         j.flying, j.nextTag)
  {
  }

  lemma RefusesKeeps(code: Code, j: System, h: Id, c: Ctx, err: nat)
    requires BackendOk(j) && Can(j, Refuses(h, c, err)) && Refused(j.w, RefuseOp(j.w, h, err), h)
    ensures BackendOk(After(code, j, Refuses(h, c, err)))
  {
    RefusesAfter(code, j, h, c, err);
    RefusesBackend(j, h, c, err, ShardOfReq(j.begun[h]), RefuseOp(j.w, h, err));
  }

  /** A loop has done with the request `q`: its frame, if it still waits, flies no more. */
  lemma LandsLinked(s: B.Instance, s': B.Instance, i: nat, begun: map<Id, Req>, flying: map<Id, Req>,
                    flying': map<Id, Req>, running: bool, q: Req)
    requires B.Loaded(s) && B.Loaded(s') && Linked(s, i, begun, flying, running)
    requires flying'.Values == flying.Values - {q} && q !in B.Entering(s)
    requires B.Pending(s') == B.Pending(s) - {q} && B.Entering(s') == B.Entering(s)
    ensures Linked(s', i, begun, flying', running)
  {
  }

  lemma LandsOk(s: B.Instance, i: nat, res: int, begun: map<Id, Req>, flying: map<Id, Req>, flying': map<Id, Req>,
                running: bool, n: nat)
    requires InstanceOk(s, i, begun, flying, running, n) && B.Enabled(s, B.Serve(res)) && B.HasNext(s)
    requires flying'.Values == flying.Values - {B.NextReq(s)}
    ensures InstanceOk(B.Next(s, B.Serve(res)), i, begun, flying', running, n) && ShardOfReq(B.NextReq(s)) == i
  {
    B.ServeStep(s, res);
    LandsLinked(s, B.Next(s, B.Serve(res)), i, begun, flying, flying', running, B.NextReq(s));
  }

  lemma LandsInstances(j: System, i: nat, res: int, w': World, flying': map<Id, Req>)
    requires InstancesOk(j) && i < B.NUM_INSTANCES && w'.running == j.w.running
    requires B.Enabled(j.inst[i], B.Serve(res)) && B.HasNext(j.inst[i]) && B.Loaded(j.inst[i])
    requires flying'.Values == j.flying.Values - {B.NextReq(j.inst[i])}
    ensures InstancesOk(System(w', j.inst[i := B.Next(j.inst[i], B.Serve(res))], j.begun, flying', j.nextTag))
  {
    assert InstanceOk(j.inst[i], i, j.begun, j.flying, j.w.running, j.nextTag);
    LandsOk(j.inst[i], i, res, j.begun, j.flying, flying', j.w.running, j.nextTag);
    OneMoves(j, i, B.Next(j.inst[i], B.Serve(res)), w', j.begun, flying', j.nextTag);
  }

  /** A frame flies no more, its request is the next one of the instance. */
  ghost predicate Landing(j: System, i: nat, h: Id)
    requires |j.inst| == B.NUM_INSTANCES
  {
    && i < B.NUM_INSTANCES && B.Loaded(j.inst[i]) && B.HasNext(j.inst[i])
    && h in j.flying && h in j.w.inflight && j.flying[h] == B.NextReq(j.inst[i])
  }

  lemma LandsBackend(j: System, i: nat, h: Id, res: int, w': World)
    requires BackendOk(j) && Landing(j, i, h) && B.Enabled(j.inst[i], B.Serve(res)) && w'.running == j.w.running
    requires w'.submitting == j.w.submitting && w'.inflight == j.w.inflight - {h}
    ensures BackendOk(System(w', j.inst[i := B.Next(j.inst[i], B.Serve(res))], j.begun, j.flying - {h}, j.nextTag))
  {
    Without(j.flying, h);
    LandsInstances(j, i, res, w', j.flying - {h});
  }

  lemma HandlesAfter(code: Code, j: System, i: nat, h: Id, res: int)
    requires Can(j, Handles(i, h, res))
    ensures |j.inst| == B.NUM_INSTANCES && Landing(j, i, h) && B.Enabled(j.inst[i], B.Serve(res))
    ensures Enabled(j.w, Harvest(h, res))
    ensures After(code, j, Handles(i, h, res))
            == System(Next(code, j.w, Harvest(h, res)), j.inst[i := B.Next(j.inst[i], B.Serve(res))], j.begun,
                      j.flying - {h}, j.nextTag)
  {
  }

  lemma HandlesKeeps(code: Code, j: System, i: nat, h: Id, res: int)
    requires BackendOk(j) && Can(j, Handles(i, h, res))
    ensures BackendOk(After(code, j, Handles(i, h, res)))
  {
    HandlesAfter(code, j, i, h, res);
    LandsBackend(j, i, h, res, Next(code, j.w, Harvest(h, res)));
  }

  lemma StopsKeeps(code: Code, j: System)
    requires BackendOk(j) && Can(j, Stops)
    ensures BackendOk(After(code, j, Stops))
  {
    var w' := Next(code, j.w, Stop);
    forall i | 0 <= i < B.NUM_INSTANCES
      ensures InstanceOk(B.Next(j.inst[i], B.Stop), i, j.begun, j.flying, w'.running, j.nextTag)
    {
      assert InstanceOk(j.inst[i], i, j.begun, j.flying, j.w.running, j.nextTag);
      B.InsideStep(j.inst[i], B.Stop);
    }
  }

  lemma JoinsKeeps(code: Code, j: System)
    requires BackendOk(j) && Can(j, Joins)
    ensures BackendOk(After(code, j, Joins))
  {
    forall i | 0 <= i < B.NUM_INSTANCES ensures InstanceOk(j.inst[i], i, j.begun, map[], false, j.nextTag) {
      assert InstanceOk(j.inst[i], i, j.begun, j.flying, j.w.running, j.nextTag);
      FewerLinked(j.inst[i], i, j.begun, j.flying, map[], false);
    }
  }

  lemma FreesAfter(code: Code, j: System, i: nat, h: Option<Id>)
    requires Can(j, Frees(i, h))
    ensures |j.inst| == B.NUM_INSTANCES && i < B.NUM_INSTANCES && B.Loaded(j.inst[i]) && B.HasNext(j.inst[i])
    ensures B.Enabled(j.inst[i], B.Serve(0))
    ensures h.Some? ==> Landing(j, i, h.value) && Enabled(j.w, Discard(h.value))
    ensures h.None? ==> B.NextReq(j.inst[i]) !in j.flying.Values
    ensures After(code, j, Frees(i, h))
            == System(if h.Some? then Next(code, j.w, Discard(h.value)) else j.w,
                      j.inst[i := B.Next(j.inst[i], B.Serve(0))], j.begun,
                      if h.Some? then j.flying - {h.value} else j.flying, j.nextTag)
  {
  }

  lemma FreesKeeps(code: Code, j: System, i: nat, h: Option<Id>)
    requires BackendOk(j) && Can(j, Frees(i, h))
    ensures BackendOk(After(code, j, Frees(i, h)))
  {
    FreesAfter(code, j, i, h);
    if h.Some? {
      LandsBackend(j, i, h.value, 0, Next(code, j.w, Discard(h.value)));
    } else {
      LandsInstances(j, i, 0, j.w, j.flying);
    }
  }

  // ---- Whole runs ----

  /** The runtime's part of a step; none when an instance moves on its own. */
  ghost function WorldEvent(e: Event): Option<Frames.Event> {
    match e
    case Plain(f) => Some(f)
    case Ignored(h) => Some(Submit(h))
    case Registers(h, _) => Some(Submit(h))
    case Refuses(h, _, err) => Some(Refuse(h, err))
    case Handles(_, h, res) => Some(Harvest(h, res))
    case Frees(_, h) => if h.Some? then Some(Discard(h.value)) else None
    case Stops => Some(Stop)
    case Joins => Some(Join)
    case _ => None
  }

  lemma WorldMoves(code: Code, j: System, e: Event)
    requires Can(j, e)
    ensures WorldEvent(e).Some? ==>
              Legal(j.w, WorldEvent(e).value) && After(code, j, e).w == Next(code, j.w, WorldEvent(e).value)
    ensures WorldEvent(e).None? ==> After(code, j, e).w == j.w
  {
  }

  lemma WorldKeeps(code: Code, j: System, e: Event)
    requires Inv(code, j.w) && Can(j, e)
    ensures Inv(code, After(code, j, e).w)
  {
    WorldMoves(code, j, e);
    if WorldEvent(e).Some? { StepKeepsInv(code, j.w, WorldEvent(e).value); }
  }

  /** What the runtime's invariant says about the step. */
  ghost predicate Fits(code: Code, j: System, e: Event)
    requires Can(j, e)
  {
    match e
    case Plain(f) => OperationsStay(j.w, Next(code, j.w, f))
    case Enters(h, c) =>
      B.Disciplined(j.inst[B.ShardOf(j.w.submitting[h].fd)], B.Enter(Req(j.nextTag, j.w.submitting[h]), c))
    case Ignored(h) => h in j.w.frames
    case Registers(h, _) => h in j.w.frames && h !in j.w.inflight
    case Refuses(h, _, err) => Refused(j.w, RefuseOp(j.w, h, err), h)
    case _ => true
  }

  lemma RefusesFits(code: Code, w: World, h: Id, err: nat)
    requires Inv(code, w) && h in w.submitting
    ensures Refused(w, RefuseOp(w, h, err), h)
  {
    var t := RefusingThread(code, w, h, err);
    RefuseEffects(w, h, err, t);
  }

  lemma StepFits(code: Code, j: System, e: Event)
    requires Inv(code, j.w) && BackendOk(j) && Can(j, e) && Polite(j, e)
    ensures Fits(code, j, e)
  {
    match e
    case Plain(f) => PlainStay(code, j.w, f);
    case Enters(h, c) => EntersDisciplined(code, j, h, c);
    case Ignored(h) => WaitingFacts(code, j.w, h);
    case Registers(h, _) => WaitingFacts(code, j.w, h);
    case Refuses(h, _, err) => RefusesFits(code, j.w, h, err);
    case _ =>
  }

  lemma BackendKeeps(code: Code, j: System, e: Event)
    requires BackendOk(j) && Can(j, e) && Fits(code, j, e)
    ensures BackendOk(After(code, j, e))
  {
    match e
    case Plain(f) => PlainKeeps(code, j, f);
    case Enters(h, c) => EntersKeeps(code, j, h, c);
    case Ignored(h) => IgnoredKeeps(code, j, h);
    case Inside(i, f) => InsideKeeps(code, j, i, f);
    case Registers(h, c) => RegistersKeeps(code, j, h, c);
    case Refuses(h, c, err) => RefusesKeeps(code, j, h, c, err);
    case Handles(i, h, res) => HandlesKeeps(code, j, i, h, res);
    case Frees(i, h) => FreesKeeps(code, j, i, h);
    case Stops => StopsKeeps(code, j);
    case Joins => JoinsKeeps(code, j);
  }

  ghost predicate Proceeds(code: Code, j: System, e: Event, j': System) {
    Can(j, e) && Polite(j, e) && j' == After(code, j, e)
  }

  lemma SystemKeeps(code: Code, j: System, e: Event)
    requires Inv(code, j.w) && BackendOk(j) && Can(j, e) && Polite(j, e)
    ensures Inv(code, After(code, j, e).w) && BackendOk(After(code, j, e))
  {
    WorldKeeps(code, j, e);
    StepFits(code, j, e);
    BackendKeeps(code, j, e);
  }

  ghost predicate OneStep(code: Code, j: System, j': System) {
    exists e :: Proceeds(code, j, e, j')
  }

  /** A run of the joint system in which, under epoll, no coroutine submits on a descriptor while two
      roots use it. Under uring there is no condition. */
  ghost predicate JointRun(code: Code, js: seq<System>) {
    && js != [] && Initial(js[0])
    && (forall i :: 0 < i < |js| ==> OneStep(code, js[i - 1], js[i]))
  }

  lemma NewInstanceOk(s: B.Instance, i: nat)
    requires B.New(s)
    ensures InstanceOk(s, i, map[], map[], true, 0)
  {
    B.NewSound(s);
  }

  lemma InitiallyOk(j: System)
    requires Initial(j)
    ensures BackendOk(j)
  {
    forall i | 0 <= i < B.NUM_INSTANCES ensures InstanceOk(j.inst[i], i, map[], map[], true, 0) {
      NewInstanceOk(j.inst[i], i);
    }
  }

  lemma EmptyInv(code: Code)
    ensures Inv(code, EMPTY_WORLD)
  {
    assert Leads(code, EMPTY_WORLD, [], EMPTY_WORLD);
    ReachableInv(code, EMPTY_WORLD);
  }

  lemma {:induction false} JointInv(code: Code, js: seq<System>, i: nat)
    requires JointRun(code, js) && i < |js|
    ensures Inv(code, js[i].w) && BackendOk(js[i])
  {
    if i == 0 {
      InitiallyOk(js[0]);
      EmptyInv(code);
    } else {
      JointInv(code, js, i - 1);
      assert OneStep(code, js[i - 1], js[i]);
      var e :| Proceeds(code, js[i - 1], e, js[i]);
      SystemKeeps(code, js[i - 1], e);
    }
  }

  /** In every joint run, whatever the kernel and the scheduler do and whenever stop() comes: no
      registration is ever overwritten, every accepted operation is pending, or was called back once, or
      was freed after stop(), and the runtime never uses a bad handle. */
  lemma NothingIsLost(code: Code, js: seq<System>, i: nat, k: nat)
    requires JointRun(code, js) && i < |js| && k < B.NUM_INSTANCES
    ensures var j := js[i];
            && !j.w.fault && |j.inst| == B.NUM_INSTANCES && B.Loaded(j.inst[k])
            && ExactlyOnce(B.Abstract(j.inst[k])) && B.Partition(j.inst[k])
  {
    JointInv(code, js, i);
    var chains: ChainMap :| Kept(code, js[i].w, chains);
    assert InstanceOk(js[i].inst[k], k, js[i].begun, js[i].flying, js[i].w.running, js[i].nextTag);
  }

  /** While the backend runs, the instance of a descriptor holds exactly the operations of the
      coroutines that wait on it: those inside async_io and those in flight. */
  lemma PendingIsWaiting(code: Code, js: seq<System>, i: nat, k: nat, q: Req)
    requires JointRun(code, js) && i < |js| && k < B.NUM_INSTANCES && js[i].w.running
    ensures var j := js[i];
            && |j.inst| == B.NUM_INSTANCES && B.Loaded(j.inst[k])
            && (q in B.Pending(j.inst[k])
                <==> ShardOfReq(q) == k && Waiting(j, q))
  {
    JointInv(code, js, i);
    LoadedHere(js[i], k);
    PendingHere(js[i].inst[k], k, js[i].begun, js[i].flying, js[i].nextTag, q);
  }

  lemma AllLoaded(j: System)
    requires InstancesOk(j)
    ensures forall i :: 0 <= i < B.NUM_INSTANCES ==> B.Loaded(j.inst[i])
  {
    forall i | 0 <= i < B.NUM_INSTANCES ensures B.Loaded(j.inst[i]) {
      assert InstanceOk(j.inst[i], i, j.begun, j.flying, j.w.running, j.nextTag);
    }
  }

  lemma ClaimHasFrame(j: System, k: nat, c: Ctx)
    requires BackendOk(j) && k < B.NUM_INSTANCES && c in B.PoolOf(j.inst[k]).entering
    ensures exists h :: h in j.begun && h in j.w.submitting && ShardOfReq(j.begun[h]) == k
                        && j.begun[h] == B.PoolOf(j.inst[k]).entering[c].req
  {
    var s := j.inst[k];
    assert InstanceOk(s, k, j.begun, j.flying, j.w.running, j.nextTag);
    assert B.PoolOf(s).entering[c].req in B.Entering(s);
    var h: Id :| h in j.begun && j.begun[h] == B.PoolOf(s).entering[c].req;
  }

  lemma EventHasFrame(j: System, k: nat, res: int)
    requires BackendOk(j) && k < B.NUM_INSTANCES && B.Enabled(j.inst[k], B.Serve(res))
    ensures B.Loaded(j.inst[k])
    ensures j.w.running || B.NextReq(j.inst[k]) in j.flying.Values ==>
              exists h :: h in j.flying && h in j.w.inflight && j.flying[h] == B.NextReq(j.inst[k])
  {
    var s := j.inst[k];
    assert InstanceOk(s, k, j.begun, j.flying, j.w.running, j.nextTag);
    if j.w.running { B.ServeStep(s, res); }
    if j.w.running || B.NextReq(s) in j.flying.Values { var h: Id :| h in j.flying && j.flying[h] == B.NextReq(s); }
  }

  lemma RegistrationFound(j: System, k: nat, c: Ctx)
    requires BackendOk(j) && k < B.NUM_INSTANCES && forall i :: 0 <= i < B.NUM_INSTANCES ==> B.Loaded(j.inst[i])
    requires B.Enabled(j.inst[k], B.Register(c))
    ensures exists h :: h in j.begun && ShardOfReq(j.begun[h]) == k && Can(j, Registers(h, c))
  {
    ClaimHasFrame(j, k, c);
    var h: Id :| h in j.begun && h in j.w.submitting && ShardOfReq(j.begun[h]) == k
                 && j.begun[h] == B.PoolOf(j.inst[k]).entering[c].req;
    assert Can(j, Registers(h, c));
  }

  lemma FailureFound(j: System, k: nat, c: Ctx, err: nat)
    requires BackendOk(j) && k < B.NUM_INSTANCES && forall i :: 0 <= i < B.NUM_INSTANCES ==> B.Loaded(j.inst[i])
    requires B.Enabled(j.inst[k], B.Fail(c, err))
    ensures exists h :: h in j.begun && ShardOfReq(j.begun[h]) == k && Can(j, Refuses(h, c, err))
  {
    ClaimHasFrame(j, k, c);
    var h: Id :| h in j.begun && h in j.w.submitting && ShardOfReq(j.begun[h]) == k
                 && j.begun[h] == B.PoolOf(j.inst[k]).entering[c].req;
    assert Can(j, Refuses(h, c, err));
  }

  lemma AnswerFound(j: System, k: nat, res: int)
    requires BackendOk(j) && k < B.NUM_INSTANCES && forall i :: 0 <= i < B.NUM_INSTANCES ==> B.Loaded(j.inst[i])
    requires j.w.running && B.Enabled(j.inst[k], B.Serve(res))
    ensures exists h :: Can(j, Handles(k, h, res))
  {
    EventHasFrame(j, k, res);
    var h: Id :| h in j.flying && h in j.w.inflight && j.flying[h] == B.NextReq(j.inst[k]);
    assert Can(j, Handles(k, h, res));
  }

  lemma FreedFound(j: System, k: nat)
    requires BackendOk(j) && k < B.NUM_INSTANCES && forall i :: 0 <= i < B.NUM_INSTANCES ==> B.Loaded(j.inst[i])
    requires !j.w.running && !j.w.joined && B.Enabled(j.inst[k], B.Serve(0))
    ensures exists f :: Can(j, Frees(k, f))
  {
    EventHasFrame(j, k, 0);
    if h: Id :| h in j.flying && h in j.w.inflight && j.flying[h] == B.NextReq(j.inst[k]) {
      assert Can(j, Frees(k, Some(h)));
    } else {
      assert Can(j, Frees(k, None));
    }
  }

  /** Every event of an instance that concerns a request finds the frame that waits for it: the joint
      system restrains neither the kernel nor the loops. */
  lemma EveryRequestHasItsFrame(code: Code, js: seq<System>, i: nat, k: nat, c: Ctx, res: int, err: nat)
    requires JointRun(code, js) && i < |js| && k < B.NUM_INSTANCES
    ensures |js[i].inst| == B.NUM_INSTANCES
    ensures var j := js[i];
            && (B.Enabled(j.inst[k], B.Register(c)) ==>
                  exists h :: h in j.begun && ShardOfReq(j.begun[h]) == k && Can(j, Registers(h, c)))
            && (B.Enabled(j.inst[k], B.Fail(c, err)) ==>
                  exists h :: h in j.begun && ShardOfReq(j.begun[h]) == k && Can(j, Refuses(h, c, err)))
            && (j.w.running && B.Enabled(j.inst[k], B.Serve(res)) ==> exists h :: Can(j, Handles(k, h, res)))
            && (!j.w.running && !j.w.joined && B.Enabled(j.inst[k], B.Serve(0)) ==> exists f :: Can(j, Frees(k, f)))
  {
    JointInv(code, js, i);
    var j := js[i];
    AllLoaded(j);
    if B.Enabled(j.inst[k], B.Register(c)) { RegistrationFound(j, k, c); }
    if B.Enabled(j.inst[k], B.Fail(c, err)) { FailureFound(j, k, c, err); }
    if j.w.running && B.Enabled(j.inst[k], B.Serve(res)) { AnswerFound(j, k, res); }
    if !j.w.running && !j.w.joined && B.Enabled(j.inst[k], B.Serve(0)) { FreedFound(j, k); }
  }

  // ---- Submissions ----

  lemma {:induction false} UnusedCtx(used: set<Ctx>) returns (c: Ctx)
    ensures forall x :: x in used ==> x < c
    decreases |used|
  {
    if used == {} { return 0; }
    var x :| x in used;
    var d := UnusedCtx(used - {x});
    c := if d > x then d else x + 1;
    forall y | y in used ensures y < c { assert y == x || y in used - {x}; }
  }

  lemma CanEnter(s: B.Instance, i: nat, begun: map<Id, Req>, flying: map<Id, Req>, n: nat, q: Req)
    requires InstanceOk(s, i, begun, flying, true, n) && q.id == n
    ensures exists c :: B.Enabled(s, B.Enter(q, c))
  {
    var c := UnusedCtx(B.PoolOf(s).made);
    assert c !in B.PoolOf(s).made;
    assert q.id !in B.Ids(s);
    assert B.Enabled(s, B.Enter(q, c));
  }

  lemma EnterFound(j: System, h: Id)
    requires InstancesOk(j) && forall i :: 0 <= i < B.NUM_INSTANCES ==> B.Loaded(j.inst[i])
    requires h in j.w.submitting && h !in j.begun && j.w.running
    ensures exists c :: Can(j, Enters(h, c))
  {
    var op := j.w.submitting[h];
    var k := B.ShardOf(op.fd);
    assert InstanceOk(j.inst[k], k, j.begun, j.flying, j.w.running, j.nextTag);
    CanEnter(j.inst[k], k, j.begun, j.flying, j.nextTag, Req(j.nextTag, op));
    var c :| B.Enabled(j.inst[k], B.Enter(Req(j.nextTag, op), c));
    assert Can(j, Enters(h, c));
  }

  /** No thread is kept out of async_io: while the backend runs it can acquire a context, under either
      backend, and afterwards its operation is dropped. */
  lemma EverySubmissionProceeds(code: Code, js: seq<System>, i: nat, h: Id)
    requires JointRun(code, js) && i < |js| && h in js[i].w.submitting && h !in js[i].begun
    ensures if js[i].w.running then exists c :: Can(js[i], Enters(h, c)) else Can(js[i], Ignored(h))
  {
    JointInv(code, js, i);
    AllLoaded(js[i]);
    if js[i].w.running { EnterFound(js[i], h); }
  }
}
