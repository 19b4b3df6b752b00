/** One uring_instance: a submission queue, the operations the kernel holds, a completion queue. */
module Uring {
  import opened Lists
  import opened Program
  import opened AsyncIo
  import opened Pool

  const QUEUE_DEPTH := 4096
  const ENOMEM := 12

  /** `cq` are the completions the loop has not reached yet, `answer` their results, `seen` those
      it has passed but not handed back to the ring. `refusing` is the context whose callback
      runs inside async_io because the submission queue stayed full; sq_mutex_ is held then. */
  datatype Instance = Instance(
    pool: CtxPool,
    sq: seq<Ctx>,
    kernel: set<Ctx>,
    cq: seq<Ctx>,
    answer: map<Ctx, int>,
    seen: nat,
    inCall: Option<Ctx>,
    refusing: Option<Ctx>,
    running: bool,
    accepted: set<nat>,
    called: seq<Reply>,
    forgotten: set<nat>)

  const NEW_INSTANCE := Instance(NO_CONTEXTS, [], {}, [], map[], 0, None, None, true, {}, [], {})

  datatype Event =
    | Enter(req: Req, c: Ctx)
    | Recorded(c: Ctx)
    | Filling(c: Ctx)
    | Queue(c: Ctx)                 // io_uring_get_sqe, prep, submit, under sq_mutex_
    | Refuse(c: Ctx)                // no entry even after a forced submit: callback with -ENOMEM
    | RefusalDone
    | KernelTakes                   // the polling thread consumes an entry
    | KernelDone(c: Ctx, res: int)  // the operation completes
    | Handle                        // the loop takes the next completion
    | Return
    | Advance                       // io_uring_cq_advance
    | Stop

  ghost predicate Enabled(s: Instance, e: Event) {
    match e
    case Enter(req, c) => s.running && req.id !in s.accepted && (s.pool.free == [] ==> c !in s.pool.made)
    case Recorded(c) => c in s.pool.entering && s.pool.entering[c].stage.New?
    case Filling(c) => c in s.pool.entering && s.pool.entering[c].stage.Got?
    case Queue(c) =>
      s.refusing.None? && c in s.pool.entering && s.pool.entering[c].stage.Filled? && |s.sq| < QUEUE_DEPTH
    case Refuse(c) =>
      s.refusing.None? && c in s.pool.entering && s.pool.entering[c].stage.Filled? && |s.sq| >= QUEUE_DEPTH
    case RefusalDone => s.refusing.Some? && s.refusing.value in s.pool.content
    case KernelTakes => s.sq != []
    case KernelDone(c, res) =>
      c in s.kernel && c in s.pool.content && Answers(s.pool.content[c].op, res) && s.seen + |s.cq| < 2 * QUEUE_DEPTH
    case Handle => s.cq != [] && s.inCall.None? && s.cq[0] in s.pool.content && s.cq[0] in s.answer
    case Return => s.inCall.Some? && s.inCall.value in s.pool.content
    case Advance => s.inCall.None?
    case Stop => true
  }

  function Held(s: Instance, c: Ctx): Req
    requires c in s.pool.entering || (c in s.pool.content && s.pool.content[c].cb.Some?)
  {
    if c in s.pool.entering then s.pool.entering[c].req else Req(s.pool.content[c].cb.value, s.pool.content[c].op)
  }

  function AcceptReq(s: Instance, req: Req, c: Ctx): Instance {
    s.(pool := if s.pool.free != [] then Pop(s.pool, req) else Allocate(s.pool, c, req),
       accepted := s.accepted + {req.id})
  }

  function QueueCtx(s: Instance, c: Ctx): Instance {
    s.(pool := Leave(s.pool, c), sq := s.sq + [c])
  }

  function RefuseCtx(s: Instance, c: Ctx): Instance
    requires c in s.pool.entering
  {
    s.(pool := Leave(s.pool, c), refusing := Some(c),
       called := s.called + [Reply(s.pool.entering[c].req, 0 - ENOMEM)])
  }

  function TakeEntry(s: Instance): Instance
    requires s.sq != []
  {
    s.(sq := s.sq[1..], kernel := s.kernel + {s.sq[0]})
  }

  function Complete(s: Instance, c: Ctx, res: int): Instance {
    s.(kernel := s.kernel - {c}, cq := s.cq + [c], answer := s.answer[c := res])
  }

  function HandleNext(s: Instance): Instance
    requires s.cq != [] && s.cq[0] in s.pool.content && s.cq[0] in s.answer
  {
    var c := s.cq[0];
    var s' := s.(cq := s.cq[1..], seen := s.seen + 1);
    if s.running then
      if s.pool.content[c].cb.Some?
      then s'.(inCall := Some(c), called := s.called + [Reply(Held(s, c), s.answer[c])]) else s'
    else
      s'.(pool := Release(s.pool, c),
          forgotten := if s.pool.content[c].cb.Some? then s.forgotten + {s.pool.content[c].cb.value} else s.forgotten)
  }

  ghost function Next(s: Instance, e: Event): Instance
    requires Enabled(s, e)
  {
    match e
    case Enter(req, c) => AcceptReq(s, req, c)
    case Recorded(c) => s.(pool := Record(s.pool, c))
    case Filling(c) => s.(pool := Fill(s.pool, c))
    case Queue(c) => QueueCtx(s, c)
    case Refuse(c) => RefuseCtx(s, c)
    case RefusalDone => s.(pool := Release(s.pool, s.refusing.value), refusing := None)
    case KernelTakes => TakeEntry(s)
    case KernelDone(c, res) => Complete(s, c, res)
    case Handle => HandleNext(s)
    case Return => s.(pool := Release(s.pool, s.inCall.value), inCall := None)
    case Advance => s.(seen := 0)
    case Stop => s.(running := false)
  }

  // ---- The partition of contexts ----

  datatype Spot = Queued | InKernel | Completed | InCallback | InRefusal

  ghost function Spots(s: Instance, c: Ctx): set<Spot> {
    (if c in s.sq then {Queued} else {}) + (if c in s.kernel then {InKernel} else {})
    + (if c in s.cq then {Completed} else {}) + (if s.inCall == Some(c) then {InCallback} else {})
    + (if s.refusing == Some(c) then {InRefusal} else {})
  }

  ghost predicate Placed(p: CtxPool, c: Ctx, spots: set<Spot>) {
    (Out(p, c) <==> spots != {}) && forall x, y :: x in spots && y in spots ==> x == y
  }

  /** Every context that exists is in exactly one place: free, with a submitting thread, queued,
      in the kernel, completed, or executing its callback. */
  ghost predicate Partition(s: Instance) {
    && PoolOk(s.pool) && Distinct(s.sq) && Distinct(s.cq)
    && (forall c :: Placed(s.pool, c, Spots(s, c)))
  }

  ghost predicate Live(s: Instance, c: Ctx) {
    c in s.pool.entering || c in s.sq || c in s.kernel || c in s.cq
  }

  ghost predicate Loads(s: Instance, c: Ctx) {
    c in s.pool.entering || (c in s.pool.content && s.pool.content[c].cb.Some?)
  }

  /** Live contexts carry a callback; completions carry an answer their operation allows. */
  ghost predicate Loaded(s: Instance) {
    && (forall c :: Live(s, c) ==> c in s.pool.made && Loads(s, c))
    && (forall c :: c in s.cq ==> c in s.answer && c in s.pool.content && Answers(s.pool.content[c].op, s.answer[c]))
  }

  ghost function Pending(s: Instance): set<Req>
    requires Loaded(s)
  {
    set c | c in s.pool.made && Live(s, c) :: Held(s, c)
  }

  ghost predicate Apart(s: Instance)
    requires Loaded(s)
  {
    forall c, d :: Live(s, c) && Live(s, d) && Held(s, c).id == Held(s, d).id ==> c == d
  }

  ghost function Abstract(s: Instance): Service
    requires Loaded(s)
  {
    Service(s.accepted, Pending(s), s.called, s.forgotten, s.running)
  }

  ghost predicate Good(s: Instance) {
    Partition(s) && Loaded(s) && Apart(s) && ExactlyOnce(Abstract(s))
  }
}
