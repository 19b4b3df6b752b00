/** One epoll_instance: readiness events, one-shot registrations, one context per operation. */
module Epoll {
  import opened Lists
  import opened Program
  import opened AsyncIo
  import opened Pool

  /** `armed` is the kernel's interest list: one context per file descriptor. `batch` are the
      events epoll_wait returned that the loop has not handled yet, `inCall` is the context
      whose callback the loop is running, `failing` those called back from inside async_io.
      `lost` records contexts whose registration was overwritten. */
  datatype Instance = Instance(
    pool: CtxPool,
    armed: map<int, Ctx>,
    batch: seq<Ctx>,
    inCall: Option<Ctx>,
    failing: set<Ctx>,
    lost: set<Ctx>,
    running: bool,
    accepted: set<nat>,
    called: seq<Reply>,
    forgotten: set<nat>)

  const NEW_INSTANCE := Instance(NO_CONTEXTS, map[], [], None, {}, {}, true, {}, [], {})

  datatype Event =
    | Enter(req: Req, c: Ctx)       // async_io: running_ seen true, acquire() (c is used if it allocates)
    | Recorded(c: Ctx)
    | Filling(c: Ctx)
    | Arm(c: Ctx)                   // epoll_ctl MOD or ADD succeeds
    | ArmFails(c: Ctx, err: nat)    // both fail: the callback runs in async_io
    | FailureDone(c: Ctx)           // ... and the context is released
    | Wait(fds: seq<int>)           // epoll_wait reports these descriptors and disarms them
    | Handle(res: int)              // the loop takes the next event
    | Return                        // its callback returned, the context is released
    | Stop

  function CtxOfFds(armed: map<int, Ctx>, fds: seq<int>): seq<Ctx>
    requires forall i :: 0 <= i < |fds| ==> fds[i] in armed
  {
    seq(|fds|, i requires 0 <= i < |fds| => armed[fds[i]])
  }

  ghost predicate Enabled(s: Instance, e: Event) {
    match e
    case Enter(req, c) => s.running && req.id !in s.accepted && (s.pool.free == [] ==> c !in s.pool.made)
    case Recorded(c) => c in s.pool.entering && s.pool.entering[c].stage.New?
    case Filling(c) => c in s.pool.entering && s.pool.entering[c].stage.Got?
    case Arm(c) => c in s.pool.entering && s.pool.entering[c].stage.Filled? && c in s.pool.content
    case ArmFails(c, err) => c in s.pool.entering && s.pool.entering[c].stage.Filled?
    case FailureDone(c) => c in s.failing && c in s.pool.content
    case Wait(fds) =>
      s.batch == [] && s.inCall.None?
      && (forall i :: 0 <= i < |fds| ==> fds[i] in s.armed)
      && (forall i, j :: 0 <= i < j < |fds| ==> fds[i] != fds[j])
    case Handle(res) =>
      s.batch != [] && s.inCall.None? && s.batch[0] in s.pool.content
      && (s.running ==> Answers(s.pool.content[s.batch[0]].op, res))
    case Return => s.inCall.Some? && s.inCall.value in s.pool.content
    case Stop => true
  }

  function Held(s: Instance, c: Ctx): Req
    requires c in s.pool.entering || (c in s.pool.content && s.pool.content[c].cb.Some?)
  {
    if c in s.pool.entering then s.pool.entering[c].req else Req(s.pool.content[c].cb.value, s.pool.content[c].op)
  }

  function AcceptReq(s: Instance, req: Req, c: Ctx): Instance {
    s.(pool := if s.pool.free != [] then Pop(s.pool, req) else Allocate(s.pool, c, req),
       accepted := s.accepted + {req.id})
  }

  /** epoll_ctl: a registration of the same descriptor is replaced. */
  function ArmCtx(s: Instance, c: Ctx): Instance
    requires c in s.pool.content
  {
    var fd := s.pool.content[c].op.fd;
    s.(pool := Leave(s.pool, c),
       armed := s.armed[fd := c],
       lost := if fd in s.armed then s.lost + {s.armed[fd]} else s.lost)
  }

  function FailCtx(s: Instance, c: Ctx, err: nat): Instance
    requires c in s.pool.entering
  {
    s.(pool := Leave(s.pool, c), failing := s.failing + {c},
       called := s.called + [Reply(s.pool.entering[c].req, 0 - err)])
  }

  function HandleNext(s: Instance, res: int): Instance
    requires s.batch != [] && s.batch[0] in s.pool.content
  {
    var c := s.batch[0];
    var s' := s.(batch := s.batch[1..]);
    if s.running then
      if s.pool.content[c].cb.Some? then s'.(inCall := Some(c), called := s.called + [Reply(Held(s, c), res)]) else s'
    else
      s'.(pool := Release(s.pool, c),
          forgotten := if s.pool.content[c].cb.Some? then s.forgotten + {s.pool.content[c].cb.value} else s.forgotten)
  }

  ghost function Next(s: Instance, e: Event): Instance
    requires Enabled(s, e)
  {
    match e
    case Enter(req, c) => AcceptReq(s, req, c)
    case Recorded(c) => s.(pool := Record(s.pool, c))
    case Filling(c) => s.(pool := Fill(s.pool, c))
    case Arm(c) => ArmCtx(s, c)
    case ArmFails(c, err) => FailCtx(s, c, err)
    case FailureDone(c) => s.(pool := Release(s.pool, c), failing := s.failing - {c})
    case Wait(fds) => s.(batch := CtxOfFds(s.armed, fds), armed := s.armed - (set i | 0 <= i < |fds| :: fds[i]))
    case Handle(res) => HandleNext(s, res)
    case Return => s.(pool := Release(s.pool, s.inCall.value), inCall := None)
    case Stop => s.(running := false)
  }

  // ---- The partition of contexts ----

  ghost predicate Armed(s: Instance, c: Ctx) {
    exists fd :: fd in s.armed && s.armed[fd] == c
  }

  /** Where a context can be once it has left the pool. */
  datatype Spot = AtKernel | Reported | InCallback | InFailure | Lost

  ghost function Spots(s: Instance, c: Ctx): set<Spot> {
    (if Armed(s, c) then {AtKernel} else {}) + (if c in s.batch then {Reported} else {})
    + (if s.inCall == Some(c) then {InCallback} else {}) + (if c in s.failing then {InFailure} else {})
    + (if c in s.lost then {Lost} else {})
  }

  ghost predicate Placed(p: CtxPool, c: Ctx, spots: set<Spot>) {
    (Out(p, c) <==> spots != {}) && forall x, y :: x in spots && y in spots ==> x == y
  }

  /** Every context that exists is in exactly one place: free, with a submitting thread, armed,
      reported, executing its callback (in the loop or in async_io), or lost. */
  ghost predicate Partition(s: Instance) {
    && PoolOk(s.pool)
    && Distinct(s.batch)
    && (forall f, g :: f in s.armed && g in s.armed && s.armed[f] == s.armed[g] ==> f == g)
    && (forall c :: Placed(s.pool, c, Spots(s, c)))
  }

  /** Registrations and reported events carry a callback, and the registration's own descriptor. */
  ghost predicate Loaded(s: Instance) {
    && (forall fd :: fd in s.armed ==> s.armed[fd] in s.pool.content && s.pool.content[s.armed[fd]].cb.Some?
                                       && s.pool.content[s.armed[fd]].op.fd == fd)
    && (forall c :: c in s.batch ==> c in s.pool.content && s.pool.content[c].cb.Some?)
  }

  /** A context that carries a request nobody has been called back for. */
  ghost predicate Live(s: Instance, c: Ctx) {
    c in s.pool.entering || Armed(s, c) || c in s.batch
  }

  ghost function Pending(s: Instance): set<Req>
    requires Loaded(s)
  {
    set c | c in s.pool.made && Live(s, c) && Loads(s, c) :: Held(s, c)
  }

  ghost predicate Loads(s: Instance, c: Ctx) {
    c in s.pool.entering || (c in s.pool.content && s.pool.content[c].cb.Some?)
  }

  /** Two live contexts never carry the same request. */
  ghost predicate Apart(s: Instance) {
    forall c, d :: Live(s, c) && Live(s, d) && Loads(s, c) && Loads(s, d) && Held(s, c).id == Held(s, d).id ==> c == d
  }

  /** The abstract service an instance implements. */
  ghost function Abstract(s: Instance): Service
    requires Loaded(s)
  {
    Service(s.accepted, Pending(s), s.called, s.forgotten, s.running)
  }

  ghost predicate Good(s: Instance) {
    Partition(s) && Loaded(s) && Apart(s) && ExactlyOnce(Abstract(s))
  }
}
