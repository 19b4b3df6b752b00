/** One instance of either backend, as the runtime above it sees it: which requests it holds, and which
    of them are still with the threads inside async_io. */
module Backends {
  import opened Program
  import opened AsyncIo
  import opened Pool
  import E = Epoll
  import EP = EpollProofs
  import ES = EpollService
  import U = Uring
  import UP = UringProofs

  // ---- Shards ----

  const NUM_INSTANCES := 4

  /** static_cast<size_t>(fd) % 4, where size_t has 64 bits. */
  function ShardOf(fd: int): (i: nat)
    ensures i < NUM_INSTANCES
  {
    (if fd < 0 then fd + 0x1_0000_0000_0000_0000 else fd) % NUM_INSTANCES
  }

  /** For every value of a 32-bit int the shard is the mathematical remainder, so operations on one
      descriptor always meet in the same instance and neighbours spread over all four. */
  lemma ShardIsRemainder(fd: int)
    requires -0x8000_0000 <= fd < 0x8000_0000
    ensures ShardOf(fd) == fd % NUM_INSTANCES && ShardOf(fd + 4) == ShardOf(fd)
  {
  }

  // ---- Instances of either kind ----

  datatype Instance = Epolling(e: E.Instance) | Uringing(u: U.Instance)

  datatype Event =
    | Enter(req: Req, c: Ctx)      // async_io: running_ seen true, a context acquired
    | Register(c: Ctx)             // epoll_ctl succeeds, or the entry is queued
    | Fail(c: Ctx, err: nat)       // epoll_ctl fails, or the queue stays full: the callback runs in async_io
    | Serve(res: int)              // the loop takes the next event or completion
    | Stop
    | EpollInside(step: E.Event)   // what concerns nobody outside
    | UringInside(act: U.Event)

  ghost predicate Inside(e: Event) {
    match e
    case EpollInside(f) => f.Recorded? || f.Filling? || f.FailureDone? || f.Wait? || f.Return?
    case UringInside(f) =>
      f.Recorded? || f.Filling? || f.RefusalDone? || f.KernelTakes? || f.KernelDone? || f.Return? || f.Advance?
    case _ => false
  }

  /** Steps of the event loop's thread. */
  ghost predicate ByLoop(e: Event) {
    || (e.EpollInside? && (e.step.Wait? || e.step.Return?))
    || (e.UringInside? && (e.act.Return? || e.act.Advance?))
  }

  ghost function EpollEvent(e: Event): Option<E.Event> {
    match e
    case Enter(q, c) => Some(E.Enter(q, c))
    case Register(c) => Some(E.Arm(c))
    case Fail(c, err) => Some(E.ArmFails(c, err))
    case Serve(res) => Some(E.Handle(res))
    case Stop => Some(E.Stop)
    case EpollInside(f) => if Inside(e) then Some(f) else None
    case UringInside(_) => None
  }

  ghost function UringEvent(e: Event): Option<U.Event> {
    match e
    case Enter(q, c) => Some(U.Enter(q, c))
    case Register(c) => Some(U.Queue(c))
    case Fail(c, _) => Some(U.Refuse(c))
    case Serve(_) => Some(U.Handle)
    case Stop => Some(U.Stop)
    case EpollInside(_) => None
    case UringInside(f) => if Inside(e) then Some(f) else None
  }

  ghost predicate Enabled(s: Instance, e: Event) {
    match s
    case Epolling(i) => EpollEvent(e).Some? && E.Enabled(i, EpollEvent(e).value)
    case Uringing(i) =>
      && UringEvent(e).Some? && U.Enabled(i, UringEvent(e).value)
      && (e.Serve? && i.running ==> e.res == i.answer[i.cq[0]])
      && (e.Fail? ==> e.err == U.ENOMEM)
  }

  ghost function Next(s: Instance, e: Event): Instance
    requires Enabled(s, e)
  {
    match s
    case Epolling(i) => Epolling(E.Next(i, EpollEvent(e).value))
    case Uringing(i) => Uringing(U.Next(i, UringEvent(e).value))
  }

  function PoolOf(s: Instance): CtxPool {
    match s
    case Epolling(i) => i.pool
    case Uringing(i) => i.pool
  }

  function Running(s: Instance): bool {
    match s
    case Epolling(i) => i.running
    case Uringing(i) => i.running
  }

  function Ids(s: Instance): set<nat> {
    match s
    case Epolling(i) => i.accepted
    case Uringing(i) => i.accepted
  }

  ghost predicate Loaded(s: Instance) {
    match s
    case Epolling(i) => E.Loaded(i)
    case Uringing(i) => U.Loaded(i)
  }

  ghost function Abstract(s: Instance): Service
    requires Loaded(s)
  {
    match s
    case Epolling(i) => E.Abstract(i)
    case Uringing(i) => U.Abstract(i)
  }

  ghost function Pending(s: Instance): set<Req>
    requires Loaded(s)
  {
    Abstract(s).pending
  }

  /** The requests of the threads inside async_io. */
  ghost function Entering(s: Instance): set<Req> {
    set c | c in PoolOf(s).entering :: PoolOf(s).entering[c].req
  }

  /** An event, or a completion, waits for the loop. */
  ghost predicate HasNext(s: Instance) {
    match s
    case Epolling(i) => i.batch != []
    case Uringing(i) => i.cq != []
  }

  /** ... and this is its request. */
  ghost function NextReq(s: Instance): Req
    requires Loaded(s) && HasNext(s)
  {
    match s
    case Epolling(i) => E.Held(i, i.batch[0])
    case Uringing(i) => assert U.Live(i, i.cq[0]); U.Held(i, i.cq[0])
  }

  ghost predicate Partition(s: Instance) {
    match s
    case Epolling(i) => E.Partition(i) && i.lost == {}
    case Uringing(i) => U.Partition(i)
  }

  /** What every instance keeps; epoll only as long as its callers are disciplined. */
  ghost predicate Sound(s: Instance) {
    match s
    case Epolling(i) => E.Good(i) && ES.OnePerFd(E.Pending(i)) && i.lost == {}
    case Uringing(i) => U.Good(i)
  }

  ghost predicate Disciplined(s: Instance, e: Event)
    requires Loaded(s)
  {
    s.Epolling? && EpollEvent(e).Some? ==> ES.Disciplined(s.e, EpollEvent(e).value)
  }

  ghost predicate New(s: Instance) {
    s == Epolling(E.NEW_INSTANCE) || s == Uringing(U.NEW_INSTANCE)
  }

  lemma NewSound(s: Instance)
    requires New(s)
    ensures Sound(s) && Running(s) && Ids(s) == {} && Pending(s) == {} && Entering(s) == {}
  {
    match s
    case Epolling(i) =>
      ES.FreshGood();
      assert E.Pending(i) == {};
    case Uringing(i) =>
      UP.FreshGood();
      assert U.Pending(i) == {};
  }

  // ---- What the service says about a step ----

  /** The very request and the very number that the caller, the kernel or errno supplied. */
  ghost function LabelOf(s: Instance, e: Event): Label
    requires Loaded(s) && Enabled(s, e)
  {
    match e
    case Enter(q, _) => Accepted(q)
    case Fail(c, err) => Called(PoolOf(s).entering[c].req, 0 - err)
    case Serve(res) => if Running(s) then Called(NextReq(s), res) else Forgotten(NextReq(s))
    case Stop => Stopped
    case _ => Silent
  }

  lemma EpollSays(i: E.Instance, e: Event)
    requires E.Loaded(i) && Enabled(Epolling(i), e)
    ensures EP.LabelOf(i, EpollEvent(e).value) == LabelOf(Epolling(i), e)
  {
  }

  lemma UringSays(i: U.Instance, e: Event)
    requires U.Loaded(i) && Enabled(Uringing(i), e)
    ensures UP.LabelOf(i, UringEvent(e).value) == LabelOf(Uringing(i), e)
  {
  }

  /** Every step of a disciplined caller, and every step at all under uring, is one of the service: the
      callback of the request served gets the number that came, that of a failed registration minus the
      error, and after stop() none is called. */
  lemma StepRefines(s: Instance, e: Event)
    requires Sound(s) && Enabled(s, e) && Disciplined(s, e)
    ensures Sound(Next(s, e)) && ServiceStep(Abstract(s), LabelOf(s, e), Abstract(Next(s, e)))
  {
    match s
    case Epolling(i) =>
      ES.DisciplineProtects(i, EpollEvent(e).value);
      ES.DisciplineKept(i, EpollEvent(e).value);
      EpollSays(i, e);
    case Uringing(i) =>
      UP.StepRefines(i, UringEvent(e).value);
      UringSays(i, e);
  }

  /** The callbacks that have run, in order, each with the number it got. */
  function Log(s: Instance): seq<Reply> {
    match s
    case Epolling(i) => i.called
    case Uringing(i) => i.called
  }

  /** A step adds to the log what it says, and nothing else. */
  lemma StepLogs(s: Instance, e: Event)
    requires Sound(s) && Enabled(s, e) && Disciplined(s, e)
    ensures var l := LabelOf(s, e);
            && Log(Next(s, e)) == Log(s) + (if l.Called? then [Reply(l.req, l.res)] else [])
            && (l.Called? ==> Answers(l.req.op, l.res))
  {
    StepRefines(s, e);
    assert Abstract(s).called == Log(s) && Abstract(Next(s, e)).called == Log(Next(s, e));
  }

  lemma FailSays(s: Instance, c: Ctx, err: nat, res: int)
    requires Loaded(s) && Enabled(s, Fail(c, err)) && res == 0 - err
    ensures c in PoolOf(s).entering && LabelOf(s, Fail(c, err)) == Called(PoolOf(s).entering[c].req, res)
    ensures Disciplined(s, Fail(c, err))
  {
  }

  lemma FailLogs(s: Instance, c: Ctx, err: nat, res: int)
    requires Sound(s) && Enabled(s, Fail(c, err)) && res == 0 - err
    ensures c in PoolOf(s).entering && Answers(PoolOf(s).entering[c].req.op, res)
    ensures Log(Next(s, Fail(c, err))) == Log(s) + [Reply(PoolOf(s).entering[c].req, res)]
  {
    FailSays(s, c, err, res);
    StepLogs(s, Fail(c, err));
  }

  lemma EnterLogs(s: Instance, q: Req, c: Ctx)
    requires Enabled(s, Enter(q, c))
    ensures Log(Next(s, Enter(q, c))) == Log(s)
  {
  }

  lemma EnteringPending(s: Instance)
    requires Sound(s)
    ensures Entering(s) <= Pending(s)
  {
    forall q | q in Entering(s) ensures q in Pending(s) {
      var c :| c in PoolOf(s).entering && PoolOf(s).entering[c].req == q;
      match s
      case Epolling(i) => assert EP.Carries(i, c) && E.Held(i, c) == q;
      case Uringing(i) => assert U.Live(i, c) && U.Held(i, c) == q;
    }
  }

  ghost predicate DistinctClaims(p: CtxPool) {
    forall c, d :: c in p.entering && d in p.entering && p.entering[c].req == p.entering[d].req ==> c == d
  }

  /** Two threads inside async_io have different requests. */
  lemma EnteringApart(s: Instance)
    requires Sound(s)
    ensures DistinctClaims(PoolOf(s))
  {
    var p := PoolOf(s);
    forall c, d | c in p.entering && d in p.entering && p.entering[c].req == p.entering[d].req ensures c == d {
      match s
      case Epolling(i) => assert E.Live(i, c) && E.Live(i, d) && E.Loads(i, c) && E.Loads(i, d);
      case Uringing(i) => assert U.Live(i, c) && U.Live(i, d) && U.Held(i, c).id == U.Held(i, d).id;
    }
  }

  ghost function Requests(entering: map<Ctx, Claim>): set<Req> {
    set c | c in entering :: entering[c].req
  }

  /** A thread leaves async_io with its context: its request leaves the set. */
  lemma LeaveEntering(p: CtxPool, c: Ctx)
    requires DistinctClaims(p) && c in p.entering
    ensures Requests(p.entering - {c}) == Requests(p.entering) - {p.entering[c].req}
  {
    forall q | q in Requests(p.entering) && q != p.entering[c].req ensures q in Requests(p.entering - {c}) {
      var d :| d in p.entering && p.entering[d].req == q;
      assert d in p.entering - {c};
    }
  }

  lemma JoinEntering(entering: map<Ctx, Claim>, d: Ctx, claim: Claim)
    requires d !in entering
    ensures Requests(entering[d := claim]) == Requests(entering) + {claim.req}
  {
    var after := entering[d := claim];
    assert after[d].req == claim.req;
    forall p | p in Requests(entering) ensures p in Requests(after) {
      var x :| x in entering && entering[x].req == p;
      assert after[x].req == p;
    }
  }

  lemma SameClaims(entering: map<Ctx, Claim>, entering': map<Ctx, Claim>)
    requires entering'.Keys == entering.Keys && forall c :: c in entering ==> entering'[c].req == entering[c].req
    ensures Requests(entering') == Requests(entering)
  {
    assert forall c :: c in entering <==> c in entering';
  }

  lemma EnteringIs(s: Instance)
    ensures Entering(s) == Requests(PoolOf(s).entering)
  {
  }

  // ---- What the runtime needs to know of each step ----

  /** Apart from its requests, an instance keeps its ids and whether it runs. */
  ghost predicate Steady(s: Instance, s': Instance) {
    Sound(s') && Running(s') == Running(s) && Ids(s') == Ids(s)
  }

  /** One more claim, for the request `q`. */
  ghost predicate OneMore(entering: map<Ctx, Claim>, entering': map<Ctx, Claim>, d: Ctx, claim: Claim, q: Req) {
    d !in entering && claim.req == q && entering' == entering[d := claim]
  }

  lemma EnterClaims(s: Instance, q: Req, c: Ctx) returns (d: Ctx, claim: Claim)
    requires Sound(s) && Enabled(s, Enter(q, c))
    ensures OneMore(PoolOf(s).entering, PoolOf(Next(s, Enter(q, c))).entering, d, claim, q)
    ensures Running(Next(s, Enter(q, c))) == Running(s) && Ids(Next(s, Enter(q, c))) == Ids(s) + {q.id}
  {
    var p := PoolOf(s);
    if p.free != [] {
      d, claim := p.free[|p.free| - 1], Claim(q, Got);
      assert d in p.free;
    } else {
      d, claim := c, Claim(q, Stage.New);
    }
  }

  lemma EnterStep(s: Instance, q: Req, c: Ctx)
    requires Sound(s) && Enabled(s, Enter(q, c)) && Disciplined(s, Enter(q, c))
    ensures var s' := Next(s, Enter(q, c));
            && Sound(s') && Running(s') == Running(s) && Ids(s') == Ids(s) + {q.id}
            && Pending(s') == Pending(s) + {q} && Entering(s') == Entering(s) + {q}
  {
    StepRefines(s, Enter(q, c));
    var d, claim := EnterClaims(s, q, c);
    JoinEntering(PoolOf(s).entering, d, claim);
    EnteringIs(s);
    EnteringIs(Next(s, Enter(q, c)));
  }

  ghost predicate SameRequests(p: CtxPool, p': CtxPool) {
    p'.entering.Keys == p.entering.Keys
    && forall c :: c in p.entering ==> p'.entering[c].req == p.entering[c].req
  }

  lemma EpollInsideClaims(i: E.Instance, f: E.Event)
    requires E.Enabled(i, f) && (Inside(EpollInside(f)) || f.Stop?)
    ensures var i' := E.Next(i, f);
            SameRequests(i.pool, i'.pool) && i'.running == (i.running && !f.Stop?) && i'.accepted == i.accepted
  {
  }

  lemma UringInsideClaims(i: U.Instance, f: U.Event)
    requires U.Enabled(i, f) && (Inside(UringInside(f)) || f.Stop?)
    ensures var i' := U.Next(i, f);
            SameRequests(i.pool, i'.pool) && i'.running == (i.running && !f.Stop?) && i'.accepted == i.accepted
  {
  }

  lemma InsideClaims(s: Instance, e: Event)
    requires Enabled(s, e) && (Inside(e) || e.Stop?)
    ensures SameRequests(PoolOf(s), PoolOf(Next(s, e)))
    ensures Running(Next(s, e)) == (Running(s) && !e.Stop?) && Ids(Next(s, e)) == Ids(s)
  {
    match s
    case Epolling(i) => EpollInsideClaims(i, EpollEvent(e).value);
    case Uringing(i) => UringInsideClaims(i, UringEvent(e).value);
  }

  lemma InsideStep(s: Instance, e: Event)
    requires Sound(s) && Enabled(s, e) && (Inside(e) || e.Stop?)
    ensures var s' := Next(s, e);
            && Sound(s') && Ids(s') == Ids(s) && Running(s') == (Running(s) && !e.Stop?)
            && Pending(s') == Pending(s) && Entering(s') == Entering(s)
  {
    StepRefines(s, e);
    InsideClaims(s, e);
    SameClaims(PoolOf(s).entering, PoolOf(Next(s, e)).entering);
    EnteringIs(s);
    EnteringIs(Next(s, e));
  }

  lemma LeaveClaims(s: Instance, e: Event, c: Ctx)
    requires Enabled(s, e) && (e == Register(c) || (e.Fail? && e.c == c))
    ensures c in PoolOf(s).entering && PoolOf(Next(s, e)).entering == PoolOf(s).entering - {c}
    ensures Running(Next(s, e)) == Running(s) && Ids(Next(s, e)) == Ids(s)
  {
  }

  lemma LeaveStep(s: Instance, e: Event, c: Ctx)
    requires Sound(s) && Enabled(s, e) && (e == Register(c) || (e.Fail? && e.c == c))
    ensures var s', q := Next(s, e), PoolOf(s).entering[c].req;
            && Steady(s, s') && q in Pending(s) && Entering(s') == Entering(s) - {q}
            && Pending(s') == if e.Fail? then Pending(s) - {q} else Pending(s)
  {
    StepRefines(s, e);
    LeaveClaims(s, e, c);
    EnteringApart(s);
    LeaveEntering(PoolOf(s), c);
    EnteringIs(s);
    EnteringIs(Next(s, e));
    EnteringPending(s);
    assert PoolOf(s).entering[c].req in Entering(s);
  }

  lemma ServeClaims(s: Instance, res: int)
    requires Enabled(s, Serve(res))
    ensures PoolOf(Next(s, Serve(res))).entering == PoolOf(s).entering
    ensures Running(Next(s, Serve(res))) == Running(s) && Ids(Next(s, Serve(res))) == Ids(s)
  {
  }

  lemma ReportedOutside(i: E.Instance, d: Ctx)
    requires E.Good(i) && i.batch != [] && d in i.pool.entering
    ensures E.Held(i, d) != E.Held(i, i.batch[0])
  {
    EP.SpotMeaning(i, i.batch[0]);
    EP.OneSpot(i, i.batch[0], E.Reported);
    assert E.Live(i, d) && E.Loads(i, d) && E.Live(i, i.batch[0]) && E.Loads(i, i.batch[0]);
  }

  lemma CompletedOutside(i: U.Instance, d: Ctx)
    requires U.Good(i) && i.cq != [] && d in i.pool.entering
    ensures U.Held(i, d) != U.Held(i, i.cq[0])
  {
    UP.SpotMeaning(i, i.cq[0]);
    UP.OneSpot(i, i.cq[0], U.Completed);
    assert U.Live(i, d) && U.Live(i, i.cq[0]);
  }

  lemma NextIsOutside(s: Instance)
    requires Sound(s) && HasNext(s)
    ensures NextReq(s) !in Entering(s)
  {
    forall d | d in PoolOf(s).entering ensures PoolOf(s).entering[d].req != NextReq(s) {
      match s
      case Epolling(i) => ReportedOutside(i, d);
      case Uringing(i) => CompletedOutside(i, d);
    }
  }

  lemma ServeStep(s: Instance, res: int)
    requires Sound(s) && Enabled(s, Serve(res))
    ensures var s', q := Next(s, Serve(res)), NextReq(s);
            && Steady(s, s') && Pending(s') == Pending(s) - {q} && Entering(s') == Entering(s)
            && q in Pending(s) && q !in Entering(s)
  {
    StepRefines(s, Serve(res));
    ServeClaims(s, res);
    NextIsOutside(s);
    EnteringIs(s);
    EnteringIs(Next(s, Serve(res)));
  }
}
