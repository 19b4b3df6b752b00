/** One epoll_instance's own code, over context objects that are recycled in place: the pool,
    async_io, and one round of the event loop whose callbacks submit again. */
module EpollCode {
  import opened Program
  import opened AsyncIo
  import opened Pool
  import opened Epoll
  import opened EpollProofs
  import opened EpollService
  import opened Rounds

  /** acquire() as one thread sees it. */
  ghost function Acquiring(s: Instance, req: Req, c: Ctx): Instance
    requires Enabled(s, Enter(req, c))
  {
    var entered := AcceptReq(s, req, c);
    var d := Acquired(s, c);
    var listed := if s.pool.free == [] then Next(entered, Recorded(d)) else entered;
    Next(listed, Filling(d))
  }

  /** Nobody else has an operation on the descriptor. */
  ghost predicate Alone(s: Instance, req: Req)
    requires Loaded(s)
  {
    Unused(Pending(s), req.op.fd)
  }

  ghost predicate Sound(s: Instance) {
    Good(s) && OnePerFd(Pending(s))
  }

  lemma AcquiringRefines(s: Instance, req: Req, c: Ctx)
    requires Sound(s) && Enabled(s, Enter(req, c)) && Alone(s, req)
    ensures Sound(Acquiring(s, req, c))
    ensures Abstract(Acquiring(s, req, c))
            == Abstract(s).(accepted := s.accepted + {req.id}, pending := Pending(s) + {req})
  {
    var entered, d := AcceptReq(s, req, c), Acquired(s, c);
    DisciplineKept(s, Enter(req, c));
    if s.pool.free == [] {
      DisciplineKept(entered, Recorded(d));
      DisciplineKept(Next(entered, Recorded(d)), Filling(d));
    } else {
      DisciplineKept(entered, Filling(d));
    }
  }

  /** async_io as one thread sees it; `err` is set when both epoll_ctl calls fail. */
  ghost function Submitting(s: Instance, req: Req, c: Ctx, err: Option<nat>): Instance
    requires Enabled(s, Enter(req, c))
  {
    var filled, d := Acquiring(s, req, c), Acquired(s, c);
    match err
    case None => ArmCtx(filled, d)
    case Some(e) => Next(FailCtx(filled, d, e), FailureDone(d))
  }

  lemma ArmingRefines(s: Instance, req: Req, c: Ctx)
    requires Sound(s) && Enabled(s, Enter(req, c)) && Alone(s, req)
    ensures Sound(Submitting(s, req, c, None))
    ensures Abstract(Submitting(s, req, c, None)) == Submitted(Abstract(s), req, None)
  {
    AcquiringRefines(s, req, c);
    DisciplineKept(Acquiring(s, req, c), Arm(Acquired(s, c)));
  }

  lemma FailureCalls(filled: Instance, d: Ctx, e: nat)
    requires Sound(filled) && Enabled(filled, ArmFails(d, e))
    ensures var t := FailCtx(filled, d, e);
            && Sound(t) && Enabled(t, FailureDone(d))
            && Abstract(t) == Answered(Abstract(filled), filled.pool.entering[d].req, 0 - e)
  {
    DisciplineKept(filled, ArmFails(d, e));
  }

  lemma FailureEnds(t: Instance, d: Ctx)
    requires Sound(t) && Enabled(t, FailureDone(d))
    ensures Sound(Next(t, FailureDone(d))) && Abstract(Next(t, FailureDone(d))) == Abstract(t)
  {
    DisciplineKept(t, FailureDone(d));
  }

  lemma FailureRefines(filled: Instance, d: Ctx, e: nat, a: Service, req: Req)
    requires Sound(filled) && Enabled(filled, ArmFails(d, e)) && filled.pool.entering[d].req == req
    requires Abstract(filled) == a.(accepted := a.accepted + {req.id}, pending := a.pending + {req})
    requires a.pending + {req} - {req} == a.pending
    ensures Sound(Next(FailCtx(filled, d, e), FailureDone(d)))
    ensures Abstract(Next(FailCtx(filled, d, e), FailureDone(d))) == Submitted(a, req, Some(e))
  {
    AnsweredAtOnce(a, Abstract(filled), req, e);
    FailureCalls(filled, d, e);
    FailureEnds(FailCtx(filled, d, e), d);
  }

  lemma AcquiredClaim(s: Instance, req: Req, c: Ctx)
    requires Enabled(s, Enter(req, c))
    ensures var filled, d := Acquiring(s, req, c), Acquired(s, c);
            d in filled.pool.entering && filled.pool.entering[d] == Claim(req, Filled) && d in filled.pool.content
  {
  }

  /** Between its parts, acquire() has claimed the context for the request. */
  lemma AcquiringStages(s: Instance, req: Req, c: Ctx)
    requires Enabled(s, Enter(req, c))
    ensures var entered, d := AcceptReq(s, req, c), Acquired(s, c);
            && (s.pool.free != [] ==> d in entered.pool.entering && entered.pool.entering[d] == Claim(req, Got))
            && (s.pool.free == [] ==>
                  && d == c && Enabled(entered, Recorded(d))
                  && d in Next(entered, Recorded(d)).pool.entering
                  && Next(entered, Recorded(d)).pool.entering[d] == Claim(req, Got))
  {
  }

  lemma CancelOut(pending: set<Req>, req: Req)
    requires forall q :: q in pending ==> q.op.fd != req.op.fd
    ensures pending + {req} - {req} == pending
  {
  }

  lemma FailingRefines(s: Instance, req: Req, c: Ctx, e: nat)
    requires Sound(s) && Enabled(s, Enter(req, c)) && Alone(s, req)
    ensures Sound(Submitting(s, req, c, Some(e)))
    ensures Abstract(Submitting(s, req, c, Some(e))) == Submitted(Abstract(s), req, Some(e))
  {
    AcquiringRefines(s, req, c);
    AcquiredClaim(s, req, c);
    CancelOut(Pending(s), req);
    FailureRefines(Acquiring(s, req, c), Acquired(s, c), e, Abstract(s), req);
  }

  lemma SubmittingRefines(s: Instance, req: Req, c: Ctx, err: Option<nat>)
    requires Sound(s) && Enabled(s, Enter(req, c)) && Alone(s, req)
    ensures Sound(Submitting(s, req, c, err))
    ensures Abstract(Submitting(s, req, c, err)) == Submitted(Abstract(s), req, err)
  {
    if err.None? { ArmingRefines(s, req, c); } else { FailingRefines(s, req, c, err.value); }
  }

  lemma AcquiringPool(s: Instance, req: Req, c: Ctx)
    requires PoolOk(s.pool) && Enabled(s, Enter(req, c))
    ensures PoolOk(Acquiring(s, req, c).pool)
  {
    var d := Acquired(s, c);
    PoolKeeps(s.pool, c, req);
    var entered := AcceptReq(s, req, c);
    PoolKeeps(entered.pool, d, req);
    if s.pool.free == [] { PoolKeeps(Next(entered, Recorded(d)).pool, d, req); }
  }

  /** The pool stays in order even where the operation of another caller is overwritten. */
  lemma SubmittingPool(s: Instance, req: Req, c: Ctx, err: Option<nat>)
    requires PoolOk(s.pool) && Enabled(s, Enter(req, c))
    ensures PoolOk(Submitting(s, req, c, err).pool)
  {
    AcquiringPool(s, req, c);
    AcquiredClaim(s, req, c);
    var filled, d := Acquiring(s, req, c), Acquired(s, c);
    PoolKeeps(filled.pool, d, req);
    PoolKeeps(Leave(filled.pool, d), d, req);
  }

  /** A submission does not touch the contexts that other operations occupy. */
  lemma SubmittingKeeps(s: Instance, req: Req, c: Ctx, err: Option<nat>, x: Ctx)
    requires Sound(s) && Enabled(s, Enter(req, c)) && x in s.pool.content && Out(s.pool, x)
    ensures var t := Submitting(s, req, c, err);
            && x in t.pool.content && t.pool.content[x] == s.pool.content[x] && x !in t.pool.entering
            && t.batch == s.batch && t.inCall == s.inCall
  {
    InPool(s, Acquired(s, c));
  }

  // ---- The event loop, event by event ----

  lemma HandleRefines(s: Instance, res: int)
    requires Sound(s) && Enabled(s, Handle(res)) && s.running
    ensures var t, q := Next(s, Handle(res)), Held(s, s.batch[0]);
            && Sound(t) && Abstract(t) == Answered(Abstract(s), q, res)
            && t.inCall == Some(s.batch[0]) && t.batch == s.batch[1..] && t.pool == s.pool
  {
    DisciplineKept(s, Handle(res));
  }

  lemma DropRefines(s: Instance, res: int)
    requires Sound(s) && Enabled(s, Handle(res)) && !s.running
    ensures var t, q := Next(s, Handle(res)), Held(s, s.batch[0]);
            && Sound(t) && Abstract(t) == Dropped(Abstract(s), q)
            && t.inCall == s.inCall && t.batch == s.batch[1..] && t.pool == Pool.Release(s.pool, s.batch[0])
  {
    DisciplineKept(s, Handle(res));
  }

  lemma ReturnRefines(s: Instance)
    requires Sound(s) && Enabled(s, Event.Return)
    ensures Sound(Next(s, Event.Return)) && Abstract(Next(s, Event.Return)) == Abstract(s)
  {
    DisciplineKept(s, Event.Return);
  }

  lemma BatchKept(s: Instance, req: Req, c: Ctx, err: Option<nat>)
    requires Sound(s) && Enabled(s, Enter(req, c))
    ensures var t := Submitting(s, req, c, err);
            && t.batch == s.batch
            && forall x :: x in s.batch ==>
                 && x in s.pool.content && x in t.pool.content && t.pool.content[x] == s.pool.content[x]
                 && x !in t.pool.entering
  {
    forall x | x in s.batch
      ensures var t := Submitting(s, req, c, err);
              x in t.pool.content && t.pool.content[x] == s.pool.content[x] && x !in t.pool.entering
    {
      SpotMeaning(s, x);
      OneSpot(s, x, Reported);
      SubmittingKeeps(s, req, c, err, x);
    }
  }

  /** The kernel's wish, within what the operation allows. */
  function Bounded(op: Request, wish: int): (res: int)
    ensures Answers(op, res) && (Answers(op, wish) ==> res == wish)
  {
    match op.event
    case Accept => wish
    case Connect => if wish <= 0 then wish else 0
    case _ => if wish <= op.len then wish else op.len
  }

  /** What a round makes of the events on these descriptors: the kernel wishes to answer `wishes`, the
      callbacks submit `nexts`, and epoll_ctl fails for those with an error in `errs`. */
  ghost function Happenings(s: Instance, fds: seq<int>, wishes: seq<int>, nexts: seq<Option<Req>>,
                            errs: seq<Option<nat>>)
    : (es: seq<Handled>)
    requires Loaded(s) && forall i :: 0 <= i < |fds| ==> fds[i] in s.armed
    requires |fds| == |wishes| == |nexts| == |errs|
    ensures |es| == |fds| && Planned(es, wishes, nexts, errs)
    ensures forall i :: 0 <= i < |fds| ==> es[i].q == OperationOn(s, fds[i])
  {
    seq(|fds|, i requires 0 <= i < |fds| =>
      var q := OperationOn(s, fds[i]);
      Handled(q, Bounded(q.op, wishes[i]), nexts[i], errs[i]))
  }

  ghost predicate Planned(es: seq<Handled>, wishes: seq<int>, nexts: seq<Option<Req>>, errs: seq<Option<nat>>) {
    && |es| == |wishes| == |nexts| == |errs|
    && forall i :: 0 <= i < |es| ==> es[i] == Handled(es[i].q, Bounded(es[i].q.op, wishes[i]), nexts[i], errs[i])
  }

  ghost function OperationOn(s: Instance, fd: int): (q: Req)
    requires Loaded(s) && fd in s.armed
    ensures q.op.fd == fd && s.pool.content[s.armed[fd]] == Content(q.op, Some(q.id))
  {
    Req(s.pool.content[s.armed[fd]].cb.value, s.pool.content[s.armed[fd]].op)
  }

  lemma WaitRefines(s: Instance, fds: seq<int>)
    requires Sound(s) && Enabled(s, Event.Wait(fds))
    ensures Sound(Next(s, Event.Wait(fds))) && Abstract(Next(s, Event.Wait(fds))) == Abstract(s)
    ensures forall i :: 0 <= i < |fds| ==> s.armed[fds[i]] !in s.pool.entering
  {
    DisciplineKept(s, Event.Wait(fds));
    forall i | 0 <= i < |fds| ensures s.armed[fds[i]] !in s.pool.entering {
      var fd := fds[i];
      assert fd in s.armed && Armed(s, s.armed[fd]);
      SpotMeaning(s, s.armed[fds[i]]);
      OneSpot(s, s.armed[fds[i]], AtKernel);
    }
  }

  /** epoll_io_context */
  class Context {
    const id: Ctx
    var op: Request
    var cb: Option<nat>

    constructor (id: Ctx, op: Request)
      ensures this.id == id && this.op == op && cb == None
    {
      this.id, this.op, cb := id, op, None;
    }
  }

  class EpollInstance {
    var freelist: seq<Context>
    var allAllocated: seq<Context>
    var interest: map<int, Context>     // the kernel's registrations, data.ptr of each
    var running: bool
    ghost var s: Instance
    ghost var objects: map<Ctx, Context>
    var nextId: Ctx                     // names for new contexts

    ghost predicate Lists(cs: seq<Context>, ids: seq<Ctx>)
      reads this
    {
      |cs| == |ids| && forall i :: 0 <= i < |ids| ==> ids[i] in objects && cs[i] == objects[ids[i]]
    }

    /** The model state is what the objects and lists say. */
    ghost predicate Mirrors()
      reads this, objects.Values
    {
      && objects.Keys == s.pool.made && (forall c :: c in objects ==> objects[c].id == c)
      && s.pool.content.Keys == s.pool.made
      && (forall c :: c in objects ==> s.pool.content[c] == Content(objects[c].op, objects[c].cb))
      && Lists(freelist, s.pool.free) && Lists(allAllocated, s.pool.all)
      && interest.Keys == s.armed.Keys
      && (forall fd :: fd in s.armed ==> s.armed[fd] in objects && interest[fd] == objects[s.armed[fd]])
      && running == s.running && (forall c :: c in objects ==> c < nextId)
    }

    ghost predicate Valid()
      reads this, objects.Values
    {
      Mirrors() && Sound(s)
    }

    constructor ()
      ensures Valid() && s == NEW_INSTANCE
    {
      freelist, allAllocated, interest, running, s, objects, nextId := [], [], map[], true, NEW_INSTANCE, map[], 0;
      new;
      FreshGood();
    }

    /** acquire(), first part: the last free context. */
    method TakeFree(req: Req) returns (ctx: Context)
      requires Mirrors() && freelist != [] && PoolOk(s.pool)
      modifies this`freelist, this`s
      ensures Mirrors() && s == AcceptReq(old(s), req, nextId)
      ensures ctx.id == Acquired(old(s), nextId) && ctx.id in objects && objects[ctx.id] == ctx
    {
      ctx := freelist[|freelist| - 1];
      freelist := freelist[..|freelist| - 1];
      s := AcceptReq(s, req, nextId);
    }

    /** acquire(), when nothing is free: a new context, listed among all allocated ones. */
    method AllocateNew(req: Req) returns (ctx: Context)
      requires Mirrors() && freelist == []
      modifies this`allAllocated, this`s, this`objects, this`nextId
      ensures Mirrors() && ctx.id == old(nextId) && fresh(ctx) && ctx.id !in old(objects)
      ensures objects == old(objects)[ctx.id := ctx]
      ensures s == Next(AcceptReq(old(s), req, old(nextId)), Recorded(old(nextId)))
    {
      ctx := new Context(nextId, req.op);
      objects := objects[nextId := ctx];
      allAllocated := allAllocated + [ctx];
      s := Next(AcceptReq(s, req, nextId), Recorded(nextId));
      nextId := nextId + 1;
    }

    /** acquire(), last part: the fields are overwritten, outside the lock. */
    method FillContext(ctx: Context, req: Req)
      requires Mirrors() && ctx.id in objects && objects[ctx.id] == ctx
      requires ctx.id in s.pool.entering && s.pool.entering[ctx.id] == Claim(req, Got)
      modifies this`s, ctx`op, ctx`cb
      ensures Mirrors() && s == Next(old(s), Filling(ctx.id))
    {
      ctx.op := req.op;
      ctx.cb := Some(req.id);
      s := Next(s, Filling(ctx.id));
    }

    method Acquire(req: Req) returns (ctx: Context)
      requires Mirrors() && Enabled(s, Enter(req, nextId)) && PoolOk(s.pool)
      modifies this`freelist, this`allAllocated, this`s, this`objects, this`nextId, objects.Values
      ensures Mirrors() && s == Acquiring(old(s), req, old(nextId))
      ensures ctx.id == Acquired(old(s), old(nextId)) && ctx.id in objects && objects[ctx.id] == ctx
      ensures objects == old(objects)
              || (fresh(ctx) && ctx.id !in old(objects) && objects == old(objects)[ctx.id := ctx])
    {
      assert freelist == [] <==> s.pool.free == [];
      AcquiringStages(s, req, nextId);
      if freelist != [] {
        ctx := TakeFree(req);
      } else {
        ctx := AllocateNew(req);
      }
      FillContext(ctx, req);
    }

    /** release(): forget the callback, push the context to the free list. */
    method Release(ctx: Context)
      requires Mirrors() && ctx.id in objects && objects[ctx.id] == ctx
      modifies this`freelist, this`s, ctx`cb
      ensures Mirrors() && s == old(s).(pool := Pool.Release(old(s.pool), ctx.id))
    {
      ctx.cb := None;
      freelist := freelist + [ctx];
      s := s.(pool := Pool.Release(s.pool, ctx.id));
    }

    /** EPOLL_CTL_MOD or EPOLL_CTL_ADD has succeeded: whatever context was registered for the
        descriptor, this one takes its place. */
    method Arm(ctx: Context)
      requires Mirrors() && ctx.id in objects && objects[ctx.id] == ctx
      modifies this`interest, this`s
      ensures Mirrors() && s == ArmCtx(old(s), ctx.id) && interest == old(interest)[ctx.op.fd := ctx]
    {
      interest := interest[ctx.op.fd := ctx];
      s := ArmCtx(s, ctx.id);
    }

    /** Both have failed: the callback runs inside async_io, then the context is released. */
    method FailNow(ctx: Context, err: nat)
      requires Mirrors() && ctx.id in objects && objects[ctx.id] == ctx && ctx.id in s.pool.entering
      modifies this`freelist, this`s, ctx`cb
      ensures Mirrors() && s == Next(FailCtx(old(s), ctx.id, err), FailureDone(ctx.id))
    {
      s := FailCtx(s, ctx.id, err);   // ctx->cb(-errno)
      Release(ctx);
      s := s.(failing := s.failing - {ctx.id});
    }

    method Submit(req: Req, err: Option<nat>)
      requires Mirrors() && PoolOk(s.pool) && Enabled(s, Enter(req, nextId))
      modifies this`freelist, this`allAllocated, this`interest, this`s, this`objects, this`nextId, objects.Values
      ensures Mirrors() && s == Submitting(old(s), req, old(nextId), err)
      ensures objects == old(objects) || exists ctx: Context ::
                fresh(ctx) && ctx.id !in old(objects) && objects == old(objects)[ctx.id := ctx]
    {
      var ctx := Acquire(req);
      if err.None? { Arm(ctx); } else { FailNow(ctx, err.value); }
    }

    /** async_io(): nothing once stopped; otherwise acquire, then register, whatever else is pending.
        It implements the service when no other operation is pending on the descriptor. */
    method AsyncIo(req: Req, err: Option<nat>)
      requires Mirrors() && PoolOk(s.pool) && (running ==> req.id !in s.accepted)
      modifies this, objects.Values
      ensures Mirrors() && PoolOk(s.pool) && running == old(running)
      ensures s == if running then Submitting(old(s), req, old(nextId), err) else old(s)
      ensures old(Valid()) && (running ==> old(Alone(s, req))) ==>
                Valid() && Abstract(s) == if running then Submitted(old(Abstract(s)), req, err) else old(Abstract(s))
    {
      if !running { return; }
      SubmittingPool(s, req, nextId, err);
      if Valid() && Alone(s, req) { SubmittingRefines(s, req, nextId, err); }
      Submit(req, err);
    }

    /** do_io(): the kernel answers within what the operation allows. */
    method DoIo(ctx: Context, wish: int) returns (res: int)
      ensures res == Bounded(ctx.op, wish)
    {
      match ctx.op.event
      case Recv => return if wish <= ctx.op.len then wish else ctx.op.len;
      case Send => return if wish <= ctx.op.len then wish else ctx.op.len;
      case Accept => return wish;
      case Connect => return if wish <= 0 then wish else 0;
    }

    /** The context whose callback is running. */
    ghost predicate Executing(ctx: Context)
      reads this, ctx
    {
      s.inCall == Some(ctx.id) && ctx.id in objects && objects[ctx.id] == ctx
    }

    /** From event `from` on, the events still to come are as `es` says. */
    ghost predicate Waiting(events: seq<Context>, es: seq<Handled>, from: nat)
      reads this, objects.Values, events
    {
      && |events| == |es| && |s.batch| + from == |events|
      && forall i :: from <= i < |events| ==> Carrying(events[i], s.batch[i - from], es[i].q)
    }

    ghost predicate Carrying(ctx: Context, c: Ctx, q: Req)
      reads this, ctx
    {
      c in objects && objects[c] == ctx && c !in s.pool.entering
      && c in s.pool.content && s.pool.content[c] == Content(q.op, Some(q.id))
    }

    /** async_io from inside the callback of `ctx`: neither its fields nor those of the events
        still to come are touched. */
    method SubmitInCallback(ctx: Context, next: Req, err: Option<nat>,
                            ghost events: seq<Context>, ghost es: seq<Handled>, ghost from: nat)
      requires Valid() && running && Executing(ctx) && next.id !in s.accepted && Alone(s, next)
      requires Waiting(events, es, from)
      modifies this`freelist, this`allAllocated, this`interest, this`s, this`objects, this`nextId, objects.Values
      ensures Valid() && running && Executing(ctx) && Waiting(events, es, from)
      ensures forall c :: c in objects ==> fresh(objects[c]) || (c in old(objects) && objects[c] == old(objects)[c])
      ensures Abstract(s) == Submitted(old(Abstract(s)), next, err)
    {
      SpotMeaning(s, ctx.id);
      OneSpot(s, ctx.id, InCallback);
      SubmittingRefines(s, next, nextId, err);
      SubmittingKeeps(s, next, nextId, err, ctx.id);
      BatchKept(s, next, nextId, err);
      Submit(next, err);
    }

    method Returned(ctx: Context)
      requires Mirrors() && Executing(ctx)
      modifies this`freelist, this`s, ctx`cb
      ensures Mirrors() && s == old(s).(pool := Pool.Release(old(s.pool), ctx.id), inCall := None)
    {
      Release(ctx);
      s := s.(inCall := None);
    }

    /** The callback has returned: the context is free. */
    method Finish(ctx: Context, ghost events: seq<Context>, ghost es: seq<Handled>, ghost from: nat)
      requires Valid() && Executing(ctx) && Waiting(events, es, from)
      modifies this`freelist, this`s, ctx`cb
      ensures Valid() && s.inCall.None? && Waiting(events, es, from)
      ensures running == old(running) && Abstract(s) == old(Abstract(s))
    {
      SpotMeaning(s, ctx.id);
      OneSpot(s, ctx.id, InCallback);
      ReturnRefines(s);
      Returned(ctx);
    }

    /** The loop takes event `i` and calls back; the operation is over. */
    method CallBack(ctx: Context, res: int, ghost events: seq<Context>, ghost es: seq<Handled>, ghost i: nat)
      requires Valid() && running && s.inCall.None? && Waiting(events, es, i) && i < |events| && events[i] == ctx
      requires Answers(es[i].q.op, res)
      modifies this`s
      ensures Valid() && running && Executing(ctx) && Waiting(events, es, i + 1)
      ensures Abstract(s) == Answered(old(Abstract(s)), es[i].q, res)
    {
      assert Carrying(events[i], s.batch[0], es[i].q);
      HandleRefines(s, res);
      s := Next(s, Handle(res));
    }

    /** ctx->cb(res), then the context is free. */
    method Deliver(ctx: Context, res: int, ghost events: seq<Context>, ghost es: seq<Handled>, ghost i: nat)
      requires Valid() && running && s.inCall.None? && Waiting(events, es, i) && i < |events| && events[i] == ctx
      requires Answers(es[i].q.op, res)
      modifies this`freelist, this`s, ctx`cb
      ensures Valid() && running && s.inCall.None? && Waiting(events, es, i + 1)
      ensures Abstract(s) == Answered(old(Abstract(s)), es[i].q, res)
    {
      CallBack(ctx, res, events, es, i);
      Finish(ctx, events, es, i + 1);
    }

    /** The callback submits the next operation and returns. */
    method SubmitAndFinish(ctx: Context, next: Req, err: Option<nat>,
                           ghost events: seq<Context>, ghost es: seq<Handled>, ghost from: nat)
      requires Valid() && running && Executing(ctx) && next.id !in s.accepted && Alone(s, next)
      requires Waiting(events, es, from)
      modifies this`freelist, this`allAllocated, this`interest, this`s, this`objects, this`nextId, objects.Values
      ensures Valid() && running && s.inCall.None? && Waiting(events, es, from)
      ensures Abstract(s) == Submitted(old(Abstract(s)), next, err)
      ensures forall c :: c in objects ==> fresh(objects[c]) || (c in old(objects) && objects[c] == old(objects)[c])
    {
      SubmitInCallback(ctx, next, err, events, es, from);
      Finish(ctx, events, es, from);
    }

    /** ctx->cb(res), which submits the next operation, on its own or on another descriptor without
        an operation; epoll_ctl may fail for it. */
    method DeliverAndSubmit(ctx: Context, res: int, next: Req, err: Option<nat>,
                            ghost events: seq<Context>, ghost es: seq<Handled>, ghost i: nat)
      requires Valid() && running && s.inCall.None? && Waiting(events, es, i) && i < |events| && events[i] == ctx
      requires Answers(es[i].q.op, res)
      requires next.id !in s.accepted && Unused(Pending(s) - {es[i].q}, next.op.fd)
      modifies this`freelist, this`allAllocated, this`interest, this`s, this`objects, this`nextId, objects.Values
      ensures Valid() && running && s.inCall.None? && Waiting(events, es, i + 1)
      ensures Abstract(s) == Submitted(Answered(old(Abstract(s)), es[i].q, res), next, err)
      ensures forall c :: c in objects ==> fresh(objects[c]) || (c in old(objects) && objects[c] == old(objects)[c])
    {
      CallBack(ctx, res, events, es, i);
      assert Abstract(s).pending == Pending(s);
      SubmitAndFinish(ctx, next, err, events, es, i + 1);
    }

    /** The next event's context goes straight to the free list. */
    method ReleaseNext(ctx: Context)
      requires Mirrors() && !running && s.batch != [] && ctx.id == s.batch[0] && ctx.id in objects
               && objects[ctx.id] == ctx
      requires ctx.cb.Some?
      modifies this`freelist, this`s, ctx`cb
      ensures Mirrors() && s == HandleNext(old(s), 0)
    {
      ghost var t := HandleNext(s, 0);
      Release(ctx);
      s := t;
    }

    /** After stop(): the context is freed, its callback never runs. */
    method Discard(ctx: Context, ghost events: seq<Context>, ghost es: seq<Handled>, ghost i: nat)
      requires Valid() && !running && s.inCall.None? && Waiting(events, es, i) && i < |events| && events[i] == ctx
      modifies this`freelist, this`s, ctx`cb
      ensures Valid() && !running && s.inCall.None? && Waiting(events, es, i + 1)
      ensures Abstract(s) == Dropped(old(Abstract(s)), es[i].q)
    {
      assert Carrying(events[i], s.batch[0], es[i].q);
      DropRefines(s, 0);
      ReleaseNext(ctx);
    }

    method Poll(fds: seq<int>) returns (events: seq<Context>)
      requires Mirrors() && Enabled(s, Event.Wait(fds))
      modifies this`interest, this`s
      ensures Mirrors() && s == Next(old(s), Event.Wait(fds)) && |events| == |fds|
      ensures forall i :: 0 <= i < |fds| ==>
                fds[i] in old(s).armed && old(s).armed[fds[i]] in objects && events[i] == objects[old(s).armed[fds[i]]]
    {
      var was := interest;
      events := seq(|fds|, i requires 0 <= i < |fds| && fds[i] in was => was[fds[i]]);
      interest := interest - (set i | 0 <= i < |fds| :: fds[i]);
      s := Next(s, Event.Wait(fds));
    }

    /** epoll_wait(): the reported descriptors are disarmed, their contexts come back. */
    method Wait(fds: seq<int>, ghost es: seq<Handled>) returns (events: seq<Context>)
      requires Valid() && Enabled(s, Event.Wait(fds)) && |es| == |fds|
      requires forall i :: 0 <= i < |fds| ==> es[i].q == OperationOn(s, fds[i])
      modifies this`interest, this`s
      ensures Valid() && running == old(running) && s.inCall.None?
      ensures |events| == |fds| && Waiting(events, es, 0)
      ensures Abstract(s) == old(Abstract(s))
    {
      WaitRefines(s, fds);
      events := Poll(fds);
    }

    /** stop(), by another thread. */
    method Stop()
      requires Valid()
      modifies this`running, this`s
      ensures Valid() && !running && s == old(s).(running := false)
      ensures Abstract(s) == old(Abstract(s)).(running := false)
    {
      DisciplineKept(s, Event.Stop);
      running := false;
      s := s.(running := false);
    }

    /** Event `i` of a round. */
    method OneEvent(ctx: Context, wish: int, next: Option<Req>, err: Option<nat>,
                    ghost events: seq<Context>, ghost es: seq<Handled>, ghost i: nat)
      requires Valid() && s.inCall.None? && Waiting(events, es, i) && i < |events| && events[i] == ctx
      requires es[i] == Handled(es[i].q, Bounded(es[i].q.op, wish), next, err)
      requires next.Some? ==> next.value.id !in s.accepted
      requires OrderlyAt(Abstract(s), es[i], false)
      modifies this`freelist, this`allAllocated, this`interest, this`s, this`objects, this`nextId, objects.Values
      ensures Valid() && s.inCall.None? && Waiting(events, es, i + 1)
      ensures Abstract(s) == Turn(old(Abstract(s)), es[i])
      ensures forall x :: x in objects.Values ==> x in old(objects.Values) || fresh(x)
    {
      if running {
        assert Carrying(ctx, s.batch[0], es[i].q);
        var res := DoIo(ctx, wish);
        if next.Some? {
          DeliverAndSubmit(ctx, res, next.value, err, events, es, i);
        } else {
          Deliver(ctx, res, events, es, i);
        }
      } else {
        Discard(ctx, events, es, i);
      }
    }

    method StopOrServe(ctx: Context, wish: int, next: Option<Req>, err: Option<nat>, stop: bool,
                       ghost events: seq<Context>, ghost es: seq<Handled>, ghost i: nat)
      requires Valid() && s.inCall.None? && Waiting(events, es, i) && i < |events| && events[i] == ctx
      requires es[i] == Handled(es[i].q, Bounded(es[i].q.op, wish), next, err)
      requires next.Some? ==> next.value.id !in s.accepted
      requires OrderlyAt(Abstract(s), es[i], stop)
      modifies this, objects.Values
      ensures Valid() && s.inCall.None? && Waiting(events, es, i + 1)
      ensures Abstract(s) == TurnAt(old(Abstract(s)), es[i], stop)
      ensures forall x :: x in objects.Values ==> x in old(objects.Values) || fresh(x)
    {
      if stop { Stop(); }
      OneEvent(ctx, wish, next, err, events, es, i);
    }

    /** Event `i` of a round that started with the service at `start`. */
    method ServeNext(events: seq<Context>, wishes: seq<int>, nexts: seq<Option<Req>>, errs: seq<Option<nat>>,
                     stopAt: nat, i: nat, ghost es: seq<Handled>, ghost start: Service)
      requires Valid() && s.inCall.None? && Waiting(events, es, i) && i < |events|
      requires Planned(es, wishes, nexts, errs) && NewIds(nexts, s.accepted, i) && Orderly(start, es, stopAt)
      requires SoFar(start, Abstract(s), es, stopAt, i)
      modifies this, objects.Values
      ensures Valid() && s.inCall.None? && Waiting(events, es, i + 1)
      ensures SoFar(start, Abstract(s), es, stopAt, i + 1) && NewIds(nexts, s.accepted, i + 1)
      ensures forall x :: x in objects.Values ==> x in old(objects.Values) || fresh(x)
    {
      ghost var a := Abstract(s);
      OrderlyNow(start, a, es, stopAt, i);
      StopOrServe(events[i], wishes[i], nexts[i], errs[i], i == stopAt, events, es, i);
      OneFurther(start, a, Abstract(s), es, stopAt, i);
      StillNew(nexts, a, es[i], i == stopAt, i);
    }

    /** Events in order; the callbacks may submit `nexts`, and another thread may call stop() before
        event `stopAt`. */
    method Serve(events: seq<Context>, wishes: seq<int>, nexts: seq<Option<Req>>, errs: seq<Option<nat>>, stopAt: nat,
                 ghost es: seq<Handled>)
      requires Valid() && s.inCall.None? && Waiting(events, es, 0)
      requires Planned(es, wishes, nexts, errs) && NewIds(nexts, s.accepted, 0) && Orderly(Abstract(s), es, stopAt)
      modifies this, objects.Values
      ensures Valid() && s.batch == [] && s.inCall.None?
      ensures Abstract(s) == After(old(Abstract(s)), es, stopAt)
    {
      ghost var start := Abstract(s);
      var i := 0;
      while i < |events|
        invariant 0 <= i <= |events| && Valid() && s.inCall.None? && Waiting(events, es, i)
        invariant SoFar(start, Abstract(s), es, stopAt, i) && NewIds(nexts, s.accepted, i)
        invariant forall x :: x in objects.Values ==> x in old(objects.Values) || fresh(x)
      {
        ServeNext(events, wishes, nexts, errs, stopAt, i, es, start);
        i := i + 1;
      }
      AllHandled(start, Abstract(s), es, stopAt);
    }

    /** One round of event_loop: every reported event is served, in order, once. */
    method Round(fds: seq<int>, wishes: seq<int>, nexts: seq<Option<Req>>, errs: seq<Option<nat>>, stopAt: nat)
      requires Valid() && running && Enabled(s, Event.Wait(fds)) && |fds| == |wishes| == |nexts| == |errs|
      requires NewIds(nexts, s.accepted, 0)
      requires Orderly(Abstract(s), Happenings(s, fds, wishes, nexts, errs), stopAt)
      modifies this, objects.Values
      ensures Valid() && s.batch == [] && s.inCall.None?
      ensures Abstract(s) == After(old(Abstract(s)), Happenings(old(s), fds, wishes, nexts, errs), stopAt)
    {
      ghost var es := Happenings(s, fds, wishes, nexts, errs);
      var events := Wait(fds, es);
      Serve(events, wishes, nexts, errs, stopAt, es);
    }
  }
}
