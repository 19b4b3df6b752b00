/** One uring_instance's own code: its context pool, async_io with the retry on a full submission
    queue, and one round of the completion loop. Every method composes steps of the instance. */
module UringCode {
  import opened Lists
  import opened Program
  import opened AsyncIo
  import opened Pool
  import opened Uring
  import opened UringProofs
  import opened Rounds

  /** acquire_ctx and the filling of the context, as one thread sees it. */
  ghost function Acquiring(s: Instance, req: Req, c: Ctx): Instance
    requires Enabled(s, Enter(req, c))
  {
    var entered := AcceptReq(s, req, c);
    if s.pool.free != [] then Next(entered, Filling(Acquired(s, c)))
    else Next(Next(entered, Recorded(c)), Filling(c))
  }

  /** A context being prepared for `req`: nobody outside the pool can tell how far it is. */
  lemma PreparingRefines(s: Instance, e: Event)
    requires Good(s) && Enabled(s, e) && (e.Recorded? || e.Filling?)
    ensures Good(Next(s, e)) && Abstract(Next(s, e)) == Abstract(s)
  {
    StepRefines(s, e);
  }

  lemma EnteringRefines(s: Instance, req: Req, c: Ctx)
    requires Good(s) && Enabled(s, Enter(req, c))
    ensures Good(AcceptReq(s, req, c))
    ensures Abstract(AcceptReq(s, req, c)) == Entered(Abstract(s), req)
  {
    StepRefines(s, Enter(req, c));
  }

  ghost function Entered(a: Service, req: Req): Service {
    a.(accepted := a.accepted + {req.id}, pending := a.pending + {req})
  }

  lemma AcquiringRefines(s: Instance, req: Req, c: Ctx)
    requires Good(s) && Enabled(s, Enter(req, c))
    ensures Good(Acquiring(s, req, c)) && Abstract(Acquiring(s, req, c)) == Entered(Abstract(s), req)
  {
    var entered := AcceptReq(s, req, c);
    EnteringRefines(s, req, c);
    if s.pool.free != [] {
      PreparingRefines(entered, Filling(Acquired(s, c)));
    } else {
      PreparingRefines(entered, Recorded(c));
      PreparingRefines(Next(entered, Recorded(c)), Filling(c));
    }
  }

  // ---- async_io ----

  /** The kernel's polling thread may make room while a full submission queue is submitted again. */
  predicate Room(s: Instance, makesRoom: bool) {
    |s.sq| < QUEUE_DEPTH || (makesRoom && |s.sq| == QUEUE_DEPTH)
  }

  /** async_io as one thread sees it, sq_mutex_ being free. */
  ghost function Submitting(s: Instance, req: Req, c: Ctx, makesRoom: bool): Instance
    requires Enabled(s, Enter(req, c))
  {
    var filled, d := Acquiring(s, req, c), Acquired(s, c);
    if |s.sq| < QUEUE_DEPTH then QueueCtx(filled, d)
    else if Room(s, makesRoom) then QueueCtx(TakeEntry(filled), d)
    else Next(RefuseCtx(filled, d), RefusalDone)
  }

  lemma AcquiredClaim(s: Instance, req: Req, c: Ctx)
    requires Enabled(s, Enter(req, c))
    ensures var filled, d := Acquiring(s, req, c), Acquired(s, c);
            && d in filled.pool.entering && filled.pool.entering[d] == Claim(req, Stage.Filled)
            && d in filled.pool.content
            && filled.sq == s.sq && filled.refusing == s.refusing
  {
  }

  lemma QueueingRefines(s: Instance, c: Ctx)
    requires Good(s) && Enabled(s, Queue(c))
    ensures Good(QueueCtx(s, c)) && Abstract(QueueCtx(s, c)) == Abstract(s)
  {
    StepRefines(s, Queue(c));
  }

  lemma TakingRefines(s: Instance)
    requires Good(s) && s.sq != []
    ensures Good(TakeEntry(s)) && Abstract(TakeEntry(s)) == Abstract(s)
  {
    StepRefines(s, KernelTakes);
  }

  lemma RefusingCalls(s: Instance, c: Ctx)
    requires Good(s) && Enabled(s, Refuse(c))
    ensures var t := RefuseCtx(s, c);
            && Good(t) && Enabled(t, RefusalDone) && t.refusing == Some(c)
            && Abstract(t) == Answered(Abstract(s), s.pool.entering[c].req, 0 - ENOMEM)
  {
    StepRefines(s, Refuse(c));
  }

  lemma RefusalEnds(t: Instance)
    requires Good(t) && Enabled(t, RefusalDone)
    ensures Good(Next(t, RefusalDone)) && Abstract(Next(t, RefusalDone)) == Abstract(t)
  {
    StepRefines(t, RefusalDone);
  }

  lemma FreshRequest(pending: set<Req>, req: Req)
    requires forall q :: q in pending ==> q.id != req.id
    ensures pending + {req} - {req} == pending
  {
  }

  lemma RefusingRefines(s: Instance, c: Ctx, a: Service, req: Req)
    requires Good(s) && Enabled(s, Refuse(c)) && s.pool.entering[c].req == req
    requires Abstract(s) == Entered(a, req) && a.pending + {req} - {req} == a.pending
    ensures Good(Next(RefuseCtx(s, c), RefusalDone))
    ensures Abstract(Next(RefuseCtx(s, c), RefusalDone)) == Submitted(a, req, Some(ENOMEM))
  {
    AnsweredAtOnce(a, Abstract(s), req, ENOMEM);
    RefusingCalls(s, c);
    RefusalEnds(RefuseCtx(s, c));
  }

  lemma QueuedRefines(s: Instance, req: Req, c: Ctx, makesRoom: bool)
    requires Good(s) && Enabled(s, Enter(req, c)) && s.refusing.None? && Room(s, makesRoom)
    ensures Good(Submitting(s, req, c, makesRoom))
    ensures Abstract(Submitting(s, req, c, makesRoom)) == Submitted(Abstract(s), req, None)
  {
    var filled, d := Acquiring(s, req, c), Acquired(s, c);
    AcquiringRefines(s, req, c);
    AcquiredClaim(s, req, c);
    if |s.sq| < QUEUE_DEPTH {
      QueueingRefines(filled, d);
    } else {
      TakingRefines(filled);
      QueueingRefines(TakeEntry(filled), d);
    }
  }

  lemma RefusedRefines(s: Instance, req: Req, c: Ctx)
    requires Good(s) && Enabled(s, Enter(req, c)) && s.refusing.None? && !Room(s, false)
    ensures Good(Next(RefuseCtx(Acquiring(s, req, c), Acquired(s, c)), RefusalDone))
    ensures Abstract(Next(RefuseCtx(Acquiring(s, req, c), Acquired(s, c)), RefusalDone))
            == Submitted(Abstract(s), req, Some(ENOMEM))
  {
    AcquiringRefines(s, req, c);
    AcquiredClaim(s, req, c);
    FreshRequest(Pending(s), req);
    RefusingRefines(Acquiring(s, req, c), Acquired(s, c), Abstract(s), req);
  }

  /** async_io: the operation is pending afterwards, or, without room in the queue, it was called
      back with -ENOMEM. */
  lemma SubmittingRefines(s: Instance, req: Req, c: Ctx, makesRoom: bool)
    requires Good(s) && Enabled(s, Enter(req, c)) && s.refusing.None?
    ensures Good(Submitting(s, req, c, makesRoom))
    ensures Abstract(Submitting(s, req, c, makesRoom))
            == Submitted(Abstract(s), req, if Room(s, makesRoom) then None else Some(ENOMEM))
  {
    if Room(s, makesRoom) { QueuedRefines(s, req, c, makesRoom); } else { RefusedRefines(s, req, c); }
  }

  // ---- The completion loop ----

  lemma HandlingRefines(s: Instance)
    requires Good(s) && Enabled(s, Event.Handle) && s.running
    ensures Live(s, s.cq[0]) && Good(HandleNext(s))
    ensures Abstract(HandleNext(s)) == Answered(Abstract(s), Held(s, s.cq[0]), s.answer[s.cq[0]])
    ensures HandleNext(s).inCall == Some(s.cq[0]) && HandleNext(s).pool == s.pool
  {
    assert Live(s, s.cq[0]);
    StepRefines(s, Event.Handle);
  }

  lemma DroppingRefines(s: Instance)
    requires Good(s) && Enabled(s, Event.Handle) && !s.running
    ensures Live(s, s.cq[0]) && Good(HandleNext(s))
    ensures Abstract(HandleNext(s)) == Dropped(Abstract(s), Held(s, s.cq[0]))
    ensures HandleNext(s).pool == Release(s.pool, s.cq[0])
  {
    assert Live(s, s.cq[0]);
    StepRefines(s, Event.Handle);
  }

  lemma ReturnRefines(s: Instance)
    requires Good(s) && Enabled(s, Event.Return)
    ensures Good(Next(s, Event.Return)) && Abstract(Next(s, Event.Return)) == Abstract(s)
  {
    StepRefines(s, Event.Return);
  }

  lemma AdvanceRefines(s: Instance)
    requires Good(s) && s.inCall.None?
    ensures Good(s.(seen := 0)) && Abstract(s.(seen := 0)) == Abstract(s)
  {
    StepRefines(s, Event.Advance);
  }

  /** Completion `c` carries the operation `q` and the answer `res`. */
  ghost predicate Carrying(s: Instance, c: Ctx, q: Req, res: int) {
    && c in s.pool.content && s.pool.content[c] == Content(q.op, Some(q.id)) && c !in s.pool.entering
    && c in s.answer && s.answer[c] == res
  }

  /** From completion `from` on, what the loop has still to see. */
  ghost predicate Waiting(s: Instance, reqs: seq<Req>, answers: seq<int>, from: nat) {
    && |s.cq| + from == |reqs| == |answers|
    && forall j :: 0 <= j < |s.cq| ==> Carrying(s, s.cq[j], reqs[from + j], answers[from + j])
  }

  /** A submission does not touch the contexts that other operations occupy. */
  lemma SubmittingKeeps(s: Instance, req: Req, c: Ctx, makesRoom: bool, x: Ctx)
    requires Partition(s) && Enabled(s, Enter(req, c)) && x in s.pool.content && Out(s.pool, x)
    ensures var t := Submitting(s, req, c, makesRoom);
            x in t.pool.content && t.pool.content[x] == s.pool.content[x] && x !in t.pool.entering
  {
    InPool(s, Acquired(s, c));
  }

  lemma WaitingSubmit(s: Instance, req: Req, c: Ctx, makesRoom: bool, reqs: seq<Req>, answers: seq<int>, from: nat)
    requires Partition(s) && Enabled(s, Enter(req, c)) && s.refusing.None? && Waiting(s, reqs, answers, from)
    ensures Waiting(Submitting(s, req, c, makesRoom), reqs, answers, from)
  {
    var t := Submitting(s, req, c, makesRoom);
    RefusingStays(s, req, c, makesRoom);
    forall j | 0 <= j < |s.cq| ensures Carrying(t, t.cq[j], reqs[from + j], answers[from + j]) {
      var x := s.cq[j];
      assert Carrying(s, x, reqs[from + j], answers[from + j]);
      SpotMeaning(s, x);
      OneSpot(s, x, Completed);
      SubmittingKeeps(s, req, c, makesRoom, x);
    }
  }

  lemma WaitingRelease(s: Instance, t: Instance, x: Ctx, reqs: seq<Req>, answers: seq<int>, from: nat)
    requires Waiting(s, reqs, answers, from) && x in s.pool.content && x !in s.cq
    requires t.pool == Release(s.pool, x) && t.cq == s.cq && t.answer == s.answer
    ensures Waiting(t, reqs, answers, from)
  {
    forall j | 0 <= j < |s.cq| ensures Carrying(t, t.cq[j], reqs[from + j], answers[from + j]) {
      assert Carrying(s, s.cq[j], reqs[from + j], answers[from + j]) && s.cq[j] in s.cq;
    }
  }

  lemma WaitingDrop(s: Instance, reqs: seq<Req>, answers: seq<int>, i: nat)
    requires Distinct(s.cq) && Enabled(s, Event.Handle) && !s.running && Waiting(s, reqs, answers, i)
    ensures Waiting(HandleNext(s), reqs, answers, i + 1)
  {
    var tail := s.(cq := s.cq[1..]);
    forall j | 0 <= j < |tail.cq| ensures Carrying(tail, tail.cq[j], reqs[i + 1 + j], answers[i + 1 + j]) {
      assert Carrying(s, s.cq[j + 1], reqs[i + (j + 1)], answers[i + (j + 1)]);
    }
    WaitingRelease(tail, HandleNext(s), s.cq[0], reqs, answers, i + 1);
  }

  /** The completions `es` were handled as the ring says; only a full queue refuses what they submit. */
  ghost predicate Happened(es: seq<Handled>, reqs: seq<Req>, answers: seq<int>, nexts: seq<Option<Req>>) {
    && |es| <= |reqs| && |es| <= |answers| && |es| <= |nexts|
    && forall j :: 0 <= j < |es| ==>
         && es[j] == Handled(reqs[j], answers[j], nexts[j], es[j].err)
         && (es[j].err == None || es[j].err == Some(ENOMEM))
  }

  /** The operations and results of the completions in the ring. */
  ghost function Requests(s: Instance): seq<Req>
    requires Loaded(s)
  {
    seq(|s.cq|, i requires 0 <= i < |s.cq| => RequestOf(s, s.cq[i]))
  }

  ghost function RequestOf(s: Instance, c: Ctx): Req
    requires Loaded(s) && c in s.cq
  {
    assert Live(s, c);
    Held(s, c)
  }

  ghost function Results(s: Instance): seq<int>
    requires Loaded(s)
  {
    seq(|s.cq|, i requires 0 <= i < |s.cq| => s.answer[s.cq[i]])
  }

  lemma AllWaiting(s: Instance)
    requires Good(s)
    ensures Waiting(s, Requests(s), Results(s), 0)
  {
    forall i | 0 <= i < |s.cq| ensures Carrying(s, s.cq[i], Requests(s)[0 + i], Results(s)[0 + i]) {
      var c := s.cq[i];
      SpotMeaning(s, c);
      OneSpot(s, c, Completed);
      assert Live(s, c);
    }
  }

  lemma StopRefines(s: Instance)
    requires Good(s)
    ensures Good(s.(running := false)) && Abstract(s.(running := false)) == Abstract(s).(running := false)
  {
    StepRefines(s, Event.Stop);
  }

  lemma RefusingStays(s: Instance, req: Req, c: Ctx, makesRoom: bool)
    requires Enabled(s, Enter(req, c)) && s.refusing.None?
    ensures var t := Submitting(s, req, c, makesRoom);
            && t.refusing.None? && t.inCall == s.inCall && t.cq == s.cq && t.seen == s.seen && t.answer == s.answer
            && t.running == s.running
  {
  }

  class UringInstance {
    var freelist: seq<Ctx>
    var allAllocated: seq<Ctx>
    var contexts: map<Ctx, Content>     // op and cb of every context
    var sq: seq<Ctx>                    // the ring's two queues, user_data of each entry
    var cq: seq<Ctx>
    var results: map<Ctx, int>          // cqe->res
    var running: bool
    var nextId: Ctx                     // names for new contexts
    ghost var s: Instance

    ghost predicate Mirrors()
      reads this
    {
      && s.pool.free == freelist && s.pool.all == allAllocated && s.pool.content == contexts
      && s.sq == sq && s.cq == cq && s.answer == results && s.running == running
      && forall c :: c in s.pool.made ==> c < nextId
    }

    ghost predicate Valid()
      reads this
    {
      Mirrors() && Good(s)
    }

    constructor ()
      ensures Valid() && s == NEW_INSTANCE
    {
      freelist, allAllocated, contexts, sq, cq, results, running, nextId := [], [], map[], [], [], map[], true, 0;
      s := NEW_INSTANCE;
      new;
      FreshGood();
    }

    /** acquire_ctx(): the last free context. */
    method TakeFree(req: Req) returns (ctx: Ctx)
      requires Mirrors() && freelist != []
      modifies this`freelist, this`s
      ensures Mirrors() && ctx == Acquired(old(s), nextId) && s == AcceptReq(old(s), req, nextId)
    {
      ctx := freelist[|freelist| - 1];
      freelist := freelist[..|freelist| - 1];
      s := AcceptReq(s, req, nextId);
    }

    /** acquire_ctx(), when nothing is free. */
    method AllocateNew(req: Req) returns (ctx: Ctx)
      requires Mirrors() && freelist == []
      modifies this`contexts, this`allAllocated, this`nextId, this`s
      ensures Mirrors() && ctx == old(nextId) && s == Next(AcceptReq(old(s), req, ctx), Recorded(ctx))
    {
      ctx := nextId;
      contexts := contexts[ctx := Content(req.op, None)];
      allAllocated := allAllocated + [ctx];
      nextId := nextId + 1;
      s := Next(AcceptReq(s, req, ctx), Recorded(ctx));
    }

    /** The context of a new operation: acquired, its fields overwritten. */
    method Prepare(req: Req) returns (ctx: Ctx)
      requires Mirrors() && PoolOk(s.pool) && Enabled(s, Enter(req, nextId))
      modifies this`freelist, this`contexts, this`allAllocated, this`nextId, this`s
      ensures Mirrors() && ctx == Acquired(old(s), old(nextId)) && s == Acquiring(old(s), req, old(nextId))
    {
      if freelist != [] { ctx := TakeFree(req); } else { ctx := AllocateNew(req); }
      contexts := contexts[ctx := Content(req.op, Some(req.id))];
      s := Next(s, Filling(ctx));
    }

    /** release_ctx() */
    method ReleaseCtx(ctx: Ctx)
      requires Mirrors() && ctx in contexts
      modifies this`freelist, this`contexts, this`s
      ensures Mirrors() && s == old(s).(pool := Release(old(s.pool), ctx))
    {
      contexts := contexts[ctx := contexts[ctx].(cb := None)];
      freelist := freelist + [ctx];
      s := s.(pool := Release(s.pool, ctx));
    }

    /** io_uring_get_sqe found no room and the forced submit made none: the callback runs here. */
    method RefuseNow(ctx: Ctx)
      requires Mirrors() && s.refusing.None? && ctx in s.pool.entering && ctx in contexts
      modifies this`freelist, this`contexts, this`s
      ensures Mirrors() && s == Next(RefuseCtx(old(s), ctx), RefusalDone)
    {
      s := RefuseCtx(s, ctx);   // ctx->cb(-ENOMEM)
      ReleaseCtx(ctx);
      s := s.(refusing := None);
    }

    /** The entry of a filled context, under sq_mutex_. */
    method Enqueue(ctx: Ctx, makesRoom: bool)
      requires Mirrors() && s.refusing.None? && ctx in s.pool.entering && ctx in contexts
      modifies this`freelist, this`contexts, this`sq, this`s
      ensures Mirrors()
      ensures s == if |old(sq)| < QUEUE_DEPTH then QueueCtx(old(s), ctx)
                   else if Room(old(s), makesRoom) then QueueCtx(TakeEntry(old(s)), ctx)
                   else Next(RefuseCtx(old(s), ctx), RefusalDone)
    {
      if |sq| == QUEUE_DEPTH && makesRoom {
        sq := sq[1..];
        s := TakeEntry(s);
      }
      if |sq| >= QUEUE_DEPTH {
        RefuseNow(ctx);
        return;
      }
      sq := sq + [ctx];
      s := QueueCtx(s, ctx);
    }

    method Submit(req: Req, makesRoom: bool)
      requires Mirrors() && PoolOk(s.pool) && s.refusing.None? && Enabled(s, Enter(req, nextId))
      modifies this`freelist, this`contexts, this`allAllocated, this`nextId, this`sq, this`s
      ensures Mirrors() && s == Submitting(old(s), req, old(nextId), makesRoom)
    {
      AcquiredClaim(s, req, nextId);
      var ctx := Prepare(req);
      Enqueue(ctx, makesRoom);
    }

    /** async_io(): nothing once stopped; a full submission queue is submitted again, and if that
        makes no room the callback runs here. */
    method AsyncIo(req: Req, makesRoom: bool)
      requires Valid() && s.refusing.None? && (running ==> req.id !in s.accepted)
      modifies this
      ensures Valid() && s.refusing.None? && running == old(running)
      ensures Abstract(s) ==
              if running then Submitted(old(Abstract(s)), req, if Room(old(s), makesRoom) then None else Some(ENOMEM))
              else old(Abstract(s))
    {
      if !running { return; }
      SubmittingRefines(s, req, nextId, makesRoom);
      RefusingStays(s, req, nextId, makesRoom);
      Submit(req, makesRoom);
    }

    /** The callback of the first completion starts. */
    method CallBack(ghost reqs: seq<Req>, ghost answers: seq<int>, ghost i: nat) returns (ctx: Ctx)
      requires Valid() && running && cq != [] && s.inCall.None? && s.refusing.None? && Waiting(s, reqs, answers, i)
      modifies this`cq, this`s
      ensures Valid() && s.inCall == Some(ctx) && ctx in contexts && ctx !in cq && s.refusing.None?
      ensures Waiting(s, reqs, answers, i + 1)
      ensures Abstract(s) == Answered(old(Abstract(s)), reqs[i], answers[i])
    {
      assert Carrying(s, s.cq[0], reqs[i], answers[i]);
      HandlingRefines(s);
      ctx := cq[0];
      cq := cq[1..];
      s := HandleNext(s);
      SpotMeaning(s, ctx);
      OneSpot(s, ctx, InCallback);
    }

    /** The callback has returned: the context is free. */
    method Finish(ctx: Ctx, ghost reqs: seq<Req>, ghost answers: seq<int>, ghost i: nat)
      requires Valid() && s.inCall == Some(ctx) && ctx in contexts && ctx !in cq && Waiting(s, reqs, answers, i)
      modifies this`freelist, this`contexts, this`s
      ensures Valid() && s.inCall.None? && s.refusing == old(s.refusing) && Waiting(s, reqs, answers, i)
      ensures Abstract(s) == old(Abstract(s))
    {
      ReturnRefines(s);
      WaitingRelease(s, Next(s, Event.Return), ctx, reqs, answers, i);
      ReleaseCtx(ctx);
      s := s.(inCall := None);
    }

    /** async_io from inside a callback. */
    method SubmitInCallback(req: Req, makesRoom: bool, ghost reqs: seq<Req>, ghost answers: seq<int>, ghost i: nat)
      requires Valid() && running && req.id !in s.accepted && s.refusing.None? && Waiting(s, reqs, answers, i)
      requires s.inCall.Some? && s.inCall.value in contexts && s.inCall.value !in cq
      modifies this`freelist, this`contexts, this`allAllocated, this`nextId, this`sq, this`s
      ensures Valid() && s.refusing.None? && Waiting(s, reqs, answers, i)
      ensures s.inCall == old(s.inCall) && s.inCall.value in contexts
      ensures Abstract(s) == Submitted(old(Abstract(s)), req, if Room(old(s), makesRoom) then None else Some(ENOMEM))
    {
      SubmittingRefines(s, req, nextId, makesRoom);
      RefusingStays(s, req, nextId, makesRoom);
      WaitingSubmit(s, req, nextId, makesRoom, reqs, answers, i);
      Submit(req, makesRoom);
    }

    /** The first completion's context goes straight to the free list. */
    method ReleaseNext()
      requires Mirrors() && !running && cq != [] && cq[0] in contexts && cq[0] in results
      modifies this`cq, this`freelist, this`contexts, this`s
      ensures Mirrors() && s == HandleNext(old(s))
    {
      ghost var t := HandleNext(s);
      var ctx := cq[0];
      cq := cq[1..];
      s := s.(cq := cq);
      ReleaseCtx(ctx);
      s := t;
    }

    /** After stop(): the context is freed, its callback never runs. */
    method Discard(ghost reqs: seq<Req>, ghost answers: seq<int>, ghost i: nat)
      requires Valid() && !running && cq != [] && s.inCall.None? && Waiting(s, reqs, answers, i)
      modifies this`cq, this`freelist, this`contexts, this`s
      ensures Valid() && s.inCall.None? && s.refusing == old(s.refusing) && Waiting(s, reqs, answers, i + 1)
      ensures Abstract(s) == Dropped(old(Abstract(s)), reqs[i])
    {
      assert Carrying(s, s.cq[0], reqs[i], answers[i]);
      DroppingRefines(s);
      WaitingDrop(s, reqs, answers, i);
      ReleaseNext();
    }

    /** stop(), by another thread. */
    method Stop()
      requires Valid()
      modifies this`running, this`s
      ensures Valid() && !running && s == old(s).(running := false)
      ensures Abstract(s) == old(Abstract(s)).(running := false)
    {
      StopRefines(s);
      running := false;
      s := s.(running := false);
    }

    /** The callback submits the next operation and returns. */
    method SubmitAndFinish(ctx: Ctx, next: Req, makesRoom: bool, ghost reqs: seq<Req>, ghost answers: seq<int>,
                           ghost i: nat)
      returns (ghost err: Option<nat>)
      requires Valid() && running && next.id !in s.accepted && s.refusing.None? && Waiting(s, reqs, answers, i)
      requires s.inCall == Some(ctx) && ctx in contexts && ctx !in cq
      modifies this`freelist, this`contexts, this`allAllocated, this`nextId, this`sq, this`s
      ensures Valid() && s.inCall.None? && s.refusing.None? && Waiting(s, reqs, answers, i)
      ensures Abstract(s) == Submitted(old(Abstract(s)), next, err) && (err.Some? ==> err.value == ENOMEM)
    {
      err := if Room(s, makesRoom) then None else Some(ENOMEM);
      SubmitInCallback(next, makesRoom, reqs, answers, i);
      Finish(ctx, reqs, answers, i);
    }

    /** ctx->cb(cqe->res), then the context is free. */
    method Deliver(ghost reqs: seq<Req>, ghost answers: seq<int>, ghost i: nat)
      requires Valid() && running && cq != [] && s.inCall.None? && s.refusing.None? && Waiting(s, reqs, answers, i)
      modifies this`freelist, this`contexts, this`cq, this`s
      ensures Valid() && s.inCall.None? && s.refusing.None? && Waiting(s, reqs, answers, i + 1)
      ensures Abstract(s) == Answered(old(Abstract(s)), reqs[i], answers[i])
    {
      var ctx := CallBack(reqs, answers, i);
      Finish(ctx, reqs, answers, i + 1);
    }

    /** ctx->cb(cqe->res), which submits the next operation. */
    method DeliverAndSubmit(next: Req, makesRoom: bool, ghost reqs: seq<Req>, ghost answers: seq<int>, ghost i: nat)
      returns (ghost err: Option<nat>)
      requires Valid() && running && cq != [] && s.inCall.None? && s.refusing.None? && Waiting(s, reqs, answers, i)
      requires next.id !in s.accepted
      modifies this`freelist, this`contexts, this`allAllocated, this`nextId, this`sq, this`cq, this`s
      ensures Valid() && s.inCall.None? && s.refusing.None? && Waiting(s, reqs, answers, i + 1)
      ensures Abstract(s) == Submitted(Answered(old(Abstract(s)), reqs[i], answers[i]), next, err)
      ensures err.Some? ==> err.value == ENOMEM
    {
      var ctx := CallBack(reqs, answers, i);
      err := SubmitAndFinish(ctx, next, makesRoom, reqs, answers, i + 1);
    }

    /** One completion. */
    method OneCompletion(next: Option<Req>, makesRoom: bool, ghost reqs: seq<Req>, ghost answers: seq<int>,
                         ghost i: nat)
      returns (ghost err: Option<nat>)
      requires Valid() && cq != [] && s.inCall.None? && s.refusing.None? && Waiting(s, reqs, answers, i)
      requires next.Some? ==> next.value.id !in s.accepted
      modifies this`freelist, this`contexts, this`allAllocated, this`nextId, this`sq, this`cq, this`s
      ensures Valid() && s.inCall.None? && s.refusing.None? && Waiting(s, reqs, answers, i + 1)
      ensures Abstract(s) == Turn(old(Abstract(s)), Handled(reqs[i], answers[i], next, err))
      ensures err.Some? ==> err.value == ENOMEM
    {
      err := None;
      if !running {
        Discard(reqs, answers, i);
      } else if next.None? {
        Deliver(reqs, answers, i);
      } else {
        err := DeliverAndSubmit(next.value, makesRoom, reqs, answers, i);
      }
    }

    method StopOrComplete(next: Option<Req>, makesRoom: bool, stop: bool, ghost reqs: seq<Req>, ghost answers: seq<int>,
                          ghost i: nat)
      returns (ghost err: Option<nat>)
      requires Valid() && cq != [] && s.inCall.None? && s.refusing.None? && Waiting(s, reqs, answers, i)
      requires next.Some? ==> next.value.id !in s.accepted
      modifies this
      ensures Valid() && s.inCall.None? && s.refusing.None? && Waiting(s, reqs, answers, i + 1)
      ensures Abstract(s) == TurnAt(old(Abstract(s)), Handled(reqs[i], answers[i], next, err), stop)
      ensures err.Some? ==> err.value == ENOMEM
    {
      if stop { Stop(); }
      err := OneCompletion(next, makesRoom, reqs, answers, i);
    }

    /** The next completion of a round that started with the service at `start`. */
    method CompleteNext(next: Option<Req>, makesRoom: bool, stop: bool, ghost stopAt: nat, ghost reqs: seq<Req>,
                        ghost answers: seq<int>, ghost nexts: seq<Option<Req>>,
                        ghost start: Service, ghost before: seq<Handled>)
      returns (ghost es: seq<Handled>)
      requires Valid() && cq != [] && s.inCall.None? && s.refusing.None? && Waiting(s, reqs, answers, |before|)
      requires Happened(before, reqs, answers, nexts) && |before| < |nexts| && next == nexts[|before|]
      requires Abstract(s) == After(start, before, stopAt) && NewIds(nexts, s.accepted, |before|)
      requires stop == (|before| == stopAt)
      modifies this
      ensures Valid() && s.inCall.None? && s.refusing.None? && |es| == |before| + 1 && Waiting(s, reqs, answers, |es|)
      ensures Happened(es, reqs, answers, nexts)
      ensures Abstract(s) == After(start, es, stopAt) && NewIds(nexts, s.accepted, |es|)
    {
      ghost var a, i := Abstract(s), |before|;
      ghost var err := StopOrComplete(next, makesRoom, stop, reqs, answers, i);
      ghost var e := Handled(reqs[i], answers[i], next, err);
      StillNew(nexts, a, e, i == stopAt, i);
      Longer(start, before, e, stopAt);
      es := before + [e];
    }

    /** One round of event_loop: all completions in the ring, in order, then io_uring_cq_advance.
        The callbacks may submit `nexts`; another thread may call stop() before one of them. */
    method Round(nexts: seq<Option<Req>>, rooms: seq<bool>, stopAt: nat) returns (ghost es: seq<Handled>)
      requires Valid() && s.inCall.None? && s.refusing.None? && |cq| == |nexts| == |rooms|
               && NewIds(nexts, s.accepted, 0)
      modifies this
      ensures Valid() && s.inCall.None? && s.refusing.None? && cq == [] && s.seen == 0
      ensures |es| == |nexts| && Happened(es, old(Requests(s)), old(Results(s)), nexts)
      ensures Abstract(s) == After(old(Abstract(s)), es, stopAt)
    {
      AllWaiting(s);
      ghost var start, reqs, answers := Abstract(s), Requests(s), Results(s);
      var count := 0;
      es := [];
      while cq != []
        invariant Valid() && s.inCall.None? && s.refusing.None? && count + |cq| == |nexts|
                  && Waiting(s, reqs, answers, count)
        invariant |es| == count && Happened(es, reqs, answers, nexts)
        invariant Abstract(s) == After(start, es, stopAt) && NewIds(nexts, s.accepted, count)
        decreases |cq|
      {
        es := CompleteNext(nexts[count], rooms[count], count == stopAt, stopAt, reqs, answers, nexts, start, es);
        count := count + 1;
      }
      AdvanceRefines(s);
      s := s.(seen := 0);
    }
  }
}
