/** What each step adds to the logs of the instances: the reply that a loop or a failing async_io makes,
    under the request that a frame has in flight or has begun. */
module Replies {
  import opened Program
  import opened Frames
  import opened AsyncIo
  import opened Pool
  import B = Backends
  import J = JointSystem
  import K = KernelMemory

  // ---- The logs of the instances ----

  /** The instance of its descriptor has called the request `q` back with `res`, which the kernel or the
      failed registration may answer to it. */
  ghost predicate Logged(inst: seq<B.Instance>, q: Req, res: int) {
    |inst| == B.NUM_INSTANCES && Reply(q, res) in B.Log(inst[J.ShardOfReq(q)]) && Answers(q.op, res)
  }

  function Added(x: Option<Reply>, i: nat): seq<Reply> {
    if x.Some? && J.ShardOfReq(x.value.req) == i then [x.value] else []
  }

  /** At most one entry more, in the log of its descriptor's instance. */
  ghost predicate LogsGrow(inst: seq<B.Instance>, inst': seq<B.Instance>, x: Option<Reply>) {
    && |inst| == B.NUM_INSTANCES && |inst'| == B.NUM_INSTANCES
    && (forall i :: 0 <= i < B.NUM_INSTANCES ==> B.Log(inst'[i]) == B.Log(inst[i]) + Added(x, i))
    && (x.Some? ==> Answers(x.value.req.op, x.value.res))
  }

  lemma StaysLogged(inst: seq<B.Instance>, inst': seq<B.Instance>, x: Option<Reply>, q: Req, res: int)
    requires LogsGrow(inst, inst', x) && Logged(inst, q, res)
    ensures Logged(inst', q, res)
  {
  }

  lemma NowLogged(inst: seq<B.Instance>, inst': seq<B.Instance>, x: Reply)
    requires LogsGrow(inst, inst', Some(x))
    ensures Logged(inst', x.req, x.res)
  {
    var i := J.ShardOfReq(x.req);
    assert B.Log(inst'[i]) == B.Log(inst[i]) + Added(Some(x), i);
  }

  /** The reply that a step of the joint system makes. */
  ghost function ReplyOf(j: J.System, e: J.Event): Option<Reply>
    requires J.Can(j, e)
  {
    match e
    case Handles(_, h, res) => Some(Reply(j.flying[h], res))
    case Refuses(h, _, err) => Some(Reply(j.begun[h], 0 - err))
    case _ => None
  }

  lemma OneGrows(inst: seq<B.Instance>, i: nat, s: B.Instance, x: Option<Reply>)
    requires |inst| == B.NUM_INSTANCES && i < B.NUM_INSTANCES && B.Log(s) == B.Log(inst[i]) + Added(x, i)
    requires x.Some? ==> J.ShardOfReq(x.value.req) == i && Answers(x.value.req.op, x.value.res)
    ensures LogsGrow(inst, inst[i := s], x)
  {
  }

  lemma SameGrows(inst: seq<B.Instance>)
    requires |inst| == B.NUM_INSTANCES
    ensures LogsGrow(inst, inst, None)
  {
  }

  lemma ServeGrows(inst: seq<B.Instance>, i: nat, res: int, q: Req)
    requires |inst| == B.NUM_INSTANCES && i < |inst| && B.Sound(inst[i]) && B.Enabled(inst[i], B.Serve(res))
    requires B.Running(inst[i]) && B.HasNext(inst[i]) && q == B.NextReq(inst[i]) && J.ShardOfReq(q) == i
    ensures LogsGrow(inst, inst[i := B.Next(inst[i], B.Serve(res))], Some(Reply(q, res)))
  {
    B.StepLogs(inst[i], B.Serve(res));
    OneGrows(inst, i, B.Next(inst[i], B.Serve(res)), Some(Reply(q, res)));
  }

  lemma FailGrows(inst: seq<B.Instance>, i: nat, c: Ctx, err: nat, q: Req, res: int)
    requires |inst| == B.NUM_INSTANCES && i < |inst| && B.Sound(inst[i]) && B.Enabled(inst[i], B.Fail(c, err))
    requires c in B.PoolOf(inst[i]).entering && B.PoolOf(inst[i]).entering[c].req == q && J.ShardOfReq(q) == i
    requires res == 0 - err
    ensures LogsGrow(inst, inst[i := B.Next(inst[i], B.Fail(c, err))], Some(Reply(q, res)))
  {
    B.FailLogs(inst[i], c, err, res);
    OneGrows(inst, i, B.Next(inst[i], B.Fail(c, err)), Some(Reply(q, res)));
  }

  lemma HandlesGrows(code: Code, j: J.System, i: nat, h: Id, res: int)
    requires J.BackendOk(j) && J.Can(j, J.Handles(i, h, res))
    ensures LogsGrow(j.inst, J.After(code, j, J.Handles(i, h, res)).inst, Some(Reply(j.flying[h], res)))
  {
    K.ServedHere(code, j, i, h, res);
    J.HandlesAfter(code, j, i, h, res);
    RunsAlike(j, i);
    ServeGrows(j.inst, i, res, j.flying[h]);
  }

  lemma RunsAlike(j: J.System, i: nat)
    requires J.BackendOk(j) && i < |j.inst|
    ensures B.Running(j.inst[i]) == j.w.running && B.Sound(j.inst[i]) && |j.inst| == B.NUM_INSTANCES
  {
    assert J.InstanceOk(j.inst[i], i, j.begun, j.flying, j.w.running, j.nextTag);
  }

  lemma RefusesGrows(code: Code, j: J.System, h: Id, c: Ctx, err: nat, res: int)
    requires J.BackendOk(j) && J.Can(j, J.Refuses(h, c, err)) && res == 0 - err
    ensures LogsGrow(j.inst, J.After(code, j, J.Refuses(h, c, err)).inst, Some(Reply(j.begun[h], res)))
  {
    J.RefusesAfter(code, j, h, c, err);
    RunsAlike(j, J.ShardOfReq(j.begun[h]));
    FailGrows(j.inst, J.ShardOfReq(j.begun[h]), c, err, j.begun[h], res);
  }

  lemma SilentGrows(inst: seq<B.Instance>, i: nat, f: B.Event)
    requires |inst| == B.NUM_INSTANCES && i < |inst| && B.Sound(inst[i]) && B.Enabled(inst[i], f)
    requires B.Inside(f) || f.Register? || f.Stop? || f.Enter? || (f.Serve? && !B.Running(inst[i]))
    ensures B.Log(B.Next(inst[i], f)) == B.Log(inst[i])
    ensures LogsGrow(inst, inst[i := B.Next(inst[i], f)], None)
  {
    if f.Enter? { B.EnterLogs(inst[i], f.req, f.c); } else { B.StepLogs(inst[i], f); }
  }

  lemma StopsGrows(code: Code, j: J.System)
    requires J.BackendOk(j) && J.Can(j, J.Stops)
    ensures LogsGrow(j.inst, J.After(code, j, J.Stops).inst, None)
  {
    K.StopMoves(code, j);
    forall i | 0 <= i < B.NUM_INSTANCES ensures B.Log(B.Next(j.inst[i], B.Stop)) == B.Log(j.inst[i]) {
      RunsAlike(j, i);
      SilentGrows(j.inst, i, B.Stop);
    }
  }

  lemma QuietGrows(code: Code, j: J.System, e: J.Event)
    requires J.BackendOk(j) && J.Can(j, e) && !e.Handles? && !e.Refuses? && !e.Stops?
    ensures LogsGrow(j.inst, J.After(code, j, e).inst, None)
  {
    K.OneInstanceMoves(code, j, e);
    if K.InstanceStep(j, e).Some? {
      var (i, f) := K.InstanceStep(j, e).value;
      RunsAlike(j, i);
      SilentGrows(j.inst, i, f);
    } else {
      SameGrows(j.inst);
    }
  }

  lemma StepGrows(code: Code, j: J.System, e: J.Event, x: Option<Reply>)
    requires J.BackendOk(j) && J.Can(j, e) && x == ReplyOf(j, e)
    ensures LogsGrow(j.inst, J.After(code, j, e).inst, x)
  {
    if e.Handles? {
      HandlesGrows(code, j, e.i, e.h, e.res);
    } else if e.Refuses? {
      RefusesGrows(code, j, e.h, e.c, e.err, x.value.res);
    } else if e.Stops? {
      StopsGrows(code, j);
    } else {
      QuietGrows(code, j, e);
    }
  }
}
