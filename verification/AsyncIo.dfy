/** The contract of co_excutor::async_io, which both backends have to keep: while the backend
    runs, every accepted operation gets exactly one callback. */
module AsyncIo {
  import opened Program

  /** An operation; `id` stands for the callback that came with it. */
  datatype Req = Req(id: nat, op: Request)

  datatype Reply = Reply(req: Req, res: int)

  datatype Service = Service(
    accepted: set<nat>,
    pending: set<Req>,
    called: seq<Reply>,
    forgotten: set<nat>,
    running: bool)

  datatype Label =
    | Silent
    | Accepted(req: Req)
    | Called(req: Req, res: int)
    | Forgotten(req: Req)   // only after stop(): the context is freed, the callback never runs
    | Stopped

  /** What the kernel may answer: at most the length asked for, zero or an error for connect. */
  predicate Answers(op: Request, res: int) {
    match op.event
    case Recv => res <= op.len
    case Send => res <= op.len
    case Connect => res <= 0
    case Accept => true
  }

  /** What async_io has done when it returns: the operation is pending, or it was called back. */
  ghost function Submitted(a: Service, req: Req, err: Option<nat>): Service {
    var entered := a.(accepted := a.accepted + {req.id});
    match err
    case None => entered.(pending := a.pending + {req})
    case Some(e) => entered.(called := a.called + [Reply(req, 0 - e)])
  }

  /** The abstract effect of a callback. */
  ghost function Answered(a: Service, req: Req, res: int): Service {
    a.(pending := a.pending - {req}, called := a.called + [Reply(req, res)])
  }

  /** Freed without a callback, once stopped. */
  ghost function Dropped(a: Service, req: Req): Service {
    a.(pending := a.pending - {req}, forgotten := a.forgotten + {req.id})
  }

  lemma AnsweredAtOnce(a: Service, b: Service, req: Req, e: nat)
    requires b == a.(accepted := a.accepted + {req.id}, pending := a.pending + {req})
    requires a.pending + {req} - {req} == a.pending
    ensures Answered(b, req, 0 - e) == Submitted(a, req, Some(e))
  {
  }

  ghost predicate ServiceStep(a: Service, l: Label, a': Service) {
    match l
    case Silent => a' == a
    case Accepted(q) =>
      a.running && q.id !in a.accepted && a' == a.(accepted := a.accepted + {q.id}, pending := a.pending + {q})
    case Called(q, res) =>
      q in a.pending && Answers(q.op, res)
      && a' == a.(pending := a.pending - {q}, called := a.called + [Reply(q, res)])
    case Forgotten(q) =>
      !a.running && q in a.pending && a' == a.(pending := a.pending - {q}, forgotten := a.forgotten + {q.id})
    case Stopped => a' == a.(running := false)
  }

  /** Exactly once: an accepted operation is pending, or was called back once, or, only after
      stop(), was forgotten. */
  ghost predicate ExactlyOnce(a: Service) {
    && (forall q :: q in a.pending ==> q.id in a.accepted && q.id !in a.forgotten)
    && (forall q, p :: q in a.pending && p in a.pending && q.id == p.id ==> q == p)
    && (forall i :: 0 <= i < |a.called| ==>
          a.called[i].req.id in a.accepted && a.called[i].req.id !in a.forgotten && a.called[i].req !in a.pending)
    && (forall i, q :: 0 <= i < |a.called| && q in a.pending ==> a.called[i].req.id != q.id)
    && (forall i, j :: 0 <= i < j < |a.called| ==> a.called[i].req.id != a.called[j].req.id)
    && (forall id :: id in a.accepted ==>
          (exists q :: q in a.pending && q.id == id) || (exists i :: 0 <= i < |a.called| && a.called[i].req.id == id)
          || id in a.forgotten)
    && (a.running ==> a.forgotten == {})
    && a.forgotten <= a.accepted
  }

  lemma ServiceKeeps(a: Service, l: Label, a': Service)
    requires ExactlyOnce(a) && ServiceStep(a, l, a')
    ensures ExactlyOnce(a')
  {
    forall id | id in a'.accepted
      ensures (exists q :: q in a'.pending && q.id == id)
              || (exists i :: 0 <= i < |a'.called| && a'.called[i].req.id == id) || id in a'.forgotten
    {
      if id in a.accepted {
        if q :| q in a.pending && q.id == id {
          if q in a'.pending {
          } else if l.Called? {
            assert a'.called[|a.called|].req.id == id;
          }
        } else if i :| 0 <= i < |a.called| && a.called[i].req.id == id {
          assert a'.called[i].req.id == id;
        }
      } else {
        assert l.Accepted? && l.req in a'.pending;
      }
    }
  }
}
