/** The context pool shared by both backends: a free list, the list of everything allocated,
    and the contexts being filled by threads inside async_io. */
module Pool {
  import opened Lists
  import opened Program
  import opened AsyncIo

  type Ctx = nat

  /** How far a thread has come with the context it acquired. */
  datatype Stage = New | Got | Filled

  datatype Claim = Claim(req: Req, stage: Stage)

  datatype Content = Content(op: Request, cb: Option<nat>)

  /** `made` are the contexts that exist; a `New` one is not yet in `all`. */
  datatype CtxPool = CtxPool(
    free: seq<Ctx>,
    all: seq<Ctx>,
    made: set<Ctx>,
    content: map<Ctx, Content>,
    entering: map<Ctx, Claim>)

  const NO_CONTEXTS := CtxPool([], [], {}, map[], map[])

  /** acquire(), free list not empty: pop_back under the lock. */
  function Pop(p: CtxPool, req: Req): CtxPool
    requires p.free != []
  {
    var n := |p.free| - 1;
    p.(free := p.free[..n], entering := p.entering[p.free[n] := Claim(req, Got)])
  }

  /** acquire(), free list empty: `new`, outside the lock. */
  function Allocate(p: CtxPool, c: Ctx, req: Req): CtxPool {
    p.(made := p.made + {c},
       content := p.content[c := Content(req.op, None)],
       entering := p.entering[c := Claim(req, New)])
  }

  /** ... and push_back to all_allocated_, under the lock again. */
  function Record(p: CtxPool, c: Ctx): CtxPool
    requires c in p.entering
  {
    p.(all := p.all + [c], entering := p.entering[c := p.entering[c].(stage := Got)])
  }

  function Fill(p: CtxPool, c: Ctx): CtxPool
    requires c in p.entering
  {
    var q := p.entering[c].req;
    p.(content := p.content[c := Content(q.op, Some(q.id))], entering := p.entering[c := Claim(q, Filled)])
  }

  /** The context leaves the submitting thread. */
  function Leave(p: CtxPool, c: Ctx): CtxPool {
    p.(entering := p.entering - {c})
  }

  /** release(): the callback is reset, the context goes to the back of the free list. */
  function Release(p: CtxPool, c: Ctx): CtxPool
    requires c in p.content
  {
    p.(content := p.content[c := p.content[c].(cb := None)], free := p.free + [c])
  }

  /** The pool on its own: lists without duplicates, contents for everything made. */
  ghost predicate PoolOk(p: CtxPool) {
    && Distinct(p.free) && Distinct(p.all)
    && p.content.Keys == p.made
    && (forall c :: c in p.free ==> c in p.made && c !in p.entering && p.content[c].cb.None?)
    && (forall c :: c in p.entering ==> c in p.made)
    && (forall c :: c in p.entering && p.entering[c].stage.Filled? ==>
          p.content[c] == Content(p.entering[c].req.op, Some(p.entering[c].req.id)))
    && (forall c :: c in p.all <==> c in p.made && !(c in p.entering && p.entering[c].stage.New?))
  }

  /** A context that no list of the pool mentions: the backend has it. */
  ghost predicate Out(p: CtxPool, c: Ctx) {
    c in p.made && c !in p.free && c !in p.entering
  }

  /** A step of the submitting thread inside the pool that nobody else can see. */
  ghost predicate PoolStep(p: CtxPool, p': CtxPool, c: Ctx) {
    && c in p.entering && c in p'.entering && p'.entering[c].req == p.entering[c].req
    && p' == p.(all := p'.all, content := p'.content, entering := p'.entering)
    && (forall x :: x != c ==> (x in p'.entering <==> x in p.entering))
    && (forall x :: x != c && x in p.entering && x in p'.entering ==> p'.entering[x] == p.entering[x])
    && (forall x :: x != c && x in p.content ==> x in p'.content && p'.content[x] == p.content[x])
  }

  lemma Pushed(s: seq<Ctx>, c: Ctx)
    requires Distinct(s) && c !in s
    ensures Distinct(s + [c]) && forall x :: x in s + [c] <==> x in s || x == c
  {
  }

  lemma Popped(s: seq<Ctx>)
    requires Distinct(s) && s != []
    ensures Distinct(s[..|s| - 1]) && forall x :: x in s[..|s| - 1] <==> x in s && x != s[|s| - 1]
  {
    forall x | x in s && x != s[|s| - 1] ensures x in s[..|s| - 1] {
      var i :| 0 <= i < |s| && s[i] == x;
      assert s[..|s| - 1][i] == x;
    }
  }

  lemma PoolKeeps(p: CtxPool, c: Ctx, req: Req)
    requires PoolOk(p)
    ensures p.free != [] ==> PoolOk(Pop(p, req))
    ensures c !in p.made ==> PoolOk(Allocate(p, c, req))
    ensures c in p.entering && p.entering[c].stage.New? ==> PoolOk(Record(p, c))
    ensures c in p.entering && p.entering[c].stage.Got? ==> PoolOk(Fill(p, c))
    ensures c in p.entering && p.entering[c].stage.Filled? ==> PoolOk(Leave(p, c)) && Out(Leave(p, c), c)
    ensures Out(p, c) ==> PoolOk(Release(p, c))
  {
    if p.free != [] { Popped(p.free); }
    if c in p.entering && p.entering[c].stage.New? { Pushed(p.all, c); }
    if Out(p, c) { Pushed(p.free, c); }
  }
}
