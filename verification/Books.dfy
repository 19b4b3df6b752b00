/** Whose request each reply answers, and where the reply has gone. */
module Books {
  import opened Program
  import opened Direct
  import opened Frames
  import opened Invariant
  import opened Runs
  import opened Guarantees
  import opened SuspendedChains
  import opened Deliveries
  import opened Replies
  import opened AsyncIo
  import opened Pool
  import Mirror
  import B = Backends
  import J = JointSystem

  // ---- A book of who is owed and who was given what ----

  /** A request's result is about to be given to frame `h`, or was the `n`-th that root `r` got. */
  datatype Place = Due(h: Id) | Given(r: Id, n: nat)

  /** `due` are the requests whose callbacks the loops have decided on, `given` those whose results each
      root was resumed with, in order. The book notes whose request it is, never a result. */
  datatype Book = Book(due: map<Id, Req>, given: map<Id, seq<Req>>, place: map<nat, Place>)

  const EMPTY_BOOK := Book(map[], map[], map[])

  function GivenTo(b: Book, r: Id): seq<Req> {
    if r in b.given then b.given[r] else []
  }

  function Owes(b: Book, h: Id, q: Req): Book {
    b.(due := b.due[h := q], place := b.place[q.id := Due(h)])
  }

  function Pays(b: Book, h: Id, r: Id, q: Req): Book {
    Book(b.due - {h}, b.given[r := GivenTo(b, r) + [q]], b.place[q.id := Given(r, |GivenTo(b, r)|)])
  }

  /** The book after a step: a loop takes the request that a frame has in flight, async_io fails one that
      it has begun, a callback runs. */
  ghost function Updated(j: J.System, b: Book, e: J.Event): Book
    requires J.Can(j, e)
  {
    match e
    case Handles(_, h, _) => Owes(b, h, j.flying[h])
    case Refuses(h, _, _) => if h in j.w.frames then Pays(b, h, j.w.frames[h].root, j.begun[h]) else b
    case Plain(f) =>
      if f.Callback? && f.h in b.due && f.h in j.w.frames
      then Pays(b, f.h, j.w.frames[f.h].root, b.due[f.h]) else b
    case _ => b
  }

  // ---- What the book says is so ----

  ghost predicate SuspendedIn(frames: map<Id, Frame>, h: Id, op: Request) {
    h in frames && frames[h].status.InIo? && frames[h].status.op == op
  }

  /** A decided callback carries the reply to the operation that its frame is suspended in. */
  ghost predicate Carried(inst: seq<B.Instance>, calling: map<Id, int>, frames: map<Id, Frame>, h: Id, q: Req) {
    h in calling && Logged(inst, q, calling[h]) && SuspendedIn(frames, h, q.op)
  }

  ghost predicate DueOk(inst: seq<B.Instance>, calling: map<Id, int>, frames: map<Id, Frame>, due: map<Id, Req>) {
    && (forall h :: h in calling ==> h in due)
    && (forall h :: h in due ==> Carried(inst, calling, frames, h, due[h]))
  }

  /** The direct run of the program, after the first `k` of its results, needs the result of `op`. */
  ghost predicate Asks(code: Code, body: Body, fed: seq<int>, k: nat, op: Request)
    requires k <= |fed|
  {
    body.User? && exists f, effects :: Run(code, f, body.p, None, fed[..k]) == Waits(effects, op)
  }

  /** Each result that the root was given is the reply to what its program asked for then. */
  ghost predicate FedReplies(code: Code, inst: seq<B.Instance>, hst: History, qs: seq<Req>) {
    && |qs| == |hst.fed|
    && (forall k :: 0 <= k < |qs| ==> Logged(inst, qs[k], hst.fed[k]) && Asks(code, hst.body, hst.fed, k, qs[k].op))
  }

  ghost predicate GivenOk(code: Code, inst: seq<B.Instance>, history: map<Id, History>, b: Book) {
    && b.given.Keys <= history.Keys
    && (forall r :: r in history ==> FedReplies(code, inst, history[r], GivenTo(b, r)))
  }

  /** No request is noted in two places. */
  ghost predicate PlaceOk(b: Book) {
    && (forall h :: h in b.due ==> b.due[h].id in b.place && b.place[b.due[h].id] == Due(h))
    && (forall r, n :: r in b.given && 0 <= n < |b.given[r]| ==>
          b.given[r][n].id in b.place && b.place[b.given[r][n].id] == Given(r, n))
  }

  /** Requests not yet replied to are in no place. */
  ghost predicate NotYet(begun: map<Id, Req>, flying: map<Id, Req>, n: nat, place: map<nat, Place>) {
    && (forall id :: id in place ==> id < n)
    && (forall h :: h in begun ==> begun[h].id !in place)
    && (forall h :: h in flying ==> flying[h].id !in place)
  }

  /** The reply `x` is on its way to the frame that made the request, or its program has got it. */
  ghost predicate Arrives(calling: map<Id, int>, history: map<Id, History>, b: Book, x: Reply) {
    x.req.id in b.place &&
    match b.place[x.req.id]
    case Due(h) => h in b.due && b.due[h] == x.req && h in calling && calling[h] == x.res
    case Given(r, n) =>
      && n < |GivenTo(b, r)| && GivenTo(b, r)[n] == x.req
      && r in history && n < |history[r].fed| && history[r].fed[n] == x.res
  }

  ghost predicate AllArrive(inst: seq<B.Instance>, calling: map<Id, int>, history: map<Id, History>, b: Book) {
    |inst| == B.NUM_INSTANCES &&
    forall i, x :: 0 <= i < B.NUM_INSTANCES && x in B.Log(inst[i]) ==> Arrives(calling, history, b, x)
  }

  ghost predicate BookOk(code: Code, j: J.System, b: Book) {
    && DueOk(j.inst, j.w.calling, j.w.frames, b.due) && GivenOk(code, j.inst, j.w.history, b) && PlaceOk(b)
    && NotYet(j.begun, j.flying, j.nextTag, b.place) && AllArrive(j.inst, j.w.calling, j.w.history, b)
  }

  // ---- Each kind of step keeps it so ----

  lemma FedStays(code: Code, inst: seq<B.Instance>, inst': seq<B.Instance>, x: Option<Reply>, hst: History,
                 hst': History, qs: seq<Req>)
    requires LogsGrow(inst, inst', x) && FedReplies(code, inst, hst, qs) && hst'.body == hst.body && hst'.fed == hst.fed
    ensures FedReplies(code, inst', hst', qs)
  {
    forall k | 0 <= k < |qs|
      ensures Logged(inst', qs[k], hst'.fed[k]) && Asks(code, hst'.body, hst'.fed, k, qs[k].op)
    {
      StaysLogged(inst, inst', x, qs[k], hst.fed[k]);
    }
  }

  lemma FedMore(code: Code, inst: seq<B.Instance>, inst': seq<B.Instance>, x: Option<Reply>, hst: History,
                hst': History, qs: seq<Req>, q: Req, res: int)
    requires LogsGrow(inst, inst', x) && FedReplies(code, inst, hst, qs) && Logged(inst', q, res)
    requires hst'.body == hst.body && hst'.fed == hst.fed + [res] && Asks(code, hst.body, hst.fed, |hst.fed|, q.op)
    ensures FedReplies(code, inst', hst', qs + [q])
  {
    forall k | 0 <= k < |qs + [q]|
      ensures Logged(inst', (qs + [q])[k], hst'.fed[k]) && Asks(code, hst'.body, hst'.fed, k, (qs + [q])[k].op)
    {
      assert hst'.fed[..k] == hst.fed[..k];
      if k < |qs| { StaysLogged(inst, inst', x, qs[k], hst.fed[k]); }
    }
  }

  /** The programs get nothing. */
  lemma GivenStays(code: Code, inst: seq<B.Instance>, inst': seq<B.Instance>, x: Option<Reply>,
                   history: map<Id, History>, history': map<Id, History>, b: Book, b': Book)
    requires LogsGrow(inst, inst', x) && GivenOk(code, inst, history, b) && FedBy(history, history', None)
    requires b'.given == b.given
    ensures GivenOk(code, inst', history', b')
  {
    forall r | r in history' ensures FedReplies(code, inst', history'[r], GivenTo(b', r)) {
      if r in history { FedStays(code, inst, inst', x, history[r], history'[r], GivenTo(b, r)); }
    }
  }

  /** A program gets one result more. */
  lemma GivenMore(code: Code, inst: seq<B.Instance>, inst': seq<B.Instance>, x: Option<Reply>,
                  history: map<Id, History>, history': map<Id, History>, b: Book, h: Id, r: Id, q: Req, res: int)
    requires LogsGrow(inst, inst', x) && GivenOk(code, inst, history, b) && r in history
    requires FedBy(history, history', Some(Delivery(h, r, res))) && Logged(inst', q, res)
    requires Asks(code, history[r].body, history[r].fed, |history[r].fed|, q.op)
    ensures GivenOk(code, inst', history', Pays(b, h, r, q))
  {
    var b' := Pays(b, h, r, q);
    forall s | s in history' ensures FedReplies(code, inst', history'[s], GivenTo(b', s)) {
      if s == r {
        FedMore(code, inst, inst', x, history[r], history'[r], GivenTo(b, r), q, res);
      } else if s in history {
        FedStays(code, inst, inst', x, history[s], history'[s], GivenTo(b, s));
      }
    }
  }

  lemma PlaceOwed(b: Book, h: Id, q: Req)
    requires PlaceOk(b) && q.id !in b.place && h !in b.due
    ensures PlaceOk(Owes(b, h, q))
  {
  }

  lemma PlacePaid(b: Book, h: Id, r: Id, q: Req)
    requires PlaceOk(b) && (q.id in b.place ==> h in b.due && b.due[h] == q)
    ensures PlaceOk(Pays(b, h, r, q))
  {
    var b' := Pays(b, h, r, q);
    forall k | k in b'.due ensures b'.due[k].id in b'.place && b'.place[b'.due[k].id] == Due(k) {
      assert b.due[k].id in b.place && b.place[b.due[k].id] == Due(k);
    }
    forall s, n | s in b'.given && 0 <= n < |b'.given[s]|
      ensures b'.given[s][n].id in b'.place && b'.place[b'.given[s][n].id] == Given(s, n)
    {
      if s == r && n < |GivenTo(b, r)| {
        assert b'.given[s][n] == b.given[s][n];
      }
    }
  }

  /** Nothing is called back, nothing is given. */
  lemma ArriveStays(inst: seq<B.Instance>, inst': seq<B.Instance>, calling: map<Id, int>, history: map<Id, History>,
                    history': map<Id, History>, b: Book)
    requires AllArrive(inst, calling, history, b) && LogsGrow(inst, inst', None) && FedBy(history, history', None)
    ensures AllArrive(inst', calling, history', b)
  {
    forall i, x | 0 <= i < B.NUM_INSTANCES && x in B.Log(inst'[i]) ensures Arrives(calling, history', b, x) {
      assert B.Log(inst'[i]) == B.Log(inst[i]) + Added(None, i);
      assert Arrives(calling, history, b, x);
    }
  }

  lemma ArriveOwed(inst: seq<B.Instance>, inst': seq<B.Instance>, calling: map<Id, int>, history: map<Id, History>,
                   b: Book, h: Id, q: Req, res: int)
    requires AllArrive(inst, calling, history, b) && LogsGrow(inst, inst', Some(Reply(q, res)))
    requires q.id !in b.place && h !in b.due
    ensures AllArrive(inst', calling[h := res], history, Owes(b, h, q))
  {
    var b' := Owes(b, h, q);
    forall i, x | 0 <= i < B.NUM_INSTANCES && x in B.Log(inst'[i]) ensures Arrives(calling[h := res], history, b', x) {
      if x in B.Log(inst[i]) {
        assert Arrives(calling, history, b, x);
      } else {
        assert x == Reply(q, res);
      }
    }
  }

  lemma ArrivePaid(inst: seq<B.Instance>, inst': seq<B.Instance>, more: Option<Reply>, calling: map<Id, int>,
                   history: map<Id, History>, history': map<Id, History>, b: Book, h: Id, r: Id, q: Req, res: int)
    requires AllArrive(inst, calling, history, b) && LogsGrow(inst, inst', more) && r in history
    requires FedBy(history, history', Some(Delivery(h, r, res))) && |GivenTo(b, r)| == |history[r].fed|
    requires if q.id in b.place then more.None? && h in b.due && b.due[h] == q && b.place[q.id] == Due(h)
                                     && h in calling && calling[h] == res
             else more == Some(Reply(q, res)) && h !in b.due
    ensures AllArrive(inst', calling - {h}, history', Pays(b, h, r, q))
  {
    var b' := Pays(b, h, r, q);
    forall i, x | 0 <= i < B.NUM_INSTANCES && x in B.Log(inst'[i]) ensures Arrives(calling - {h}, history', b', x) {
      if x in B.Log(inst[i]) {
        assert Arrives(calling, history, b, x);
        OnePaid(calling, history, history', b, h, r, q, res, x);
      } else {
        assert x == Reply(q, res);
      }
    }
  }

  lemma OnePaid(calling: map<Id, int>, history: map<Id, History>, history': map<Id, History>, b: Book,
                h: Id, r: Id, q: Req, res: int, x: Reply)
    requires Arrives(calling, history, b, x) && r in history
    requires FedBy(history, history', Some(Delivery(h, r, res))) && |GivenTo(b, r)| == |history[r].fed|
    requires if q.id in b.place then h in b.due && b.due[h] == q && b.place[q.id] == Due(h)
                                     && h in calling && calling[h] == res
             else h !in b.due
    ensures Arrives(calling - {h}, history', Pays(b, h, r, q), x)
  {
    if x.req.id == q.id {
      assert b.place[x.req.id] == Due(h);
    } else if b.place[x.req.id].Due? {
      assert b.place[x.req.id].h != h;
    }
  }

  // ---- Frames about to be called back ----

  lemma CallingRests(code: Code, w: World, e: Event, h: Id)
    requires Inv(code, w) && Legal(w, e) && h in w.calling && e != Callback(h)
    ensures h in w.frames && SameFrame(w, Next(code, w, e), h)
  {
    J.CallingFacts(code, w, h);
    OnlyResumptionEnds(code, w, e, h);
  }

  ghost predicate StillSo(frames: map<Id, Frame>, frames': map<Id, Frame>, h: Id) {
    h in frames && h in frames' && frames'[h] == frames[h]
  }

  lemma CallingStays(code: Code, j: J.System, e: J.Event)
    requires Inv(code, j.w) && J.Can(j, e)
    ensures forall h :: h in j.w.calling && J.WorldEvent(e) != Some(Callback(h)) ==>
              StillSo(j.w.frames, J.After(code, j, e).w.frames, h)
  {
    J.WorldMoves(code, j, e);
    forall h | h in j.w.calling && J.WorldEvent(e) != Some(Callback(h))
      ensures StillSo(j.w.frames, J.After(code, j, e).w.frames, h)
    {
      J.CallingFacts(code, j.w, h);
      if J.WorldEvent(e).Some? { CallingRests(code, j.w, J.WorldEvent(e).value, h); }
    }
  }

  lemma OneCarried(inst: seq<B.Instance>, inst': seq<B.Instance>, x: Option<Reply>, calling: map<Id, int>,
                   calling': map<Id, int>, frames: map<Id, Frame>, frames': map<Id, Frame>, k: Id, q: Req)
    requires Carried(inst, calling, frames, k, q) && LogsGrow(inst, inst', x) && StillSo(frames, frames', k)
    requires k in calling' && calling'[k] == calling[k]
    ensures Carried(inst', calling', frames', k, q)
  {
    StaysLogged(inst, inst', x, q, calling[k]);
  }

  lemma DueStays(inst: seq<B.Instance>, inst': seq<B.Instance>, x: Option<Reply>, calling: map<Id, int>,
                 frames: map<Id, Frame>, frames': map<Id, Frame>, due: map<Id, Req>)
    requires DueOk(inst, calling, frames, due) && LogsGrow(inst, inst', x)
    requires forall h :: h in calling ==> StillSo(frames, frames', h)
    ensures DueOk(inst', calling, frames', due)
  {
    forall k | k in due ensures Carried(inst', calling, frames', k, due[k]) {
      assert Carried(inst, calling, frames, k, due[k]) && StillSo(frames, frames', k);
      OneCarried(inst, inst', x, calling, calling, frames, frames', k, due[k]);
    }
  }

  lemma DuePaid(inst: seq<B.Instance>, inst': seq<B.Instance>, x: Option<Reply>, calling: map<Id, int>,
                frames: map<Id, Frame>, frames': map<Id, Frame>, due: map<Id, Req>, h: Id)
    requires DueOk(inst, calling, frames, due) && LogsGrow(inst, inst', x)
    requires forall k :: k in calling && k != h ==> StillSo(frames, frames', k)
    ensures DueOk(inst', calling - {h}, frames', due - {h})
  {
    var calling', due' := calling - {h}, due - {h};
    forall k | k in due' ensures Carried(inst', calling', frames', k, due'[k]) {
      assert k in due && Carried(inst, calling, frames, k, due[k]) && StillSo(frames, frames', k);
      OneCarried(inst, inst', x, calling, calling', frames, frames', k, due[k]);
    }
  }

  lemma DueOwed(inst: seq<B.Instance>, inst': seq<B.Instance>, calling: map<Id, int>, frames: map<Id, Frame>,
                due: map<Id, Req>, h: Id, q: Req, res: int)
    requires DueOk(inst, calling, frames, due) && LogsGrow(inst, inst', Some(Reply(q, res)))
    requires SuspendedIn(frames, h, q.op)
    ensures DueOk(inst', calling[h := res], frames, due[h := q])
  {
    var calling', due' := calling[h := res], due[h := q];
    forall k | k in due' ensures Carried(inst', calling', frames, k, due'[k]) {
      if k == h {
        NowLogged(inst, inst', Reply(q, res));
      } else {
        assert Carried(inst, calling, frames, k, due[k]);
        OneCarried(inst, inst', Some(Reply(q, res)), calling, calling', frames, frames, k, due[k]);
      }
    }
  }

  // ---- Requests on their way ----

  lemma NotYetStays(code: Code, j: J.System, e: J.Event, place: map<nat, Place>)
    requires J.Can(j, e) && !e.Handles? && !e.Refuses? && NotYet(j.begun, j.flying, j.nextTag, place)
    ensures var j' := J.After(code, j, e); NotYet(j'.begun, j'.flying, j'.nextTag, place)
  {
  }

  lemma NotYetOwed(begun: map<Id, Req>, flying: map<Id, Req>, n: nat, b: Book, h: Id)
    requires J.Tagged(begun, flying, n) && NotYet(begun, flying, n, b.place) && h in flying
    ensures NotYet(begun, flying - {h}, n, Owes(b, h, flying[h]).place)
  {
  }

  lemma NotYetRefused(begun: map<Id, Req>, flying: map<Id, Req>, n: nat, b: Book, h: Id, r: Id)
    requires J.Tagged(begun, flying, n) && NotYet(begun, flying, n, b.place) && h in begun
    ensures NotYet(begun - {h}, flying, n, Pays(b, h, r, begun[h]).place)
  {
  }

  lemma NotYetPaid(begun: map<Id, Req>, flying: map<Id, Req>, n: nat, b: Book, h: Id, r: Id)
    requires NotYet(begun, flying, n, b.place) && PlaceOk(b) && h in b.due
    ensures NotYet(begun, flying, n, Pays(b, h, r, b.due[h]).place)
  {
  }

  // ---- Steps that give nothing ----

  ghost predicate IsCallback(e: J.Event) {
    e.Plain? && e.act.Callback?
  }

  ghost predicate IsQuiet(e: J.Event) {
    !e.Handles? && !e.Refuses? && !IsCallback(e)
  }

  lemma QuietEvent(j: J.System, e: J.Event)
    requires J.Can(j, e) && IsQuiet(e) && J.WorldEvent(e).Some?
    ensures var f := J.WorldEvent(e).value; !f.Callback? && !f.Refuse? && !f.Harvest?
  {
  }

  lemma NothingDelivered(w: World, w': World)
    requires w' == w
    ensures Delivers(w, w', None)
  {
  }

  lemma QuietDelivery(code: Code, j: J.System, e: J.Event)
    requires Inv(code, j.w) && J.Can(j, e) && IsQuiet(e)
    ensures Delivers(j.w, J.After(code, j, e).w, None)
  {
    J.WorldMoves(code, j, e);
    if J.WorldEvent(e).Some? {
      QuietEvent(j, e);
      OthersDeliverNothing(code, j.w, J.WorldEvent(e).value);
    } else {
      NothingDelivered(j.w, J.After(code, j, e).w);
    }
  }

  ghost predicate AllRest(w: World, w': World, but: Option<Id>) {
    forall k :: k in w.calling && Some(k) != but ==> StillSo(w.frames, w'.frames, k)
  }

  lemma QuietBook(code: Code, j: J.System, j': J.System, b: Book)
    requires BookOk(code, j, b) && LogsGrow(j.inst, j'.inst, None) && Delivers(j.w, j'.w, None)
    requires AllRest(j.w, j'.w, None) && NotYet(j'.begun, j'.flying, j'.nextTag, b.place)
    ensures BookOk(code, j', b)
  {
    DueStays(j.inst, j'.inst, None, j.w.calling, j.w.frames, j'.w.frames, b.due);
    GivenStays(code, j.inst, j'.inst, None, j.w.history, j'.w.history, b, b);
    ArriveStays(j.inst, j'.inst, j.w.calling, j.w.history, j'.w.history, b);
  }

  lemma QuietRest(code: Code, j: J.System, e: J.Event)
    requires Inv(code, j.w) && J.Can(j, e) && IsQuiet(e)
    ensures AllRest(j.w, J.After(code, j, e).w, None)
  {
    CallingStays(code, j, e);
  }

  lemma QuietKeeps(code: Code, j: J.System, e: J.Event, b: Book)
    requires Inv(code, j.w) && J.BackendOk(j) && J.Can(j, e) && IsQuiet(e) && BookOk(code, j, b)
    ensures BookOk(code, J.After(code, j, e), b)
  {
    StepGrows(code, j, e, None);
    QuietDelivery(code, j, e);
    QuietRest(code, j, e);
    NotYetStays(code, j, e, b.place);
    QuietBook(code, j, J.After(code, j, e), b);
  }

  // ---- A loop takes an answer ----

  ghost predicate HandlesEffects(j: J.System, j': J.System, h: Id, q: Req, res: int) {
    && h !in j.w.calling && h in j.flying && j.flying[h] == q && SuspendedIn(j.w.frames, h, q.op)
    && j'.w.frames == j.w.frames && j'.w.history == j.w.history && j'.w.calling == j.w.calling[h := res]
    && j'.begun == j.begun && j'.flying == j.flying - {h} && j'.nextTag == j.nextTag
  }

  lemma InflightFacts(code: Code, w: World, h: Id)
    requires Inv(code, w) && h in w.inflight
    ensures h !in w.calling && SuspendedIn(w.frames, h, w.inflight[h])
  {
    var chains: Mirror.ChainMap :| Kept(code, w, chains);
  }

  lemma HarvestIs(code: Code, w: World, h: Id, res: int)
    requires Enabled(w, Harvest(h, res))
    ensures Next(code, w, Harvest(h, res)) == w.(inflight := w.inflight - {h}, calling := w.calling[h := res])
  {
  }

  lemma HandlesMoves(code: Code, j: J.System, i: nat, h: Id, res: int)
    requires Inv(code, j.w) && J.BackendOk(j) && J.Can(j, J.Handles(i, h, res))
    ensures HandlesEffects(j, J.After(code, j, J.Handles(i, h, res)), h, j.flying[h], res)
  {
    J.HandlesAfter(code, j, i, h, res);
    HarvestIs(code, j.w, h, res);
    InflightFacts(code, j.w, h);
  }

  lemma HandlesBook(code: Code, j: J.System, j': J.System, h: Id, q: Req, res: int, b: Book)
    requires BookOk(code, j, b) && HandlesEffects(j, j', h, q, res) && LogsGrow(j.inst, j'.inst, Some(Reply(q, res)))
    requires J.Tagged(j.begun, j.flying, j.nextTag)
    ensures BookOk(code, j', Owes(b, h, q))
  {
    assert h !in b.due;
    DueOwed(j.inst, j'.inst, j.w.calling, j.w.frames, b.due, h, q, res);
    GivenStays(code, j.inst, j'.inst, Some(Reply(q, res)), j.w.history, j'.w.history, b, Owes(b, h, q));
    PlaceOwed(b, h, q);
    NotYetOwed(j.begun, j.flying, j.nextTag, b, h);
    ArriveOwed(j.inst, j'.inst, j.w.calling, j.w.history, b, h, q, res);
  }

  lemma HandlesKeeps(code: Code, j: J.System, i: nat, h: Id, res: int, b: Book)
    requires Inv(code, j.w) && J.BackendOk(j) && J.Can(j, J.Handles(i, h, res)) && BookOk(code, j, b)
    ensures BookOk(code, J.After(code, j, J.Handles(i, h, res)), Owes(b, h, j.flying[h]))
  {
    HandlesGrows(code, j, i, h, res);
    HandlesMoves(code, j, i, h, res);
    HandlesBook(code, j, J.After(code, j, J.Handles(i, h, res)), h, j.flying[h], res, b);
  }

  // ---- A program is given a result ----

  /** Frame `h` of root `r`, suspended in `op`, is resumed with `res`. */
  ghost predicate GivesResult(code: Code, w: World, w': World, h: Id, r: Id, op: Request, res: int) {
    && Delivers(w, w', Some(Delivery(h, r, res))) && AllRest(w, w', Some(h)) && r in w.history
    && Asks(code, w.history[r].body, w.history[r].fed, |w.history[r].fed|, op)
  }

  lemma AsksNow(code: Code, hst: History, op: Request)
    requires hst.body.User? && exists f, effects :: RanUpTo(code, hst, f, op, effects)
    ensures Asks(code, hst.body, hst.fed, |hst.fed|, op)
  {
    assert hst.fed[..|hst.fed|] == hst.fed;
    var f, effects :| RanUpTo(code, hst, f, op, effects);
  }

  lemma SuspendedAsks(code: Code, w: World, h: Id, hst: History, op: Request)
    requires Inv(code, w) && SuspendedIn(w.frames, h, op)
    requires w.frames[h].root in w.history ==> hst == w.history[w.frames[h].root]
    ensures w.frames[h].root in w.history && Asks(code, hst.body, hst.fed, |hst.fed|, op)
  {
    SuspendedRan(code, w, h);
    AsksNow(code, hst, op);
  }

  lemma OtherCallback(code: Code, w: World, h: Id, k: Id)
    requires Inv(code, w) && h in w.calling && k in w.calling && k != h
    ensures StillSo(w.frames, Deliver(UseUp(w, h), h, w.calling[h], LoopThread).frames, k)
  {
    J.CallingFacts(code, w, k);
    var chains: Mirror.ChainMap :| Kept(code, w, chains);
    CallbackRests(code, w, chains, k, h);
  }

  lemma CallbackRest(code: Code, w: World, h: Id, w': World)
    requires Inv(code, w) && h in w.calling && w' == Deliver(UseUp(w, h), h, w.calling[h], LoopThread)
    ensures AllRest(w, w', Some(h))
  {
    forall k | k in w.calling && k != h ensures StillSo(w.frames, w'.frames, k) { OtherCallback(code, w, h, k); }
  }

  lemma OtherRefusal(code: Code, w: World, h: Id, err: nat, k: Id)
    requires Inv(code, w) && h in w.submitting && k in w.calling && k != h
    ensures StillSo(w.frames, RefuseOp(w, h, err).frames, k)
  {
    J.CallingFacts(code, w, k);
    var chains: Mirror.ChainMap :| Kept(code, w, chains);
    RefuseRests(code, w, chains, k, h, err);
  }

  lemma RefusalRest(code: Code, w: World, h: Id, err: nat, w': World)
    requires Inv(code, w) && h in w.submitting && w' == RefuseOp(w, h, err)
    ensures AllRest(w, w', Some(h))
  {
    forall k | k in w.calling && k != h ensures StillSo(w.frames, w'.frames, k) { OtherRefusal(code, w, h, err, k); }
  }

  lemma Gives(code: Code, w: World, w': World, h: Id, op: Request, res: int)
    requires Inv(code, w) && SuspendedIn(w.frames, h, op)
    requires Delivers(w, w', Some(Delivery(h, w.frames[h].root, res))) && AllRest(w, w', Some(h))
    ensures GivesResult(code, w, w', h, w.frames[h].root, op, res)
  {
    var r := w.frames[h].root;
    SuspendedAsks(code, w, h, if r in w.history then w.history[r] else History(Synced, Exit, [], [], 0, Alive), op);
  }

  /** From the loop: the callback that was due. */
  lemma CallbackGives(code: Code, w: World, h: Id, w': World)
    requires Inv(code, w) && h in w.calling && w' == Deliver(UseUp(w, h), h, w.calling[h], LoopThread)
    ensures h in w.frames && w.frames[h].status.InIo?
    ensures GivesResult(code, w, w', h, w.frames[h].root, w.frames[h].status.op, w.calling[h])
  {
    J.CallingFacts(code, w, h);
    CallbackDelivers(code, w, h);
    CallbackRest(code, w, h, w');
    Gives(code, w, w', h, w.frames[h].status.op, w.calling[h]);
  }

  /** From inside async_io: the error. */
  lemma RefusalGives(code: Code, w: World, h: Id, err: nat, w': World, res: int)
    requires Inv(code, w) && h in w.submitting && w' == RefuseOp(w, h, err) && res == 0 - err
    ensures h in w.frames && w.frames[h].status.InIo?
    ensures GivesResult(code, w, w', h, w.frames[h].root, w.frames[h].status.op, res)
  {
    J.WaitingFacts(code, w, h);
    RefusalDelivers(code, w, h, err, w', res);
    RefusalRest(code, w, h, err, w');
    Gives(code, w, w', h, w.frames[h].status.op, res);
  }

  /** The book when a callback has run. */
  lemma CallbackBook(code: Code, j: J.System, j': J.System, h: Id, r: Id, op: Request, b: Book)
    requires BookOk(code, j, b) && h in j.w.calling && SuspendedIn(j.w.frames, h, op)
    requires GivesResult(code, j.w, j'.w, h, r, op, j.w.calling[h]) && LogsGrow(j.inst, j'.inst, None)
    requires NotYet(j'.begun, j'.flying, j'.nextTag, b.place)
    ensures h in b.due && BookOk(code, j', Pays(b, h, r, b.due[h]))
  {
    var q, res := b.due[h], j.w.calling[h];
    assert Carried(j.inst, j.w.calling, j.w.frames, h, q);
    StaysLogged(j.inst, j'.inst, None, q, res);
    DuePaid(j.inst, j'.inst, None, j.w.calling, j.w.frames, j'.w.frames, b.due, h);
    GivenMore(code, j.inst, j'.inst, None, j.w.history, j'.w.history, b, h, r, q, res);
    PlacePaid(b, h, r, q);
    NotYetPaid(j'.begun, j'.flying, j'.nextTag, b, h, r);
    ArrivePaid(j.inst, j'.inst, None, j.w.calling, j.w.history, j'.w.history, b, h, r, q, res);
  }

  lemma CallbackAfter(code: Code, j: J.System, h: Id)
    requires J.Can(j, J.Plain(Callback(h)))
    ensures h in j.w.calling && |j.inst| == B.NUM_INSTANCES
    ensures var j' := J.After(code, j, J.Plain(Callback(h)));
            j'.inst == j.inst && j'.w == Deliver(UseUp(j.w, h), h, j.w.calling[h], LoopThread)
  {
  }

  lemma CallbackKeeps(code: Code, j: J.System, h: Id, b: Book)
    requires Inv(code, j.w) && J.Can(j, J.Plain(Callback(h))) && BookOk(code, j, b)
    ensures h in b.due && h in j.w.frames
    ensures BookOk(code, J.After(code, j, J.Plain(Callback(h))), Pays(b, h, j.w.frames[h].root, b.due[h]))
  {
    var e := J.Plain(Callback(h));
    CallbackAfter(code, j, h);
    SameGrows(j.inst);
    NotYetStays(code, j, e, b.place);
    CallbackGives(code, j.w, h, J.After(code, j, e).w);
    CallbackBook(code, j, J.After(code, j, e), h, j.w.frames[h].root, j.w.frames[h].status.op, b);
  }

  ghost predicate RefusesEffects(j: J.System, j': J.System, h: Id, q: Req) {
    && h in j.begun && j.begun[h] == q && SuspendedIn(j.w.frames, h, q.op) && h !in j.w.calling
    && j'.begun == j.begun - {h} && j'.flying == j.flying && j'.nextTag == j.nextTag
  }

  lemma SubmittingFacts(code: Code, w: World, h: Id)
    requires Inv(code, w) && h in w.submitting
    ensures h !in w.calling && SuspendedIn(w.frames, h, w.submitting[h])
  {
    var chains: Mirror.ChainMap :| Kept(code, w, chains);
  }

  lemma RefusesMoves(code: Code, j: J.System, h: Id, c: Ctx, err: nat)
    requires Inv(code, j.w) && J.BackendOk(j) && J.Can(j, J.Refuses(h, c, err))
    ensures RefusesEffects(j, J.After(code, j, J.Refuses(h, c, err)), h, j.begun[h])
  {
    J.RefusesAfter(code, j, h, c, err);
    SubmittingFacts(code, j.w, h);
  }

  lemma RefusesBook(code: Code, j: J.System, j': J.System, h: Id, r: Id, q: Req, res: int, b: Book)
    requires BookOk(code, j, b) && RefusesEffects(j, j', h, q) && J.Tagged(j.begun, j.flying, j.nextTag)
    requires GivesResult(code, j.w, j'.w, h, r, q.op, res) && LogsGrow(j.inst, j'.inst, Some(Reply(q, res)))
    ensures BookOk(code, j', Pays(b, h, r, q))
  {
    var x := Reply(q, res);
    assert h !in b.due && q.id !in b.place;
    NowLogged(j.inst, j'.inst, x);
    DuePaid(j.inst, j'.inst, Some(x), j.w.calling, j.w.frames, j'.w.frames, b.due, h);
    GivenMore(code, j.inst, j'.inst, Some(x), j.w.history, j'.w.history, b, h, r, q, res);
    PlacePaid(b, h, r, q);
    NotYetRefused(j.begun, j.flying, j.nextTag, b, h, r);
    ArrivePaid(j.inst, j'.inst, Some(x), j.w.calling, j.w.history, j'.w.history, b, h, r, q, res);
  }

  lemma RefusesKeeps(code: Code, j: J.System, h: Id, c: Ctx, err: nat, res: int, b: Book)
    requires Inv(code, j.w) && J.BackendOk(j) && J.Can(j, J.Refuses(h, c, err)) && BookOk(code, j, b) && res == 0 - err
    ensures h in j.w.frames && h in j.begun
    ensures BookOk(code, J.After(code, j, J.Refuses(h, c, err)), Pays(b, h, j.w.frames[h].root, j.begun[h]))
  {
    var e := J.Refuses(h, c, err);
    RefusesGrows(code, j, h, c, err, res);
    RefusesMoves(code, j, h, c, err);
    J.RefusesAfter(code, j, h, c, err);
    RefusalGives(code, j.w, h, err, J.After(code, j, e).w, res);
    RefusesBook(code, j, J.After(code, j, e), h, j.w.frames[h].root, j.begun[h], res, b);
  }

  /** Every step keeps the book right. */
  lemma StepKeepsBook(code: Code, j: J.System, e: J.Event, b: Book)
    requires Inv(code, j.w) && J.BackendOk(j) && J.Can(j, e) && BookOk(code, j, b)
    ensures BookOk(code, J.After(code, j, e), Updated(j, b, e))
  {
    if e.Handles? {
      HandlesKeeps(code, j, e.i, e.h, e.res, b);
    } else if e.Refuses? {
      RefusesKeeps(code, j, e.h, e.c, e.err, 0 - e.err, b);
    } else if IsCallback(e) {
      CallbackKeeps(code, j, e.act.h, b);
    } else {
      QuietKeeps(code, j, e, b);
    }
  }
}
