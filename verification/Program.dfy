/** Coroutine programs and their meaning by direct recursive evaluation.

    A coroutine body is an automaton: at every resume point it offers one action.
    `Code` gives the action of each user-written point, so a program may loop and
    recurse; the two wrapper coroutines of co_excutor are bodies of their own. */
module Program {

  datatype Option<+T> = None | Some(value: T)

  /** What a finished coroutine leaves in its promise: result_ or exception_. */
  datatype Outcome = Value(v: int) | Exception(e: int)

  datatype IoEvent = Recv | Send | Accept | Connect

  /** The part of an async_io call that outlives it. */
  datatype Request = Request(event: IoEvent, fd: int, len: nat)

  /** A resume point of a user coroutine, together with its locals. */
  datatype Point = Point(pc: nat, locals: seq<int>)

  /** What a body does next. `P` is the type of resume points, `X` of visible effects. */
  datatype Action<P, X> =
    | Return(v: int)                              // co_return v
    | Throw(e: int)                               // an exception leaves the body
    | Emit(x: X, next: P)                         // a visible effect
    | Create(child: P, next: P)                   // call a coroutine, store its task object
    | Await(resume: Outcome -> P)                 // co_await the stored task object
    | Drop(next: P)                               // the stored task object goes out of scope
    | Io(op: Request, onResult: int -> P)         // co_await an I/O awaitable
    | Detach(child: P, next: P)                   // co_excutor::detach(child)

  type Code = Point -> Action<Point, int>

  datatype Obs = Effect(x: int) | PromiseSet(o: Outcome)

  datatype Kind = Detached | Synced

  /** User points, and the points of the wrappers built by detach and sync_wait. */
  datatype Body =
    | User(p: Point)
    | Entry(kind: Kind)       // about to co_await the inner task
    | SetPromise(o: Outcome)  // sync_wait: about to set the promise
    | Exit                    // about to co_return

  function Lift(a: Action<Point, int>): Action<Body, Obs> {
    match a
    case Return(v) => Return(v)
    case Throw(e) => Throw(e)
    case Emit(x, next) => Emit(Effect(x), User(next))
    case Create(child, next) => Create(User(child), User(next))
    case Await(resume) => Await(o => User(resume(o)))
    case Drop(next) => Drop(User(next))
    case Io(op, onResult) => Io(op, res => User(onResult(res)))
    case Detach(child, next) => Detach(User(child), User(next))
  }

  /** The next action of any body. A wrapper swallows (detach) or forwards (sync_wait)
      the outcome of its inner task. */
  function Decode(code: Code, b: Body): Action<Body, Obs> {
    match b
    case User(p) => Lift(code(p))
    case Entry(kind) => Await(o => if kind.Synced? then SetPromise(o) else Exit)
    case SetPromise(o) => Emit(PromiseSet(o), Exit)
    case Exit => Return(0)
  }

  /** Result of direct evaluation: `log` is what was observed, `rest` the unused I/O results. */
  datatype Res =
    | OutOfFuel
    | Stuck(log: seq<Obs>)                             // awaited a null or a finished task
    | Blocked(log: seq<Obs>, op: Request)              // waits for an I/O result
    | Ends(outcome: Outcome, log: seq<Obs>, rest: seq<int>)

  function Prepend(log: seq<Obs>, r: Res): Res {
    match r
    case OutOfFuel => OutOfFuel
    case Stuck(l) => Stuck(log + l)
    case Blocked(l, op) => Blocked(log + l, op)
    case Ends(o, l, rest) => Ends(o, log + l, rest)
  }

  function LogOf(t: Res): seq<Obs> {
    match t
    case OutOfFuel => []
    case Stuck(log) => log
    case Blocked(log, _) => log
    case Ends(_, log, _) => log
  }

  /** Direct recursive evaluation: `co_await t` runs the child to its end like a function
      call. `slot` is the not yet started child whose task object the body holds, and
      `ios` are the results the kernel will give to this body's I/O, in order. */
  function Eval(code: Code, fuel: nat, b: Body, slot: Option<Body>, ios: seq<int>): Res
    decreases fuel
  {
    if fuel == 0 then OutOfFuel else
    match Decode(code, b)
    case Return(v) => Ends(Value(v), [], ios)
    case Throw(e) => Ends(Exception(e), [], ios)
    case Emit(x, next) => Prepend([x], Eval(code, fuel - 1, next, slot, ios))
    case Create(child, next) => Eval(code, fuel - 1, next, Some(child), ios)
    case Await(resume) =>
      if slot.None? then Stuck([]) else
      var r := Eval(code, fuel - 1, slot.value, None, ios);
      if r.Ends? then Prepend(r.log, Eval(code, fuel - 1, resume(r.outcome), None, r.rest)) else r
    case Drop(next) => Eval(code, fuel - 1, next, None, ios)
    case Io(op, onResult) =>
      if ios == [] then Blocked([], op) else Eval(code, fuel - 1, onResult(ios[0]), slot, ios[1..])
    case Detach(_, next) => Eval(code, fuel - 1, next, slot, ios)
  }

  /** More fuel never changes an answer. */
  lemma {:induction false} EvalMonotone(code: Code, fuel: nat, more: nat, b: Body, slot: Option<Body>, ios: seq<int>)
    requires fuel <= more
    requires Eval(code, fuel, b, slot, ios) != OutOfFuel
    ensures Eval(code, more, b, slot, ios) == Eval(code, fuel, b, slot, ios)
    decreases fuel
  {
    match Decode(code, b)
    case Return(_) =>
    case Throw(_) =>
    case Emit(_, next) => EvalMonotone(code, fuel - 1, more - 1, next, slot, ios);
    case Create(child, next) => EvalMonotone(code, fuel - 1, more - 1, next, Some(child), ios);
    case Await(resume) =>
      if slot.Some? {
        EvalMonotone(code, fuel - 1, more - 1, slot.value, None, ios);
        var r := Eval(code, fuel - 1, slot.value, None, ios);
        if r.Ends? { EvalMonotone(code, fuel - 1, more - 1, resume(r.outcome), None, r.rest); }
      }
    case Drop(next) => EvalMonotone(code, fuel - 1, more - 1, next, None, ios);
    case Io(op, onResult) =>
      if ios != [] { EvalMonotone(code, fuel - 1, more - 1, onResult(ios[0]), slot, ios[1..]); }
    case Detach(_, next) => EvalMonotone(code, fuel - 1, more - 1, next, slot, ios);
  }
}
