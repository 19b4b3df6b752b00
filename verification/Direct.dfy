/** User code run directly, without wrappers, frames or the bodies of the machine: each action is read
    off `code(p)` as it stands. */
module Direct {
  import opened Program

  /** What a call of a coroutine comes to. */
  datatype Answer =
    | Unsaid                                                          // out of fuel
    | Misuses(effects: seq<int>)                                      // awaits a null or a finished task
    | Waits(effects: seq<int>, op: Request)                           // needs the result of `op`
    | Leaves(outcome: Outcome, effects: seq<int>, rest: seq<int>)     // `rest` are unused results

  /** The effects `first` come before everything else. */
  function Following(first: seq<int>, a: Answer): Answer {
    match a
    case Unsaid => Unsaid
    case Misuses(effects) => Misuses(first + effects)
    case Waits(effects, op) => Waits(first + effects, op)
    case Leaves(o, effects, rest) => Leaves(o, first + effects, rest)
  }

  /** The coroutine at `p`, holding the not yet started coroutine `task`, runs on the results `ios`. */
  function Run(code: Code, fuel: nat, p: Point, task: Option<Point>, ios: seq<int>): Answer
    decreases fuel
  {
    if fuel == 0 then Unsaid else
    match code(p)
    case Return(v) => Leaves(Value(v), [], ios)
    case Throw(e) => Leaves(Exception(e), [], ios)
    case Emit(x, next) => Following([x], Run(code, fuel - 1, next, task, ios))
    case Create(child, next) => Run(code, fuel - 1, next, Some(child), ios)
    case Await(resume) =>
      if task.None? then Misuses([]) else
      var child := Run(code, fuel - 1, task.value, None, ios);
      if child.Leaves?
      then Following(child.effects, Run(code, fuel - 1, resume(child.outcome), None, child.rest))
      else child
    case Drop(next) => Run(code, fuel - 1, next, None, ios)
    case Io(op, onResult) =>
      if ios == [] then Waits([], op) else Run(code, fuel - 1, onResult(ios[0]), task, ios[1..])
    case Detach(_, next) => Run(code, fuel - 1, next, task, ios)
  }

  // ---- The bodies of the machine mean the same ----

  function Observed(effects: seq<int>): seq<Obs> {
    seq(|effects|, i requires 0 <= i < |effects| => Effect(effects[i]))
  }

  function AsRes(a: Answer): Res {
    match a
    case Unsaid => OutOfFuel
    case Misuses(effects) => Stuck(Observed(effects))
    case Waits(effects, op) => Blocked(Observed(effects), op)
    case Leaves(o, effects, rest) => Ends(o, Observed(effects), rest)
  }

  function AsBody(task: Option<Point>): Option<Body> {
    match task
    case None => None
    case Some(p) => Some(User(p))
  }

  lemma FollowingObserved(first: seq<int>, a: Answer)
    ensures AsRes(Following(first, a)) == Prepend(Observed(first), AsRes(a))
  {
    if !a.Unsaid? { assert Observed(first + a.effects) == Observed(first) + Observed(a.effects); }
  }

  /** Evaluation of a user body is the direct run of the user's code. */
  lemma {:induction false} EvalIsRun(code: Code, fuel: nat, p: Point, task: Option<Point>, ios: seq<int>)
    ensures Eval(code, fuel, User(p), AsBody(task), ios) == AsRes(Run(code, fuel, p, task, ios))
    decreases fuel
  {
    if fuel > 0 {
      match code(p)
      case Return(_) =>
      case Throw(_) =>
      case Emit(x, next) =>
        EvalIsRun(code, fuel - 1, next, task, ios);
        FollowingObserved([x], Run(code, fuel - 1, next, task, ios));
        assert Observed([x]) == [Effect(x)];
      case Create(child, next) => EvalIsRun(code, fuel - 1, next, Some(child), ios);
      case Await(resume) =>
        if task.Some? {
          EvalIsRun(code, fuel - 1, task.value, None, ios);
          var child := Run(code, fuel - 1, task.value, None, ios);
          if child.Leaves? {
            EvalIsRun(code, fuel - 1, resume(child.outcome), None, child.rest);
            FollowingObserved(child.effects, Run(code, fuel - 1, resume(child.outcome), None, child.rest));
          }
        }
      case Drop(next) => EvalIsRun(code, fuel - 1, next, None, ios);
      case Io(_, onResult) => if ios != [] { EvalIsRun(code, fuel - 1, onResult(ios[0]), task, ios[1..]); }
      case Detach(_, next) => EvalIsRun(code, fuel - 1, next, task, ios);
    }
  }

  /** More fuel never changes an answer. */
  lemma RunMonotone(code: Code, fuel: nat, more: nat, p: Point, ios: seq<int>)
    requires fuel <= more && Run(code, fuel, p, None, ios) != Unsaid
    ensures Run(code, more, p, None, ios) == Run(code, fuel, p, None, ios)
  {
    EvalIsRun(code, fuel, p, None, ios);
    EvalIsRun(code, more, p, None, ios);
    EvalMonotone(code, fuel, more, User(p), None, ios);
    SameAnswer(Run(code, fuel, p, None, ios), Run(code, more, p, None, ios));
  }

  lemma SameObserved(s: seq<int>, t: seq<int>)
    requires Observed(s) == Observed(t)
    ensures s == t
  {
    assert |Observed(s)| == |Observed(t)|;
    forall i | 0 <= i < |s| ensures s[i] == t[i] { assert Observed(s)[i] == Observed(t)[i]; }
  }

  lemma SameAnswer(a: Answer, b: Answer)
    requires AsRes(a) == AsRes(b)
    ensures a == b
  {
    if !a.Unsaid? { SameObserved(a.effects, b.effects); }
  }
}
