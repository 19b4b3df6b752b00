/** Await chains: the frames of one detached or synchronously awaited coroutine, listed
    from its wrapper outwards, and what such a chain means. */
module Chains {
  import opened Program

  /** Where a coroutine frame stands. */
  datatype Status =
    | Fresh(body: Body)                         // suspended at initial_suspend
    | Running(body: Body)                       // some thread executes it
    | Awaiting(resume: Outcome -> Body)         // suspended in co_await of its own task
    | InIo(op: Request, onResult: int -> Body)  // suspended in an I/O awaitable
    | Done(outcome: Outcome, unregistered: bool)  // at final_suspend; on_destroy_ has run or not
    | Undefined                                 // awaited a null or a finished task

  datatype Cell = Cell(id: nat, status: Status)

  /** `cells[i + 1]` is the frame whose task object is stored in frame `cells[i]`.
      Everything before `active` awaits its successor. */
  datatype Chain = Chain(kind: Kind, cells: seq<Cell>, active: nat)

  ghost predicate Shape(ch: Chain) {
    && ch.active < |ch.cells|
    && (forall i :: 0 <= i < ch.active ==> ch.cells[i].status.Awaiting?)
    && (forall i :: ch.active < i < |ch.cells| ==> ch.cells[i].status.Fresh? || ch.cells[i].status.Done?)
    && (forall i :: ch.active < i < |ch.cells| - 1 ==> ch.cells[i].status.Done?)
    && (forall i :: 0 < i < |ch.cells| && ch.cells[i].status.Done? ==> !ch.cells[i].status.unregistered)
    && !Top(ch).Awaiting?
    && (ch.active > 0 ==> !Top(ch).Fresh? && !Top(ch).Done?)
  }

  function Top(ch: Chain): Status
    requires ch.active < |ch.cells|
  {
    ch.cells[ch.active].status
  }

  predicate HasFreshTask(ch: Chain) {
    ch.active + 1 < |ch.cells| && ch.cells[ch.active + 1].status.Fresh?
  }

  function Slot(ch: Chain): Option<Body> {
    if HasFreshTask(ch) then Some(ch.cells[ch.active + 1].status.body) else None
  }

  function SetTop(ch: Chain, s: Status): Chain
    requires ch.active < |ch.cells|
  {
    ch.(cells := ch.cells[ch.active := ch.cells[ch.active].(status := s)])
  }

  /** The active frame without the task it stored, now in status `s`. */
  function CutTop(ch: Chain, s: Status): Chain
    requires ch.active < |ch.cells|
  {
    ch.(cells := ch.cells[..ch.active] + [ch.cells[ch.active].(status := s)])
  }

  /** final_awaiter: control moves to the continuation; a root stays at its final suspend point. */
  function Finish(ch: Chain, o: Outcome): Chain
    requires Shape(ch)
  {
    var a := ch.active;
    if a == 0 then SetTop(ch, Done(o, false)) else
      ch.(cells := ch.cells[a := ch.cells[a].(status := Done(o, false))]
                           [a - 1 := ch.cells[a - 1].(status := Running(ch.cells[a - 1].status.resume(o)))],
          active := a - 1)
  }

  /** task::await_suspend: the awaiting frame becomes the continuation, the stored task runs. */
  function StartTask(ch: Chain, resume: Outcome -> Body): Chain
    requires Shape(ch) && HasFreshTask(ch)
  {
    var a := ch.active;
    ch.(cells := ch.cells[a := ch.cells[a].(status := Awaiting(resume))]
                         [a + 1 := ch.cells[a + 1].(status := Running(ch.cells[a + 1].status.body))],
        active := a + 1)
  }

  /** One action of the running frame; `n` names the frame a Create allocates. */
  function ExecChain(code: Code, ch: Chain, n: nat): Chain
    requires Shape(ch) && Top(ch).Running?
  {
    match Decode(code, Top(ch).body)
    case Return(v) => Finish(ch, Value(v))
    case Throw(e) => Finish(ch, Exception(e))
    case Emit(_, next) => SetTop(ch, Running(next))
    case Create(child, next) =>
      var cut := CutTop(ch, Running(next));
      cut.(cells := cut.cells + [Cell(n, Fresh(child))])
    case Await(resume) => if HasFreshTask(ch) then StartTask(ch, resume) else SetTop(ch, Undefined)
    case Drop(next) => CutTop(ch, Running(next))
    case Io(op, onResult) => SetTop(ch, InIo(op, onResult))
    case Detach(_, next) => SetTop(ch, Running(next))
  }

  function ObsOf(a: Action<Body, Obs>): seq<Obs> {
    if a.Emit? then [a.x] else []
  }

  function ResumeChain(ch: Chain, res: int): Chain
    requires ch.active < |ch.cells| && Top(ch).InIo?
  {
    SetTop(ch, Running(Top(ch).onResult(res)))
  }

  lemma SetTopKeepsShape(ch: Chain, s: Status)
    requires Shape(ch) && !s.Awaiting? && (ch.active > 0 ==> !s.Fresh? && !s.Done?)
    ensures Shape(SetTop(ch, s)) && Shape(CutTop(ch, s))
  {
  }

  lemma FinishKeepsShape(ch: Chain, o: Outcome)
    requires Shape(ch)
    ensures Shape(Finish(ch, o))
  {
    var ch', a := Finish(ch, o), ch.active;
    if a > 0 {
      assert forall i :: 0 <= i < |ch.cells| && i != a && i != a - 1 ==> ch'.cells[i] == ch.cells[i];
    }
  }

  lemma StartKeepsShape(ch: Chain, resume: Outcome -> Body)
    requires Shape(ch) && HasFreshTask(ch)
    ensures Shape(StartTask(ch, resume))
  {
    var ch', a := StartTask(ch, resume), ch.active;
    assert forall i :: 0 <= i < |ch.cells| && i != a && i != a + 1 ==> ch'.cells[i] == ch.cells[i];
  }

  lemma CreateKeepsShape(ch: Chain, s: Status, c: Cell)
    requires Shape(ch) && s.Running? && c.status.Fresh?
    ensures var cut := CutTop(ch, s); Shape(cut.(cells := cut.cells + [c]))
  {
  }

  lemma ExecKeepsShape(code: Code, ch: Chain, n: nat)
    requires Shape(ch) && Top(ch).Running?
    ensures Shape(ExecChain(code, ch, n))
  {
    match Decode(code, Top(ch).body)
    case Return(v) => FinishKeepsShape(ch, Value(v));
    case Throw(e) => FinishKeepsShape(ch, Exception(e));
    case Emit(_, next) => SetTopKeepsShape(ch, Running(next));
    case Create(child, next) => CreateKeepsShape(ch, Running(next), Cell(n, Fresh(child)));
    case Await(resume) =>
      if HasFreshTask(ch) { StartKeepsShape(ch, resume); } else { SetTopKeepsShape(ch, Undefined); }
    case Drop(next) => SetTopKeepsShape(ch, Running(next));
    case Io(op, onResult) => SetTopKeepsShape(ch, InIo(op, onResult));
    case Detach(_, next) => SetTopKeepsShape(ch, Running(next));
  }

  // ---- Meaning: the rest of a chain, evaluated directly ----

  /** Feeds a result to the awaiting frames, innermost first. */
  function Unwind(code: Code, fuel: nat, cells: seq<Cell>, r: Res): Res
    requires forall i :: 0 <= i < |cells| ==> cells[i].status.Awaiting?
    decreases |cells|
  {
    if cells == [] || !r.Ends? then r else
      var last := cells[|cells| - 1].status;
      Unwind(code, fuel, cells[..|cells| - 1],
             Prepend(r.log, Eval(code, fuel, last.resume(r.outcome), None, r.rest)))
  }

  function EvalTop(code: Code, fuel: nat, ch: Chain, ios: seq<int>): Res
    requires Shape(ch)
  {
    match Top(ch)
    case Fresh(b) => Eval(code, fuel, b, Slot(ch), ios)
    case Running(b) => Eval(code, fuel, b, Slot(ch), ios)
    case InIo(op, onResult) =>
      if ios == [] then Blocked([], op) else Eval(code, fuel, onResult(ios[0]), Slot(ch), ios[1..])
    case Done(o, _) => Ends(o, [], ios)
    case Awaiting(_) => Stuck([])
    case Undefined => Stuck([])
  }

  function EvalChain(code: Code, fuel: nat, ch: Chain, ios: seq<int>): Res
    requires Shape(ch)
  {
    Unwind(code, fuel, ch.cells[..ch.active], EvalTop(code, fuel, ch, ios))
  }

  lemma {:induction false} UnwindMonotone(code: Code, fuel: nat, cells: seq<Cell>, r: Res)
    requires forall i :: 0 <= i < |cells| ==> cells[i].status.Awaiting?
    requires Unwind(code, fuel, cells, r) != OutOfFuel
    ensures Unwind(code, fuel + 1, cells, r) == Unwind(code, fuel, cells, r)
    decreases |cells|
  {
    if cells != [] && r.Ends? {
      var last := cells[|cells| - 1].status;
      var next := Eval(code, fuel, last.resume(r.outcome), None, r.rest);
      EvalMonotone(code, fuel, fuel + 1, last.resume(r.outcome), None, r.rest);
      UnwindMonotone(code, fuel, cells[..|cells| - 1], Prepend(r.log, next));
    }
  }

  lemma PrependTwice(a: seq<Obs>, b: seq<Obs>, r: Res)
    ensures Prepend(a, Prepend(b, r)) == Prepend(a + b, r)
  {
    if r.Stuck? || r.Blocked? || r.Ends? { assert a + (b + r.log) == a + b + r.log; }
  }

  lemma PrependNothing(r: Res)
    ensures Prepend([], r) == r
  {
    if r.Stuck? || r.Blocked? || r.Ends? { assert [] + r.log == r.log; }
  }

  lemma {:induction false} UnwindPrepend(code: Code, fuel: nat, cells: seq<Cell>, log: seq<Obs>, r: Res)
    requires forall i :: 0 <= i < |cells| ==> cells[i].status.Awaiting?
    ensures Unwind(code, fuel, cells, Prepend(log, r)) == Prepend(log, Unwind(code, fuel, cells, r))
    decreases |cells|
  {
    if cells != [] && r.Ends? {
      var next := Eval(code, fuel, cells[|cells| - 1].status.resume(r.outcome), None, r.rest);
      PrependTwice(log, r.log, next);
      UnwindPrepend(code, fuel, cells[..|cells| - 1], log, Prepend(r.log, next));
    }
  }

  /** An action of the top frame that leaves the frames below alone. */
  lemma TopMeaning(code: Code, fuel: nat, ch: Chain, ch': Chain, log: seq<Obs>, ios: seq<int>)
    requires Shape(ch) && Shape(ch') && ch'.active == ch.active
    requires ch'.cells[..ch.active] == ch.cells[..ch.active]
    requires EvalTop(code, fuel + 1, ch, ios) == Prepend(log, EvalTop(code, fuel, ch', ios))
    requires EvalChain(code, fuel, ch', ios) != OutOfFuel
    ensures EvalChain(code, fuel + 1, ch, ios) == Prepend(log, EvalChain(code, fuel, ch', ios))
  {
    UnwindMonotone(code, fuel, ch.cells[..ch.active], EvalTop(code, fuel, ch', ios));
    UnwindPrepend(code, fuel + 1, ch.cells[..ch.active], log, EvalTop(code, fuel, ch', ios));
  }

  lemma FinishMeaning(code: Code, fuel: nat, ch: Chain, o: Outcome, ios: seq<int>)
    requires Shape(ch) && Shape(Finish(ch, o))
    requires EvalTop(code, fuel + 1, ch, ios) == Ends(o, [], ios)
    requires EvalChain(code, fuel, Finish(ch, o), ios) != OutOfFuel
    ensures EvalChain(code, fuel + 1, ch, ios) == EvalChain(code, fuel, Finish(ch, o), ios)
  {
    var a, ch' := ch.active, Finish(ch, o);
    if a > 0 {
      var b := ch.cells[a - 1].status.resume(o);
      assert ch'.cells[..a - 1] == ch.cells[..a][..a - 1];
      var next := Eval(code, fuel, b, None, ios);
      assert EvalTop(code, fuel, ch', ios) == next;
      EvalMonotone(code, fuel, fuel + 1, b, None, ios);
      PrependNothing(next);
      UnwindMonotone(code, fuel, ch'.cells[..a - 1], next);
    }
  }

  lemma AwaitMeaning(code: Code, fuel: nat, ch: Chain, resume: Outcome -> Body, ios: seq<int>)
    requires Shape(ch) && Top(ch).Running? && Decode(code, Top(ch).body) == Await(resume) && HasFreshTask(ch)
    requires Shape(StartTask(ch, resume))
    requires EvalChain(code, fuel, StartTask(ch, resume), ios) != OutOfFuel
    ensures EvalChain(code, fuel + 1, ch, ios) == EvalChain(code, fuel, StartTask(ch, resume), ios)
  {
    var a, ch' := ch.active, StartTask(ch, resume);
    var child := ch.cells[a + 1].status.body;
    assert ch'.cells[..a + 1][..a] == ch.cells[..a];
    assert Slot(ch') == None;
    var r := Eval(code, fuel, child, None, ios);
    assert EvalTop(code, fuel, ch', ios) == r;
    if r.Ends? {
      var next := Prepend(r.log, Eval(code, fuel, resume(r.outcome), None, r.rest));
      assert EvalChain(code, fuel, ch', ios) == Unwind(code, fuel, ch.cells[..a], next);
      UnwindMonotone(code, fuel, ch.cells[..a], next);
    } else {
      assert EvalChain(code, fuel, ch', ios) == r;
      assert EvalTop(code, fuel + 1, ch, ios) == r;
    }
  }

  /** One action of the machine and one unfolding of direct evaluation agree: what is still
      to be evaluated after the action, preceded by what the action showed, is what was
      to be evaluated before. */
  lemma ExecMeaning(code: Code, fuel: nat, ch: Chain, n: nat, ios: seq<int>)
    requires Shape(ch) && Top(ch).Running? && Shape(ExecChain(code, ch, n))
    requires EvalChain(code, fuel, ExecChain(code, ch, n), ios) != OutOfFuel
    ensures EvalChain(code, fuel + 1, ch, ios)
            == Prepend(ObsOf(Decode(code, Top(ch).body)), EvalChain(code, fuel, ExecChain(code, ch, n), ios))
  {
    var ch' := ExecChain(code, ch, n);
    var act := Decode(code, Top(ch).body);
    PrependNothing(EvalChain(code, fuel, ch', ios));
    PrependNothing(EvalTop(code, fuel, ch', ios));
    match act
    case Return(v) => FinishMeaning(code, fuel, ch, Value(v), ios);
    case Throw(e) => FinishMeaning(code, fuel, ch, Exception(e), ios);
    case Await(resume) =>
      if HasFreshTask(ch) {
        AwaitMeaning(code, fuel, ch, resume, ios);
      } else {
        TopMeaning(code, fuel, ch, ch', [], ios);
      }
    case Emit(x, _) => TopMeaning(code, fuel, ch, ch', [x], ios);
    case Create(_, _) => TopMeaning(code, fuel, ch, ch', [], ios);
    case Drop(_) => TopMeaning(code, fuel, ch, ch', [], ios);
    case Io(_, _) => TopMeaning(code, fuel, ch, ch', [], ios);
    case Detach(_, _) => TopMeaning(code, fuel, ch, ch', [], ios);
  }

  /** Handing an I/O result to a suspended chain uses up exactly that result. */
  lemma ResumeMeaning(code: Code, fuel: nat, ch: Chain, res: int, ios: seq<int>)
    requires Shape(ch) && Top(ch).InIo?
    ensures Shape(ResumeChain(ch, res))
    ensures EvalChain(code, fuel, ch, [res] + ios) == EvalChain(code, fuel, ResumeChain(ch, res), ios)
  {
    assert ([res] + ios)[1..] == ios;
    assert ResumeChain(ch, res).cells[..ch.active] == ch.cells[..ch.active];
  }
}
