/** How many coroutine activations lie on a thread's own call stack: with symmetric transfer one,
    however long the await chain; with nested resumption as many as the chain has frames. */
module NativeStack {
  import opened Program
  import opened Chains

  /** A chain on its own, with the I/O results it will be given. */
  datatype Solo = Solo(ch: Chain, ios: seq<int>)

  /** One step of a chain; `n` names the frame a Create allocates. */
  ghost function StepSolo(code: Code, s: Solo, n: nat): Solo {
    if !Shape(s.ch) then s
    else if Top(s.ch).Running? then Solo(ExecChain(code, s.ch, n), s.ios)
    else if Top(s.ch).InIo? && s.ios != [] then Solo(ResumeChain(s.ch, s.ios[0]), s.ios[1..])
    else s
  }

  ghost function RunSolo(code: Code, s: Solo, steps: nat, n: nat): Solo
    decreases steps
  {
    if steps == 0 then s else RunSolo(code, StepSolo(code, s, n), steps - 1, n + 1)
  }

  /** Transferred: await_suspend returns the handle to go on with, the caller's activation is gone.
      Nested: await_suspend calls resume() and returns when that returns. */
  datatype Handover = Transferred | Nested

  /** The frame `child` goes on instead of, or on top of, the running one. */
  function Down(how: Handover, stack: seq<nat>, child: nat): seq<nat>
    requires stack != []
  {
    match how
    case Transferred => stack[..|stack| - 1] + [child]
    case Nested => stack + [child]
  }

  /** The running frame has finished and `parent` goes on; a nested caller only has to be returned
      to, unless the chain was resumed further up. */
  function Up(how: Handover, stack: seq<nat>, parent: nat): seq<nat>
    requires stack != []
  {
    match how
    case Transferred => stack[..|stack| - 1] + [parent]
    case Nested => if |stack| > 1 then stack[..|stack| - 1] else [parent]
  }

  /** The call stack after one step of the chain `ch`; a suspension for I/O unwinds it, a callback
      starts a new one. */
  function NextStack(code: Code, s: Solo, how: Handover, stack: seq<nat>): seq<nat>
    requires s.ch.active < |s.ch.cells|
  {
    var ch, a := s.ch, s.ch.active;
    if Top(ch).Running? && stack != [] then
      match Decode(code, Top(ch).body)
      case Await(_) => if HasFreshTask(ch) then Down(how, stack, ch.cells[a + 1].id) else []
      case Return(_) => if a > 0 then Up(how, stack, ch.cells[a - 1].id) else []
      case Throw(_) => if a > 0 then Up(how, stack, ch.cells[a - 1].id) else []
      case Io(_, _) => []
      case _ => stack
    else if Top(ch).InIo? && s.ios != [] then [ch.cells[a].id]
    else stack
  }

  /** The call stack after `steps` steps. */
  ghost function StackAfter(code: Code, s: Solo, steps: nat, n: nat, how: Handover, stack: seq<nat>): seq<nat>
    decreases steps
  {
    if steps == 0 || !Shape(s.ch) then stack
    else StackAfter(code, StepSolo(code, s, n), steps - 1, n + 1, how, NextStack(code, s, how, stack))
  }

  ghost predicate OneActivation(s: Solo, stack: seq<nat>)
    requires Shape(s.ch)
  {
    stack == if Top(s.ch).Running? then [s.ch.cells[s.ch.active].id] else []
  }

  lemma TransferStep(code: Code, s: Solo, n: nat, stack: seq<nat>)
    requires Shape(s.ch) && OneActivation(s, stack)
    ensures Shape(StepSolo(code, s, n).ch)
    ensures OneActivation(StepSolo(code, s, n), NextStack(code, s, Transferred, stack))
  {
    if Top(s.ch).Running? { ExecKeepsShape(code, s.ch, n); }
  }

  /** How far down the chain the call stack reaches with nested resumption: a callback starts a stack
      at the frame it resumes, and only a return below that frame takes the stack further down. */
  function NextBase(code: Code, s: Solo, base: nat): nat
    requires s.ch.active < |s.ch.cells|
  {
    var a := s.ch.active;
    if Top(s.ch).InIo? && s.ios != [] then a
    else if Top(s.ch).Running? && FinishesBody(Decode(code, Top(s.ch).body)) && base == a > 0 then a - 1
    else base
  }

  predicate FinishesBody(a: Action<Body, Obs>) {
    a.Return? || a.Throw?
  }

  ghost function BaseAfter(code: Code, s: Solo, steps: nat, n: nat, base: nat): nat
    decreases steps
  {
    if steps == 0 || !Shape(s.ch) then base
    else BaseAfter(code, StepSolo(code, s, n), steps - 1, n + 1, NextBase(code, s, base))
  }

  /** The frames from `base` up to the active one, in this order. */
  ghost predicate Segment(s: Solo, stack: seq<nat>, base: nat)
    requires Shape(s.ch)
  {
    if Top(s.ch).Running? then
      && base <= s.ch.active && |stack| == s.ch.active + 1 - base
      && forall i :: base <= i <= s.ch.active ==> stack[i - base] == s.ch.cells[i].id
    else stack == []
  }

  /** Frames that stay on the chain keep their ids and their places. */
  lemma SamePlaces(code: Code, ch: Chain, n: nat)
    requires Shape(ch) && Top(ch).Running?
    ensures var ch' := ExecChain(code, ch, n);
            && Shape(ch') && ch'.active <= ch.active + 1
            && forall i :: 0 <= i <= ch'.active && i < |ch.cells| ==> ch'.cells[i].id == ch.cells[i].id
  {
    ExecKeepsShape(code, ch, n);
  }

  /** Where the active frame is after an action. */
  lemma ActiveAfter(code: Code, ch: Chain, n: nat)
    requires Shape(ch) && Top(ch).Running?
    ensures var ch', a := ExecChain(code, ch, n), Decode(code, Top(ch).body);
            && Shape(ch')
            && ch'.active == (if a.Await? && HasFreshTask(ch) then ch.active + 1
                              else if FinishesBody(a) && ch.active > 0 then ch.active - 1 else ch.active)
            && (Top(ch').Running?
                <==> !(a.Io? || (a.Await? && !HasFreshTask(ch)) || (FinishesBody(a) && ch.active == 0)))
  {
    ExecKeepsShape(code, ch, n);
  }

  lemma NestedStep(code: Code, s: Solo, n: nat, stack: seq<nat>, base: nat)
    requires Shape(s.ch) && Segment(s, stack, base)
    ensures Shape(StepSolo(code, s, n).ch)
    ensures Segment(StepSolo(code, s, n), NextStack(code, s, Nested, stack), NextBase(code, s, base))
  {
    if Top(s.ch).Running? {
      SamePlaces(code, s.ch, n);
      ActiveAfter(code, s.ch, n);
    }
  }

  /** With symmetric transfer, in every run of every chain, I/O included: one activation while the
      chain executes, none while it is suspended or done. */
  lemma {:induction false} TransferIsFlat(code: Code, s: Solo, steps: nat, n: nat, stack: seq<nat>)
    requires Shape(s.ch) && OneActivation(s, stack)
    ensures Shape(RunSolo(code, s, steps, n).ch)
    ensures OneActivation(RunSolo(code, s, steps, n), StackAfter(code, s, steps, n, Transferred, stack))
    decreases steps
  {
    if steps > 0 {
      TransferStep(code, s, n, stack);
      TransferIsFlat(code, StepSolo(code, s, n), steps - 1, n + 1, NextStack(code, s, Transferred, stack));
    }
  }

  /** With nested resumption the same run needs an activation for every frame from the one that was
      last resumed (or returned to below it) up to the active one. */
  lemma {:induction false} NestingIsDeep(code: Code, s: Solo, steps: nat, n: nat, stack: seq<nat>, base: nat)
    requires Shape(s.ch) && Segment(s, stack, base)
    ensures Shape(RunSolo(code, s, steps, n).ch)
    ensures Segment(RunSolo(code, s, steps, n), StackAfter(code, s, steps, n, Nested, stack),
                    BaseAfter(code, s, steps, n, base))
    decreases steps
  {
    if steps > 0 {
      NestedStep(code, s, n, stack, base);
      NestingIsDeep(code, StepSolo(code, s, n), steps - 1, n + 1, NextStack(code, s, Nested, stack),
                    NextBase(code, s, base));
    }
  }

  lemma {:induction false} NoIoNoBase(code: Code, s: Solo, steps: nat, n: nat)
    requires s.ios == []
    ensures BaseAfter(code, s, steps, n, 0) == 0
    decreases steps
  {
    if steps > 0 && Shape(s.ch) { NoIoNoBase(code, StepSolo(code, s, n), steps - 1, n + 1); }
  }

  /** Side by side, from a wrapper that a worker has just resumed: depth one against one more than
      the number of frames that wait above the base; all that wait, when there was no I/O. */
  lemma DepthsCompared(code: Code, ch: Chain, ios: seq<int>, steps: nat, n: nat)
    requires Shape(ch) && ch.active == 0 && Top(ch).Running?
    ensures var s, root := Solo(ch, ios), [ch.cells[0].id];
            var t, base := RunSolo(code, s, steps, n).ch, BaseAfter(code, s, steps, n, 0);
            && Shape(t) && (ios == [] ==> base == 0)
            && (Top(t).Running? ==> |StackAfter(code, s, steps, n, Transferred, root)| == 1
                                    && |StackAfter(code, s, steps, n, Nested, root)| == t.active + 1 - base)
  {
    TransferIsFlat(code, Solo(ch, ios), steps, n, [ch.cells[0].id]);
    NestingIsDeep(code, Solo(ch, ios), steps, n, [ch.cells[0].id], 0);
    if ios == [] { NoIoNoBase(code, Solo(ch, ios), steps, n); }
  }
}
