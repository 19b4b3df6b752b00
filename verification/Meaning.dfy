/** The history of a root stays explained by direct evaluation, step by step. */
module Meaning {
  import opened Program
  import opened Chains
  import opened Frames
  import opened Mirror
  import opened Simulation
  import opened Invariant

  lemma ExecFaithful(code: Code, hst: History, ch: Chain, n: nat)
    requires Faithful(code, hst, ch) && Top(ch).Running?
    ensures var obs := ObsOf(Decode(code, Top(ch).body));
            Faithful(code, hst.(log := hst.log + obs, steps := hst.steps + 1), ExecChain(code, ch, n))
  {
    ExecKeepsShape(code, ch, n);
    var obs, ch' := ObsOf(Decode(code, Top(ch).body)), ExecChain(code, ch, n);
    forall fuel: nat, ios | EvalChain(code, fuel, ch', ios) != OutOfFuel
      ensures Eval(code, fuel + (hst.steps + 1), Entry(hst.kind), Some(hst.body), hst.fed + ios)
              == Prepend(hst.log + obs, EvalChain(code, fuel, ch', ios))
    {
      ExecMeaning(code, fuel, ch, n, ios);
      PrependTwice(hst.log, obs, EvalChain(code, fuel, ch', ios));
      assert fuel + 1 + hst.steps == fuel + (hst.steps + 1);
    }
  }

  lemma ResumeFaithful(code: Code, hst: History, ch: Chain, res: int)
    requires Faithful(code, hst, ch) && Top(ch).InIo?
    ensures Faithful(code, hst.(fed := hst.fed + [res]), ResumeChain(ch, res))
  {
    var ch' := ResumeChain(ch, res);
    ResumeMeaning(code, 0, ch, res, []);
    forall fuel: nat, ios | EvalChain(code, fuel, ch', ios) != OutOfFuel
      ensures Eval(code, fuel + hst.steps, Entry(hst.kind), Some(hst.body), hst.fed + [res] + ios)
              == Prepend(hst.log, EvalChain(code, fuel, ch', ios))
    {
      ResumeMeaning(code, fuel, ch, res, ios);
      assert hst.fed + [res] + ios == hst.fed + ([res] + ios);
    }
  }

  /** Changes of the root's status that evaluation does not see. */
  lemma SilentFaithful(code: Code, hst: History, ch: Chain, s: Status)
    requires Faithful(code, hst, ch) && ch.active == 0
    requires (Top(ch).Fresh? && s == Running(Top(ch).body))
             || (Top(ch).Done? && s.Done? && s.outcome == Top(ch).outcome)
    ensures Faithful(code, hst, SetTop(ch, s))
  {
    SetTopKeepsShape(ch, s);
    var ch' := SetTop(ch, s);
    assert Slot(ch') == Slot(ch);
    assert ch'.cells[..0] == ch.cells[..0] == [];
    forall fuel: nat, ios ensures EvalChain(code, fuel, ch', ios) == EvalChain(code, fuel, ch, ios) {
      assert EvalTop(code, fuel, ch', ios) == EvalTop(code, fuel, ch, ios);
    }
  }

  lemma NewFaithful(code: Code, kind: Kind, inner: Id, r: Id, body: Body)
    ensures Faithful(code, History(kind, body, [], [], 0, Alive), NewChain(kind, inner, r, body))
  {
    var ch := NewChain(kind, inner, r, body);
    forall fuel: nat, ios
      ensures Eval(code, fuel, Entry(kind), Some(body), [] + ios) == Prepend([], EvalChain(code, fuel, ch, ios))
    {
      assert [] + ios == ios;
      assert ch.cells[..0] == [];
      PrependNothing(EvalChain(code, fuel, ch, ios));
    }
  }

  /** At its final suspend point a root has done all that direct evaluation does. */
  lemma DoneCompleted(code: Code, hst: History, ch: Chain)
    requires Faithful(code, hst, ch) && ch.active == 0 && Top(ch).Done? && RootBody(ch)
    ensures Completed(code, hst)
  {
    assert ch.cells[..0] == [];
    assert EvalChain(code, 0, ch, []) == Ends(Value(0), [], []);
    assert hst.fed + [] == hst.fed && hst.log + [] == hst.log;
  }

  // ---- The wrapper's own progress ----

  /** Anything user code does leaves the wrapper waiting for its inner task. */
  lemma InnerExec(code: Code, hst: History, ch: Chain, n: nat)
    requires Explains(code, hst, ch) && Top(ch).Running? && ch.active > 0
    ensures var obs, ch' := ObsOf(Decode(code, Top(ch).body)), ExecChain(code, ch, n);
            RootBody(ch') && PromiseOnce(hst.(log := hst.log + obs), ch')
  {
    var obs, ch' := ObsOf(Decode(code, Top(ch).body)), ExecChain(code, ch, n);
    assert UserStatus(ch.cells[ch.active].status);
    assert ch.cells[0].status.Awaiting?;
    assert NoPromise(hst.log + obs);
    forall i | 0 < i < |ch'.cells| ensures UserStatus(ch'.cells[i].status) {
      if i < |ch.cells| { assert UserStatus(ch.cells[i].status); }
    }
  }

  lemma WrapperExec(code: Code, hst: History, ch: Chain, n: nat)
    requires Explains(code, hst, ch) && Top(ch).Running? && ch.active == 0
    ensures var obs, ch' := ObsOf(Decode(code, Top(ch).body)), ExecChain(code, ch, n);
            RootBody(ch') && PromiseOnce(hst.(log := hst.log + obs), ch')
  {
    var obs, ch' := ObsOf(Decode(code, Top(ch).body)), ExecChain(code, ch, n);
    forall i | 0 < i < |ch'.cells| ensures UserStatus(ch'.cells[i].status) {
      assert UserStatus(ch.cells[i].status);
    }
    if Top(ch).body.SetPromise? {
      assert (hst.log + obs)[..|hst.log + obs| - 1] == hst.log;
    } else {
      assert hst.log + obs == hst.log;
    }
  }

  lemma ExecExplains(code: Code, hst: History, ch: Chain, n: nat)
    requires Explains(code, hst, ch) && Top(ch).Running?
    ensures var obs := ObsOf(Decode(code, Top(ch).body));
            Explains(code, hst.(log := hst.log + obs, steps := hst.steps + 1), ExecChain(code, ch, n))
  {
    ExecFaithful(code, hst, ch, n);
    if ch.active > 0 { InnerExec(code, hst, ch, n); } else { WrapperExec(code, hst, ch, n); }
  }

  lemma ResumeExplains(code: Code, hst: History, ch: Chain, res: int)
    requires Explains(code, hst, ch) && Top(ch).InIo?
    ensures Explains(code, hst.(fed := hst.fed + [res]), ResumeChain(ch, res))
  {
    ResumeFaithful(code, hst, ch, res);
    assert UserStatus(ch.cells[ch.active].status);
    forall i | 0 < i < |ch.cells| ensures UserStatus(ResumeChain(ch, res).cells[i].status) {
      assert UserStatus(ch.cells[i].status);
    }
  }

  // ---- What the wrapper adds to the evaluation of its inner task ----

  /** The wrapper's evaluation is the inner task's, and the promise for sync_wait. */
  lemma EntryUnfolds(code: Code, fuel: nat, kind: Kind, body: Body, fed: seq<int>, log: seq<Obs>)
    requires Eval(code, fuel, Entry(kind), Some(body), fed) == Ends(Value(0), log, [])
    ensures exists f: nat, o, inner ::
              Eval(code, f, body, None, fed) == Ends(o, inner, [])
              && log == inner + (if kind.Synced? then [PromiseSet(o)] else [])
  {
    var r := Eval(code, fuel - 1, body, None, fed);
    assert Eval(code, fuel, Entry(kind), Some(body), fed)
           == Prepend(r.log, Eval(code, fuel - 1, AfterInner(kind, r.outcome), None, r.rest));
    if kind.Synced? {
      assert Eval(code, fuel - 1, SetPromise(r.outcome), None, r.rest)
             == Prepend([PromiseSet(r.outcome)], Eval(code, fuel - 2, Exit, None, r.rest));
      assert Eval(code, fuel - 2, Exit, None, r.rest) == Ends(Value(0), [], r.rest);
    }
  }

  lemma AfterInnerEnds(code: Code, fuel: nat, kind: Kind, o: Outcome, ios: seq<int>)
    ensures !Eval(code, fuel, AfterInner(kind, o), None, ios).Blocked?
            && !Eval(code, fuel, AfterInner(kind, o), None, ios).Stuck?
  {
    if fuel >= 2 && kind.Synced? {
      assert Eval(code, fuel, SetPromise(o), None, ios)
             == Prepend([PromiseSet(o)], Eval(code, fuel - 1, Exit, None, ios));
    }
  }

  lemma BlockedBody(code: Code, hst: History, ch: Chain)
    requires Explains(code, hst, ch) && Top(ch).InIo?
    ensures exists f: nat :: Eval(code, f, hst.body, None, hst.fed) == Blocked(hst.log, Top(ch).op)
  {
    var op := Top(ch).op;
    assert EvalChain(code, 0, ch, []) == Blocked([], op);
    assert hst.fed + [] == hst.fed && hst.log + [] == hst.log;
    assert Eval(code, 0 + hst.steps, Entry(hst.kind), Some(hst.body), hst.fed + []) == Blocked(hst.log, op);
    var inner := Eval(code, hst.steps - 1, hst.body, None, hst.fed);
    if inner.Ends? { AfterInnerEnds(code, hst.steps - 1, hst.kind, inner.outcome, inner.rest); }
  }

  /** A chain that stands at a misused await: direct evaluation is stuck there, too. */
  lemma StuckBody(code: Code, hst: History, ch: Chain)
    requires Explains(code, hst, ch) && Top(ch).Undefined?
    ensures exists f: nat :: Eval(code, f, hst.body, None, hst.fed) == Stuck(hst.log)
  {
    assert EvalChain(code, 0, ch, []) == Stuck([]);
    assert hst.fed + [] == hst.fed && hst.log + [] == hst.log;
    assert Eval(code, 0 + hst.steps, Entry(hst.kind), Some(hst.body), hst.fed + []) == Stuck(hst.log);
    var inner := Eval(code, hst.steps - 1, hst.body, None, hst.fed);
    if inner.Ends? { AfterInnerEnds(code, hst.steps - 1, hst.kind, inner.outcome, inner.rest); }
  }

  /** Two evaluations that both come to a result come to the same one. */
  lemma SameResult(code: Code, f: nat, g: nat, b: Body, slot: Option<Body>, ios: seq<int>)
    requires Eval(code, f, b, slot, ios) != OutOfFuel && Eval(code, g, b, slot, ios) != OutOfFuel
    ensures Eval(code, f, b, slot, ios) == Eval(code, g, b, slot, ios)
  {
    if f <= g { EvalMonotone(code, f, g, b, slot, ios); } else { EvalMonotone(code, g, f, b, slot, ios); }
  }

  lemma NotStuck(code: Code, f: nat, hst: History)
    requires var r := Eval(code, f, hst.body, None, hst.fed); r.Ends? || r.Blocked?
    ensures !StuckOn(code, hst)
  {
    if g: nat :| Eval(code, g, hst.body, None, hst.fed).Stuck? {
      SameResult(code, f, g, hst.body, None, hst.fed);
    }
  }

  /** destroy_all hits a root while user code is suspended, or stands at a misused await. */
  lemma KilledOver(code: Code, hst: History, ch: Chain)
    requires Explains(code, hst, ch) && (Top(ch).InIo? || Top(ch).Undefined?) && hst.kind.Detached?
    ensures Over(code, hst.(phase := Killed), Top(ch).Undefined?)
  {
    if Top(ch).Undefined? {
      StuckBody(code, hst, ch);
    } else {
      BlockedBody(code, hst, ch);
      var f: nat :| Eval(code, f, hst.body, None, hst.fed) == Blocked(hst.log, Top(ch).op);
      NotStuck(code, f, hst.(phase := Killed));
    }
  }

  lemma FinishedOver(code: Code, hst: History)
    requires Completed(code, hst)
    ensures Over(code, hst.(phase := Finished), false)
  {
    EntryUnfolds(code, hst.steps, hst.kind, hst.body, hst.fed, hst.log);
    var f: nat, o, inner :| Eval(code, f, hst.body, None, hst.fed) == Ends(o, inner, []);
    NotStuck(code, f, hst.(phase := Finished));
  }

  /** User code cannot set the promise of sync_wait. */
  lemma {:induction false} EvalNoPromise(code: Code, fuel: nat, b: Body, slot: Option<Body>, ios: seq<int>)
    requires b.User? && (slot.Some? ==> slot.value.User?)
    ensures NoPromise(LogOf(Eval(code, fuel, b, slot, ios)))
    decreases fuel
  {
    if fuel > 0 {
      match Decode(code, b)
      case Return(_) =>
      case Throw(_) =>
      case Emit(_, next) => EvalNoPromise(code, fuel - 1, next, slot, ios);
      case Create(child, next) => EvalNoPromise(code, fuel - 1, next, Some(child), ios);
      case Await(resume) =>
        if slot.Some? {
          EvalNoPromise(code, fuel - 1, slot.value, None, ios);
          var r := Eval(code, fuel - 1, slot.value, None, ios);
          if r.Ends? { EvalNoPromise(code, fuel - 1, resume(r.outcome), None, r.rest); }
        }
      case Drop(next) => EvalNoPromise(code, fuel - 1, next, None, ios);
      case Io(_, onResult) => if ios != [] { EvalNoPromise(code, fuel - 1, onResult(ios[0]), slot, ios[1..]); }
      case Detach(_, next) => EvalNoPromise(code, fuel - 1, next, slot, ios);
    }
  }
}
