/** Completeness: whenever direct recursive evaluation of a root's body comes to a result, steps of
    that root alone take the whole machine there: heap, continuation links, callbacks and registry. */
module Termination {
  import opened Program
  import opened Direct
  import opened Chains
  import opened Frames
  import opened Mirror
  import opened Simulation
  import opened Invariant
  import opened Meaning
  import opened ExecStep
  import opened RootSteps
  import opened Steps
  import opened Runs

  // ---- Runs in which only one root moves ----

  /** The steps that resume, suspend or end one frame. */
  ghost predicate Moving(e: Event) {
    e.Start? || e.Exec? || e.Submit? || e.Harvest? || e.Callback? || e.Unregister? || e.DestroySelf?
  }

  /** The frame that such a step moves. */
  ghost function FrameOf(e: Event): Id {
    match e
    case Start(h) => h
    case Exec(h) => h
    case Submit(h) => h
    case Harvest(h, _) => h
    case Callback(h) => h
    case Unregister(h) => h
    case DestroySelf(h) => h
    case _ => 0
  }

  ghost function RootOf(w: World, h: Id): Id {
    if h in w.frames then w.frames[h].root else h
  }

  ghost predicate LeadsFor(code: Code, w: World, es: seq<Event>, w': World, r: Id)
    decreases |es|
  {
    if es == [] then w' == w else
      Legal(w, es[0]) && RootOf(w, FrameOf(es[0])) == r && LeadsFor(code, Next(code, w, es[0]), es[1..], w', r)
  }

  /** The events lead from `w` to `w'`, and only frames of root `r` move. */
  ghost predicate Alone(code: Code, w: World, es: seq<Event>, w': World, r: Id) {
    (forall i :: 0 <= i < |es| ==> Moving(es[i])) && LeadsFor(code, w, es, w', r)
  }

  lemma {:induction false} ForLeads(code: Code, w: World, es: seq<Event>, w': World, r: Id)
    requires LeadsFor(code, w, es, w', r)
    ensures Leads(code, w, es, w')
    decreases |es|
  {
    if es != [] { ForLeads(code, Next(code, w, es[0]), es[1..], w', r); }
  }

  lemma AloneLeads(code: Code, w: World, es: seq<Event>, w': World, r: Id)
    requires Alone(code, w, es, w', r)
    ensures Leads(code, w, es, w')
  {
    ForLeads(code, w, es, w', r);
  }

  lemma {:induction false} ForThen(code: Code, w: World, es: seq<Event>, u: World, fs: seq<Event>, w': World, r: Id)
    requires LeadsFor(code, w, es, u, r) && LeadsFor(code, u, fs, w', r)
    ensures LeadsFor(code, w, es + fs, w', r)
    decreases |es|
  {
    if es == [] {
      assert es + fs == fs;
    } else {
      ForThen(code, Next(code, w, es[0]), es[1..], u, fs, w', r);
      assert (es + fs)[1..] == es[1..] + fs;
    }
  }

  lemma AloneThen(code: Code, w: World, es: seq<Event>, u: World, fs: seq<Event>, w': World, r: Id)
    requires Alone(code, w, es, u, r) && Alone(code, u, fs, w', r)
    ensures Alone(code, w, es + fs, w', r)
  {
    ForThen(code, w, es, u, fs, w', r);
  }

  lemma AloneOnce(code: Code, w: World, e: Event, r: Id)
    requires Legal(w, e) && Moving(e) && RootOf(w, FrameOf(e)) == r
    ensures Alone(code, w, [e], Next(code, w, e), r)
  {
    assert [e][1..] == [];
    assert Alone(code, Next(code, w, e), [], Next(code, w, e), r);
  }

  /** What a root has shown and been given in between. */
  ghost predicate Shown(hst: History, hst': History, log: seq<Obs>, used: seq<int>) {
    && hst'.kind == hst.kind && hst'.body == hst.body
    && hst'.log == hst.log + log && hst'.fed == hst.fed + used
  }

  lemma ShownThen(a: History, b: History, c: History, log: seq<Obs>, used: seq<int>, log': seq<Obs>, used': seq<int>)
    requires Shown(a, b, log, used) && Shown(b, c, log', used')
    ensures Shown(a, c, log + log', used + used')
  {
    assert a.log + log + log' == a.log + (log + log');
    assert a.fed + used + used' == a.fed + (used + used');
  }

  // ---- Single steps ----

  /** What a root's own steps need: its chain is in the heap, the backend is up, ids are fresh. */
  ghost predicate Local(w: World, r: Id, ch: Chain) {
    && Holds(w.frames, r, ch) && r in w.history && w.running
    && (forall h :: h in w.frames ==> h < w.next)
    && (forall x :: x in w.history ==> x < w.next)
  }

  ghost predicate Going(w: World, r: Id, ch: Chain) {
    Local(w, r, ch) && Top(ch).Running?
  }

  ghost function Active(ch: Chain): Id
    requires ch.active < |ch.cells|
  {
    ch.cells[ch.active].id
  }

  lemma CoreEffects(w: World, h: Id, a: Action<Body, Obs>)
    requires h in w.frames && w.frames[h].status.Running?
    ensures Core(w, h, a).history == w.history && Core(w, h, a).running == w.running
    ensures Core(w, h, a).inflight == w.inflight && Core(w, h, a).calling == w.calling
    ensures Core(w, h, a).submitting == if a.Io? then w.submitting[h := a.op] else w.submitting
  {
    match a
    case Return(v) => FinishEffects(w, h, Value(v));
    case Throw(e) => FinishEffects(w, h, Exception(e));
    case Await(resume) => AwaitEffects(w, h, resume);
    case Create(child, next) => case Drop(next) =>
    case Emit(_, _) => case Io(_, _) => case Detach(_, _) =>
  }

  ghost predicate SameBooks(w: World, w': World) {
    && w'.history == w.history && w'.running == w.running
    && w'.submitting == w.submitting && w'.inflight == w.inflight && w'.calling == w.calling
  }

  lemma TransferEffects(w: World, cont: Option<Id>, o: Outcome)
    ensures SameBooks(w, Transfer(w, cont, o))
  {
    match cont
    case None =>
    case Some(p) => if p in w.frames && w.frames[p].status.Awaiting? { GoesOn(w, p, o); } else { GoesAstray(w, p, o); }
  }

  lemma GoesOn(w: World, p: Id, o: Outcome)
    requires p in w.frames && w.frames[p].status.Awaiting?
    ensures SameBooks(w, Transfer(w, Some(p), o))
  {
  }

  lemma GoesAstray(w: World, p: Id, o: Outcome)
    requires !(p in w.frames && w.frames[p].status.Awaiting?)
    ensures SameBooks(w, Transfer(w, Some(p), o))
  {
  }

  lemma FinishEffects(w: World, h: Id, o: Outcome)
    requires h in w.frames
    ensures SameBooks(w, FinishFrame(w, h, o))
  {
    TransferEffects(SetStatus(w, h, Done(o, false)), w.frames[h].continuation, o);
  }

  lemma AwaitEffects(w: World, h: Id, resume: Outcome -> Body)
    requires h in w.frames
    ensures SameBooks(w, AwaitTask(w, h, resume))
  {
    var task := w.frames[h].task;
    if task.Some? && task.value in w.frames && w.frames[task.value].status.Fresh? {
      StartEffects(w, h, task.value, resume);
    } else {
      MisuseEffects(w, h, resume);
    }
  }

  lemma StartEffects(w: World, h: Id, c: Id, resume: Outcome -> Body)
    requires h in w.frames && w.frames[h].task == Some(c) && c in w.frames && w.frames[c].status.Fresh?
    ensures SameBooks(w, AwaitTask(w, h, resume))
  {
  }

  lemma MisuseEffects(w: World, h: Id, resume: Outcome -> Body)
    requires h in w.frames
    requires w.frames[h].task.Some? ==> var c := w.frames[h].task.value; !(c in w.frames && w.frames[c].status.Fresh?)
    ensures SameBooks(w, AwaitTask(w, h, resume))
  {
  }

  lemma NoteEffects(w: World, r: Id, obs: seq<Obs>)
    requires r in w.history
    ensures var w' := Note(w, r, [], obs, 1);
            && w'.running == w.running && w'.submitting == w.submitting && w'.inflight == w.inflight
            && w'.calling == w.calling && r in w'.history
            && Shown(w.history[r], w'.history[r], obs, [])
            && (forall x :: x in w'.history ==> x in w.history)
  {
  }

  lemma ExecEffects(code: Code, w: World, h: Id)
    requires h in w.frames && w.frames[h].status.Running?
    requires w.frames[h].root in w.history && forall r :: r in w.history ==> r < w.next
    ensures var r, a, w' := w.frames[h].root, Decode(code, w.frames[h].status.body), ExecFrame(code, w, h);
            && w'.running == w.running && r in w'.history && Shown(w.history[r], w'.history[r], ObsOf(a), [])
            && w'.inflight == w.inflight && w'.calling == w.calling
            && w'.submitting == (if a.Io? then w.submitting[h := a.op] else w.submitting)
  {
    var r, a := w.frames[h].root, Decode(code, w.frames[h].status.body);
    ExecSplits(code, w, h);
    CoreEffects(w, h, a);
    NoteEffects(Core(w, h, a), r, ObsOf(a));
  }

  lemma CoreLocal(code: Code, w: World, r: Id, ch: Chain, a: Action<Body, Obs>)
    requires Going(w, r, ch) && a == Decode(code, Top(ch).body)
    ensures Active(ch) in w.frames
    ensures var w1 := Core(w, Active(ch), a);
            && Holds(w1.frames, r, ExecChain(code, ch, w.next)) && w.next <= w1.next
            && (forall h :: h in w1.frames ==> h < w1.next)
  {
    ActSimulates(code, w, r, ch, a);
    var w1, ch' := Core(w, Active(ch), a), ExecChain(code, ch, w.next);
    DistinctCells(w.frames, r, ch);
    forall h | h in w1.frames ensures h < w1.next {
      ExecIds(code, ch, w.next, h);
      if h in IdSet(ch.cells) { CellsLive(w.frames, r, ch, h); }
    }
  }

  lemma NewRootLocal(w: World, r: Id, ch: Chain, child: Body)
    requires Local(w, r, ch)
    ensures Local(NewRoot(w, Detached, child), r, ch) && NewRoot(w, Detached, child).history[r] == w.history[r]
    ensures NewRoot(w, Detached, child).submitting == w.submitting
  {
    var w' := NewRoot(w, Detached, child);
    forall i | 0 <= i < |ch.cells| ensures At(w'.frames, r, ch, i) { assert At(w.frames, r, ch, i); }
  }

  lemma NoteLocal(w: World, r: Id, ch: Chain, obs: seq<Obs>)
    requires Local(w, r, ch)
    ensures Local(Note(w, r, [], obs, 1), r, ch)
  {
    NoteEffects(w, r, obs);
  }

  /** The active frame performs its action. */
  lemma ExecOne(code: Code, w: World, r: Id, ch: Chain) returns (w': World)
    requires Going(w, r, ch)
    ensures Local(w', r, ExecChain(code, ch, w.next)) && Alone(code, w, [Exec(Active(ch))], w', r)
    ensures var a := Decode(code, Top(ch).body);
            Shown(w.history[r], w'.history[r], ObsOf(a), []) && (a.Io? ==> Active(ch) in w'.submitting)
  {
    var h, a, ch' := Active(ch), Decode(code, Top(ch).body), ExecChain(code, ch, w.next);
    TopIs(w.frames, r, ch);
    CoreLocal(code, w, r, ch, a);
    CoreEffects(w, h, a);
    ExecSplits(code, w, h);
    var w1 := Note(Core(w, h, a), r, [], ObsOf(a), 1);
    NoteEffects(Core(w, h, a), r, ObsOf(a));
    NoteLocal(Core(w, h, a), r, ch', ObsOf(a));
    w' := ExecFrame(code, w, h);
    if a.Detach? { NewRootLocal(w1, r, ch', a.child); }
    AloneOnce(code, w, Exec(h), r);
  }

  lemma SubmitOne(code: Code, w: World, r: Id, ch: Chain)
    requires Local(w, r, ch) && Top(ch).InIo? && Active(ch) in w.submitting
    ensures var h, w' := Active(ch), SubmitOp(w, Active(ch));
            && Local(w', r, ch) && h in w'.inflight && w'.history == w.history
            && Alone(code, w, [Submit(h)], w', r)
  {
    TopIs(w.frames, r, ch);
    AloneOnce(code, w, Submit(Active(ch)), r);
  }

  lemma HarvestOne(code: Code, w: World, r: Id, ch: Chain, res: int) returns (w': World)
    requires Local(w, r, ch) && Top(ch).InIo? && Active(ch) in w.inflight
    ensures var h := Active(ch);
            && Local(w', r, ch) && h in w'.calling && w'.calling[h] == res && w'.history == w.history
            && Alone(code, w, [Harvest(h, res)], w', r)
  {
    var h := Active(ch);
    TopIs(w.frames, r, ch);
    AloneOnce(code, w, Harvest(h, res), r);
    w' := w.(inflight := w.inflight - {h}, calling := w.calling[h := res]);
  }

  lemma CallbackOne(code: Code, w: World, r: Id, ch: Chain, res: int) returns (w': World)
    requires Local(w, r, ch) && Top(ch).InIo? && Active(ch) in w.calling && w.calling[Active(ch)] == res
    ensures Local(w', r, ResumeChain(ch, res)) && Alone(code, w, [Callback(Active(ch))], w', r)
    ensures Shown(w.history[r], w'.history[r], [], [res])
  {
    var h, ch' := Active(ch), ResumeChain(ch, res);
    TopIs(w.frames, r, ch);
    SetTopKeepsShape(ch, Top(ch'));
    SetTopRewrites(w.frames, r, ch, Top(ch'));
    CallbackAlone(code, w, h, r);
    w' := Deliver(UseUp(w, h), h, res, LoopThread);
    Delivered(UseUp(w, h), h, res, LoopThread);
    assert w.history[r].log + [] == w.history[r].log;
  }

  lemma CallbackAlone(code: Code, w: World, h: Id, r: Id)
    requires h in w.frames && w.frames[h].root == r && h in w.calling
    ensures Alone(code, w, [Callback(h)], Deliver(UseUp(w, h), h, w.calling[h], LoopThread), r)
  {
    AloneOnce(code, w, Callback(h), r);
  }

  /** A suspended operation is submitted, answered with `res`, and its callback runs. */
  lemma IoOne(code: Code, w: World, r: Id, ch: Chain, res: int) returns (w': World, es: seq<Event>)
    requires Local(w, r, ch) && Top(ch).InIo? && Active(ch) in w.submitting
    ensures Local(w', r, ResumeChain(ch, res)) && Alone(code, w, es, w', r)
    ensures Shown(w.history[r], w'.history[r], [], [res])
  {
    var h := Active(ch);
    SubmitOne(code, w, r, ch);
    var w1 := SubmitOp(w, h);
    var w2 := HarvestOne(code, w1, r, ch, res);
    w' := CallbackOne(code, w2, r, ch, res);
    AloneThen(code, w, [Submit(h)], w1, [Harvest(h, res)], w2, r);
    AloneThen(code, w, [Submit(h)] + [Harvest(h, res)], w2, [Callback(h)], w', r);
    es := [Submit(h)] + [Harvest(h, res)] + [Callback(h)];
  }

  // ---- Coming to a result ----

  ghost predicate FinishesWith(a: Action<Body, Obs>, o: Outcome) {
    (a.Return? && o == Value(a.v)) || (a.Throw? && o == Exception(a.e))
  }

  /** The same frame is active over the same frames. */
  ghost predicate Stays(ch: Chain, ch': Chain) {
    && Shape(ch) && Shape(ch') && ch'.active == ch.active && ch'.kind == ch.kind
    && ch'.cells[..ch'.active] == ch.cells[..ch.active] && Active(ch') == Active(ch)
  }

  /** The chain is where evaluation of the active body says: about to finish that body with its
      outcome, at a misused await, or suspended in the operation that has no result yet. */
  ghost predicate AtResult(code: Code, ch: Chain, ch': Chain, t: Res) {
    Shape(ch') &&
    match t
    case OutOfFuel => false
    case Stuck(_) => Top(ch').Undefined?
    case Blocked(_, op) => Top(ch').InIo? && Top(ch').op == op
    case Ends(o, _, _) => Stays(ch, ch') && Top(ch').Running? && FinishesWith(Decode(code, Top(ch').body), o)
  }

  /** The I/O results that `t` has used: the first `k`, and all but the rest of an evaluation that ends. */
  ghost predicate Uses(t: Res, ios: seq<int>, k: nat) {
    && k <= |ios|
    && (t.Ends? ==> t.rest == ios[k..])
    && (t.Blocked? ==> k == |ios|)
  }

  /** Steps of `r` alone lead from `w` to where evaluating to `t` leads. */
  ghost predicate Reached(code: Code, w: World, ch: Chain, r: Id, ios: seq<int>, t: Res,
                          es: seq<Event>, w': World, ch': Chain, k: nat)
  {
    && Alone(code, w, es, w', r)
    && AtResult(code, ch, ch', t) && Uses(t, ios, k)
    && r in w.history && r in w'.history && Shown(w.history[r], w'.history[r], LogOf(t), ios[..k])
  }

  /** Some steps that showed `log`, then what follows. */
  lemma Then(code: Code, w: World, ch: Chain, r: Id, ios: seq<int>, log: seq<Obs>, j: nat, es: seq<Event>,
             u: World, ch1: Chain, t: Res, fs: seq<Event>, w': World, ch': Chain, k: nat)
    requires Alone(code, w, es, u, r) && j <= |ios|
    requires r in w.history && r in u.history && Shown(w.history[r], u.history[r], log, ios[..j])
    requires Reached(code, u, ch1, r, ios[j..], t, fs, w', ch', k)
    requires t.Ends? ==> Stays(ch, ch1)
    ensures Reached(code, w, ch, r, ios, Prepend(log, t), es + fs, w', ch', j + k)
  {
    AloneThen(code, w, es, u, fs, w', r);
    ShownThen(w.history[r], u.history[r], w'.history[r], log, ios[..j], LogOf(t), ios[j..][..k]);
    assert ios[..j] + ios[j..][..k] == ios[..j + k];
    assert ios[j..][k..] == ios[j + k..];
  }

  /** Where the body goes on after an action that keeps it active, and with which task. */
  ghost predicate PlainTo(a: Action<Body, Obs>, slot: Option<Body>, next: Body, slot': Option<Body>) {
    match a
    case Emit(_, b) => b == next && slot' == slot
    case Create(child, b) => b == next && slot' == Some(child)
    case Drop(b) => b == next && slot' == None
    case Detach(_, b) => b == next && slot' == slot
    case _ => false
  }

  lemma StepStays(code: Code, ch: Chain, n: nat, next: Body, slot: Option<Body>)
    requires Shape(ch) && Top(ch).Running? && PlainTo(Decode(code, Top(ch).body), Slot(ch), next, slot)
    ensures var ch' := ExecChain(code, ch, n); Stays(ch, ch') && Top(ch') == Running(next) && Slot(ch') == slot
  {
    ExecKeepsShape(code, ch, n);
  }

  /** Evaluation of the active body comes to `t`; then so does the machine. */
  lemma {:induction false} Reaches(code: Code, fuel: nat, w: World, r: Id, ch: Chain, ios: seq<int>, t: Res)
    returns (es: seq<Event>, w': World, ch': Chain, k: nat)
    requires Going(w, r, ch) && t != OutOfFuel && t == Eval(code, fuel, Top(ch).body, Slot(ch), ios)
    ensures Local(w', r, ch') && Reached(code, w, ch, r, ios, t, es, w', ch', k)
    decreases fuel, 2
  {
    match Decode(code, Top(ch).body) {
      case Return(_) => es, w', ch', k := ReachesNow(code, w, r, ch, ios, t);
      case Throw(_) => es, w', ch', k := ReachesNow(code, w, r, ch, ios, t);
      case Await(resume) =>
        if HasFreshTask(ch) {
          es, w', ch', k := AwaitReaches(code, fuel, w, r, ch, ios, t, resume);
        } else {
          es, w', ch', k := MisuseReaches(code, w, r, ch, ios, t);
        }
      case Io(_, onResult) => es, w', ch', k := IoReaches(code, fuel, w, r, ch, ios, t, onResult);
      case Emit(_, next) => es, w', ch', k := PlainReaches(code, fuel, w, r, ch, ios, t, next, Slot(ch));
      case Create(child, next) => es, w', ch', k := PlainReaches(code, fuel, w, r, ch, ios, t, next, Some(child));
      case Drop(next) => es, w', ch', k := PlainReaches(code, fuel, w, r, ch, ios, t, next, None);
      case Detach(_, next) => es, w', ch', k := PlainReaches(code, fuel, w, r, ch, ios, t, next, Slot(ch));
    }
  }

  lemma ReachesNow(code: Code, w: World, r: Id, ch: Chain, ios: seq<int>, t: Res)
    returns (es: seq<Event>, w': World, ch': Chain, k: nat)
    requires Going(w, r, ch)
    requires t.Ends? && t.log == [] && t.rest == ios && FinishesWith(Decode(code, Top(ch).body), t.outcome)
    ensures Local(w', r, ch') && Reached(code, w, ch, r, ios, t, es, w', ch', k)
  {
    es, w', ch', k := [], w, ch, 0;
    assert w.history[r].log + [] == w.history[r].log && w.history[r].fed + [] == w.history[r].fed;
    assert ios[..0] == [] && ios[0..] == ios;
  }

  lemma {:induction false} PlainReaches(code: Code, fuel: nat, w: World, r: Id, ch: Chain, ios: seq<int>, t: Res,
                                        next: Body, slot: Option<Body>)
    returns (es: seq<Event>, w': World, ch': Chain, k: nat)
    requires Going(w, r, ch) && t != OutOfFuel && fuel > 0 && t == Eval(code, fuel, Top(ch).body, Slot(ch), ios)
    requires PlainTo(Decode(code, Top(ch).body), Slot(ch), next, slot)
    ensures Local(w', r, ch') && Reached(code, w, ch, r, ios, t, es, w', ch', k)
    decreases fuel, 1
  {
    var obs := ObsOf(Decode(code, Top(ch).body));
    PrependNothing(t);
    StepStays(code, ch, w.next, next, slot);
    var ch1 := ExecChain(code, ch, w.next);
    var u := ExecOne(code, w, r, ch);
    assert ios[..0] == [] && ios[0..] == ios;
    es, w', ch', k := Onward(code, fuel - 1, w, r, ch, ios, t, obs, 0, [Exec(Active(ch))], u, ch1, next, slot);
  }

  lemma MisuseReaches(code: Code, w: World, r: Id, ch: Chain, ios: seq<int>, t: Res)
    returns (es: seq<Event>, w': World, ch': Chain, k: nat)
    requires Going(w, r, ch) && t == Stuck([]) && Decode(code, Top(ch).body).Await? && !HasFreshTask(ch)
    ensures Local(w', r, ch') && Reached(code, w, ch, r, ios, t, es, w', ch', k)
  {
    ch' := ExecChain(code, ch, w.next);
    w' := ExecOne(code, w, r, ch);
    es, k := [Exec(Active(ch))], 0;
    assert ios[..0] == [];
  }

  lemma {:induction false} IoReaches(code: Code, fuel: nat, w: World, r: Id, ch: Chain, ios: seq<int>, t: Res,
                                     onResult: int -> Body)
    returns (es: seq<Event>, w': World, ch': Chain, k: nat)
    requires Going(w, r, ch) && t != OutOfFuel && fuel > 0 && t == Eval(code, fuel, Top(ch).body, Slot(ch), ios)
    requires Decode(code, Top(ch).body).Io? && Decode(code, Top(ch).body).onResult == onResult
    ensures Local(w', r, ch') && Reached(code, w, ch, r, ios, t, es, w', ch', k)
    decreases fuel, 1
  {
    if ios == [] {
      w' := ExecOne(code, w, r, ch);
      es, ch', k := [Exec(Active(ch))], ExecChain(code, ch, w.next), 0;
      ExecKeepsShape(code, ch, w.next);
    } else {
      var v, ch2, io := Answered(code, w, r, ch, ios);
      PrependNothing(t);
      es, w', ch', k := Onward(code, fuel - 1, w, r, ch, ios, t, [], 1, io, v, ch2, onResult(ios[0]), Slot(ch));
    }
  }

  /** An operation from its co_await to the resumption with its result. */
  lemma Answered(code: Code, w: World, r: Id, ch: Chain, ios: seq<int>) returns (w': World, ch': Chain, es: seq<Event>)
    requires Going(w, r, ch) && Decode(code, Top(ch).body).Io? && ios != []
    ensures Further(code, w, r, ch, ios, [], 1, es, w', ch', Decode(code, Top(ch).body).onResult(ios[0]), Slot(ch))
  {
    var ch1 := ExecChain(code, ch, w.next);
    IoStays(code, ch, w.next, ios[0]);
    var u := ExecOne(code, w, r, ch);
    w', es := IoOne(code, u, r, ch1, ios[0]);
    AloneThen(code, w, [Exec(Active(ch))], u, es, w', r);
    AnsweredOnce(w.history[r], u.history[r], w'.history[r], ios);
    ch', es := ResumeChain(ch1, ios[0]), [Exec(Active(ch))] + es;
  }

  lemma AnsweredOnce(a: History, b: History, c: History, ios: seq<int>)
    requires ios != [] && Shown(a, b, [], []) && Shown(b, c, [], [ios[0]])
    ensures Shown(a, c, [], ios[..1])
  {
    assert ios[..1] == [ios[0]] && a.fed + [] + [ios[0]] == a.fed + ios[..1] && a.log + [] + [] == a.log + [];
  }

  lemma IoStays(code: Code, ch: Chain, n: nat, res: int)
    requires Shape(ch) && Top(ch).Running? && Decode(code, Top(ch).body).Io?
    ensures var ch1 := ExecChain(code, ch, n);
            && Shape(ch1) && Top(ch1).InIo?
            && Stays(ch, ResumeChain(ch1, res)) && Slot(ResumeChain(ch1, res)) == Slot(ch)
            && Top(ResumeChain(ch1, res)) == Running(Decode(code, Top(ch).body).onResult(res))
  {
    ExecKeepsShape(code, ch, n);
    SetTopKeepsShape(ExecChain(code, ch, n), Running(Top(ExecChain(code, ch, n)).onResult(res)));
  }

  /** co_await: the child becomes active on top of the awaiting frame. */
  lemma ChildStarts(code: Code, ch: Chain, n: nat, resume: Outcome -> Body)
    requires Shape(ch) && Top(ch).Running? && Decode(code, Top(ch).body) == Await(resume) && HasFreshTask(ch)
    ensures var ch1 := ExecChain(code, ch, n);
            && Shape(ch1) && ch1.active == ch.active + 1 && ch1.kind == ch.kind
            && Top(ch1) == Running(Slot(ch).value) && Slot(ch1) == None
            && ch1.cells[..ch.active + 1] == ch.cells[..ch.active] + [ch.cells[ch.active].(status := Awaiting(resume))]
  {
    StartKeepsShape(ch, resume);
  }

  /** final_awaiter: the child's outcome comes back to the frame below. */
  lemma ChildReturns(code: Code, ch: Chain, end: Chain, n: nat, resume: Outcome -> Body, o: Outcome)
    requires Shape(ch) && Shape(end) && end.kind == ch.kind && end.active == ch.active + 1
    requires end.cells[..end.active] == ch.cells[..ch.active] + [ch.cells[ch.active].(status := Awaiting(resume))]
    requires Top(end).Running? && FinishesWith(Decode(code, Top(end).body), o)
    ensures var ch' := ExecChain(code, end, n);
            Stays(ch, ch') && Top(ch') == Running(resume(o)) && Slot(ch') == None
  {
    var a, ch' := ch.active, ExecChain(code, end, n);
    FinishKeepsShape(end, o);
    assert ch' == Finish(end, o);
    assert end.cells[a] == end.cells[..a + 1][a];
    assert ch'.cells[..a] == end.cells[..a + 1][..a] == ch.cells[..a];
  }

  /** The child starts: the awaiting frame is below it now. */
  lemma Started(code: Code, w: World, r: Id, ch: Chain, resume: Outcome -> Body) returns (u: World)
    requires Going(w, r, ch) && Decode(code, Top(ch).body) == Await(resume) && HasFreshTask(ch)
    ensures var ch1 := ExecChain(code, ch, w.next);
            Going(u, r, ch1) && Top(ch1) == Running(Slot(ch).value) && Slot(ch1) == None
    ensures Alone(code, w, [Exec(Active(ch))], u, r) && Shown(w.history[r], u.history[r], [], [])
  {
    ChildStarts(code, ch, w.next, resume);
    u := ExecOne(code, w, r, ch);
  }

  /** The child does not come to its end, and so neither does the awaiting body. */
  lemma ChildStops(code: Code, w: World, ch: Chain, r: Id, ios: seq<int>, u: World, ch1: Chain, t: Res,
                   fs: seq<Event>, v: World, ch': Chain, k: nat)
    requires ch.active < |ch.cells| && Alone(code, w, [Exec(Active(ch))], u, r) && !t.Ends?
    requires r in w.history && r in u.history && Shown(w.history[r], u.history[r], [], [])
    requires Reached(code, u, ch1, r, ios, t, fs, v, ch', k)
    ensures Reached(code, w, ch, r, ios, t, [Exec(Active(ch))] + fs, v, ch', k)
  {
    assert ios[..0] == [] && ios[0..] == ios;
    PrependNothing(t);
    Then(code, w, ch, r, ios, [], 0, [Exec(Active(ch))], u, ch1, t, fs, v, ch', k);
  }

  /** The events bring the same body further, to `b` with task `slot`, showing `log` and using `j` results. */
  ghost predicate Further(code: Code, w: World, r: Id, ch: Chain, ios: seq<int>, log: seq<Obs>, j: nat,
                          up: seq<Event>, x: World, ch3: Chain, b: Body, slot: Option<Body>)
  {
    && Going(x, r, ch3) && Stays(ch, ch3) && j <= |ios| && Top(ch3) == Running(b) && Slot(ch3) == slot
    && Alone(code, w, up, x, r) && r in w.history && Shown(w.history[r], x.history[r], log, ios[..j])
  }

  lemma {:induction false} AwaitReaches(code: Code, fuel: nat, w: World, r: Id, ch: Chain, ios: seq<int>, t: Res,
                                        resume: Outcome -> Body)
    returns (es: seq<Event>, w': World, ch': Chain, k: nat)
    requires Going(w, r, ch) && t != OutOfFuel && fuel > 0 && t == Eval(code, fuel, Top(ch).body, Slot(ch), ios)
    requires Decode(code, Top(ch).body) == Await(resume) && HasFreshTask(ch)
    ensures Local(w', r, ch') && Reached(code, w, ch, r, ios, t, es, w', ch', k)
    decreases fuel, 1
  {
    var child := Eval(code, fuel - 1, Slot(ch).value, None, ios);
    if child.Ends? {
      var x, ch3, up, j := ThroughChild(code, fuel, w, r, ch, ios, resume, child);
      es, w', ch', k := Onward(code, fuel - 1, w, r, ch, ios, t, child.log, j, up, x, ch3, resume(child.outcome), None);
    } else {
      es, w', ch', k := IntoChild(code, fuel, w, r, ch, ios, resume, child);
    }
  }

  lemma {:induction false} IntoChild(code: Code, fuel: nat, w: World, r: Id, ch: Chain, ios: seq<int>,
                                     resume: Outcome -> Body, child: Res)
    returns (es: seq<Event>, w': World, ch': Chain, k: nat)
    requires Going(w, r, ch) && Decode(code, Top(ch).body) == Await(resume) && HasFreshTask(ch)
    requires fuel > 0 && child == Eval(code, fuel - 1, Slot(ch).value, None, ios) && child != OutOfFuel && !child.Ends?
    ensures Local(w', r, ch') && Reached(code, w, ch, r, ios, child, es, w', ch', k)
    decreases fuel, 0
  {
    var u := Started(code, w, r, ch, resume);
    var fs;
    fs, w', ch', k := Reaches(code, fuel - 1, u, r, ExecChain(code, ch, w.next), ios, child);
    ChildStops(code, w, ch, r, ios, u, ExecChain(code, ch, w.next), child, fs, w', ch', k);
    es := [Exec(Active(ch))] + fs;
  }

  /** The child runs to its end and returns, and the awaiting body goes on with its outcome. */
  lemma {:induction false} ThroughChild(code: Code, fuel: nat, w: World, r: Id, ch: Chain, ios: seq<int>,
                                        resume: Outcome -> Body, child: Res)
    returns (x: World, ch3: Chain, up: seq<Event>, j: nat)
    requires Going(w, r, ch) && Decode(code, Top(ch).body) == Await(resume) && HasFreshTask(ch)
    requires fuel > 0 && child == Eval(code, fuel - 1, Slot(ch).value, None, ios) && child.Ends?
    ensures Further(code, w, r, ch, ios, child.log, j, up, x, ch3, resume(child.outcome), None)
    ensures child.rest == ios[j..]
    decreases fuel, 0
  {
    var u := Started(code, w, r, ch, resume);
    var fs, v, end;
    fs, v, end, j := Reaches(code, fuel - 1, u, r, ExecChain(code, ch, w.next), ios, child);
    x, ch3, up := Returned(code, w, r, ch, ios, resume, u, child, fs, v, end, j);
  }

  /** Some steps have brought the same body further; evaluation goes on from there. */
  lemma {:induction false} Onward(code: Code, fuel: nat, w: World, r: Id, ch: Chain, ios: seq<int>, t: Res,
                                  log: seq<Obs>, j: nat,
                                  up: seq<Event>, x: World, ch3: Chain, b: Body, slot: Option<Body>)
    returns (es: seq<Event>, w': World, ch': Chain, k: nat)
    requires Further(code, w, r, ch, ios, log, j, up, x, ch3, b, slot) && t != OutOfFuel
    requires t == Prepend(log, Eval(code, fuel, b, slot, ios[j..]))
    ensures Local(w', r, ch') && Reached(code, w, ch, r, ios, t, es, w', ch', k)
    decreases fuel, 3
  {
    var rest := Eval(code, fuel, b, slot, ios[j..]);
    var gs;
    gs, w', ch', k := Reaches(code, fuel, x, r, ch3, ios[j..], rest);
    Then(code, w, ch, r, ios, log, j, up, x, ch3, rest, gs, w', ch', k);
    es, k := up + gs, j + k;
  }

  lemma Returned(code: Code, w: World, r: Id, ch: Chain, ios: seq<int>, resume: Outcome -> Body, u: World, child: Res,
                 fs: seq<Event>, v: World, end: Chain, j: nat)
    returns (w': World, ch': Chain, es: seq<Event>)
    requires Shape(ch) && Top(ch).Running? && Decode(code, Top(ch).body) == Await(resume) && HasFreshTask(ch)
    requires child.Ends? && Alone(code, w, [Exec(Active(ch))], u, r)
    requires r in w.history && r in u.history && Shown(w.history[r], u.history[r], [], [])
    requires Reached(code, u, ExecChain(code, ch, w.next), r, ios, child, fs, v, end, j) && Local(v, r, end)
    ensures Further(code, w, r, ch, ios, child.log, j, es, w', ch', resume(child.outcome), None)
    ensures child.rest == ios[j..]
  {
    ChildStarts(code, ch, w.next, resume);
    ChildReturns(code, ch, end, v.next, resume, child.outcome);
    ch' := ExecChain(code, end, v.next);
    w' := ExecOne(code, v, r, end);
    es := [Exec(Active(ch))] + fs + [Exec(Active(end))];
    AloneTwice(code, w, [Exec(Active(ch))], u, fs, v, [Exec(Active(end))], w', r);
    Ascent(w.history[r], u.history[r], v.history[r], w'.history[r], child.log, ios[..j]);
  }

  lemma AloneTwice(code: Code, w: World, es: seq<Event>, u: World, fs: seq<Event>, v: World, gs: seq<Event>, x: World,
                   r: Id)
    requires Alone(code, w, es, u, r) && Alone(code, u, fs, v, r) && Alone(code, v, gs, x, r)
    ensures Alone(code, w, es + fs + gs, x, r)
  {
    AloneThen(code, w, es, u, fs, v, r);
    AloneThen(code, w, es + fs, v, gs, x, r);
  }

  lemma Ascent(a: History, b: History, c: History, d: History, log: seq<Obs>, used: seq<int>)
    requires Shown(a, b, [], []) && Shown(b, c, log, used) && Shown(c, d, [], [])
    ensures Shown(a, d, log, used)
  {
    assert [] + log == log && log + [] == log && [] + used == used && used + [] == used;
  }

  // ---- Roots ----

  lemma KeptLocal(code: Code, w: World, chains: ChainMap, r: Id)
    requires Kept(code, w, chains) && r in chains && w.running
    ensures Local(w, r, chains[r])
  {
    Laid(w.frames, chains, r);
  }

  lemma TakenRoot(code: Code, w: World, chains: ChainMap, r: Id)
    requires Kept(code, w, chains) && r in w.taken
    ensures r in chains && r in w.history && chains[r].active == 0 && 0 < |chains[r].cells|
    ensures var hst := w.history[r];
            && hst.fed == [] && hst.log == [] && Slot(chains[r]) == Some(hst.body)
            && chains[r].cells[0].status == Fresh(Entry(hst.kind))
  {
    assert Explains(code, w.history[r], chains[r]);
  }

  lemma StartLocal(code: Code, w: World, r: Id, ch: Chain, b: Body)
    requires Local(w, r, ch) && r in w.taken && ch.active == 0 && Top(ch) == Fresh(b)
    ensures Going(StartRoot(w, r), r, SetTop(ch, Running(b))) && Alone(code, w, [Start(r)], StartRoot(w, r), r)
    ensures StartRoot(w, r).history == w.history
  {
    TopIs(w.frames, r, ch);
    SetTopKeepsShape(ch, Running(b));
    SetTopRewrites(w.frames, r, ch, Running(b));
    AloneOnce(code, w, Start(r), r);
  }

  lemma TakenLocal(code: Code, w: World, r: Id) returns (ch: Chain)
    requires Inv(code, w) && w.running && r in w.taken
    ensures Local(w, r, ch) && ch.active == 0 && Top(ch) == Fresh(Entry(w.history[r].kind))
    ensures Slot(ch) == Some(w.history[r].body) && w.history[r].fed == [] && w.history[r].log == []
  {
    var chains: ChainMap :| Kept(code, w, chains);
    TakenRoot(code, w, chains, r);
    KeptLocal(code, w, chains, r);
    ch := chains[r];
  }

  /** A worker resumes the wrapper: it is about to await the inner task. */
  lemma RootStarts(code: Code, w: World, r: Id) returns (w': World, ch: Chain)
    requires Inv(code, w) && w.running && r in w.taken
    ensures Going(w', r, ch) && Alone(code, w, [Start(r)], w', r) && ch.active == 0
    ensures r in w.history && w'.history == w.history && w.history[r].fed == [] && w.history[r].log == []
    ensures Top(ch) == Running(Entry(w.history[r].kind)) && Slot(ch) == Some(w.history[r].body)
  {
    var before := TakenLocal(code, w, r);
    StartLocal(code, w, r, before, Entry(w.history[r].kind));
    w' := StartRoot(w, r);
    ch := SetTop(before, Running(Entry(w.history[r].kind)));
  }

  lemma UnregisterAlone(code: Code, u: World, r: Id)
    requires r in u.frames && u.frames[r].selfDestroy && u.frames[r].status == Done(Value(0), false)
    requires u.frames[r].root == r
    ensures Alone(code, u, [Unregister(r)], UnregisterRoot(u, r), r)
    ensures var v := UnregisterRoot(u, r);
            && v.history == u.history && r in v.frames && v.frames[r].selfDestroy
            && v.frames[r].status == Done(Value(0), true) && v.frames[r].continuation == u.frames[r].continuation
            && v.frames[r].root == u.frames[r].root
  {
    AloneOnce(code, u, Unregister(r), r);
  }

  lemma DestroyAlone(code: Code, v: World, r: Id)
    requires r in v.frames && v.frames[r].selfDestroy && v.frames[r].status == Done(Value(0), true)
    requires v.frames[r].continuation == None && v.frames[r].root == r && r in v.history
    ensures Alone(code, v, [DestroySelf(r)], DestroyRoot(v, r), r)
    ensures DestroyRoot(v, r).history == v.history[r := v.history[r].(phase := Finished)]
  {
    AloneOnce(code, v, DestroySelf(r), r);
  }

  /** final_awaiter of the wrapper, from its final suspend point: unregister, destroy, gone. */
  lemma Departs(code: Code, u: World, r: Id, ch: Chain) returns (w': World, es: seq<Event>)
    requires Local(u, r, ch) && ch.active == 0 && Top(ch) == Done(Value(0), false)
    ensures Alone(code, u, es, w', r) && r in w'.history
    ensures w'.history[r].phase.Finished? && Shown(u.history[r], w'.history[r], [], [])
  {
    assert At(u.frames, r, ch, 0);
    UnregisterAlone(code, u, r);
    var v := UnregisterRoot(u, r);
    DestroyAlone(code, v, r);
    w' := DestroyRoot(v, r);
    es := [Unregister(r)] + [DestroySelf(r)];
    AloneThen(code, u, [Unregister(r)], v, [DestroySelf(r)], w', r);
    assert u.history[r].log + [] == u.history[r].log && u.history[r].fed + [] == u.history[r].fed;
  }

  lemma RootLeaves(code: Code, w: World, r: Id, ch: Chain) returns (w': World, es: seq<Event>)
    requires Going(w, r, ch) && ch.active == 0 && FinishesWith(Decode(code, Top(ch).body), Value(0))
    ensures Alone(code, w, es, w', r) && r in w'.history
    ensures w'.history[r].phase.Finished? && Shown(w.history[r], w'.history[r], [], [])
  {
    var u := ExecOne(code, w, r, ch);
    w', es := Departs(code, u, r, ExecChain(code, ch, w.next));
    AloneThen(code, w, [Exec(Active(ch))], u, es, w', r);
    ShownThen(w.history[r], u.history[r], w'.history[r], [], [], [], []);
    es := [Exec(Active(ch))] + es;
  }

  /** What sync_wait's wrapper shows besides its inner task. */
  function PromiseOf(kind: Kind, o: Outcome): seq<Obs> {
    if kind.Synced? then [PromiseSet(o)] else []
  }

  /** Evaluation of the wrapper around a body whose evaluation comes to `t`. */
  lemma EntryResult(code: Code, f: nat, kind: Kind, body: Body, ios: seq<int>, t: Res)
    requires t == Eval(code, f, body, None, ios) && t != OutOfFuel
    ensures Eval(code, f + 3, Entry(kind), Some(body), ios)
            == if t.Ends? then Ends(Value(0), t.log + PromiseOf(kind, t.outcome), t.rest) else t
  {
    EvalMonotone(code, f, f + 2, body, None, ios);
    if t.Ends? {
      var promise := PromiseOf(kind, t.outcome);
      assert Eval(code, f + 2, AfterInner(kind, t.outcome), None, t.rest) == Ends(Value(0), promise, t.rest) by {
        assert Eval(code, f + 1, Exit, None, t.rest) == Ends(Value(0), [], t.rest);
        assert [PromiseSet(t.outcome)] + [] == [PromiseSet(t.outcome)];
      }
    }
  }

  /** The events are steps of `r` alone, after which it is gone, having shown `log` and used all of
      `ios` but `rest`. */
  ghost predicate EndsAlone(code: Code, w: World, r: Id, ios: seq<int>, log: seq<Obs>, rest: seq<int>,
                            es: seq<Event>, w': World)
  {
    && Alone(code, w, es, w', r)
    && r in w.history && r in w'.history && w'.history[r].phase.Finished?
    && w'.history[r].kind == w.history[r].kind && w'.history[r].body == w.history[r].body
    && w'.history[r].log == log && w'.history[r].fed + rest == ios
  }

  /** From the wrapper's co_await of its inner task. */
  lemma EntryReaches(code: Code, u: World, r: Id, ch: Chain, f: nat, kind: Kind, body: Body, ios: seq<int>, t: Res)
    returns (es: seq<Event>, w': World, ch': Chain, k: nat)
    requires Going(u, r, ch) && Top(ch) == Running(Entry(kind)) && Slot(ch) == Some(body)
    requires t == Eval(code, f, body, None, ios) && t != OutOfFuel
    ensures var whole := if t.Ends? then Ends(Value(0), t.log + PromiseOf(kind, t.outcome), t.rest) else t;
            Local(w', r, ch') && Reached(code, u, ch, r, ios, whole, es, w', ch', k)
  {
    EntryResult(code, f, kind, body, ios, t);
    es, w', ch', k := Reaches(code, f + 3, u, r, ch, ios, Eval(code, f + 3, Entry(kind), Some(body), ios));
  }

  /** Once the wrapper is about to return. */
  lemma EntryLeaves(code: Code, u: World, r: Id, ch: Chain, ios: seq<int>, log: seq<Obs>, rest: seq<int>,
                    fs: seq<Event>, v: World, ch': Chain, k: nat)
    returns (es: seq<Event>, w': World)
    requires Local(v, r, ch') && ch.active == 0
    requires Reached(code, u, ch, r, ios, Ends(Value(0), log, rest), fs, v, ch', k)
    requires r in u.history && u.history[r].fed == [] && u.history[r].log == []
    ensures EndsAlone(code, u, r, ios, log, rest, es, w')
  {
    var gs;
    w', gs := RootLeaves(code, v, r, ch');
    AloneThen(code, u, fs, v, gs, w', r);
    es := fs + gs;
    assert ios[..k] + ios[k..] == ios;
  }

  /** Termination: if the direct run of a root's code ends, then from any reachable world
      in which a worker holds its task, steps of this root alone (resumption, actions, operations and
      their callbacks, unregistration, destruction) end it, in the same way. */
  lemma Terminates(code: Code, w: World, r: Id, p: Point, f: nat, ios: seq<int>, a: Answer)
    returns (es: seq<Event>, w': World)
    requires Inv(code, w) && w.running && r in w.taken && r in w.history && w.history[r].body == User(p)
    requires a == Run(code, f, p, None, ios) && a.Leaves?
    ensures EndsAlone(code, w, r, ios, Observed(a.effects) + PromiseOf(w.history[r].kind, a.outcome), a.rest, es, w')
  {
    EvalIsRun(code, f, p, None, ios);
    es, w' := BodyTerminates(code, w, r, f, ios, AsRes(a));
  }

  lemma BodyTerminates(code: Code, w: World, r: Id, f: nat, ios: seq<int>, t: Res)
    returns (es: seq<Event>, w': World)
    requires Inv(code, w) && w.running && r in w.taken && r in w.history
    requires t == Eval(code, f, w.history[r].body, None, ios) && t.Ends?
    ensures EndsAlone(code, w, r, ios, t.log + PromiseOf(w.history[r].kind, t.outcome), t.rest, es, w')
  {
    var u, ch := RootStarts(code, w, r);
    var log := t.log + PromiseOf(w.history[r].kind, t.outcome);
    var fs, v, ch', k := EntryReaches(code, u, r, ch, f, w.history[r].kind, w.history[r].body, ios, t);
    es, w' := EntryLeaves(code, u, r, ch, ios, log, t.rest, fs, v, ch', k);
    AloneThen(code, w, [Start(r)], u, es, w', r);
    es := [Start(r)] + es;
  }

  /** And if the direct run awaits an empty or finished task, so does the root, after steps of its own. */
  lemma MisusesToo(code: Code, w: World, r: Id, p: Point, f: nat, ios: seq<int>)
    returns (es: seq<Event>, w': World)
    requires Inv(code, w) && w.running && r in w.taken && r in w.history && w.history[r].body == User(p)
    requires Run(code, f, p, None, ios).Misuses?
    ensures Alone(code, w, es, w', r) && r in w'.misused && r in w'.history
    ensures var hst, hst' := w.history[r], w'.history[r];
            && hst'.kind == hst.kind && hst'.body == hst.body
            && hst'.log == Observed(Run(code, f, p, None, ios).effects)
  {
    EvalIsRun(code, f, p, None, ios);
    es, w' := BodyMisuses(code, w, r, f, ios);
  }

  lemma BodyMisuses(code: Code, w: World, r: Id, f: nat, ios: seq<int>) returns (es: seq<Event>, w': World)
    requires Inv(code, w) && w.running && r in w.taken && r in w.history
    requires Eval(code, f, w.history[r].body, None, ios).Stuck?
    ensures Alone(code, w, es, w', r) && r in w'.misused && r in w'.history
    ensures var hst, hst' := w.history[r], w'.history[r];
            hst'.kind == hst.kind && hst'.body == hst.body && hst'.log == LogOf(Eval(code, f, hst.body, None, ios))
  {
    var u, ch := RootStarts(code, w, r);
    var t := Eval(code, f, w.history[r].body, None, ios);
    var fs, v, ch', k := EntryReaches(code, u, r, ch, f, w.history[r].kind, w.history[r].body, ios, t);
    AloneThen(code, w, [Start(r)], u, fs, v, r);
    es, w' := [Start(r)] + fs, v;
    AloneKeepsInv(code, w, es, w', r);
    StandsMisused(code, w', r, ch');
  }

  lemma AloneKeepsInv(code: Code, w: World, es: seq<Event>, w': World, r: Id)
    requires Inv(code, w) && Alone(code, w, es, w', r)
    ensures Inv(code, w')
  {
    AloneLeads(code, w, es, w', r);
    LeadsKeepsInv(code, w, es, w');
  }

  /** A frame that stands at a misused await is charged to its root. */
  lemma StandsMisused(code: Code, w: World, r: Id, ch: Chain)
    requires Inv(code, w) && Local(w, r, ch) && Top(ch).Undefined?
    ensures r in w.misused
  {
    var chains: ChainMap :| Kept(code, w, chains);
    TopIs(w.frames, r, ch);
    ActiveFrame(w.frames, chains, Active(ch));
  }
}
