/** Which step gives which number to which program: of all steps of the runtime only a callback and a
    refusal do, and they give it to one root. */
module Deliveries {
  import opened Program
  import opened Chains
  import opened Frames
  import opened Invariant
  import Mirror
  import Simulation
  import RootSteps
  import opened Runs
  import opened Termination
  import J = JointSystem

  /** The frame `h` of root `r` is resumed with `res`. */
  datatype Delivery = Delivery(h: Id, r: Id, res: int)

  function Portion(d: Option<Delivery>, r: Id): seq<int> {
    if d.Some? && d.value.r == r then [d.value.res] else []
  }

  /** The programs were given this, and nothing else. */
  ghost predicate FedBy(history: map<Id, History>, history': map<Id, History>, d: Option<Delivery>) {
    && (forall r :: r in history ==>
          r in history' && history'[r].body == history[r].body && history'[r].fed == history[r].fed + Portion(d, r))
    && (forall r :: r in history' && r !in history ==> history'[r].fed == [])
  }

  /** ... and one decided callback less waits. */
  ghost predicate Delivers(w: World, w': World, d: Option<Delivery>) {
    && FedBy(w.history, w'.history, d)
    && w'.calling == if d.Some? then w.calling - {d.value.h} else w.calling
  }

  lemma SameHistory(w: World, w': World)
    requires w'.history == w.history && w'.calling == w.calling
    ensures Delivers(w, w', None)
  {
  }

  lemma NewRootDelivers(w: World, kind: Kind, body: Body)
    requires forall r :: r in w.history ==> r < w.next
    ensures Delivers(w, NewRoot(w, kind, body), None)
  {
  }

  lemma NoteDelivers(w: World, r: Id, log: seq<Obs>)
    requires r in w.history
    ensures Delivers(w, Note(w, r, [], log, 1), None) && Note(w, r, [], log, 1).next == w.next
  {
  }

  lemma Twice(w: World, mid: World, w': World)
    requires Delivers(w, mid, None) && Delivers(mid, w', None)
    ensures Delivers(w, w', None)
  {
    forall r | r in w.history ensures r in w'.history && w'.history[r].fed == w.history[r].fed {
      assert r in mid.history;
    }
  }

  lemma CoreNext(w: World, h: Id, a: Action<Body, Obs>)
    requires h in w.frames && a.Detach?
    ensures Simulation.Core(w, h, a).next == w.next
  {
  }

  lemma NoteKeys(w: World, r: Id, log: seq<Obs>)
    requires r in w.history
    ensures Note(w, r, [], log, 1).history.Keys == w.history.Keys
  {
  }

  lemma ExecDelivers(code: Code, w: World, h: Id)
    requires h in w.frames && w.frames[h].status.Running?
    requires w.frames[h].root in w.history && forall r :: r in w.history ==> r < w.next
    ensures Delivers(w, ExecFrame(code, w, h), None)
  {
    var r, a := w.frames[h].root, Decode(code, w.frames[h].status.body);
    RootSteps.ExecSplits(code, w, h);
    CoreEffects(w, h, a);
    var core := Simulation.Core(w, h, a);
    SameHistory(w, core);
    NoteDelivers(core, r, ObsOf(a));
    Twice(w, core, Note(core, r, [], ObsOf(a), 1));
    if a.Detach? {
      CoreNext(w, h, a);
      NoteKeys(core, r, ObsOf(a));
      NewRootDelivers(Note(core, r, [], ObsOf(a), 1), Detached, a.child);
      Twice(w, Note(core, r, [], ObsOf(a), 1), ExecFrame(code, w, h));
    }
  }

  lemma DeliverDelivers(w: World, h: Id, res: int, t: Runner)
    requires h in w.frames && w.frames[h].status.InIo? && w.frames[h].root in w.history
    ensures Delivers(w, Deliver(UseUp(w, h), h, res, t), Some(Delivery(h, w.frames[h].root, res)))
  {
    RootSteps.Delivered(UseUp(w, h), h, res, t);
  }

  lemma ForgetFed(w: World, h: Id)
    requires h in w.history
    ensures FedBy(w.history, Forget(w, h, Finished).history, None)
  {
  }

  lemma DestroyDelivers(w: World, h: Id)
    requires h in w.frames && w.frames[h].status.Done? && h in w.history
    ensures Delivers(w, DestroyRoot(w, h), None)
  {
    var gone := ApplyWreck(w, Destroy(w.frames, h));
    var cut := gone.(runner := gone.runner - {h});
    TransferEffects(cut, w.frames[h].continuation, w.frames[h].status.outcome);
    ForgetFed(Transfer(cut, w.frames[h].continuation, w.frames[h].status.outcome), h);
  }

  lemma ShutDownDelivers(w: World)
    ensures Delivers(w, ShutDown(w), None)
  {
  }

  lemma StartDelivers(w: World, r: Id)
    requires r in w.frames && w.frames[r].status.Fresh?
    ensures Delivers(w, StartRoot(w, r), None)
  {
    SameHistory(w, StartRoot(w, r));
  }

  lemma UnregisterDelivers(w: World, h: Id)
    requires h in w.frames && w.frames[h].status.Done?
    ensures Delivers(w, UnregisterRoot(w, h), None)
  {
    SameHistory(w, UnregisterRoot(w, h));
  }

  // ---- Every step ----

  lemma IdsOf(code: Code, w: World)
    requires Inv(code, w)
    ensures forall r :: r in w.history ==> r < w.next
  {
  }

  lemma FinalInHistory(code: Code, w: World, h: Id)
    requires Inv(code, w) && h in w.frames && w.frames[h].selfDestroy && w.frames[h].status.Done?
    ensures h in w.history
  {
    var chains: Mirror.ChainMap :| Kept(code, w, chains);
    RootSteps.FinalRoot(w.frames, chains, h);
  }

  lemma CallbackDelivers(code: Code, w: World, h: Id)
    requires Inv(code, w) && h in w.calling
    ensures h in w.frames
            && Delivers(w, Deliver(UseUp(w, h), h, w.calling[h], LoopThread),
                        Some(Delivery(h, w.frames[h].root, w.calling[h])))
  {
    J.CallingFacts(code, w, h);
    DeliverDelivers(w, h, w.calling[h], LoopThread);
  }

  lemma NegativeIs(err: nat)
    ensures Negative(err) == 0 - err
  {
  }

  lemma RefusalIsDelivery(w: World, h: Id, err: nat, t: Runner, w': World, res: int)
    requires h in w.frames && w.frames[h].status.InIo? && w.frames[h].root in w.history
    requires w' == Deliver(UseUp(w, h), h, Negative(err), t) && res == 0 - err
    ensures Delivers(w, w', Some(Delivery(h, w.frames[h].root, res)))
  {
    NegativeIs(err);
    DeliverDelivers(w, h, res, t);
  }

  /** A refusal gives the errno value, negated. */
  lemma RefusalDelivers(code: Code, w: World, h: Id, err: nat, w': World, res: int)
    requires Inv(code, w) && h in w.submitting && w' == RefuseOp(w, h, err) && res == 0 - err
    ensures h in w.frames && Delivers(w, w', Some(Delivery(h, w.frames[h].root, res)))
  {
    var t := J.RefusingThread(code, w, h, err);
    RefusalIsDelivery(w, h, err, t, w', res);
  }

  lemma QuietDelivers(code: Code, w: World, e: Event)
    requires Enabled(w, e) && J.IsQuiet(e) && forall r :: r in w.history ==> r < w.next
    ensures Delivers(w, Next(code, w, e), None)
  {
    match e
    case Spawn(kind, p) => NewRootDelivers(w, kind, User(p));
    case Register(_) => SameHistory(w, Next(code, w, e));
    case Enqueue(_) => SameHistory(w, Next(code, w, e));
    case Take => SameHistory(w, Next(code, w, e));
  }

  lemma LoudDelivers(code: Code, w: World, e: Event)
    requires Inv(code, w) && Legal(w, e) && J.IsPlain(e) && !J.IsQuiet(e) && !e.Callback?
    ensures Delivers(w, Next(code, w, e), None)
  {
    match e {
      case Exec(h) => J.RunningFacts(code, w, h); ExecDelivers(code, w, h);
      case DestroySelf(h) => FinalInHistory(code, w, h); DestroyDelivers(w, h);
      case DestroyAll => ShutDownDelivers(w);
      case Start(r) => J.TakenFacts(code, w, r); StartDelivers(w, r);
      case Unregister(h) => UnregisterDelivers(w, h);
    }
  }

  lemma SubmitDelivers(w: World, h: Id)
    requires h in w.submitting && h in w.frames
    ensures Delivers(w, SubmitOp(w, h), None)
  {
  }

  /** Steps other than a callback, a refusal and a loop's decision to call back give nothing. */
  lemma OthersDeliverNothing(code: Code, w: World, e: Event)
    requires Inv(code, w) && Legal(w, e) && !e.Callback? && !e.Refuse? && !e.Harvest?
    ensures Delivers(w, Next(code, w, e), None)
  {
    if J.IsPlain(e) && J.IsQuiet(e) {
      IdsOf(code, w);
      QuietDelivers(code, w, e);
    } else if J.IsPlain(e) {
      LoudDelivers(code, w, e);
    } else if e.Submit? {
      J.WaitingFacts(code, w, e.h);
      SubmitDelivers(w, e.h);
    } else {
      BooksDeliver(code, w, e);
    }
  }

  lemma BooksDeliver(code: Code, w: World, e: Event)
    requires Enabled(w, e) && (e.Discard? || e.Stop? || e.Join?)
    ensures Delivers(w, Next(code, w, e), None)
  {
    SameHistory(w, Next(code, w, e));
  }
}
