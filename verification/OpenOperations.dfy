/** An operation carries only a number, but the suspended coroutine keeps an object that holds it:
    frames and descriptors together. */
module OpenOperations {
  import opened Program
  import opened Chains
  import opened Frames
  import opened Mirror
  import opened Invariant
  import opened Runs
  import opened SuspendedChains
  import D = Descriptors

  /** `home` gives the frame in which a FileDescriptor object lives; the others are outside every
      coroutine, like the acceptor in main. */
  datatype Joint = Joint(w: World, t: D.Table, home: map<D.Slot, Id>)

  const INITIAL := Joint(EMPTY_WORLD, D.NO_DESCRIPTORS, map[])

  /** `v` is where the coroutine `h` finds the descriptor `fd`: it is a local of `h` itself, or of a
      coroutine that waits for `h`, or it is outside every coroutine. */
  ghost predicate Holds(c: Joint, h: Id, v: D.Slot, fd: int) {
    v in c.t.slots && (v in c.home ==> Below(c.w, c.home[v], h)) && D.Handle(c.t, v) == fd
  }

  /** `g` is suspended, or waits for a coroutine that is, in the same operation before and after. */
  ghost predicate AtRest(c: Joint, c': Joint, g: Id) {
    exists h :: StillSuspended(c.w, c'.w, h) && Below(c.w, g, h)
  }

  /** Locals of coroutines at rest, and objects outside every coroutine, are not touched. */
  ghost predicate Undisturbed(c: Joint, c': Joint) {
    forall v :: v in c.t.slots && (v in c.home ==> AtRest(c, c', c.home[v])) ==>
      && v in c'.t.slots && c'.t.slots[v] == c.t.slots[v]
      && (v in c.home <==> v in c'.home) && (v in c.home ==> c'.home[v] == c.home[v])
  }

  /** A coroutine takes the number of a new operation from an object it has. */
  ghost predicate NumbersFromObjects(c: Joint, c': Joint) {
    forall h :: h in c'.w.frames && c'.w.frames[h].status.InIo? && !StillSuspended(c.w, c'.w, h) ==>
      exists v :: Holds(c', h, v, c'.w.frames[h].status.op.fd)
  }

  /** One step of the runtime, and what it does to the FileDescriptor objects. */
  ghost predicate Proceeds(code: Code, c: Joint, e: Event, ds: seq<D.Event>, c': Joint) {
    && Legal(c.w, e) && c'.w == Next(code, c.w, e)
    && (forall d :: d in ds ==> D.Proper(d)) && c'.t == D.Run(c.t, ds)
    && Undisturbed(c, c') && NumbersFromObjects(c, c')
  }

  ghost predicate OneStep(code: Code, c: Joint, c': Joint) {
    exists e, ds :: Proceeds(code, c, e, ds, c')
  }

  ghost predicate JointRun(code: Code, cs: seq<Joint>) {
    && cs != [] && cs[0] == INITIAL
    && forall i :: 0 < i < |cs| ==> OneStep(code, cs[i - 1], cs[i])
  }

  ghost predicate AnchoredAt(c: Joint, h: Id)
    requires h in c.w.frames && c.w.frames[h].status.InIo?
  {
    exists v :: Holds(c, h, v, c.w.frames[h].status.op.fd)
  }

  /** Every suspended operation is on a number that an untouched object holds. */
  ghost predicate Anchored(c: Joint) {
    forall h :: h in c.w.frames && c.w.frames[h].status.InIo? ==> AnchoredAt(c, h)
  }

  ghost predicate DescriptorsOk(t: D.Table) {
    D.ClosedOnce(t) && D.Tidy(t)
  }

  lemma StillHolds(c: Joint, c': Joint, h: Id, v: D.Slot, fd: int)
    requires Holds(c, h, v, fd) && StillSuspended(c.w, c'.w, h) && Undisturbed(c, c')
    requires RootUntouched(c.w.frames, c'.w.frames, c.w.frames[h].root)
    requires forall n :: n in c.t.fd ==> n in c'.t.fd && c'.t.fd[n] == c.t.fd[n]
    requires DescriptorsOk(c.t)
    ensures Holds(c', h, v, fd)
  {
    if v in c.home { assert AtRest(c, c', c.home[v]); }
  }

  /** What the step of the runtime leaves alone, nobody moves the descriptor away from. */
  lemma StaysAnchored(code: Code, c: Joint, e: Event, c': Joint, h: Id)
    requires Inv(code, c.w) && Legal(c.w, e) && c'.w == Next(code, c.w, e) && StillSuspended(c.w, c'.w, h)
    requires AnchoredAt(c, h) && DescriptorsOk(c.t) && Undisturbed(c, c')
    requires forall n :: n in c.t.fd ==> n in c'.t.fd && c'.t.fd[n] == c.t.fd[n]
    ensures AnchoredAt(c', h)
  {
    SuspendedChainStays(code, c.w, e, h);
    var v :| Holds(c, h, v, c.w.frames[h].status.op.fd);
    StillHolds(c, c', h, v, c.w.frames[h].status.op.fd);
  }

  lemma AnchoredStep(code: Code, c: Joint, e: Event, c': Joint)
    requires Inv(code, c.w) && Legal(c.w, e) && c'.w == Next(code, c.w, e)
    requires Anchored(c) && DescriptorsOk(c.t) && Undisturbed(c, c') && NumbersFromObjects(c, c')
    requires forall n :: n in c.t.fd ==> n in c'.t.fd && c'.t.fd[n] == c.t.fd[n]
    ensures Anchored(c')
  {
    forall h | h in c'.w.frames && c'.w.frames[h].status.InIo? ensures AnchoredAt(c', h) {
      if StillSuspended(c.w, c'.w, h) { StaysAnchored(code, c, e, c', h); }
    }
  }

  lemma {:induction false} JointInv(code: Code, cs: seq<Joint>, i: nat)
    requires JointRun(code, cs) && i < |cs|
    ensures Inv(code, cs[i].w) && DescriptorsOk(cs[i].t) && Anchored(cs[i])
  {
    if i == 0 {
      assert Leads(code, EMPTY_WORLD, [], EMPTY_WORLD);
      ReachableInv(code, EMPTY_WORLD);
    } else {
      JointInv(code, cs, i - 1);
      assert OneStep(code, cs[i - 1], cs[i]);
      var e, ds :| Proceeds(code, cs[i - 1], e, ds, cs[i]);
      StepKeepsInv(code, cs[i - 1].w, e);
      D.TidyRun(cs[i - 1].t, ds);
      AnchoredStep(code, cs[i - 1], e, cs[i]);
    }
  }

  /** In every run: an operation that is submitted, in flight or about to call back is on an open
      number, and belongs to a live coroutine suspended in it. */
  lemma OperationsAreOpen(code: Code, cs: seq<Joint>, i: nat, h: Id)
    requires JointRun(code, cs) && i < |cs|
    requires h in cs[i].w.submitting || h in cs[i].w.inflight || h in cs[i].w.calling
    ensures var c := cs[i];
            && h in c.w.frames && c.w.frames[h].status.InIo?
            && (c.w.frames[h].status.op.fd >= 0 ==> c.w.frames[h].status.op.fd in c.t.open)
            && (h in c.w.inflight ==> c.w.inflight[h] == c.w.frames[h].status.op)
  {
    JointInv(code, cs, i);
    var c := cs[i];
    var chains: ChainMap :| Kept(code, c.w, chains);
    var v :| Holds(c, h, v, c.w.frames[h].status.op.fd);
    if D.Handle(c.t, v) >= 0 { D.TidyHandle(c.t, v); }
  }
}
