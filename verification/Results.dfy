/** From the kernel's answer to the program. What an operation of a coroutine results in is what the
    instance of its descriptor replied to that very request, and every reply arrives once. */
module Results {
  import opened Program
  import opened Frames
  import opened Invariant
  import opened Guarantees
  import opened Replies
  import opened Books
  import opened AsyncIo
  import B = Backends
  import J = JointSystem

  // ---- Whole runs ----

  ghost predicate BookedStep(code: Code, j: J.System, b: Book, j': J.System, b': Book) {
    exists e :: J.Proceeds(code, j, e, j') && b' == Updated(j, b, e)
  }

  /** A run of the joint system, and the book kept along it. */
  ghost predicate BookedRun(code: Code, js: seq<J.System>, bs: seq<Book>) {
    && |bs| == |js| && js != [] && J.Initial(js[0]) && bs[0] == EMPTY_BOOK
    && (forall i :: 0 < i < |js| ==> BookedStep(code, js[i - 1], bs[i - 1], js[i], bs[i]))
  }

  lemma OneStepOf(code: Code, j: J.System, b: Book, j': J.System, b': Book)
    requires BookedStep(code, j, b, j', b')
    ensures J.OneStep(code, j, j')
  {
    var e :| J.Proceeds(code, j, e, j') && b' == Updated(j, b, e);
  }

  lemma BookedIsJoint(code: Code, js: seq<J.System>, bs: seq<Book>)
    requires BookedRun(code, js, bs)
    ensures J.JointRun(code, js)
  {
    forall i | 0 < i < |js| ensures J.OneStep(code, js[i - 1], js[i]) {
      assert BookedStep(code, js[i - 1], bs[i - 1], js[i], bs[i]);
      OneStepOf(code, js[i - 1], bs[i - 1], js[i], bs[i]);
    }
  }

  lemma OneBookMore(code: Code, j: J.System, b: Book, j': J.System) returns (b': Book)
    requires J.OneStep(code, j, j')
    ensures BookedStep(code, j, b, j', b')
  {
    var e :| J.Proceeds(code, j, e, j');
    b' := Updated(j, b, e);
  }

  /** The book restrains nothing: it can be kept along every joint run. */
  lemma {:induction false} EveryRunHasABook(code: Code, js: seq<J.System>)
    requires J.JointRun(code, js)
    ensures exists bs :: BookedRun(code, js, bs)
    decreases |js|
  {
    if |js| == 1 {
      assert BookedRun(code, js, [EMPTY_BOOK]);
    } else {
      var n := |js| - 1;
      var ks := js[..n];
      EveryRunHasABook(code, ks);
      var bs :| BookedRun(code, ks, bs);
      assert J.OneStep(code, js[n - 1], js[n]);
      var b := OneBookMore(code, js[n - 1], bs[n - 1], js[n]);
      LongerBook(code, js, bs, b);
    }
  }

  lemma LongerBook(code: Code, js: seq<J.System>, bs: seq<Book>, b: Book)
    requires |js| > 1 && BookedRun(code, js[..|js| - 1], bs)
    requires BookedStep(code, js[|js| - 2], bs[|js| - 2], js[|js| - 1], b)
    ensures BookedRun(code, js, bs + [b])
  {
    var ks, cs := js[..|js| - 1], bs + [b];
    forall i | 0 < i < |js| ensures BookedStep(code, js[i - 1], cs[i - 1], js[i], cs[i]) {
      if i < |ks| { assert BookedStep(code, ks[i - 1], bs[i - 1], ks[i], bs[i]); }
    }
  }

  lemma InitialBook(code: Code, j: J.System)
    requires J.Initial(j)
    ensures BookOk(code, j, EMPTY_BOOK)
  {
    forall i | 0 <= i < B.NUM_INSTANCES ensures B.Log(j.inst[i]) == [] { assert B.New(j.inst[i]); }
  }

  lemma AlongBookedRun(code: Code, js: seq<J.System>, bs: seq<Book>, i: nat)
    requires BookedRun(code, js, bs) && i < |js|
    ensures Inv(code, js[i].w) && J.BackendOk(js[i])
    ensures i + 1 < |js| ==> BookedStep(code, js[i], bs[i], js[i + 1], bs[i + 1])
  {
    BookedIsJoint(code, js, bs);
    J.JointInv(code, js, i);
    var k := i + 1;
    if k < |js| { assert BookedStep(code, js[k - 1], bs[k - 1], js[k], bs[k]); }
  }

  lemma {:induction false} BookInv(code: Code, js: seq<J.System>, bs: seq<Book>, i: nat)
    requires BookedRun(code, js, bs) && i < |js|
    ensures BookOk(code, js[i], bs[i])
  {
    if i == 0 {
      InitialBook(code, js[0]);
    } else {
      BookInv(code, js, bs, i - 1);
      AlongBookedRun(code, js, bs, i - 1);
      OneStepKeepsBook(code, js[i - 1], bs[i - 1], js[i], bs[i]);
    }
  }

  lemma OneStepKeepsBook(code: Code, j: J.System, b: Book, j': J.System, b': Book)
    requires Inv(code, j.w) && J.BackendOk(j) && BookOk(code, j, b) && BookedStep(code, j, b, j', b')
    ensures BookOk(code, j', b')
  {
    var e :| J.Proceeds(code, j, e, j') && b' == Updated(j, b, e);
    StepKeepsBook(code, j, e, b);
  }

  // ---- What the book shows ----

  /** In every joint run: a coroutine about to be called back with `res` is suspended in an operation
      for which the instance of its descriptor has logged this very reply to its own request, and the
      kernel may answer so. */
  lemma CallbackCarriesReply(code: Code, js: seq<J.System>, bs: seq<Book>, i: nat, h: Id)
    requires BookedRun(code, js, bs) && i < |js| && h in js[i].w.calling
    ensures h in bs[i].due && Logged(js[i].inst, bs[i].due[h], js[i].w.calling[h])
    ensures SuspendedIn(js[i].w.frames, h, bs[i].due[h].op)
  {
    BookInv(code, js, bs, i);
    assert Carried(js[i].inst, js[i].w.calling, js[i].w.frames, h, bs[i].due[h]);
  }

  /** In every joint run: the results a root was resumed with are, one by one and in order, the logged
      replies to its own requests, each to the operation that its code asked for at that point. */
  lemma ResultsAreReplies(code: Code, js: seq<J.System>, bs: seq<Book>, i: nat, r: Id)
    requires BookedRun(code, js, bs) && i < |js| && r in js[i].w.history
    ensures FedReplies(code, js[i].inst, js[i].w.history[r], GivenTo(bs[i], r))
  {
    BookInv(code, js, bs, i);
  }

  /** In every joint run: every reply in the log of an instance is about to reach the coroutine that
      made the request, or has reached it, once. */
  lemma EveryReplyArrives(code: Code, js: seq<J.System>, bs: seq<Book>, i: nat, k: nat, x: Reply)
    requires BookedRun(code, js, bs) && i < |js| && k < B.NUM_INSTANCES
    ensures |js[i].inst| == B.NUM_INSTANCES
    ensures x in B.Log(js[i].inst[k]) ==> Arrives(js[i].w.calling, js[i].w.history, bs[i], x)
    ensures PlaceOk(bs[i])
  {
    BookInv(code, js, bs, i);
  }

  /** From the kernel to sync_wait, in every joint run: what a finished coroutine did is what its code
      does when run directly on the replies that the instances logged to its requests. */
  lemma FinishedOnReplies(code: Code, js: seq<J.System>, bs: seq<Book>, i: nat, r: Id)
    requires BookedRun(code, js, bs) && i < |js| && r in js[i].w.history && js[i].w.history[r].phase.Finished?
    ensures js[i].w.history[r].body.User?
    ensures exists f, o, effects :: RanTo(code, js[i].w.history[r], f, o, effects)
    ensures FedReplies(code, js[i].inst, js[i].w.history[r], GivenTo(bs[i], r))
  {
    AlongBookedRun(code, js, bs, i);
    FinishedRan(code, js[i].w, r);
    ResultsAreReplies(code, js, bs, i, r);
  }

  /** The same without the book: whatever number a coroutine is about to be resumed with, it is a logged
      and permitted reply to a request for its very operation. */
  lemma ResumedWithReplies(code: Code, js: seq<J.System>, i: nat, h: Id)
    requires J.JointRun(code, js) && i < |js| && h in js[i].w.calling
    ensures exists q :: Logged(js[i].inst, q, js[i].w.calling[h]) && SuspendedIn(js[i].w.frames, h, q.op)
  {
    EveryRunHasABook(code, js);
    var bs :| BookedRun(code, js, bs);
    CallbackCarriesReply(code, js, bs, i, h);
  }
}
