/** The number with which the kernel completes an operation is the number its callback gets, and
    completions are handled in the order in which they came. */
module UringAnswers {
  import opened Lists
  import opened Program
  import opened AsyncIo
  import opened Pool
  import opened Uring
  import opened UringProofs

  /** The completion of context `c` stands for the request and the result in `x`. */
  ghost predicate Stands(s: Instance, c: Ctx, x: Reply) {
    && c in s.pool.content && s.pool.content[c] == Content(x.req.op, Some(x.req.id)) && c !in s.pool.entering
    && c in s.answer && s.answer[c] == x.res
  }

  /** The completion queue holds exactly these, in this order. */
  ghost predicate Holds(s: Instance, xs: seq<Reply>) {
    |s.cq| == |xs| && forall i :: 0 <= i < |xs| ==> Stands(s, s.cq[i], xs[i])
  }

  /** What a step of the kernel completes. */
  ghost function Completion(s: Instance, e: Event): seq<Reply> {
    if e.KernelDone? && e.c in s.pool.content && s.pool.content[e.c].cb.Some?
    then [Reply(Req(s.pool.content[e.c].cb.value, s.pool.content[e.c].op), e.res)]
    else []
  }

  function Count(e: Event): nat {
    if e.Handle? then 1 else 0
  }

  lemma PoolStays(s: Instance, e: Event, c: Ctx)
    requires Partition(s) && Enabled(s, e) && c in s.cq && !(e.Handle? && s.cq[0] == c)
    requires c in s.pool.content && c !in s.pool.entering
    ensures var p := Next(s, e).pool; c in p.content && p.content[c] == s.pool.content[c] && c !in p.entering
  {
    SpotMeaning(s, c);
    OneSpot(s, c, Uring.Completed);
    if e.Enter? && s.pool.free != [] { assert s.pool.free[|s.pool.free| - 1] in s.pool.free; }
  }

  lemma AnswerStays(s: Instance, e: Event, c: Ctx)
    requires Partition(s) && Enabled(s, e) && c in s.cq && c in s.answer
    ensures c in Next(s, e).answer && Next(s, e).answer[c] == s.answer[c]
  {
    SpotMeaning(s, c);
    OneSpot(s, c, Uring.Completed);
  }

  lemma NewStands(s: Instance, c: Ctx, res: int)
    requires Good(s) && Enabled(s, KernelDone(c, res))
    ensures |Completion(s, KernelDone(c, res))| == 1
    ensures Stands(Next(s, KernelDone(c, res)), c, Completion(s, KernelDone(c, res))[0])
  {
    SpotMeaning(s, c);
    OneSpot(s, c, InKernel);
    assert Live(s, c);
  }

  lemma QueueMoves(s: Instance, e: Event)
    requires Enabled(s, e)
    ensures Next(s, e).cq == if e.KernelDone? then s.cq + [e.c] else if e.Handle? then s.cq[1..] else s.cq
  {
  }

  lemma StandsStays(s: Instance, e: Event, c: Ctx, x: Reply)
    requires Partition(s) && Enabled(s, e) && c in s.cq && !(e.Handle? && s.cq[0] == c) && Stands(s, c, x)
    ensures Stands(Next(s, e), c, x)
  {
    PoolStays(s, e, c);
    AnswerStays(s, e, c);
  }

  /** What was on the queue and still is. */
  lemma OldStands(s: Instance, e: Event, c: Ctx, x: Reply)
    requires Good(s) && Enabled(s, e) && c in s.cq && Stands(s, c, x) && (e.Handle? ==> c in s.cq[1..])
    ensures Stands(Next(s, e), c, x)
  {
    if e.Handle? { assert s.cq[0] != c; }
    StandsStays(s, e, c, x);
  }

  lemma StepHolds(s: Instance, e: Event, xs: seq<Reply>)
    requires Good(s) && Enabled(s, e) && Holds(s, xs)
    ensures Count(e) <= |xs| && Holds(Next(s, e), xs[Count(e)..] + Completion(s, e))
  {
    QueueMoves(s, e);
    var t, ys := Next(s, e), xs[Count(e)..] + Completion(s, e);
    if e.KernelDone? { NewStands(s, e.c, e.res); }
    forall i | 0 <= i < |ys| ensures i < |t.cq| && Stands(t, t.cq[i], ys[i]) {
      if i < |xs| - Count(e) {
        assert Stands(s, s.cq[i + Count(e)], xs[i + Count(e)]) && t.cq[i] == s.cq[i + Count(e)];
        OldStands(s, e, t.cq[i], ys[i]);
      }
    }
  }

  // ---- Whole runs ----

  /** All completions of a run, in order. */
  ghost function Completions(s: Instance, es: seq<Event>): seq<Reply>
    decreases |es|
  {
    if es == [] || !Enabled(s, es[0]) then [] else Completion(s, es[0]) + Completions(Next(s, es[0]), es[1..])
  }

  /** How many of them the loop has taken. */
  function Handled(es: seq<Event>): nat {
    if es == [] then 0 else Count(es[0]) + Handled(es[1..])
  }

  lemma Shifted(xs: seq<Reply>, n: nat, more: seq<Reply>, rest: seq<Reply>, m: nat)
    requires n <= |xs| && m <= |xs[n..] + more + rest|
    ensures n + m <= |xs + (more + rest)| && (xs + (more + rest))[n + m..] == (xs[n..] + more + rest)[m..]
  {
    assert (xs + (more + rest))[n..] == xs[n..] + more + rest;
    assert (xs + (more + rest))[n + m..] == (xs + (more + rest))[n..][m..];
  }

  /** The queue holds `xs` and what came since, without what was taken. */
  ghost predicate QueueIs(t: Instance, all: seq<Reply>, taken: nat) {
    taken <= |all| && Holds(t, all[taken..])
  }

  lemma QueueStep(s: Instance, es: seq<Event>, t: Instance, xs: seq<Reply>)
    requires es != [] && Enabled(s, es[0]) && Count(es[0]) <= |xs|
    requires QueueIs(t, xs[Count(es[0])..] + Completion(s, es[0]) + Completions(Next(s, es[0]), es[1..]),
                     Handled(es[1..]))
    ensures QueueIs(t, xs + Completions(s, es), Handled(es))
  {
    Shifted(xs, Count(es[0]), Completion(s, es[0]), Completions(Next(s, es[0]), es[1..]), Handled(es[1..]));
  }

  lemma {:induction false} QueueAlong(s: Instance, es: seq<Event>, t: Instance, xs: seq<Reply>)
    requires Good(s) && Leads(s, es, t) && Holds(s, xs)
    ensures QueueIs(t, xs + Completions(s, es), Handled(es))
    decreases |es|
  {
    if es == [] {
      assert (xs + [])[0..] == xs;
    } else {
      StepHolds(s, es[0], xs);
      StepRefines(s, es[0]);
      QueueAlong(Next(s, es[0]), es[1..], t, xs[Count(es[0])..] + Completion(s, es[0]));
      QueueStep(s, es, t, xs);
    }
  }

  lemma HandleLogs(s: Instance, xs: seq<Reply>)
    requires Good(s) && Enabled(s, Handle) && s.running && Holds(s, xs)
    ensures xs != [] && Next(s, Handle).called == s.called + [xs[0]]
  {
    assert Stands(s, s.cq[0], xs[0]);
  }

  /** In every run: the callback that the loop runs next gets the request and the result of the oldest
      completion it has not taken yet, exactly as the kernel gave it. */
  lemma RepliesAreCompletions(es: seq<Event>, t: Instance)
    requires Leads(NEW_INSTANCE, es, t) && Enabled(t, Handle) && t.running
    ensures Handled(es) < |Completions(NEW_INSTANCE, es)|
    ensures Next(t, Handle).called == t.called + [Completions(NEW_INSTANCE, es)[Handled(es)]]
  {
    FreshGood();
    LeadsKeeps(NEW_INSTANCE, es, t);
    QueueAlong(NEW_INSTANCE, es, t, []);
    var xs := Completions(NEW_INSTANCE, es);
    assert [] + xs == xs;
    HandleLogs(t, xs[Handled(es)..]);
  }
}
