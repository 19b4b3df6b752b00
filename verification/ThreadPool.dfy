/** The thread pool as interleaved steps of its threads. The mutex is held across a step only
    where it matters: by a worker that found nothing to do and has not blocked yet. The drain loop takes
    no mutex; its test, its look at the head and its pop are three steps. */
module ThreadPool {
  import opened Program

  type Task = nat

  /** What the queue holds: a task, or what std::move has left of one until it is popped. The language
      does not say what that is; with the usual implementation it is empty. */
  datatype Entry = Whole(task: Task) | MovedOut(rest: Option<Task>)

  /** How a task left the queue: moved out by a worker that will run it, or popped unseen. */
  datatype Departure = Ran(task: Task) | Dropped(task: Task)

  /** Where a worker is in worker_loop. */
  datatype Phase =
    | Ready              // about to lock the mutex and look
    | Parking            // has the mutex, found nothing, is about to block
    | Asleep            // in queue_cv_.wait
    | Busy(task: Task)   // has taken a task
    | Draining           // left the first loop, about to test the queue
    | Committed          // found it non-empty, about to move the head out
    | Holding(got: Option<Task>)  // has moved the head out, about to pop
    | Exited

  datatype State = State(workers: seq<Phase>, queue: seq<Entry>, running: bool, stopNotified: bool,
                         notifies: nat,          // notify_one calls that execute still owes
                         submitted: seq<Task>,   // pushed, in lock order
                         left: seq<Departure>,   // the tasks that have left the queue, in order
                         again: seq<Task>,       // found in a head that had been moved out before
                         bad: nat,               // looks at a moved-out head, or at an empty queue
                         undefined: bool,        // front() or pop() on an empty queue
                         late: nat)              // pushed after a worker had exited

  datatype Event =
    | Push(task: Task)
    | NotifyOne(w: nat)     // wakes w if it is blocked; must not ignore blocked workers
    | Look(w: nat)          // lock, test the predicate, and act on it
    | Park(w: nat)
    | Spurious(w: nat)
    | Finish(w: nat)
    | SetStop               // running_.store(false), outside the mutex
    | NotifyAll
    | Test(w: nat)                        // the drain loop: empty()
    | Front(w: nat, rest: Option<Task>)   // std::move(front()), which leaves `rest`
    | Pop(w: nat)

  function Start(n: nat): State {
    State(seq(n, i => Ready), [], true, false, 0, [], [], [], 0, false, 0)
  }

  function Put(s: State, w: nat, p: Phase): State
    requires w < |s.workers|
  {
    s.(workers := s.workers[w := p])
  }

  predicate At(s: State, w: nat, p: Phase) {
    w < |s.workers| && s.workers[w] == p
  }

  /** Nobody holds the mutex. */
  predicate Free(s: State) {
    Parking !in s.workers
  }

  function DoPush(s: State, task: Task): State {
    s.(queue := s.queue + [Whole(task)], submitted := s.submitted + [task], notifies := s.notifies + 1,
       late := if Exited in s.workers then s.late + 1 else s.late)
  }

  function DoLook(s: State, w: nat): State
    requires w < |s.workers|
  {
    if !s.running then Put(s, w, Draining)
    else if s.queue == [] then Put(s, w, Parking)
    else match s.queue[0]
      case Whole(t) => Put(s, w, Busy(t)).(queue := s.queue[1..], left := s.left + [Ran(t)])
      case MovedOut(_) => s
  }

  function Opt(o: Option<Task>): seq<Task> {
    match o
    case None => []
    case Some(t) => [t]
  }

  function DoFront(s: State, w: nat, rest: Option<Task>): State
    requires w < |s.workers|
  {
    if s.queue == [] then s.(undefined := true, bad := s.bad + 1)
    else match s.queue[0]
      case Whole(t) => Put(s, w, Holding(Some(t))).(queue := s.queue[0 := MovedOut(rest)], left := s.left + [Ran(t)])
      case MovedOut(was) =>
        Put(s, w, Holding(was)).(queue := s.queue[0 := MovedOut(rest)], again := s.again + Opt(was), bad := s.bad + 1)
  }

  function DoPop(s: State, w: nat): State
    requires w < |s.workers|
  {
    if s.queue == [] then s.(undefined := true)
    else
      Put(s, w, Draining).(queue := s.queue[1..],
                           left := if s.queue[0].Whole? then s.left + [Dropped(s.queue[0].task)] else s.left)
  }

  function Awoken(workers: seq<Phase>): (r: seq<Phase>)
    ensures |r| == |workers|
    ensures forall i :: 0 <= i < |r| ==> r[i] == if workers[i].Asleep? then Ready else workers[i]
  {
    seq(|workers|, i requires 0 <= i < |workers| => if workers[i].Asleep? then Ready else workers[i])
  }

  /** A step the state does not allow changes nothing; nor does any step once the language says nothing
      more about the program. */
  function Step(s: State, e: Event): State {
    if s.undefined then s else
    match e
    case Push(task) => if Free(s) then DoPush(s, task) else s
    case NotifyOne(w) =>
      if s.notifies == 0 then s
      else if At(s, w, Asleep) then Put(s, w, Ready).(notifies := s.notifies - 1)
      else if Asleep !in s.workers then s.(notifies := s.notifies - 1)
      else s
    case Look(w) => if At(s, w, Ready) && Free(s) then DoLook(s, w) else s
    case Park(w) => if At(s, w, Parking) then Put(s, w, Asleep) else s
    case Spurious(w) => if At(s, w, Asleep) then Put(s, w, Ready) else s
    case Finish(w) =>
      if w < |s.workers| && s.workers[w].Busy? then Put(s, w, Ready) else s
    case SetStop => s.(running := false)
    case NotifyAll => if s.running then s else s.(workers := Awoken(s.workers), stopNotified := true)
    case Test(w) => if At(s, w, Draining) then Put(s, w, if s.queue == [] then Exited else Committed) else s
    case Front(w, rest) => if At(s, w, Committed) then DoFront(s, w, rest) else s
    case Pop(w) => if w < |s.workers| && s.workers[w].Holding? then DoPop(s, w) else s
  }

  /** Steps taken one after another, the last one last. */
  function Run(s: State, es: seq<Event>): State {
    if es == [] then s else Step(Run(s, es[..|es| - 1]), es[|es| - 1])
  }

  // ---- Counting workers ----

  predicate IsReady(p: Phase) {
    p.Ready?
  }

  predicate IsHolding(p: Phase) {
    p.Holding?
  }

  function Count(workers: seq<Phase>, f: Phase -> bool): nat {
    if workers == [] then 0 else Count(workers[..|workers| - 1], f) + if f(workers[|workers| - 1]) then 1 else 0
  }

  lemma {:induction false} CountPut(workers: seq<Phase>, w: nat, p: Phase, f: Phase -> bool)
    requires w < |workers|
    ensures Count(workers[w := p], f) == Count(workers, f) + (if f(p) then 1 else 0) - (if f(workers[w]) then 1 else 0)
  {
    var n := |workers| - 1;
    if w < n {
      CountPut(workers[..n], w, p, f);
      assert workers[w := p][..n] == workers[..n][w := p];
    } else {
      assert workers[w := p][..n] == workers[..n];
    }
  }

  lemma {:induction false} CountAwoken(workers: seq<Phase>)
    ensures Count(Awoken(workers), IsHolding) == Count(workers, IsHolding)
  {
    if workers != [] {
      var n := |workers| - 1;
      CountAwoken(workers[..n]);
      assert Awoken(workers)[..n] == Awoken(workers[..n]);
    }
  }

  function Readies(workers: seq<Phase>): nat {
    Count(workers, IsReady)
  }

  /** Workers between their look at the head and their pop. */
  function Holders(workers: seq<Phase>): nat {
    Count(workers, IsHolding)
  }

  // ---- Invariants ----

  predicate InDrain(p: Phase) {
    p.Draining? || p.Committed? || p.Holding? || p.Exited?
  }

  /** Nobody drains while the pool runs, and a worker that holds the mutex saw an empty queue. */
  ghost predicate Sane(s: State) {
    && (s.running ==> forall p :: p in s.workers ==> !InDrain(p))
    && (s.running ==> !s.stopNotified && s.late == 0 && s.bad == 0 && s.again == [] && !s.undefined)
    && (s.running ==> forall e :: e in s.queue ==> e.Whole?)
    && (forall i :: 0 < i < |s.queue| ==> s.queue[i].Whole?)
    && (Parking in s.workers ==> s.queue == [])
    && (forall i, j :: 0 <= i < |s.workers| && 0 <= j < |s.workers| && s.workers[i].Parking? && s.workers[j].Parking?
                       ==> i == j)
  }

  /** A blocked worker is not needed: every queued task has an awake worker that will look, or a
      notification on its way. */
  ghost predicate NoLostWakeup(s: State) {
    s.running && Asleep in s.workers ==> |s.queue| <= Readies(s.workers) + s.notifies
  }

  lemma NobodyDrains(s: State, w: nat)
    requires Sane(s) && s.running && w < |s.workers|
    ensures !InDrain(s.workers[w])
  {
    assert s.workers[w] in s.workers;
  }

  lemma SaneDrain(s: State, e: Event)
    requires Sane(s) && (e.Test? || e.Front? || e.Pop?)
    ensures Sane(Step(s, e))
  {
    if s.running && e.w < |s.workers| { NobodyDrains(s, e.w); }
  }

  lemma SaneLoop(s: State, e: Event)
    requires Sane(s) && !e.Test? && !e.Front? && !e.Pop?
    ensures Sane(Step(s, e))
  {
  }

  lemma SaneStep(s: State, e: Event)
    requires Sane(s)
    ensures Sane(Step(s, e))
  {
    if e.Test? || e.Front? || e.Pop? { SaneDrain(s, e); } else { SaneLoop(s, e); }
  }

  lemma WakeupStep(s: State, e: Event)
    requires Sane(s) && NoLostWakeup(s)
    ensures NoLostWakeup(Step(s, e))
  {
    match e
    case NotifyOne(w) => if At(s, w, Asleep) { CountPut(s.workers, w, Ready, IsReady); }
    case Look(w) =>
      if At(s, w, Ready) && Free(s) && s.running && s.queue != [] {
        assert s.queue[0] in s.queue;
        CountPut(s.workers, w, Busy(s.queue[0].task), IsReady);
      }
    case Spurious(w) => if At(s, w, Asleep) { CountPut(s.workers, w, Ready, IsReady); }
    case Finish(w) => if w < |s.workers| { CountPut(s.workers, w, Ready, IsReady); }
    case Test(w) => if s.running && w < |s.workers| { NobodyDrains(s, w); }
    case Front(w, _) => if s.running && w < |s.workers| { NobodyDrains(s, w); }
    case Pop(w) => if s.running && w < |s.workers| { NobodyDrains(s, w); }
    case _ =>
  }

  lemma StartKeeps(n: nat)
    ensures Sane(Start(n)) && NoLostWakeup(Start(n))
  {
  }

  lemma StepWorkers(s: State, e: Event)
    ensures |Step(s, e).workers| == |s.workers|
  {
  }

  lemma {:induction false} RunKeeps(n: nat, es: seq<Event>)
    ensures var s := Run(Start(n), es);
            Sane(s) && NoLostWakeup(s) && |s.workers| == n
  {
    if es == [] {
      StartKeeps(n);
    } else {
      var s := Run(Start(n), es[..|es| - 1]);
      var e := es[|es| - 1];
      RunKeeps(n, es[..|es| - 1]);
      SaneStep(s, e);
      WakeupStep(s, e);
      StepWorkers(s, e);
    }
  }

  /** No lost work wake-up: any number of workers and producers, every interleaving, spurious
      wake-ups included. */
  lemma WorkersAreWoken(n: nat, es: seq<Event>)
    ensures var s := Run(Start(n), es);
            s.running && Asleep in s.workers ==> |s.queue| <= Readies(s.workers) + s.notifies
  {
    RunKeeps(n, es);
  }

  // ---- Each task leaves the queue once, in order ----

  function Tasks(left: seq<Departure>): seq<Task> {
    if left == [] then [] else Tasks(left[..|left| - 1]) + [left[|left| - 1].task]
  }

  function Wholes(queue: seq<Entry>): seq<Task> {
    if queue == [] then []
    else if queue[0].Whole? then [queue[0].task] + Wholes(queue[1..])
    else Wholes(queue[1..])
  }

  function Drops(left: seq<Departure>): nat {
    if left == [] then 0 else Drops(left[..|left| - 1]) + if left[|left| - 1].Dropped? then 1 else 0
  }

  lemma TaskLeaves(left: seq<Departure>, d: Departure)
    ensures Tasks(left + [d]) == Tasks(left) + [d.task]
  {
    assert (left + [d])[..|left|] == left;
  }

  lemma DropLeaves(left: seq<Departure>, d: Departure)
    ensures Drops(left + [d]) == Drops(left) + if d.Dropped? then 1 else 0
  {
    assert (left + [d])[..|left|] == left;
  }

  lemma {:induction false} OneJoins(queue: seq<Entry>, t: Task)
    ensures Wholes(queue + [Whole(t)]) == Wholes(queue) + [t]
  {
    if queue == [] {
      assert queue + [Whole(t)] == [Whole(t)];
    } else {
      OneJoins(queue[1..], t);
      assert (queue + [Whole(t)])[1..] == queue[1..] + [Whole(t)];
    }
  }

  lemma HeadMovedOut(queue: seq<Entry>, rest: Option<Task>)
    requires queue != []
    ensures Wholes(queue[0 := MovedOut(rest)]) == Wholes(queue[1..])
  {
    assert queue[0 := MovedOut(rest)][1..] == queue[1..];
  }

  /** What has left, run or not, followed by what is queued is what was submitted. */
  ghost predicate InOrder(s: State) {
    Tasks(s.left) + Wholes(s.queue) == s.submitted
  }

  lemma HeadLeaves(left: seq<Departure>, queue: seq<Entry>, d: Departure)
    requires queue != [] && queue[0] == Whole(d.task)
    ensures Tasks(left + [d]) + Wholes(queue[1..]) == Tasks(left) + Wholes(queue)
  {
    TaskLeaves(left, d);
    Regroup(Tasks(left), d.task, Wholes(queue[1..]));
  }

  lemma Regroup(a: seq<Task>, t: Task, b: seq<Task>)
    ensures (a + [t]) + b == a + ([t] + b)
  {
  }

  lemma LookInOrder(s: State, w: nat)
    requires InOrder(s) && w < |s.workers|
    ensures InOrder(DoLook(s, w))
  {
    if s.running && s.queue != [] && s.queue[0].Whole? { HeadLeaves(s.left, s.queue, Ran(s.queue[0].task)); }
  }

  lemma FrontInOrder(s: State, w: nat, rest: Option<Task>)
    requires InOrder(s) && w < |s.workers|
    ensures InOrder(DoFront(s, w, rest))
  {
    if s.queue != [] {
      HeadMovedOut(s.queue, rest);
      if s.queue[0].Whole? { HeadLeaves(s.left, s.queue, Ran(s.queue[0].task)); }
    }
  }

  lemma PopInOrder(s: State, w: nat)
    requires InOrder(s) && w < |s.workers|
    ensures InOrder(DoPop(s, w))
  {
    if s.queue != [] && s.queue[0].Whole? { HeadLeaves(s.left, s.queue, Dropped(s.queue[0].task)); }
  }

  lemma InOrderStep(s: State, e: Event)
    requires InOrder(s)
    ensures InOrder(Step(s, e))
  {
    match e
    case Push(t) => OneJoins(s.queue, t);
    case Look(w) => if w < |s.workers| { LookInOrder(s, w); }
    case Front(w, rest) => if w < |s.workers| { FrontInOrder(s, w, rest); }
    case Pop(w) => if w < |s.workers| { PopInOrder(s, w); }
    case _ =>
  }

  /** For any number of workers, while the pool runs and while any number of them drain: every task leaves
      the queue at most once and in the order of submission. */
  lemma {:induction false} LeftInOrder(n: nat, es: seq<Event>)
    ensures var s := Run(Start(n), es); Tasks(s.left) + Wholes(s.queue) == s.submitted
  {
    if es != [] {
      LeftInOrder(n, es[..|es| - 1]);
      InOrderStep(Run(Start(n), es[..|es| - 1]), es[|es| - 1]);
    }
  }

  // ---- What is lost ----

  /** A moved-out head that nobody has popped yet. */
  function Unpopped(queue: seq<Entry>): nat {
    if queue != [] && queue[0].MovedOut? then 1 else 0
  }

  /** Every look at a head that was moved out already costs one task: dropped, or about to be by one of
      the workers that hold more than there is to pop. */
  ghost predicate Balanced(s: State) {
    && (!s.undefined ==> Drops(s.left) + Holders(s.workers) == s.bad + Unpopped(s.queue))
    && (!s.undefined ==> Unpopped(s.queue) <= Holders(s.workers))
    && (s.undefined ==> s.bad > 0)
  }

  lemma WholeFrontBalanced(s: State, w: nat, rest: Option<Task>)
    requires At(s, w, Committed) && Balanced(s) && !s.undefined && s.queue != [] && s.queue[0].Whole?
    ensures Balanced(DoFront(s, w, rest))
  {
    CountPut(s.workers, w, Holding(Some(s.queue[0].task)), IsHolding);
    DropLeaves(s.left, Ran(s.queue[0].task));
  }

  lemma FrontBalanced(s: State, w: nat, rest: Option<Task>)
    requires At(s, w, Committed) && Balanced(s) && !s.undefined
    ensures Balanced(DoFront(s, w, rest))
  {
    if s.queue != [] {
      if s.queue[0].Whole? {
        WholeFrontBalanced(s, w, rest);
      } else {
        CountPut(s.workers, w, Holding(s.queue[0].rest), IsHolding);
      }
    }
  }

  lemma {:induction false} SomeHolder(workers: seq<Phase>, w: nat)
    requires w < |workers| && workers[w].Holding?
    ensures Holders(workers) > 0
  {
    CountPut(workers, w, Draining, IsHolding);
  }

  lemma PopWhole(s: State, w: nat)
    requires w < |s.workers| && s.workers[w].Holding? && Balanced(s) && !s.undefined
    requires s.queue != [] && s.queue[0].Whole? && Unpopped(s.queue[1..]) == 0
    ensures Balanced(DoPop(s, w))
  {
    CountPut(s.workers, w, Draining, IsHolding);
    DropLeaves(s.left, Dropped(s.queue[0].task));
  }

  lemma PopBalanced(s: State, w: nat)
    requires w < |s.workers| && s.workers[w].Holding? && Sane(s) && Balanced(s) && !s.undefined
    ensures Balanced(DoPop(s, w))
  {
    if s.queue == [] {
      SomeHolder(s.workers, w);
    } else if s.queue[0].Whole? {
      PopWhole(s, w);
    } else {
      CountPut(s.workers, w, Draining, IsHolding);
    }
  }

  lemma LookBalanced(s: State, w: nat)
    requires At(s, w, Ready) && Sane(s) && Balanced(s) && !s.undefined
    ensures Balanced(DoLook(s, w))
  {
    if !s.running {
      CountPut(s.workers, w, Draining, IsHolding);
    } else if s.queue == [] {
      CountPut(s.workers, w, Parking, IsHolding);
    } else {
      assert s.queue[0] in s.queue;
      CountPut(s.workers, w, Busy(s.queue[0].task), IsHolding);
      DropLeaves(s.left, Ran(s.queue[0].task));
    }
  }

  lemma BalancedStep(s: State, e: Event)
    requires Sane(s) && Balanced(s)
    ensures Balanced(Step(s, e))
  {
    if !s.undefined {
      match e
      case Front(w, rest) => if At(s, w, Committed) { FrontBalanced(s, w, rest); }
      case Pop(w) => if w < |s.workers| && s.workers[w].Holding? { PopBalanced(s, w); }
      case Look(w) => if At(s, w, Ready) { LookBalanced(s, w); }
      case NotifyAll => CountAwoken(s.workers);
      case NotifyOne(w) => if At(s, w, Asleep) { CountPut(s.workers, w, Ready, IsHolding); }
      case Spurious(w) => if At(s, w, Asleep) { CountPut(s.workers, w, Ready, IsHolding); }
      case Park(w) => if At(s, w, Parking) { CountPut(s.workers, w, Asleep, IsHolding); }
      case Finish(w) => if w < |s.workers| { CountPut(s.workers, w, Ready, IsHolding); }
      case Test(w) =>
        if At(s, w, Draining) { CountPut(s.workers, w, if s.queue == [] then Exited else Committed, IsHolding); }
      case Push(_) => case SetStop =>
    }
  }

  lemma {:induction false} NoneHolds(n: nat)
    ensures Holders(Start(n).workers) == 0
  {
    if n > 0 {
      NoneHolds(n - 1);
      assert Start(n).workers[..n - 1] == Start(n - 1).workers;
    }
  }

  lemma {:induction false} RunBalanced(n: nat, es: seq<Event>)
    ensures Balanced(Run(Start(n), es))
  {
    if es == [] {
      NoneHolds(n);
    } else {
      RunKeeps(n, es[..|es| - 1]);
      RunBalanced(n, es[..|es| - 1]);
      BalancedStep(Run(Start(n), es[..|es| - 1]), es[|es| - 1]);
    }
  }

  /** A worker of the drain loop looks at a head that another one has moved out and not yet popped, or at
      a queue that others have emptied since its test. */
  predicate BadLook(s: State, e: Event) {
    !s.undefined && e.Front? && At(s, e.w, Committed) && (s.queue == [] || s.queue[0].MovedOut?)
  }

  lemma BadStep(s: State, e: Event)
    ensures Step(s, e).bad == s.bad + if BadLook(s, e) then 1 else 0
  {
  }

  function BadLooks(n: nat, es: seq<Event>): nat {
    if es == [] then 0 else
      BadLooks(n, es[..|es| - 1]) + if BadLook(Run(Start(n), es[..|es| - 1]), es[|es| - 1]) then 1 else 0
  }

  lemma {:induction false} BadCounts(n: nat, es: seq<Event>)
    ensures Run(Start(n), es).bad == BadLooks(n, es)
  {
    if es != [] {
      BadCounts(n, es[..|es| - 1]);
      BadStep(Run(Start(n), es[..|es| - 1]), es[|es| - 1]);
    }
  }

  /** In every run of any number of workers, whenever nobody is between its look and its pop: a task was
      lost, or the queue misused, exactly if there was a bad look; and as many tasks as bad looks. */
  lemma LostIff(n: nat, es: seq<Event>)
    requires Holders(Run(Start(n), es).workers) == 0
    ensures var s := Run(Start(n), es);
            && (Drops(s.left) > 0 || s.undefined <==> BadLooks(n, es) > 0)
            && (!s.undefined ==> Drops(s.left) == BadLooks(n, es))
  {
    RunBalanced(n, es);
    BadCounts(n, es);
  }

  /** std::move leaves an empty function behind. */
  predicate Emptying(e: Event) {
    e.Front? ==> e.rest.None?
  }

  ghost predicate HeadEmptied(s: State) {
    && s.again == [] && (s.queue != [] && s.queue[0].MovedOut? ==> s.queue[0].rest.None?)
  }

  lemma EmptiedStep(s: State, e: Event)
    requires Sane(s) && HeadEmptied(s) && Emptying(e)
    ensures HeadEmptied(Step(s, e))
  {
  }

  /** Where it does: in every run of any number of workers no task is run a second time. */
  lemma {:induction false} AtMostOnce(n: nat, es: seq<Event>)
    requires forall e :: e in es ==> Emptying(e)
    ensures HeadEmptied(Run(Start(n), es))
  {
    if es != [] {
      RunKeeps(n, es[..|es| - 1]);
      AtMostOnce(n, es[..|es| - 1]);
      EmptiedStep(Run(Start(n), es[..|es| - 1]), es[|es| - 1]);
    }
  }

  // ---- As long as no look was bad ----

  /** Everything that left the queue is run, once, and every moved-out head is about to be popped. */
  ghost predicate Tidy(s: State) {
    !s.undefined && s.again == [] && Drops(s.left) == 0 && Holders(s.workers) == Unpopped(s.queue)
  }

  lemma AgainStep(s: State, e: Event)
    requires !BadLook(s, e)
    ensures Step(s, e).again == s.again
  {
  }

  /** The drain stays tidy through a step exactly if it is not a bad look. */
  lemma DrainBreaksIff(s: State, e: Event)
    requires Sane(s) && Balanced(s) && Tidy(s)
    ensures Tidy(Step(s, e)) <==> !BadLook(s, e)
  {
    BalancedStep(s, e);
    BadStep(s, e);
    if !BadLook(s, e) { AgainStep(s, e); }
  }

  lemma {:induction false} NoDrops(left: seq<Departure>, i: nat)
    requires Drops(left) == 0 && i < |left|
    ensures left[i].Ran?
  {
    if i < |left| - 1 { NoDrops(left[..|left| - 1], i); }
  }

  lemma {:induction false} NobodyHolds(workers: seq<Phase>)
    requires forall p :: p in workers ==> !p.Holding?
    ensures Holders(workers) == 0
  {
    if workers != [] {
      assert workers[|workers| - 1] in workers;
      forall p | p in workers[..|workers| - 1] ensures !p.Holding? { assert p in workers; }
      NobodyHolds(workers[..|workers| - 1]);
    }
  }

  lemma {:induction false} AllWhole(queue: seq<Entry>)
    requires forall e :: e in queue ==> e.Whole?
    ensures |Wholes(queue)| == |queue|
  {
    if queue != [] {
      assert queue[0] in queue;
      forall e | e in queue[1..] ensures e.Whole? { assert e in queue; }
      AllWhole(queue[1..]);
    }
  }

  /** While the pool runs, what was taken is a prefix of what was submitted, in the order of the
      mutex, and the rest is the queue: no task is lost, reordered or run twice. */
  lemma TakenInOrder(n: nat, es: seq<Event>)
    ensures var s := Run(Start(n), es);
            s.running ==>
              && Tasks(s.left) + Wholes(s.queue) == s.submitted && |Wholes(s.queue)| == |s.queue| && s.again == []
              && forall i :: 0 <= i < |s.left| ==> s.left[i].Ran?
  {
    var s := Run(Start(n), es);
    RunKeeps(n, es);
    LeftInOrder(n, es);
    RunBalanced(n, es);
    if s.running {
      NobodyHolds(s.workers);
      AllWhole(s.queue);
      forall i | 0 <= i < |s.left| ensures s.left[i].Ran? { NoDrops(s.left, i); }
    }
  }

  // ---- One worker ----

  /** Where the worker is, against what is queued. */
  ghost predicate Placed(s: State) {
    && |s.workers| == 1 && (s.workers[0].Committed? ==> s.queue != [])
    && (if s.workers[0].Exited? then |s.queue| == s.late else s.late == 0)
  }

  /** Nobody else empties the queue between its test and its look, nor looks before it has popped. */
  ghost predicate Solo(s: State) {
    Sane(s) && Balanced(s) && Placed(s) && s.bad == 0 && s.again == []
  }

  lemma OneHolder(workers: seq<Phase>)
    requires |workers| == 1
    ensures Holders(workers) == if workers[0].Holding? then 1 else 0
  {
    CountPut(workers, 0, Ready, IsHolding);
    NobodyHolds(workers[0 := Ready]);
  }

  lemma SoloLook(s: State, e: Event)
    requires Solo(s)
    ensures !BadLook(s, e)
  {
    OneHolder(s.workers);
  }

  lemma PlacedDrain(s: State, e: Event)
    requires Placed(s) && (e.Test? || e.Front? || e.Pop?)
    ensures Placed(Step(s, e))
  {
  }

  lemma PlacedPush(s: State, t: Task)
    requires Placed(s)
    ensures Placed(Step(s, Push(t)))
  {
    assert Exited in s.workers <==> s.workers[0].Exited?;
  }

  lemma PlacedLoop(s: State, e: Event)
    requires Placed(s) && !e.Test? && !e.Front? && !e.Pop? && !e.Push?
    ensures Placed(Step(s, e))
  {
  }

  lemma SoloStep(s: State, e: Event)
    requires Solo(s)
    ensures Solo(Step(s, e))
  {
    SaneStep(s, e);
    BalancedStep(s, e);
    SoloLook(s, e);
    BadStep(s, e);
    AgainStep(s, e);
    if e.Test? || e.Front? || e.Pop? { PlacedDrain(s, e); }
    else if e.Push? { PlacedPush(s, e.task); }
    else { PlacedLoop(s, e); }
  }

  lemma {:induction false} SoloRun(es: seq<Event>)
    ensures Solo(Run(Start(1), es))
  {
    if es == [] {
      RunBalanced(1, []);
    } else {
      SoloRun(es[..|es| - 1]);
      SoloStep(Run(Start(1), es[..|es| - 1]), es[|es| - 1]);
    }
  }

  lemma {:induction false} OnlyWholes(queue: seq<Entry>)
    requires Unpopped(queue) == 0 && forall i :: 0 < i < |queue| ==> queue[i].Whole?
    ensures |Wholes(queue)| == |queue|
  {
    forall e | e in queue ensures e.Whole? { }
    AllWhole(queue);
  }

  lemma TasksAre(a: seq<Task>, b: seq<Task>, c: seq<Task>)
    requires a + b == c
    ensures |b| <= |c| && a == c[..|c| - |b|]
  {
  }

  /** With one worker, in every run: the tasks are run in the order of submission, each once, none is
      dropped; and when the worker has left, everything is run that was pushed before. */
  lemma SingleWorkerDrains(es: seq<Event>)
    ensures var s := Run(Start(1), es);
            && !s.undefined && |s.workers| == 1 && s.late <= |s.submitted| && s.again == []
            && (forall i :: 0 <= i < |s.left| ==> s.left[i].Ran?)
            && Tasks(s.left) <= s.submitted
            && (s.workers[0].Exited? ==> Tasks(s.left) == s.submitted[..|s.submitted| - s.late])
  {
    var s := Run(Start(1), es);
    SoloRun(es);
    OneHolder(s.workers);
    LeftInOrder(1, es);
    forall i | 0 <= i < |s.left| ensures s.left[i].Ran? { NoDrops(s.left, i); }
    TasksAre(Tasks(s.left), Wholes(s.queue), s.submitted);
    if s.workers[0].Exited? { OnlyWholes(s.queue); }
  }

  // ---- The destructor ----

  ghost predicate NoneBlocksFrom(s: State) {
    forall es :: Asleep !in Run(s, es).workers
  }

  /** running_ is cleared without the mutex. After notify_all no worker ever blocks exactly if none
      was about to block at that moment. */
  lemma StopReachesAllIff(s: State)
    requires Sane(s) && !s.running && !s.undefined
    ensures NoneBlocksFrom(Step(s, NotifyAll)) <==> Parking !in s.workers
  {
    var t := Step(s, NotifyAll);
    if Parking in s.workers {
      var w: nat :| w < |s.workers| && s.workers[w] == Parking;
      var es := [Park(w)];
      assert es[..0] == [];
      assert Run(t, es) == Step(t, Park(w));
      assert t.workers[w] == Parking;
      assert Run(t, es).workers[w] == Asleep;
      assert Asleep in Run(t, es).workers;
    } else {
      forall es ensures Asleep !in Run(t, es).workers {
        NeverBlocksAgain(t, es);
      }
    }
  }

  ghost predicate NobodyWaits(s: State) {
    !s.running && Parking !in s.workers && Asleep !in s.workers
  }

  lemma QuietStep(s: State, e: Event)
    requires NobodyWaits(s)
    ensures NobodyWaits(Step(s, e))
  {
  }

  lemma {:induction false} NeverBlocksAgain(t: State, es: seq<Event>)
    requires NobodyWaits(t)
    ensures NobodyWaits(Run(t, es))
  {
    if es != [] {
      NeverBlocksAgain(t, es[..|es| - 1]);
      QuietStep(Run(t, es[..|es| - 1]), es[|es| - 1]);
    }
  }

  /** Such a worker stays blocked, and the destructor's join with it, until a spurious wake-up or
      another execute. */
  lemma {:induction false} BlockedForGood(s: State, w: nat, es: seq<Event>)
    requires At(s, w, Asleep) && s.notifies == 0
    requires Spurious(w) !in es && NotifyAll !in es && forall e :: e in es ==> !e.Push?
    ensures At(Run(s, es), w, Asleep) && Run(s, es).notifies == 0
  {
    if es != [] {
      BlockedForGood(s, w, es[..|es| - 1]);
    }
  }

  lemma RunPrefix(s: State, es: seq<Event>, k: nat)
    requires k < |es|
    ensures Run(s, es[..k + 1]) == Step(Run(s, es[..k]), es[k])
    ensures Run(s, es[..0]) == s
  {
    assert es[..k + 1][..k] == es[..k];
  }

  /** From the start: the only worker finds nothing to do, the flag is cleared and everybody is notified
      before it waits; then it waits, and nothing is left to wake it. */
  lemma DestructorCanHang()
    ensures var s := Run(Start(1), [Look(0), SetStop]);
            && !s.running && s.notifies == 0 && Parking in s.workers
            && At(Run(Start(1), [Look(0), SetStop, NotifyAll, Park(0)]), 0, Asleep)
  {
    var es := [Look(0), SetStop, NotifyAll, Park(0)];
    RunPrefix(Start(1), es, 0);
    RunPrefix(Start(1), es, 1);
    RunPrefix(Start(1), es, 2);
    RunPrefix(Start(1), es, 3);
    assert es[..2] == [Look(0), SetStop] && es[..4] == es;
    var s := Run(Start(1), es[..2]);
    assert s.workers == [Parking];
  }

  // ---- Two drainers ----

  lemma FiveSteps(s: State, es: seq<Event>)
    requires |es| == 5
    ensures Run(s, es) == Step(Step(Step(Step(Step(s, es[0]), es[1]), es[2]), es[3]), es[4])
  {
    RunPrefix(s, es, 0);
    RunPrefix(s, es, 1);
    RunPrefix(s, es, 2);
    RunPrefix(s, es, 3);
    RunPrefix(s, es, 4);
    assert es[..5] == es;
  }

  lemma {:induction false} RunBoth(s: State, es: seq<Event>, fs: seq<Event>)
    ensures Run(s, es + fs) == Run(Run(s, es), fs)
  {
    if fs == [] {
      assert es + fs == es;
    } else {
      RunBoth(s, es, fs[..|fs| - 1]);
      assert (es + fs)[..|es + fs| - 1] == es + fs[..|fs| - 1];
    }
  }

  lemma BothReachTheDrain(a: Task, b: Task)
    ensures var s := Run(Start(2), [Push(a), Push(b), SetStop, Look(0), Look(1)]);
            && s.workers == [Draining, Draining] && s.queue == [Whole(a), Whole(b)] && s.submitted == [a, b]
            && s.left == [] && s.again == [] && !s.undefined
  {
    FiveSteps(Start(2), [Push(a), Push(b), SetStop, Look(0), Look(1)]);
    assert Start(2).workers == [Ready, Ready];
    var s := Step(Step(Start(2), Push(a)), Push(b));
    assert s.workers == [Ready, Ready] && s.queue == [Whole(a), Whole(b)];
  }

  lemma BothLook(s: State, a: Task, b: Task, rest: Option<Task>)
    requires s.workers == [Draining, Draining] && s.queue == [Whole(a), Whole(b)] && !s.undefined
    requires s.left == [] && s.again == []
    ensures var t := Step(Step(Step(Step(s, Test(0)), Test(1)), Front(0, rest)), Front(1, None));
            && !t.undefined && t.left == [Ran(a)] && t.again == Opt(rest) && t.queue == [MovedOut(None), Whole(b)]
            && t.submitted == s.submitted && t.workers == [Holding(Some(a)), Holding(rest)]
  {
    var u := Step(Step(s, Test(0)), Test(1));
    assert u.workers == [Committed, Committed];
    var v := Step(u, Front(0, rest));
    assert v.workers == [Holding(Some(a)), Committed] && v.queue == [MovedOut(rest), Whole(b)];
  }

  lemma BothPop(s: State, a: Task, b: Task, rest: Option<Task>)
    requires s.workers == [Holding(Some(a)), Holding(rest)] && s.queue == [MovedOut(None), Whole(b)] && !s.undefined
    requires s.left == [Ran(a)]
    ensures var t := Step(Step(s, Pop(0)), Pop(1));
            && !t.undefined && t.left == [Ran(a), Dropped(b)] && t.again == s.again && t.queue == []
            && t.submitted == s.submitted
  {
    var u := Step(s, Pop(0));
    assert u.workers == [Draining, Holding(rest)] && u.queue == [Whole(b)];
  }

  lemma BothDrain(s: State, a: Task, b: Task, rest: Option<Task>)
    requires s.workers == [Draining, Draining] && s.queue == [Whole(a), Whole(b)] && !s.undefined
    requires s.left == [] && s.again == []
    ensures var t := Step(Run(s, [Test(0), Test(1), Front(0, rest), Front(1, None), Pop(0)]), Pop(1));
            && !t.undefined && t.left == [Ran(a), Dropped(b)] && t.again == Opt(rest) && t.queue == []
            && t.submitted == s.submitted
  {
    FiveSteps(s, [Test(0), Test(1), Front(0, rest), Front(1, None), Pop(0)]);
    BothLook(s, a, b, rest);
    BothPop(Step(Step(Step(Step(s, Test(0)), Test(1)), Front(0, rest)), Front(1, None)), a, b, rest);
  }

  /** Two workers that drain at the same time, from the start, whatever the move leaves behind: the first
      task is run, by the second worker too if it is still there, and the second task never. */
  lemma TwoDrainersClash(a: Task, b: Task, rest: Option<Task>)
    ensures var es := [Push(a), Push(b), SetStop, Look(0), Look(1)]
                      + [Test(0), Test(1), Front(0, rest), Front(1, None), Pop(0)] + [Pop(1)];
            var t := Run(Start(2), es);
            !t.undefined && t.submitted == [a, b] && t.left == [Ran(a), Dropped(b)] && t.again == Opt(rest)
            && t.queue == []
  {
    var first, drain := [Push(a), Push(b), SetStop, Look(0), Look(1)],
                       [Test(0), Test(1), Front(0, rest), Front(1, None), Pop(0)];
    BothReachTheDrain(a, b);
    BothDrain(Run(Start(2), first), a, b, rest);
    RunBoth(Start(2), first, drain);
    RunBoth(Start(2), first + drain, [Pop(1)]);
    assert [Pop(1)][..0] == [];
  }

  lemma OneDrains(s: State, a: Task)
    requires s.workers == [Draining, Draining] && s.queue == [Whole(a)] && !s.undefined
    ensures var t := Step(Step(Step(Step(s, Test(0)), Test(1)), Front(0, None)), Pop(0));
            !t.undefined && t.workers == [Draining, Committed] && t.queue == []
  {
    var u := Step(Step(s, Test(0)), Test(1));
    assert u.workers == [Committed, Committed] && u.queue == [Whole(a)];
    var v := Step(u, Front(0, None));
    assert v.workers == [Holding(Some(a)), Committed] && v.queue == [MovedOut(None)];
  }

  lemma LateLook(s: State, a: Task)
    requires s.workers == [Draining, Draining] && s.queue == [Whole(a)] && !s.undefined
    ensures Run(s, [Test(0), Test(1), Front(0, None), Pop(0), Front(1, None)]).undefined
  {
    OneDrains(s, a);
    FiveSteps(s, [Test(0), Test(1), Front(0, None), Pop(0), Front(1, None)]);
  }

  /** And with one task for both, from the start: the second calls front() on an empty queue. */
  lemma TwoDrainersUndefined(a: Task)
    ensures Run(Start(2), [Push(a), SetStop, Look(0), Look(1), NotifyAll]
                          + [Test(0), Test(1), Front(0, None), Pop(0), Front(1, None)]).undefined
  {
    var first := [Push(a), SetStop, Look(0), Look(1), NotifyAll];
    FiveSteps(Start(2), first);
    assert Start(2).workers == [Ready, Ready];
    var s := Run(Start(2), first);
    assert s.workers == [Draining, Draining];
    LateLook(s, a);
    RunBoth(Start(2), first, [Test(0), Test(1), Front(0, None), Pop(0), Front(1, None)]);
  }
}
