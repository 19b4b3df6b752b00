/** The pool's own code: execute, one turn of worker_loop and its drain loop, each proved to take
    exactly the steps of the interleaving model. */
module ThreadPoolCode {
  import opened Program
  import opened ThreadPool

  class ThrdPool {
    var taskQueue: seq<Entry>
    var running: bool
    var ran: seq<Task>            // tasks that were called, in order
    ghost var model: State

    ghost predicate Valid()
      reads this
    {
      model.queue == taskQueue && model.running == running && Sane(model) && !model.undefined
    }

    constructor (n: nat)
      ensures Valid() && model == Start(n) && ran == []
    {
      taskQueue, running, ran, model := [], true, [], Start(n);
      new;
      StartKeeps(n);
    }

    /** `w`: the worker that notify_one reaches, if any is blocked. */
    method Execute(task: Task, ghost w: nat)
      requires Valid() && Free(model)
      modifies this
      ensures Valid() && ran == old(ran) && taskQueue == old(taskQueue) + [Whole(task)]
      ensures model == Step(Step(old(model), Push(task)), NotifyOne(w))
    {
      SaneStep(model, Push(task));
      SaneStep(Step(model, Push(task)), NotifyOne(w));
      taskQueue := taskQueue + [Whole(task)];
      model := Step(model, Push(task));
      model := Step(model, NotifyOne(w));
    }

    /** One turn of the first loop of worker w, up to where it waits, leaves or has run a task. */
    method WorkerTurn(w: nat) returns (leave: bool)
      requires Valid() && At(model, w, Ready) && Free(model)
      modifies this
      ensures Valid() && leave == !running && running == old(running)
      ensures var looked := Step(old(model), Look(w));
              model == if leave then looked
                       else if old(taskQueue) == [] then Step(looked, Park(w))
                       else Step(looked, Finish(w))
      ensures ran + Wholes(taskQueue) == old(ran) + Wholes(old(taskQueue))
      ensures |ran| == |old(ran)| + if leave || old(taskQueue) == [] then 0 else 1
    {
      ghost var looked := Step(model, Look(w));
      SaneStep(model, Look(w));
      SaneStep(looked, Park(w));
      SaneStep(looked, Finish(w));
      if taskQueue == [] && running {
        model := Step(looked, Park(w));
        return false;
      }
      if !running {
        model := looked;
        return true;
      }
      assert taskQueue[0] in taskQueue;
      var task := taskQueue[0].task;
      assert Wholes(taskQueue) == [task] + Wholes(taskQueue[1..]);
      taskQueue := taskQueue[1..];
      ran := ran + [task];
      model := Step(looked, Finish(w));
      return false;
    }

    /** One turn of the drain loop of worker w, alone: empty(), std::move(front()), pop(), and the call. */
    method DrainOne(w: nat, rest: Option<Task>)
      requires Valid() && At(model, w, Draining) && taskQueue != [] && taskQueue[0].Whole?
      modifies this
      ensures Valid() && At(model, w, Draining) && running == old(running)
      ensures taskQueue == old(taskQueue)[1..] && ran == old(ran) + [old(taskQueue)[0].task]
      ensures model.left == old(model.left) + [Ran(old(taskQueue)[0].task)]
      ensures model.bad == old(model.bad) && model.again == old(model.again) && model.submitted == old(model.submitted)
    {
      ghost var tested := Step(model, Test(w));
      ghost var looked := Step(tested, Front(w, rest));
      SaneStep(model, Test(w));
      SaneStep(tested, Front(w, rest));
      SaneStep(looked, Pop(w));
      var task := taskQueue[0].task;
      taskQueue := taskQueue[0 := MovedOut(rest)];
      taskQueue := taskQueue[1..];
      ran := ran + [task];
      model := Step(looked, Pop(w));
    }

    /** The drain loop, when no other worker drains: everything queued is run, in order, whatever
        std::move leaves in the queue. */
    method Drain(w: nat, rest: Option<Task>)
      requires Valid() && At(model, w, Draining) && forall e :: e in taskQueue ==> e.Whole?
      modifies this
      ensures Valid() && taskQueue == [] && At(model, w, Exited) && running == old(running)
      ensures ran == old(ran) + Wholes(old(taskQueue))
      ensures Tasks(model.left) == Tasks(old(model.left)) + Wholes(old(taskQueue))
      ensures Drops(model.left) == Drops(old(model.left)) && model.bad == old(model.bad)
      ensures model.again == old(model.again) && model.submitted == old(model.submitted)
    {
      while taskQueue != []
        invariant Valid() && At(model, w, Draining) && running == old(running)
        invariant forall e :: e in taskQueue ==> e.Whole?
        invariant ran + Wholes(taskQueue) == old(ran) + Wholes(old(taskQueue))
        invariant Tasks(model.left) + Wholes(taskQueue) == Tasks(old(model.left)) + Wholes(old(taskQueue))
        invariant Drops(model.left) == Drops(old(model.left)) && model.bad == old(model.bad)
        invariant model.again == old(model.again) && model.submitted == old(model.submitted)
        decreases |taskQueue|
      {
        assert taskQueue[0] in taskQueue;
        ghost var d := Ran(taskQueue[0].task);
        HeadLeaves(model.left, taskQueue, d);
        DropLeaves(model.left, d);
        assert forall e :: e in taskQueue[1..] ==> e in taskQueue;
        assert ran + Wholes(taskQueue) == ran + [d.task] + Wholes(taskQueue[1..]);
        DrainOne(w, rest);
      }
      SaneStep(model, Test(w));
      model := Step(model, Test(w));
    }
  }
}
