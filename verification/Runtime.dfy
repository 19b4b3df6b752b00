/** The objects of task.h and co_excutor.h with the fields they update in place. Each method is
    proved to compute the step of the frame machine it stands for. */
module Runtime {
  import opened Program
  import opened Chains
  import opened Frames
  import opened ShutdownExact

  class CoroutineRuntime {
    var frames: map<Id, Frame>
    var next: Id
    var registry: seq<Id>
    var queue: seq<Id>
    var running: bool
    ghost var world: World

    ghost predicate Valid()
      reads this
    {
      world.frames == frames && world.next == next && world.registry == registry && world.queue == queue
      && world.running == running
    }

    constructor ()
      ensures Valid() && world == EMPTY_WORLD
    {
      frames, next, registry, queue, running, world := map[], 0, [], [], true, EMPTY_WORLD;
    }

    // ---- task<T> and its promise ----

    /** ~task / coroutine_handle::destroy: the frame goes, then the tasks its locals own. */
    method DestroyFrame(h: Id) returns (ok: bool)
      requires Valid()
      modifies this
      ensures Valid() && world == ApplyWreck(old(world), Destroy(old(frames), h))
      ensures ok == !Destroy(old(frames), h).fault
      decreases |frames|
    {
      if h !in frames || frames[h].status.Running? {
        world := world.(fault := true);
        assert world.destroyed + [] == world.destroyed;
        return false;
      }
      ghost var before := world;
      var task := frames[h].task;
      assert (frames - {h}).Keys == frames.Keys - {h};
      frames := frames - {h};
      world := world.(frames := frames, destroyed := world.destroyed + [h]);
      ok := true;
      if task.Some? {
        ghost var inner := Destroy(frames, task.value);
        ok := DestroyFrame(task.value);
        assert before.destroyed + [h] + inner.order == before.destroyed + ([h] + inner.order);
      }
    }

    /** task::operator=(task&&) on the task stored in frame `h`: the old coroutine is destroyed,
        the handle of the newly called one takes its place. */
    method CallAndStore(h: Id, child: Body, after: Body)
      requires Valid() && h in frames && frames[h].status.Running?
      modifies this
      ensures Valid() && world == CreateTask(old(world), h, child, after)
    {
      var f, n := frames[h], next;
      if f.task.Some? {
        var ok := DestroyFrame(f.task.value);
      } else {
        assert world.destroyed + [] == world.destroyed;
      }
      frames := frames[n := Frame(Fresh(child), None, None, false, false, f.root, f.depth + 1)];
      frames := frames[h := f.(status := Running(after), task := Some(n))];
      next := n + 1;
      world := world.(frames := frames, next := next);
    }

    /** ~task of the task stored in frame `h`, at the end of its scope. */
    method DropStored(h: Id, after: Body)
      requires Valid() && h in frames && frames[h].status.Running?
      modifies this
      ensures Valid() && world == DropTask(old(world), h, after)
    {
      var f := frames[h];
      if f.task.Some? {
        var ok := DestroyFrame(f.task.value);
      } else {
        assert world.destroyed + [] == world.destroyed;
      }
      frames := frames[h := f.(status := Running(after), task := None)];
      world := world.(frames := frames);
    }

    /** task::await_suspend returns its handle unconditionally. Unless that names a coroutine that was
        not started, the caller resumes something it must not: a misuse, charged to the root. */
    method AwaitSuspend(h: Id, resume: Outcome -> Body) returns (to: Option<Id>)
      requires Valid() && h in frames && frames[h].status.Running?
      modifies this
      ensures Valid() && to == old(frames)[h].task
      ensures world == AwaitTask(old(world), h, resume)
      ensures var startable := to.Some? && to.value in old(frames) && old(frames)[to.value].status.Fresh?;
              && world.misused == old(world.misused) + (if startable then {} else {old(frames)[h].root})
              && (startable && to.value != h ==> frames[to.value].continuation == Some(h))
    {
      to := frames[h].task;
      if to.Some? && to.value in frames && frames[to.value].status.Fresh? {
        var child := frames[to.value];
        frames := frames[h := frames[h].(status := Awaiting(resume))];
        frames := frames[to.value := child.(status := Running(child.status.body), continuation := Some(h))];
        world := world.(frames := frames);
      } else {
        frames := frames[h := frames[h].(status := Undefined)];
        world := world.(frames := frames, misused := world.misused + {frames[h].root});
      }
    }

    /** final_awaiter::await_suspend of a frame that does not destroy itself. */
    method FinalSuspend(h: Id, o: Outcome) returns (to: Option<Id>)
      requires Valid() && h in frames && !frames[h].selfDestroy
      modifies this
      ensures Valid() && world == FinishFrame(old(world), h, o)
      ensures to == old(frames)[h].continuation
    {
      to := frames[h].continuation;
      frames := frames[h := frames[h].(status := Done(o, false))];
      world := world.(frames := frames);
      Continue(to, o);
    }

    /** The handle that final_awaiter returns is resumed on the same thread. */
    method Continue(to: Option<Id>, o: Outcome)
      requires Valid()
      modifies this`frames, this`world
      ensures Valid() && world == Transfer(old(world), to, o)
    {
      if to.Some? {
        if to.value in frames && frames[to.value].status.Awaiting? {
          var p := frames[to.value];
          frames := frames[to.value := p.(status := Running(p.status.resume(o)))];
          world := world.(frames := frames);
        } else {
          world := world.(fault := true);
        }
      }
    }

    // ---- detached_registry ----

    method Add(h: Id)
      requires Valid()
      modifies this
      ensures Valid() && world == old(world).(registry := old(registry) + [h])
    {
      registry := registry + [h];
      world := world.(registry := registry);
    }

    /** std::find, then swap with the last element and pop. */
    method RemoveHandle(h: Id)
      requires Valid()
      modifies this
      ensures Valid() && world == old(world).(registry := Remove(old(registry), h))
    {
      var i := 0;
      while i < |registry| && registry[i] != h
        invariant i <= |registry| && h !in registry[..i]
      {
        i := i + 1;
      }
      if i < |registry| {
        FirstIndex(registry, h, i);
        var last := registry[|registry| - 1];
        registry := registry[i := last];
        registry := registry[..|registry| - 1];
      } else {
        assert registry == registry[..i];
      }
      world := world.(registry := registry);
    }

    /** final_awaiter of a self-destroying frame, up to the destroy. */
    method UnregisterSelf(h: Id)
      requires Valid() && h in frames && frames[h].selfDestroy && frames[h].status.Done?
      modifies this
      ensures Valid() && world == UnregisterRoot(old(world), h)
    {
      var f := frames[h];
      frames := frames[h := f.(status := Done(f.status.outcome, true))];
      world := world.(frames := frames);
      if f.onDestroy { RemoveHandle(h); }
    }

    /** final_awaiter of a self-destroying frame: h.destroy(), then the continuation read before,
        if there is one. */
    method DestroySelf(h: Id) returns (to: Option<Id>)
      requires Valid() && h in frames && frames[h].selfDestroy && frames[h].status.Done?
      modifies this
      ensures Valid() && world == DestroyRoot(old(world), h)
      ensures to == old(frames)[h].continuation
    {
      var outcome := frames[h].status.outcome;
      to := frames[h].continuation;
      var ok := DestroyFrame(h);
      world := world.(runner := world.runner - {h});
      Continue(to, outcome);
      world := Forget(world, h, Finished);
    }

    /** destroy_all, one handle: a wrapper at its final suspend point is left alone. */
    method DestroyOne(h: Id)
      requires Valid() && h in frames
      modifies this
      ensures Valid() && registry == old(registry)
      ensures world == ApplyWreck(old(world), DestroyUnlessDone(old(frames), h))
    {
      if frames[h].status.Done? {
        assert world.destroyed + [] == world.destroyed;
      } else {
        var clean := DestroyFrame(h);
      }
    }

    /** The turn of destroy_all for handle `i`; false if the handle was no good. */
    method DestroyNext(i: nat) returns (ok: bool)
      requires Valid() && i < |registry|
      modifies this
      ensures Valid() && registry == old(registry)
      ensures world == old(world).(frames := world.frames, destroyed := world.destroyed, fault := world.fault)
      ensures var all := ApplyWreck(old(world), DestroyFrom(old(frames), registry[i..]));
              if ok then all == ApplyWreck(world, DestroyFrom(frames, registry[i + 1..])) else world == all
    {
      var h := registry[i];
      ghost var rest := registry[i..];
      assert rest[0] == h && rest[1..] == registry[i + 1..];
      if h !in frames {
        world := world.(fault := true);
        assert world.destroyed + [] == world.destroyed;
        return false;
      }
      AppliesTwice(world, rest, h);
      DestroyOne(h);
      return true;
    }

    /** destroy_all: a loop over the registered handles, then clear(). */
    method DestroyAllHandles() returns (ok: bool)
      requires Valid()
      modifies this
      ensures Valid() && registry == []
      ensures world == ApplyWreck(old(world), DestroyFrom(old(frames), old(registry))).(registry := [])
    {
      ghost var all := ApplyWreck(world, DestroyFrom(frames, registry));
      var i := 0;
      ok := true;
      assert registry[0..] == registry;
      while i < |registry| && ok
        invariant 0 <= i <= |registry| && registry == old(registry) && Valid()
        invariant if ok then all == ApplyWreck(world, DestroyFrom(frames, registry[i..])) else world == all
        decreases |registry| - i, ok
      {
        ok := DestroyNext(i);
        i := i + 1;
      }
      assert ok ==> registry[i..] == [];
      assert world.destroyed + [] == world.destroyed;
      registry := [];
      world := world.(registry := registry);
    }

    /** stop() of the backend, the loops having left their callbacks and coroutines: only the first
        call does anything. */
    method StopLoops()
      requires Valid() && (running ==> world.calling == map[] && LoopThread !in world.runner.Values)
      modifies this`running, this`world
      ensures Valid() && !running
      ensures world == Stopped(old(world))
    {
      if !running { return; }
      running := false;
      world := world.(running := false, joined := true, inflight := map[]);
    }

    /** co_excutor::shutdown: first the event loops, then the detached coroutines. A call that finds
        running_ cleared goes straight to the registry. */
    method Shutdown()
      requires Valid() && (running ==> world.calling == map[] && LoopThread !in world.runner.Values)
      modifies this
      ensures Valid() && !running && registry == []
      ensures world == ShutDown(Stopped(old(world)))
      ensures ShutDown(Stopped(world)) == world
    {
      StopLoops();
      ghost var stopped := world;
      var ok := DestroyAllHandles();
      world := ShutDown(stopped);
      ShutDownTwice(stopped);
    }

    // ---- co_excutor::detach, sync_wait, and the pool's worker ----

    /** detach / sync_wait: wrap the task, mark the wrapper self-destroying, release it. */
    method Wrap(kind: Kind, p: Point) returns (r: Id)
      requires Valid()
      modifies this
      ensures Valid() && world == NewRoot(old(world), kind, User(p)) && r == old(next) + 1
    {
      var inner := next;
      r := next + 1;
      frames := frames[inner := Frame(Fresh(User(p)), None, None, false, false, r, 1)];
      frames := frames[r := Frame(Fresh(Entry(kind)), None, Some(inner), true, kind.Detached?, r, 0)];
      next := next + 2;
      world := NewRoot(world, kind, User(p));
    }

    /** thrdpool::execute with the task that resumes `r`. */
    method Execute(r: Id)
      requires Valid()
      modifies this
      ensures Valid() && world == old(world).(queue := old(queue) + [r], spawning := old(world).spawning - {r})
    {
      queue := queue + [r];
      world := world.(queue := queue, spawning := world.spawning - {r});
    }

    /** detach: the handle is registered before the pool can resume it. */
    method DetachTask(code: Code, p: Point) returns (r: Id)
      requires Valid()
      modifies this
      ensures Valid() && r == old(next) + 1
      ensures Enabled(old(world), Spawn(Detached, p))
      ensures var w1 := Next(code, old(world), Spawn(Detached, p));
              Enabled(w1, Register(r)) && var w2 := Next(code, w1, Register(r));
              Enabled(w2, Enqueue(r)) && world == Next(code, w2, Enqueue(r))
    {
      r := Wrap(Detached, p);
      Add(r);
      world := world.(spawning := world.spawning[r := ToQueue]);
      Execute(r);
    }

    /** sync_wait up to the blocking future.get(). */
    method SyncWaitTask(code: Code, p: Point) returns (r: Id)
      requires Valid()
      modifies this
      ensures Valid() && r == old(next) + 1
      ensures Enabled(old(world), Spawn(Synced, p))
      ensures var w1 := Next(code, old(world), Spawn(Synced, p));
              Enabled(w1, Enqueue(r)) && world == Next(code, w1, Enqueue(r))
    {
      r := Wrap(Synced, p);
      Execute(r);
    }
  }

  lemma FirstIndex(s: seq<Id>, h: Id, i: nat)
    requires i < |s| && s[i] == h && h !in s[..i]
    ensures h in s && IndexOf(s, h) == i
  {
    var j := IndexOf(s, h);
    assert forall k :: 0 <= k < i ==> s[..i][k] == s[k];
    assert forall k :: 0 <= k < j ==> s[..j][k] == s[k];
  }

  /** The world after stop(). */
  ghost function Stopped(w: World): World {
    if w.running then w.(running := false, joined := true, inflight := map[]) else w
  }

  /** Two destructions one after the other, as one. */
  lemma WreckTwice(w: World, d: Wreck, rest: Wreck)
    ensures ApplyWreck(w, Wreck(rest.frames, d.order + rest.order, d.fault || rest.fault))
            == ApplyWreck(ApplyWreck(w, d), rest)
  {
    assert w.destroyed + d.order + rest.order == w.destroyed + (d.order + rest.order);
  }

  function DestroyUnlessDone(fs: map<Id, Frame>, h: Id): Wreck
    requires h in fs
  {
    if fs[h].status.Done? then Wreck(fs, [], false) else Destroy(fs, h)
  }

  lemma AppliesTwice(w: World, handles: seq<Id>, h: Id)
    requires handles != [] && handles[0] == h && h in w.frames
    ensures var d := DestroyUnlessDone(w.frames, h);
            ApplyWreck(w, DestroyFrom(w.frames, handles))
              == ApplyWreck(ApplyWreck(w, d), DestroyFrom(d.frames, handles[1..]))
  {
    var d := DestroyUnlessDone(w.frames, h);
    WreckTwice(w, d, DestroyFrom(d.frames, handles[1..]));
  }
}
