/** The same objects with the reference counts of std::shared_ptr: counting finds the last
    reference exactly when there is no other object. */
module DescriptorsCode {
  import opened Program
  import opened Descriptors

  ghost function Users(slots: map<Slot, Option<Holder>>, h: Holder): set<Slot> {
    set v | v in slots && slots[v] == Some(h)
  }

  ghost function One(b: bool): int {
    if b then 1 else 0
  }

  lemma UsersAfterSet(slots: map<Slot, Option<Holder>>, v: Slot, o: Option<Holder>, h: Holder)
    ensures |Users(slots[v := o], h)|
            == |Users(slots, h)| - One(v in slots && slots[v] == Some(h)) + One(o == Some(h))
  {
    var was, now := Users(slots, h), Users(slots[v := o], h);
    assert now - {v} == was - {v};
    assert |was - {v}| == |was| - One(v in was);
    assert |now - {v}| == |now| - One(v in now);
  }

  lemma UsersAfterEnd(slots: map<Slot, Option<Holder>>, v: Slot, h: Holder)
    requires v in slots
    ensures |Users(slots - {v}, h)| == |Users(slots, h)| - One(slots[v] == Some(h))
  {
    var was := Users(slots, h);
    assert Users(slots - {v}, h) == was - {v};
    assert |was - {v}| == |was| - One(v in was);
  }

  lemma LiveIffUsed(t: Table, h: Holder)
    ensures Live(t, h) <==> |Users(t.slots, h)| > 0
  {
    if Live(t, h) {
      var v :| v in t.slots && Refers(t, v, h);
      assert v in Users(t.slots, h);
    }
    if |Users(t.slots, h)| > 0 {
      var v :| v in Users(t.slots, h);
      assert Refers(t, v, h);
    }
  }

  /** Objects refer to holders that exist; new holders get new names. */
  ghost predicate Known(t: Table) {
    && t.fd.Keys == t.closes.Keys
    && (forall h :: h in t.fd ==> h < t.next)
    && (forall v :: v in t.slots && t.slots[v].Some? ==> t.slots[v].value in t.fd)
  }

  lemma StepKnown(t: Table, e: Event)
    requires Known(t)
    ensures Known(Step(t, e))
  {
  }

  ghost predicate Counts(slots: map<Slot, Option<Holder>>, refs: map<Holder, nat>, extra: Option<Holder>) {
    forall h :: h in refs ==> refs[h] == |Users(slots, h)| + One(extra == Some(h))
  }

  /** One reference counted for an object that does not hold it yet, or not any more. */
  lemma CountsAfterSet(slots: map<Slot, Option<Holder>>, refs: map<Holder, nat>, v: Slot, o: Option<Holder>)
    requires Counts(slots, refs, o)
    ensures Counts(slots[v := o], refs, if v in slots then slots[v] else None)
  {
    forall h | h in refs
      ensures refs[h] == |Users(slots[v := o], h)| + One((if v in slots then slots[v] else None) == Some(h))
    {
      UsersAfterSet(slots, v, o, h);
    }
  }

  lemma CountsAfterMake(t: Table, refs: map<Holder, nat>, v: Slot)
    requires Known(t) && refs.Keys == t.fd.Keys && Counts(t.slots, refs, None) && v !in t.slots
    ensures Counts(t.slots[v := Some(t.next)], refs[t.next := 1], None)
  {
    assert Users(t.slots, t.next) == {};
    var counts := refs[t.next := 1];
    forall h | h in counts ensures counts[h] == |Users(t.slots[v := Some(t.next)], h)| {
      UsersAfterSet(t.slots, v, Some(t.next), h);
    }
  }

  /** The reference of `u` is in a temporary object, then in `v`. */
  lemma CountsAfterSwap(slots: map<Slot, Option<Holder>>, refs: map<Holder, nat>, v: Slot, u: Slot)
    requires Counts(slots, refs, None) && u in slots && v in slots
    ensures Counts(slots[u := None][v := slots[u]], refs, if u == v then None else slots[v])
  {
    MovedAway(slots, refs, u, slots[u]);
    CountsAfterSet(slots[u := None], refs, v, slots[u]);
  }

  lemma SwapOrder(slots: map<Slot, Option<Holder>>, v: Slot, u: Slot)
    requires v in slots && u in slots
    ensures slots[u := None][v := slots[u]] == if u == v then slots else slots[v := slots[u]][u := None]
  {
  }

  class Handles {
    var slots: map<Slot, Option<Holder>>   // the FileDescriptor objects and the fd_ of each
    var fds: map<Holder, int>              // the FdHolders
    var refs: map<Holder, nat>             // the use counts of their control blocks
    var next: Holder
    var open: set<int>                     // the kernel's table
    var closes: map<Holder, nat>

    ghost function View(): Table
      reads this
    {
      Table(slots, fds, next, open, closes)
    }

    /** Every count is the number of objects that refer to the holder. */
    ghost predicate Valid()
      reads this
    {
      Known(View()) && refs.Keys == fds.Keys && Counts(slots, refs, None)
    }

    constructor ()
      ensures Valid() && View() == NO_DESCRIPTORS
    {
      slots, fds, refs, next, open, closes := map[], map[], map[], 0, {}, map[];
    }

    /** explicit FileDescriptor(int fd): a new holder with one reference. */
    method Construct(v: Slot, fd: int)
      requires Valid() && v !in slots
      modifies this
      ensures Valid() && View() == Step(old(View()), Wrap(v, fd))
      ensures v in slots && Handle(View(), v) == fd
    {
      StepKnown(View(), Wrap(v, fd));
      ghost var t := View();
      CountsAfterMake(t, refs, v);
      slots, fds, refs, closes := slots[v := Some(next)], fds[next := fd], refs[next := 1], closes[next := 0];
      next := next + 1;
      assert View() == Make(t, v, fd);
    }

    /** ... of a number that the kernel has just opened. */
    method ConstructOpened(v: Slot, fd: nat)
      requires Valid() && v !in slots && fd !in open
      modifies this
      ensures Valid() && View() == Step(old(View()), Open(v, fd))
      ensures v in slots && Handle(View(), v) == fd && fd in open
    {
      Construct(v, fd);
      open := open + {fd};
    }

    /** Copying a shared_ptr. */
    method Retain(o: Option<Holder>)
      requires refs.Keys == fds.Keys && Counts(slots, refs, None) && (o.Some? ==> o.value in refs)
      modifies this`refs
      ensures refs.Keys == fds.Keys && Counts(slots, refs, o)
    {
      if o.Some? { refs := refs[o.value := refs[o.value] + 1]; }
    }

    /** Letting go of a shared_ptr: the last one destroys the holder, which closes its number. */
    method Release(o: Option<Holder>)
      requires refs.Keys == fds.Keys == closes.Keys && Counts(slots, refs, o) && (o.Some? ==> o.value in refs)
      modifies this`refs, this`open, this`closes
      ensures refs.Keys == fds.Keys && Counts(slots, refs, None)
      ensures View() == Swept(old(View()), o)
    {
      if o.Some? {
        var h := o.value;
        LiveIffUsed(View(), h);
        refs := refs[h := refs[h] - 1];
        if refs[h] == 0 && fds[h] >= 0 {
          open, closes := open - {fds[h]}, closes[h := closes[h] + 1];
        }
      }
    }

    /** FileDescriptor(const FileDescriptor&) */
    method Copy(v: Slot, u: Slot)
      requires Valid() && v !in slots && u in slots
      modifies this
      ensures Valid() && View() == Step(old(View()), Descriptors.Copy(v, u))
      ensures v in slots && u in slots && slots[v] == slots[u] == old(slots[u])
      ensures Handle(View(), v) == Handle(View(), u) == old(Handle(View(), u))
    {
      StepKnown(View(), Descriptors.Copy(v, u));
      Retain(slots[u]);
      CountsAfterSet(slots, refs, v, slots[u]);
      slots := slots[v := slots[u]];
    }

    /** operator=(const FileDescriptor&): retain the new holder, then let go of the old one. */
    method CopyAssign(v: Slot, u: Slot)
      requires Valid() && v in slots && u in slots
      modifies this
      ensures Valid() && View() == Step(old(View()), Descriptors.CopyAssign(v, u))
      ensures v in slots && u in slots && slots[v] == slots[u] == old(slots[u])
      ensures Handle(View(), v) == Handle(View(), u) == old(Handle(View(), u))
    {
      StepKnown(View(), Descriptors.CopyAssign(v, u));
      var was := slots[v];
      Retain(slots[u]);
      CountsAfterSet(slots, refs, v, slots[u]);
      slots := slots[v := slots[u]];
      Release(was);
    }

    /** FileDescriptor(FileDescriptor&&) */
    method Move(v: Slot, u: Slot)
      requires Valid() && v !in slots && u in slots
      modifies this
      ensures Valid() && View() == Step(old(View()), Descriptors.Move(v, u))
      ensures v in slots && u in slots && slots[v] == old(slots[u]) && slots[u] == None
      ensures Handle(View(), v) == old(Handle(View(), u)) && Handle(View(), u) == -1
    {
      StepKnown(View(), Descriptors.Move(v, u));
      var taken := slots[u];
      MovedAway(slots, refs, u, taken);
      slots := slots[u := None];
      CountsAfterSet(slots, refs, v, taken);
      slots := slots[v := taken];
      assert slots == old(slots)[v := taken][u := None];
    }

    /** The value of `u` goes to a temporary object and from there to `v`. */
    method Swap(v: Slot, u: Slot, taken: Option<Holder>)
      modifies this`slots
      ensures slots == old(slots)[u := None][v := taken]
    {
      slots := slots[u := None];
      slots := slots[v := taken];
    }

    /** operator=(FileDescriptor&&): the source ends up empty, the old holder is let go of last. */
    method MoveAssign(v: Slot, u: Slot)
      requires Valid() && v in slots && u in slots
      modifies this
      ensures Valid() && View() == Step(old(View()), Descriptors.MoveAssign(v, u))
      ensures v in slots && u in slots && slots[v] == old(slots[u]) && (u != v ==> slots[u] == None)
      ensures Handle(View(), v) == old(Handle(View(), u)) && (u != v ==> Handle(View(), u) == -1)
    {
      StepKnown(View(), Descriptors.MoveAssign(v, u));
      var taken, was := slots[u], slots[v];
      CountsAfterSwap(slots, refs, v, u);
      SwapOrder(slots, v, u);
      Swap(v, u, taken);
      if u == v { return; }
      Release(was);
    }

    /** ~FileDescriptor */
    method Destruct(v: Slot)
      requires Valid() && v in slots
      modifies this
      ensures Valid() && View() == Step(old(View()), Descriptors.Destruct(v))
    {
      StepKnown(View(), Descriptors.Destruct(v));
      var was := slots[v];
      forall h: Holder ensures |Users(slots - {v}, h)| == |Users(slots, h)| - One(was == Some(h)) {
        UsersAfterEnd(slots, v, h);
      }
      slots := slots - {v};
      Release(was);
    }
  }

  /** The reference of `u` is in a temporary object. */
  lemma MovedAway(slots: map<Slot, Option<Holder>>, refs: map<Holder, nat>, u: Slot, o: Option<Holder>)
    requires Counts(slots, refs, None) && u in slots && slots[u] == o
    ensures Counts(slots[u := None], refs, o)
  {
    forall h | h in refs ensures refs[h] == |Users(slots[u := None], h)| + One(o == Some(h)) {
      UsersAfterSet(slots, u, None, h);
    }
  }
}
