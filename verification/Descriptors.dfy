/** FileDescriptor objects and the holders they share, without reference counts: a holder dies, and
    closes its number, when the last object that refers to it lets go. */
module Descriptors {
  import opened Program

  /** The address of a FileDescriptor object, and of an FdHolder. */
  type Slot = nat
  type Holder = nat

  /** `open` is the kernel's table; `closes` counts the close calls of each holder. */
  datatype Table = Table(slots: map<Slot, Option<Holder>>, fd: map<Holder, int>, next: Holder,
                         open: set<int>, closes: map<Holder, nat>)

  datatype Event =
    | Open(v: Slot, n: nat)         // FileDescriptor(n), the kernel has just opened n
    | Wrap(v: Slot, raw: int)       // FileDescriptor(raw), any other number
    | Empty(v: Slot)                // FileDescriptor()
    | Copy(v: Slot, u: Slot)        // FileDescriptor(u)
    | CopyAssign(v: Slot, u: Slot)  // v = u
    | Move(v: Slot, u: Slot)        // FileDescriptor(std::move(u))
    | MoveAssign(v: Slot, u: Slot)  // v = std::move(u)
    | Destruct(v: Slot)

  const NO_DESCRIPTORS := Table(map[], map[], 0, {}, map[])

  /** FileDescriptor::handle */
  function Handle(t: Table, v: Slot): int {
    if v in t.slots && t.slots[v].Some? && t.slots[v].value in t.fd then t.fd[t.slots[v].value] else -1
  }

  predicate Refers(t: Table, v: Slot, h: Holder) {
    v in t.slots && t.slots[v] == Some(h)
  }

  predicate Live(t: Table, h: Holder) {
    exists v :: v in t.slots && Refers(t, v, h)
  }

  /** ~FdHolder */
  function Close(t: Table, h: Holder): Table {
    if h in t.fd && h in t.closes && t.fd[h] >= 0
    then t.(open := t.open - {t.fd[h]}, closes := t.closes[h := t.closes[h] + 1])
    else t
  }

  /** Once `was` has been let go by one object. */
  function Swept(t: Table, was: Option<Holder>): Table {
    if was.Some? && !Live(t, was.value) then Close(t, was.value) else t
  }

  /** The objects now refer to holders as in `slots`; one of them has let go of `was`. */
  function Relink(t: Table, slots: map<Slot, Option<Holder>>, was: Option<Holder>): Table {
    Swept(t.(slots := slots), was)
  }

  function Make(t: Table, v: Slot, n: int): Table {
    t.(slots := t.slots[v := Some(t.next)], fd := t.fd[t.next := n], next := t.next + 1,
       closes := t.closes[t.next := 0])
  }

  /** A step that no program can take changes nothing. */
  function Step(t: Table, e: Event): Table {
    match e
    case Open(v, n) => if v in t.slots || n in t.open then t else Make(t, v, n).(open := t.open + {n})
    case Wrap(v, raw) => if v in t.slots then t else Make(t, v, raw)
    case Empty(v) => if v in t.slots then t else Relink(t, t.slots[v := None], None)
    case Copy(v, u) => if v in t.slots || u !in t.slots then t else Relink(t, t.slots[v := t.slots[u]], None)
    case CopyAssign(v, u) =>
      if v !in t.slots || u !in t.slots then t else Relink(t, t.slots[v := t.slots[u]], t.slots[v])
    case Move(v, u) => if v in t.slots || u !in t.slots then t else Relink(t, t.slots[v := t.slots[u]][u := None], None)
    case MoveAssign(v, u) =>
      if v !in t.slots || u !in t.slots || u == v then t
      else Relink(t, t.slots[v := t.slots[u]][u := None], t.slots[v])
    case Destruct(v) => if v !in t.slots then t else Relink(t, t.slots - {v}, t.slots[v])
  }

  /** Steps taken one after another, the last one last. */
  function Run(t: Table, es: seq<Event>): Table {
    if es == [] then t else Step(Run(t, es[..|es| - 1]), es[|es| - 1])
  }

  // ---- Closed exactly once ----

  /** Every holder of a valid number was closed once if nobody refers to it any more, and not at
      all otherwise; a negative number is never closed. */
  ghost predicate ClosedOnce(t: Table) {
    && t.fd.Keys == t.closes.Keys
    && (forall h :: h in t.fd ==> h < t.next)
    && (forall v :: v in t.slots && t.slots[v].Some? ==> t.slots[v].value in t.fd)
    && (forall h :: h in t.fd ==> t.closes[h] == if !Live(t, h) && t.fd[h] >= 0 then 1 else 0)
  }

  /** Relinking loses no reference but one to `was`, and invents none. */
  ghost predicate Honest(t: Table, slots: map<Slot, Option<Holder>>, was: Option<Holder>) {
    && (was.Some? ==> Live(t, was.value))
    && (forall h: Holder :: Live(t, h) ==> Live(t.(slots := slots), h) || was == Some(h))
    && (forall h: Holder :: Live(t.(slots := slots), h) ==> Live(t, h))
  }

  lemma RelinkCloses(t: Table, slots: map<Slot, Option<Holder>>, was: Option<Holder>)
    requires ClosedOnce(t) && Honest(t, slots, was)
    ensures ClosedOnce(Relink(t, slots, was))
  {
    var bare, after := t.(slots := slots), Relink(t, slots, was);
    forall h: Holder ensures Live(after, h) == Live(bare, h) { SameLive(after, bare, h); }
    forall v | v in slots && slots[v].Some? ensures slots[v].value in t.fd {
      assert Refers(bare, v, slots[v].value);
      assert Live(t, slots[v].value);
    }
  }

  lemma SameLive(t: Table, t': Table, h: Holder)
    requires t.slots == t'.slots
    ensures Live(t, h) == Live(t', h)
  {
    if Live(t, h) { var v :| v in t.slots && Refers(t, v, h); assert Refers(t', v, h); }
    if Live(t', h) { var v :| v in t'.slots && Refers(t', v, h); assert Refers(t, v, h); }
  }

  /** An object `v` is set, `u` possibly moved from; `v` let go of `was`. */
  lemma SetHonest(t: Table, slots: map<Slot, Option<Holder>>, v: Slot, u: Slot, was: Option<Holder>)
    requires forall x :: x != v && x != u ==> (x in slots <==> x in t.slots) && (x in slots ==> slots[x] == t.slots[x])
    requires u in t.slots && v in slots && slots[v] == t.slots[u]
    requires u in slots && (slots[u] == t.slots[u] || slots[u] == None)
    requires was == if v in t.slots then t.slots[v] else None
    ensures Honest(t, slots, was)
  {
    var bare := t.(slots := slots);
    if was.Some? { assert Refers(t, v, was.value); }
    forall h: Holder | Live(t, h) ensures Live(bare, h) || was == Some(h) {
      var x :| x in t.slots && Refers(t, x, h);
      assert Refers(bare, x, h) || Refers(bare, v, h) || was == Some(h);
    }
    forall h: Holder | Live(bare, h) ensures Live(t, h) {
      var x :| x in slots && Refers(bare, x, h);
      assert Refers(t, x, h) || Refers(t, u, h);
    }
  }

  /** An object `v` appears empty or disappears. */
  lemma EndsHonest(t: Table, slots: map<Slot, Option<Holder>>, v: Slot, was: Option<Holder>)
    requires forall x :: x != v ==> (x in slots <==> x in t.slots) && (x in slots ==> slots[x] == t.slots[x])
    requires v in slots ==> slots[v] == None
    requires was == if v in t.slots then t.slots[v] else None
    ensures Honest(t, slots, was)
  {
    var bare := t.(slots := slots);
    if was.Some? { assert Refers(t, v, was.value); }
    forall h: Holder | Live(t, h) ensures Live(bare, h) || was == Some(h) {
      var x :| x in t.slots && Refers(t, x, h);
      assert Refers(bare, x, h) || was == Some(h);
    }
    forall h: Holder | Live(bare, h) ensures Live(t, h) {
      var x :| x in slots && Refers(bare, x, h);
      assert Refers(t, x, h);
    }
  }

  lemma MakeLive(t: Table, v: Slot, n: int, h: Holder)
    requires ClosedOnce(t) && v !in t.slots
    ensures Live(Make(t, v, n), h) <==> h == t.next || Live(t, h)
  {
    var made := Make(t, v, n);
    assert Refers(made, v, t.next);
    if Live(t, h) { var x :| x in t.slots && Refers(t, x, h); assert Refers(made, x, h); }
    if Live(made, h) { var x :| x in made.slots && Refers(made, x, h); assert x == v || Refers(t, x, h); }
  }

  lemma MakeCloses(t: Table, v: Slot, n: int, open: set<int>)
    requires ClosedOnce(t) && v !in t.slots
    ensures ClosedOnce(Make(t, v, n).(open := open))
  {
    var made := Make(t, v, n);
    forall h | h in made.fd
      ensures made.closes[h] == if !Live(made.(open := open), h) && made.fd[h] >= 0 then 1 else 0
    {
      MakeLive(t, v, n, h);
      SameLive(made, made.(open := open), h);
    }
  }

  /** What a step does, for every step but the two that make a holder. */
  lemma StepRelinks(t: Table, e: Event) returns (slots: map<Slot, Option<Holder>>, was: Option<Holder>)
    requires !e.Open? && !e.Wrap? && Step(t, e) != t
    ensures Honest(t, slots, was) && Step(t, e) == Relink(t, slots, was)
  {
    match e
    case Empty(v) =>
      slots, was := t.slots[v := None], None;
      EndsHonest(t, slots, v, was);
    case Copy(v, u) =>
      slots, was := t.slots[v := t.slots[u]], None;
      SetHonest(t, slots, v, u, was);
    case CopyAssign(v, u) =>
      slots, was := t.slots[v := t.slots[u]], t.slots[v];
      SetHonest(t, slots, v, u, was);
    case Move(v, u) =>
      slots, was := t.slots[v := t.slots[u]][u := None], None;
      SetHonest(t, slots, v, u, was);
    case MoveAssign(v, u) =>
      slots, was := t.slots[v := t.slots[u]][u := None], t.slots[v];
      SetHonest(t, slots, v, u, was);
    case Destruct(v) =>
      slots, was := t.slots - {v}, t.slots[v];
      EndsHonest(t, slots, v, was);
  }

  lemma ClosedOnceStep(t: Table, e: Event)
    requires ClosedOnce(t)
    ensures ClosedOnce(Step(t, e))
  {
    if Step(t, e) != t {
      if e.Open? {
        MakeCloses(t, e.v, e.n, t.open + {e.n});
      } else if e.Wrap? {
        MakeCloses(t, e.v, e.raw, t.open);
      } else {
        var slots, was := StepRelinks(t, e);
        RelinkCloses(t, slots, was);
      }
    }
  }

  lemma {:induction false} ClosedOnceRun(es: seq<Event>)
    ensures ClosedOnce(Run(NO_DESCRIPTORS, es))
  {
    if es != [] {
      ClosedOnceRun(es[..|es| - 1]);
      ClosedOnceStep(Run(NO_DESCRIPTORS, es[..|es| - 1]), es[|es| - 1]);
    }
  }

  // ---- What the objects yield ----

  /** The step constructs an object that is not there, from objects that are; what the kernel opens was
      closed. */
  predicate Permits(t: Table, e: Event) {
    match e
    case Open(v, n) => v !in t.slots && n !in t.open
    case Wrap(v, _) => v !in t.slots
    case Empty(v) => v !in t.slots
    case Copy(v, u) => v !in t.slots && u in t.slots
    case CopyAssign(v, u) => v in t.slots && u in t.slots
    case Move(v, u) => v !in t.slots && u in t.slots
    case MoveAssign(v, u) => v in t.slots && u in t.slots
    case Destruct(v) => v in t.slots
  }

  /** The object `v` refers to `o` and yields `n`. */
  ghost predicate Yields(t: Table, v: Slot, o: Option<Holder>, n: int) {
    v in t.slots && t.slots[v] == o && Handle(t, v) == n
  }

  /** Objects other than these exist, refer and yield as before. */
  ghost predicate OthersYield(t: Table, t': Table, changed: set<Slot>) {
    forall x :: x !in changed ==> (x in t.slots <==> x in t'.slots)
                                  && (x in t.slots ==> Yields(t', x, t.slots[x], Handle(t, x)))
  }

  /** What a FileDescriptor is for: a new object yields its number, through a holder of its own; a copy
      and its original yield the original's number through one holder; a moved-from object is empty and
      its number and holder have gone to the other; no other object notices. */
  ghost predicate Meant(t: Table, e: Event, t': Table)
    requires Permits(t, e)
  {
    match e
    case Open(v, n) => Yields(t', v, Some(t.next), n) && t.next !in t.fd && OthersYield(t, t', {v})
    case Wrap(v, raw) => Yields(t', v, Some(t.next), raw) && t.next !in t.fd && OthersYield(t, t', {v})
    case Empty(v) => Yields(t', v, None, -1) && OthersYield(t, t', {v})
    case Copy(v, u) => Yields(t', v, t.slots[u], Handle(t, u)) && OthersYield(t, t', {v})
    case CopyAssign(v, u) => Yields(t', v, t.slots[u], Handle(t, u)) && OthersYield(t, t', {v})
    case Move(v, u) =>
      Yields(t', v, t.slots[u], Handle(t, u)) && Yields(t', u, None, -1) && OthersYield(t, t', {v, u})
    case MoveAssign(v, u) =>
      if u == v then t' == t
      else Yields(t', v, t.slots[u], Handle(t, u)) && Yields(t', u, None, -1) && OthersYield(t, t', {v, u})
    case Destruct(v) => v !in t'.slots && OthersYield(t, t', {v})
  }

  /** After relinking, an object yields the number of the holder it refers to. */
  lemma RelinkYields(t: Table, slots: map<Slot, Option<Holder>>, was: Option<Holder>)
    requires ClosedOnce(t)
    ensures Relink(t, slots, was).slots == slots && Relink(t, slots, was).fd == t.fd
  {
  }

  lemma MakeYields(t: Table, v: Slot, n: int, open: set<int>)
    requires ClosedOnce(t) && v !in t.slots
    ensures var t' := Make(t, v, n).(open := open);
            Yields(t', v, Some(t.next), n) && t.next !in t.fd && OthersYield(t, t', {v})
  {
  }

  /** In every table that a program can come to, every step it can take does what it is for. */
  lemma StepMeant(t: Table, e: Event)
    requires ClosedOnce(t) && Permits(t, e)
    ensures Meant(t, e, Step(t, e))
  {
    match e
    case Open(v, n) => MakeYields(t, v, n, t.open + {n});
    case Wrap(v, raw) => MakeYields(t, v, raw, t.open);
    case Empty(v) => RelinkYields(t, t.slots[v := None], None);
    case Copy(v, u) => RelinkYields(t, t.slots[v := t.slots[u]], None);
    case CopyAssign(v, u) => RelinkYields(t, t.slots[v := t.slots[u]], t.slots[v]);
    case Move(v, u) => RelinkYields(t, t.slots[v := t.slots[u]][u := None], None);
    case MoveAssign(v, u) => if u != v { RelinkYields(t, t.slots[v := t.slots[u]][u := None], t.slots[v]); }
    case Destruct(v) => RelinkYields(t, t.slots - {v}, t.slots[v]);
  }

  /** A program all of whose steps are permitted when they come. */
  predicate Follows(es: seq<Event>) {
    forall k :: 0 <= k < |es| ==> Permits(Run(NO_DESCRIPTORS, es[..k]), es[k])
  }

  /** In every program, at every step. */
  lemma RunMeant(es: seq<Event>, k: nat)
    requires Follows(es) && k < |es|
    ensures Meant(Run(NO_DESCRIPTORS, es[..k]), es[k], Run(NO_DESCRIPTORS, es[..k + 1]))
  {
    ClosedOnceRun(es[..k]);
    StepMeant(Run(NO_DESCRIPTORS, es[..k]), es[k]);
    assert es[..k + 1][..k] == es[..k];
  }

  // ---- The kernel's table ----

  /** The open numbers are exactly those of the living holders, each held by one holder. */
  ghost predicate Tidy(t: Table) {
    && (forall n :: n in t.open <==> exists h :: h in t.fd && Live(t, h) && t.fd[h] == n && n >= 0)
    && (forall h, k :: h in t.fd && k in t.fd && Live(t, h) && Live(t, k) && t.fd[h] == t.fd[k] >= 0 ==> h == k)
  }

  lemma RelinkTidy(t: Table, slots: map<Slot, Option<Holder>>, was: Option<Holder>)
    requires ClosedOnce(t) && Tidy(t) && Honest(t, slots, was)
    ensures Tidy(Relink(t, slots, was))
  {
    var bare, after := t.(slots := slots), Relink(t, slots, was);
    forall h: Holder ensures Live(after, h) == Live(bare, h) { SameLive(after, bare, h); }
    if was.Some? {
      var v :| v in t.slots && Refers(t, v, was.value);
    }
    forall n | n in after.open ensures exists h :: h in after.fd && Live(after, h) && after.fd[h] == n && n >= 0 {
      var h :| h in t.fd && Live(t, h) && t.fd[h] == n && n >= 0;
      assert Live(after, h);
    }
  }

  lemma OpenTidy(t: Table, v: Slot, n: nat)
    requires ClosedOnce(t) && Tidy(t) && v !in t.slots && n !in t.open
    ensures Tidy(Make(t, v, n).(open := t.open + {n}))
  {
    var made := Make(t, v, n).(open := t.open + {n});
    forall h: Holder ensures Live(made, h) <==> h == t.next || Live(t, h) {
      MakeLive(t, v, n, h);
      SameLive(made, Make(t, v, n), h);
    }
    forall m | m in made.open ensures exists h :: h in made.fd && Live(made, h) && made.fd[h] == m && m >= 0 {
      if m == n { assert made.fd[t.next] == n; }
    }
  }

  lemma FailedTidy(t: Table, v: Slot, raw: int)
    requires ClosedOnce(t) && Tidy(t) && v !in t.slots && raw < 0
    ensures Tidy(Make(t, v, raw))
  {
    forall h: Holder ensures Live(Make(t, v, raw), h) <==> h == t.next || Live(t, h) { MakeLive(t, v, raw, h); }
  }

  lemma WrappedUntidy(t: Table, v: Slot, raw: int)
    requires ClosedOnce(t) && Tidy(t) && v !in t.slots && raw >= 0
    ensures !Tidy(Make(t, v, raw))
  {
    var made := Make(t, v, raw);
    MakeLive(t, v, raw, t.next);
    assert made.fd[t.next] == raw && Live(made, t.next);
    if raw in t.open {
      var h :| h in t.fd && Live(t, h) && t.fd[h] == raw;
      MakeLive(t, v, raw, h);
      assert h in made.fd && Live(made, h) && made.fd[h] == raw && h != t.next;
    }
  }

  /** Wrapping a number that the kernel has not just opened keeps the table tidy exactly if it is
      negative, as from a failed call. */
  lemma WrapTidyIff(t: Table, v: Slot, raw: int)
    requires ClosedOnce(t) && Tidy(t) && v !in t.slots
    ensures Tidy(Step(t, Wrap(v, raw))) <==> raw < 0
  {
    if raw < 0 { FailedTidy(t, v, raw); } else { WrappedUntidy(t, v, raw); }
  }

  /** A step that constructs no object from a number that was not just opened. */
  predicate Proper(e: Event) {
    e.Wrap? ==> e.raw < 0
  }

  lemma TidyStep(t: Table, e: Event)
    requires ClosedOnce(t) && Tidy(t) && Proper(e)
    ensures Tidy(Step(t, e))
  {
    if Step(t, e) != t {
      if e.Open? {
        OpenTidy(t, e.v, e.n);
      } else if e.Wrap? {
        WrapTidyIff(t, e.v, e.raw);
      } else {
        var slots, was := StepRelinks(t, e);
        RelinkTidy(t, slots, was);
      }
    }
  }

  /** Any further proper steps; holders keep their numbers. */
  lemma {:induction false} TidyRun(t: Table, es: seq<Event>)
    requires ClosedOnce(t) && Tidy(t) && forall e :: e in es ==> Proper(e)
    ensures ClosedOnce(Run(t, es)) && Tidy(Run(t, es))
    ensures forall h :: h in t.fd ==> h in Run(t, es).fd && Run(t, es).fd[h] == t.fd[h]
  {
    if es != [] {
      TidyRun(t, es[..|es| - 1]);
      ClosedOnceStep(Run(t, es[..|es| - 1]), es[|es| - 1]);
      TidyStep(Run(t, es[..|es| - 1]), es[|es| - 1]);
      NumbersStay(Run(t, es[..|es| - 1]), es[|es| - 1]);
    }
  }

  lemma NumbersStay(t: Table, e: Event)
    requires ClosedOnce(t)
    ensures forall h :: h in t.fd ==> h in Step(t, e).fd && Step(t, e).fd[h] == t.fd[h]
  {
  }

  lemma TidyHandle(t: Table, v: Slot)
    requires ClosedOnce(t) && Tidy(t) && Handle(t, v) >= 0
    ensures Handle(t, v) in t.open
  {
    assert Refers(t, v, t.slots[v].value);
  }

  /** In every program: a number is open as long as an object yields it. */
  lemma HandleIsOpen(es: seq<Event>, v: Slot)
    requires forall e :: e in es ==> Proper(e)
    requires Handle(Run(NO_DESCRIPTORS, es), v) >= 0
    ensures Handle(Run(NO_DESCRIPTORS, es), v) in Run(NO_DESCRIPTORS, es).open
  {
    TidyRun(NO_DESCRIPTORS, es);
    TidyHandle(Run(NO_DESCRIPTORS, es), v);
  }

  lemma ThreeSteps(t: Table, a: Event, b: Event, c: Event)
    ensures Run(t, [a, b]) == Step(Step(t, a), b) && Run(t, [a, b, c]) == Step(Step(Step(t, a), b), c)
  {
    assert [a, b, c][..2] == [a, b] && [a, b][..1] == [a] && [a][..0] == [];
    assert Run(t, [a]) == Step(Run(t, []), a);
  }

  lemma LastUserLeaves(t: Table)
    requires t.slots == map[0 := Some(0), 1 := Some(1)] && t.fd == map[0 := 5, 1 := 5] && t.open == {5}
    requires t.closes == map[0 := 0, 1 := 0]
    ensures Step(t, Destruct(0)).slots == map[1 := Some(1)] && Step(t, Destruct(0)).open == {}
    ensures Step(t, Destruct(0)).fd == t.fd
  {
    var bare := t.(slots := t.slots - {0});
    assert bare.slots == map[1 := Some(1)];
    assert !Live(bare, 0);
  }

  /** A second holder for number 5: when the first object dies, the number is closed under the second. */
  lemma SecondHolderLosesNumber()
    ensures !Tidy(Run(NO_DESCRIPTORS, [Open(0, 5), Wrap(1, 5)]))
    ensures var t := Run(NO_DESCRIPTORS, [Open(0, 5), Wrap(1, 5), Destruct(0)]);
            Handle(t, 1) == 5 && 5 !in t.open
  {
    var one := Step(NO_DESCRIPTORS, Open(0, 5));
    ThreeSteps(NO_DESCRIPTORS, Open(0, 5), Wrap(1, 5), Destruct(0));
    TidyRun(NO_DESCRIPTORS, []);
    ClosedOnceStep(NO_DESCRIPTORS, Open(0, 5));
    TidyStep(NO_DESCRIPTORS, Open(0, 5));
    WrapTidyIff(one, 1, 5);
    LastUserLeaves(Step(one, Wrap(1, 5)));
  }
}
