/** Task objects in any number: a coroutine may keep several of them side by side, and hand them on by
    moves. What destroying a coroutine destroys is then a tree, no longer a chain. */
module TaskTrees {
  import opened Lists
  import opened Program

  type Id = nat

  /** The task objects that live in each coroutine frame, in the order of their construction; an empty one
      holds no handle. */
  type Heap = map<Id, seq<Option<Id>>>

  datatype Wreck = Wreck(heap: Heap, order: seq<Id>, fault: bool)

  /** coroutine_handle::destroy: the frame goes, and its locals end in reverse order. */
  function Destroy(heap: Heap, h: Id): (d: Wreck)
    ensures |d.heap| <= |heap|
    decreases |heap|, 0, 0
  {
    if h !in heap then Wreck(heap, [], true) else
      assert (heap - {h}).Keys == heap.Keys - {h};
      var d := EndAll(heap - {h}, heap[h]);
      d.(order := [h] + d.order)
  }

  /** ~task of these objects, the last one first. */
  function EndAll(heap: Heap, slots: seq<Option<Id>>): (d: Wreck)
    ensures |d.heap| <= |heap|
    decreases |heap|, 1, |slots|
  {
    if slots == [] then Wreck(heap, [], false) else
      var n := |slots| - 1;
      match slots[n]
      case None => EndAll(heap, slots[..n])
      case Some(c) =>
        var d := Destroy(heap, c);
        var e := EndAll(d.heap, slots[..n]);
        Wreck(e.heap, d.order + e.order, d.fault || e.fault)
  }

  ghost predicate Owns(heap: Heap, p: Id, c: Id) {
    p in heap && Some(c) in heap[p]
  }

  /** No object of this list shares its coroutine with another one. */
  ghost predicate NoneTwice(slots: seq<Option<Id>>) {
    forall i, j :: 0 <= i < j < |slots| && slots[i].Some? ==> slots[i] != slots[j]
  }

  /** Linear ownership: a handle is in one object, and names a frame that exists. */
  ghost predicate Linear(heap: Heap) {
    && (forall p, c :: Owns(heap, p, c) ==> c in heap)
    && (forall p, q, c :: Owns(heap, p, c) && Owns(heap, q, c) ==> p == q)
    && (forall p :: p in heap ==> NoneTwice(heap[p]))
  }

  ghost predicate Unowned(heap: Heap, c: Id) {
    c in heap && forall p :: !Owns(heap, p, c)
  }

  ghost function Members(order: seq<Id>): set<Id> {
    set x | x in order
  }

  /** Every destroyed frame but the first ones was owned by one that was destroyed before it. */
  ghost predicate Reached(heap: Heap, first: set<Id>, order: seq<Id>) {
    forall k :: 0 <= k < |order| ==> order[k] in first || exists j :: 0 <= j < k && Owns(heap, order[j], order[k])
  }

  /** A destruction that breaks no rule, and takes with a frame all that it owns. */
  ghost predicate Takes(heap: Heap, first: set<Id>, d: Wreck) {
    && !d.fault && Distinct(d.order) && d.heap == heap - Members(d.order) && Members(d.order) <= heap.Keys
    && first <= Members(d.order)
    && (forall p, c :: p in d.order && Owns(heap, p, c) ==> c in d.order)
    && Reached(heap, first, d.order)
  }

  ghost function Handles(slots: seq<Option<Id>>): set<Id> {
    set i | 0 <= i < |slots| && slots[i].Some? :: slots[i].value
  }

  lemma Smaller(heap: Heap, gone: set<Id>, p: Id, x: Id)
    ensures Owns(heap - gone, p, x) <==> Owns(heap, p, x) && p !in gone
  {
  }

  /** Frames that nobody outside owns can go: what is left is linear. */
  lemma LinearRest(heap: Heap, gone: set<Id>)
    requires Linear(heap) && forall p, x :: Owns(heap, p, x) && x in gone ==> p in gone
    ensures Linear(heap - gone)
    ensures forall x :: Unowned(heap, x) && x !in gone ==> Unowned(heap - gone, x)
  {
    forall p, x ensures Owns(heap - gone, p, x) <==> Owns(heap, p, x) && p !in gone { Smaller(heap, gone, p, x); }
  }

  lemma Without(heap: Heap, h: Id)
    requires Linear(heap) && Unowned(heap, h)
    ensures Linear(heap - {h}) && NoneTwice(heap[h])
    ensures forall c :: c in Handles(heap[h]) ==> Unowned(heap - {h}, c)
  {
    LinearRest(heap, {h});
    forall c | c in Handles(heap[h]) ensures Unowned(heap - {h}, c) {
      assert Owns(heap, h, c);
      forall p ensures !Owns(heap - {h}, p, c) { Smaller(heap, {h}, p, c); }
    }
  }

  /** Who owns a destroyed frame is destroyed. */
  lemma OwnersGo(heap: Heap, c: Id, d: Wreck, p: Id, x: Id)
    requires Linear(heap) && Unowned(heap, c) && Takes(heap, {c}, d) && x in d.order && Owns(heap, p, x)
    ensures p in d.order
  {
    var k :| 0 <= k < |d.order| && d.order[k] == x;
    var j :| 0 <= j < k && Owns(heap, d.order[j], d.order[k]);
  }

  lemma UnownedStay(heap: Heap, c: Id, d: Wreck, x: Id)
    requires Unowned(heap, x) && x != c && Takes(heap, {c}, d)
    ensures x !in d.order
  {
    assert forall k :: 0 <= k < |d.order| ==> d.order[k] != x;
  }

  /** Nothing outside a wreck is owned by what is in it, nor the other way round. */
  lemma LeftLinear(heap: Heap, c: Id, d: Wreck)
    requires Linear(heap) && Unowned(heap, c) && Takes(heap, {c}, d)
    ensures Linear(d.heap)
    ensures forall x :: Unowned(heap, x) && x != c ==> Unowned(d.heap, x) && x !in d.order
  {
    forall p, x | Owns(heap, p, x) && x in Members(d.order) ensures p in Members(d.order) {
      OwnersGo(heap, c, d, p, x);
    }
    LinearRest(heap, Members(d.order));
    forall x | Unowned(heap, x) && x != c ensures Unowned(d.heap, x) && x !in d.order { UnownedStay(heap, c, d, x); }
  }

  lemma HandlesStep(slots: seq<Option<Id>>)
    requires slots != [] && NoneTwice(slots)
    ensures var n := |slots| - 1;
            && NoneTwice(slots[..n])
            && Handles(slots) == Handles(slots[..n]) + (if slots[n].Some? then {slots[n].value} else {})
            && (slots[n].Some? ==> slots[n].value !in Handles(slots[..n]))
  {
    var n := |slots| - 1;
    forall c | c in Handles(slots[..n]) ensures c in Handles(slots) {
      var i :| 0 <= i < n && slots[..n][i] == Some(c);
      assert slots[i] == Some(c);
    }
    forall c | c in Handles(slots) && slots[n] != Some(c) ensures c in Handles(slots[..n]) {
      var i :| 0 <= i < |slots| && slots[i] == Some(c);
      assert slots[..n][i] == Some(c);
    }
    if slots[n].Some? { assert slots[n].value in Handles(slots); }
  }

  lemma BothReached(heap: Heap, c: Id, rest: set<Id>, d: Wreck, e: Wreck)
    requires Takes(heap, {c}, d) && Takes(d.heap, rest, e)
    ensures Reached(heap, rest + {c}, d.order + e.order)
  {
    var order := d.order + e.order;
    forall k | 0 <= k < |order|
      ensures order[k] in rest + {c} || exists j :: 0 <= j < k && Owns(heap, order[j], order[k])
    {
      if k < |d.order| {
        assert order[k] == d.order[k];
        if d.order[k] != c {
          var j :| 0 <= j < k && Owns(heap, d.order[j], d.order[k]);
          assert order[j] == d.order[j];
        }
      } else {
        var m := k - |d.order|;
        assert order[k] == e.order[m];
        if e.order[m] !in rest {
          var j :| 0 <= j < m && Owns(d.heap, e.order[j], e.order[m]);
          Smaller(heap, Members(d.order), e.order[j], e.order[m]);
          assert order[|d.order| + j] == e.order[j];
        }
      }
    }
  }

  lemma BothClosed(heap: Heap, d: Wreck, e: Wreck, c: Id, rest: set<Id>, p: Id, x: Id)
    requires Takes(heap, {c}, d) && Takes(d.heap, rest, e) && p in d.order + e.order && Owns(heap, p, x)
    ensures x in d.order + e.order
  {
    if p !in d.order { Smaller(heap, Members(d.order), p, x); }
  }

  lemma BothMembers(heap: Heap, c: Id, rest: set<Id>, d: Wreck, e: Wreck)
    requires Takes(heap, {c}, d) && Takes(d.heap, rest, e)
    ensures Members(d.order + e.order) == Members(d.order) + Members(e.order)
    ensures e.heap == heap - Members(d.order + e.order) && Distinct(d.order + e.order)
  {
    forall x | x in e.order ensures x !in d.order { assert x in Members(e.order) && x in d.heap; }
    assert Members(d.order + e.order) == Members(d.order) + Members(e.order);
    forall i, j | 0 <= i < j < |d.order + e.order| ensures (d.order + e.order)[i] != (d.order + e.order)[j] {
      if i < |d.order| <= j { assert (d.order + e.order)[j] == e.order[j - |d.order|]; }
    }
  }

  lemma TakesBoth(heap: Heap, c: Id, rest: set<Id>, d: Wreck, e: Wreck)
    requires Takes(heap, {c}, d) && Takes(d.heap, rest, e)
    ensures Takes(heap, rest + {c}, Wreck(e.heap, d.order + e.order, d.fault || e.fault))
  {
    BothMembers(heap, c, rest, d, e);
    BothReached(heap, c, rest, d, e);
    forall p, x | p in d.order + e.order && Owns(heap, p, x) ensures x in d.order + e.order {
      BothClosed(heap, d, e, c, rest, p, x);
    }
  }

  lemma OneReached(heap: Heap, h: Id, d: Wreck)
    requires h in heap && Takes(heap - {h}, Handles(heap[h]), d)
    ensures Reached(heap, {h}, [h] + d.order)
  {
    var order := [h] + d.order;
    forall k | 0 <= k < |order| ensures order[k] in {h} || exists j :: 0 <= j < k && Owns(heap, order[j], order[k]) {
      if k > 0 {
        assert order[k] == d.order[k - 1];
        if d.order[k - 1] in Handles(heap[h]) {
          assert Owns(heap, order[0], order[k]);
        } else {
          var j :| 0 <= j < k - 1 && Owns(heap - {h}, d.order[j], d.order[k - 1]);
          Smaller(heap, {h}, d.order[j], d.order[k - 1]);
          assert order[j + 1] == d.order[j];
        }
      }
    }
  }

  lemma OneMembers(heap: Heap, h: Id, d: Wreck)
    requires h in heap && Takes(heap - {h}, Handles(heap[h]), d)
    ensures Members([h] + d.order) == {h} + Members(d.order)
    ensures d.heap == heap - Members([h] + d.order) && Distinct([h] + d.order)
  {
    assert h !in Members(d.order);
  }

  lemma TakesOne(heap: Heap, h: Id, d: Wreck)
    requires h in heap && Takes(heap - {h}, Handles(heap[h]), d)
    ensures Takes(heap, {h}, d.(order := [h] + d.order))
  {
    OneMembers(heap, h, d);
    OneReached(heap, h, d);
    forall p, x | p in [h] + d.order && Owns(heap, p, x) ensures x in [h] + d.order {
      if p == h { assert x in Handles(heap[h]); } else { Smaller(heap, {h}, p, x); }
    }
  }

  lemma {:induction false} DestroyTakes(heap: Heap, h: Id)
    requires Linear(heap) && Unowned(heap, h)
    ensures Takes(heap, {h}, Destroy(heap, h))
    decreases |heap|, 0, 0
  {
    Without(heap, h);
    assert (heap - {h}).Keys == heap.Keys - {h};
    EndAllTakes(heap - {h}, heap[h]);
    TakesOne(heap, h, EndAll(heap - {h}, heap[h]));
  }

  lemma NothingTaken(heap: Heap)
    ensures Takes(heap, {}, Wreck(heap, [], false))
  {
    assert heap - Members([]) == heap;
  }

  lemma {:induction false} EndAllTakes(heap: Heap, slots: seq<Option<Id>>)
    requires Linear(heap) && NoneTwice(slots) && forall c :: c in Handles(slots) ==> Unowned(heap, c)
    ensures Takes(heap, Handles(slots), EndAll(heap, slots))
    decreases |heap|, 1, |slots|, 1
  {
    if slots == [] {
      NothingTaken(heap);
      assert Handles(slots) == {};
    } else {
      var n := |slots| - 1;
      HandlesStep(slots);
      if slots[n].Some? { LastTakes(heap, slots); } else { EndAllTakes(heap, slots[..n]); }
    }
  }

  lemma {:induction false} LastTakes(heap: Heap, slots: seq<Option<Id>>)
    requires Linear(heap) && NoneTwice(slots) && forall c :: c in Handles(slots) ==> Unowned(heap, c)
    requires slots != [] && slots[|slots| - 1].Some?
    ensures Takes(heap, Handles(slots), EndAll(heap, slots))
    decreases |heap|, 1, |slots|, 0
  {
    var n := |slots| - 1;
    HandlesStep(slots);
    var c := slots[n].value;
    DestroyTakes(heap, c);
    var d := Destroy(heap, c);
    LeftLinear(heap, c, d);
    EndAllTakes(d.heap, slots[..n]);
    TakesBoth(heap, c, Handles(slots[..n]), d, EndAll(d.heap, slots[..n]));
  }

  // ---- The tree of a coroutine ----

  /** `x` is owned by `h`, directly or through others, over at most `k` objects. */
  ghost predicate Under(heap: Heap, h: Id, x: Id, k: nat)
    decreases k
  {
    x == h || (k > 0 && exists p :: Under(heap, h, p, k - 1) && Owns(heap, p, x))
  }

  lemma {:induction false} UnderMore(heap: Heap, h: Id, x: Id, k: nat, m: nat)
    requires Under(heap, h, x, k) && k <= m
    ensures Under(heap, h, x, m)
    decreases k
  {
    if x != h {
      var p :| Under(heap, h, p, k - 1) && Owns(heap, p, x);
      UnderMore(heap, h, p, k - 1, m - 1);
    }
  }

  lemma UnderNext(heap: Heap, h: Id, p: Id, x: Id, k: nat)
    requires Under(heap, h, p, k) && Owns(heap, p, x)
    ensures Under(heap, h, x, k + 1)
  {
  }

  lemma {:induction false} UnderTaken(heap: Heap, h: Id, d: Wreck, x: Id, k: nat)
    requires h in d.order && forall p, c :: p in d.order && Owns(heap, p, c) ==> c in d.order
    requires Under(heap, h, x, k)
    ensures x in d.order
    decreases k
  {
    if x != h {
      var p :| Under(heap, h, p, k - 1) && Owns(heap, p, x);
      UnderTaken(heap, h, d, p, k - 1);
    }
  }

  lemma {:induction false} TakenUnder(heap: Heap, h: Id, d: Wreck, k: nat)
    requires Reached(heap, {h}, d.order) && k < |d.order|
    ensures Under(heap, h, d.order[k], k)
    decreases k
  {
    if d.order[k] != h {
      var j :| 0 <= j < k && Owns(heap, d.order[j], d.order[k]);
      TakenUnder(heap, h, d, j);
      UnderMore(heap, h, d.order[j], j, k - 1);
      UnderNext(heap, h, d.order[j], d.order[k], k - 1);
    }
  }

  lemma TreeTaken(heap: Heap, h: Id, d: Wreck, x: Id)
    requires Takes(heap, {h}, d)
    ensures x in d.order <==> InTree(heap, h, x)
  {
    assert h in Members(d.order);
    if x in d.order {
      var k :| 0 <= k < |d.order| && d.order[k] == x;
      TakenUnder(heap, h, d, k);
    }
    if k: nat :| Under(heap, h, x, k) { UnderTaken(heap, h, d, x, k); }
  }

  ghost predicate InTree(heap: Heap, h: Id, x: Id) {
    exists k: nat :: Under(heap, h, x, k)
  }

  /** Destroying a coroutine that no task object owns destroys exactly the coroutines that it owns,
      directly or through others, each once and every owner before what it owns; the rest is as it was,
      and as linear. */
  lemma DestroyIsTheTree(heap: Heap, h: Id)
    requires Linear(heap) && Unowned(heap, h)
    ensures var d := Destroy(heap, h);
            && !d.fault && Distinct(d.order) && Linear(d.heap) && d.heap == heap - Members(d.order)
            && (forall x :: x in d.order <==> InTree(heap, h, x))
            && Reached(heap, {h}, d.order)
  {
    var d := Destroy(heap, h);
    DestroyTakes(heap, h);
    LeftLinear(heap, h, d);
    forall x ensures x in d.order <==> InTree(heap, h, x) { TreeTaken(heap, h, d, x); }
  }

  // ---- What programs do with task objects ----

  /** Object `i` of the coroutine `p`. */
  ghost predicate Object(heap: Heap, p: Id, i: nat) {
    p in heap && i < |heap[p]|
  }

  function Emptied(heap: Heap, p: Id, i: nat): Heap
    requires p in heap && i < |heap[p]|
  {
    heap[p := heap[p][i := None]]
  }

  function Filled(heap: Heap, p: Id, i: nat, c: Option<Id>): Heap
    requires p in heap && i < |heap[p]|
  {
    heap[p := heap[p][i := c]]
  }

  lemma EmptiedOwns(heap: Heap, p: Id, i: nat, q: Id, c: Id)
    requires Linear(heap) && Object(heap, p, i) && Owns(Emptied(heap, p, i), q, c)
    ensures Owns(heap, q, c) && heap[p][i] != Some(c)
  {
    var j :| 0 <= j < |heap[q]| && Emptied(heap, p, i)[q][j] == Some(c);
    assert heap[q][j] == Some(c);
    if heap[p][i] == Some(c) {
      assert Owns(heap, p, c) && Owns(heap, q, c);
      assert false;
    }
  }

  /** Taking the handle out of an object leaves its coroutine without owner: release(), and the first half
      of every move. */
  lemma EmptiedLinear(heap: Heap, p: Id, i: nat)
    requires Linear(heap) && Object(heap, p, i)
    ensures Linear(Emptied(heap, p, i))
    ensures heap[p][i].Some? ==> Unowned(Emptied(heap, p, i), heap[p][i].value)
    ensures forall x :: Unowned(heap, x) ==> Unowned(Emptied(heap, p, i), x)
  {
    var heap' := Emptied(heap, p, i);
    forall q: Id, c: Id | Owns(heap', q, c) ensures Owns(heap, q, c) && heap[p][i] != Some(c) {
      EmptiedOwns(heap, p, i, q, c);
    }
    if heap[p][i].Some? { assert Owns(heap, p, heap[p][i].value); }
  }

  lemma FilledOwns(heap: Heap, p: Id, i: nat, c: Id, q: Id, x: Id)
    requires Object(heap, p, i) && Owns(Filled(heap, p, i, Some(c)), q, x)
    ensures Owns(heap, q, x) || (q == p && x == c)
  {
    var j :| 0 <= j < |heap[q]| && Filled(heap, p, i, Some(c))[q][j] == Some(x);
    if !(q == p && j == i) { assert heap[q][j] == Some(x); }
  }

  lemma FilledOnce(slots: seq<Option<Id>>, i: nat, c: Id)
    requires NoneTwice(slots) && i < |slots| && Some(c) !in slots
    ensures NoneTwice(slots[i := Some(c)])
  {
  }

  /** An empty object takes over a coroutine that has no owner: the other half, and a call. */
  lemma FilledLinear(heap: Heap, p: Id, i: nat, c: Id)
    requires Linear(heap) && Object(heap, p, i) && heap[p][i].None? && Unowned(heap, c)
    ensures Linear(Filled(heap, p, i, Some(c)))
    ensures Owns(Filled(heap, p, i, Some(c)), p, c)
    ensures forall x :: Unowned(heap, x) && x != c ==> Unowned(Filled(heap, p, i, Some(c)), x)
  {
    var heap' := Filled(heap, p, i, Some(c));
    assert heap'[p][i] == Some(c);
    forall q: Id, x: Id | Owns(heap', q, x) ensures Owns(heap, q, x) || (q == p && x == c) {
      FilledOwns(heap, p, i, c, q, x);
    }
    assert !Owns(heap, p, c);
    FilledOnce(heap[p], i, c);
  }

  datatype Assigned = Assigned(heap: Heap, order: seq<Id>, fault: bool)

  /** task::operator=(task&&), from object `j` of `q` to object `i` of `p`: the old coroutine is destroyed
      first, the new handle is read after that. */
  function MoveAssign(heap: Heap, p: Id, i: nat, q: Id, j: nat): Assigned
    requires p in heap && i < |heap[p]| && q in heap && j < |heap[q]|
  {
    if p == q && i == j then Assigned(heap, [], false)
    else
      var d := match heap[p][i]
               case None => Wreck(heap, [], false)
               case Some(was) => Destroy(Emptied(heap, p, i), was);
      if p !in d.heap || q !in d.heap || i >= |d.heap[p]| || j >= |d.heap[q]|
      then Assigned(d.heap, d.order, true)
      else Assigned(Filled(Emptied(d.heap, q, j), p, i, d.heap[q][j]), d.order, d.fault)
  }

  /** The tree that an assignment destroys. */
  ghost predicate Doomed(heap: Heap, p: Id, i: nat, x: Id)
    requires Object(heap, p, i)
  {
    heap[p][i].Some? && InTree(Emptied(heap, p, i), heap[p][i].value, x)
  }

  lemma OldDestroyed(heap: Heap, p: Id, i: nat) returns (d: Wreck)
    requires Linear(heap) && Object(heap, p, i)
    ensures d == match heap[p][i]
                 case None => Wreck(heap, [], false)
                 case Some(was) => Destroy(Emptied(heap, p, i), was)
    ensures !d.fault && Linear(d.heap) && d.heap == Emptied(heap, p, i) - Members(d.order)
    ensures forall x :: x in d.order <==> Doomed(heap, p, i, x)
  {
    d := match heap[p][i]
         case None => Wreck(heap, [], false)
         case Some(was) => Destroy(Emptied(heap, p, i), was);
    if heap[p][i].Some? {
      EmptiedLinear(heap, p, i);
      DestroyIsTheTree(Emptied(heap, p, i), heap[p][i].value);
    } else {
      assert heap[p][i := None] == heap[p];
      NothingTaken(heap);
    }
  }

  lemma FilledNone(heap: Heap, p: Id, i: nat)
    requires Object(heap, p, i) && heap[p][i].None?
    ensures Filled(heap, p, i, None) == heap
  {
    assert heap[p][i := None] == heap[p];
  }

  /** The handle goes over to an empty object. */
  lemma HandedOver(heap: Heap, p: Id, i: nat, q: Id, j: nat)
    requires Linear(heap) && Object(heap, p, i) && Object(heap, q, j) && !(p == q && i == j) && heap[p][i].None?
    ensures var r := Filled(Emptied(heap, q, j), p, i, heap[q][j]);
            && Linear(r) && Object(r, p, i) && Object(r, q, j) && r[p][i] == heap[q][j] && r[q][j] == None
  {
    EmptiedLinear(heap, q, j);
    if heap[q][j].Some? {
      FilledLinear(Emptied(heap, q, j), p, i, heap[q][j].value);
    } else {
      FilledNone(Emptied(heap, q, j), p, i);
    }
  }

  /** Every coroutine that is not in `gone` is there, and each of its objects but these two is as it was. */
  ghost predicate OthersKept(heap: Heap, heap': Heap, gone: seq<Id>, p: Id, i: nat, q: Id, j: nat) {
    && (forall x :: x in heap' <==> x in heap && x !in gone)
    && (forall x :: x in heap' && x in heap ==> |heap'[x]| == |heap[x]|)
    && (forall x, k: nat :: Object(heap, x, k) && Object(heap', x, k) && (x, k) != (p, i) && (x, k) != (q, j) ==>
          heap'[x][k] == heap[x][k])
  }

  lemma HandedOverKeeps(heap: Heap, d: Wreck, p: Id, i: nat, q: Id, j: nat)
    requires Object(heap, p, i) && Object(heap, q, j) && d.heap == Emptied(heap, p, i) - Members(d.order)
    requires Object(d.heap, p, i) && Object(d.heap, q, j)
    ensures OthersKept(heap, Filled(Emptied(d.heap, q, j), p, i, d.heap[q][j]), d.order, p, i, q, j)
  {
  }

  /** Two different objects: the move assignment meets a destroyed frame exactly if one of them lives in
      the tree of the coroutine that is destroyed first. Otherwise the tree is gone, the handle has moved,
      and ownership is linear. */
  lemma MoveAssignIff(heap: Heap, p: Id, i: nat, q: Id, j: nat)
    requires Linear(heap) && Object(heap, p, i) && Object(heap, q, j) && !(p == q && i == j)
    ensures var r := MoveAssign(heap, p, i, q, j);
            && (r.fault <==> Doomed(heap, p, i, p) || Doomed(heap, p, i, q))
            && (forall x :: x in r.order <==> Doomed(heap, p, i, x))
            && (!r.fault ==>
                  && Linear(r.heap) && Object(r.heap, p, i) && Object(r.heap, q, j)
                  && r.heap[p][i] == heap[q][j] && r.heap[q][j] == None
                  && OthersKept(heap, r.heap, r.order, p, i, q, j))
  {
    var d := OldDestroyed(heap, p, i);
    if p in d.heap && q in d.heap {
      assert d.heap[p] == Emptied(heap, p, i)[p] && d.heap[q] == Emptied(heap, p, i)[q];
      HandedOver(d.heap, p, i, q, j);
      HandedOverKeeps(heap, d, p, i, q, j);
    }
  }

  /** An object that is moved to itself stays as it is. */
  lemma SelfMove(heap: Heap, p: Id, i: nat)
    requires Object(heap, p, i)
    ensures MoveAssign(heap, p, i, p, i) == Assigned(heap, [], false)
  {
  }

  /** The input: coroutine 1 keeps a task for 2, which keeps one for 3; assigning the inner object to the
      outer one reads the frame that the assignment has just destroyed. */
  lemma InnerToOuter()
    ensures var heap := map[1 := [Some(2)], 2 := [Some(3)], 3 := []];
            Linear(heap) && Unowned(heap, 1) && MoveAssign(heap, 1, 0, 2, 0).fault
  {
    var heap: Heap := map[1 := [Some(2)], 2 := [Some(3)], 3 := []];
    assert forall p, c :: Owns(heap, p, c) <==> (p == 1 && c == 2) || (p == 2 && c == 3);
    assert Object(heap, 1, 0) && Object(heap, 2, 0);
    assert Under(Emptied(heap, 1, 0), 2, 2, 0);
    MoveAssignIff(heap, 1, 0, 2, 0);
  }
}
