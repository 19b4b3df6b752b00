/** Each action of a running frame on the heap is the corresponding step of its chain. */
module Simulation {
  import opened Program
  import opened Chains
  import opened Frames
  import opened Mirror

  /** Only the active frame of a chain runs or waits for I/O. */
  lemma ActiveFrame(fs: map<Id, Frame>, chains: ChainMap, h: Id)
    requires Mirrors(fs, chains) && h in fs
    requires fs[h].status.Running? || fs[h].status.InIo? || fs[h].status.Undefined?
    ensures fs[h].root in chains
    ensures var ch := chains[fs[h].root];
            Shape(ch) && fs[h].depth == ch.active && ch.cells[ch.active].id == h && Top(ch) == fs[h].status
            && fs[h] == FrameAt(fs[h].root, ch, ch.active)
  {
    assert Placed(fs, chains, h);
    var ch := chains[fs[h].root];
    assert Holds(fs, fs[h].root, ch);
    assert At(fs, fs[h].root, ch, fs[h].depth);
  }

  lemma TopIs(fs: map<Id, Frame>, r: Id, ch: Chain)
    requires Holds(fs, r, ch)
    ensures ch.cells[ch.active].id in fs && fs[ch.cells[ch.active].id] == FrameAt(r, ch, ch.active)
  {
    assert At(fs, r, ch, ch.active);
  }

  lemma DistinctCells(fs: map<Id, Frame>, r: Id, ch: Chain)
    requires Holds(fs, r, ch)
    ensures forall i, j :: 0 <= i < |ch.cells| && 0 <= j < |ch.cells| && ch.cells[i].id == ch.cells[j].id ==> i == j
  {
    forall i, j | 0 <= i < |ch.cells| && 0 <= j < |ch.cells| && ch.cells[i].id == ch.cells[j].id
      ensures i == j
    {
      assert At(fs, r, ch, i) && At(fs, r, ch, j);
    }
  }

  /** Cell-wise updates: same ids, other statuses. */
  lemma SameIds(fs: map<Id, Frame>, fs': map<Id, Frame>, r: Id, ch: Chain, ch': Chain)
    requires Holds(fs, r, ch) && Shape(ch') && |ch'.cells| == |ch.cells|
    requires forall i :: 0 <= i < |ch.cells| ==> ch'.cells[i].id == ch.cells[i].id && At(fs', r, ch', i)
    requires fs'.Keys == fs.Keys
    requires forall h :: h in fs && h !in IdSet(ch.cells) ==> fs'[h] == fs[h]
    ensures Rewrites(fs, fs', r, ch, ch')
  {
    assert IdSet(ch'.cells) == IdSet(ch.cells) by {
      forall i | 0 <= i < |ch.cells|
        ensures ch.cells[i].id in IdSet(ch'.cells) && ch'.cells[i].id in IdSet(ch.cells)
      {
        assert ch'.cells[i].id == ch.cells[i].id;
      }
    }
  }

  lemma SetTopRewrites(fs: map<Id, Frame>, r: Id, ch: Chain, s: Status)
    requires Holds(fs, r, ch) && Shape(SetTop(ch, s))
    ensures var h := ch.cells[ch.active].id;
            h in fs && Rewrites(fs, fs[h := fs[h].(status := s)], r, ch, SetTop(ch, s))
  {
    TopIs(fs, r, ch);
    DistinctCells(fs, r, ch);
    var h, ch' := ch.cells[ch.active].id, SetTop(ch, s);
    var fs' := fs[h := fs[h].(status := s)];
    forall i | 0 <= i < |ch.cells| ensures ch'.cells[i].id == ch.cells[i].id && At(fs', r, ch', i) {
      assert At(fs, r, ch, i);
    }
    assert h in IdSet(ch.cells);
    SameIds(fs, fs', r, ch, ch');
  }

  /** An update of two cells that leaves every id in place. */
  lemma TwoCells(fs: map<Id, Frame>, fs': map<Id, Frame>, r: Id, ch: Chain, ch': Chain, i: nat, j: nat)
    requires Holds(fs, r, ch) && Shape(ch') && |ch'.cells| == |ch.cells| && ch'.kind == ch.kind
    requires i < |ch.cells| && j < |ch.cells|
    requires ch'.cells[i].id == ch.cells[i].id && ch'.cells[j].id == ch.cells[j].id
    requires At(fs', r, ch', i) && At(fs', r, ch', j)
    requires forall k :: 0 <= k < |ch.cells| && k != i && k != j ==> ch'.cells[k] == ch.cells[k]
    requires fs'.Keys == fs.Keys
    requires forall x :: x in fs && x != ch.cells[i].id && x != ch.cells[j].id ==> fs'[x] == fs[x]
    ensures Rewrites(fs, fs', r, ch, ch')
  {
    DistinctCells(fs, r, ch);
    forall k | 0 <= k < |ch.cells| ensures ch'.cells[k].id == ch.cells[k].id && At(fs', r, ch', k) {
      assert At(fs, r, ch, k);
      if k != i && k != j {
        assert ch.cells[k].id != ch.cells[i].id && ch.cells[k].id != ch.cells[j].id;
      }
    }
    assert ch.cells[i].id in IdSet(ch.cells) && ch.cells[j].id in IdSet(ch.cells);
    SameIds(fs, fs', r, ch, ch');
  }

  lemma StartRewrites(w: World, r: Id, ch: Chain, resume: Outcome -> Body)
    requires Holds(w.frames, r, ch) && Top(ch).Running? && HasFreshTask(ch)
    ensures var h := ch.cells[ch.active].id;
            && h in w.frames
            && Rewrites(w.frames, AwaitTask(w, h, resume).frames, r, ch, StartTask(ch, resume))
            && AwaitTask(w, h, resume) == w.(frames := AwaitTask(w, h, resume).frames)
  {
    TopIs(w.frames, r, ch);
    DistinctCells(w.frames, r, ch);
    var a := ch.active;
    assert At(w.frames, r, ch, a + 1);
    var h, c := ch.cells[a].id, ch.cells[a + 1].id;
    assert h != c;
    StartKeepsShape(ch, resume);
    TwoCells(w.frames, AwaitTask(w, h, resume).frames, r, ch, StartTask(ch, resume), a, a + 1);
  }

  lemma StuckAwait(w: World, r: Id, ch: Chain, resume: Outcome -> Body)
    requires Holds(w.frames, r, ch) && Top(ch).Running? && !HasFreshTask(ch)
    ensures var h := ch.cells[ch.active].id;
            h in w.frames && w.frames[h].root == r && AwaitTask(w, h, resume) == Misuse(w, h)
  {
    TopIs(w.frames, r, ch);
    if ch.active + 1 < |ch.cells| { assert At(w.frames, r, ch, ch.active + 1); }
  }

  /** A finished child: its frame is done, the one below goes on. */
  lemma TransferRewrites(w: World, r: Id, ch: Chain, o: Outcome)
    requires Holds(w.frames, r, ch) && Top(ch).Running? && ch.active > 0 && Shape(Finish(ch, o))
    ensures var h := ch.cells[ch.active].id;
            && h in w.frames
            && Rewrites(w.frames, FinishFrame(w, h, o).frames, r, ch, Finish(ch, o))
            && FinishFrame(w, h, o) == w.(frames := FinishFrame(w, h, o).frames)
  {
    var a := ch.active;
    TopIs(w.frames, r, ch);
    DistinctCells(w.frames, r, ch);
    assert At(w.frames, r, ch, a - 1);
    assert ch.cells[a].id != ch.cells[a - 1].id;
    TwoCells(w.frames, FinishFrame(w, ch.cells[a].id, o).frames, r, ch, Finish(ch, o), a, a - 1);
  }

  lemma FinishRewrites(w: World, r: Id, ch: Chain, o: Outcome)
    requires Holds(w.frames, r, ch) && Top(ch).Running?
    ensures var h := ch.cells[ch.active].id;
            && h in w.frames
            && Rewrites(w.frames, FinishFrame(w, h, o).frames, r, ch, Finish(ch, o))
            && FinishFrame(w, h, o) == w.(frames := FinishFrame(w, h, o).frames)
  {
    TopIs(w.frames, r, ch);
    var a := ch.active;
    FinishKeepsShape(ch, o);
    if a == 0 {
      SetTopRewrites(w.frames, r, ch, Done(o, false));
    } else {
      TransferRewrites(w, r, ch, o);
    }
  }

  /** The frames after the active one: what its task object owns. */
  ghost function Tail(ch: Chain): seq<Cell>
    requires ch.active < |ch.cells|
  {
    ch.cells[ch.active + 1..]
  }

  lemma DestroyTail(fs: map<Id, Frame>, r: Id, ch: Chain)
    requires Holds(fs, r, ch)
    ensures var h := ch.cells[ch.active].id;
            h in fs && DestroyTask(fs, h) == Wreck(fs - IdSet(Tail(ch)), IdList(Tail(ch)), false)
            && h !in IdSet(Tail(ch))
  {
    TopIs(fs, r, ch);
    DistinctCells(fs, r, ch);
    var a := ch.active;
    if a + 1 < |ch.cells| {
      assert At(fs, r, ch, a + 1);
      DestroySuffix(fs, r, ch, a + 1);
    } else {
      assert Tail(ch) == [];
      assert fs - IdSet([]) == fs;
    }
  }

  /** Cutting the tail: the frames that stay keep their layout. */
  lemma CutRewrites(fs: map<Id, Frame>, r: Id, ch: Chain, s: Status)
    requires Holds(fs, r, ch) && Shape(CutTop(ch, s)) && (s.Fresh? ==> ch.active == 0)
    ensures var h := ch.cells[ch.active].id;
            h in fs && Rewrites(fs, (fs - IdSet(Tail(ch)))[h := fs[h].(status := s, task := None)], r, ch,
                                CutTop(ch, s))
  {
    TopIs(fs, r, ch);
    DistinctCells(fs, r, ch);
    var a := ch.active;
    var h, ch' := ch.cells[a].id, CutTop(ch, s);
    var fs' := (fs - IdSet(Tail(ch)))[h := fs[h].(status := s, task := None)];
    forall i | 0 <= i <= a ensures ch'.cells[i].id == ch.cells[i].id && At(fs', r, ch', i) {
      assert At(fs, r, ch, i);
      assert ch.cells[i].id !in IdSet(Tail(ch));
    }
    forall x ensures x in IdSet(ch.cells) <==> x in IdSet(ch'.cells) || x in IdSet(Tail(ch)) {
      SplitIds(ch, ch', x);
    }
  }

  lemma SplitIds(ch: Chain, ch': Chain, x: Id)
    requires ch.active < |ch.cells| && |ch'.cells| == ch.active + 1
    requires forall i :: 0 <= i <= ch.active ==> ch'.cells[i].id == ch.cells[i].id
    ensures x in IdSet(ch.cells) <==> x in IdSet(ch'.cells) || x in IdSet(Tail(ch))
  {
    if x in IdSet(ch.cells) {
      var i :| 0 <= i < |ch.cells| && ch.cells[i].id == x;
      if i <= ch.active { assert ch'.cells[i].id == x; } else { assert Tail(ch)[i - ch.active - 1].id == x; }
    }
    if x in IdSet(Tail(ch)) {
      var i :| 0 <= i < |Tail(ch)| && Tail(ch)[i].id == x;
      assert ch.cells[ch.active + 1 + i].id == x;
    }
    if x in IdSet(ch'.cells) {
      var i :| 0 <= i < |ch'.cells| && ch'.cells[i].id == x;
      assert ch.cells[i].id == x;
    }
  }

  lemma DropRewrites(w: World, r: Id, ch: Chain, next: Body)
    requires Holds(w.frames, r, ch) && Top(ch).Running?
    ensures var h, d := ch.cells[ch.active].id, IdList(Tail(ch));
            && h in w.frames
            && Rewrites(w.frames, DropTask(w, h, next).frames, r, ch, CutTop(ch, Running(next)))
            && DropTask(w, h, next) == w.(frames := DropTask(w, h, next).frames, destroyed := w.destroyed + d)
  {
    DestroyTail(w.frames, r, ch);
    SetTopKeepsShape(ch, Running(next));
    CutRewrites(w.frames, r, ch, Running(next));
  }

  /** Appending a fresh frame as the task of the active one. */
  lemma AppendRewrites(fs: map<Id, Frame>, mid: map<Id, Frame>, fs': map<Id, Frame>, r: Id, ch: Chain, cut: Chain,
                       n: Id, child: Body)
    requires Rewrites(fs, mid, r, ch, cut) && cut.active + 1 == |cut.cells| && Top(cut).Running?
    requires n !in fs && n !in mid && cut.cells[cut.active].id in IdSet(ch.cells)
    requires fs' == mid[n := Frame(Fresh(child), None, None, false, false, r, cut.active + 1)]
                       [cut.cells[cut.active].id := FrameAt(r, cut, cut.active).(task := Some(n))]
    requires Holds(fs, r, ch)
    ensures Rewrites(fs, fs', r, ch, cut.(cells := cut.cells + [Cell(n, Fresh(child))]))
  {
    var a := cut.active;
    var ch' := cut.(cells := cut.cells + [Cell(n, Fresh(child))]);
    TopIs(mid, r, cut);
    DistinctCells(mid, r, cut);
    forall i | 0 <= i <= a + 1 ensures At(fs', r, ch', i) {
      if i <= a { assert At(mid, r, cut, i); }
    }
    forall x ensures x in IdSet(ch'.cells) <==> x in IdSet(cut.cells) || x == n {
      if x == n { assert ch'.cells[a + 1].id == n; }
      if x in IdSet(cut.cells) { var i :| 0 <= i < |cut.cells| && cut.cells[i].id == x; assert ch'.cells[i].id == x; }
      if x in IdSet(ch'.cells) && x != n {
        var i :| 0 <= i < |ch'.cells| && ch'.cells[i].id == x;
        assert cut.cells[i].id == x;
      }
    }
    assert cut.cells[a].id in IdSet(cut.cells);
  }

  lemma CreateFrames(w: World, h: Id, child: Body, next: Body, gone: set<Id>, order: seq<Id>)
    requires h in w.frames && h !in gone && w.next !in w.frames
    requires DestroyTask(w.frames, h) == Wreck(w.frames - gone, order, false)
    ensures var f, w' := w.frames[h], CreateTask(w, h, child, next);
            && w'.frames == (w.frames - gone)[h := f.(status := Running(next), task := None)]
                              [w.next := Frame(Fresh(child), None, None, false, false, f.root, f.depth + 1)]
                              [h := f.(status := Running(next), task := Some(w.next))]
            && w' == w.(frames := w'.frames, destroyed := w.destroyed + order, next := w.next + 1)
  {
  }

  lemma CreateRewrites(w: World, r: Id, ch: Chain, child: Body, next: Body)
    requires Holds(w.frames, r, ch) && Top(ch).Running? && w.next !in w.frames
    ensures var h, d := ch.cells[ch.active].id, IdList(Tail(ch));
            var cut := CutTop(ch, Running(next));
            && h in w.frames
            && Rewrites(w.frames, CreateTask(w, h, child, next).frames, r, ch,
                        cut.(cells := cut.cells + [Cell(w.next, Fresh(child))]))
            && CreateTask(w, h, child, next)
               == w.(frames := CreateTask(w, h, child, next).frames, destroyed := w.destroyed + d, next := w.next + 1)
  {
    DestroyTail(w.frames, r, ch);
    SetTopKeepsShape(ch, Running(next));
    CutRewrites(w.frames, r, ch, Running(next));
    TopIs(w.frames, r, ch);
    var h: Id, cut := ch.cells[ch.active].id, CutTop(ch, Running(next));
    CreateFrames(w, h, child, next, IdSet(Tail(ch)), IdList(Tail(ch)));
    var mid := (w.frames - IdSet(Tail(ch)))[h := w.frames[h].(status := Running(next), task := None)];
    assert h in IdSet(ch.cells);
    AppendRewrites(w.frames, mid, CreateTask(w, h, child, next).frames, r, ch, cut, w.next, child);
  }

  /** What an action destroys: the frames behind a replaced or dropped task object. */
  ghost function Dropped(ch: Chain, a: Action<Body, Obs>): seq<Id>
    requires ch.active < |ch.cells|
  {
    if a.Create? || a.Drop? then IdList(Tail(ch)) else []
  }

  /** The action awaits an empty or a finished task object. */
  predicate StuckAt(ch: Chain, a: Action<Body, Obs>) {
    a.Await? && !HasFreshTask(ch)
  }

  /** What an action changes in the world: the frames of one chain, and the ids it uses up. */
  ghost predicate Acts(w: World, w': World, ch: Chain, a: Action<Body, Obs>)
    requires ch.active < |ch.cells|
  {
    w' == w.(frames := w'.frames, destroyed := w.destroyed + Dropped(ch, a),
             next := if a.Create? then w.next + 1 else w.next,
             submitting := if a.Io? then w.submitting[ch.cells[ch.active].id := a.op] else w.submitting,
             misused := if StuckAt(ch, a) then w.misused + {ch.cells[0].id} else w.misused)
  }

  /** An action without the new root that Detach starts besides. */
  ghost function Core(w: World, h: Id, a: Action<Body, Obs>): World
    requires h in w.frames
  {
    if a.Detach? then SetStatus(w, h, Running(a.next)) else Act(w, h, a)
  }

  lemma AwaitSimulates(code: Code, w: World, r: Id, ch: Chain, resume: Outcome -> Body)
    requires Holds(w.frames, r, ch) && Top(ch).Running? && Decode(code, Top(ch).body) == Await(resume)
    ensures var h := ch.cells[ch.active].id;
            && h in w.frames
            && Acts(w, AwaitTask(w, h, resume), ch, Await(resume))
            && Rewrites(w.frames, AwaitTask(w, h, resume).frames, r, ch, ExecChain(code, ch, w.next))
  {
    TopIs(w.frames, r, ch);
    ExecKeepsShape(code, ch, w.next);
    assert w.destroyed + [] == w.destroyed;
    if HasFreshTask(ch) {
      StartRewrites(w, r, ch, resume);
    } else {
      StuckAwait(w, r, ch, resume);
      SetTopRewrites(w.frames, r, ch, Undefined);
    }
  }

  /** Forward simulation: an action on the heap is the step of the chain. */
  lemma ActSimulates(code: Code, w: World, r: Id, ch: Chain, a: Action<Body, Obs>)
    requires Holds(w.frames, r, ch) && Top(ch).Running? && w.next !in w.frames
    requires a == Decode(code, Top(ch).body)
    ensures var h := ch.cells[ch.active].id;
            && h in w.frames
            && Acts(w, Core(w, h, a), ch, a)
            && Rewrites(w.frames, Core(w, h, a).frames, r, ch, ExecChain(code, ch, w.next))
  {
    TopIs(w.frames, r, ch);
    ExecKeepsShape(code, ch, w.next);
    assert w.destroyed + [] == w.destroyed;
    match a {
      case Return(v) => FinishRewrites(w, r, ch, Value(v));
      case Throw(e) => FinishRewrites(w, r, ch, Exception(e));
      case Emit(_, next) => SetTopRewrites(w.frames, r, ch, Running(next));
      case Create(child, next) => CreateRewrites(w, r, ch, child, next);
      case Await(resume) => AwaitSimulates(code, w, r, ch, resume);
      case Drop(next) => DropRewrites(w, r, ch, next);
      case Io(op, onResult) => SetTopRewrites(w.frames, r, ch, InIo(op, onResult));
      case Detach(_, next) => SetTopRewrites(w.frames, r, ch, Running(next));
    }
  }

  // ---- Steps that touch a chain's root, or a whole chain ----

  function NewChain(kind: Kind, inner: Id, r: Id, body: Body): Chain {
    Chain(kind, [Cell(r, Fresh(Entry(kind))), Cell(inner, Fresh(body))], 0)
  }

  lemma NewRootMirrors(w: World, chains: ChainMap, kind: Kind, body: Body)
    requires Mirrors(w.frames, chains)
    requires forall h :: h in w.frames ==> h < w.next
    requires forall r :: r in chains ==> r < w.next
    ensures Mirrors(NewRoot(w, kind, body).frames, chains[w.next + 1 := NewChain(kind, w.next, w.next + 1, body)])
  {
    var r, fs' := w.next + 1, NewRoot(w, kind, body).frames;
    var ch := NewChain(kind, w.next, r, body);
    forall h | h in w.frames ensures w.frames[h].root != r { assert Placed(w.frames, chains, h); }
    assert At(fs', r, ch, 0) && At(fs', r, ch, 1);
    Replace(w.frames, fs', chains, r, ch);
  }

  lemma RemoveRootMirrors(fs: map<Id, Frame>, chains: ChainMap, r: Id)
    requires Mirrors(fs, chains) && r in chains
    ensures Mirrors(fs - IdSet(chains[r].cells), chains - {r})
  {
    var fs' := fs - IdSet(chains[r].cells);
    forall r' | r' in chains && r' != r ensures Holds(fs', r', chains[r']) {
      forall i | 0 <= i < |chains[r'].cells| ensures At(fs', r', chains[r'], i) {
        assert At(fs, r', chains[r'], i);
        ChainFrames(fs, chains, r, chains[r'].cells[i].id);
      }
    }
    forall h | h in fs' ensures Placed(fs', chains - {r}, h) {
      assert Placed(fs, chains, h);
      ChainFrames(fs, chains, r, h);
    }
  }

  /** Destroying a suspended root destroys its whole await chain, every frame exactly once. */
  lemma DestroyRootChain(fs: map<Id, Frame>, chains: ChainMap, r: Id)
    requires Mirrors(fs, chains) && r in chains && !Top(chains[r]).Running?
    ensures Destroy(fs, r) == Wreck(fs - IdSet(chains[r].cells), IdList(chains[r].cells), false)
    ensures Mirrors(fs - IdSet(chains[r].cells), chains - {r})
  {
    var ch := chains[r];
    assert Holds(fs, r, ch);
    assert ch.cells[0..] == ch.cells;
    DestroySuffix(fs, r, ch, 0);
    RemoveRootMirrors(fs, chains, r);
  }
}
