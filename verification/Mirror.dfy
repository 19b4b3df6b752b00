/** How the heap of frames mirrors a set of await chains, and that every step on the heap
    is the corresponding step on one chain. */
module Mirror {
  import opened Program
  import opened Chains
  import opened Frames

  type ChainMap = map<Id, Chain>

  /** The heap contents a chain prescribes for its cell `i`. */
  ghost function FrameAt(r: Id, ch: Chain, i: nat): Frame
    requires i < |ch.cells|
  {
    Frame(ch.cells[i].status,
          if i == 0 || ch.cells[i].status.Fresh? then None else Some(ch.cells[i - 1].id),
          if i + 1 < |ch.cells| then Some(ch.cells[i + 1].id) else None,
          i == 0, i == 0 && ch.kind.Detached?, r, i)
  }

  ghost predicate At(fs: map<Id, Frame>, r: Id, ch: Chain, i: nat)
    requires i < |ch.cells|
  {
    ch.cells[i].id in fs && fs[ch.cells[i].id] == FrameAt(r, ch, i)
  }

  ghost predicate Holds(fs: map<Id, Frame>, r: Id, ch: Chain) {
    && Shape(ch)
    && ch.cells[0].id == r
    && forall i :: 0 <= i < |ch.cells| ==> At(fs, r, ch, i)
  }

  ghost predicate Placed(fs: map<Id, Frame>, chains: ChainMap, h: Id)
    requires h in fs
  {
    && fs[h].root in chains
    && fs[h].depth < |chains[fs[h].root].cells|
    && chains[fs[h].root].cells[fs[h].depth].id == h
  }

  /** Every chain is laid out in the heap, and every frame lies on a chain. */
  ghost predicate Mirrors(fs: map<Id, Frame>, chains: ChainMap) {
    && (forall r :: r in chains ==> Holds(fs, r, chains[r]))
    && (forall h :: h in fs ==> Placed(fs, chains, h))
  }

  lemma Laid(fs: map<Id, Frame>, chains: ChainMap, r: Id)
    requires Mirrors(fs, chains) && r in chains
    ensures Holds(fs, r, chains[r])
  {
  }

  function IdList(cells: seq<Cell>): seq<Id> {
    if cells == [] then [] else [cells[0].id] + IdList(cells[1..])
  }

  lemma {:induction false} IdListMembers(cells: seq<Cell>)
    ensures |IdList(cells)| == |cells|
    ensures forall i :: 0 <= i < |cells| ==> IdList(cells)[i] == cells[i].id
  {
    if cells != [] { IdListMembers(cells[1..]); }
  }

  ghost function IdSet(cells: seq<Cell>): set<Id> {
    set i | 0 <= i < |cells| :: cells[i].id
  }

  /** Destroying frame `cells[i]` destroys exactly the frames from there outwards, once each. */
  lemma {:induction false} DestroySuffix(fs: map<Id, Frame>, r: Id, ch: Chain, i: nat)
    requires i < |ch.cells|
    requires forall j :: i <= j < |ch.cells| ==> At(fs, r, ch, j) && !ch.cells[j].status.Running?
    ensures Destroy(fs, ch.cells[i].id) == Wreck(fs - IdSet(ch.cells[i..]), IdList(ch.cells[i..]), false)
    decreases |ch.cells| - i
  {
    var h, cells := ch.cells[i].id, ch.cells[i..];
    assert At(fs, r, ch, i);
    var left := fs - {h};
    if i + 1 == |ch.cells| {
      assert cells == [ch.cells[i]];
      assert IdSet(cells) == {h};
      assert IdList(cells) == [h];
    } else {
      forall j | i + 1 <= j < |ch.cells| ensures At(left, r, ch, j) { assert At(fs, r, ch, j); }
      DestroySuffix(left, r, ch, i + 1);
      assert cells[1..] == ch.cells[i + 1..];
      assert IdSet(cells) == {h} + IdSet(ch.cells[i + 1..]) by {
        forall x | x in IdSet(ch.cells[i + 1..]) ensures x in IdSet(cells) {
          var k :| 0 <= k < |cells| - 1 && ch.cells[i + 1..][k].id == x;
          assert cells[k + 1].id == x;
        }
        forall x | x in IdSet(cells) ensures x in {h} + IdSet(ch.cells[i + 1..]) {
          var k :| 0 <= k < |cells| && cells[k].id == x;
          if k > 0 { assert ch.cells[i + 1..][k - 1].id == x; }
        }
        assert cells[0].id == h;
      }
      assert fs - IdSet(cells) == left - IdSet(ch.cells[i + 1..]);
    }
  }

  /** Rewriting the frames of one root, by the layout of its new chain, keeps the mirror. */
  lemma Replace(fs: map<Id, Frame>, fs': map<Id, Frame>, chains: ChainMap, r: Id, ch: Chain)
    requires Mirrors(fs, chains)
    requires Holds(fs', r, ch)
    requires forall h :: h in fs && fs[h].root != r ==> h in fs' && fs'[h] == fs[h]
    requires forall h :: h in fs' ==> (h in fs && fs'[h] == fs[h] && fs[h].root != r) || Placed(fs', chains[r := ch], h)
    ensures Mirrors(fs', chains[r := ch])
  {
    forall r' | r' in chains && r' != r ensures Holds(fs', r', chains[r']) {
      forall i | 0 <= i < |chains[r'].cells| ensures At(fs', r', chains[r'], i) {
        assert At(fs, r', chains[r'], i);
      }
    }
  }

  /** The frames of `r` after a step: those of the new chain, everything else as before. */
  ghost predicate Rewrites(fs: map<Id, Frame>, fs': map<Id, Frame>, r: Id, ch: Chain, ch': Chain) {
    && Holds(fs', r, ch')
    && (forall h :: h in fs && h !in IdSet(ch.cells) ==> h in fs' && fs'[h] == fs[h])
    && (forall h :: h in fs' && h !in IdSet(ch'.cells) ==> h in fs && fs'[h] == fs[h] && h !in IdSet(ch.cells))
  }

  /** The frames of a chain are the frames created on behalf of its root. */
  lemma ChainFrames(fs: map<Id, Frame>, chains: ChainMap, r: Id, h: Id)
    requires Mirrors(fs, chains) && r in chains
    ensures h in IdSet(chains[r].cells) <==> h in fs && fs[h].root == r
  {
    if h in IdSet(chains[r].cells) {
      var i :| 0 <= i < |chains[r].cells| && chains[r].cells[i].id == h;
      assert At(fs, r, chains[r], i);
    }
    if h in fs && fs[h].root == r {
      assert Placed(fs, chains, h);
      assert chains[r].cells[fs[h].depth].id == h;
    }
  }

  lemma RewriteKeepsMirror(fs: map<Id, Frame>, fs': map<Id, Frame>, chains: ChainMap, r: Id, ch': Chain)
    requires Mirrors(fs, chains) && r in chains
    requires Rewrites(fs, fs', r, chains[r], ch')
    ensures Mirrors(fs', chains[r := ch'])
  {
    var ch := chains[r];
    forall h ensures h in IdSet(ch.cells) <==> h in fs && fs[h].root == r { ChainFrames(fs, chains, r, h); }
    forall h | h in fs' && h in IdSet(ch'.cells) ensures Placed(fs', chains[r := ch'], h) {
      var i :| 0 <= i < |ch'.cells| && ch'.cells[i].id == h;
      assert At(fs', r, ch', i);
    }
    Replace(fs, fs', chains, r, ch');
  }
}
