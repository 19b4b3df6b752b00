/** One action of a running frame keeps the invariant. */
module ExecStep {
  import opened Lists
  import opened Program
  import opened Chains
  import opened Frames
  import opened Mirror
  import opened Simulation
  import opened Invariant
  import opened Meaning

  // ---- Ids ----

  lemma IdListSet(cells: seq<Cell>)
    ensures forall x :: x in IdList(cells) <==> x in IdSet(cells)
  {
    IdListMembers(cells);
    forall x ensures x in IdList(cells) <==> x in IdSet(cells) {
      if x in IdSet(cells) {
        var i :| 0 <= i < |cells| && cells[i].id == x;
        assert IdList(cells)[i] == x;
      }
      if x in IdList(cells) {
        var i :| 0 <= i < |IdList(cells)| && IdList(cells)[i] == x;
        assert cells[i].id == x;
      }
    }
  }

  /** A chain cut after its active frame loses exactly the ids of its tail. */
  lemma CutIds(ch: Chain, cells: seq<Cell>, x: Id)
    requires Shape(ch) && |cells| == ch.active + 1
    requires forall i :: 0 <= i <= ch.active ==> cells[i].id == ch.cells[i].id
    requires forall i, j :: 0 <= i < |ch.cells| && 0 <= j < |ch.cells| && ch.cells[i].id == ch.cells[j].id ==> i == j
    ensures x in IdSet(cells) <==> x in IdSet(ch.cells) && x !in IdList(Tail(ch))
  {
    IdListSet(Tail(ch));
    SplitIds(ch, ch.(cells := cells), x);
    if x in IdSet(Tail(ch)) {
      var j :| 0 <= j < |Tail(ch)| && Tail(ch)[j].id == x;
      forall i | 0 <= i < |cells| ensures cells[i].id != x {
        assert ch.cells[ch.active + 1 + j].id == x;
      }
    }
  }

  lemma PushId(cells: seq<Cell>, c: Cell, x: Id)
    ensures x in IdSet(cells + [c]) <==> x in IdSet(cells) || x == c.id
  {
    if x in IdSet(cells) { var i :| 0 <= i < |cells| && cells[i].id == x; assert (cells + [c])[i].id == x; }
    assert (cells + [c])[|cells|].id == c.id;
    if x in IdSet(cells + [c]) && x != c.id {
      var i :| 0 <= i < |cells + [c]| && (cells + [c])[i].id == x;
      assert cells[i].id == x;
    }
  }

  /** The ids of a chain after an action: those it had, without the destroyed ones, plus the new one. */
  lemma ExecIds(code: Code, ch: Chain, n: nat, x: Id)
    requires Shape(ch) && Top(ch).Running?
    requires forall i, j :: 0 <= i < |ch.cells| && 0 <= j < |ch.cells| && ch.cells[i].id == ch.cells[j].id ==> i == j
    ensures var a := Decode(code, Top(ch).body);
            x in IdSet(ExecChain(code, ch, n).cells)
            <==> (x in IdSet(ch.cells) && x !in Dropped(ch, a)) || (a.Create? && x == n)
  {
    var a, ch' := Decode(code, Top(ch).body), ExecChain(code, ch, n);
    match a {
      case Create(child, next) =>
        var cut := CutTop(ch, Running(next)).cells;
        CutIds(ch, cut, x);
        PushId(cut, Cell(n, Fresh(child)), x);
      case Drop(_) => CutIds(ch, ch'.cells, x);
      case Return(_) => SameIdSet(ch, ch', x);
      case Throw(_) => SameIdSet(ch, ch', x);
      case Emit(_, _) => SameIdSet(ch, ch', x);
      case Await(_) => SameIdSet(ch, ch', x);
      case Io(_, _) => SameIdSet(ch, ch', x);
      case Detach(_, _) => SameIdSet(ch, ch', x);
    }
  }

  lemma SameIdSet(ch: Chain, ch': Chain, x: Id)
    requires |ch'.cells| == |ch.cells| && forall i :: 0 <= i < |ch.cells| ==> ch'.cells[i].id == ch.cells[i].id
    ensures x in IdSet(ch'.cells) <==> x in IdSet(ch.cells)
  {
    if x in IdSet(ch.cells) { var i :| 0 <= i < |ch.cells| && ch.cells[i].id == x; assert ch'.cells[i].id == x; }
    if x in IdSet(ch'.cells) { var i :| 0 <= i < |ch.cells| && ch'.cells[i].id == x; assert ch.cells[i].id == x; }
  }

  lemma NoDupIds(cells: seq<Cell>)
    requires forall i, j :: 0 <= i < |cells| && 0 <= j < |cells| && cells[i].id == cells[j].id ==> i == j
    ensures Distinct(IdList(cells))
  {
    IdListMembers(cells);
  }

  lemma ConcatNoDup(s: seq<Id>, t: seq<Id>)
    requires Distinct(s) && Distinct(t) && forall x :: x in s ==> x !in t
    ensures Distinct(s + t)
  {
    forall i, j | 0 <= i < j < |s + t| ensures (s + t)[i] != (s + t)[j] {
      if i < |s| <= j { assert s[i] in s && t[j - |s|] in t; }
    }
  }

  lemma IdsKept(frames: map<Id, Frame>, next: Id, destroyed: seq<Id>,
                frames': map<Id, Frame>, next': Id, gone: seq<Id>)
    requires IdsAccounted(frames, next, destroyed) && Distinct(gone)
    requires next <= next'
    requires forall x :: x in gone ==> x in frames && x !in frames'
    requires forall x :: x in frames' <==> (x in frames && x !in gone) || next <= x < next'
    ensures IdsAccounted(frames', next', destroyed + gone)
  {
    ConcatNoDup(destroyed, gone);
  }

  lemma ExecIdsKept(code: Code, w: World, w': World, r: Id, ch: Chain)
    requires IdsAccounted(w.frames, w.next, w.destroyed)
    requires Holds(w.frames, r, ch) && Top(ch).Running?
    requires var a := Decode(code, Top(ch).body);
             Acts(w, w', ch, a) && Rewrites(w.frames, w'.frames, r, ch, ExecChain(code, ch, w.next))
    ensures IdsAccounted(w'.frames, w'.next, w'.destroyed)
  {
    var a, ch' := Decode(code, Top(ch).body), ExecChain(code, ch, w.next);
    DistinctCells(w.frames, r, ch);
    NoDupIds(Tail(ch));
    IdListSet(Tail(ch));
    forall x
      ensures x in IdSet(ch'.cells) <==> (x in IdSet(ch.cells) && x !in Dropped(ch, a)) || (a.Create? && x == w.next)
    {
      ExecIds(code, ch, w.next, x);
    }
    forall x ensures x in IdSet(Tail(ch)) ==> x in IdSet(ch.cells) { SplitIds(ch, CutTop(ch, Top(ch)), x); }
    forall x | x in IdSet(ch.cells) ensures x in w.frames { CellsLive(w.frames, r, ch, x); }
    forall x | x in IdSet(ch'.cells) ensures x in w'.frames { CellsLive(w'.frames, r, ch', x); }
    IdsKept(w.frames, w.next, w.destroyed, w'.frames, w'.next, Dropped(ch, a));
  }

  lemma CellsLive(fs: map<Id, Frame>, r: Id, ch: Chain, x: Id)
    requires Holds(fs, r, ch) && x in IdSet(ch.cells)
    ensures x in fs
  {
    var i :| 0 <= i < |ch.cells| && ch.cells[i].id == x;
    assert At(fs, r, ch, i);
  }

  // ---- Tokens, when one started chain turns into another started chain ----

  lemma TokensKept(spawning: map<Id, Stage>, queue: seq<Id>, taken: set<Id>, chains: ChainMap, r: Id, ch: Chain)
    requires StartTokens(spawning, queue, taken, chains) && r in chains
    requires !RootFresh(chains[r]) && !RootFresh(ch)
    ensures StartTokens(spawning, queue, taken, chains[r := ch])
  {
  }

  lemma ListedKept(registry: seq<Id>, spawning: map<Id, Stage>, skipped: set<Id>, chains: ChainMap, r: Id, ch: Chain)
    requires RegistryExact(registry, spawning, skipped, chains) && r in chains
    requires Listed(spawning, r, chains[r]) <==> Listed(spawning, r, ch)
    ensures RegistryExact(registry, spawning, skipped, chains[r := ch])
  {
  }

  lemma SkipsKept(skipped: set<Id>, next: Id, next': Id, chains: ChainMap, r: Id, ch: Chain)
    requires SkipsDone(skipped, next, chains) && next <= next' && r in chains && Shape(chains[r])
    requires !chains[r].cells[0].status.Done? || (0 < |ch.cells| && ch.cells[0].status.Done?)
    ensures SkipsDone(skipped, next', chains[r := ch])
  {
  }

  /** Frames waiting for I/O on other chains are untouched. */
  lemma OthersInIo(fs: map<Id, Frame>, fs': map<Id, Frame>, chains: ChainMap, r: Id, ch: Chain, h: Id)
    requires Mirrors(fs, chains) && Mirrors(fs', chains[r := ch]) && r in chains
    requires Shape(chains[r]) && Shape(ch)
    requires (h in fs && fs[h].status.InIo? && fs[h].root != r) || (h in fs' && fs'[h].status.InIo? && fs'[h].root != r)
    ensures h in fs && h in fs' && fs[h] == fs'[h]
  {
    if h in fs && fs[h].status.InIo? && fs[h].root != r {
      ActiveFrame(fs, chains, h);
      Laid(fs', chains[r := ch], fs[h].root);
      TopIs(fs', fs[h].root, chains[fs[h].root]);
    } else {
      ActiveFrame(fs', chains[r := ch], h);
      Laid(fs, chains, fs'[h].root);
      TopIs(fs, fs'[h].root, chains[fs'[h].root]);
    }
  }

  /** The frames waiting for I/O before and after a chain `r` whose active frame runs goes on. */
  lemma InIoAfterExec(fs: map<Id, Frame>, fs': map<Id, Frame>, chains: ChainMap, r: Id, ch': Chain)
    requires Mirrors(fs, chains) && r in chains && Shape(chains[r]) && Top(chains[r]).Running?
    requires Mirrors(fs', chains[r := ch']) && Shape(ch')
    ensures forall h :: h in fs && fs[h].status.InIo? ==>
              h in fs' && fs'[h] == fs[h] && h != chains[r].cells[chains[r].active].id
    ensures forall h :: h in fs' && fs'[h].status.InIo? ==>
              (Top(ch').InIo? && h == ch'.cells[ch'.active].id) || (h in fs && fs'[h] == fs[h])
    ensures ch'.cells[ch'.active].id in fs' && fs'[ch'.cells[ch'.active].id].status == Top(ch')
  {
    Laid(fs, chains, r);
    TopIs(fs, r, chains[r]);
    Laid(fs', chains[r := ch'], r);
    TopIs(fs', r, ch');
    forall h | h in fs && fs[h].status.InIo?
      ensures h in fs' && fs'[h] == fs[h] && h != chains[r].cells[chains[r].active].id
    {
      ActiveFrame(fs, chains, h);
      OthersInIo(fs, fs', chains, r, ch', h);
    }
    forall h | h in fs' && fs'[h].status.InIo?
      ensures (Top(ch').InIo? && h == ch'.cells[ch'.active].id) || (h in fs && fs'[h] == fs[h])
    {
      ActiveFrame(fs', chains[r := ch'], h);
      if fs'[h].root != r { OthersInIo(fs, fs', chains, r, ch', h); }
    }
  }

  lemma ExecIoTokens(fs: map<Id, Frame>, fs': map<Id, Frame>, submitting: map<Id, Request>,
                     submitting': map<Id, Request>,
                     inflight: map<Id, Request>, calling: map<Id, int>, running: bool,
                     chains: ChainMap, r: Id, ch': Chain)
    requires Mirrors(fs, chains) && r in chains && Shape(chains[r]) && Top(chains[r]).Running?
    requires Mirrors(fs', chains[r := ch']) && Shape(ch')
    requires IoTokens(fs, submitting, inflight, calling, running)
    requires if Top(ch').InIo?
             then submitting' == submitting[ch'.cells[ch'.active].id := Top(ch').op]
                  && ch'.cells[ch'.active].id == chains[r].cells[chains[r].active].id
             else submitting' == submitting
    ensures IoTokens(fs', submitting', inflight, calling, running)
  {
    InIoAfterExec(fs, fs', chains, r, ch');
    if Top(ch').InIo? {
      OneMoreInIo(fs, fs', submitting, inflight, calling, running, ch'.cells[ch'.active].id, Top(ch').op);
    } else {
      SameInIo(fs, fs', submitting, inflight, calling, running);
    }
  }

  lemma SameInIo(fs: map<Id, Frame>, fs': map<Id, Frame>, submitting: map<Id, Request>,
                 inflight: map<Id, Request>, calling: map<Id, int>, running: bool)
    requires IoTokens(fs, submitting, inflight, calling, running)
    requires forall x :: x in fs && fs[x].status.InIo? ==> x in fs' && fs'[x] == fs[x]
    requires forall x :: x in fs' && fs'[x].status.InIo? ==> x in fs && fs'[x] == fs[x]
    ensures IoTokens(fs', submitting, inflight, calling, running)
  {
  }

  lemma OneMoreInIo(fs: map<Id, Frame>, fs': map<Id, Frame>, submitting: map<Id, Request>,
                    inflight: map<Id, Request>, calling: map<Id, int>, running: bool, h: Id, op: Request)
    requires IoTokens(fs, submitting, inflight, calling, running)
    requires forall x :: x in fs && fs[x].status.InIo? ==> x in fs' && fs'[x] == fs[x] && x != h
    requires forall x :: x in fs' && fs'[x].status.InIo? ==> x == h || (x in fs && fs'[x] == fs[x])
    requires InOp(fs', h, op)
    ensures IoTokens(fs', submitting[h := op], inflight, calling, running)
  {
  }

  lemma ExecThreads(runner: map<Id, Runner>, submitting: map<Id, Request>, submitting': map<Id, Request>,
                    fs: map<Id, Frame>, chains: ChainMap, r: Id, ch': Chain)
    requires Mirrors(fs, chains) && Threads(runner, submitting, chains) && r in chains && Top(chains[r]).Running?
    requires Busy(submitting', ch')
    requires forall h :: h != chains[r].cells[chains[r].active].id ==> (h in submitting' <==> h in submitting)
    ensures Threads(runner, submitting', chains[r := ch'])
  {
    TopIs(fs, r, chains[r]);
    forall r' | r' in chains && r' != r ensures Busy(submitting', chains[r']) <==> Busy(submitting, chains[r']) {
      assert Holds(fs, r', chains[r']);
      TopIs(fs, r', chains[r']);
    }
  }

  /** The top of the chain after an action. */
  lemma ExecTop(code: Code, ch: Chain, n: nat)
    requires Shape(ch) && Top(ch).Running?
    ensures var a, ch' := Decode(code, Top(ch).body), ExecChain(code, ch, n);
            && Shape(ch') && !RootFresh(ch') && ch'.kind == ch.kind && |ch'.cells| > 0
            && (Top(ch').InIo? <==> a.Io?)
            && (a.Io? ==>
                  ch'.active == ch.active && ch'.cells[ch.active].id == ch.cells[ch.active].id && Top(ch').op == a.op)
            && !(ch'.cells[0].status.Done? && ch'.cells[0].status.unregistered)
            && !(ch.cells[0].status.Done? && ch.cells[0].status.unregistered)
  {
    ExecKeepsShape(code, ch, n);
  }

  lemma HistoryKept(code: Code, history: map<Id, History>, next: Id, next': Id, chains: ChainMap, r: Id, hst: History,
                    ch: Chain)
    requires Histories(code, history, next, chains) && r in chains && next <= next'
    requires Explains(code, hst, ch) && hst.body.User?
    ensures Histories(code, history[r := hst], next', chains[r := ch])
  {
  }

  /** A chain that goes on stays on the books, and is recorded exactly if it now stands. */
  lemma MisusedKept(code: Code, misused: set<Id>, misused': set<Id>, history: map<Id, History>, chains: ChainMap, r: Id,
                    hst: History, ch: Chain)
    requires Misused(code, misused, history, chains) && r in chains && r in history
    requires forall x :: x != r ==> (x in misused' <==> x in misused)
    requires ch.active < |ch.cells| && (r in misused' <==> Top(ch).Undefined?)
    ensures Misused(code, misused', history[r := hst], chains[r := ch])
  {
  }

  lemma MisusedSame(code: Code, misused: set<Id>, history: map<Id, History>, chains: ChainMap, r: Id, ch: Chain)
    requires Misused(code, misused, history, chains) && r in chains && r in history
    requires ch.active < |ch.cells| && !Top(chains[r]).Undefined? && !Top(ch).Undefined?
    ensures Misused(code, misused, history, chains[r := ch])
  {
    assert history[r := history[r]] == history;
    MisusedKept(code, misused, misused, history, chains, r, history[r], ch);
  }

  /** Only a misused await leaves a chain standing. */
  lemma StandsIff(code: Code, ch: Chain, n: nat)
    requires Shape(ch) && Top(ch).Running?
    ensures Shape(ExecChain(code, ch, n))
    ensures Top(ExecChain(code, ch, n)).Undefined? <==> StuckAt(ch, Decode(code, Top(ch).body))
  {
    ExecKeepsShape(code, ch, n);
  }

  lemma ExecMisused(code: Code, misused: set<Id>, misused': set<Id>, history: map<Id, History>, chains: ChainMap,
                    r: Id, n: Id)
    requires Misused(code, misused, history, chains) && r in chains && r in history
    requires Shape(chains[r]) && Top(chains[r]).Running?
    requires var a := Decode(code, Top(chains[r]).body);
             misused' == if StuckAt(chains[r], a) then misused + {r} else misused
    ensures Misused(code, misused', history[r := Later(history[r], ObsOf(Decode(code, Top(chains[r]).body)))],
                    chains[r := ExecChain(code, chains[r], n)])
  {
    StandsIff(code, chains[r], n);
    MisusedKept(code, misused, misused', history, chains, r,
      Later(history[r], ObsOf(Decode(code, Top(chains[r]).body))),
                ExecChain(code, chains[r], n));
  }

  lemma CoreFrames(code: Code, w: World, chains: ChainMap, r: Id, a: Action<Body, Obs>)
    requires FramesKept(w, chains) && r in chains && Shape(chains[r]) && Top(chains[r]).Running?
    requires a == Decode(code, Top(chains[r]).body)
    ensures var ch, h := chains[r], chains[r].cells[chains[r].active].id;
            && h in w.frames
            && Acts(w, Core(w, h, a), ch, a)
            && FramesKept(Core(w, h, a), chains[r := ExecChain(code, ch, w.next)])
  {
    var ch, h := chains[r], chains[r].cells[chains[r].active].id;
    var ch' := ExecChain(code, ch, w.next);
    Laid(w.frames, chains, r);
    TopIs(w.frames, r, ch);
    ActSimulates(code, w, r, ch, a);
    var w1 := Core(w, h, a);
    RewriteKeepsMirror(w.frames, w1.frames, chains, r, ch');
    ExecIdsKept(code, w, w1, r, ch);
    ExecTop(code, ch, w.next);
    ExecIoTokens(w.frames, w1.frames, w.submitting, w1.submitting, w.inflight, w.calling, w.running, chains, r, ch');
    ExecThreads(w.runner, w.submitting, w1.submitting, w.frames, chains, r, ch');
  }

  lemma CoreTokens(code: Code, w: World, chains: ChainMap, r: Id)
    requires StartTokens(w.spawning, w.queue, w.taken, chains)
             && RegistryExact(w.registry, w.spawning, w.skipped, chains)
    requires r in chains && Shape(chains[r]) && Top(chains[r]).Running?
    ensures var ch' := ExecChain(code, chains[r], w.next);
            StartTokens(w.spawning, w.queue, w.taken, chains[r := ch'])
              && RegistryExact(w.registry, w.spawning, w.skipped, chains[r := ch'])
  {
    var ch' := ExecChain(code, chains[r], w.next);
    ExecTop(code, chains[r], w.next);
    TokensKept(w.spawning, w.queue, w.taken, chains, r, ch');
    ListedKept(w.registry, w.spawning, w.skipped, chains, r, ch');
  }

  ghost function Later(hst: History, obs: seq<Obs>): History {
    hst.(log := hst.log + obs, steps := hst.steps + 1)
  }

  lemma CoreHistory(code: Code, history: map<Id, History>, next: Id, next': Id, chains: ChainMap, r: Id)
    requires Histories(code, history, next, chains) && next <= next'
    requires r in chains && Shape(chains[r]) && Top(chains[r]).Running?
    ensures r in history
    ensures Histories(code, history[r := Later(history[r], ObsOf(Decode(code, Top(chains[r]).body)))], next',
                      chains[r := ExecChain(code, chains[r], next)])
  {
    ExecExplains(code, history[r], chains[r], next);
    HistoryKept(code, history, next, next', chains, r, Later(history[r], ObsOf(Decode(code, Top(chains[r]).body))),
                ExecChain(code, chains[r], next));
  }

  lemma Noted(w: World, r: Id, obs: seq<Obs>)
    requires r in w.history
    ensures Note(w, r, [], obs, 1) == w.(history := w.history[r := Later(w.history[r], obs)])
  {
    assert w.history[r].fed + [] == w.history[r].fed;
  }

  /** The action itself, without the root a Detach starts. */
  lemma KeptCore(code: Code, w: World, chains: ChainMap, r: Id, h: Id, a: Action<Body, Obs>)
    requires Kept(code, w, chains) && r in chains && Shape(chains[r]) && Top(chains[r]).Running?
    requires h == chains[r].cells[chains[r].active].id && a == Decode(code, Top(chains[r]).body)
    ensures h in w.frames
    ensures Kept(code, Note(Core(w, h, a), r, [], ObsOf(a), 1), chains[r := ExecChain(code, chains[r], w.next)])
  {
    CoreFrames(code, w, chains, r, a);
    CoreTokens(code, w, chains, r);
    Assemble(code, w, Core(w, h, a), chains, r, a);
  }

  lemma Assemble(code: Code, w: World, w1: World, chains: ChainMap, r: Id, a: Action<Body, Obs>)
    requires Kept(code, w, chains) && r in chains && Shape(chains[r]) && Top(chains[r]).Running?
    requires a == Decode(code, Top(chains[r]).body)
    requires Acts(w, w1, chains[r], a)
    requires var chains' := chains[r := ExecChain(code, chains[r], w.next)];
             FramesKept(w1, chains') && StartTokens(w.spawning, w.queue, w.taken, chains')
             && RegistryExact(w.registry, w.spawning, w.skipped, chains')
    ensures Kept(code, Note(w1, r, [], ObsOf(a), 1), chains[r := ExecChain(code, chains[r], w.next)])
  {
    CoreHistory(code, w.history, w.next, w1.next, chains, r);
    SkipsKept(w.skipped, w.next, w1.next, chains, r, ExecChain(code, chains[r], w.next));
    Noted(w1, r, ObsOf(a));
    Laid(w.frames, chains, r);
    ExecMisused(code, w.misused, w1.misused, w.history, chains, r, w.next);
  }
}
