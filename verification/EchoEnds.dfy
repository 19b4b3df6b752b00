/** When either end of the echo connection leaves, exactly; and that as long as neither has left, the
    exchange can still be finished. */
module EchoEnds {
  import opened Program
  import opened Kernel
  import opened Awaitables
  import opened Echo

  // ---- The client ----

  predicate Broken(a: Answer) {
    a.Fail? && a.err != EAGAIN
  }

  /** The answer brings all the bytes of the round that are still missing. */
  predicate BringsRest(a: Answer, missing: nat, avail: nat) {
    a.Transfer? && a.most >= missing && avail >= missing
  }

  /** What the kernel's answer means to a client: a reason to leave, or none. */
  ghost function ReasonFor(s: State, a: Answer): Option<Reason> {
    match s.client
    case Writing(_, _, _) => if Broken(a) then Some(WriteError(a.err)) else None
    case Reading(data, _, part) =>
      if Broken(a) then Some(ReadError(a.err))
      else if a.Nothing? && s.server.Gone? && s.down == [] then
        Some(if part.stalls > 0 || part.moved == 0 then SawClose else Short(part.moved))
      else if part.moved < |data| && BringsRest(a, |data| - part.moved, |s.down|) && 2 * |data| >= LIMIT then
        Some(Finished(2 * |data|))
      else None
    case _ => None
  }

  lemma WriterLeavesIff(s: State, a: Answer)
    requires Inv(s) && s.client.Writing?
    ensures var c := Step(s, ToClient(a)).client;
            if ReasonFor(s, a).Some? then c == Left(ReasonFor(s, a).value) else !c.Left?
  {
  }

  lemma ReaderLeavesIff(s: State, a: Answer)
    requires Inv(s) && s.client.Reading?
    ensures var c := Step(s, ToClient(a)).client;
            if ReasonFor(s, a).Some? then c == Left(ReasonFor(s, a).value) else !c.Left?
  {
    if Honest(a, s.server.Gone?, s.down) {
      var missing := |s.client.data| - s.client.part.moved;
      var res := Resolve(a, missing, |s.down|);
      if res > 0 { RoundReads(s, res); }
    }
  }

  /** In every run: an answer of the kernel makes the client leave exactly for these reasons, and no
      other step makes it leave. */
  lemma ClientLeavesIff(es: seq<Event>, e: Event)
    requires !Run(Start(), es).client.Left?
    ensures var s := Run(Start(), es);
            var why := if e.ToClient? then ReasonFor(s, e.a) else None;
            if why.Some? then Step(s, e).client == Left(why.value) else !Step(s, e).client.Left?
  {
    RunInv(es);
    var s := Run(Start(), es);
    if e.ToClient? && s.client.Writing? {
      WriterLeavesIff(s, e.a);
    } else if e.ToClient? && s.client.Reading? {
      ReaderLeavesIff(s, e.a);
    }
  }

  // ---- The server ----

  /** What the kernel's answer means to the server: while it reads, the end of the stream, an error, or the
      second answer that is not ready; while it writes, an error. */
  ghost predicate SendsAway(s: State, a: Answer) {
    match s.server
    case Serving(_, waiting) =>
      || (a.Nothing? && s.client.Left? && s.up == [])
      || Broken(a)
      || (waiting && Unready(a, BUF_SIZE, |s.up|))
    case Echoing(_, _, _) => Broken(a)
    case Gone(_) => true
  }

  /** In every run: an answer of the kernel makes the server leave exactly then, and no other step makes
      it leave; and it has seen an answer that was not ready exactly if the last one in this co_read was. */
  lemma ServerLeavesIff(es: seq<Event>, e: Event)
    requires !Run(Start(), es).server.Gone?
    ensures var s := Run(Start(), es);
            && (Step(s, e).server.Gone? <==> e.ToServer? && SendsAway(s, e.a))
            && (Waiting(Step(s, e).server)
                <==> if e.ToServer? && s.server.Serving?
                     then (Unready(e.a, BUF_SIZE, |s.up|) && !s.server.waiting)
                          || (s.server.waiting && e.a.Nothing? && !(s.client.Left? && s.up == []))
                     else Waiting(s.server))
  {
    RunInv(es);
    var s := Run(Start(), es);
    if e.ToServer? { UnreadyIff(e.a, BUF_SIZE, |s.up|); }
  }

  predicate Waiting(v: Server) {
    v.Serving? && v.waiting
  }

  // ---- The exchange can be finished ----

  /** How much is left to do: in further rounds, in this one, and of its bytes on their way. */
  function RoundsLeft(c: Client): nat {
    match c
    case Composing(size, _) => if size < LIMIT then LIMIT - size else 0
    case Writing(data, _, _) => if |data| < LIMIT then LIMIT - |data| else 0
    case Reading(data, _, _) => if |data| < LIMIT then LIMIT - |data| else 0
    case Left(_) => 0
  }

  function PhasesLeft(c: Client): nat {
    if c.Composing? then 2 else if c.Writing? then 1 else 0
  }

  function WayLeft(s: State): nat {
    |s.down| + 2 * |Held(s.server)| + 3 * |s.up|
  }

  ghost predicate LessLeft(t: State, s: State) {
    || RoundsLeft(t.client) < RoundsLeft(s.client)
    || (RoundsLeft(t.client) == RoundsLeft(s.client)
        && (PhasesLeft(t.client) < PhasesLeft(s.client)
            || (PhasesLeft(t.client) == PhasesLeft(s.client) && WayLeft(t) < WayLeft(s))))
  }

  ghost predicate IsFinished(s: State) {
    s.client.Left? && s.client.reason.Finished?
  }

  /** Neither end has left. */
  ghost predicate Running(s: State) {
    Inv(s) && !s.client.Left? && !s.server.Gone?
  }

  lemma ComposesOn(s: State)
    requires Running(s) && s.client.Composing?
    ensures var t := Step(s, Compose(Zeros(s.client.size))); Running(t) && LessLeft(t, s)
  {
    StepKeepsInv(s, Compose(Zeros(s.client.size)));
  }

  lemma WritesOn(s: State)
    requires Running(s) && s.client.Writing?
    ensures var t := Step(s, ToClient(Transfer(|s.client.data|))); Running(t) && LessLeft(t, s)
  {
    StepKeepsInv(s, ToClient(Transfer(|s.client.data|)));
  }

  /** One byte comes back; the round goes on, or the next one begins, or the client leaves. */
  lemma ByteReceived(s: State)
    requires ClientMayRead(s.client) && s.down != []
    ensures var t := Step(s, ToClient(Transfer(1)));
            && t.server == s.server && t.up == s.up && |t.down| == |s.down| - 1
            && (t.client.Reading? ==> t.client.data == s.client.data) && !t.client.Writing?
            && (t.client.Composing? ==> t.client.size == 2 * |s.client.data| < LIMIT)
  {
  }

  lemma ReceivesOn(s: State)
    requires Running(s) && s.client.Reading? && s.down != []
    ensures var t := Step(s, ToClient(Transfer(1))); IsFinished(t) || (Running(t) && LessLeft(t, s))
  {
    var t := Step(s, ToClient(Transfer(1)));
    StepKeepsInv(s, ToClient(Transfer(1)));
    ReaderLeavesIff(s, Transfer(1));
    ByteReceived(s);
    if !t.client.Left? { ReceivedLess(s, t); }
  }

  lemma ReceivedLess(s: State, t: State)
    requires s.client.Reading? && |s.client.data| > 0
    requires t.server == s.server && t.up == s.up && |t.down| == |s.down| - 1
    requires t.client.Reading? || t.client.Composing?
    requires t.client.Reading? ==> t.client.data == s.client.data
    requires t.client.Composing? ==> t.client.size == 2 * |s.client.data| < LIMIT
    ensures LessLeft(t, s)
  {
  }

  lemma ServesOn(s: State)
    requires Running(s) && s.client.Reading? && s.down == []
    ensures var t := Step(s, ToServer(Transfer(1))); Running(t) && LessLeft(t, s)
  {
    StepKeepsInv(s, ToServer(Transfer(1)));
    assert |s.sent| == |s.echoed| + |s.client.data| && |s.got| == |s.echoed| + s.client.part.moved;
    assert |Held(s.server)| + |s.up| > 0;
  }

  lemma OneStep(s: State, e: Event)
    ensures Run(s, [e]) == Step(s, e)
  {
    assert [e][..0] == [];
    assert Run(s, []) == s;
  }

  lemma {:induction false} RunOn(s: State, es: seq<Event>, fs: seq<Event>)
    ensures Run(s, es + fs) == Run(Run(s, es), fs)
    decreases |fs|
  {
    if fs == [] {
      assert es + fs == es;
    } else {
      var n := |fs| - 1;
      RunOn(s, es, fs[..n]);
      assert (es + fs)[..|es + fs| - 1] == es + fs[..n];
    }
  }

  /** One useful event. */
  lemma Advances(s: State) returns (e: Event)
    requires Running(s)
    ensures IsFinished(Step(s, e)) || (Running(Step(s, e)) && LessLeft(Step(s, e), s))
  {
    if s.client.Composing? {
      e := Compose(Zeros(s.client.size));
      ComposesOn(s);
    } else if s.client.Writing? {
      e := ToClient(Transfer(|s.client.data|));
      WritesOn(s);
    } else if s.down != [] {
      e := ToClient(Transfer(1));
      ReceivesOn(s);
    } else {
      e := ToServer(Transfer(1));
      ServesOn(s);
    }
  }

  lemma {:induction false} CanFinishFrom(s: State) returns (es: seq<Event>)
    requires Running(s)
    ensures IsFinished(Run(s, es))
    decreases RoundsLeft(s.client), PhasesLeft(s.client), WayLeft(s)
  {
    var e := Advances(s);
    OneStep(s, e);
    if IsFinished(Step(s, e)) {
      es := [e];
    } else {
      var fs := CanFinishFrom(Step(s, e));
      RunOn(s, [e], fs);
      es := [e] + fs;
    }
  }

  /** Whatever has happened, as long as neither end has left, the exchange can go on to its end, at which
      all the client sent has come back. */
  lemma CanAlwaysFinish(es: seq<Event>)
    requires !Run(Start(), es).client.Left? && !Run(Start(), es).server.Gone?
    ensures exists fs :: IsFinished(Run(Start(), es + fs)) && Run(Start(), es + fs).got == Run(Start(), es + fs).sent
  {
    RunInv(es);
    var fs := CanFinishFrom(Run(Start(), es));
    RunOn(Start(), es, fs);
    RunInv(es + fs);
    assert IsFinished(Run(Start(), es + fs));
  }
}
