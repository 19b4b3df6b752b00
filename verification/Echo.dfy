/** The echo client and one handle_client of the echo server at the two ends of a connection.
    Both ends, the kernel and the scheduler interleave freely; every answer of the kernel is an
    event of the run. The pipes are reliable: the end of the stream is seen only after the peer has
    closed and everything it sent was received. */
module Echo {
  import opened Kernel
  import opened Awaitables

  const BUF_SIZE := 256 * 1024
  const LIMIT := 8 * 1024 * 1024 + 99

  datatype Reason = Finished(size: nat) | WriteError(e: int) | ReadError(e: int) | SawClose | Short(n: nat) | Mismatch

  /** echo_client between two answers of the kernel. `buffer` survives from round to round. */
  datatype Client =
    | Composing(size: nat, buffer: seq<byte>)                       // about to fill send_data
    | Writing(data: seq<byte>, buffer: seq<byte>, part: Moved)      // in co_write(send_data)
    | Reading(data: seq<byte>, buffer: seq<byte>, part: Moved)      // in co_read_until(buffer)
    | Left(reason: Reason)                                          // the connection is closed

  /** handle_client between two answers. `waiting`: co_read has seen EAGAIN and was suspended. */
  datatype Server =
    | Serving(buffer: seq<byte>, waiting: bool)                     // in co_read(buffer)
    | Echoing(chunk: seq<byte>, buffer: seq<byte>, part: Moved)     // in co_write(write_buf)
    | Gone(lost: seq<byte>)                                         // returned; `lost` was read but not sent back

  datatype State = State(client: Client, server: Server,
                         up: seq<byte>,       // from client to server, in the kernel
                         down: seq<byte>,     // from server to client, in the kernel
                         sent: seq<byte>,     // all that the client's sends were accepted for
                         got: seq<byte>,      // all that the client's recvs returned
                         echoed: seq<byte>)   // the send_data of the completed rounds

  datatype Event =
    | Compose(data: seq<byte>)
    | ToClient(a: Answer)
    | ToServer(a: Answer)

  const UNMOVED := Moved(0, Starved, 0, 0)

  function Zeros(n: nat): (z: seq<byte>)
    ensures |z| == n
  {
    seq(n, i => 0)
  }

  /** std::vector::resize */
  function Resized(buffer: seq<byte>, n: nat): (r: seq<byte>)
    ensures |r| == n
  {
    if n <= |buffer| then buffer[..n] else buffer + Zeros(n - |buffer|)
  }

  function Start(): State {
    State(Composing(1, []), Serving(Zeros(BUF_SIZE), false), [], [], [], [], [])
  }

  // ---- Client ----

  /** The client after co_read_until has reported. */
  function Judge(data: seq<byte>, buffer: seq<byte>, report: IoResult): Client {
    match report
    case Err(e) => Left(ReadError(e))
    case Ok(n) =>
      if n == 0 then Left(SawClose)
      else if n != |data| then Left(Short(n))
      else if buffer != data then Left(Mismatch)
      else if 2 * |data| < LIMIT then Composing(2 * |data|, buffer)
      else Left(Finished(2 * |data|))
  }

  function ComposeStep(s: State, data: seq<byte>): State {
    if s.client.Composing? && |data| == s.client.size then
      s.(client := Writing(data, s.client.buffer, UNMOVED))
    else s
  }

  predicate ClientMayWrite(c: Client) {
    c.Writing? && c.part.moved < |c.data|
  }

  function ClientWrites(s: State, res: int): State
    requires ClientMayWrite(s.client) && res <= |s.client.data| - s.client.part.moved
  {
    var c := s.client;
    if res > 0 || Stall(Sending, res) then
      var part := Further(c.part, Sending, res);
      var moved := c.data[c.part.moved..part.moved];
      var t := s.(up := s.up + moved, sent := s.sent + moved);
      if part.moved < |c.data| then t.(client := Writing(c.data, c.buffer, part))
      else t.(client := Reading(c.data, Resized(c.buffer, |c.data|), UNMOVED))
    else
      s.(client := Left(WriteError(WriteReport(Ended(c.part, res), |c.data|).e)))
  }

  predicate ClientMayRead(c: Client) {
    c.Reading? && c.part.moved < |c.data| == |c.buffer|
  }

  function ClientReads(s: State, res: int): State
    requires ClientMayRead(s.client) && res <= |s.client.data| - s.client.part.moved && res <= |s.down|
  {
    var c := s.client;
    if res > 0 || Stall(Receiving, res) then
      var part := Further(c.part, Receiving, res);
      var moved := s.down[..Gain(res)];
      var buffer := Overlay(c.buffer, c.part.moved, moved);
      var t := s.(down := s.down[Gain(res)..], got := s.got + moved);
      if part.moved < |c.data| then t.(client := Reading(c.data, buffer, part))
      else
        var next := Judge(c.data, buffer, ReadReport(part.(verdict := Filled), |c.data|));
        t.(client := next,
           echoed := if next.Composing? || (next.Left? && next.reason.Finished?) then s.echoed + c.data else s.echoed)
    else
      s.(client := Judge(c.data, c.buffer, ReadReport(Ended(c.part, res), |c.data|)))
  }

  // ---- Server ----

  predicate ServerMayRead(v: Server) {
    v.Serving? && |v.buffer| == BUF_SIZE
  }

  /** An answer to co_read: only the first EAGAIN suspends it, a second one is an error. */
  function ServerReads(s: State, res: int): State
    requires ServerMayRead(s.server) && res <= BUF_SIZE && res <= |s.up|
  {
    var v := s.server;
    if res == 0 - EAGAIN && !v.waiting then s.(server := Serving(v.buffer, true))
    else if Plain(res).Err? || Plain(res).n == 0 then s.(server := Gone([]))
    else
      var buffer := Overlay(v.buffer, 0, s.up[..res]);
      s.(server := Echoing(buffer[..res], buffer, UNMOVED), up := s.up[res..])
  }

  predicate ServerMayWrite(v: Server) {
    v.Echoing? && v.part.moved < |v.chunk|
  }

  function ServerWrites(s: State, res: int): State
    requires ServerMayWrite(s.server) && res <= |s.server.chunk| - s.server.part.moved
  {
    var v := s.server;
    if res > 0 || Stall(Sending, res) then
      var part := Further(v.part, Sending, res);
      var t := s.(down := s.down + v.chunk[v.part.moved..part.moved]);
      if part.moved < |v.chunk| then t.(server := Echoing(v.chunk, v.buffer, part))
      else t.(server := Serving(v.buffer, false))
    else
      s.(server := Gone(v.chunk[v.part.moved..]))
  }

  // ---- Steps and runs ----

  /** The end of a stream is reported only when the peer has closed and the pipe is empty. */
  predicate Honest(a: Answer, closed: bool, pipe: seq<byte>) {
    a.Nothing? ==> closed && pipe == []
  }

  /** A step that the state does not allow changes nothing. */
  function Step(s: State, e: Event): State {
    match e
    case Compose(data) => ComposeStep(s, data)
    case ToClient(a) =>
      if ClientMayWrite(s.client) then
        var left := |s.client.data| - s.client.part.moved;
        ClientWrites(s, Resolve(a, left, left))
      else if ClientMayRead(s.client) && Honest(a, s.server.Gone?, s.down) then
        ClientReads(s, Resolve(a, |s.client.data| - s.client.part.moved, |s.down|))
      else s
    case ToServer(a) =>
      if ServerMayWrite(s.server) then
        var left := |s.server.chunk| - s.server.part.moved;
        ServerWrites(s, Resolve(a, left, left))
      else if ServerMayRead(s.server) && Honest(a, s.client.Left?, s.up) then
        ServerReads(s, Resolve(a, BUF_SIZE, |s.up|))
      else s
  }

  /** Steps taken one after another, the last one last. */
  function Run(s: State, es: seq<Event>): State {
    if es == [] then s else Step(Run(s, es[..|es| - 1]), es[|es| - 1])
  }

  // ---- Invariant ----

  /** Read by the server and not sent back. */
  function Held(v: Server): seq<byte> {
    match v
    case Serving(_, _) => []
    case Echoing(chunk, _, part) => if part.moved <= |chunk| then chunk[part.moved..] else []
    case Gone(lost) => lost
  }

  ghost predicate Conserved(s: State) {
    s.sent == s.got + s.down + Held(s.server) + s.up
  }

  ghost predicate ServerOk(v: Server) {
    match v
    case Serving(buffer, _) => |buffer| == BUF_SIZE
    case Echoing(chunk, buffer, part) => |buffer| == BUF_SIZE && part.moved < |chunk|
    case Gone(_) => true
  }

  /** Where the client stands in its round, and that all earlier rounds came back complete. */
  ghost predicate RoundOk(c: Client, sent: seq<byte>, got: seq<byte>, echoed: seq<byte>) {
    match c
    case Composing(size, _) => size > 0 && sent == got == echoed && |echoed| == size - 1
    case Writing(data, _, part) =>
      && part.moved < |data| && |echoed| == |data| - 1
      && sent == echoed + data[..part.moved] && got == echoed
    case Reading(data, buffer, part) =>
      && part.moved < |data| == |buffer| && |echoed| == |data| - 1
      && sent == echoed + data && got == echoed + buffer[..part.moved]
    case Left(Finished(size)) => size >= LIMIT && sent == got == echoed && |echoed| == size - 1
    case Left(Mismatch) => false
    case Left(_) => true
  }

  ghost predicate Inv(s: State) {
    && Conserved(s) && ServerOk(s.server)
    && RoundOk(s.client, s.sent, s.got, s.echoed)
    && (s.client.Left? && (s.client.reason.SawClose? || s.client.reason.Short?) ==> s.server.Gone?)
  }

  // ---- Steps keep the invariant ----

  /** A prefix of the bytes after `got` is a prefix of the rest of `data`. */
  lemma NextBytes(echoed: seq<byte>, data: seq<byte>, buffer: seq<byte>, moved: nat, down: seq<byte>, rest: seq<byte>,
                  n: nat)
    requires moved + n <= |data| == |buffer| && n <= |down|
    requires echoed + data == (echoed + buffer[..moved]) + down + rest
    ensures buffer[..moved] == data[..moved]
    ensures down[..n] == data[moved..moved + n]
  {
    var all := echoed + data;
    var e := |echoed|;
    assert all[e..e + moved] == data[..moved];
    assert all[e..e + moved] == buffer[..moved];
    assert all[e + moved..e + moved + n] == data[moved..moved + n];
    assert all[e + moved..e + moved + n] == down[..n];
  }

  lemma ShiftDown(got: seq<byte>, down: seq<byte>, held: seq<byte>, up: seq<byte>, n: nat)
    requires n <= |down|
    ensures got + down + held + up == (got + down[..n]) + down[n..] + held + up
  {
    assert down == down[..n] + down[n..];
  }

  lemma ShiftUp(got: seq<byte>, down: seq<byte>, up: seq<byte>, n: nat)
    requires n <= |up|
    ensures got + down + [] + up == got + down + up[..n] + up[n..]
  {
    assert up == up[..n] + up[n..];
  }

  /** The client's side of having the next `n` bytes accepted. */
  lemma RoundWrites(sent: seq<byte>, echoed: seq<byte>, data: seq<byte>, moved: nat, n: nat)
    requires moved + n <= |data| && sent == echoed + data[..moved]
    ensures sent + data[moved..moved + n] == echoed + data[..moved + n]
    ensures moved + n == |data| ==> data[..moved + n] == data
  {
    assert data[..moved] + data[moved..moved + n] == data[..moved + n];
  }

  lemma ClientWritesKeeps(s: State, res: int)
    requires Inv(s) && ClientMayWrite(s.client) && res <= |s.client.data| - s.client.part.moved
    ensures Inv(ClientWrites(s, res))
  {
    if res > 0 || Stall(Sending, res) {
      var c, t := s.client, ClientWrites(s, res);
      RoundWrites(s.sent, s.echoed, c.data, c.part.moved, Gain(res));
      assert Conserved(t);
      assert t.client.Reading? ==> t.client.buffer[..0] == [];
      assert RoundOk(t.client, t.sent, t.got, t.echoed);
    }
  }

  /** The client's side of receiving the next `n` bytes. */
  lemma RoundReads(s: State, n: nat)
    requires Inv(s) && ClientMayRead(s.client) && 0 < n <= |s.client.data| - s.client.part.moved && n <= |s.down|
    ensures var c := s.client;
            var buffer := Overlay(c.buffer, c.part.moved, s.down[..n]);
            && s.got + s.down[..n] == s.echoed + buffer[..c.part.moved + n]
            && (c.part.moved + n == |c.data| ==> buffer == c.data && buffer[..|c.data|] == buffer)
  {
    var c := s.client;
    NextBytes(s.echoed, c.data, c.buffer, c.part.moved, s.down, Held(s.server) + s.up, n);
    var buffer := Overlay(c.buffer, c.part.moved, s.down[..n]);
    assert buffer[..c.part.moved + n] == c.buffer[..c.part.moved] + s.down[..n];
  }

  lemma ClientReadsKeeps(s: State, res: int)
    requires Inv(s) && ClientMayRead(s.client) && res <= |s.client.data| - s.client.part.moved && res <= |s.down|
    requires res == 0 ==> s.server.Gone?
    ensures Inv(ClientReads(s, res))
  {
    if res > 0 {
      ShiftDown(s.got, s.down, Held(s.server), s.up, res);
      RoundReads(s, res);
    } else {
      assert s.got + s.down[..0] == s.got && s.down[0..] == s.down;
      assert Overlay(s.client.buffer, s.client.part.moved, s.down[..0]) == s.client.buffer;
    }
  }

  lemma ServerReadsKeeps(s: State, res: int)
    requires Inv(s) && ServerMayRead(s.server) && res <= BUF_SIZE && res <= |s.up|
    ensures Inv(ServerReads(s, res))
  {
    if res > 0 {
      ShiftUp(s.got, s.down, s.up, res);
      var buffer := Overlay(s.server.buffer, 0, s.up[..res]);
      assert buffer[..res] == s.up[..res];
      assert buffer[..res][0..] == buffer[..res];
    }
  }

  lemma MoveDown(got: seq<byte>, down: seq<byte>, chunk: seq<byte>, up: seq<byte>, m: nat, n: nat)
    requires m <= n <= |chunk|
    ensures got + down + chunk[m..] + up == got + (down + chunk[m..n]) + chunk[n..] + up
  {
    assert chunk[m..] == chunk[m..n] + chunk[n..];
  }

  lemma ServerWritesKeeps(s: State, res: int)
    requires Inv(s) && ServerMayWrite(s.server) && res <= |s.server.chunk| - s.server.part.moved
    ensures Inv(ServerWrites(s, res))
  {
    var v := s.server;
    if res > 0 || Stall(Sending, res) {
      var t, n := ServerWrites(s, res), v.part.moved + Gain(res);
      MoveDown(s.got, s.down, v.chunk, s.up, v.part.moved, n);
      assert Held(t.server) == v.chunk[n..];
      assert Conserved(t);
    }
  }

  lemma ComposeKeeps(s: State, data: seq<byte>)
    requires Inv(s)
    ensures Inv(ComposeStep(s, data))
  {
    assert |data| > 0 ==> data[..0] == [];
  }

  lemma ToClientKeeps(s: State, a: Answer)
    requires Inv(s)
    ensures Inv(Step(s, ToClient(a)))
  {
    if ClientMayWrite(s.client) {
      var left := |s.client.data| - s.client.part.moved;
      ClientWritesKeeps(s, Resolve(a, left, left));
    } else if ClientMayRead(s.client) && Honest(a, s.server.Gone?, s.down) {
      ClientReadsKeeps(s, Resolve(a, |s.client.data| - s.client.part.moved, |s.down|));
    }
  }

  lemma ToServerKeeps(s: State, a: Answer)
    requires Inv(s)
    ensures Inv(Step(s, ToServer(a)))
  {
    if ServerMayWrite(s.server) {
      var left := |s.server.chunk| - s.server.part.moved;
      ServerWritesKeeps(s, Resolve(a, left, left));
    } else if ServerMayRead(s.server) && Honest(a, s.client.Left?, s.up) {
      ServerReadsKeeps(s, Resolve(a, BUF_SIZE, |s.up|));
    }
  }

  lemma StepKeepsInv(s: State, e: Event)
    requires Inv(s)
    ensures Inv(Step(s, e))
  {
    match e
    case Compose(data) => ComposeKeeps(s, data);
    case ToClient(a) => ToClientKeeps(s, a);
    case ToServer(a) => ToServerKeeps(s, a);
  }

  lemma {:induction false} RunInv(es: seq<Event>)
    ensures Inv(Run(Start(), es))
  {
    if es != [] {
      RunInv(es[..|es| - 1]);
      StepKeepsInv(Run(Start(), es[..|es| - 1]), es[|es| - 1]);
    }
  }

  // ---- Guarantees ----

  /** Conservation, in every run: what the client sent is what it received, then what is under
      way to it, then what the server holds, then what is under way to the server. */
  lemma BytesConserved(es: seq<Event>)
    ensures var s := Run(Start(), es);
            s.sent == s.got + s.down + Held(s.server) + s.up && s.got <= s.sent
  {
    RunInv(es);
  }

  /** No run ends in a mismatch; after every completed round, and after the last one, everything
      sent has come back, byte for byte, and nothing is left in between. */
  lemma RoundsComeBack(es: seq<Event>)
    ensures var s := Run(Start(), es);
            && s.client != Left(Mismatch)
            && (s.client.Composing? || (s.client.Left? && s.client.reason.Finished?)
                ==> s.got == s.sent == s.echoed && s.up == s.down == Held(s.server) == [])
            && (s.client.Composing? ==> |s.echoed| == s.client.size - 1)
            && (s.client.Left? && s.client.reason.Finished? ==> |s.echoed| >= LIMIT - 1)
  {
    RunInv(es);
    var s := Run(Start(), es);
    assert Conserved(s);
  }

  /** While the client reads, its buffer holds a prefix of what it sent in this round. */
  lemma BufferHoldsPrefix(es: seq<Event>)
    ensures var c := Run(Start(), es).client;
            c.Reading? ==> c.part.moved < |c.data| == |c.buffer| && c.buffer[..c.part.moved] == c.data[..c.part.moved]
  {
    RunInv(es);
    var s := Run(Start(), es);
    if s.client.Reading? {
      NextBytes(s.echoed, s.client.data, s.client.buffer, s.client.part.moved, s.down, Held(s.server) + s.up, 0);
    }
  }

  /** A short count or a close is reported to the client only after the server gave up. */
  lemma ShortOnlyAfterServerLeft(es: seq<Event>)
    ensures var s := Run(Start(), es);
            s.client.Left? && (s.client.reason.SawClose? || s.client.reason.Short?) ==> s.server.Gone?
  {
    RunInv(es);
  }

  /** No byte is stuck: while the client reads and the server lives, some answer of the kernel
      moves bytes. */
  lemma SomeAnswerMoves(es: seq<Event>)
    ensures var s := Run(Start(), es);
            s.client.Reading? && !s.server.Gone?
            ==> || (exists n :: Step(s, ToClient(Transfer(n))).got != s.got)
                || (exists n :: Step(s, ToServer(Transfer(n))).up != s.up)
                || (exists n :: Step(s, ToServer(Transfer(n))).down != s.down)
  {
    RunInv(es);
    var s := Run(Start(), es);
    if s.client.Reading? && !s.server.Gone? {
      var c := s.client;
      assert |s.sent| == |s.echoed| + |c.data| && |s.got| == |s.echoed| + c.part.moved;
      if s.down != [] {
        assert |Step(s, ToClient(Transfer(1))).got| == |s.got| + 1;
      } else if s.server.Echoing? {
        assert |Step(s, ToServer(Transfer(1))).down| == |s.down| + 1;
      } else {
        assert |Step(s, ToServer(Transfer(1))).up| == |s.up| - 1;
      }
    }
  }

  /** A spurious readiness report makes the server drop the connection in mid-round: the second
      EAGAIN of one co_read is an error to handle_client. */
  lemma SpuriousReadinessLosesConnection()
    ensures Run(Start(), [ToServer(NotReady), ToServer(NotReady)]).server == Gone([])
  {
    var s := Run(Start(), []);
    var one := [ToServer(NotReady)];
    assert one[..0] == [];
    assert Run(Start(), one) == Step(s, ToServer(NotReady));
    var two := [ToServer(NotReady), ToServer(NotReady)];
    assert two[..1] == one;
  }
}
