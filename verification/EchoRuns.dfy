/** What one connection of the server, and the client, come to: as functions of what the kernel will
    answer, made of blocking transfers and single reads, with no loop state and no buffers. */
module EchoRuns {
  import opened Program
  import opened Kernel
  import opened Awaitables
  import opened Echo

  // ---- handle_client ----

  datatype Ending = PeerClosed | ReadFailed(e: int) | WriteFailed(e: int)

  /** The connection took `received` bytes and sent the first `back` of them back, using `calls` answers.
      Its last co_read began at answer `lastAt`, when it had taken `before` bytes. `None`: it is still
      suspended when the kernel falls silent. */
  datatype Served = Served(ending: Option<Ending>, received: nat, back: nat, calls: nat, lastAt: nat, before: nat)

  /** Echoing from answer `at` on, while `avail` bytes are still to come. */
  function ServerRun(script: seq<Answer>, at: nat, avail: nat): (s: Served)
    requires at <= |script|
    ensures s.back <= s.received <= avail && at + s.calls <= |script|
    decreases |script| - at
  {
    var d, used := Deciding(script, at, avail, BUF_SIZE), Asked(script, at, avail, BUF_SIZE);
    if d.None? then Served(None, 0, 0, used, at, 0)
    else if d.value < 0 then Served(Some(ReadFailed(0 - d.value)), 0, 0, used, at, 0)
    else if d.value == 0 then Served(Some(PeerClosed), 0, 0, used, at, 0)
    else
      var t := SentOut(script, at + used, d.value);
      match t.verdict
      case Failed(e) => Served(Some(WriteFailed(e)), d.value, t.moved, used + t.calls, at, 0)
      case Filled => Later(ServerRun(script, at + used + t.calls, avail - d.value), d.value, used + t.calls)
      case _ => Served(None, d.value, t.moved, used + t.calls, at, 0)
  }

  /** The same connection, counted from `calls` answers and `received` echoed bytes earlier. */
  function Later(s: Served, received: nat, calls: nat): Served {
    s.(received := s.received + received, back := s.back + received, calls := s.calls + calls,
       before := s.before + received)
  }

  /** The blocking send of a whole buffer. */
  function SentOut(script: seq<Answer>, at: nat, size: nat): (t: Moved)
    requires at <= |script|
    ensures t.moved <= size && at + t.calls <= |script|
  {
    BlockingSound(Sending, script, at, size, size);
    Blocking(Sending, script, at, size, size)
  }

  /** The blocking read that fills a buffer. */
  function ReadIn(script: seq<Answer>, at: nat, avail: nat, need: nat): (t: Moved)
    requires at <= |script|
    ensures t.moved <= need && t.moved <= avail && at + t.calls <= |script|
  {
    BlockingSound(Receiving, script, at, avail, need);
    Blocking(Receiving, script, at, avail, need)
  }

  lemma ZeroIsNothing(a: Answer, len: nat, avail: nat)
    ensures Resolve(a, len, avail) == 0 <==> a.Nothing?
  {
  }

  lemma ErrorIsFail(a: Answer, len: nat, avail: nat, e: int)
    requires e > 0 && e != EAGAIN
    ensures Resolve(a, len, avail) == 0 - e <==> a.Fail? && a.err == e
  {
  }

  /** A blocking transfer fails with the error that the kernel gave last. */
  lemma {:induction false} FailedLast(way: Way, script: seq<Answer>, at: nat, avail: nat, need: nat)
    requires at <= |script| && Blocking(way, script, at, avail, need).verdict.Failed?
    ensures var t := Blocking(way, script, at, avail, need);
            && 0 < t.calls && at + t.calls <= |script|
            && script[at + t.calls - 1].Fail? && script[at + t.calls - 1].err == t.verdict.err
    decreases |script| - at
  {
    var res := Resolve(script[at], need, avail);
    FirstAnswer(way, script, at, avail, need, res);
    if res > 0 || Stall(way, res) {
      FailedLast(way, script, at + 1, avail - Gain(res), need - Gain(res));
    } else {
      ErrorIsFail(script[at], need, avail, 0 - res);
    }
  }

  // ---- Why the server leaves ----

  /** The last co_read and, if it brought bytes, the send of these. */
  ghost predicate LastChunk(script: seq<Answer>, avail: nat, s: Served, d: Option<int>, used: nat) {
    && s.lastAt <= |script| && s.before <= avail
    && d == Deciding(script, s.lastAt, avail - s.before, BUF_SIZE)
    && used == Asked(script, s.lastAt, avail - s.before, BUF_SIZE)
  }

  /** The connection ended with its last co_read: zero or an error decided it. */
  ghost predicate ReadEnded(script: seq<Answer>, at: nat, s: Served, used: nat) {
    s.received == s.back == s.before && at + s.calls == s.lastAt + used
  }

  /** ... or with the send of the chunk of `n` bytes that it brought. */
  ghost predicate SendEnded(script: seq<Answer>, at: nat, s: Served, used: nat, n: nat, verdict: Verdict) {
    && s.lastAt + used <= |script| && s.received == s.before + n
    && var t := SentOut(script, s.lastAt + used, n);
       t.verdict == verdict && s.back == s.before + t.moved && at + s.calls == s.lastAt + used + t.calls
  }

  /** The kernel's last answer to the connection. */
  ghost predicate LastAnswer(script: seq<Answer>, at: nat, s: Served, a: Answer) {
    0 < s.calls && at + s.calls <= |script| && script[at + s.calls - 1] == a
  }

  ghost predicate Because(script: seq<Answer>, at: nat, avail: nat, s: Served, d: Option<int>, used: nat) {
    && LastChunk(script, avail, s, d, used)
    && match s.ending
       case Some(PeerClosed) => d == Some(0) && ReadEnded(script, at, s, used) && LastAnswer(script, at, s, Nothing)
       case Some(ReadFailed(e)) =>
         && e > 0 && d == Some(0 - e) && ReadEnded(script, at, s, used)
         && (if e == EAGAIN then TwiceUnready(script, s.lastAt, avail - s.before, BUF_SIZE)
             else LastAnswer(script, at, s, Fail(e)))
       case Some(WriteFailed(e)) =>
         && d.Some? && d.value > 0 && SendEnded(script, at, s, used, d.value, Failed(e))
         && e > 0 && LastAnswer(script, at, s, Fail(e))
       case None =>
         && at + s.calls == |script|
         && (if d.None? then ReadEnded(script, at, s, used)
             else d.value > 0 && SendEnded(script, at, s, used, d.value, Starved))
  }

  lemma ReadStops(script: seq<Answer>, at: nat, avail: nat, d: Option<int>, used: nat)
    requires at <= |script| && d == Deciding(script, at, avail, BUF_SIZE) && used == Asked(script, at, avail, BUF_SIZE)
    requires d.None? || d.value <= 0
    ensures Because(script, at, avail, ServerRun(script, at, avail), d, used)
  {
    if d.Some? {
      SpuriousReadFails(script, at, avail, BUF_SIZE);
      ZeroIsNothing(script[at + used - 1], BUF_SIZE, avail);
      if d.value < 0 && d.value != 0 - EAGAIN { ErrorIsFail(script[at + used - 1], BUF_SIZE, avail, 0 - d.value); }
    }
  }

  /** What the connection comes to when its first chunk is not sent whole. */
  function Unsent(at: nat, n: nat, used: nat, t: Moved): Served {
    Served(if t.verdict.Failed? then Some(WriteFailed(t.verdict.err)) else None, n, t.moved, used + t.calls, at, 0)
  }

  lemma UnsentRun(script: seq<Answer>, at: nat, avail: nat, n: nat, used: nat, t: Moved)
    requires at <= |script| && Some(n) == Deciding(script, at, avail, BUF_SIZE) && n > 0
    requires used == Asked(script, at, avail, BUF_SIZE) && t == SentOut(script, at + used, n) && !t.verdict.Filled?
    ensures ServerRun(script, at, avail) == Unsent(at, n, used, t)
  {
  }

  lemma UnsentBecause(script: seq<Answer>, at: nat, avail: nat, n: nat, used: nat, t: Moved)
    requires at <= |script| && Some(n) == Deciding(script, at, avail, BUF_SIZE) && n > 0
    requires used == Asked(script, at, avail, BUF_SIZE) && t == SentOut(script, at + used, n) && !t.verdict.Filled?
    ensures Because(script, at, avail, Unsent(at, n, used, t), Some(n), used)
  {
    BlockingSound(Sending, script, at + used, n, n);
    if t.verdict.Failed? { FailedLast(Sending, script, at + used, n, n); }
  }

  lemma SendStops(script: seq<Answer>, at: nat, avail: nat, n: nat, used: nat, t: Moved)
    requires at <= |script| && Some(n) == Deciding(script, at, avail, BUF_SIZE) && n > 0
    requires used == Asked(script, at, avail, BUF_SIZE) && t == SentOut(script, at + used, n) && !t.verdict.Filled?
    ensures Because(script, at, avail, ServerRun(script, at, avail), Some(n), used)
  {
    UnsentRun(script, at, avail, n, used, t);
    UnsentBecause(script, at, avail, n, used, t);
  }

  lemma LaterBecause(script: seq<Answer>, at: nat, avail: nat, s: Served, n: nat, calls: nat, d: Option<int>, used: nat)
    requires n <= avail && Because(script, at + calls, avail - n, s, d, used)
    ensures Because(script, at, avail, Later(s, n, calls), d, used)
  {
  }

  /** The co_read at `at` brings `n` bytes and the send of these succeeds, up to answer `at'`. */
  ghost predicate Echoed(script: seq<Answer>, at: nat, avail: nat, n: nat, at': nat) {
    && at < at' <= |script| && Deciding(script, at, avail, BUF_SIZE) == Some(n) && n > 0
    && var used := Asked(script, at, avail, BUF_SIZE);
       var t := SentOut(script, at + used, n);
       t.verdict.Filled? && at' == at + used + t.calls
  }

  lemma GoesOn(script: seq<Answer>, at: nat, avail: nat, n: nat, at': nat, avail': nat)
    requires Echoed(script, at, avail, n, at') && avail' == avail - n
    ensures ServerRun(script, at, avail) == Later(ServerRun(script, at', avail'), n, at' - at)
  {
  }

  ghost predicate Explained(script: seq<Answer>, at: nat, avail: nat, s: Served) {
    exists d, used :: Because(script, at, avail, s, d, used)
  }

  lemma LaterExplained(script: seq<Answer>, at: nat, avail: nat, s: Served, n: nat, calls: nat)
    requires n <= avail && Explained(script, at + calls, avail - n, s)
    ensures Explained(script, at, avail, Later(s, n, calls))
  {
    var d, used :| Because(script, at + calls, avail - n, s, d, used);
    LaterBecause(script, at, avail, s, n, calls, d, used);
  }

  lemma ExplainsOn(script: seq<Answer>, at: nat, avail: nat, n: nat, at': nat, avail': nat)
    requires Echoed(script, at, avail, n, at') && avail' == avail - n
    requires Explained(script, at', avail', ServerRun(script, at', avail'))
    ensures Explained(script, at, avail, ServerRun(script, at, avail))
  {
    GoesOn(script, at, avail, n, at', avail');
    LaterExplained(script, at, avail, ServerRun(script, at', avail'), n, at' - at);
  }

  lemma StopsExplained(script: seq<Answer>, at: nat, avail: nat, d: Option<int>, used: nat)
    requires at <= |script| && d == Deciding(script, at, avail, BUF_SIZE) && used == Asked(script, at, avail, BUF_SIZE)
    requires d.None? || d.value <= 0 || !SentOut(script, at + used, d.value).verdict.Filled?
    ensures Explained(script, at, avail, ServerRun(script, at, avail))
  {
    if d.None? || d.value <= 0 {
      ReadStops(script, at, avail, d, used);
    } else {
      SendStops(script, at, avail, d.value, used, SentOut(script, at + used, d.value));
    }
    assert Because(script, at, avail, ServerRun(script, at, avail), d, used);
  }

  /** Why the server leaves: with PeerClosed exactly when the kernel answers its last co_read with the end
      of the stream, with ReadFailed when that co_read is decided by this error, or by not being ready
      twice, with WriteFailed when the blocking send of its last chunk fails with this error; and it stays
      suspended only when the kernel has no answer left. */
  lemma {:induction false} ServerEnds(script: seq<Answer>, at: nat, avail: nat)
    requires at <= |script|
    ensures Explained(script, at, avail, ServerRun(script, at, avail))
    decreases |script| - at
  {
    var d, used := Deciding(script, at, avail, BUF_SIZE), Asked(script, at, avail, BUF_SIZE);
    if d.Some? && d.value > 0 && SentOut(script, at + used, d.value).verdict.Filled? {
      var at' := at + used + SentOut(script, at + used, d.value).calls;
      ServerEnds(script, at', avail - d.value);
      ExplainsOn(script, at, avail, d.value, at', avail - d.value);
    } else {
      StopsExplained(script, at, avail, d, used);
    }
  }

  lemma SendsAll(script: seq<Answer>, at: nat, n: nat)
    requires at < |script| && n > 0 && script[at] == Transfer(n)
    ensures SentOut(script, at, n) == Moved(n, Filled, 0, 1)
  {
    FirstAnswer(Sending, script, at, n, n, n);
  }

  lemma ChunkTaken(script: seq<Answer>, at: nat, avail: nat, n: nat)
    requires at + 1 < |script| && 0 < n <= avail && n <= BUF_SIZE && script[at] == script[at + 1] == Transfer(n)
    ensures Echoed(script, at, avail, n, at + 2)
  {
    SendsAll(script, at + 1, n);
  }

  lemma EchoesChunk(script: seq<Answer>, at: nat, avail: nat, n: nat)
    requires at + 1 < |script| && 0 < n <= avail && n <= BUF_SIZE && script[at] == script[at + 1] == Transfer(n)
    ensures ServerRun(script, at, avail) == Later(ServerRun(script, at + 2, avail - n), n, 2)
  {
    ChunkTaken(script, at, avail, n);
    GoesOn(script, at, avail, n, at + 2, avail - n);
  }

  lemma Closes(script: seq<Answer>, at: nat, avail: nat)
    requires at < |script| && script[at] == Nothing
    ensures ServerRun(script, at, avail) == Served(Some(PeerClosed), 0, 0, 1, at, 0)
  {
  }

  lemma LastChunkEchoed(script: seq<Answer>, at: nat, m: nat)
    requires at + 2 < |script| && 0 < m <= BUF_SIZE
    requires script[at] == script[at + 1] == Transfer(m) && script[at + 2] == Nothing
    ensures ServerRun(script, at, m) == Served(Some(PeerClosed), m, m, 3, at + 2, m)
  {
    EchoesChunk(script, at, m, m);
    Closes(script, at + 2, 0);
  }

  /** A stream that comes as `n` bytes and `m` bytes, however short: the server echoes all of it before
      it leaves. */
  lemma ShortChunksGoOn(script: seq<Answer>, at: nat, n: nat, m: nat)
    requires at + 4 < |script| && 0 < n <= BUF_SIZE && 0 < m <= BUF_SIZE
    requires script[at] == script[at + 1] == Transfer(n) && script[at + 2] == script[at + 3] == Transfer(m)
    requires script[at + 4] == Nothing
    ensures ServerRun(script, at, n + m) == Served(Some(PeerClosed), n + m, n + m, 5, at + 4, n + m)
  {
    EchoesChunk(script, at, n + m, n);
    LastChunkEchoed(script, at + 2, m);
  }

  // ---- echo_client ----

  /** The number of bytes of round r. */
  function Size(r: nat): (n: nat)
    ensures n > r
  {
    if r == 0 then 1 else 2 * Size(r - 1)
  }

  /** What the client sends in its first `r` rounds. */
  function Rounds(gen: nat -> seq<byte>, r: nat): seq<byte> {
    if r == 0 then [] else Rounds(gen, r - 1) + gen(r - 1)
  }

  datatype RoundEnd = Suspended | Leave(reason: Reason) | Complete

  /** One round: `sent` and `got` bytes moved, `calls` answers used. */
  datatype Round = Round(end: RoundEnd, sent: nat, got: nat, calls: nat)

  /** What the report of co_read_until means to the client, when `got` is what it has read. */
  function Judged(report: IoResult, data: seq<byte>, got: seq<byte>): RoundEnd {
    match report
    case Err(e) => Leave(ReadError(e))
    case Ok(n) =>
      if n == 0 then Leave(SawClose)
      else if n != |data| then Leave(Short(n))
      else if got != data then Leave(Mismatch)
      else Complete
  }

  /** Blocking send of `data`, then blocking read of as many bytes of what is left of the stream. */
  function RoundOf(script: seq<Answer>, at: nat, left: seq<byte>, data: seq<byte>): (r: Round)
    requires at <= |script|
    ensures r.sent <= |data| && r.got <= |left| && r.got <= |data| && at + r.calls <= |script|
  {
    var out := SentOut(script, at, |data|);
    match out.verdict
    case Failed(e) => Round(Leave(WriteError(e)), out.moved, 0, out.calls)
    case Filled =>
      var back := ReadIn(script, at + out.calls, |left|, |data|);
      Round(if back.verdict.Starved? then Suspended else Judged(ReadReport(back, |data|), data, left[..back.moved]),
            out.moved, back.moved, out.calls + back.calls)
    case _ => Round(Suspended, out.moved, 0, out.calls)
  }

  /** What of the data went out and what came back decide whether the round is complete, or a mismatch. */
  lemma CompleteIff(script: seq<Answer>, at: nat, left: seq<byte>, data: seq<byte>)
    requires at <= |script| && |data| > 0
    ensures var r := RoundOf(script, at, left, data);
            && (r.end.Complete? <==> r.sent == |data| && left[..r.got] == data)
            && (r.end == Leave(Mismatch) <==> r.sent == |data| && r.got == |data| && left[..r.got] != data)
  {
    BlockingSound(Sending, script, at, |data|, |data|);
    var out := SentOut(script, at, |data|);
    if out.verdict.Filled? { BlockingSound(Receiving, script, at + out.calls, |left|, |data|); }
  }

  /** Each other end of a round, exactly. */
  lemma RoundEndsIff(script: seq<Answer>, at: nat, left: seq<byte>, data: seq<byte>)
    requires at <= |script| && |data| > 0
    ensures var r, out := RoundOf(script, at, left, data), SentOut(script, at, |data|);
            var back := ReadIn(script, at + out.calls, |left|, |data|);
            && (forall e :: r.end == Leave(WriteError(e)) <==> out.verdict == Failed(e))
            && (r.end.Suspended? <==> out.verdict.Starved? || (out.moved == |data| && back.verdict.Starved?))
            && (forall e :: r.end == Leave(ReadError(e)) <==> out.moved == |data| && back.verdict == Failed(e))
            && (r.end == Leave(SawClose) <==>
                  out.moved == |data| && back.verdict.Closed? && (back.stalls > 0 || back.moved == 0))
            && (forall n :: r.end == Leave(Short(n)) <==>
                  out.moved == |data| && back.verdict.Closed? && back.stalls == 0 && back.moved == n && n > 0)
  {
    var out := SentOut(script, at, |data|);
    BlockingSound(Sending, script, at, |data|, |data|);
    BlockingSound(Receiving, script, at + out.calls, |left|, |data|);
  }

  /** The client left for this reason, or is suspended, in round `rounds`. That round began at answer
      `lastAt`, when `before` bytes had come back. */
  datatype Played = Played(reason: Option<Reason>, rounds: nat, sent: nat, got: nat, calls: nat, lastAt: nat,
                           before: nat)

  /** The client from round `r` on: it goes on exactly as long as rounds complete and are not enough. */
  function ClientRun(script: seq<Answer>, at: nat, left: seq<byte>, gen: nat -> seq<byte>, r: nat): (c: Played)
    requires at <= |script|
    ensures r <= c.rounds && at + c.calls <= |script| && c.got <= |left|
    decreases LIMIT - Size(r)
  {
    if Size(r) >= LIMIT then Played(Some(Finished(Size(r))), r, 0, 0, 0, at, 0) else
      var one := RoundOf(script, at, left, gen(r));
      match one.end
      case Suspended => Played(None, r, one.sent, one.got, one.calls, at, 0)
      case Leave(reason) => Played(Some(reason), r, one.sent, one.got, one.calls, at, 0)
      case Complete => After(ClientRun(script, at + one.calls, left[one.got..], gen, r + 1), one)
  }

  /** The same client, counted from one complete round earlier. */
  function After(c: Played, one: Round): Played {
    c.(sent := c.sent + one.sent, got := c.got + one.got, calls := c.calls + one.calls, before := c.before + one.got)
  }

  // ---- Why the client leaves ----

  ghost predicate Sized(gen: nat -> seq<byte>) {
    forall r: nat :: |gen(r)| == Size(r)
  }

  /** The last round decided, whichever it was, or there were enough. */
  ghost predicate LastRound(script: seq<Answer>, at: nat, left: seq<byte>, gen: nat -> seq<byte>, c: Played) {
    && c.before <= |left| && c.lastAt <= |script|
    && if Size(c.rounds) >= LIMIT
       then c.reason == Some(Finished(Size(c.rounds))) && c.sent == c.got == c.before && at + c.calls == c.lastAt
       else
         var last := RoundOf(script, c.lastAt, left[c.before..], gen(c.rounds));
         && !last.end.Complete? && c.reason == (if last.end.Leave? then Some(last.end.reason) else None)
         && c.sent == c.before + last.sent && c.got == c.before + last.got && at + c.calls == c.lastAt + last.calls
  }

  lemma LaterRound(script: seq<Answer>, at: nat, left: seq<byte>, gen: nat -> seq<byte>, one: Round, c: Played)
    requires one.got <= |left| && one.sent == one.got && LastRound(script, at + one.calls, left[one.got..], gen, c)
    ensures LastRound(script, at, left, gen, After(c, one))
  {
    assert left[one.got..][c.before..] == left[one.got + c.before..];
  }

  lemma RoundsMore(gen: nat -> seq<byte>, r: nat, n: nat, left: seq<byte>, got: nat, before: nat)
    requires got <= |left| && before <= |left| - got && left[..got] == gen(r)
    requires Rounds(gen, n) == Rounds(gen, r + 1) + left[got..][..before]
    ensures Rounds(gen, n) == Rounds(gen, r) + left[..got + before]
  {
    assert left[..got + before] == left[..got] + left[got..][..before];
  }

  /** Complete rounds first, what came back in them being what they sent; then the last one. */
  ghost predicate Told(script: seq<Answer>, at: nat, left: seq<byte>, gen: nat -> seq<byte>, r: nat, c: Played) {
    && LastRound(script, at, left, gen, c) && (c.rounds > r ==> Size(c.rounds - 1) < LIMIT)
    && Rounds(gen, c.rounds) == Rounds(gen, r) + left[..c.before]
  }

  lemma StopsHere(script: seq<Answer>, at: nat, left: seq<byte>, gen: nat -> seq<byte>, r: nat)
    requires at <= |script| && (Size(r) < LIMIT ==> !RoundOf(script, at, left, gen(r)).end.Complete?)
    ensures Told(script, at, left, gen, r, ClientRun(script, at, left, gen, r))
  {
    assert left[0..] == left && Rounds(gen, r) + left[..0] == Rounds(gen, r);
  }

  lemma PlaysOn(script: seq<Answer>, at: nat, left: seq<byte>, gen: nat -> seq<byte>, r: nat, one: Round)
    requires at <= |script| && Size(r) < LIMIT && one == RoundOf(script, at, left, gen(r)) && one.end.Complete?
    ensures ClientRun(script, at, left, gen, r)
            == After(ClientRun(script, at + one.calls, left[one.got..], gen, r + 1), one)
  {
  }

  lemma LaterTold(script: seq<Answer>, at: nat, left: seq<byte>, gen: nat -> seq<byte>, r: nat, one: Round, c: Played)
    requires one.got <= |left| && one.sent == one.got && left[..one.got] == gen(r) && r < c.rounds && Size(r) < LIMIT
    requires Told(script, at + one.calls, left[one.got..], gen, r + 1, c)
    ensures Told(script, at, left, gen, r, After(c, one))
  {
    LaterRound(script, at, left, gen, one, c);
    RoundsMore(gen, r, c.rounds, left, one.got, c.before);
  }

  /** Why the client leaves: for the reason that its last round gives, after complete rounds only; or
      because it has done them all. */
  lemma {:induction false} ClientEnds(script: seq<Answer>, at: nat, left: seq<byte>, gen: nat -> seq<byte>, r: nat)
    requires at <= |script| && Sized(gen)
    ensures Told(script, at, left, gen, r, ClientRun(script, at, left, gen, r))
    decreases LIMIT - Size(r)
  {
    var one := RoundOf(script, at, left, gen(r));
    if Size(r) < LIMIT && one.end.Complete? {
      Doubled(r);
      ClientEnds(script, at + one.calls, left[one.got..], gen, r + 1);
      TellsOn(script, at, left, gen, r, one);
    } else {
      StopsHere(script, at, left, gen, r);
    }
  }

  lemma TellsOn(script: seq<Answer>, at: nat, left: seq<byte>, gen: nat -> seq<byte>, r: nat, one: Round)
    requires at <= |script| && Sized(gen) && Size(r) < LIMIT && one == RoundOf(script, at, left, gen(r))
    requires one.end.Complete?
    requires Told(script, at + one.calls, left[one.got..], gen, r + 1,
                  ClientRun(script, at + one.calls, left[one.got..], gen, r + 1))
    ensures Told(script, at, left, gen, r, ClientRun(script, at, left, gen, r))
  {
    CompleteIff(script, at, left, gen(r));
    PlaysOn(script, at, left, gen, r, one);
    LaterTold(script, at, left, gen, r, one, ClientRun(script, at + one.calls, left[one.got..], gen, r + 1));
  }

  lemma {:induction false} SizeGrows(r: nat, n: nat)
    requires r < n
    ensures 2 * Size(r) <= Size(n)
    decreases n
  {
    if r + 1 < n { SizeGrows(r, n - 1); }
  }

  lemma {:induction false} RoundsLength(gen: nat -> seq<byte>, r: nat)
    requires Sized(gen)
    ensures |Rounds(gen, r)| == Size(r) - 1
  {
    if r > 0 { RoundsLength(gen, r - 1); }
  }

  lemma Doubled(r: nat)
    ensures Size(r + 1) == 2 * Size(r)
  {
  }

  /** The client's loop ends after `n` complete rounds. */
  ghost predicate Enough(n: nat) {
    Size(n) >= LIMIT && (n > 0 ==> Size(n - 1) < LIMIT)
  }

  lemma EnoughIff(n: nat, r: nat)
    requires Enough(n)
    ensures Size(r) >= LIMIT <==> r >= n
  {
    if r + 1 < n { SizeGrows(r, n - 1); }
    if r > n { SizeGrows(n, r); }
  }

  /** What has gone out is the data of `n` rounds, and what came back is the same. */
  ghost predicate AllCameBack(left: seq<byte>, gen: nat -> seq<byte>, c: Played, n: nat) {
    c.got <= |left| && c.sent == |Rounds(gen, n)| && left[..c.got] == Rounds(gen, n)
  }

  lemma LastRoundShort(left: seq<byte>, gen: nat -> seq<byte>, c: Played, last: Round)
    requires c.before <= |left| && Rounds(gen, c.rounds) == left[..c.before]
    requires AllCameBack(left, gen, c, c.rounds + 1)
    requires c.sent == c.before + last.sent && c.got == c.before + last.got
    ensures last.sent == |gen(c.rounds)| && last.got <= |left[c.before..]|
    ensures left[c.before..][..last.got] == gen(c.rounds)
  {
    assert Rounds(gen, c.rounds + 1) == Rounds(gen, c.rounds) + gen(c.rounds);
    assert left[c.before..][..last.got] == left[..c.got][c.before..];
  }

  lemma TooFewRounds(gen: nat -> seq<byte>, r: nat, n: nat, sent: nat, last: nat)
    requires Sized(gen) && r < n && last <= |gen(r)| && sent == |Rounds(gen, r)| + last == |Rounds(gen, n)|
    ensures r + 1 == n
  {
    RoundsLength(gen, r);
    RoundsLength(gen, n);
    Doubled(r);
    if r + 1 < n { SizeGrows(r + 1, n); }
  }

  ghost predicate IsFinished(c: Played) {
    c.reason.Some? && c.reason.value.Finished?
  }

  lemma LastIncomplete(script: seq<Answer>, at: nat, left: seq<byte>, gen: nat -> seq<byte>, c: Played, last: Round)
    requires Sized(gen) && LastRound(script, at, left, gen, c) && Size(c.rounds) < LIMIT
    requires last == RoundOf(script, c.lastAt, left[c.before..], gen(c.rounds))
    ensures !IsFinished(c) && c.sent == c.before + last.sent && c.got == c.before + last.got
    ensures !(last.sent == |gen(c.rounds)| && left[c.before..][..last.got] == gen(c.rounds))
  {
    CompleteIff(script, c.lastAt, left[c.before..], gen(c.rounds));
  }

  lemma UnfinishedIsShort(script: seq<Answer>, at: nat, left: seq<byte>, gen: nat -> seq<byte>, c: Played, n: nat)
    requires Sized(gen) && LastRound(script, at, left, gen, c) && Size(c.rounds) < LIMIT && c.rounds < n
    requires Rounds(gen, c.rounds) == left[..c.before]
    ensures !AllCameBack(left, gen, c, n) && !IsFinished(c)
  {
    var last := RoundOf(script, c.lastAt, left[c.before..], gen(c.rounds));
    LastIncomplete(script, at, left, gen, c, last);
    if AllCameBack(left, gen, c, n) {
      TooFewRounds(gen, c.rounds, n, c.sent, last.sent);
      LastRoundShort(left, gen, c, last);
      assert false;
    }
  }

  lemma FinishedFrom(script: seq<Answer>, at: nat, left: seq<byte>, gen: nat -> seq<byte>, c: Played, n: nat)
    requires Sized(gen) && Enough(n) && Told(script, at, left, gen, 0, c)
    ensures (IsFinished(c) <==> AllCameBack(left, gen, c, n)) && (IsFinished(c) ==> c.rounds == n)
  {
    assert Rounds(gen, c.rounds) == left[..c.before];
    EnoughIff(n, c.rounds);
    if c.rounds < n {
      UnfinishedIsShort(script, at, left, gen, c, n);
    } else if c.rounds > n {
      EnoughIff(n, c.rounds - 1);
    }
  }

  /** The client finishes exactly if the data of all its rounds went out and came back. */
  lemma FinishedIff(script: seq<Answer>, at: nat, left: seq<byte>, gen: nat -> seq<byte>, n: nat)
    requires at <= |script| && Sized(gen) && Enough(n)
    ensures var c := ClientRun(script, at, left, gen, 0);
            (IsFinished(c) <==> AllCameBack(left, gen, c, n)) && (IsFinished(c) ==> c.rounds == n)
  {
    ClientEnds(script, at, left, gen, 0);
    FinishedFrom(script, at, left, gen, ClientRun(script, at, left, gen, 0), n);
  }

  /** ... which are 24. */
  lemma EnoughRounds()
    ensures Enough(24)
  {
    assert Size(4) == 16;
    Doubled(4); Doubled(5); Doubled(6); Doubled(7); Doubled(8); Doubled(9);
    assert Size(10) == 1024;
    Doubled(10); Doubled(11); Doubled(12); Doubled(13); Doubled(14); Doubled(15); Doubled(16);
    assert Size(17) == 131072;
    Doubled(17); Doubled(18); Doubled(19); Doubled(20); Doubled(21); Doubled(22); Doubled(23);
  }
}
