/** handle_client and echo_client as the sequential programs they are, over the awaitables. Both come to
    what `EchoRuns` says for every script of the kernel. */
module EchoPrograms {
  import opened Program
  import opened Kernel
  import opened Awaitables
  import opened Echo
  import opened EchoRuns

  lemma LaterLater(s: Served, r: nat, c: nat, n: nat, m: nat)
    ensures Later(Later(s, n, m), r, c) == Later(s, r + n, c + m)
  {
  }

  /** A connection that began at answer `first` with `start` bytes taken is at answer `at` with `taken`
      bytes taken, all of them echoed, and the rest of it makes it the `whole`. */
  ghost predicate SoFar(whole: Served, script: seq<Answer>, total: nat, first: nat, start: nat, at: nat, taken: nat) {
    && first <= at <= |script| && start <= taken <= total
    && whole == Later(ServerRun(script, at, total - taken), taken - start, at - first)
  }

  /** ... or has come to its end. */
  ghost predicate Over(whole: Served, first: nat, start: nat, ending: Option<Ending>, at: nat, taken: nat, back: nat) {
    && whole.ending == ending && taken == start + whole.received && back == start + whole.back
    && at == first + whole.calls
  }

  /** One turn of the server's loop, from answer `at` and byte `taken` to `at'` and `taken'`. */
  ghost predicate TurnIs(script: seq<Answer>, total: nat, at: nat, taken: nat, more: bool, ending: Option<Ending>,
                         at': nat, taken': nat, back: nat)
  {
    && at <= |script| && taken <= total
    && var d, used := Deciding(script, at, total - taken, BUF_SIZE), Asked(script, at, total - taken, BUF_SIZE);
       if d.None? || d.value <= 0 then
         && !more && taken' == back == taken && at' == at + used
         && ending == if d.None? then None else Some(if d.value == 0 then PeerClosed else ReadFailed(0 - d.value))
       else
         var t := SentOut(script, at + used, d.value);
         && taken' == taken + d.value && back == taken + t.moved && at' == at + used + t.calls
         && more == t.verdict.Filled?
         && ending == if t.verdict.Failed? then Some(WriteFailed(t.verdict.err)) else None
  }

  lemma TurnEnds(whole: Served, script: seq<Answer>, total: nat, first: nat, start: nat, at: nat, taken: nat,
                 ending: Option<Ending>, at': nat, taken': nat, back: nat)
    requires SoFar(whole, script, total, first, start, at, taken)
    requires TurnIs(script, total, at, taken, false, ending, at', taken', back)
    ensures Over(whole, first, start, ending, at', taken', back)
    ensures ending.Some? && !ending.value.WriteFailed? ==> back == taken'
  {
  }

  /** A turn that goes on has received and echoed a whole chunk. */
  lemma WholeTurn(script: seq<Answer>, total: nat, at: nat, taken: nat, ending: Option<Ending>,
                  at': nat, taken': nat, back: nat, avail: nat)
    requires TurnIs(script, total, at, taken, true, ending, at', taken', back) && avail == total - taken
    ensures back == taken' && taken < taken' <= total && Echoed(script, at, avail, taken' - taken, at')
  {
    BlockingSound(Sending, script, at + Asked(script, at, avail, BUF_SIZE), taken' - taken, taken' - taken);
  }

  lemma RunContinues(whole: Served, script: seq<Answer>, total: nat, first: nat, start: nat, at: nat, taken: nat,
                     at': nat, taken': nat)
    requires SoFar(whole, script, total, first, start, at, taken) && taken <= taken' <= total && at <= at' <= |script|
    requires ServerRun(script, at, total - taken)
             == Later(ServerRun(script, at', total - taken'), taken' - taken, at' - at)
    ensures SoFar(whole, script, total, first, start, at', taken')
  {
    LaterLater(ServerRun(script, at', total - taken'), taken - start, at - first, taken' - taken, at' - at);
  }

  lemma RunUnfolds(script: seq<Answer>, total: nat, at: nat, taken: nat, at': nat, taken': nat)
    requires taken < taken' <= total && Echoed(script, at, total - taken, taken' - taken, at')
    ensures ServerRun(script, at, total - taken)
            == Later(ServerRun(script, at', total - taken'), taken' - taken, at' - at)
  {
    GoesOn(script, at, total - taken, taken' - taken, at', total - taken');
  }

  lemma TurnGoesOn(whole: Served, script: seq<Answer>, total: nat, first: nat, start: nat, at: nat, taken: nat,
                   at': nat, taken': nat)
    requires SoFar(whole, script, total, first, start, at, taken) && taken < taken' <= total
    requires Echoed(script, at, total - taken, taken' - taken, at')
    ensures SoFar(whole, script, total, first, start, at', taken')
  {
    RunUnfolds(script, total, at, taken, at', taken');
    RunContinues(whole, script, total, first, start, at, taken, at', taken');
  }

  lemma NothingYet(script: seq<Answer>, total: nat, at: nat, taken: nat)
    requires at <= |script| && taken <= total
    ensures SoFar(ServerRun(script, at, total - taken), script, total, at, taken, at, taken)
  {
  }

  /** One turn of the loop in handle_client. */
  method EchoChunk(k: Socket, buffer: array<byte>) returns (more: bool, ending: Option<Ending>, ghost back: nat)
    requires k.Valid() && buffer.Length == BUF_SIZE
    modifies k`taken, k`calls, k`sent, buffer
    ensures k.Valid() && old(k.taken) <= back <= k.taken
    ensures k.sent == old(k.sent) + k.incoming[old(k.taken)..back]
    ensures TurnIs(k.script, |k.incoming|, old(k.calls), old(k.taken), more, ending, k.calls, k.taken, back)
  {
    ghost var from := k.taken;
    var read := new ReadOnce(buffer);
    var resumed := read.CoAwait(k);
    if !resumed { return false, None, k.taken; }
    if read.result.Err? { return false, Some(ReadFailed(read.result.e)), k.taken; }
    if read.result.n == 0 { return false, Some(PeerClosed), k.taken; }
    var writeBuf := buffer[..read.result.n];
    assert writeBuf == k.incoming[from..k.taken];
    var write := new WriteAll(writeBuf);
    ghost var sending, submitted := k.calls, 0;
    resumed, submitted := write.CoAwait(k);
    back := from + write.written;
    assert writeBuf[..write.written] == k.incoming[from..back];
    BlockingSound(Sending, k.script, sending, |writeBuf|, |writeBuf|);
    if !resumed { return false, None, back; }
    if write.result.Err? { return false, Some(WriteFailed(write.result.e)), back; }
    return true, None, back;
  }

  lemma EchoGrows(before: seq<byte>, stream: seq<byte>, start: nat, from: nat, back: nat)
    requires start <= from <= back <= |stream|
    ensures before + stream[start..from] + stream[from..back] == before + stream[start..back]
  {
    assert stream[start..from] + stream[from..back] == stream[start..back];
  }

  /** Before a turn: all that was received has been sent back. */
  ghost predicate Echoing(whole: Served, script: seq<Answer>, stream: seq<byte>, first: nat, start: nat,
                          before: seq<byte>, at: nat, taken: nat, sent: seq<byte>)
  {
    SoFar(whole, script, |stream|, first, start, at, taken) && sent == before + stream[start..taken]
  }

  /** After the last one: what was received up to `back`; unless a write failed or is not over, all. */
  ghost predicate EchoedUpTo(stream: seq<byte>, start: nat, before: seq<byte>, ending: Option<Ending>, taken: nat,
                         back: nat, sent: seq<byte>)
  {
    && start <= back <= taken <= |stream| && sent == before + stream[start..back]
    && (ending.Some? && !ending.value.WriteFailed? ==> back == taken)
  }

  lemma ChunkEchoed(whole: Served, script: seq<Answer>, stream: seq<byte>, first: nat, start: nat, before: seq<byte>,
                    at: nat, taken: nat, sent: seq<byte>, ending: Option<Ending>, at': nat, taken': nat, back: nat,
                    sent': seq<byte>)
    requires Echoing(whole, script, stream, first, start, before, at, taken, sent)
    requires TurnIs(script, |stream|, at, taken, true, ending, at', taken', back)
    requires taken <= back <= taken' <= |stream| && sent' == sent + stream[taken..back]
    ensures at' > at && Echoing(whole, script, stream, first, start, before, at', taken', sent')
  {
    WholeTurn(script, |stream|, at, taken, ending, at', taken', back, |stream| - taken);
    TurnGoesOn(whole, script, |stream|, first, start, at, taken, at', taken');
    EchoGrows(before, stream, start, taken, back);
  }

  lemma ChunkEnds(whole: Served, script: seq<Answer>, stream: seq<byte>, first: nat, start: nat, before: seq<byte>,
                  at: nat, taken: nat, sent: seq<byte>, ending: Option<Ending>, at': nat, taken': nat, back: nat,
                  sent': seq<byte>)
    requires Echoing(whole, script, stream, first, start, before, at, taken, sent)
    requires TurnIs(script, |stream|, at, taken, false, ending, at', taken', back)
    requires taken <= back <= taken' <= |stream| && sent' == sent + stream[taken..back]
    ensures Over(whole, first, start, ending, at', taken', back)
    ensures EchoedUpTo(stream, start, before, ending, taken', back, sent')
  {
    TurnEnds(whole, script, |stream|, first, start, at, taken, ending, at', taken', back);
    EchoGrows(before, stream, start, taken, back);
  }

  lemma FirstTurn(script: seq<Answer>, stream: seq<byte>, at: nat, taken: nat, sent: seq<byte>)
    requires at <= |script| && taken <= |stream|
    ensures Echoing(ServerRun(script, at, |stream| - taken), script, stream, at, taken, sent, at, taken, sent)
  {
    NothingYet(script, |stream|, at, taken);
  }

  /** One connection of the server. `back` is how far into the stream the echo has got: what was sent
      back is what was received up to there. How it ends, after which answers and with how many bytes
      received and echoed is what `ServerRun` says; why it ends, `ServerEnds`. */
  method HandleClient(k: Socket) returns (ending: Option<Ending>, ghost back: nat)
    requires k.Valid()
    modifies k`taken, k`calls, k`sent
    ensures k.Valid()
    ensures Over(ServerRun(k.script, old(k.calls), |k.incoming| - old(k.taken)), old(k.calls), old(k.taken),
                 ending, k.calls, k.taken, back)
    ensures EchoedUpTo(k.incoming, old(k.taken), old(k.sent), ending, k.taken, back, k.sent)
  {
    var buffer := new byte[BUF_SIZE](i => 0);
    ghost var first, start, before := k.calls, k.taken, k.sent;
    ghost var whole := ServerRun(k.script, first, |k.incoming| - start);
    FirstTurn(k.script, k.incoming, first, start, before);
    while true
      invariant k.Valid() && fresh(buffer) && buffer.Length == BUF_SIZE
      invariant Echoing(whole, k.script, k.incoming, first, start, before, k.calls, k.taken, k.sent)
      decreases |k.script| - k.calls
    {
      ghost var at, from, sent := k.calls, k.taken, k.sent;
      var more;
      more, ending, back := EchoChunk(k, buffer);
      if !more {
        ChunkEnds(whole, k.script, k.incoming, first, start, before, at, from, sent, ending, k.calls, k.taken, back,
                  k.sent);
        return ending, back;
      }
      ChunkEchoed(whole, k.script, k.incoming, first, start, before, at, from, sent, ending, k.calls, k.taken, back,
                  k.sent);
    }
  }

  // ---- echo_client ----

  method Resize(buffer: array<byte>, n: nat) returns (r: array<byte>)
    ensures fresh(r) && r[..] == Resized(buffer[..], n)
  {
    r := new byte[n](i requires 0 <= i < n reads buffer => if i < buffer.Length then buffer[i] else 0);
  }

  /** co_await conn.co_write(data), as its caller sees it; None while it is suspended. */
  method Write(k: Socket, data: seq<byte>) returns (result: Option<IoResult>)
    requires k.Valid()
    modifies k`calls, k`sent
    ensures k.Valid()
    ensures var t := SentOut(k.script, old(k.calls), |data|);
            && result == (if t.verdict.Starved? then None else Some(WriteReport(t, |data|)))
            && k.sent == old(k.sent) + data[..t.moved] && k.calls == old(k.calls) + t.calls
  {
    var write := new WriteAll(data);
    var resumed, submitted := write.CoAwait(k);
    if !resumed { return None; }
    return Some(write.result);
  }

  /** co_await conn.co_read_until(buf), as its caller sees it; None while it is suspended. */
  method ReadUntilFull(k: Socket, buf: array<byte>) returns (result: Option<IoResult>)
    requires k.Valid()
    modifies k`taken, k`calls, buf
    ensures k.Valid()
    ensures var t := ReadIn(k.script, old(k.calls), |k.incoming| - old(k.taken), buf.Length);
            && result == (if t.verdict.Starved? then None else Some(ReadReport(t, buf.Length)))
            && k.taken == old(k.taken) + t.moved && k.calls == old(k.calls) + t.calls
    ensures buf[..] == Loaded(old(buf[..]), k.incoming, old(k.taken), k.taken)
  {
    var read := new ReadUntil(buf);
    var resumed, submitted := read.CoAwait(k);
    if !resumed { return None; }
    return Some(read.result);
  }

  /** A full buffer holds what was read, and nothing else. */
  lemma LoadedWhole(orig: seq<byte>, stream: seq<byte>, from: nat, to: nat)
    requires from <= to <= |stream| && to - from == |orig|
    ensures Loaded(orig, stream, from, to) == stream[from..to]
  {
  }

  /** The client's tests, one after another, judge the report. */
  ghost predicate RoundIs(script: seq<Answer>, stream: seq<byte>, at: nat, taken: nat, data: seq<byte>,
                          end: RoundEnd, at': nat, taken': nat, sent: seq<byte>, sent': seq<byte>)
  {
    && at <= |script| && taken <= taken' <= |stream|
    && var r := RoundOf(script, at, stream[taken..], data);
       end == r.end && at' == at + r.calls && taken' == taken + r.got && sent' == sent + data[..r.sent]
  }

  lemma RoundFacts(script: seq<Answer>, stream: seq<byte>, at: nat, taken: nat, data: seq<byte>,
                   end: RoundEnd, at': nat, taken': nat, sent: seq<byte>, sent': seq<byte>)
    requires |data| > 0 && RoundIs(script, stream, at, taken, data, end, at', taken', sent, sent')
    ensures end.Complete? <==> sent' == sent + data && stream[taken..taken'] == data
    ensures end == Leave(Mismatch) <==>
              sent' == sent + data && taken' == taken + |data| && stream[taken..taken'] != data
    ensures end.Leave? ==> !end.reason.Finished?
  {
    var r := RoundOf(script, at, stream[taken..], data);
    CompleteIff(script, at, stream[taken..], data);
    assert stream[taken..taken'] == stream[taken..][..r.got];
    assert |sent'| == |sent| + r.sent;
    assert r.sent == |data| ==> data[..r.sent] == data;
  }

  /** The round ends with the write. */
  lemma WriteStops(script: seq<Answer>, stream: seq<byte>, at: nat, taken: nat, data: seq<byte>, out: Moved,
                   end: RoundEnd, at': nat, sent: seq<byte>, sent': seq<byte>)
    requires at <= |script| && taken <= |stream| && out == SentOut(script, at, |data|) && at' == at + out.calls
    requires end == if out.verdict.Failed? then Leave(WriteError(out.verdict.err)) else Suspended
    requires !out.verdict.Filled? && sent' == sent + data[..out.moved]
    ensures RoundIs(script, stream, at, taken, data, end, at', taken, sent, sent')
  {
  }

  /** What the buffer holds is judged like what was read. */
  lemma SameJudgement(script: seq<Answer>, at: nat, stream: seq<byte>, taken: nat, data: seq<byte>, orig: seq<byte>,
                      back: Moved)
    requires at <= |script| && taken <= |stream| && |orig| == |data| && !back.verdict.Starved?
    requires back == ReadIn(script, at, |stream| - taken, |data|)
    ensures var held := Loaded(orig, stream, taken, taken + back.moved);
            Judged(ReadReport(back, |data|), data, held)
            == Judged(ReadReport(back, |data|), data, stream[taken..][..back.moved])
  {
    FullCountIffFilled(script, at, |stream| - taken, |data|);
    if back.moved == |data| {
      LoadedWhole(orig, stream, taken, taken + back.moved);
      assert stream[taken..][..back.moved] == stream[taken..taken + back.moved];
    }
  }

  /** ... or with the read. */
  lemma ReadStops(script: seq<Answer>, stream: seq<byte>, at: nat, taken: nat, data: seq<byte>, out: Moved, back: Moved,
                  orig: seq<byte>, end: RoundEnd, at': nat, taken': nat, sent: seq<byte>, sent': seq<byte>)
    requires at <= |script| && taken <= |stream| && out == SentOut(script, at, |data|) && out.verdict.Filled?
    requires back == ReadIn(script, at + out.calls, |stream| - taken, |data|) && |orig| == |data|
    requires at' == at + out.calls + back.calls && taken' == taken + back.moved && sent' == sent + data[..out.moved]
    requires end == if back.verdict.Starved? then Suspended
                    else Judged(ReadReport(back, |data|), data, Loaded(orig, stream, taken, taken'))
    ensures RoundIs(script, stream, at, taken, data, end, at', taken', sent, sent')
  {
    if !back.verdict.Starved? { SameJudgement(script, at + out.calls, stream, taken, data, orig, back); }
  }

  /** The client's tests after co_read_until, one after another. */
  method Judge(report: IoResult, sendData: seq<byte>, received: array<byte>) returns (end: RoundEnd)
    ensures end == Judged(report, sendData, received[..])
  {
    if report.Err? { return Leave(ReadError(report.e)); }
    if report.n == 0 { return Leave(SawClose); }
    if report.n != |sendData| { return Leave(Short(report.n)); }
    if received[..] != sendData { return Leave(Mismatch); }
    return Complete;
  }

  /** One round: write everything, read as much back, compare. */
  method ClientRound(k: Socket, sendData: seq<byte>, buffer: array<byte>) returns (end: RoundEnd, received: array<byte>)
    requires k.Valid() && |sendData| > 0
    modifies k`taken, k`calls, k`sent
    ensures k.Valid() && (end.Complete? ==> fresh(received))
    ensures RoundIs(k.script, k.incoming, old(k.calls), old(k.taken), sendData, end, k.calls, k.taken, old(k.sent),
                    k.sent)
  {
    ghost var at, from, sent := k.calls, k.taken, k.sent;
    ghost var out := SentOut(k.script, at, |sendData|);
    BlockingSound(Sending, k.script, at, |sendData|, |sendData|);
    var written := Write(k, sendData);
    if written == None || written.value.Err? {
      end := if written == None then Suspended else Leave(WriteError(written.value.e));
      WriteStops(k.script, k.incoming, at, from, sendData, out, end, k.calls, sent, k.sent);
      return end, buffer;
    }
    received := Resize(buffer, |sendData|);
    ghost var orig, back := received[..], ReadIn(k.script, k.calls, |k.incoming| - from, |sendData|);
    var read := ReadUntilFull(k, received);
    if read == None { end := Suspended; } else { end := Judge(read.value, sendData, received); }
    ReadStops(k.script, k.incoming, at, from, sendData, out, back, orig, end, k.calls, k.taken, sent, k.sent);
  }

  // ---- The client's rounds ----

  predicate Agree(a: seq<byte>, b: seq<byte>) {
    a <= b || b <= a
  }

  /** The peer never sends anything but what it was sent. */
  ghost predicate Echoes(stream: seq<byte>, gen: nat -> seq<byte>) {
    forall r :: Agree(stream, Rounds(gen, r))
  }

  lemma SamePart(stream: seq<byte>, longer: seq<byte>, before: seq<byte>, a: seq<byte>, b: seq<byte>)
    requires before + a <= stream && longer == before + b && |a| == |b|
    requires stream <= longer || longer <= stream
    ensures a == b
  {
    var n := |before|;
    assert a == stream[n..n + |a|];
    assert b == longer[n..n + |b|];
  }

  /** When the peer only echoes, the bytes of a round that came back whole are the bytes sent. */
  lemma RoundMatches(stream: seq<byte>, gen: nat -> seq<byte>, r: nat, round: seq<byte>)
    requires Echoes(stream, gen) && Rounds(gen, r) + round <= stream && |round| == |gen(r)|
    ensures round == gen(r)
  {
    var before, longer := Rounds(gen, r), Rounds(gen, r + 1);
    assert longer == before + gen(r);
    assert Agree(stream, longer);
    SamePart(stream, longer, before, round, gen(r));
  }

  /** `n` bytes of complete rounds, which used `calls` answers. */
  function Done(n: nat, calls: nat): Round {
    Round(Complete, n, n, calls)
  }

  /** A client that began at answer `first` and byte `start` is before round `r` at answer `at` and byte
      `taken`, and the rest of it makes it the `whole`. */
  ghost predicate PlaySoFar(whole: Played, script: seq<Answer>, stream: seq<byte>, gen: nat -> seq<byte>,
                            first: nat, start: nat, at: nat, taken: nat, r: nat)
  {
    && first <= at <= |script| && start <= taken <= |stream|
    && whole == After(ClientRun(script, at, stream[taken..], gen, r), Done(taken - start, at - first))
  }

  /** ... or has left. */
  ghost predicate PlayOver(whole: Played, first: nat, start: nat, reason: Option<Reason>, rounds: nat,
                           at: nat, taken: nat)
  {
    whole.reason == reason && whole.rounds == rounds && at == first + whole.calls && taken == start + whole.got
  }

  function ReasonOf(end: RoundEnd): Option<Reason> {
    if end.Leave? then Some(end.reason) else None
  }

  lemma PlayStarts(script: seq<Answer>, stream: seq<byte>, gen: nat -> seq<byte>, at: nat, taken: nat)
    requires at <= |script| && taken <= |stream|
    ensures PlaySoFar(ClientRun(script, at, stream[taken..], gen, 0), script, stream, gen, at, taken, at, taken, 0)
  {
  }

  lemma PlayStops(whole: Played, script: seq<Answer>, stream: seq<byte>, gen: nat -> seq<byte>, first: nat, start: nat,
                  at: nat, taken: nat, r: nat, end: RoundEnd, at': nat, taken': nat, sent: seq<byte>, sent': seq<byte>)
    requires PlaySoFar(whole, script, stream, gen, first, start, at, taken, r) && Size(r) < LIMIT
    requires RoundIs(script, stream, at, taken, gen(r), end, at', taken', sent, sent') && !end.Complete?
    ensures PlayOver(whole, first, start, ReasonOf(end), r, at', taken')
    ensures sent <= sent' <= sent + gen(r) && whole.sent == taken - start + |sent'| - |sent|
  {
  }

  lemma AfterBoth(c: Played, one: Round, n: nat, calls: nat)
    requires one.sent == one.got
    ensures After(After(c, one), Done(n, calls)) == After(c, Done(n + one.got, calls + one.calls))
  {
  }

  lemma RoundSplits(script: seq<Answer>, stream: seq<byte>, at: nat, taken: nat, data: seq<byte>,
                    at': nat, taken': nat, sent: seq<byte>, sent': seq<byte>)
    requires RoundIs(script, stream, at, taken, data, Complete, at', taken', sent, sent') && |data| > 0
    ensures at <= at' <= |script|
    ensures var one := RoundOf(script, at, stream[taken..], data);
            one == Done(taken' - taken, at' - at) && stream[taken..][one.got..] == stream[taken'..]
  {
    CompleteIff(script, at, stream[taken..], data);
  }

  lemma RoundPlayed(script: seq<Answer>, gen: nat -> seq<byte>, at: nat, left: seq<byte>, r: nat,
                    at': nat, left': seq<byte>, n: nat)
    requires at <= at' <= |script| && Size(r) < LIMIT && n <= |left|
    requires RoundOf(script, at, left, gen(r)) == Done(n, at' - at) && left[n..] == left'
    ensures ClientRun(script, at, left, gen, r) == After(ClientRun(script, at', left', gen, r + 1), Done(n, at' - at))
  {
    PlaysOn(script, at, left, gen, r, Done(n, at' - at));
  }

  lemma PlayGoesOn(whole: Played, script: seq<Answer>, stream: seq<byte>, gen: nat -> seq<byte>, first: nat, start: nat,
                   at: nat, taken: nat, r: nat, at': nat, taken': nat, sent: seq<byte>, sent': seq<byte>)
    requires PlaySoFar(whole, script, stream, gen, first, start, at, taken, r) && Size(r) < LIMIT && |gen(r)| > 0
    requires RoundIs(script, stream, at, taken, gen(r), Complete, at', taken', sent, sent')
    ensures PlaySoFar(whole, script, stream, gen, first, start, at', taken', r + 1)
  {
    RoundSplits(script, stream, at, taken, gen(r), at', taken', sent, sent');
    RoundPlayed(script, gen, at, stream[taken..], r, at', stream[taken'..], taken' - taken);
    AfterBoth(ClientRun(script, at', stream[taken'..], gen, r + 1), Done(taken' - taken, at' - at), taken - start,
              at - first);
  }

  lemma PlayDone(whole: Played, script: seq<Answer>, stream: seq<byte>, gen: nat -> seq<byte>, first: nat, start: nat,
                 at: nat, taken: nat, r: nat)
    requires PlaySoFar(whole, script, stream, gen, first, start, at, taken, r) && Size(r) >= LIMIT
    ensures PlayOver(whole, first, start, Some(Finished(Size(r))), r, at, taken) && whole.sent == taken - start
  {
  }

  /** What the last round brought continues what the complete rounds brought. */
  lemma RoundContinues(stream: seq<byte>, start: nat, taken: nat, taken': nat, before: seq<byte>)
    requires start <= taken <= taken' <= |stream| && stream[start..taken] == before
    ensures stream[start..taken'] == before + stream[taken..taken']
  {
  }

  lemma MismatchIsPeers(stream: seq<byte>, gen: nat -> seq<byte>, r: nat, start: nat, taken: nat, taken': nat)
    requires start <= taken <= taken' <= |stream| && stream[start..taken] == Rounds(gen, r)
    requires taken' == taken + |gen(r)| && stream[taken..taken'] != gen(r)
    ensures !Echoes(stream[start..], gen)
  {
    RoundContinues(stream, start, taken, taken', Rounds(gen, r));
    assert stream[start..taken'] == stream[start..][..taken' - start];
    if Echoes(stream[start..], gen) { RoundMatches(stream[start..], gen, r, stream[taken..taken']); }
  }

  /** Before round `r`: what was sent, and what was received, is the data of the rounds so far. */
  ghost predicate Playing(whole: Played, script: seq<Answer>, stream: seq<byte>, gen: nat -> seq<byte>,
                          first: nat, start: nat, before: seq<byte>, at: nat, taken: nat, sent: seq<byte>, r: nat)
  {
    && PlaySoFar(whole, script, stream, gen, first, start, at, taken, r)
    && sent == before + Rounds(gen, r) && stream[start..taken] == Rounds(gen, r)
  }

  /** What the client has sent is the data of its rounds, the last one perhaps not to its end; a finished
      client has received it all; and a mismatch is the peer's doing. */
  ghost predicate Left(stream: seq<byte>, gen: nat -> seq<byte>, start: nat, before: seq<byte>,
                       reason: Option<Reason>, rounds: nat, taken: nat, sent: seq<byte>)
  {
    && start <= taken <= |stream|
    && before + Rounds(gen, rounds) <= sent <= before + Rounds(gen, rounds) + gen(rounds)
    && (reason.Some? && reason.value.Finished? ==>
          reason.value.size == Size(rounds) >= LIMIT
          && sent == before + Rounds(gen, rounds) && stream[start..taken] == Rounds(gen, rounds))
    && (Echoes(stream[start..], gen) ==> reason != Some(Mismatch))
  }

  lemma RoundLeaves(whole: Played, script: seq<Answer>, stream: seq<byte>, gen: nat -> seq<byte>,
                    first: nat, start: nat, before: seq<byte>, at: nat, taken: nat, r: nat, end: RoundEnd,
                    at': nat, taken': nat, sent: seq<byte>, sent': seq<byte>)
    requires Playing(whole, script, stream, gen, first, start, before, at, taken, sent, r) && Size(r) < LIMIT
    requires RoundIs(script, stream, at, taken, gen(r), end, at', taken', sent, sent') && !end.Complete?
    requires |gen(r)| > 0
    ensures PlayOver(whole, first, start, ReasonOf(end), r, at', taken')
    ensures Left(stream, gen, start, before, ReasonOf(end), r, taken', sent')
  {
    RoundFacts(script, stream, at, taken, gen(r), end, at', taken', sent, sent');
    PlayStops(whole, script, stream, gen, first, start, at, taken, r, end, at', taken', sent, sent');
    if end == Leave(Mismatch) { MismatchIsPeers(stream, gen, r, start, taken, taken'); }
  }

  /** One more round's data has gone out, and come back. */
  lemma DataContinues(stream: seq<byte>, gen: nat -> seq<byte>, start: nat, before: seq<byte>, r: nat, taken: nat,
                      taken': nat, sent: seq<byte>, sent': seq<byte>)
    requires start <= taken <= taken' <= |stream| && stream[start..taken] == Rounds(gen, r)
    requires sent == before + Rounds(gen, r) && sent' == sent + gen(r) && stream[taken..taken'] == gen(r)
    ensures sent' == before + Rounds(gen, r + 1) && stream[start..taken'] == Rounds(gen, r + 1)
  {
    RoundContinues(stream, start, taken, taken', Rounds(gen, r));
    assert before + Rounds(gen, r) + gen(r) == before + Rounds(gen, r + 1);
  }

  lemma RoundCompletes(whole: Played, script: seq<Answer>, stream: seq<byte>, gen: nat -> seq<byte>,
                       first: nat, start: nat, before: seq<byte>, at: nat, taken: nat, r: nat, at': nat, taken': nat,
                       sent: seq<byte>, sent': seq<byte>)
    requires Playing(whole, script, stream, gen, first, start, before, at, taken, sent, r) && Size(r) < LIMIT
    requires RoundIs(script, stream, at, taken, gen(r), Complete, at', taken', sent, sent') && |gen(r)| > 0
    ensures Playing(whole, script, stream, gen, first, start, before, at', taken', sent', r + 1)
  {
    RoundFacts(script, stream, at, taken, gen(r), Complete, at', taken', sent, sent');
    PlayGoesOn(whole, script, stream, gen, first, start, at, taken, r, at', taken', sent, sent');
    DataContinues(stream, gen, start, before, r, taken, taken', sent, sent');
  }

  lemma AllPlayed(whole: Played, script: seq<Answer>, stream: seq<byte>, gen: nat -> seq<byte>, first: nat, start: nat,
                  before: seq<byte>, at: nat, taken: nat, sent: seq<byte>, r: nat)
    requires Playing(whole, script, stream, gen, first, start, before, at, taken, sent, r) && Size(r) >= LIMIT
    ensures PlayOver(whole, first, start, Some(Finished(Size(r))), r, at, taken)
    ensures Left(stream, gen, start, before, Some(Finished(Size(r))), r, taken, sent)
  {
    PlayDone(whole, script, stream, gen, first, start, at, taken, r);
  }

  lemma FirstRound(script: seq<Answer>, stream: seq<byte>, gen: nat -> seq<byte>, at: nat, taken: nat, sent: seq<byte>)
    requires at <= |script| && taken <= |stream|
    ensures Playing(ClientRun(script, at, stream[taken..], gen, 0), script, stream, gen, at, taken, sent,
                    at, taken, sent, 0)
  {
    PlayStarts(script, stream, gen, at, taken);
  }

  /** echo_client after connecting; `gen(r)` is the random data of round r. It leaves when and why
      `ClientRun` says: see `ClientEnds` and `FinishedIff`. */
  method EchoClient(k: Socket, gen: nat -> seq<byte>) returns (reason: Option<Reason>, rounds: nat)
    requires k.Valid() && Sized(gen)
    modifies k`taken, k`calls, k`sent
    ensures k.Valid()
    ensures PlayOver(ClientRun(k.script, old(k.calls), k.incoming[old(k.taken)..], gen, 0), old(k.calls), old(k.taken),
                     reason, rounds, k.calls, k.taken)
    ensures Left(k.incoming, gen, old(k.taken), old(k.sent), reason, rounds, k.taken, k.sent)
  {
    var buffer := new byte[0];
    var i := 1;
    rounds := 0;
    ghost var first, start, before := k.calls, k.taken, k.sent;
    ghost var whole := ClientRun(k.script, first, k.incoming[start..], gen, 0);
    FirstRound(k.script, k.incoming, gen, first, start, before);
    while i < LIMIT
      invariant k.Valid() && fresh(buffer) && i == Size(rounds)
      invariant Playing(whole, k.script, k.incoming, gen, first, start, before, k.calls, k.taken, k.sent, rounds)
      decreases LIMIT - i
    {
      ghost var at, from, sent := k.calls, k.taken, k.sent;
      var end;
      end, buffer := ClientRound(k, gen(rounds), buffer);
      if !end.Complete? {
        RoundLeaves(whole, k.script, k.incoming, gen, first, start, before, at, from, rounds, end, k.calls, k.taken,
                    sent, k.sent);
        return ReasonOf(end), rounds;
      }
      RoundCompletes(whole, k.script, k.incoming, gen, first, start, before, at, from, rounds, k.calls, k.taken,
                     sent, k.sent);
      i, rounds := i * 2, rounds + 1;
    }
    AllPlayed(whole, k.script, k.incoming, gen, first, start, before, k.calls, k.taken, k.sent, rounds);
    return Some(Finished(i)), rounds;
  }
}
