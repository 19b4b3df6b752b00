/** co_read, co_read_until and co_write: a synchronous phase in await_ready, then callbacks that
    re-arm themselves. Each is proved against one blocking loop that knows no phases. */
module Awaitables {
  import opened Kernel
  import opened Program

  datatype IoResult = Ok(n: nat) | Err(e: int)

  // ---- The blocking reference ----

  /** A zero answer ends a recv and is only a short answer to a send. */
  datatype Way = Receiving | Sending

  /** How a blocking transfer ends. `Starved`: the kernel still owes an answer. */
  datatype Verdict = Filled | Closed | Failed(err: int) | Starved

  /** `moved` bytes transferred over `calls` answers of the kernel, of which `stalls` moved
      nothing and ended nothing. */
  datatype Moved = Moved(moved: nat, verdict: Verdict, stalls: nat, calls: nat)

  predicate Stall(way: Way, res: int) {
    res == 0 - EAGAIN || (res == 0 && way == Sending)
  }

  function Count(b: bool): nat {
    if b then 1 else 0
  }

  function Gain(res: int): nat {
    if res > 0 then res else 0
  }

  /** `part`, and one more answer that did not end the transfer. */
  function Further(part: Moved, way: Way, res: int): Moved {
    Moved(part.moved + Gain(res), Starved, part.stalls + Count(Stall(way, res)), part.calls + 1)
  }

  /** `part`, and one more answer that ended it. */
  function Ended(part: Moved, res: int): Moved
    requires res <= 0
  {
    Moved(part.moved, if res == 0 then Closed else Failed(0 - res), part.stalls, part.calls + 1)
  }

  /** Two consecutive parts of one transfer. */
  function Join(first: Moved, rest: Moved): Moved {
    Moved(first.moved + rest.moved, rest.verdict, first.stalls + rest.stalls, first.calls + rest.calls)
  }

  /** Repeat recv or send until `need` bytes moved, the stream ends, or an error comes; `script`
      gives the answers, from the one at `at` on. */
  function Blocking(way: Way, script: seq<Answer>, at: nat, avail: nat, need: nat): (t: Moved)
    requires at <= |script|
    ensures t.moved <= need && t.moved <= avail
    decreases |script| - at, 1
  {
    if need == 0 then Moved(0, Filled, 0, 0)
    else if at == |script| then Moved(0, Starved, 0, 0)
    else Answered(way, Resolve(script[at], need, avail), script, at + 1, avail, need)
  }

  /** `Blocking` when the answer before `at` was `res`. */
  function Answered(way: Way, res: int, script: seq<Answer>, at: nat, avail: nat, need: nat): (t: Moved)
    requires at <= |script| && res <= avail && res <= need
    ensures t.moved <= need && t.moved <= avail
    decreases |script| - at, 2
  {
    if res > 0 then Join(Moved(res, Starved, 0, 1), Blocking(way, script, at, avail - res, need - res))
    else if Stall(way, res) then Join(Moved(0, Starved, 1, 1), Blocking(way, script, at, avail, need))
    else Moved(0, if res == 0 then Closed else Failed(0 - res), 0, 1)
  }

  /** How a blocking transfer can end. */
  ghost predicate Sound(way: Way, answers: nat, need: nat, t: Moved) {
    && t.calls <= answers
    && (t.verdict.Filled? <==> t.moved == need)
    && (t.verdict.Starved? ==> t.calls == answers)
    && (t.verdict.Closed? ==> way == Receiving)
    && (t.verdict.Failed? ==> t.verdict.err > 0 && t.verdict.err != EAGAIN)
    && t.calls <= t.moved + t.stalls + Count(t.verdict.Closed? || t.verdict.Failed?)
  }

  lemma {:induction false} BlockingSound(way: Way, script: seq<Answer>, at: nat, avail: nat, need: nat)
    requires at <= |script|
    ensures Sound(way, |script| - at, need, Blocking(way, script, at, avail, need))
    decreases |script| - at
  {
    if need > 0 && at < |script| {
      var res := Resolve(script[at], need, avail);
      if res > 0 || Stall(way, res) {
        BlockingSound(way, script, at + 1, avail - Gain(res), need - Gain(res));
      }
    }
  }

  /** Progress: once the kernel has answered once per byte and once per stall, the transfer is over. */
  lemma Progress(way: Way, script: seq<Answer>, avail: nat, need: nat)
    ensures var t := Blocking(way, script, 0, avail, need);
            |script| >= need + t.stalls ==> !t.verdict.Starved?
  {
    BlockingSound(way, script, 0, avail, need);
  }

  /** `part` is what the first `part.calls` answers make of the transfer. */
  ghost predicate Partly(way: Way, script: seq<Answer>, at: nat, avail: nat, need: nat, part: Moved) {
    && at + part.calls <= |script| && part.moved <= avail && part.moved <= need
    && Blocking(way, script, at, avail, need)
       == Join(part, Blocking(way, script, at + part.calls, avail - part.moved, need - part.moved))
  }

  lemma FirstAnswer(way: Way, script: seq<Answer>, at: nat, avail: nat, need: nat, res: int)
    requires at < |script| && need > 0 && res == Resolve(script[at], need, avail)
    ensures var rest := Blocking(way, script, at + 1, avail - Gain(res), need - Gain(res));
            Blocking(way, script, at, avail, need)
            == if res > 0 || Stall(way, res)
               then Moved(rest.moved + Gain(res), rest.verdict, rest.stalls + Count(Stall(way, res)), rest.calls + 1)
               else Ended(Moved(0, Starved, 0, 0), res)
  {
  }

  lemma JoinFurther(part: Moved, way: Way, res: int, rest: Moved)
    ensures Join(part,
                 Moved(rest.moved + Gain(res), rest.verdict, rest.stalls + Count(Stall(way, res)), rest.calls + 1))
            == Join(Further(part, way, res), rest)
  {
  }

  lemma PartlyNext(way: Way, script: seq<Answer>, at: nat, avail: nat, need: nat, part: Moved, res: int)
    requires Partly(way, script, at, avail, need, part) && part.moved < need && at + part.calls < |script|
    requires res == Resolve(script[at + part.calls], need - part.moved, avail - part.moved)
    requires res > 0 || Stall(way, res)
    ensures Partly(way, script, at, avail, need, Further(part, way, res))
  {
    JoinFurther(part, way, res,
      Blocking(way, script, at + part.calls + 1, avail - part.moved - Gain(res), need - part.moved - Gain(res)));
    FirstAnswer(way, script, at + part.calls, avail - part.moved, need - part.moved, res);
  }

  lemma PartlyEnds(way: Way, script: seq<Answer>, at: nat, avail: nat, need: nat, part: Moved, res: int)
    requires Partly(way, script, at, avail, need, part) && part.moved < need && at + part.calls < |script|
    requires res == Resolve(script[at + part.calls], need - part.moved, avail - part.moved)
    requires !(res > 0 || Stall(way, res))
    ensures Blocking(way, script, at, avail, need) == Ended(part, res)
  {
    FirstAnswer(way, script, at + part.calls, avail - part.moved, need - part.moved, res);
  }

  /** What co_read_until reports: the end of the stream gives the count while no answer has
      stalled the transfer (it is still synchronous), and zero afterwards. */
  function ReadReport(t: Moved, target: nat): IoResult
    requires !t.verdict.Starved?
  {
    match t.verdict
    case Filled => Ok(target)
    case Closed => if t.stalls > 0 then Ok(0) else Ok(t.moved)
    case Failed(err) => Err(err)
  }

  /** Success with the full count is reported exactly when the buffer was filled. */
  lemma FullCountIffFilled(script: seq<Answer>, at: nat, avail: nat, target: nat)
    requires at <= |script| && !Blocking(Receiving, script, at, avail, target).verdict.Starved?
    ensures var t := Blocking(Receiving, script, at, avail, target);
            ReadReport(t, target) == Ok(target) <==> t.moved == target
  {
    BlockingSound(Receiving, script, at, avail, target);
  }

  /** The bytes that the first `k` answers move. */
  function MovedBy(script: seq<Answer>, at: nat, avail: nat, need: nat, k: nat): (n: nat)
    requires at + k <= |script|
    ensures n <= need && n <= avail
    decreases k
  {
    if k == 0 then 0 else
      var g := Gain(Resolve(script[at], need, avail));
      g + MovedBy(script, at + 1, avail - g, need - g, k - 1)
  }

  /** Answer `i` of a transfer finds the connection not ready. */
  predicate StallsAt(script: seq<Answer>, at: nat, avail: nat, need: nat, i: nat)
    requires at + i < |script|
  {
    var n := MovedBy(script, at, avail, need, i);
    Unready(script[at + i], need - n, avail - n)
  }

  ghost predicate SomeStall(script: seq<Answer>, at: nat, avail: nat, need: nat, calls: nat)
    requires at + calls <= |script|
  {
    exists i :: 0 <= i < calls && StallsAt(script, at, avail, need, i)
  }

  /** A recv has stalled exactly if one of the answers it used found the connection not ready. */
  lemma {:induction false} StalledIff(script: seq<Answer>, at: nat, avail: nat, need: nat)
    requires at <= |script|
    ensures var t := Blocking(Receiving, script, at, avail, need);
            at + t.calls <= |script| && (t.stalls > 0 <==> SomeStall(script, at, avail, need, t.calls))
    decreases |script| - at
  {
    BlockingSound(Receiving, script, at, avail, need);
    var t := Blocking(Receiving, script, at, avail, need);
    if need > 0 && at < |script| {
      var res := Resolve(script[at], need, avail);
      UnreadyIff(script[at], need, avail);
      FirstAnswer(Receiving, script, at, avail, need, res);
      if res > 0 || res == 0 - EAGAIN {
        StalledIff(script, at + 1, avail - Gain(res), need - Gain(res));
        StallsLater(script, at, avail, need, t.calls - 1);
      } else {
        assert !StallsAt(script, at, avail, need, 0);
      }
    }
  }

  lemma StallsLater(script: seq<Answer>, at: nat, avail: nat, need: nat, calls: nat)
    requires at + 1 + calls <= |script|
    ensures var g := Gain(Resolve(script[at], need, avail));
            SomeStall(script, at, avail, need, calls + 1)
            <==> Unready(script[at], need, avail) || SomeStall(script, at + 1, avail - g, need - g, calls)
  {
    var g := Gain(Resolve(script[at], need, avail));
    var from, left, rest := at + 1, avail - g, need - g;
    assert StallsAt(script, at, avail, need, 0) <==> Unready(script[at], need, avail);
    if i: nat :| i < calls && StallsAt(script, from, left, rest, i) {
      assert StallsAt(script, at, avail, need, i + 1);
    }
    if i: nat :| 0 < i < calls + 1 && StallsAt(script, at, avail, need, i) {
      assert StallsAt(script, from, left, rest, i - 1);
    }
  }

  /** The documented report of a closed connection is zero; that is what comes exactly if some answer
      before the close found the connection not ready, or nothing had been read. */
  lemma ClosedReportsZeroIff(script: seq<Answer>, at: nat, avail: nat, target: nat)
    requires at <= |script| && Blocking(Receiving, script, at, avail, target).verdict.Closed?
    ensures var t := Blocking(Receiving, script, at, avail, target);
            && at + t.calls <= |script|
            && (ReadReport(t, target) == Ok(0) <==> SomeStall(script, at, avail, target, t.calls) || t.moved == 0)
  {
    StalledIff(script, at, avail, target);
  }

  /** A stream that closes after three of eight bytes: without a stall the report is 3, with one
      it is 0. */
  lemma ClosedReportDiffers(script: seq<Answer>)
    requires |script| >= 2 && script[0] == Transfer(3)
    requires script[1] == Nothing || (script[1] == NotReady && |script| > 2 && script[2] == Nothing)
    ensures var t := Blocking(Receiving, script, 0, 3, 8);
            && t.verdict == Closed && t.moved == 3
            && ReadReport(t, 8) == if script[1] == Nothing then Ok(3) else Ok(0)
  {
    var none := Moved(0, Starved, 0, 0);
    var first := Further(none, Receiving, 3);
    PartlyNext(Receiving, script, 0, 3, 8, none, 3);
    if script[1] == Nothing {
      PartlyEnds(Receiving, script, 0, 3, 8, first, 0);
    } else {
      PartlyNext(Receiving, script, 0, 3, 8, first, 0 - EAGAIN);
      PartlyEnds(Receiving, script, 0, 3, 8, Further(first, Receiving, 0 - EAGAIN), 0);
    }
  }

  datatype Turn = GoOn | Ready | Suspend

  /** await_ready has finished the transfer, without a stall. */
  ghost predicate ReadyAs(t: Moved, script: seq<Answer>, at: nat, avail: nat, target: nat, result: IoResult)
    requires at <= |script|
  {
    && Blocking(Receiving, script, at, avail, target) == t
    && t.stalls == 0 && !t.verdict.Starved? && result == ReadReport(t, target)
  }

  /** One more answer in front of `rest`, which moved `n` bytes and ended nothing. */
  ghost predicate OneMore(t: Moved, rest: Moved, n: int) {
    t.verdict == rest.verdict && t.moved == rest.moved + n && t.calls == rest.calls + 1
  }

  /** What the callbacks of co_read_until make of a transfer. */
  ghost predicate CalledBack(t: Moved, target: nat, result: IoResult, resumed: bool, submitted: nat) {
    && resumed == !t.verdict.Starved?
    && (resumed ==> result == ReadReport(t.(stalls := 1), target))
    && submitted == t.calls + Count(!resumed)
  }

  /** The buffer `orig` once the part of `stream` between `start` and `end` was read into it. */
  function Loaded(orig: seq<byte>, stream: seq<byte>, start: nat, end: nat): (r: seq<byte>)
    requires start <= end <= |stream| && end - start <= |orig|
    ensures |r| == |orig|
  {
    Overlay(orig, 0, stream[start..end])
  }

  lemma LoadMore(orig: seq<byte>, stream: seq<byte>, start: nat, mid: nat, end: nat)
    requires start <= mid <= end <= |stream| && end - start <= |orig|
    ensures Overlay(Loaded(orig, stream, start, mid), mid - start, stream[mid..end]) == Loaded(orig, stream, start, end)
  {
  }

  lemma LoadNone(orig: seq<byte>, stream: seq<byte>, start: nat)
    requires start <= |stream|
    ensures Loaded(orig, stream, start, start) == orig
  {
  }

  // ---- connection::read_until_awaitable ----

  class ReadUntil {
    var target: nat
    var total: nat
    const buf: array<byte>
    var result: IoResult

    constructor (buf: array<byte>)
      ensures this.buf == buf && target == 0 && total == 0
    {
      this.buf, target, total, result := buf, 0, 0, Ok(0);
    }

    /** The consumed prefix of the stream, which began at `start`, is in the buffer. */
    ghost predicate Holding(k: Socket, start: nat, orig: seq<byte>)
      reads this, k, buf
    {
      && k.Valid() && target == buf.Length == |orig| && total <= target && k.taken == start + total
      && buf[..] == Loaded(orig, k.incoming, start, k.taken)
    }

    /** One recv at the current position, by await_ready or by the backend for do_read. */
    method Receive(k: Socket, ghost start: nat, ghost orig: seq<byte>) returns (res: int)
      requires Holding(k, start, orig) && total < target
      modifies k`taken, k`calls, buf
      ensures k.Valid() && res <= target - total
      ensures res == old(k.Reply(target - total, |k.incoming| - k.taken))
      ensures k.calls == if old(k.calls) < |k.script| then old(k.calls) + 1 else old(k.calls)
      ensures k.taken == old(k.taken) + Gain(res)
      ensures buf[..] == Loaded(orig, k.incoming, start, k.taken)
    {
      res := k.Recv(buf, total, target - total);
      if res > 0 {
        LoadMore(orig, k.incoming, start, old(k.taken), k.taken);
      }
    }

    /** One turn of the loop in await_ready. */
    method Attempt(k: Socket, ghost start: nat, ghost orig: seq<byte>, ghost at: nat, ghost part: Moved)
      returns (next: Turn, ghost now: Moved)
      requires Holding(k, start, orig) && total < target && total == part.moved && part.stalls == 0
      requires k.calls == at + part.calls && Partly(Receiving, k.script, at, |k.incoming| - start, target, part)
      modifies this`total, this`result, k`taken, k`calls, buf
      ensures Holding(k, start, orig) && total == now.moved && k.calls == at + now.calls
      ensures next.GoOn? ==>
                total > old(total) && now.stalls == 0
                  && Partly(Receiving, k.script, at, |k.incoming| - start, target, now)
      ensures next.Ready? ==> ReadyAs(now, k.script, at, |k.incoming| - start, target, result)
      ensures next.Suspend? ==> total < target && (now.stalls > 0 || k.calls == |k.script|)
                                && Partly(Receiving, k.script, at, |k.incoming| - start, target, now)
    {
      ghost var avail, stocked := |k.incoming| - start, k.calls < |k.script|;
      var n := Receive(k, start, orig);
      if n > 0 {
        PartlyNext(Receiving, k.script, at, avail, target, part, n);
        total := total + n;
        return GoOn, Further(part, Receiving, n);
      } else if n == 0 {
        PartlyEnds(Receiving, k.script, at, avail, target, part, n);
        result := Ok(total);
        return Ready, Ended(part, n);
      } else if n == 0 - EAGAIN {
        if stocked { PartlyNext(Receiving, k.script, at, avail, target, part, n); }
        return Suspend, if stocked then Further(part, Receiving, n) else part;
      }
      PartlyEnds(Receiving, k.script, at, avail, target, part, n);
      result := Err(0 - n);
      return Ready, Ended(part, n);
    }

    /** The synchronous phase: true if the transfer is over without suspending. */
    method AwaitReady(k: Socket) returns (ready: bool, ghost part: Moved)
      requires k.Valid()
      modifies this, k`taken, k`calls, buf
      ensures Holding(k, old(k.taken), old(buf[..])) && part.moved == total && k.calls == old(k.calls) + part.calls
      ensures ready ==> ReadyAs(part, k.script, old(k.calls), |k.incoming| - old(k.taken), target, result)
      ensures !ready ==> Partly(Receiving, k.script, old(k.calls), |k.incoming| - old(k.taken), target, part)
                         && total < target && (part.stalls > 0 || k.calls == |k.script|)
    {
      target, total := buf.Length, 0;
      part := Moved(0, Starved, 0, 0);
      ghost var start, orig, at := k.taken, buf[..], k.calls;
      LoadNone(orig, k.incoming, start);
      while total < target
        invariant Holding(k, start, orig) && total == part.moved && part.stalls == 0 && k.calls == at + part.calls
        invariant Partly(Receiving, k.script, at, |k.incoming| - start, target, part)
        decreases target - total
      {
        var next;
        next, part := Attempt(k, start, orig, at, part);
        if next.Ready? { return true, part; }
        if next.Suspend? { return false, part; }
      }
      part := part.(verdict := Filled);
      result := Ok(total);
      return true, part;
    }

    /** read_cb: true if it re-arms. */
    method OnReceived(res: int) returns (again: bool)
      requires total < target && res <= target - total
      modifies this`total, this`result
      ensures total == old(total) + Gain(res)
      ensures again <==> res == 0 - EAGAIN || (res > 0 && total < target)
      ensures !again ==> result == if res > 0 then Ok(target) else if res == 0 then Ok(0) else Err(0 - res)
      ensures again ==> result == old(result)
    {
      if res < 0 {
        if res == 0 - EAGAIN { return true; }
        result := Err(0 - res);
        return false;
      }
      if res == 0 {
        result := Ok(0);
        return false;
      }
      total := total + res;
      if total >= target {
        result := Ok(total);
        return false;
      }
      return true;
    }

    /** One completion of an operation that do_read has submitted. */
    method Completion(k: Socket, ghost start: nat, ghost orig: seq<byte>) returns (again: bool)
      requires Holding(k, start, orig) && total < target && k.calls < |k.script|
      modifies this`total, this`result, k`taken, k`calls, buf
      ensures Holding(k, start, orig) && k.calls == old(k.calls) + 1
      ensures var t := Blocking(Receiving, k.script, old(k.calls), |k.incoming| - old(k.taken), target - old(total));
              if again then
                && total < target
                && OneMore(t, Blocking(Receiving, k.script, k.calls, |k.incoming| - k.taken, target - total),
                           total - old(total))
              else
                total == old(total) + t.moved && CalledBack(t, target, result, true, 1)
    {
      ghost var at, avail, need := k.calls, |k.incoming| - k.taken, target - total;
      var res := Receive(k, start, orig);
      FirstAnswer(Receiving, k.script, at, avail, need, res);
      again := OnReceived(res);
    }

    /** do_read, and what follows for as long as the kernel answers: one operation is submitted;
        its callback resumes the caller or calls do_read again. */
    method DoRead(k: Socket, ghost start: nat, ghost orig: seq<byte>) returns (resumed: bool, submitted: nat)
      requires Holding(k, start, orig) && total < target
      modifies this`total, this`result, k`taken, k`calls, buf
      ensures Holding(k, start, orig)
      ensures var t := Blocking(Receiving, k.script, old(k.calls), |k.incoming| - old(k.taken), target - old(total));
              && total == old(total) + t.moved && k.calls == old(k.calls) + t.calls
              && CalledBack(t, target, result, resumed, submitted)
      decreases |k.script| - k.calls
    {
      if k.calls == |k.script| { return false, 1; }
      var again := Completion(k, start, orig);
      if !again { return true, 1; }
      resumed, submitted := DoRead(k, start, orig);
      submitted := submitted + 1;
    }

    /** co_await conn.co_read_until(buf): for every behaviour of the kernel, and wherever it hands
        over from the synchronous phase to the callbacks, what a blocking read of buf.Length
        bytes does; the consumed prefix of the stream is in the buffer, the rest untouched. */
    method CoAwait(k: Socket) returns (resumed: bool, submitted: nat)
      requires k.Valid()
      modifies this, k`taken, k`calls, buf
      ensures Holding(k, old(k.taken), old(buf[..]))
      ensures var t := Blocking(Receiving, k.script, old(k.calls), |k.incoming| - old(k.taken), buf.Length);
              && total == t.moved && k.calls == old(k.calls) + t.calls
              && resumed == !t.verdict.Starved?
              && (resumed ==> result == ReadReport(t, buf.Length))
              && submitted <= t.moved + t.stalls + 1
              && (t.verdict.Closed? ==> (result == Ok(0) <==> submitted > 0 || total == 0))
    {
      ghost var start, orig, at := k.taken, buf[..], k.calls;
      ghost var part: Moved;
      var ready;
      ready, part := AwaitReady(k);
      if ready { return true, 0; }
      ghost var rest := Blocking(Receiving, k.script, k.calls, |k.incoming| - k.taken, target - total);
      BlockingSound(Receiving, k.script, k.calls, |k.incoming| - k.taken, target - total);
      resumed, submitted := DoRead(k, start, orig);
    }
  }

  // ---- connection::write_awaitable ----

  function WriteReport(t: Moved, size: nat): IoResult
    requires !t.verdict.Starved?
  {
    if t.verdict.Failed? then Err(t.verdict.err) else Ok(size)
  }

  /** Success is reported exactly when the kernel has taken the whole buffer, and then the count
      is the size of the buffer. */
  lemma WriteOkIffAll(script: seq<Answer>, at: nat, size: nat)
    requires at <= |script| && !Blocking(Sending, script, at, size, size).verdict.Starved?
    ensures var t := Blocking(Sending, script, at, size, size);
            WriteReport(t, size).Ok? <==> t.moved == size
  {
    BlockingSound(Sending, script, at, size, size);
  }

  /** What the callbacks of co_write make of the rest of a transfer. */
  ghost predicate SentBack(t: Moved, size: nat, result: IoResult, resumed: bool, submitted: nat) {
    && resumed == !t.verdict.Starved?
    && (resumed ==> result == WriteReport(t, size))
    && submitted == t.calls + Count(!resumed)
  }

  class WriteAll {
    const buf: seq<byte>
    var written: nat
    var result: IoResult

    constructor (buf: seq<byte>)
      ensures this.buf == buf && written == 0
    {
      this.buf, written, result := buf, 0, Ok(0);
    }

    /** The kernel has got what it had before and exactly buf[..written]. */
    ghost predicate Delivered(k: Socket, before: seq<byte>)
      reads this, k
    {
      k.Valid() && written <= |buf| && k.sent == before + buf[..written]
    }

    /** One send of what is left, by await_ready or by the backend for do_write. */
    method Transmit(k: Socket, ghost before: seq<byte>) returns (res: int)
      requires Delivered(k, before) && written < |buf|
      modifies k`sent, k`calls
      ensures k.Valid() && res <= |buf| - written
      ensures res == old(k.Reply(|buf| - written, |buf| - written))
      ensures k.calls == if old(k.calls) < |k.script| then old(k.calls) + 1 else old(k.calls)
      ensures k.sent == before + buf[..written + Gain(res)]
    {
      res := k.Send(buf[written..]);
      assert buf[..written + Gain(res)] == buf[..written] + buf[written..][..Gain(res)];
    }

    /** The synchronous phase: true if the transfer is over without suspending. */
    method AwaitReady(k: Socket) returns (ready: bool, ghost part: Moved)
      requires k.Valid() && written == 0
      modifies this, k`sent, k`calls
      ensures Delivered(k, old(k.sent))
      ensures part.moved == written && k.calls == old(k.calls) + part.calls
      ensures ready ==> Blocking(Sending, k.script, old(k.calls), |buf|, |buf|) == part
                        && !part.verdict.Starved? && result == WriteReport(part, |buf|)
      ensures !ready ==> Partly(Sending, k.script, old(k.calls), |buf|, |buf|, part) && written < |buf|
    {
      part := Moved(0, Starved, 0, 0);
      ghost var before, at := k.sent, k.calls;
      var nsend := 0;
      while written < |buf|
        invariant Delivered(k, before) && written == part.moved
        invariant k.calls == at + part.calls
        invariant Partly(Sending, k.script, at, |buf|, |buf|, part)
        decreases |buf| - written
      {
        ghost var stocked := k.calls < |k.script|;
        nsend := Transmit(k, before);
        if nsend > 0 {
          PartlyNext(Sending, k.script, at, |buf|, |buf|, part, nsend);
          part := Further(part, Sending, nsend);
          written := written + nsend;
          continue;
        }
        if nsend == 0 - EAGAIN {
          if stocked {
            PartlyNext(Sending, k.script, at, |buf|, |buf|, part, nsend);
            part := Further(part, Sending, nsend);
          }
          return false, part;
        }
        if nsend == 0 {
          PartlyNext(Sending, k.script, at, |buf|, |buf|, part, nsend);
          part := Further(part, Sending, nsend);
        } else {
          PartlyEnds(Sending, k.script, at, |buf|, |buf|, part, nsend);
          part := Ended(part, nsend);
        }
        break;
      }
      if written >= |buf| {
        part := part.(verdict := Filled);
        result := Ok(written);
        return true, part;
      }
      if nsend >= 0 { return false, part; }
      result := Err(0 - nsend);
      return true, part;
    }

    /** write_cb: true if it re-arms. */
    method OnSent(res: int) returns (again: bool)
      requires written < |buf| && res <= |buf| - written
      modifies this`written, this`result
      ensures written == old(written) + Gain(res)
      ensures again <==> Stall(Sending, res) || (res > 0 && written < |buf|)
      ensures !again ==> result == if res > 0 then Ok(|buf|) else Err(0 - res)
      ensures again ==> result == old(result)
    {
      if res < 0 {
        if res == 0 - EAGAIN { return true; }
        result := Err(0 - res);
        return false;
      }
      written := written + res;
      if written >= |buf| {
        result := Ok(written);
        return false;
      }
      return true;
    }

    /** do_write, and what follows for as long as the kernel answers. */
    method DoWrite(k: Socket, ghost before: seq<byte>) returns (resumed: bool, submitted: nat)
      requires Delivered(k, before) && written < |buf|
      modifies this`written, this`result, k`sent, k`calls
      ensures Delivered(k, before)
      ensures var left := |buf| - old(written);
              var t := Blocking(Sending, k.script, old(k.calls), left, left);
              && written == old(written) + t.moved && k.calls == old(k.calls) + t.calls
              && SentBack(t, |buf|, result, resumed, submitted)
      decreases |k.script| - k.calls
    {
      ghost var at, left := k.calls, |buf| - written;
      if k.calls == |k.script| { return false, 1; }
      var res := Transmit(k, before);
      FirstAnswer(Sending, k.script, at, left, left, res);
      var again := OnSent(res);
      if !again { return true, 1; }
      resumed, submitted := DoWrite(k, before);
      submitted := submitted + 1;
    }

    /** co_await conn.co_write(buf): for every behaviour of the kernel, and wherever it hands over
        from the synchronous phase to the callbacks, the kernel has got exactly buf[..written],
        which is what blocking sends of the whole buffer would have given it. */
    method CoAwait(k: Socket) returns (resumed: bool, submitted: nat)
      requires k.Valid() && written == 0
      modifies this, k`sent, k`calls
      ensures Delivered(k, old(k.sent))
      ensures var t := Blocking(Sending, k.script, old(k.calls), |buf|, |buf|);
              && written == t.moved && k.calls == old(k.calls) + t.calls
              && resumed == !t.verdict.Starved?
              && (resumed ==> result == WriteReport(t, |buf|))
              && submitted <= t.moved + t.stalls + 1
    {
      ghost var before, part := k.sent, Moved(0, Starved, 0, 0);
      var ready;
      ready, part := AwaitReady(k);
      if ready { return true, 0; }
      BlockingSound(Sending, k.script, k.calls, |buf| - written, |buf| - written);
      resumed, submitted := DoWrite(k, before);
    }
  }

  // ---- connection::read_awaitable ----

  /** The answer that decides a co_read: the first one, or the second if the first was not ready. */
  function Deciding(script: seq<Answer>, at: nat, avail: nat, len: nat): (res: Option<int>)
    requires at <= |script|
    ensures res.Some? ==> res.value <= avail && res.value <= len
  {
    if at == |script| then None
    else if Resolve(script[at], len, avail) != 0 - EAGAIN then Some(Resolve(script[at], len, avail))
    else if at + 1 == |script| then None
    else Some(Resolve(script[at + 1], len, avail))
  }

  /** How many answers a co_read uses: a second one exactly if the first was not ready. */
  function Asked(script: seq<Answer>, at: nat, avail: nat, len: nat): (n: nat)
    requires at <= |script|
    ensures at + n <= |script|
  {
    if at == |script| then 0
    else if Resolve(script[at], len, avail) == 0 - EAGAIN && at + 1 < |script| then 2
    else 1
  }

  function Plain(res: int): IoResult {
    if res >= 0 then Ok(res) else Err(0 - res)
  }

  /** Both the answer in await_ready and the one of the operation submitted after it are not ready. */
  ghost predicate TwiceUnready(script: seq<Answer>, at: nat, avail: nat, len: nat) {
    at + 1 < |script| && Unready(script[at], len, avail) && Unready(script[at + 1], len, avail)
  }

  lemma SpuriousReadFails(script: seq<Answer>, at: nat, avail: nat, len: nat)
    requires at <= |script| && Deciding(script, at, avail, len).Some?
    ensures Plain(Deciding(script, at, avail, len).value) == Err(EAGAIN) <==> TwiceUnready(script, at, avail, len)
  {
    UnreadyIff(script[at], len, avail);
    if at + 1 < |script| { UnreadyIff(script[at + 1], len, avail); }
  }

  class ReadOnce {
    const buf: array<byte>
    var result: IoResult

    constructor (buf: array<byte>)
      ensures this.buf == buf
    {
      this.buf, result := buf, Ok(0);
    }

    method AwaitReady(k: Socket) returns (ready: bool)
      requires k.Valid()
      modifies this, k`taken, k`calls, buf
      ensures k.Valid() && k.calls == if old(k.calls) < |k.script| then old(k.calls) + 1 else old(k.calls)
      ensures var n := old(k.Reply(buf.Length, |k.incoming| - k.taken));
              && n <= buf.Length && k.taken == old(k.taken) + Gain(n)
              && ready == (n != 0 - EAGAIN) && (ready ==> result == Plain(n))
      ensures buf[..] == Loaded(old(buf[..]), k.incoming, old(k.taken), k.taken)
    {
      ghost var orig, start := buf[..], k.taken;
      LoadNone(orig, k.incoming, start);
      var n := k.Recv(buf, 0, buf.Length);
      if n >= 0 {
        result := Ok(n);
        return true;
      } else if n == 0 - EAGAIN {
        return false;
      }
      result := Err(0 - n);
      return true;
    }

    /** read_cb */
    method OnRead(res: int)
      modifies this`result
      ensures result == Plain(res)
    {
      if res >= 0 { result := Ok(res); } else { result := Err(0 - res); }
    }

    /** await_suspend: one operation; its completion resumes the caller with whatever it brought. */
    method AwaitSuspend(k: Socket) returns (resumed: bool)
      requires k.Valid()
      modifies this, k`taken, k`calls, buf
      ensures k.Valid() && resumed == (old(k.calls) < |k.script|)
      ensures k.calls == if resumed then old(k.calls) + 1 else old(k.calls)
      ensures var n := old(k.Reply(buf.Length, |k.incoming| - k.taken));
              k.taken == old(k.taken) + (if resumed then Gain(n) else 0) && (resumed ==> result == Plain(n))
      ensures buf[..] == Loaded(old(buf[..]), k.incoming, old(k.taken), k.taken)
    {
      LoadNone(buf[..], k.incoming, k.taken);
      if k.calls == |k.script| { return false; }
      var res := k.Recv(buf, 0, buf.Length);
      OnRead(res);
      return true;
    }

    /** co_await conn.co_read(buf): unlike co_read_until and co_write it does not retry, and so fails with
        EAGAIN exactly if the completion that resumes it was not ready either. */
    method CoAwait(k: Socket) returns (resumed: bool)
      requires k.Valid()
      modifies this, k`taken, k`calls, buf
      ensures k.Valid()
      ensures var d := Deciding(k.script, old(k.calls), |k.incoming| - old(k.taken), buf.Length);
              && resumed == d.Some?
              && k.calls == old(k.calls) + Asked(k.script, old(k.calls), |k.incoming| - old(k.taken), buf.Length)
              && k.taken == old(k.taken) + (if d.Some? then Gain(d.value) else 0)
              && (resumed ==> result == Plain(d.value))
      ensures resumed ==>
                (result == Err(EAGAIN)
                 <==> TwiceUnready(k.script, old(k.calls), |k.incoming| - old(k.taken), buf.Length))
      ensures buf[..] == Loaded(old(buf[..]), k.incoming, old(k.taken), k.taken)
    {
      ghost var orig, start, at, avail := buf[..], k.taken, k.calls, |k.incoming| - k.taken;
      resumed := AwaitReady(k);
      if !resumed {
        LoadNone(orig, k.incoming, start);
        resumed := AwaitSuspend(k);
      }
      if resumed { SpuriousReadFails(k.script, at, avail, buf.Length); }
    }
  }
}
