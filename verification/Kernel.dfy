/** One connected socket as the kernel shows it: an adversary's script decides how each call
    behaves, within what a reliable byte stream allows. */
module Kernel {

  type byte = x: int | 0 <= x < 256
  type Errno = e: int | 0 < e witness 1

  const EAGAIN := 11

  /** The kernel's choice for one recv or send. */
  datatype Answer =
    | Transfer(most: nat)   // move at most so many bytes (none available counts as not ready)
    | NotReady              // EAGAIN, also a spurious readiness report
    | Nothing               // recv: end of stream; send: zero bytes taken
    | Fail(err: Errno)

  /** What recv or send returns for a buffer of `len` bytes, when `avail` bytes can move. */
  function Resolve(a: Answer, len: nat, avail: nat): (res: int)
    ensures res <= len && res <= avail
  {
    match a
    case Transfer(most) =>
      var k := if most < len then most else len;
      var n := if k < avail then k else avail;
      if n == 0 then 0 - EAGAIN else n
    case NotReady => 0 - EAGAIN
    case Nothing => 0
    case Fail(err) => 0 - err
  }

  /** Answers that come back as EAGAIN: none ready, nothing to move, or the error itself. */
  predicate Unready(a: Answer, len: nat, avail: nat) {
    match a
    case Transfer(most) => most == 0 || len == 0 || avail == 0
    case NotReady => true
    case Nothing => false
    case Fail(err) => err == EAGAIN
  }

  lemma UnreadyIff(a: Answer, len: nat, avail: nat)
    ensures Unready(a, len, avail) <==> Resolve(a, len, avail) == 0 - EAGAIN
  {
  }

  /** The bytes of a buffer after `src` went into it from `from` on. */
  function Overlay(buf: seq<byte>, from: nat, src: seq<byte>): (r: seq<byte>)
    requires from + |src| <= |buf|
    ensures |r| == |buf|
    ensures forall i :: 0 <= i < |buf| ==> r[i] == if from <= i < from + |src| then src[i - from] else buf[i]
  {
    buf[..from] + src + buf[from + |src|..]
  }

  class Socket {
    const incoming: seq<byte>      // all that the peer will ever send
    var taken: nat                 // how much of it has been received
    var sent: seq<byte>            // all that was accepted for sending, in order
    const script: seq<Answer>      // the answers to come; after them, never ready again
    var calls: nat                 // how many of them were given

    ghost predicate Valid()
      reads this
    {
      taken <= |incoming| && calls <= |script|
    }

    /** The answer to a call for `len` bytes now, when `avail` can move. */
    ghost function Reply(len: nat, avail: nat): int
      reads this
      requires Valid()
    {
      if calls == |script| then 0 - EAGAIN else Resolve(script[calls], len, avail)
    }

    constructor (incoming: seq<byte>, script: seq<Answer>)
      ensures Valid() && this.incoming == incoming && taken == 0 && sent == [] && this.script == script && calls == 0
    {
      this.incoming, this.script, taken, sent, calls := incoming, script, 0, [], 0;
    }

    /** recv(fd, buf + from, len, MSG_DONTWAIT), errors as negative errno. */
    method Recv(buf: array<byte>, from: nat, len: nat) returns (res: int)
      requires Valid() && from + len <= buf.Length
      modifies this`taken, this`calls, buf
      ensures Valid()
      ensures res == old(Reply(len, |incoming| - taken))
      ensures calls == if old(calls) < |script| then old(calls) + 1 else old(calls)
      ensures taken == old(taken) + if res > 0 then res else 0
      ensures buf[..] == if res > 0 then Overlay(old(buf[..]), from, incoming[old(taken)..taken]) else old(buf[..])
    {
      if calls == |script| { return 0 - EAGAIN; }
      res := Resolve(script[calls], len, |incoming| - taken);
      calls := calls + 1;
      if res > 0 {
        var i := 0;
        while i < res
          modifies buf
          invariant 0 <= i <= res
          invariant buf[..] == old(buf[..from]) + incoming[taken..taken + i] + old(buf[from + i..])
        {
          buf[from + i] := incoming[taken + i];
          i := i + 1;
        }
        taken := taken + res;
      }
    }

    /** send(fd, data, len, ...), errors as negative errno. */
    method Send(data: seq<byte>) returns (res: int)
      requires Valid()
      modifies this`sent, this`calls
      ensures Valid() && res == old(Reply(|data|, |data|))
      ensures calls == if old(calls) < |script| then old(calls) + 1 else old(calls)
      ensures sent == old(sent) + if res > 0 then data[..res] else []
    {
      if calls == |script| { return 0 - EAGAIN; }
      res := Resolve(script[calls], |data|, |data|);
      calls := calls + 1;
      if res > 0 { sent := sent + data[..res]; }
    }
  }
}
