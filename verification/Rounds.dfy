/** One round of an event loop: the events it has collected, handled in order, whose callbacks may
    submit operations, while another thread may call stop(). The same for both backends. */
module Rounds {
  import opened Program
  import opened AsyncIo

  /** One event of a round: the operation, the kernel's answer, and what the callback submits; `err`
      is set when that submission fails at once. */
  datatype Handled = Handled(q: Req, res: int, next: Option<Req>, err: Option<nat>)

  /** What one event does: its callback, which may submit the next operation; or, once
      stopped, nothing but freeing the context. */
  ghost function Turn(a: Service, e: Handled): Service {
    if !a.running then Dropped(a, e.q)
    else if e.next.None? then Answered(a, e.q, e.res)
    else Submitted(Answered(a, e.q, e.res), e.next.value, e.err)
  }

  /** One event of a round; another thread may have called stop() just before it. */
  ghost function TurnAt(a: Service, e: Handled, stop: bool): Service {
    Turn(if stop then a.(running := false) else a, e)
  }

  /** The service after these events of a round; stop() came before event `stopAt`. */
  ghost function After(a: Service, es: seq<Handled>, stopAt: nat): Service {
    if es == [] then a else
      var n := |es| - 1;
      TurnAt(After(a, es[..n], stopAt), es[n], n == stopAt)
  }

  lemma Longer(a: Service, es: seq<Handled>, e: Handled, stopAt: nat)
    ensures After(a, es + [e], stopAt) == TurnAt(After(a, es, stopAt), e, |es| == stopAt)
  {
    assert (es + [e])[..|es|] == es;
  }

  /** From `i` on, the operations that the callbacks submit are new. */
  ghost predicate NewIds(nexts: seq<Option<Req>>, accepted: set<nat>, i: nat) {
    && (forall j :: i <= j < |nexts| && nexts[j].Some? ==> nexts[j].value.id !in accepted)
    && (forall j, k :: i <= j < k < |nexts| && nexts[j].Some? && nexts[k].Some? ==>
          nexts[j].value.id != nexts[k].value.id)
  }

  /** A round that began with the service at `start` has handled `i` of these events and is at `a`. */
  ghost predicate SoFar(start: Service, a: Service, es: seq<Handled>, stopAt: nat, i: nat) {
    i <= |es| && a == After(start, es[..i], stopAt)
  }

  lemma OneFurther(start: Service, a: Service, a': Service, es: seq<Handled>, stopAt: nat, i: nat)
    requires SoFar(start, a, es, stopAt, i) && i < |es| && a' == TurnAt(a, es[i], i == stopAt)
    ensures SoFar(start, a', es, stopAt, i + 1)
  {
    assert es[..i + 1] == es[..i] + [es[i]];
    Longer(start, es[..i], es[i], stopAt);
  }

  lemma AllHandled(start: Service, a: Service, es: seq<Handled>, stopAt: nat)
    requires SoFar(start, a, es, stopAt, |es|)
    ensures a == After(start, es, stopAt)
  {
    assert es[..|es|] == es;
  }

  lemma StillNew(nexts: seq<Option<Req>>, a: Service, e: Handled, stop: bool, i: nat)
    requires NewIds(nexts, a.accepted, i) && i < |nexts| && e.next == nexts[i]
    ensures NewIds(nexts, TurnAt(a, e, stop).accepted, i + 1)
  {
  }

  /** No pending operation is on the descriptor. */
  ghost predicate Unused(pending: set<Req>, fd: int) {
    forall q :: q in pending ==> q.op.fd != fd
  }

  /** Whatever a callback submits is on a descriptor without another operation at that moment. */
  ghost predicate Orderly(a: Service, es: seq<Handled>, stopAt: nat) {
    forall j :: 0 <= j < |es| ==> OrderlyAt(After(a, es[..j], stopAt), es[j], j == stopAt)
  }

  ghost predicate OrderlyAt(a: Service, e: Handled, stop: bool) {
    e.next.Some? && a.running && !stop ==> Unused(a.pending - {e.q}, e.next.value.op.fd)
  }

  lemma OrderlyNow(start: Service, a: Service, es: seq<Handled>, stopAt: nat, i: nat)
    requires Orderly(start, es, stopAt) && SoFar(start, a, es, stopAt, i) && i < |es|
    ensures OrderlyAt(a, es[i], i == stopAt)
  {
  }

  /** No two pending operations share a descriptor, and the events from `i` on are pending. */
  ghost predicate InOrder(a: Service, es: seq<Handled>, i: nat) {
    && (forall p, q :: p in a.pending && q in a.pending && p.op.fd == q.op.fd ==> p == q)
    && (forall j :: i <= j < |es| ==> es[j].q in a.pending)
    && (forall j, k :: i <= j < k < |es| ==> es[j].q != es[k].q)
  }

  lemma TurnInOrder(a: Service, es: seq<Handled>, i: nat, stop: bool)
    requires InOrder(a, es, i) && i < |es|
    requires es[i].next.Some? ==> es[i].next.value.op.fd == es[i].q.op.fd
    ensures OrderlyAt(a, es[i], stop) && InOrder(TurnAt(a, es[i], stop), es, i + 1)
  {
  }

  ghost predicate Rearming(es: seq<Handled>) {
    forall j :: 0 <= j < |es| && es[j].next.Some? ==> es[j].next.value.op.fd == es[j].q.op.fd
  }

  lemma {:induction false} StaysInOrder(a: Service, es: seq<Handled>, stopAt: nat, n: nat) returns (t: Service)
    requires InOrder(a, es, 0) && Rearming(es) && n <= |es|
    ensures SoFar(a, t, es, stopAt, n) && InOrder(t, es, n)
  {
    if n == 0 {
      t := a;
    } else {
      var before := StaysInOrder(a, es, stopAt, n - 1);
      t := TurnAt(before, es[n - 1], n - 1 == stopAt);
      TurnInOrder(before, es, n - 1, n - 1 == stopAt);
      OneFurther(a, before, t, es, stopAt, n - 1);
    }
  }

  /** Callbacks that each submit on the descriptor they were called for are orderly. */
  lemma RearmingIsOrderly(a: Service, es: seq<Handled>, stopAt: nat)
    requires InOrder(a, es, 0) && Rearming(es)
    ensures Orderly(a, es, stopAt)
  {
    forall j | 0 <= j < |es| ensures OrderlyAt(After(a, es[..j], stopAt), es[j], j == stopAt) {
      var t := StaysInOrder(a, es, stopAt, j);
      TurnInOrder(t, es, j, j == stopAt);
    }
  }

  /** The callback of a submission that failed at once. */
  ghost function Refusal(e: Handled): seq<Reply> {
    if e.next.Some? && e.err.Some? then
      var res: int := 0 - e.err.value;
      [Reply(e.next.value, res)]
    else []
  }

  /** The callbacks of these events. */
  ghost function Calls(es: seq<Handled>): seq<Reply> {
    if es == [] then [] else
      var e := es[|es| - 1];
      Calls(es[..|es| - 1]) + [Reply(e.q, e.res)] + Refusal(e)
  }

  ghost function BeforeStop(es: seq<Handled>, stopAt: nat): seq<Handled> {
    if |es| <= stopAt then es else es[..stopAt]
  }

  /** A round calls back once for each event before the stop, with the kernel's answer, and a second
      time only for submissions that failed at once; after the stop never. */
  lemma {:induction false} RoundCalls(a: Service, es: seq<Handled>, stopAt: nat)
    requires a.running
    ensures var t := After(a, es, stopAt);
            && t.running == (|es| <= stopAt)
            && t.called == a.called + Calls(BeforeStop(es, stopAt))
            && forall j :: stopAt <= j < |es| ==> es[j].q.id in t.forgotten
  {
    if es == [] {
    } else {
      var n := |es| - 1;
      var before := After(a, es[..n], stopAt);
      RoundCalls(a, es[..n], stopAt);
      TurnCalls(before, es[n], n == stopAt);
      if n < stopAt {
        assert BeforeStop(es, stopAt) == es && BeforeStop(es[..n], stopAt) == es[..n];
      } else {
        assert BeforeStop(es, stopAt) == BeforeStop(es[..n], stopAt);
      }
      forall j | stopAt <= j < |es| ensures es[j].q.id in After(a, es, stopAt).forgotten {
        if j < n { assert es[..n][j] == es[j]; }
      }
    }
  }

  lemma TurnCalls(a: Service, e: Handled, stop: bool)
    ensures var t := TurnAt(a, e, stop);
            && t.running == (a.running && !stop) && a.forgotten <= t.forgotten
            && t.called == a.called + (if t.running then [Reply(e.q, e.res)] + Refusal(e) else [])
            && (!t.running ==> e.q.id in t.forgotten)
  {
  }
}
