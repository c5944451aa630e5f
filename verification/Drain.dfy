/** The dispatcher's per-type request ring and the loop that drains it to free peers. */
module Drain {
  import opened Bits
  import opened Constants
  import opened PeerMask
  import opened Lrpc
  import opened LrpcRuns
  import LrpcEndpoints

  const RQUEUE_LEN: nat := 4096
  const EXFULL: nat := 54

  // ---------- the ring against the requests it ever accepted ----------

  ghost predicate RingOk(ring: seq<nat>, head: nat, tail: nat, accepted: seq<nat>, taken: nat)
  {
    && |ring| == RQUEUE_LEN
    && head == Wrap32(|accepted|) && tail == Wrap32(taken)
    && taken <= |accepted| <= taken + RQUEUE_LEN
    && forall j :: taken <= j < |accepted| ==> ring[Residue(j, RQUEUE_LEN)] == accepted[j]
  }

  lemma RingSlot(n: nat)
    ensures And(Wrap32(n), RQUEUE_LEN - 1) == Residue(n, RQUEUE_LEN)
  {
    assert Pow2(4) == 16;
    PowMonotone(4, 8);
    PowMonotone(4, 12);
    RingIndex(n, RQUEUE_LEN, 12);
  }

  // The fullness test compares by subtraction and so survives the wrap.
  lemma FullExact(ring: seq<nat>, head: nat, tail: nat, accepted: seq<nat>, taken: nat)
    requires RingOk(ring, head, tail, accepted, taken)
    ensures Wrap32(head - tail) == RQUEUE_LEN <==> |accepted| - taken == RQUEUE_LEN
  {
    hide Wrap32, Residue;
    WrappedDistance(|accepted|, taken);
  }

  lemma PushKeeps(ring: seq<nat>, head: nat, tail: nat, accepted: seq<nat>, taken: nat, req: nat)
    requires RingOk(ring, head, tail, accepted, taken) && |accepted| - taken < RQUEUE_LEN
    ensures And(head, RQUEUE_LEN - 1) < RQUEUE_LEN
    ensures RingOk(ring[And(head, RQUEUE_LEN - 1) := req], Wrap32(head + 1), tail, accepted + [req], taken)
  {
    hide Wrap32, And;
    RingSlot(|accepted|);
    WrappedIncrement(|accepted|);
    forall j | taken <= j < |accepted|
      ensures Residue(j, RQUEUE_LEN) != Residue(|accepted|, RQUEUE_LEN)
    {
      ResiduesDiffer(j, |accepted|, RQUEUE_LEN);
    }
  }

  lemma TakeKeeps(ring: seq<nat>, head: nat, tail: nat, accepted: seq<nat>, taken: nat)
    requires RingOk(ring, head, tail, accepted, taken) && taken < |accepted|
    ensures And(tail, RQUEUE_LEN - 1) < RQUEUE_LEN
    ensures ring[And(tail, RQUEUE_LEN - 1)] == accepted[taken]
    ensures RingOk(ring, head, Wrap32(tail + 1), accepted, taken + 1)
  {
    hide Wrap32, And, Residue;
    RingSlot(taken);
    WrappedIncrement(taken);
  }

  // The head count has passed a multiple of 2^32 that the tail count has not.
  predicate Crossed(taken: nat, pushed: nat)
  {
    taken / 0x1_0000_0000 < pushed / 0x1_0000_0000
  }

  /** The emptiness test compares the wrapped counters themselves: it sees pending requests exactly
      when there are some and head and tail are in the same 2^32 stretch. */
  lemma PendingExact(taken: nat, pushed: nat)
    requires taken <= pushed <= taken + RQUEUE_LEN
    ensures Wrap32(pushed) > Wrap32(taken) <==> taken < pushed && !Crossed(taken, pushed)
  {
    WrapIsRemainder(taken);
    WrapIsRemainder(pushed);
  }

  // One push past the wrap with a request still queued hides the whole queue.
  lemma WrapHidesQueue()
    ensures !(Wrap32(0x1_0000_0000) > Wrap32(0xFFFF_FFFF))
  {
  }

  class RequestQueue {
    const rqueue: array<nat>
    const tsqueue: array<nat>
    var head: nat
    var tail: nat
    ghost var accepted: seq<nat>
    ghost var taken: nat

    ghost predicate Valid()
      reads this, rqueue, tsqueue
    {
      && rqueue != tsqueue && tsqueue.Length == RQUEUE_LEN && rqueue.Length == RQUEUE_LEN
      && RingOk(rqueue[..], head, tail, accepted, taken)
    }

    constructor ()
      ensures Valid() && fresh(rqueue) && fresh(tsqueue) && accepted == [] && taken == 0
    {
      rqueue := new nat[RQUEUE_LEN](_ => 0);
      tsqueue := new nat[RQUEUE_LEN](_ => 0);
      head, tail := 0, 0;
      accepted, taken := [], 0;
    }

    /** push_to_rqueue: a request is dropped exactly when 4096 are pending. */
    method Push(req: nat, tsc: nat) returns (status: nat)
      requires Valid()
      modifies this, rqueue, tsqueue
      ensures Valid() && taken == old(taken)
      ensures status == if |old(accepted)| - old(taken) == RQUEUE_LEN then EXFULL else 0
      ensures accepted == if status == 0 then old(accepted) + [req] else old(accepted)
      ensures status == 0 ==> tsqueue[And(old(head), RQUEUE_LEN - 1)] == tsc
    {
      hide RingOk, Wrap32, And;
      FullExact(rqueue[..], head, tail, accepted, taken);
      RingBounds(rqueue[..], head, tail, accepted, taken);
      if Wrap32(head - tail) == RQUEUE_LEN {
        return EXFULL;
      }
      PushKeeps(rqueue[..], head, tail, accepted, taken, req);
      var at := And(head, RQUEUE_LEN - 1);
      tsqueue[at] := tsc;
      ghost var before := rqueue[..];
      rqueue[at] := req;
      assert rqueue[..] == before[at := req];
      head := Wrap32(head + 1);
      accepted := accepted + [req];
      return 0;
    }
  }

  lemma RingBounds(ring: seq<nat>, head: nat, tail: nat, accepted: seq<nat>, taken: nat)
    requires RingOk(ring, head, tail, accepted, taken)
    ensures |ring| == RQUEUE_LEN && taken <= |accepted| <= taken + RQUEUE_LEN
    ensures head == Wrap32(|accepted|) && tail == Wrap32(taken)
  {
  }

  // A channel with no send in progress and room for one more message.
  ghost predicate Open(c: Chan)
  {
    Inv(c) && c.spc.SendIdle? && |c.sent| - |c.received| < c.size
  }

  ghost predicate Between(c: Chan)
  {
    Inv(c) && c.spc.SendIdle?
  }

  // Nothing but the sender's private scratch has changed.
  predicate Untouched(c: Chan, d: Chan)
  {
    d == c.(msg := d.msg, tail := d.tail)
  }

  // A push between sends goes through exactly when there is room, and otherwise does nothing.
  lemma PushBetween(c: Chan, req: nat)
    requires Between(c)
    ensures Shape(c) && c.spc.SendIdle?
    ensures var r := SendCall(c, LrpcEndpoints.LRPC_TX, req);
            && (r.outcome.Sent? <==> Open(c))
            && (r.outcome.Sent? ==> Inv(r.chan) && r.chan.spc.SendIdle? && r.chan.received == c.received &&
                                    r.chan.sent == c.sent + [Msg(LrpcEndpoints.LRPC_TX, req)])
            && (!r.outcome.Sent? ==> Untouched(c, r.chan))
  {
    hide Inv;
    ShapeOf(c);
    SendCallEffect(c, LrpcEndpoints.LRPC_TX, req);
    RoomBound(c);
    RefusedUntouched(c, req);
  }

  lemma RoomBound(c: Chan)
    requires Inv(c) && c.spc.SendIdle?
    ensures |c.sent| - |c.received| <= c.size
  {
    hide And, Wrap32;
  }

  lemma RefusedUntouched(c: Chan, req: nat)
    requires Shape(c) && c.spc.SendIdle?
    ensures var r := SendCall(c, LrpcEndpoints.LRPC_TX, req); !r.outcome.Sent? ==> Untouched(c, r.chan)
  {
    hide And, Wrap32, Run;
  }

  lemma ShapeOf(c: Chan)
    requires Inv(c)
    ensures Shape(c)
  {
  }

  /** How many requests one drain hands out. */
  function DrainCount(taken: nat, pushed: nat, free: nat): nat
    requires taken <= pushed
  {
    if Crossed(taken, pushed) then 0 else Least(pushed - taken, |Peers(free)|)
  }

  // Peer peers[j] was sent reqs[j], and nobody else anything.
  ghost predicate Handed(was: seq<Chan>, now: seq<Chan>, peers: seq<nat>, reqs: seq<nat>)
    requires |peers| == |reqs|
  {
    && |now| == |was|
    && (forall j :: 0 <= j < |peers| ==>
          && peers[j] < |was|
          && now[peers[j]].sent == was[peers[j]].sent + [Msg(LrpcEndpoints.LRPC_TX, reqs[j])]
          && now[peers[j]].received == was[peers[j]].received)
    && (forall i :: 0 <= i < |was| && i !in peers ==> Untouched(was[i], now[i]))
  }

  lemma HandOne(was: seq<Chan>, now: seq<Chan>, peers: seq<nat>, reqs: seq<nat>, p: nat, req: nat, c: Chan)
    requires |peers| == |reqs| && Handed(was, now, peers, reqs) && p < |now| && p !in peers
    requires c.sent == now[p].sent + [Msg(LrpcEndpoints.LRPC_TX, req)] && c.received == now[p].received
    ensures Handed(was, now[p := c], peers + [p], reqs + [req])
  {
    assert Untouched(was[p], now[p]);
    var after, all := now[p := c], peers + [p];
    forall i | 0 <= i < |was| && i !in all
      ensures Untouched(was[i], after[i])
    {
      assert all[|peers|] == p;
      assert forall k :: 0 <= k < |peers| ==> all[k] == peers[k];
    }
  }

  // ---------- service times ----------

  // The profile of one request type.
  datatype Window = Window(mean: nat, count: nat)

  // The running mean in 64-bit integers.
  function Updated(w: Window, service: nat): Window
  {
    Window((service + w.mean * w.count) % WORD64 / (w.count + 1), w.count + 1)
  }

  function WindowOf(times: seq<nat>): Window
  {
    if times == [] then Window(0, 0) else Updated(WindowOf(times[..|times| - 1]), times[|times| - 1])
  }

  /** While the service times add up to less than 2^64, the running mean never exceeds the true mean
      and never falls below the least service time. */
  lemma {:induction false} RunningMean(times: seq<nat>, least: nat)
    requires Sum(times) < WORD64 && forall i :: 0 <= i < |times| ==> times[i] >= least
    ensures var w := WindowOf(times);
            w.count == |times| && w.mean * w.count <= Sum(times) && (times != [] ==> w.mean >= least)
  {
    if times != [] {
      var n := |times| - 1;
      RunningMean(times[..n], least);
      MeanStep(WindowOf(times[..n]), times[n], Sum(times[..n]), least);
    }
  }

  lemma MeanStep(w: Window, service: nat, total: nat, least: nat)
    requires w.mean * w.count <= total && total + service < WORD64 && service >= least
    requires w.count > 0 ==> w.mean >= least
    ensures var u := Updated(w, service); u.mean * u.count <= total + service && u.mean >= least
  {
    var x := service + w.mean * w.count;
    assert x % WORD64 == x;
    var u := Updated(w, service);
    DivisionBound(x, w.count + 1);
    if w.count > 0 {
      Scaled(least, w.mean, w.count);
      assert least * (w.count + 1) == least * w.count + least;
    }
    AtLeastQuotient(x, w.count + 1, least);
  }

  lemma DivisionBound(x: nat, d: nat)
    requires d > 0
    ensures x / d * d <= x
  {
  }

  lemma AtLeastQuotient(x: nat, d: nat, q: nat)
    requires d > 0 && q * d <= x
    ensures x / d >= q
  {
    assert x == x / d * d + x % d;
    assert (x / d + 1) * d == x / d * d + d;
    Ordered(q, x / d + 1, d);
  }

  class Dispatcher {
    const queue: RequestQueue
    const dptTsc: array<nat>
    var freePeers: nat
    var egress: seq<Chan>
    var dispatched: nat
    var windows: map<nat, Window>

    // Every free peer has a channel, with no send in progress on it.
    ghost predicate FreeBetween()
      reads this
    {
      forall j :: 0 <= j < |Peers(freePeers)| ==>
        Peers(freePeers)[j] < |egress| && Between(egress[Peers(freePeers)[j]])
    }

    constructor (queue: RequestQueue, peers: nat, channels: seq<Chan>)
      ensures this.queue == queue && freePeers == Pow2(peers) - 1 && egress == channels
      ensures fresh(dptTsc) && dptTsc.Length == |channels|
    {
      this.queue := queue;
      freePeers := Pow2(peers) - 1;
      egress := channels;
      dispatched := 0;
      windows := map[];
      dptTsc := new nat[|channels|](_ => 0);
    }

    /** signal_free_worker: the peer, and no other, becomes free, and the service time, from dispatch to
        completion, goes into the profile of the request's type and no other. */
    method SignalFreeWorker(peer: nat, notif: nat)
      requires peer < dptTsc.Length
      modifies this`freePeers, this`windows
      ensures forall k :: HasBit(freePeers, k) <==> HasBit(old(freePeers), k) || k == peer
      ensures forall t: nat, c: nat :: t < 16 && c < 0x1000_0000_0000_0000 && notif == Notif(t, c) ==>
                windows == old(windows)[t := Updated(if t in old(windows) then old(windows)[t] else Window(0, 0),
                                                     (c - dptTsc[peer]) % WORD64)]
    {
      hide HasBit, Or, Pow2, Notif, NotifType, NotifTsc, Updated;
      var typ, cplt := NotifType(notif), NotifTsc(notif);
      forall t: nat, c: nat | t < 16 && c < 0x1000_0000_0000_0000 && notif == Notif(t, c)
        ensures typ == t && cplt == c
      {
        NotifExact(t, c);
      }
      var service := (cplt - dptTsc[peer]) % WORD64;
      windows := windows[typ := Updated(if typ in windows then windows[typ] else Window(0, 0), service)];
      forall k
        ensures HasBit(Or(freePeers, Pow2(peer)), k) <==> HasBit(freePeers, k) || k == peer
      {
        OrBit(freePeers, peer, k);
      }
      freePeers := Or(freePeers, Pow2(peer));
    }

    // One round of the drain loop.  A refused push would leave everything for another try.
    method PushNext(clock: nat) returns (done: bool)
      requires queue.rqueue.Length == RQUEUE_LEN && And(queue.tail, RQUEUE_LEN - 1) < RQUEUE_LEN
      requires freePeers > 0 && Ctz(freePeers) < |egress| == dptTsc.Length
      requires Shape(egress[Ctz(freePeers)]) && egress[Ctz(freePeers)].spc.SendIdle?
      requires dptTsc != queue.rqueue && dptTsc != queue.tsqueue
      modifies this, queue, dptTsc
      ensures var peer := old(Ctz(freePeers)); var req := old(queue.rqueue[And(queue.tail, RQUEUE_LEN - 1)]);
              var r := SendCall(old(egress)[peer], LrpcEndpoints.LRPC_TX, req);
              && done == r.outcome.Sent? && egress == old(egress)[peer := r.chan]
              && (r.outcome.Sent? ==>
                    && queue.tail == Wrap32(old(queue.tail) + 1) && queue.taken == old(queue.taken) + 1
                    && freePeers == Xor(old(freePeers), Pow2(peer)) && dispatched == old(dispatched) + 1
                    && dptTsc[peer] == clock)
              && (!r.outcome.Sent? ==> unchanged(queue) && freePeers == old(freePeers) && dispatched == old(dispatched))
      ensures queue.accepted == old(queue.accepted) && queue.head == old(queue.head)
      ensures forall i :: 0 <= i < dptTsc.Length && (i != old(Ctz(freePeers)) || !done) ==> dptTsc[i] == old(dptTsc[i])
    {
      hide Wrap32, And, Ctz, Xor, SendCall, Pow2;
      var req := queue.rqueue[And(queue.tail, RQUEUE_LEN - 1)];
      var peer := Ctz(freePeers);
      var sent := SendCall(egress[peer], LrpcEndpoints.LRPC_TX, req);
      egress := egress[peer := sent.chan];
      if sent.outcome.Sent? {
        dispatched := dispatched + 1;
        queue.tail := Wrap32(queue.tail + 1);
        queue.taken := queue.taken + 1;
        freePeers := Xor(freePeers, Pow2(peer));
        dptTsc[peer] := clock;
      }
      done := sent.outcome.Sent?;
    }

    /** drain_queue, up to a refused push, which would be repeated.  The oldest pending requests go, in
        order, to the lowest-numbered free peers, one each, and exactly those peers stop being free.  It
        stops short only at a free peer whose channel is full. */
    method DrainQueue(clock: nat) returns (stuck: bool, ghost k: nat)
      requires queue.Valid() && FreeBetween() && dptTsc.Length == |egress|
      requires dptTsc != queue.rqueue && dptTsc != queue.tsqueue
      modifies this, queue, dptTsc
      ensures queue.Valid() && queue.accepted == old(queue.accepted)
      ensures k <= DrainCount(old(queue.taken), |queue.accepted|, old(freePeers)) <= |old(Peers(freePeers))|
      ensures stuck <==> k < DrainCount(old(queue.taken), |queue.accepted|, old(freePeers))
      ensures stuck ==> !Open(old(egress)[old(Peers(freePeers))[k]])
      ensures && queue.taken == old(queue.taken) + k && dispatched == old(dispatched) + k
              && Peers(freePeers) == old(Peers(freePeers))[k..]
              && Handed(old(egress), egress, old(Peers(freePeers))[..k],
                        queue.accepted[old(queue.taken)..queue.taken])
              && (forall j :: 0 <= j < k ==> dptTsc[old(Peers(freePeers))[j]] == clock)
    {
      hide RingOk, Wrap32, And, Peers, Ctz, Xor, Open, Between, SendCall, Pow2, Handed, Progress;
      ghost var start := Begun(queue.rqueue[..], queue.accepted, queue.taken, freePeers, egress);
      k, stuck := 0, false;
      StartDrain(start, queue.head, queue.tail);
      while queue.head > queue.tail && freePeers > 0 && !stuck
        invariant queue.accepted == start.accepted && queue.rqueue[..] == start.ring
        invariant queue.taken == start.taken + k && dispatched == old(dispatched) + k
        invariant Progress(start, k, queue.head, queue.tail, freePeers, egress, stuck)
        invariant |egress| == dptTsc.Length && k <= |Peers(start.free)|
        invariant forall j :: 0 <= j < k ==>
                    Peers(start.free)[j] < dptTsc.Length && dptTsc[Peers(start.free)[j]] == clock
        invariant stuck ==> && queue.head > queue.tail && freePeers > 0
                            && k < |Peers(start.free)| && !Open(start.egress[Peers(start.free)[k]])
        decreases |Peers(start.free)| - k, !stuck
      {
        Advance(start, k, queue.head, queue.tail, freePeers, egress);
        var sent := PushNext(clock);
        if sent {
          k := k + 1;
        } else {
          stuck := true;
        }
      }
      EndDrain(start, k, queue.head, queue.tail, freePeers, egress, stuck);
    }
  }

  // Where a drain began.
  datatype Begun = Begun(ring: seq<nat>, accepted: seq<nat>, taken: nat, free: nat, egress: seq<Chan>)

  // After k successful rounds and, if stuck, a refused one.
  ghost predicate Progress(s: Begun, k: nat, head: nat, tail: nat, free: nat, egress: seq<Chan>, stuck: bool)
  {
    var all := Peers(s.free);
    && k <= |all| && s.taken + k <= |s.accepted|
    && RingOk(s.ring, head, tail, s.accepted, s.taken + k)
    && Peers(free) == all[k..]
    && |egress| == |s.egress|
    && (forall j :: k <= j < |all| ==>
          all[j] < |egress| && Between(s.egress[all[j]]) && ((j == k && stuck) || egress[all[j]] == s.egress[all[j]]))
    && Handed(s.egress, egress, all[..k], s.accepted[s.taken..s.taken + k])
    && (k > 0 ==> !Crossed(s.taken, |s.accepted|))
  }

  lemma StartDrain(s: Begun, head: nat, tail: nat)
    requires RingOk(s.ring, head, tail, s.accepted, s.taken)
    requires forall j :: 0 <= j < |Peers(s.free)| ==>
               Peers(s.free)[j] < |s.egress| && Between(s.egress[Peers(s.free)[j]])
    ensures Progress(s, 0, head, tail, s.free, s.egress, false)
  {
    hide RingOk, Between, Peers, Handed;
    RingBounds(s.ring, head, tail, s.accepted, s.taken);
    HandNone(s.egress);
    assert Peers(s.free)[..0] == [] && s.accepted[s.taken..s.taken + 0] == [];
  }

  lemma Advance(s: Begun, k: nat, head: nat, tail: nat, free: nat, egress: seq<Chan>)
    requires Progress(s, k, head, tail, free, egress, false) && head > tail && free > 0
    ensures |s.ring| == RQUEUE_LEN && And(tail, RQUEUE_LEN - 1) < RQUEUE_LEN
    ensures Ctz(free) < |egress| == |s.egress| && Shape(egress[Ctz(free)]) && egress[Ctz(free)].spc.SendIdle?
    ensures k < |Peers(s.free)| && Ctz(free) == Peers(s.free)[k]
    ensures var r := SendCall(egress[Ctz(free)], LrpcEndpoints.LRPC_TX, s.ring[And(tail, RQUEUE_LEN - 1)]);
            if r.outcome.Sent? then
              Progress(s, k + 1, head, Wrap32(tail + 1), Xor(free, Pow2(Ctz(free))), egress[Ctz(free) := r.chan], false)
            else
              !Open(s.egress[Peers(s.free)[k]]) && Progress(s, k, head, tail, free, egress[Ctz(free) := r.chan], true)
  {
    hide RingOk, Wrap32, And, Peers, Ctz, Xor, Open, Between, SendCall, Pow2, Handed, Untouched;
    var all, at := Peers(s.free), s.taken + k;
    RingBounds(s.ring, head, tail, s.accepted, at);
    PendingExact(at, |s.accepted|);
    TakeKeeps(s.ring, head, tail, s.accepted, at);
    var req := s.ring[And(tail, RQUEUE_LEN - 1)];
    TakeLowest(free);
    var peer := Ctz(free);
    assert peer == all[k];
    PeersAre(s.free);
    PushBetween(egress[peer], req);
    var sent := SendCall(egress[peer], LrpcEndpoints.LRPC_TX, req);
    if sent.outcome.Sent? {
      HandOne(s.egress, egress, all[..k], s.accepted[s.taken..at], peer, req, sent.chan);
      assert all[..k] + [peer] == all[..k + 1];
      SliceGrows(s.accepted, s.taken, at);
      assert all[k..][1..] == all[k + 1..];
      SameStretch(s.taken, at, |s.accepted|);
    } else {
      TouchOne(s.egress, egress, all[..k], s.accepted[s.taken..at], peer, sent.chan);
    }
  }

  lemma TouchOne(was: seq<Chan>, now: seq<Chan>, peers: seq<nat>, reqs: seq<nat>, p: nat, c: Chan)
    requires |peers| == |reqs| && Handed(was, now, peers, reqs) && p < |now| && p !in peers && Untouched(now[p], c)
    ensures Handed(was, now[p := c], peers, reqs)
  {
  }

  lemma SliceGrows(a: seq<nat>, i: nat, j: nat)
    requires i <= j < |a|
    ensures a[i..j] + [a[j]] == a[i..j + 1]
  {
  }

  lemma EndDrain(s: Begun, k: nat, head: nat, tail: nat, free: nat, egress: seq<Chan>, stuck: bool)
    requires Progress(s, k, head, tail, free, egress, stuck) && (stuck <==> head > tail && free > 0)
    ensures RingOk(s.ring, head, tail, s.accepted, s.taken + k)
    ensures s.taken + k <= |s.accepted|
    ensures k <= DrainCount(s.taken, |s.accepted|, s.free) <= |Peers(s.free)|
    ensures stuck <==> k < DrainCount(s.taken, |s.accepted|, s.free)
    ensures Peers(free) == Peers(s.free)[k..]
    ensures Handed(s.egress, egress, Peers(s.free)[..k], s.accepted[s.taken..s.taken + k])
  {
    hide RingOk, Wrap32, Peers, Between, Handed;
    RingBounds(s.ring, head, tail, s.accepted, s.taken + k);
    PendingExact(s.taken + k, |s.accepted|);
    NoPeers(free);
    if Crossed(s.taken + k, |s.accepted|) { StretchEnds(s.taken, k, |s.accepted|); }
    else { SameEnds(s.taken, k, |s.accepted|); }
  }

  lemma SameEnds(start: nat, k: nat, pushed: nat)
    requires start + k <= pushed && (k > 0 ==> !Crossed(start, pushed)) && !Crossed(start + k, pushed)
    ensures !Crossed(start, pushed)
  {
  }

  lemma StretchEnds(start: nat, k: nat, pushed: nat)
    requires start + k <= pushed && Crossed(start + k, pushed)
    ensures Crossed(start, pushed)
  {
  }

  lemma HandNone(e: seq<Chan>)
    ensures Handed(e, e, [], [])
  {
  }

  lemma {:induction false} NoPeers(free: nat)
    ensures free == 0 <==> Peers(free) == []
  {
    if free > 0 { TakeLowest(free); }
  }

  lemma SameStretch(start: nat, at: nat, pushed: nat)
    requires start <= at < pushed && !Crossed(at, pushed) && (at == start || !Crossed(start, pushed))
    ensures !Crossed(start, pushed)
  {
  }
}
