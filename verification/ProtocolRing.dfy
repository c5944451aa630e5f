/** The inbound ring with its 128 slots.  The packet source stores without a test of fullness, so a
    packet that arrives with 128 waiting lands on the oldest one's slot and is read there too. */
module ProtocolRing {
  import opened Mempools
  import opened TaskQueues
  import opened Contexts
  import opened Protocol
  import opened ProtocolInvariant
  import opened ProtocolTraffic
  import opened ProtocolRuns
  import opened ProtocolLateInit
  import NetWorkers

  // Packets not yet read: one the batch loop has in its hands is past being overwritten.
  function Waiting(s: Sys): int
  {
    |s.m.inbound| - One(s.d.pc.BatchEnq?)
  }

  predicate Overflows(s: Sys, a: Act)
  {
    a.Arrival? && a.mbuf !in s.h.place && Waiting(s) >= NetWorkers.INBOUND_Q_LEN
  }

  // What is left to read once b is stored: b wherever a waiting index has the same slot as the new one.
  function Stored(waiting: seq<nat>, b: nat): seq<nat>
  {
    seq(|waiting| + 1, j requires 0 <= j <= |waiting| =>
      if (|waiting| - j) % NetWorkers.INBOUND_Q_LEN == 0 then b else waiting[j])
  }

  function Overflowed(s: Sys, b: nat): Sys
  {
    s.(m := s.m.(inbound := Stored(s.m.inbound, b)),
       h := s.h.(arrived := s.h.arrived + [b], place := s.h.place[b := InRing]))
  }

  function RingStep(s: Sys, a: Act): Sys
    requires Shape(s)
  {
    if Overflows(s, a) then Overflowed(s, a.mbuf) else Step(s, a)
  }

  lemma RingShape(s: Sys, a: Act)
    requires Shape(s)
    ensures Shape(RingStep(s, a)) && |RingStep(s, a).lanes| == |s.lanes|
  {
    hide Step;
    ShapeKept(s, a);
  }

  ghost function RingRun(s: Sys, acts: seq<Act>): (t: Sys)
    requires Shape(s)
    ensures Shape(t) && |t.lanes| == |s.lanes|
    decreases |acts|
  {
    if acts == [] then s
    else
      RingShape(s, acts[0]);
      RingRun(RingStep(s, acts[0]), acts[1..])
  }

  ghost predicate NeverOverflows(s: Sys, acts: seq<Act>)
    requires Shape(s)
    decreases |acts|
  {
    acts == [] ||
    (!Overflows(s, acts[0]) && (RingShape(s, acts[0]); NeverOverflows(RingStep(s, acts[0]), acts[1..])))
  }

  ghost predicate RingConserves(s: Sys, acts: seq<Act>)
    requires Shape(s)
    decreases |acts|
  {
    Conserved(s) &&
    (acts == [] || (RingShape(s, acts[0]); RingConserves(RingStep(s, acts[0]), acts[1..])))
  }

  // Short of an overflow, every theorem about Run is one about the ring.
  lemma {:induction false} RingIsRun(s: Sys, acts: seq<Act>)
    requires Shape(s) && NeverOverflows(s, acts)
    ensures RingRun(s, acts) == Run(s, acts)
    decreases |acts|
  {
    hide Step, Overflowed;
    if acts != [] {
      RingShape(s, acts[0]);
      ShapeKept(s, acts[0]);
      RingIsRun(Step(s, acts[0]), acts[1..]);
    }
  }

  // ---------- the overwritten packet ----------

  function Overwritten(s: Sys): nat
    requires |s.m.inbound| >= NetWorkers.INBOUND_Q_LEN
  {
    s.m.inbound[|s.m.inbound| - NetWorkers.INBOUND_Q_LEN]
  }

  lemma OverflowLoses(s: Sys, b: nat)
    requires Inv(s) && |s.m.inbound| >= NetWorkers.INBOUND_Q_LEN && b !in s.h.place
    ensures var p, u := Overwritten(s), Overflowed(s, b);
            && p in s.h.arrived && p in u.h.place && p !in u.m.inbound && p !in u.m.freed
            && (forall j :: 0 <= j < |u.m.queue| ==> u.m.queue[j].mbuf != p)
            && (forall i: nat :: !SlotHolds(u.lanes, i, p))
  {
    hide LaneOk, CtxOk, DispatchesOf, CoOk, Descends, Owns, Outstanding, FullService, PoolsOk;
    var p, u := Overwritten(s), Overflowed(s, b);
    assert p in s.m.inbound && Placed(s.h.place, p, InRing);
    assert p in s.h.arrived && p != b;
    assert p !in u.m.inbound;
    assert p in s.m.freed <==> Placed(s.h.place, p, Done);
    forall j | 0 <= j < |s.m.queue|
      ensures s.m.queue[j].mbuf != p
    {
      assert QueuedOk(s.m.queue[j], s.h, s.m.cos);
    }
    forall i: nat
      ensures !SlotHolds(u.lanes, i, p)
    {
      if i < |s.lanes| && s.lanes[i].job.Some? {
        assert HeldOk(s.lanes[i], s.lanes[i].job.value, i, StageOf(s, i), s.h, s.m.cos);
      }
    }
  }

  lemma NotInHand(s: Sys, p: nat)
    requires Inv(s) && (s.d.pc.BatchEnq? ==> s.m.inbound[0] != p) && forall i: nat :: !SlotHolds(s.lanes, i, p)
    ensures HandClean(s.d, p)
  {
    hide HoldersOk, QueueOk, TokensOk, PoolsOk, WorkingOk;
    if s.d.at < |s.lanes| && (PutRank(s.d.pc) >= 0 || PreRank(s.d.pc) >= 2) {
      assert LaneOk(s.lanes[s.d.at], At(s.d.pc), s.d.task);
      assert !SlotHolds(s.lanes, s.d.at, p);
    }
  }

  /** It is in no place a step could release it from. */
  lemma OverflowNoTrace(s: Sys, b: nat)
    requires Inv(s) && Overflows(s, Arrival(b))
    ensures Overwritten(s) in s.h.arrived && NoTrace(Overflowed(s, b), Overwritten(s))
  {
    hide HoldersOk, QueueOk, PoolsOk, HandOk, LaneOk, LaneClean, HandClean;
    var p, u := Overwritten(s), Overflowed(s, b);
    OverflowLoses(s, b);
    NotInHand(s, p);
    forall i | 0 <= i < |u.lanes|
      ensures LaneClean(u.lanes[i], StageOf(u, i), p)
    {
      assert LaneOk(s.lanes[i], StageOf(s, i), s.d.task) && !SlotHolds(s.lanes, i, p);
      OtherClean(s.lanes[i], StageOf(s, i), s.d.task, p);
    }
  }

  lemma OverflowedNoTrace(s: Sys, c: nat, p: nat)
    requires NoTrace(s, p) && c !in s.h.place
    ensures NoTrace(Overflowed(s, c), p)
  {
    hide LaneClean, HandClean;
    var u := Overflowed(s, c);
    assert p !in u.m.inbound;
    forall i | 0 <= i < |u.lanes|
      ensures LaneClean(u.lanes[i], StageOf(u, i), p)
    {
      assert LaneClean(s.lanes[i], StageOf(s, i), p);
    }
  }

  lemma {:induction false} NoTraceAlong(s: Sys, acts: seq<Act>, p: nat)
    requires Shape(s) && NoTrace(s, p)
    ensures NoTrace(RingRun(s, acts), p)
    decreases |acts|
  {
    hide NoTrace, Step, Overflowed;
    if acts != [] {
      RingShape(s, acts[0]);
      if Overflows(s, acts[0]) { OverflowedNoTrace(s, acts[0].mbuf, p); } else { NoTraceStep(s, acts[0], p); }
      NoTraceAlong(RingStep(s, acts[0]), acts[1..], p);
    }
  }

  lemma {:induction false} ArrivedStays(s: Sys, acts: seq<Act>, p: nat)
    requires Shape(s) && p in s.h.arrived
    ensures p in RingRun(s, acts).h.arrived
    decreases |acts|
  {
    hide Step;
    if acts != [] {
      RingShape(s, acts[0]);
      ArrivedStep(s, acts[0], p);
      ArrivedStays(RingStep(s, acts[0]), acts[1..], p);
    }
  }

  lemma ArrivedStep(s: Sys, a: Act, p: nat)
    requires Shape(s) && p in s.h.arrived
    ensures p in Step(s, a).h.arrived
  {
    hide Outstanding, FreeList, Take, ContextAlloc, ContextFree, RunLoop, Resume;
  }

  // Packet p arrived, and no continuation releases it.
  ghost predicate RingStranded(s: Sys, p: nat)
    requires Shape(s)
  {
    p in s.h.arrived && forall acts :: p !in RingRun(s, acts).m.freed
  }

  lemma StrandedForGood(s: Sys, p: nat)
    requires Shape(s) && NoTrace(s, p) && p in s.h.arrived
    ensures RingStranded(s, p)
  {
    hide NoTrace, RingRun;
    forall acts
      ensures p !in RingRun(s, acts).m.freed
    {
      NoTraceAlong(s, acts, p);
      NotFreed(RingRun(s, acts), p);
    }
  }

  lemma {:induction false} OverflowStrands(s: Sys, acts: seq<Act>) returns (p: nat)
    requires Inv(s) && Shape(s) && !NeverOverflows(s, acts)
    ensures RingStranded(RingRun(s, acts), p)
    decreases |acts|
  {
    hide Inv, Step, Overflowed, NoTrace, RingStranded, Overwritten;
    RingShape(s, acts[0]);
    var u := RingStep(s, acts[0]);
    if Overflows(s, acts[0]) {
      p := Overwritten(s);
      OverflowNoTrace(s, acts[0].mbuf);
      ArrivedOver(s, acts[0].mbuf, p);
      NoTraceAlong(u, acts[1..], p);
      ArrivedStays(u, acts[1..], p);
      StrandedForGood(RingRun(u, acts[1..]), p);
    } else {
      StepKeeps(s, acts[0]);
      p := OverflowStrands(u, acts[1..]);
    }
  }

  lemma ArrivedOver(s: Sys, b: nat, p: nat)
    requires p in s.h.arrived
    ensures p in Overflowed(s, b).h.arrived
  {
  }

  // ---------- conservation ----------

  lemma InvConserves(s: Sys)
    requires Inv(s)
    ensures Conserved(s)
  {
    hide Inv, ConservedAt;
    forall b: nat
      ensures ConservedAt(s, b)
    {
      PlacesExclusive(s, b);
    }
  }

  lemma {:induction false} RingExact(s: Sys, acts: seq<Act>)
    requires Inv(s)
    ensures Shape(s) && (RingConserves(s, acts) <==> NeverOverflows(s, acts))
    decreases |acts|
  {
    hide Inv, Step, Conserved, Overflowed;
    InvShape(s);
    InvConserves(s);
    if acts != [] {
      RingShape(s, acts[0]);
      if Overflows(s, acts[0]) {
        var u := RingStep(s, acts[0]);
        LostAtOnce(s, acts[0].mbuf);
        assert RingConserves(u, acts[1..]) ==> Conserved(u);
      } else {
        StepKeeps(s, acts[0]);
        RingExact(Step(s, acts[0]), acts[1..]);
      }
    }
  }

  lemma LostAtOnce(s: Sys, b: nat)
    requires Inv(s) && |s.m.inbound| >= NetWorkers.INBOUND_Q_LEN && b !in s.h.place
    ensures !Conserved(Overflowed(s, b))
  {
    hide Inv, Stored;
    OverflowLoses(s, b);
    var p: nat := Overwritten(s);
    assert !ConservedAt(Overflowed(s, b), p);
  }

  /** Over every run from a start, packets are conserved at every point if and only if none arrives
      while 128 are waiting.  If one does, some packet is never released, whatever comes after. */
  lemma RingConservationExact(s0: Sys, acts: seq<Act>)
    requires Start(s0)
    ensures Shape(s0) && (RingConserves(s0, acts) <==> NeverOverflows(s0, acts))
    ensures !NeverOverflows(s0, acts) ==> exists p: nat :: RingStranded(RingRun(s0, acts), p)
  {
    hide Inv, RingConserves, NeverOverflows, Start, RingStranded, RingRun;
    StartOk(s0);
    RingExact(s0, acts);
    if !NeverOverflows(s0, acts) {
      var p := OverflowStrands(s0, acts);
      assert RingStranded(RingRun(s0, acts), p);
    }
  }

  // ---------- when that is certain ----------

  function ArrivalCount(acts: seq<Act>): nat
  {
    if acts == [] then 0 else (if acts[0].Arrival? then 1 else 0) + ArrivalCount(acts[1..])
  }

  lemma {:induction false} CountAdds(a: seq<Act>, b: seq<Act>)
    ensures ArrivalCount(a + b) == ArrivalCount(a) + ArrivalCount(b)
  {
    if a == [] {
      assert a + b == b;
    } else {
      CountAdds(a[1..], b);
      assert (a + b)[1..] == a[1..] + b;
    }
  }

  lemma {:induction false} NeverOverflowsThen(s: Sys, a: seq<Act>, b: seq<Act>)
    requires Shape(s) && NeverOverflows(s, a) && NeverOverflows(Run(s, a), b)
    ensures NeverOverflows(s, a + b)
    decreases |a|
  {
    hide Step, Overflowed;
    if a == [] {
      assert a + b == b;
    } else {
      ShapeKept(s, a[0]);
      NeverOverflowsThen(Step(s, a[0]), a[1..], b);
      assert (a + b)[1..] == a[1..] + b;
    }
  }

  lemma InboundStep(s: Sys, a: Act)
    requires Shape(s)
    ensures |Step(s, a).m.inbound| <= |s.m.inbound| + (if a.Arrival? then 1 else 0)
  {
    hide Outstanding, FreeList, Take, ContextAlloc, ContextFree, RunLoop, Resume;
  }

  /** No more than 128 packets in all never overflow the ring. */
  lemma {:induction false} FewFit(s: Sys, acts: seq<Act>)
    requires Shape(s) && |s.m.inbound| + ArrivalCount(acts) <= NetWorkers.INBOUND_Q_LEN
    ensures NeverOverflows(s, acts)
    decreases |acts|
  {
    hide Step, Overflowed;
    if acts != [] {
      RingShape(s, acts[0]);
      InboundStep(s, acts[0]);
      FewFit(RingStep(s, acts[0]), acts[1..]);
    }
  }

  // Packets b, b + 1 and so on, n of them.
  function Burst(b: nat, n: nat): seq<Act>
    decreases n
  {
    if n == 0 then [] else [Arrival(b)] + Burst(b + 1, n - 1)
  }

  lemma {:induction false} BurstFills(s: Sys, k: nat)
    requires Shape(s) && k <= NetWorkers.INBOUND_Q_LEN
    requires |s.m.inbound| == k && !s.d.pc.BatchEnq? && forall b :: b in s.h.place ==> b < k
    ensures !NeverOverflows(s, Burst(k, NetWorkers.INBOUND_Q_LEN + 1 - k))
    decreases NetWorkers.INBOUND_Q_LEN - k
  {
    var acts := Burst(k, NetWorkers.INBOUND_Q_LEN + 1 - k);
    assert acts[0] == Arrival(k) && acts[1..] == Burst(k + 1, NetWorkers.INBOUND_Q_LEN - k);
    if k < NetWorkers.INBOUND_Q_LEN {
      RingShape(s, acts[0]);
      BurstFills(RingStep(s, acts[0]), k + 1);
    }
  }

  /** 129 packets that come before the dispatcher's first step, whatever the start: one is lost. */
  lemma OverflowHappens(s0: Sys)
    requires Start(s0)
    ensures Shape(s0)
    ensures var acts := Burst(0, NetWorkers.INBOUND_Q_LEN + 1);
            !RingConserves(s0, acts) && exists p: nat :: RingStranded(RingRun(s0, acts), p)
  {
    hide Inv, RingConserves, NeverOverflows, Burst, RingStranded, RingRun;
    StartOk(s0);
    InvShape(s0);
    BurstFills(s0, 0);
    RingConservationExact(s0, Burst(0, NetWorkers.INBOUND_Q_LEN + 1));
  }
}
