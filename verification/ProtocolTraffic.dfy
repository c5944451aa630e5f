/** The steps of the scheduling protocol that move packets: arrival, admission into
    the task queue, and dispatch. */
module ProtocolTraffic {
  import opened Constants
  import opened Mempools
  import opened TaskQueues
  import opened Contexts
  import opened Protocol
  import opened ProtocolInvariant
  import opened ProtocolSteps

  // ---------- tskq_dequeue ----------

  lemma AtDeq(l: Lane, dt: Task, t: Task)
    requires LaneOk(l, At(Deq), dt) && (t.category == PACKET || t.category == CONTEXT)
    ensures LaneOk(l.(job := Some(t), given := l.given + [t]), At(PutRun), t)
    ensures l.respFlag == PROCESSED && l.wpc.Spin?
  {
    assert (l.given + [t])[..|l.given|] == l.given;
  }

  lemma FreshlyPostedCo(l: Lane, t: Task, cos: map<Addr, Co>)
    requires l.respFlag == PROCESSED && l.wpc.Spin?
    requires t.category == CONTEXT ==> CoIs(cos, t.rnbl, Suspended(t))
    ensures CoOk(l, t, cos)
  {
  }

  lemma DeqHolders(s: Sys)
    requires Inv(s) && s.d.pc.Deq? && s.m.queue != []
    ensures LanesOk(DequeueStep(s, 0)) && HoldersOk(DequeueStep(s, 0))
  {
    hide LaneOk, CtxOk, DispatchesOf, CoOk, TokensOk, PoolsOk, Outstanding;
    var u := DequeueStep(s, 0);
    var t := s.m.queue[0];
    assert QueuedOk(t, s.h, s.m.cos);
    assert LaneOk(s.lanes[s.d.at], StageOf(s, s.d.at), s.d.task);
    AtDeq(s.lanes[s.d.at], s.d.task, t);
    FreshlyPostedCo(u.lanes[s.d.at], t, s.m.cos);
    LogAppend(s.h.log, t, t.mbuf);
    forall j | 0 <= j < |u.lanes|
      ensures LaneOk(u.lanes[j], StageOf(u, j), u.d.task)
    {
      assert LaneOk(s.lanes[j], StageOf(s, j), s.d.task);
      if j != s.d.at { StageIrrelevant(s.lanes[j], Away, Away, s.d.task, u.d.task); }
    }
    forall j | 0 <= j < |u.lanes| && u.lanes[j].job.Some?
      ensures HeldOk(u.lanes[j], u.lanes[j].job.value, j, StageOf(u, j), u.h, u.m.cos)
    {
      if j != s.d.at {
        var t' := s.lanes[j].job.value;
        assert HeldOk(s.lanes[j], t', j, StageOf(s, j), s.h, s.m.cos);
        LogAppend(s.h.log, t, t'.mbuf);
      }
    }
  }

  // A waiting task does not notice another one leaving for slot i.
  lemma StillQueued(q: Task, h: Hist, cos: map<Addr, Co>, t: Task, i: nat)
    requires QueuedOk(q, h, cos) && q.mbuf != t.mbuf
    ensures QueuedOk(q, h.(log := h.log + [t], place := h.place[t.mbuf := InSlot(i)]), cos)
  {
    hide DispatchesOf;
    LogAppend(h.log, t, q.mbuf);
  }

  lemma DeqQueue(s: Sys)
    requires QueueOk(s) && s.d.at < |s.lanes| && s.m.queue != []
    ensures QueueOk(DequeueStep(s, 0))
  {
    hide QueuedOk;
    var u := DequeueStep(s, 0);
    var q := s.m.queue;
    forall j | 0 <= j < |u.m.queue|
      ensures QueuedOk(u.m.queue[j], u.h, u.m.cos)
    {
      assert u.m.queue[j] == q[j + 1];
      StillQueued(q[j + 1], s.h, s.m.cos, q[0], s.d.at);
    }
    forall i, j | 0 <= i < j < |u.m.queue|
      ensures u.m.queue[i].mbuf != u.m.queue[j].mbuf
    {
      assert q[i + 1].mbuf != q[j + 1].mbuf;
    }
  }

  lemma DeqTokens(s: Sys)
    requires Inv(s) && s.d.pc.Deq? && s.m.queue != []
    ensures TokensOk(DequeueStep(s, 0))
  {
    hide LaneOk, CtxOk, DispatchesOf, CoOk, Descends, Outstanding, HoldersOk;
    var u := DequeueStep(s, 0);
    var t := s.m.queue[0];
    assert QueuedOk(t, s.h, s.m.cos);
    assert LaneOk(s.lanes[s.d.at], StageOf(s, s.d.at), s.d.task);
    EmptyAtDeq(s.lanes[s.d.at], s.d.task);
    forall b, i | Placed(u.h.place, b, InSlot(i))
      ensures SlotHolds(u.lanes, i, b)
    {
      if b != t.mbuf { assert SlotHolds(s.lanes, i, b); }
    }
    forall b
      ensures b in u.m.freed <==> Placed(u.h.place, b, Done)
      ensures b in u.m.inbound <==> Placed(u.h.place, b, InRing)
    {
      assert b in s.m.freed <==> Placed(s.h.place, b, Done);
      assert b in s.m.inbound <==> Placed(s.h.place, b, InRing);
    }
    forall b | Placed(u.h.place, b, InQueue)
      ensures QueuedSomewhere(u.m.queue, b)
    {
      assert QueuedSomewhere(s.m.queue, b);
      var j :| 0 <= j < |s.m.queue| && s.m.queue[j].mbuf == b;
      assert u.m.queue[j - 1].mbuf == b;
    }
    forall b | b in u.m.inbound || b in u.m.freed
      ensures DispatchesOf(u.h.log, b) == DispatchesOf(s.h.log, b)
    {
      LogAppend(s.h.log, t, b);
    }
  }

  lemma EmptyAtDeq(l: Lane, dt: Task)
    requires LaneOk(l, At(Deq), dt)
    ensures l.job.None?
  {
  }

  lemma DeqKeeps(s: Sys, clock: nat)
    requires Inv(s) && s.d.pc.Deq? && s.m.queue != []
    ensures Inv(DispatcherStep(s, clock))
  {
    hide LanesOk, HoldersOk, LaneOk, CtxOk, DispatchesOf, CoOk, FullService, Outstanding, TokensOk;
    ShapeKept(s, Dispatcher(clock));
    DeqHolders(s);
    DeqQueue(s);
    DeqTokens(s);
    var u := DequeueStep(s, 0);
    assert QueuedOk(s.m.queue[0], s.h, s.m.cos);
    forall a | a in u.h.owner
      ensures Serving(u, a)
    {
      assert Serving(s, a);
    }
  }

  // ---------- the batch loop ----------

  // In the batch loop the dispatcher is away from every slot.
  lemma AwayLanes(s: Sys, u: Sys)
    requires LanesOk(s) && u.lanes == s.lanes && Shape(s) && Shape(u)
    requires !LanePc(s.d.pc) && (!LanePc(u.d.pc) || u.d.pc.Look?)
    ensures LanesOk(u)
  {
    hide LaneOk;
    forall j | 0 <= j < |u.lanes|
      ensures LaneOk(u.lanes[j], StageOf(u, j), u.d.task)
    {
      StageIrrelevant(s.lanes[j], StageOf(s, j), StageOf(u, j), s.d.task, u.d.task);
    }
  }

  // Giving a fresh context an owner disturbs no other owner.
  lemma NewOwner(s: Sys, a: Addr, b: nat)
    requires HoldersOk(s) && QueueOk(s) && Shape(s) && !LanePc(s.d.pc) && a !in s.h.owner
    ensures var u := s.(h := s.h.(owner := s.h.owner[a := b])); HoldersOk(u) && QueueOk(u)
  {
    hide DispatchesOf, CoOk, Descends;
    var u := s.(h := s.h.(owner := s.h.owner[a := b]));
    forall j | 0 <= j < |u.lanes| && u.lanes[j].job.Some?
      ensures HeldOk(u.lanes[j], u.lanes[j].job.value, j, StageOf(u, j), u.h, u.m.cos)
    {
      assert HeldOk(s.lanes[j], s.lanes[j].job.value, j, StageOf(s, j), s.h, s.m.cos);
    }
    forall j | 0 <= j < |u.m.queue|
      ensures QueuedOk(u.m.queue[j], u.h, u.m.cos)
    {
      assert QueuedOk(s.m.queue[j], s.h, s.m.cos);
    }
  }

  // Holders, queue and tokens do not depend on the dispatcher while it is off the slots.
  lemma OffSlots(s: Sys, u: Sys)
    requires HoldersOk(s) && QueueOk(s) && TokensOk(s) && Shape(s) && Shape(u)
    requires !LanePc(s.d.pc) && (!LanePc(u.d.pc) || u.d.pc.Look?)
    requires u.lanes == s.lanes && u.h == s.h
    requires u.m == s.m.(pools := u.m.pools)
    ensures HoldersOk(u) && QueueOk(u) && TokensOk(u)
  {
    hide DispatchesOf, CoOk, Descends, Owns, QueuedOk, FullService;
    forall j | 0 <= j < |u.lanes| && u.lanes[j].job.Some?
      ensures HeldOk(u.lanes[j], u.lanes[j].job.value, j, StageOf(u, j), u.h, u.m.cos)
    {
      assert HeldOk(s.lanes[j], s.lanes[j].job.value, j, StageOf(s, j), s.h, s.m.cos);
    }
  }

  lemma BatchKeeps(s: Sys, clock: nat)
    requires Inv(s) && s.d.pc.Batch?
    ensures Inv(DispatcherStep(s, clock))
  {
    hide LanesOk, HoldersOk, QueueOk, TokensOk, LaneOk, CtxOk, Outstanding, ContextAlloc;
    ShapeKept(s, Dispatcher(clock));
    var u := DispatcherStep(s, clock);
    ContextAllocEffect(s.m.pools);
    AwayLanes(s, u);
    var r := ContextAlloc(s.m.pools);
    if s.m.inbound != [] && s.d.batch < MAX_RX_BURST && r.Granted? {
      var b := s.m.inbound[0];
      var v := s.(h := s.h.(owner := s.h.owner[r.cont := b]));
      NewOwner(s, r.cont, b);
      OwnerFreeTokens(s, v);
      OffSlots(v, u);
      GrantedServing(s, u, r.cont);
    } else {
      OffSlots(s, u);
      forall a | a in u.h.owner
        ensures Serving(u, a)
      {
        assert Serving(s, a);
      }
    }
  }

  lemma OwnerFreeTokens(s: Sys, v: Sys)
    requires TokensOk(s) && v == s.(h := s.h.(owner := v.h.owner))
    ensures TokensOk(v)
  {
    hide DispatchesOf, FullService;
  }

  lemma GrantedServing(s: Sys, u: Sys, a: Addr)
    requires PoolsOk(s) && s.d.pc.Batch? && s.m.inbound != [] && a !in s.h.owner
    requires u.h == s.h.(owner := s.h.owner[a := s.m.inbound[0]])
    requires u.d.pc.BatchEnq? && u.d.task.rnbl == a && u.d.task.mbuf == s.m.inbound[0]
    ensures forall c :: c in u.h.owner ==> Serving(u, c)
  {
    hide CtxOk, Outstanding;
    forall c | c in u.h.owner
      ensures Serving(u, c)
    {
      if c != a { assert Serving(s, c); }
    }
  }

  lemma BatchEnqFits(s: Sys)
    requires Inv(s) && s.d.pc.BatchEnq?
    ensures s.m.inbound != [] && s.d.task.mbuf == s.m.inbound[0] && s.d.task.category == PACKET
    ensures Placed(s.h.place, s.d.task.mbuf, InRing) && Owns(s.h.owner, s.d.task)
    ensures |s.m.queue| < s.m.capacity
  {
    hide DispatchesOf, FullService, LanesOk, HoldersOk, QueueOk;
    assert s.m.inbound[0] in s.m.inbound;
    QueueFits(s, s.d.task.rnbl);
  }

  lemma BatchEnqHolders(s: Sys)
    requires Inv(s) && s.d.pc.BatchEnq?
    ensures HoldersOk(BatchEnqStep(s)) && QueueOk(BatchEnqStep(s))
  {
    hide DispatchesOf, FullService, LanesOk, CoOk, PoolsOk, CoIs;
    BatchEnqFits(s);
    var u := BatchEnqStep(s);
    var q := s.m.queue;
    var t := s.d.task;
    forall j | 0 <= j < |u.lanes| && u.lanes[j].job.Some?
      ensures HeldOk(u.lanes[j], u.lanes[j].job.value, j, StageOf(u, j), u.h, u.m.cos)
    {
      assert HeldOk(s.lanes[j], s.lanes[j].job.value, j, StageOf(s, j), s.h, s.m.cos);
    }
    assert t.mbuf in s.m.inbound;
    forall j | 0 <= j < |u.m.queue|
      ensures QueuedOk(u.m.queue[j], u.h, u.m.cos)
      ensures j < |q| ==> u.m.queue[j] == q[j] && q[j].mbuf != t.mbuf
    {
      if j < |q| { assert QueuedOk(q[j], s.h, s.m.cos); }
    }
  }

  lemma BatchEnqTokens(s: Sys)
    requires Inv(s) && s.d.pc.BatchEnq?
    ensures TokensOk(BatchEnqStep(s))
  {
    hide LaneOk, CtxOk, DispatchesOf, CoOk, Descends, Outstanding, FullService, QueuedOk, QueueOk;
    BatchEnqFits(s);
    var u := BatchEnqStep(s);
    var n, t, ring := |s.m.queue|, s.d.task, s.m.inbound;
    forall b
      ensures b in u.m.inbound <==> b in ring && b != t.mbuf
    {
      HeadOnce(ring, b);
    }
    forall b
      ensures b in u.m.freed <==> Placed(u.h.place, b, Done)
      ensures b in u.m.inbound <==> Placed(u.h.place, b, InRing)
    {
      assert b in s.m.freed <==> Placed(s.h.place, b, Done);
      assert b in s.m.inbound <==> Placed(s.h.place, b, InRing);
    }
    forall b, i | Placed(u.h.place, b, InSlot(i))
      ensures SlotHolds(u.lanes, i, b)
    {
      assert SlotHolds(s.lanes, i, b);
    }
    forall b | Placed(u.h.place, b, InQueue)
      ensures QueuedSomewhere(u.m.queue, b)
    {
      if b == t.mbuf {
        assert u.m.queue[n].mbuf == b;
      } else {
        assert QueuedSomewhere(s.m.queue, b);
        var j :| 0 <= j < n && s.m.queue[j].mbuf == b;
        assert u.m.queue[j].mbuf == b;
      }
    }
    forall b | b in u.m.freed
      ensures FullService(u.h.born, u.h.log, b)
    {
      SameBirth(s.h.born, t, s.h.log, b);
    }
  }

  lemma HeadOnce(ring: seq<nat>, b: nat)
    requires ring != [] && Distinct(ring)
    ensures b in ring[1..] <==> b in ring && b != ring[0]
  {
    if b in ring[1..] {
      var j :| 0 <= j < |ring| - 1 && ring[1..][j] == b;
      assert ring[j + 1] == b;
    }
    if b in ring && b != ring[0] {
      var j :| 0 <= j < |ring| && ring[j] == b;
      assert ring[1..][j - 1] == b;
    }
  }

  lemma SameBirth(born: map<nat, Task>, t: Task, log: seq<Task>, b: nat)
    requires FullService(born, log, b) && b != t.mbuf
    ensures FullService(born[t.mbuf := t], log, b)
  {
    hide DispatchesOf;
  }

  lemma BatchEnqKeeps(s: Sys, clock: nat)
    requires Inv(s) && s.d.pc.BatchEnq?
    ensures Inv(DispatcherStep(s, clock))
  {
    hide LanesOk, HoldersOk, QueueOk, LaneOk, CtxOk, DispatchesOf, CoOk, FullService, QueuedOk,
         Outstanding, TokensOk;
    ShapeKept(s, Dispatcher(clock));
    BatchEnqFits(s);
    var u := BatchEnqStep(s);
    AwayLanes(s, u);
    BatchEnqHolders(s);
    BatchEnqTokens(s);
    forall a | a in u.h.owner
      ensures Serving(u, a)
    {
      assert Serving(s, a);
    }
  }

  // ---------- arrival ----------

  lemma ArrivalKeeps(s: Sys, b: nat)
    requires Inv(s)
    ensures Inv(ArrivalStep(s, b))
  {
    hide LaneOk, CtxOk, DispatchesOf, CoOk, Descends, Outstanding, FullService;
    if b !in s.h.place {
      var u := ArrivalStep(s, b);
      ArrivalTokens(s, b);
      forall j | 0 <= j < |u.lanes| && u.lanes[j].job.Some?
        ensures HeldOk(u.lanes[j], u.lanes[j].job.value, j, StageOf(u, j), u.h, u.m.cos)
      {
        assert HeldOk(s.lanes[j], s.lanes[j].job.value, j, StageOf(s, j), s.h, s.m.cos);
      }
      forall j | 0 <= j < |u.m.queue|
        ensures QueuedOk(u.m.queue[j], u.h, u.m.cos)
      {
        assert QueuedOk(s.m.queue[j], s.h, s.m.cos);
      }
      forall j | 0 <= j < |u.lanes|
        ensures LaneOk(u.lanes[j], StageOf(u, j), u.d.task)
      {
        assert LaneOk(s.lanes[j], StageOf(s, j), s.d.task);
      }
      forall a | a in u.h.owner
        ensures Serving(u, a)
      {
        assert Serving(s, a);
      }
    }
  }

  lemma {:induction false} NeverDispatched(log: seq<Task>, b: nat)
    requires forall j :: 0 <= j < |log| ==> log[j].mbuf != b
    ensures DispatchesOf(log, b) == []
  {
    if log != [] { NeverDispatched(log[..|log| - 1], b); }
  }

  lemma ArrivalTokens(s: Sys, b: nat)
    requires TokensOk(s) && b !in s.h.place
    ensures TokensOk(ArrivalStep(s, b))
  {
    hide DispatchesOf, FullService;
    var u := ArrivalStep(s, b);
    NeverDispatched(s.h.log, b);
    assert b !in s.h.arrived && b !in s.m.inbound;
    forall c
      ensures c in u.m.freed <==> Placed(u.h.place, c, Done)
      ensures c in u.m.inbound <==> Placed(u.h.place, c, InRing)
      ensures c in u.h.place <==> c in u.h.arrived
    {
      assert c in s.m.freed <==> Placed(s.h.place, c, Done);
      assert c in s.m.inbound <==> Placed(s.h.place, c, InRing);
      assert c in s.h.place <==> c in s.h.arrived;
    }
    forall c, i | Placed(u.h.place, c, InSlot(i))
      ensures SlotHolds(u.lanes, i, c)
    {
      assert SlotHolds(s.lanes, i, c);
    }
    forall c | Placed(u.h.place, c, InQueue)
      ensures QueuedSomewhere(u.m.queue, c)
    {
      assert Placed(s.h.place, c, InQueue);
    }
  }

  // ---------- all steps ----------

  lemma StepKeeps(s: Sys, a: Act)
    requires Inv(s)
    ensures Inv(Step(s, a))
  {
    hide LanesOk, HoldersOk, QueueOk, TokensOk, PoolsOk, HandOk, DispatcherStep, WorkerStep, ArrivalStep;
    match a
    case Worker(w) =>
      if w < |s.lanes| { WorkerKeeps(s, w); }
    case Arrival(b) =>
      ArrivalKeeps(s, b);
    case Dispatcher(clock) =>
      match s.d.pc
      case FinCtx => FinCtxKeeps(s, clock);
      case FinMbuf => FinMbufKeeps(s, clock);
      case PreEnq => PreEnqKeeps(s, clock);
      case Batch => BatchKeeps(s, clock);
      case BatchEnq => BatchEnqKeeps(s, clock);
      case Deq => if s.m.queue == [] { PlainKeeps(s, clock); } else { DeqKeeps(s, clock); }
      case _ => PlainKeeps(s, clock);
  }
}
