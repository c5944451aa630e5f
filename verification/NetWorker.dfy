/** The net worker's batch loop: packets from the inbound ring to the task queue, each with a
    context of its own. */
module NetWorkers {
  import opened Bits
  import opened Constants
  import opened Mempools
  import opened TaskQueues
  import opened Contexts
  import Drain

  const INBOUND_Q_LEN: nat := 128
  const ENOMEM: nat := 12

  // The ring against everything the receiver ever put in it.
  ghost predicate InboundOk(ring: seq<nat>, popHead: nat, popTail: nat, arrived: seq<nat>, taken: nat)
  {
    && |ring| == INBOUND_Q_LEN
    && popHead == Wrap32(|arrived|) && popTail == Wrap32(taken)
    && taken <= |arrived| <= taken + INBOUND_Q_LEN
    && forall j :: taken <= j < |arrived| ==> ring[Residue(j, INBOUND_Q_LEN)] == arrived[j]
  }

  lemma InboundSlot(ring: seq<nat>, popHead: nat, popTail: nat, arrived: seq<nat>, taken: nat)
    requires InboundOk(ring, popHead, popTail, arrived, taken)
    ensures |ring| == INBOUND_Q_LEN && taken <= |arrived|
    ensures And(popTail, INBOUND_Q_LEN - 1) < INBOUND_Q_LEN
    ensures popHead > popTail <==> taken < |arrived| && !Drain.Crossed(taken, |arrived|)
    ensures taken < |arrived| ==>
              && ring[And(popTail, INBOUND_Q_LEN - 1)] == arrived[taken]
              && InboundOk(ring, popHead, Wrap32(popTail + 1), arrived, taken + 1)
  {
    hide Wrap32, And, Residue;
    InboundIndex(taken);
    WrappedIncrement(taken);
    Drain.PendingExact(taken, |arrived|);
  }

  /** Putting packet b in without a test of fullness: the ring still holds every waiting packet if and
      only if fewer than 128 were waiting.  Otherwise the oldest one's place is taken. */
  lemma PutExact(ring: seq<nat>, popHead: nat, popTail: nat, arrived: seq<nat>, taken: nat, b: nat)
    requires InboundOk(ring, popHead, popTail, arrived, taken)
    requires forall j :: taken <= j < |arrived| ==> arrived[j] != b
    ensures And(popHead, INBOUND_Q_LEN - 1) < INBOUND_Q_LEN
    ensures var put := ring[And(popHead, INBOUND_Q_LEN - 1) := b];
            && (InboundOk(put, Wrap32(popHead + 1), popTail, arrived + [b], taken) <==>
                |arrived| - taken < INBOUND_Q_LEN)
            && (|arrived| - taken == INBOUND_Q_LEN ==>
                  put[And(popTail, INBOUND_Q_LEN - 1)] == b && ring[And(popTail, INBOUND_Q_LEN - 1)] == arrived[taken])
  {
    hide Wrap32, And;
    var n := |arrived|;
    InboundIndex(n);
    InboundIndex(taken);
    WrappedIncrement(n);
    if n - taken == INBOUND_Q_LEN {
      assert Residue(n, INBOUND_Q_LEN) == Residue(taken, INBOUND_Q_LEN);
    } else {
      forall j | taken <= j < n
        ensures Residue(j, INBOUND_Q_LEN) != Residue(n, INBOUND_Q_LEN)
      {
        ResiduesDiffer(j, n, INBOUND_Q_LEN);
      }
    }
  }

  lemma InboundIndex(n: nat)
    ensures And(Wrap32(n), INBOUND_Q_LEN - 1) == Residue(n, INBOUND_Q_LEN)
  {
    hide Wrap32, And, Residue;
    assert Pow2(3) == 8;
    PowMonotone(3, 7);
    assert Pow2(4) == 16;
    RingIndex(n, INBOUND_Q_LEN, 7);
  }

  // The task made of a packet: a first dispatch, stamped with the batch's clock.
  function PacketTask(cont: Addr, mbuf: nat, clock: nat): Task
  {
    Task(cont, mbuf, 1, PACKET, clock)
  }

  function PacketTasks(conts: seq<Addr>, packets: seq<nat>, clock: nat): seq<Task>
    requires |conts| == |packets|
  {
    seq(|conts|, i requires 0 <= i < |conts| => PacketTask(conts[i], packets[i], clock))
  }

  /** How many packets one batch takes. */
  function BatchSize(taken: nat, arrived: nat): nat
    requires taken <= arrived
  {
    if Drain.Crossed(taken, arrived) then 0 else Least(arrived - taken, MAX_RX_BURST)
  }

  lemma TasksGrow(conts: seq<Addr>, packets: seq<nat>, clock: nat, cont: Addr, packet: nat)
    requires |conts| == |packets|
    ensures PacketTasks(conts + [cont], packets + [packet], clock) ==
            PacketTasks(conts, packets, clock) + [PacketTask(cont, packet, clock)]
  {
  }

  class NetWorker {
    const inbound: array<nat>
    const contexts: ContextStore
    const queue: TaskQueue
    var popHead: nat
    var popTail: nat
    var received: nat
    ghost var arrived: seq<nat>
    ghost var taken: nat

    ghost predicate Apart()
      reads this, queue, queue.pool, contexts, contexts.ctxPool, contexts.stkPool
    {
      && queue.pool != contexts.ctxPool && queue.pool != contexts.stkPool
      && queue.pool.freeItems != contexts.ctxPool.freeItems
      && inbound != contexts.ctxPool.freeItems && inbound != contexts.stkPool.freeItems
      && inbound != queue.pool.freeItems
    }

    /** The task nodes are as many as the contexts, and every queued task holds one. */
    ghost predicate Valid()
      reads this, inbound, queue, queue.pool, queue.pool.freeItems, contexts,
            contexts.ctxPool, contexts.ctxPool.freeItems, contexts.stkPool, contexts.stkPool.freeItems
    {
      && Apart() && InboundOk(inbound[..], popHead, popTail, arrived, taken)
      && contexts.Valid() && CtxOk(contexts.View()) && queue.Valid()
      && queue.pool.capacity == contexts.ctxPool.capacity
      && |queue.Contents()| <= contexts.ctxPool.inUse
    }

    constructor (contexts: ContextStore, queue: TaskQueue)
      requires queue.pool != contexts.ctxPool && queue.pool != contexts.stkPool
      requires queue.pool.freeItems != contexts.ctxPool.freeItems
      requires contexts.Valid() && CtxOk(contexts.View()) && queue.Valid() && queue.Contents() == []
      requires queue.pool.capacity == contexts.ctxPool.capacity
      ensures Valid() && this.contexts == contexts && this.queue == queue && arrived == [] && taken == 0
    {
      this.contexts, this.queue := contexts, queue;
      inbound := new nat[INBOUND_Q_LEN](_ => 0);
      popHead, popTail, received := 0, 0, 0;
      arrived, taken := [], 0;
      new;
      hide CtxOk, PoolOk, Linked, Tasks;
    }

    /** sent_fake_packet: the packet is stored and counted whether or not there is room.  With 128
        waiting, the oldest of them is overwritten. */
    method Receive(mbuf: nat) returns (status: nat)
      requires Valid() && forall j :: taken <= j < |arrived| ==> arrived[j] != mbuf
      modifies this, inbound
      ensures status == if mbuf == NULL then ENOMEM else 0
      ensures mbuf == NULL ==> Valid() && arrived == old(arrived)
      ensures mbuf != NULL ==> arrived == old(arrived) + [mbuf] && taken == old(taken) && popTail == old(popTail)
      ensures mbuf != NULL && |old(arrived)| - taken < INBOUND_Q_LEN ==> Valid()
      ensures mbuf != NULL && |old(arrived)| - taken == INBOUND_Q_LEN ==>
                && inbound[And(popTail, INBOUND_Q_LEN - 1)] == mbuf
                && old(inbound[And(popTail, INBOUND_Q_LEN - 1)]) == arrived[taken]
    {
      hide CtxOk, PoolOk, Linked, Tasks, Wrap32, And;
      if mbuf == NULL {
        return ENOMEM;
      }
      PutExact(inbound[..], popHead, popTail, arrived, taken, mbuf);
      ghost var was := inbound[..];
      var at := And(popHead, INBOUND_Q_LEN - 1);
      inbound[at] := mbuf;
      assert inbound[..] == was[at := mbuf];
      popHead := Wrap32(popHead + 1);
      arrived := arrived + [mbuf];
      return 0;
    }

    /** One round: the oldest packet, a fresh context, one task at the tail; without a context nothing
        happens. */
    method TakeOne(clock: nat) returns (ok: bool, ghost cont: Addr)
      requires Valid() && popHead > popTail
      modifies this, queue, queue.pool`inUse, contexts, contexts.ctxPool`inUse, contexts.stkPool`inUse,
               contexts.ctxPool.freeItems
      ensures Valid() && arrived == old(arrived) && old(taken) < |arrived|
      ensures received == old(received) && popHead == old(popHead) && inbound[..] == old(inbound[..])
      ensures contexts.ctxPool.capacity == old(contexts.ctxPool.capacity)
      ensures ok <==> old(contexts.ctxPool.inUse) < contexts.ctxPool.capacity
      ensures !ok ==> && taken == old(taken) && popTail == old(popTail) && queue.Contents() == old(queue.Contents())
                      && contexts.View() == old(contexts.View())
      ensures ok ==> && taken == old(taken) + 1 && cont !in old(Outstanding(contexts.View().ctx))
                     && Outstanding(contexts.View().ctx) == old(Outstanding(contexts.View().ctx)) + {cont}
                     && contexts.ctxPool.inUse == old(contexts.ctxPool.inUse) + 1
                     && queue.Contents() == old(queue.Contents()) + [PacketTask(cont, arrived[old(taken)], clock)]
    {
      hide InboundOk, CtxOk, PoolOk, Linked, Tasks, Wrap32, And, ContextAlloc;
      InboundSlot(inbound[..], popHead, popTail, arrived, taken);
      var req := inbound[And(popTail, INBOUND_Q_LEN - 1)];
      ContextAllocEffect(contexts.View());
      ghost var was := contexts.View();
      ContextCount(was);
      var ret, c := contexts.AllocContext();
      cont := c;
      if ret != 0 {
        return false, cont;
      }
      GrantCount(was);
      queue.NodeCount();
      queue.EnqueueTail(PacketTask(c, req, clock));
      popTail := Wrap32(popTail + 1);
      taken := taken + 1;
      ok := true;
    }

    /** The batch loop, up to a round that finds no context, which would repeat for ever.  The oldest
        packets are queued in order, each with a context no one held, and nothing else is queued; the
        loop gets stuck exactly when the batch is larger than the free contexts. */
    method TakeBatch(clock: nat) returns (stuck: bool, ghost conts: seq<Addr>)
      requires Valid()
      modifies this, queue, queue.pool`inUse, contexts, contexts.ctxPool`inUse, contexts.stkPool`inUse,
               contexts.ctxPool.freeItems
      ensures Valid() && arrived == old(arrived)
      ensures var want := BatchSize(old(taken), |arrived|);
              var free := old(contexts.ctxPool.capacity - contexts.ctxPool.inUse);
              && stuck == (want > free) && |conts| == Least(want, free)
              && taken == old(taken) + |conts| && received == old(received) + (if stuck then 0 else |conts|)
              && queue.Contents() == old(queue.Contents()) + PacketTasks(conts, arrived[old(taken)..taken], clock)
              && Distinct(conts) && Elements(conts) !! old(Outstanding(contexts.View().ctx))
              && Outstanding(contexts.View().ctx) == old(Outstanding(contexts.View().ctx)) + Elements(conts)
    {
      hide InboundOk, CtxOk, PoolOk, Linked, Tasks, Wrap32, And, PacketTasks, Drain.Crossed, Batched, Outstanding;
      InboundSlot(inbound[..], popHead, popTail, arrived, taken);
      ContextCount(contexts.View());
      ghost var s := Begun(queue.Contents(), Outstanding(contexts.View().ctx), arrived, taken, clock);
      ghost var used := contexts.ctxPool.inUse;
      stuck, conts := false, [];
      var batch := 0;
      StartBatch(s);
      while popHead > popTail && batch < MAX_RX_BURST && !stuck
        invariant Valid() && arrived == s.arrived && received == old(received)
        invariant batch == |conts| && taken == s.start + batch && taken <= |arrived| && batch <= MAX_RX_BURST
        invariant contexts.ctxPool.inUse == used + batch <= contexts.ctxPool.capacity
        invariant contexts.ctxPool.capacity == old(contexts.ctxPool.capacity)
        invariant popHead > popTail <==> taken < |arrived| && !Drain.Crossed(taken, |arrived|)
        invariant batch > 0 ==> !Drain.Crossed(s.start, |arrived|)
        invariant Batched(s, conts, queue.Contents(), Outstanding(contexts.View().ctx))
        invariant stuck ==>
                    contexts.ctxPool.inUse == contexts.ctxPool.capacity && popHead > popTail && batch < MAX_RX_BURST
        decreases MAX_RX_BURST - batch, !stuck
      {
        Drain.SameStretch(s.start, taken, |arrived|);
        ghost var tasks, held := queue.Contents(), Outstanding(contexts.View().ctx);
        var ok;
        ghost var c;
        ok, c := TakeOne(clock);
        if ok {
          BatchGrows(s, conts, tasks, held, c);
          conts := conts + [c];
          batch := batch + 1;
          InboundSlot(inbound[..], popHead, popTail, arrived, taken);
        } else {
          stuck := true;
        }
      }
      if Drain.Crossed(taken, |arrived|) { Drain.StretchEnds(s.start, batch, |arrived|); }
      if stuck { Drain.SameStretch(s.start, taken, |arrived|); }
      EndBatch(s, conts, queue.Contents(), Outstanding(contexts.View().ctx));
      if !stuck {
        received := received + batch;
      }
    }
  }

  // Where a batch began.
  datatype Begun = Begun(tasks: seq<Task>, held: set<Addr>, arrived: seq<nat>, start: nat, clock: nat)

  // The contexts handed out so far, the queue and the contexts held.
  ghost predicate Batched(s: Begun, conts: seq<Addr>, tasks: seq<Task>, held: set<Addr>)
  {
    && s.start + |conts| <= |s.arrived|
    && tasks == s.tasks + PacketTasks(conts, s.arrived[s.start..s.start + |conts|], s.clock)
    && Distinct(conts) && Elements(conts) !! s.held && held == s.held + Elements(conts)
  }

  lemma StartBatch(s: Begun)
    requires s.start <= |s.arrived|
    ensures Batched(s, [], s.tasks, s.held)
  {
    assert s.arrived[s.start..s.start] == [];
  }

  lemma BatchGrows(s: Begun, conts: seq<Addr>, tasks: seq<Task>, held: set<Addr>, c: Addr)
    requires Batched(s, conts, tasks, held) && c !in held && s.start + |conts| < |s.arrived|
    ensures Batched(s, conts + [c], tasks + [PacketTask(c, s.arrived[s.start + |conts|], s.clock)], held + {c})
  {
    hide PacketTasks;
    var at := s.start + |conts|;
    TasksGrow(conts, s.arrived[s.start..at], s.clock, c, s.arrived[at]);
    Drain.SliceGrows(s.arrived, s.start, at);
    NewElement(conts, c);
  }

  lemma EndBatch(s: Begun, conts: seq<Addr>, tasks: seq<Task>, held: set<Addr>)
    requires Batched(s, conts, tasks, held)
    ensures s.start + |conts| <= |s.arrived|
    ensures tasks == s.tasks + PacketTasks(conts, s.arrived[s.start..s.start + |conts|], s.clock)
    ensures Distinct(conts) && Elements(conts) !! s.held && held == s.held + Elements(conts)
  {
  }

  lemma NewElement(conts: seq<Addr>, c: Addr)
    requires Distinct(conts) && c !in Elements(conts)
    ensures Distinct(conts + [c]) && Elements(conts + [c]) == Elements(conts) + {c}
  {
  }

  lemma ContextCount(c: CtxPools)
    requires CtxOk(c)
    ensures c.ctx.inUse <= |c.ctx.items|
  {
  }

  lemma GrantCount(c: CtxPools)
    requires CtxOk(c) && ContextAlloc(c).Granted?
    ensures ContextAlloc(c).pools.ctx.inUse == c.ctx.inUse + 1
  {
  }
}
