/** Runs of the scheduling protocol worked out step by step: how the failures that the other
    modules characterise are reached from an ordinary start. */
module ProtocolScenarios {
  import opened Constants
  import opened Mempools
  import opened TaskQueues
  import opened Contexts
  import opened Protocol
  import opened ProtocolInvariant
  import opened ProtocolTraffic
  import opened ProtocolRuns
  import opened ProtocolLateInit
  import opened ProtocolRing

  // The dispatcher alone, its clock at zero.
  function Ticks(k: nat): seq<Act>
  {
    seq(k, _ => Dispatcher(0))
  }

  lemma Tick(s: Sys, k: nat)
    requires Shape(s)
    ensures Shape(DispatcherStep(s, 0)) && Run(s, Ticks(k + 1)) == Run(DispatcherStep(s, 0), Ticks(k))
  {
    hide DispatcherStep;
    ShapeKept(s, Dispatcher(0));
    assert Ticks(k + 1)[1..] == Ticks(k);
  }

  lemma NoTick(s: Sys)
    requires Shape(s)
    ensures Run(s, Ticks(0)) == s
  {
  }

  // ---------- the dispatcher's errands ----------

  // Three looks at a slot marked PROCESSED.
  lemma ScanToDeq(s: Sys)
    requires Shape(s) && s.d.pc.Look? && Here(s).respFlag == PROCESSED
    ensures Run(s, Ticks(3)) == Goto(s, Deq)
  {
    Tick(s, 2);
    Tick(Goto(s, IsFin), 1);
    Tick(Goto(s, IsPre), 0);
    NoTick(Goto(s, Deq));
  }

  // The head of the queue posted to slot `at`.
  function Posted(s: Sys): Sys
    requires s.d.at < |s.lanes| && s.m.queue != []
  {
    var t, l := s.m.queue[0], s.lanes[s.d.at];
    s.(lanes := s.lanes[s.d.at := l.(respFlag := RUNNING, req := t, reqFlag := ACTIVE, job := Some(t),
                                             given := l.given + [t])],
       m := s.m.(queue := s.m.queue[1..]),
       h := s.h.(log := s.h.log + [t], place := s.h.place[t.mbuf := InSlot(s.d.at)]),
       d := s.d.(task := t))
  }

  // The slot after k of the stores of dispatch_request.
  function Writing(s: Sys, k: nat): Lane
    requires s.d.at < |s.lanes| && s.m.queue != []
  {
    var t, l := s.m.queue[0], s.lanes[s.d.at];
    var r := l.req;
    l.(job := Some(t), given := l.given + [t],
       respFlag := if k >= 1 then RUNNING else l.respFlag,
       req := Task(if k >= 2 then t.rnbl else r.rnbl, if k >= 3 then t.mbuf else r.mbuf,
                   if k >= 4 then t.typ else r.typ, if k >= 5 then t.category else r.category,
                   if k >= 6 then t.timestamp else r.timestamp))
  }

  function PutAt(k: nat): DispPc
  {
    match k
    case 0 => PutRun case 1 => PutRnbl case 2 => PutMbuf case 3 => PutTyp case 4 => PutCat case 5 => PutTs
    case _ => PutFlag
  }

  function PostingAt(s: Sys, k: nat): Sys
    requires s.d.at < |s.lanes| && s.m.queue != []
  {
    Posted(s).(lanes := s.lanes[s.d.at := Writing(s, k)], d := s.d.(task := s.m.queue[0], pc := PutAt(k)))
  }

  lemma StoreNext(s: Sys, k: nat)
    requires Shape(s) && s.d.pc.Deq? && s.m.queue != [] && k < 6
    ensures Shape(PostingAt(s, k)) && DispatcherStep(PostingAt(s, k), 0) == PostingAt(s, k + 1)
  {
    var p, q := PostingAt(s, k), PostingAt(s, k + 1);
    assert DispatcherStep(p, 0).lanes == q.lanes;
  }

  lemma {:induction false} StoreOn(s: Sys, k: nat)
    requires Shape(s) && s.d.pc.Deq? && s.m.queue != [] && k <= 6
    ensures Shape(PostingAt(s, k)) && Run(PostingAt(s, k), Ticks(6 - k)) == PostingAt(s, 6)
    decreases 6 - k
  {
    hide DispatcherStep, PostingAt;
    if k < 6 {
      StoreNext(s, k);
      Tick(PostingAt(s, k), 5 - k);
      StoreOn(s, k + 1);
    } else {
      ShapeAtPut(s);
      NoTick(PostingAt(s, 6));
    }
  }

  lemma ShapeAtPut(s: Sys)
    requires Shape(s) && s.d.pc.Deq? && s.m.queue != []
    ensures Shape(PostingAt(s, 6))
  {
  }

  lemma PostHead(s: Sys)
    requires Shape(s) && s.d.pc.Deq? && s.m.queue != []
    ensures Run(s, Ticks(8)) == NextSlot(Posted(s), 0)
  {
    hide Ticks, DispatcherStep, Run, PostingAt, Posted, NextSlot;
    Tick(s, 7);
    FirstStore(s);
    StoreOn(s, 0);
    var p, q := PostingAt(s, 0), PostingAt(s, 6);
    TicksAdd(6, 1);
    RunThen(p, Ticks(6), Ticks(1));
    Tick(q, 0);
    LastStore(s);
    NoTick(DispatcherStep(q, 0));
  }

  lemma FirstStore(s: Sys)
    requires Shape(s) && s.d.pc.Deq? && s.m.queue != []
    ensures DispatcherStep(s, 0) == PostingAt(s, 0)
  {
    assert DispatcherStep(s, 0).lanes == PostingAt(s, 0).lanes;
  }

  lemma LastStore(s: Sys)
    requires Shape(s) && s.d.pc.Deq? && s.m.queue != []
    ensures Shape(PostingAt(s, 6)) && DispatcherStep(PostingAt(s, 6), 0) == NextSlot(Posted(s), 0)
  {
    assert Writing(s, 6).req == s.m.queue[0];
    assert DispatcherStep(PostingAt(s, 6), 0).lanes == NextSlot(Posted(s), 0).lanes;
  }

  // One packet of a batch, with a context free for it.
  lemma TakePacket(s: Sys)
    requires Inv(s) && s.d.pc.Batch? && s.m.inbound != [] && s.d.batch < MAX_RX_BURST
    requires s.m.pools.ctx.inUse < s.m.capacity
    ensures var u := Run(s, Ticks(2));
            && Inv(u) && u.d.pc.Batch? && u.d.at == s.d.at && u.d.batch == s.d.batch + 1 && u.lanes == s.lanes
            && u.m.inbound == s.m.inbound[1..] && u.m.capacity == s.m.capacity && u.m.freed == s.m.freed
            && u.m.pools.ctx.inUse == s.m.pools.ctx.inUse + 1 && u.h.arrived == s.h.arrived
            && |u.m.queue| == |s.m.queue| + 1 && u.m.queue[..|s.m.queue|] == s.m.queue
            && u.m.queue[|s.m.queue|].mbuf == s.m.inbound[0]
  {
    hide LanesOk, HoldersOk, QueueOk, TokensOk, HandOk, PoolsOk, Run, Ticks, DispatcherStep;
    RunKeeps(s, Ticks(2));
    Granting(s);
    Tick(s, 1);
    var v := DispatcherStep(s, 0);
    StepKeeps(s, Dispatcher(0));
    Queueing(v);
    Tick(v, 0);
    NoTick(DispatcherStep(v, 0));
  }

  lemma Granting(s: Sys)
    requires Inv(s) && s.d.pc.Batch? && s.m.inbound != [] && s.d.batch < MAX_RX_BURST
    requires s.m.pools.ctx.inUse < s.m.capacity
    ensures var v := DispatcherStep(s, 0);
            && v.d.pc.BatchEnq? && v.d.at == s.d.at && v.d.batch == s.d.batch && v.lanes == s.lanes
            && v.m == s.m.(pools := v.m.pools) && v.m.pools.ctx.inUse == s.m.pools.ctx.inUse + 1
            && v.h.arrived == s.h.arrived
  {
    hide LanesOk, HoldersOk, QueueOk, TokensOk, HandOk, Outstanding, FreeList;
    ContextAllocEffect(s.m.pools);
    GrantCounts(s.m.pools);
  }

  lemma Queueing(v: Sys)
    requires Inv(v) && v.d.pc.BatchEnq?
    ensures v.m.inbound != []
    ensures var u := DispatcherStep(v, 0);
            && u.d.pc.Batch? && u.d.at == v.d.at && u.d.batch == v.d.batch + 1 && u.lanes == v.lanes
            && u.m == v.m.(inbound := v.m.inbound[1..], queue := v.m.queue + [v.d.task])
            && v.d.task.mbuf == v.m.inbound[0] && u.h.arrived == v.h.arrived
  {
    hide LanesOk, HoldersOk, QueueOk, TokensOk, PoolsOk, Outstanding, FreeList;
    BatchEnqFits(v);
  }

  lemma GrantCounts(c: CtxPools)
    requires CtxOk(c) && ContextAlloc(c).Granted?
    ensures ContextAlloc(c).pools.ctx.inUse == c.ctx.inUse + 1
  {
  }

  // ---------- one worker ----------

  // The only slot is ready and empty, or its worker is on a task and will not move.
  predicate Calm(s: Sys)
  {
    && |s.lanes| == 1
    && (s.lanes[0].respFlag == RUNNING || (s.lanes[0].respFlag == PROCESSED && s.lanes[0].job.None?))
  }

  // The dispatcher's way past the slot to the next batch.
  lemma PastTheSlot(s: Sys) returns (k: nat)
    requires Inv(s) && Calm(s) && s.d.pc.Look?
    ensures var u := Run(s, Ticks(k));
            && Inv(u) && Calm(u) && u.d.pc.Batch? && u.d.batch == 0
            && u.m.pools == s.m.pools && u.m.inbound == s.m.inbound && u.m.capacity == s.m.capacity
            && u.h.arrived == s.h.arrived
  {
    hide LanesOk, HoldersOk, QueueOk, TokensOk, PoolsOk, HandOk, Run, Ticks;
    if s.lanes[0].respFlag == RUNNING {
      k := 1;
      Tick(s, 0);
      NoTick(DispatcherStep(s, 0));
    } else {
      ScanToDeq(s);
      var v := Goto(s, Deq);
      if s.m.queue == [] {
        k := 4;
        Tick(v, 0);
        NoTick(DispatcherStep(v, 0));
      } else {
        k := 11;
        PostHead(v);
      }
      TicksAdd(3, k - 3);
      RunThen(s, Ticks(3), Ticks(k - 3));
    }
    RunKeeps(s, Ticks(k));
  }

  lemma TicksAdd(j: nat, k: nat)
    ensures Ticks(j + k) == Ticks(j) + Ticks(k)
  {
  }

  // ---------- from an ordinary start ----------

  function Arrivals(k: nat): seq<Act>
  {
    if k == 0 then [] else Arrivals(k - 1) + [Arrival(k)]
  }

  function Packets(k: nat): seq<nat>
  {
    if k == 0 then [] else Packets(k - 1) + [k]
  }

  lemma {:induction false} ArrivalsLand(s: Sys, k: nat)
    requires Shape(s) && s.m.inbound == [] && s.h.arrived == [] && s.h.place == map[]
    ensures var u := Run(s, Arrivals(k));
            && u.m == s.m.(inbound := Packets(k)) && u.lanes == s.lanes && u.d == s.d
            && u.h.arrived == Packets(k) && (forall b :: b in u.h.place ==> b <= k)
  {
    hide Step;
    if k > 0 {
      ArrivalsLand(s, k - 1);
      RunThen(s, Arrivals(k - 1), [Arrival(k)]);
      OneArrival(Run(s, Arrivals(k - 1)), k);
    }
  }

  lemma OneArrival(s: Sys, b: nat)
    requires Shape(s) && b !in s.h.place
    ensures var u := Run(s, [Arrival(b)]);
            && u.m == s.m.(inbound := s.m.inbound + [b]) && u.lanes == s.lanes && u.d == s.d
            && u.h.arrived == s.h.arrived + [b] && u.h.place == s.h.place[b := InRing]
  {
    ShapeKept(s, Arrival(b));
    assert [Arrival(b)][1..] == [];
  }

  lemma {:induction false} PacketsCount(k: nat)
    ensures |Packets(k)| == k && forall i :: 0 <= i < k ==> Packets(k)[i] == i + 1
  {
    if k > 0 { PacketsCount(k - 1); }
  }

  // ---------- running out of contexts ----------

  lemma {:induction false} NoneArrive(k: nat)
    ensures ArrivalCount(Ticks(k)) == 0
  {
    if k > 0 {
      NoneArrive(k - 1);
      assert Ticks(k)[1..] == Ticks(k - 1);
    }
  }

  // One round of the dispatcher in which packet b arrives, up to the next batch.
  lemma OneRound(s: Sys, b: nat) returns (acts: seq<Act>)
    requires Inv(s) && Calm(s) && s.d.pc.Batch? && s.m.inbound == [] && b !in s.h.arrived
    ensures var u := Run(s, acts);
            && Inv(u) && Calm(u) && u.d.pc.Batch? && u.d.batch == 0 && u.m.inbound == [b]
            && u.m.pools == s.m.pools && u.m.capacity == s.m.capacity && u.h.arrived == s.h.arrived + [b]
    ensures ArrivalCount(acts) == 1
  {
    hide Inv, Run, Ticks, ArrivalCount;
    InvShape(s);
    RunKeeps(s, Ticks(1));
    BackToTheSlot(s);
    var v := Run(s, Ticks(1));
    NewPacket(v, b);
    OneArrival(v, b);
    RunKeeps(v, [Arrival(b)]);
    var w := Run(v, [Arrival(b)]);
    var k := PastTheSlot(w);
    RunThen(v, [Arrival(b)], Ticks(k));
    RunThen(s, Ticks(1), [Arrival(b)] + Ticks(k));
    acts := Ticks(1) + ([Arrival(b)] + Ticks(k));
    NoneArrive(1);
    NoneArrive(k);
    CountOne(b);
    CountAdds([Arrival(b)], Ticks(k));
    CountAdds(Ticks(1), [Arrival(b)] + Ticks(k));
  }

  lemma NewPacket(s: Sys, b: nat)
    requires Inv(s) && b !in s.h.arrived
    ensures b !in s.h.place
  {
    hide LanesOk, HoldersOk, QueueOk, PoolsOk, HandOk;
  }

  lemma CountOne(b: nat)
    ensures ArrivalCount([Arrival(b)]) == 1
  {
    assert [Arrival(b)][1..] == [];
  }

  // One packet to a round, and the worker standing still.
  lemma {:induction false} FillUp(s: Sys, b: nat) returns (acts: seq<Act>)
    requires Inv(s) && Calm(s) && s.d.pc.Batch? && s.m.inbound == [] && s.m.pools.ctx.inUse <= s.m.capacity
    requires forall x :: x in s.h.arrived ==> x < b
    ensures Exhausted(Run(s, acts)) && NeverOverflows(s, acts)
    decreases s.m.capacity - s.m.pools.ctx.inUse
  {
    hide LanesOk, HoldersOk, QueueOk, TokensOk, HandOk, PoolsOk, Outstanding, FreeList, Run, Ticks, Exhausted,
         NeverOverflows, ArrivalCount;
    acts := OneRound(s, b);
    FewFit(s, acts);
    var u := Run(s, acts);
    ContextFreeProceeds(u, 0);
    if s.m.pools.ctx.inUse < s.m.capacity {
      TakePacket(u);
      var v := Run(u, Ticks(2));
      var rest := FillUp(v, b + 1);
      NoneArrive(2);
      FewFit(u, Ticks(2));
      NeverOverflowsThen(u, Ticks(2), rest);
      NeverOverflowsThen(s, acts, Ticks(2) + rest);
      RunThen(u, Ticks(2), rest);
      RunThen(s, acts, Ticks(2) + rest);
      acts := acts + (Ticks(2) + rest);
    }
  }

  /** One worker, made ready as the program does it, and any capacity: packets that arrive one to a
      round while the worker stands still lock the batch loop for good, and never fill the ring. */
  lemma ExhaustionHappens(pools: CtxPools) returns (s0: Sys, acts: seq<Act>)
    requires CtxOk(pools) && Outstanding(pools.ctx) == {}
    ensures StartWith(s0, 1, {0}, pools) && Start(s0) && Shape(s0)
    ensures NeverOverflows(s0, acts) && Exhausted(RingRun(s0, acts))
  {
    hide Outstanding, FreeList, Run, RingRun, CtxOk, Exhausted, NeverOverflows, ArrivalCount, Ticks;
    s0 := Init(1, {0}, pools, |pools.ctx.items|);
    assert StartWith(s0, 1, {0}, pools);
    InitOk(1, {0}, pools);
    InvShape(s0);
    NothingOut(pools);
    var k := PastTheSlot(s0);
    var rest := FillUp(Run(s0, Ticks(k)), 0);
    acts := Ticks(k) + rest;
    NoneArrive(k);
    FewFit(s0, Ticks(k));
    NeverOverflowsThen(s0, Ticks(k), rest);
    RunThen(s0, Ticks(k), rest);
    RingIsRun(s0, acts);
  }

  lemma NothingOut(c: CtxPools)
    requires CtxOk(c) && Outstanding(c.ctx) == {}
    ensures c.ctx.inUse == 0
  {
    OutstandingCount(c.ctx);
  }

  // ---------- the late store ----------

  lemma EmptyPass(s: Sys)
    requires Shape(s) && |s.lanes| == 1 && s.d.pc.Look? && s.lanes[0].respFlag == PROCESSED && s.m.queue == []
    ensures Run(s, Ticks(4)) == NextSlot(s, 0)
  {
    hide Run, Ticks;
    ScanToDeq(s);
    var v := Goto(s, Deq);
    TicksAdd(3, 1);
    RunThen(s, Ticks(3), Ticks(1));
    Tick(v, 0);
    NoTick(DispatcherStep(v, 0));
  }

  lemma BackToTheSlot(s: Sys)
    requires Shape(s) && |s.lanes| == 1 && s.d.pc.Batch? && s.m.inbound == []
    ensures Run(s, Ticks(1)) == s.(d := s.d.(pc := Look, at := 0, batch := 0))
  {
    hide Run, Ticks;
    Tick(s, 0);
    NoTick(DispatcherStep(s, 0));
  }

  // Two packets queued and the slot empty.
  lemma TwoQueued(pools: CtxPools) returns (s0: Sys, acts: seq<Act>)
    requires CtxOk(pools) && Outstanding(pools.ctx) == {} && |pools.ctx.items| >= 2
    ensures StartWith(s0, 1, {0}, pools) && Inv(s0)
    ensures var s := Run(s0, acts);
            && Inv(s) && s.lanes == s0.lanes && s.d.pc.Batch? && s.m.inbound == [] && s.m.freed == []
            && |s.m.queue| == 2 && s.m.queue[0].mbuf == 1 && s.m.queue[1].mbuf == 2 && s.h.arrived == [1, 2]
  {
    hide Outstanding, FreeList, Run, CtxOk, Inv;
    s0 := Init(1, {0}, pools, |pools.ctx.items|);
    InitOk(1, {0}, pools);
    InvShape(s0);
    NothingOut(pools);
    ArrivalsLand(s0, 2);
    PacketsCount(2);
    RunKeeps(s0, Arrivals(2));
    var s1 := Run(s0, Arrivals(2));
    EmptyPass(s1);
    RunKeeps(s1, Ticks(4));
    var s2 := Run(s1, Ticks(4));
    TakePacket(s2);
    var s3 := Run(s2, Ticks(2));
    TakePacket(s3);
    RunThen(s2, Ticks(2), Ticks(2));
    RunThen(s1, Ticks(4), Ticks(2) + Ticks(2));
    RunThen(s0, Arrivals(2), Ticks(4) + (Ticks(2) + Ticks(2)));
    acts := Arrivals(2) + (Ticks(4) + (Ticks(2) + Ticks(2)));
  }

  // From there, the first task is posted.
  lemma FirstPosted(s: Sys)
    requires Inv(s) && |s.lanes| == 1 && s.lanes[0] == InitLane(true) && s.d.pc.Batch? && s.m.inbound == []
    requires |s.m.queue| == 2
    ensures var u := Run(s, Ticks(12));
            && Inv(u) && |u.lanes| == 1 && u.d.pc.Batch? && u.m.inbound == [] && u.m.freed == s.m.freed
            && InProgress(u) && u.lanes[0].reqFlag == ACTIVE && u.lanes[0].job.value == s.m.queue[0]
            && u.m.queue == [s.m.queue[1]] && u.h.arrived == s.h.arrived
  {
    hide Run, Ticks, LanesOk, HoldersOk, QueueOk, TokensOk, PoolsOk, HandOk;
    RunKeeps(s, Ticks(12));
    BackToTheSlot(s);
    var v := Run(s, Ticks(1));
    ScanToDeq(v);
    PostHead(Goto(v, Deq));
    TicksAdd(1, 11);
    TicksAdd(3, 8);
    RunThen(v, Ticks(3), Ticks(8));
    RunThen(s, Ticks(1), Ticks(11));
    assert s.m.queue[1..] == [s.m.queue[1]];
  }

  // The late store, and the second task is taken for the slot on the next round.
  lemma SecondTaken(s: Sys)
    requires Shape(s) && |s.lanes| == 1 && s.d.pc.Batch? && s.m.inbound == []
    requires s.lanes[0].respFlag == PROCESSED && |s.m.queue| == 1
    ensures Run(s, Ticks(5)) == PostingAt(s.(d := s.d.(pc := Deq, at := 0, batch := 0)), 0)
  {
    hide Run, Ticks, DispatcherStep;
    BackToTheSlot(s);
    var v := Run(s, Ticks(1));
    ScanToDeq(v);
    var w := Goto(v, Deq);
    FirstStore(w);
    Tick(w, 0);
    NoTick(DispatcherStep(w, 0));
    TicksAdd(1, 4);
    TicksAdd(3, 1);
    RunThen(v, Ticks(3), Ticks(1));
    RunThen(s, Ticks(1), Ticks(4));
  }

  /** One worker and at least two contexts.  The net thread's own start makes the slot ready; a
      task is posted; the worker's thread then makes its store.  On the next round the dispatcher
      takes a second task for the slot while the first one's request is still up.  The worker
      publishes before the flag is cleared, and the first packet is never released. */
  lemma LateInitHappens(pools: CtxPools) returns (s0: Sys, before: seq<Act>, after: seq<Act>, rest: seq<Act>)
    requires CtxOk(pools) && Outstanding(pools.ctx) == {} && |pools.ctx.items| >= 2
    ensures StartWith(s0, 1, {0}, pools) && Shape(s0)
    ensures var s := Run(s0, before);
            && Inv(s) && |s.lanes| > 0 && InProgress(s) && Shape(LateInit(s))
            && var u := Run(LateInit(s), after);
               && DispatcherInside(u, 0) && PutRank(u.d.pc) >= 0 && WorkerInside(u.lanes[0])
               && Stranded(Run(u, rest), 1)
  {
    hide Outstanding, FreeList, Run, CtxOk, Inv, NoTrace;
    var acts;
    s0, acts := TwoQueued(pools);
    InvShape(s0);
    var s1 := Run(s0, acts);
    FirstPosted(s1);
    var s := Run(s1, Ticks(12));
    RunThen(s0, acts, Ticks(12));
    before := acts + Ticks(12);
    after := Ticks(5);
    InvShape(s);
    OneArrived(s);
    SecondTaken(LateInit(s));
    BothInside(LateInit(s));
    var u := Run(LateInit(s), after);
    rest := WipeBehind(u, 1);
    NoTraceStrands(Run(u, rest), 1);
  }

  lemma OneArrived(s: Sys)
    requires Inv(s) && s.h.arrived == [1, 2] && |s.lanes| == 1 && InProgress(s)
    ensures 1 in s.h.place && InTurn(s.lanes[0])
  {
    hide HoldersOk, QueueOk, PoolsOk, HandOk;
    assert 1 in s.h.arrived;
    assert LaneOk(s.lanes[0], StageOf(s, 0), s.d.task);
  }

  lemma BothInside(s: Sys)
    requires Shape(s) && |s.lanes| == 1 && s.m.inbound == [] && |s.m.queue| == 1 && s.m.queue[0].mbuf == 2
    requires s.m.freed == [] && 1 in s.h.place && s.lanes[0].reqFlag == ACTIVE && InTurn(s.lanes[0])
    ensures var u := PostingAt(s.(d := s.d.(pc := Deq, at := 0, batch := 0)), 0);
            && DispatcherInside(u, 0) && PutRank(u.d.pc) >= 0 && WorkerInside(u.lanes[0])
            && InTurn(u.lanes[0]) && NowhereElse(u, 1) && u.h.arrived == s.h.arrived
            && |u.lanes| == 1 && u.d.at == 0 && u.d.pc.PutRun?
  {
  }
}
