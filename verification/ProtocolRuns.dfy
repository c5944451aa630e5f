/** What the scheduling protocol guarantees over every run: any number of workers, any
    interleaving of single stores, any arrivals. */
module ProtocolRuns {
  import opened Constants
  import opened Mempools
  import opened TaskQueues
  import opened Contexts
  import opened Protocol
  import opened ProtocolInvariant
  import opened ProtocolSteps
  import opened ProtocolTraffic

  /** A legal start: all contexts in the pool, as many queue nodes as contexts, and any subset of
      the response slots marked PROCESSED before dispatching begins. */
  ghost predicate Start(s: Sys)
  {
    exists n: nat, ready: set<nat>, pools: CtxPools :: StartWith(s, n, ready, pools)
  }

  ghost predicate StartWith(s: Sys, n: nat, ready: set<nat>, pools: CtxPools)
  {
    && CtxOk(pools) && Outstanding(pools.ctx) == {}
    && s == Init(n, ready, pools, |pools.ctx.items|)
  }

  lemma StartOk(s: Sys)
    requires Start(s)
    ensures Inv(s)
  {
    hide Inv, CtxOk, Outstanding, Init;
    var n: nat, ready: set<nat>, pools: CtxPools :| StartWith(s, n, ready, pools);
    InitOk(n, ready, pools);
  }

  lemma InitOk(n: nat, ready: set<nat>, pools: CtxPools)
    requires CtxOk(pools) && Outstanding(pools.ctx) == {}
    ensures Inv(Init(n, ready, pools, |pools.ctx.items|))
  {
    hide CtxOk, PoolOk, Outstanding, FreeList;
    PoolsBounded(pools);
    var s := Init(n, ready, pools, |pools.ctx.items|);
    forall i | 0 <= i < n
      ensures LaneOk(s.lanes[i], StageOf(s, i), s.d.task) && s.lanes[i].job.None?
    {
      assert s.lanes[i] == InitLane(i in ready);
    }
  }

  lemma PoolsBounded(c: CtxPools)
    requires CtxOk(c)
    ensures c.ctx.inUse <= |c.ctx.items| && c.stk.inUse <= |c.stk.items|
  {
  }

  lemma {:induction false} RunKeeps(s: Sys, acts: seq<Act>)
    requires Inv(s)
    ensures Inv(Run(s, acts))
    decreases |acts|
  {
    hide LanesOk, HoldersOk, QueueOk, TokensOk, PoolsOk, HandOk, Step;
    if acts != [] {
      StepKeeps(s, acts[0]);
      RunKeeps(Step(s, acts[0]), acts[1..]);
    }
  }

  lemma InvShape(s: Sys)
    requires Inv(s)
    ensures Shape(s)
  {
  }

  lemma {:induction false} RunThen(s: Sys, a: seq<Act>, b: seq<Act>)
    requires Shape(s)
    ensures Run(s, a + b) == Run(Run(s, a), b)
    decreases |a|
  {
    hide Step;
    if a == [] {
      assert a + b == b;
    } else {
      ShapeKept(s, a[0]);
      assert (a + b)[1..] == a[1..] + b;
      RunThen(Step(s, a[0]), a[1..], b);
    }
  }

  // ---------- slots ----------

  // The dispatcher is past its first look at slot i: collecting from it or writing into it.
  predicate DispatcherInside(s: Sys, i: nat)
  {
    s.d.at == i && LanePc(s.d.pc) && !s.d.pc.Look?
  }

  // A request is posted to worker i, or the worker is on one.
  predicate WorkerInside(l: Lane)
  {
    l.reqFlag == ACTIVE || !l.wpc.Spin?
  }

  /** Mutual exclusion on every slot in every reachable state, and no torn reads: the tasks a
      worker has read, field by field, are exactly the tasks posted to it, in order, and the
      dispatcher is never more than one ahead. */
  lemma {:induction false} SlotsExclusive(s0: Sys, acts: seq<Act>, i: nat)
    requires Start(s0) && i < |s0.lanes|
    ensures var s := Run(s0, acts); var l := s.lanes[i];
            && !(DispatcherInside(s, i) && WorkerInside(l))
            && (WorkerInside(l) ==> l.respFlag == RUNNING)
            && l.seen <= l.given && |l.given| <= |l.seen| + 1
            && (WorkerInside(l) ==> |l.given| == |l.seen| + 1 && l.req == l.given[|l.seen|])
  {
    hide HoldersOk, QueueOk, TokensOk, PoolsOk, HandOk;
    StartOk(s0);
    RunKeeps(s0, acts);
    var s := Run(s0, acts);
    assert LaneOk(s.lanes[i], StageOf(s, i), s.d.task);
  }

  // All tasks posted to the first n slots.
  function PostedTo(lanes: seq<Lane>, n: nat): multiset<Task>
    requires n <= |lanes|
  {
    if n == 0 then multiset{} else PostedTo(lanes, n - 1) + multiset(lanes[n - 1].given)
  }

  lemma {:induction false} PostedSame(lanes: seq<Lane>, lanes': seq<Lane>, n: nat)
    requires n <= |lanes| && n <= |lanes'| && forall i :: 0 <= i < n ==> lanes'[i].given == lanes[i].given
    ensures PostedTo(lanes', n) == PostedTo(lanes, n)
  {
    if n > 0 { PostedSame(lanes, lanes', n - 1); }
  }

  lemma {:induction false} PostedOneMore(lanes: seq<Lane>, lanes': seq<Lane>, n: nat, k: nat, t: Task)
    requires k < n <= |lanes| && n <= |lanes'| && lanes'[k].given == lanes[k].given + [t]
    requires forall i :: 0 <= i < n && i != k ==> lanes'[i].given == lanes[i].given
    ensures PostedTo(lanes', n) == PostedTo(lanes, n) + multiset{t}
  {
    if k == n - 1 {
      PostedSame(lanes, lanes', n - 1);
      assert multiset(lanes[k].given + [t]) == multiset(lanes[k].given) + multiset{t};
    } else {
      PostedOneMore(lanes, lanes', n - 1, k, t);
    }
  }

  // What a step posts: nothing, or the one task it dequeues, to one slot.
  ghost predicate Posts(s: Sys, a: Act, u: Sys)
  {
    && |u.lanes| == |s.lanes|
    && if a.Dispatcher? && s.d.pc.Deq? && s.m.queue != [] then
         && s.d.at < |s.lanes| && u.h.log == s.h.log + [s.m.queue[0]]
         && u.lanes[s.d.at].given == s.lanes[s.d.at].given + [s.m.queue[0]]
         && forall i :: 0 <= i < |s.lanes| && i != s.d.at ==> u.lanes[i].given == s.lanes[i].given
       else
         u.h.log == s.h.log && forall i :: 0 <= i < |s.lanes| ==> u.lanes[i].given == s.lanes[i].given
  }

  lemma SlotPosts(s: Sys, clock: nat)
    requires Shape(s) && LanePc(s.d.pc)
    ensures Posts(s, Dispatcher(clock), DispatcherStep(s, clock))
  {
    hide Outstanding, FreeList, ContextFree;
  }

  lemma GivenStep(s: Sys, a: Act)
    requires Shape(s)
    ensures Posts(s, a, Step(s, a))
  {
    hide Outstanding, FreeList, Take, ContextAlloc, RunLoop, Resume;
    if a.Dispatcher? && LanePc(s.d.pc) { SlotPosts(s, a.clock); }
  }

  lemma {:induction false} PostedAlong(s: Sys, acts: seq<Act>)
    requires Shape(s) && PostedTo(s.lanes, |s.lanes|) == multiset(s.h.log)
    ensures var u := Run(s, acts); PostedTo(u.lanes, |u.lanes|) == multiset(u.h.log)
    decreases |acts|
  {
    hide Step;
    if acts != [] {
      ShapeKept(s, acts[0]);
      GivenStep(s, acts[0]);
      var u := Step(s, acts[0]);
      if acts[0].Dispatcher? && s.d.pc.Deq? && s.m.queue != [] {
        PostedOneMore(s.lanes, u.lanes, |s.lanes|, s.d.at, s.m.queue[0]);
      } else {
        PostedSame(s.lanes, u.lanes, |s.lanes|);
      }
      PostedAlong(u, acts[1..]);
    }
  }

  /** The tasks posted to all slots together are the tasks dequeued, each to one slot, once. */
  lemma {:induction false} PostedIsTheLog(s0: Sys, acts: seq<Act>)
    requires Start(s0)
    ensures var s := Run(s0, acts); PostedTo(s.lanes, |s.lanes|) == multiset(s.h.log)
  {
    hide Inv;
    StartOk(s0);
    var n: nat, ready: set<nat>, pools: CtxPools :| StartWith(s0, n, ready, pools);
    NothingPosted(s0, n);
    PostedAlong(s0, acts);
  }

  lemma {:induction false} NothingPosted(s: Sys, n: nat)
    requires n <= |s.lanes| && forall i :: 0 <= i < |s.lanes| ==> s.lanes[i].given == []
    ensures PostedTo(s.lanes, n) == multiset{}
  {
    if n > 0 { NothingPosted(s, n - 1); }
  }

  /** A slot that was not made ready before the start is never served: its response flag
      reads RUNNING for ever and nothing is posted to it. */
  lemma {:induction false} UnreadySlotStarves(s: Sys, acts: seq<Act>, i: nat)
    requires Shape(s) && i < |s.lanes|
    requires s.lanes[i] == InitLane(false) && (s.d.at == i && LanePc(s.d.pc) ==> s.d.pc.Look?)
    ensures Run(s, acts).lanes[i] == InitLane(false)
    decreases |acts|
  {
    if acts != [] {
      ShapeKept(s, acts[0]);
      StarvedStep(s, acts[0], i);
      UnreadySlotStarves(Step(s, acts[0]), acts[1..], i);
    }
  }

  lemma StarvedStep(s: Sys, a: Act, i: nat)
    requires Shape(s) && i < |s.lanes|
    requires s.lanes[i] == InitLane(false) && (s.d.at == i && LanePc(s.d.pc) ==> s.d.pc.Look?)
    ensures var u := Step(s, a);
            && |u.lanes| == |s.lanes| && u.lanes[i] == InitLane(false)
            && (u.d.at == i && LanePc(u.d.pc) ==> u.d.pc.Look?)
  {
    hide Outstanding, FreeList, Take, ContextAlloc, ContextFree, RunLoop, Resume;
  }

  // ---------- packets ----------

  ghost predicate SlottedSomewhere(lanes: seq<Lane>, b: nat)
  {
    exists i: nat :: SlotHolds(lanes, i, b)
  }

  function One(p: bool): nat
  {
    if p then 1 else 0
  }

  // Packet b is in exactly one place if it arrived, and in none otherwise.
  ghost predicate ConservedAt(s: Sys, b: nat)
  {
    One(b in s.m.inbound) + One(QueuedSomewhere(s.m.queue, b))
    + One(SlottedSomewhere(s.lanes, b)) + One(b in s.m.freed) == One(b in s.h.arrived)
  }

  /** Conservation: in every reachable state each packet that arrived is in exactly one of the
      inbound ring, the task queue, one worker slot and the released set, once; and its buffer
      is released at most once. */
  lemma {:induction false} PacketsConserved(s0: Sys, acts: seq<Act>, b: nat)
    requires Start(s0)
    ensures var s := Run(s0, acts);
            && ConservedAt(s, b)
            && Distinct(s.m.inbound) && Distinct(s.m.freed)
            && (forall i, j :: 0 <= i < j < |s.m.queue| ==> s.m.queue[i].mbuf != s.m.queue[j].mbuf)
            && (forall i: nat, j: nat :: SlotHolds(s.lanes, i, b) && SlotHolds(s.lanes, j, b) ==> i == j)
  {
    hide LanesOk, HoldersOk, PoolsOk, HandOk, DispatchesOf;
    StartOk(s0);
    RunKeeps(s0, acts);
    PlacesExclusive(Run(s0, acts), b);
  }

  lemma PlacesExclusive(s: Sys, b: nat)
    requires Inv(s)
    ensures ConservedAt(s, b)
    ensures forall i: nat, j: nat :: SlotHolds(s.lanes, i, b) && SlotHolds(s.lanes, j, b) ==> i == j
  {
    hide LaneOk, CtxOk, DispatchesOf, CoOk, Descends, Outstanding, FullService, PoolsOk;
    forall i: nat | SlotHolds(s.lanes, i, b)
      ensures Placed(s.h.place, b, InSlot(i))
    {
      assert HeldOk(s.lanes[i], s.lanes[i].job.value, i, StageOf(s, i), s.h, s.m.cos);
    }
    if QueuedSomewhere(s.m.queue, b) {
      var j :| 0 <= j < |s.m.queue| && s.m.queue[j].mbuf == b;
      assert QueuedOk(s.m.queue[j], s.h, s.m.cos);
    }
    if b in s.h.place {
      match s.h.place[b] {
        case InRing =>
        case InQueue => assert Placed(s.h.place, b, InQueue);
        case InSlot(i) => assert SlotHolds(s.lanes, i, b);
        case Done =>
      }
    }
    assert b in s.h.arrived <==> b in s.h.place;
    assert b in s.m.inbound <==> Placed(s.h.place, b, InRing);
    assert b in s.m.freed <==> Placed(s.h.place, b, Done);
  }

  /** Nothing ever goes wrong: no task is dropped by a full queue, no context allocation is
      rolled back, nothing is freed twice or without being held, no dead context is resumed;
      the two pools stay in lockstep. */
  lemma {:induction false} NoFaults(s0: Sys, acts: seq<Act>)
    requires Start(s0)
    ensures var s := Run(s0, acts);
            && !s.m.fault
            && s.m.pools.ctx.inUse == s.m.pools.stk.inUse <= s.m.capacity
            && |s.m.queue| <= s.m.pools.ctx.inUse
            && (s.d.pc.PreEnq? || s.d.pc.BatchEnq? ==> |s.m.queue| < s.m.capacity)
  {
    hide LanesOk, HoldersOk, DispatchesOf, TokensOk, CoIs, Descends, Serving;
    StartOk(s0);
    RunKeeps(s0, acts);
    var s := Run(s0, acts);
    if s.d.pc.PreEnq? { PreEnqFacts(s); }
    if s.d.pc.BatchEnq? { BatchEnqFits(s); }
    QueueWithinContexts(s);
  }

  lemma QueueWithinContexts(s: Sys)
    requires QueueOk(s) && PoolsOk(s)
    ensures |s.m.queue| <= s.m.pools.ctx.inUse
  {
    hide DispatchesOf, Descends, Serving, CoIs;
    var q := s.m.queue;
    var used := seq(|q|, j requires 0 <= j < |q| => q[j].rnbl);
    var out := Outstanding(s.m.pools.ctx);
    forall j | 0 <= j < |q|
      ensures used[j] == q[j].rnbl && used[j] in out && s.h.owner[used[j]] == q[j].mbuf
    {
      assert QueuedOk(q[j], s.h, s.m.cos);
    }
    assert Distinct(used);
    DistinctSize(used, out);
    OutstandingCount(s.m.pools.ctx);
  }

  // The contexts of the tasks in the first n slots, leaving out one already given back.
  ghost function SlotContexts(s: Sys, n: nat): seq<Addr>
    requires n <= |s.lanes|
  {
    if n == 0 then []
    else
      var i := n - 1;
      SlotContexts(s, i) +
      (if s.lanes[i].job.Some? && StageOf(s, i) != At(FinMbuf) then [s.lanes[i].job.value.rnbl] else [])
  }

  lemma {:induction false} SlotContextsOwned(s: Sys, n: nat)
    requires HoldersOk(s) && n <= |s.lanes|
    ensures Distinct(SlotContexts(s, n))
    ensures forall a :: a in SlotContexts(s, n) ==>
              a in s.h.owner && s.h.owner[a] in s.h.place &&
              s.h.place[s.h.owner[a]].InSlot? && s.h.place[s.h.owner[a]].lane < n
    ensures forall i :: 0 <= i < n && s.lanes[i].job.Some? && StageOf(s, i) != At(FinMbuf) ==>
              s.lanes[i].job.value.rnbl in SlotContexts(s, n)
  {
    hide DispatchesOf, Descends, CoOk;
    if n > 0 {
      var i := n - 1;
      SlotContextsOwned(s, i);
      if s.lanes[i].job.Some? && StageOf(s, i) != At(FinMbuf) {
        assert HeldOk(s.lanes[i], s.lanes[i].job.value, i, StageOf(s, i), s.h, s.m.cos);
      }
    }
  }

  /** Exact accounting: the contexts out of the pool are those of the queued tasks, those of the
      occupied slots, and the one in the batch loop's hands, no two the same. */
  lemma {:induction false} ContextsAccounted(s0: Sys, acts: seq<Act>)
    requires Start(s0)
    ensures var s := Run(s0, acts);
            && Distinct(InService(s)) && Elements(InService(s)) == Outstanding(s.m.pools.ctx)
            && |s.m.queue| + |SlotContexts(s, |s.lanes|)| + One(s.d.pc.BatchEnq?) == s.m.pools.ctx.inUse
  {
    hide Inv, InService, Outstanding, SlotContexts;
    StartOk(s0);
    RunKeeps(s0, acts);
    AccountingHolds(Run(s0, acts));
  }

  ghost function InService(s: Sys): seq<Addr>
  {
    seq(|s.m.queue|, j requires 0 <= j < |s.m.queue| => s.m.queue[j].rnbl)
    + SlotContexts(s, |s.lanes|) + (if s.d.pc.BatchEnq? then [s.d.task.rnbl] else [])
  }

  lemma AccountingHolds(s: Sys)
    requires Inv(s)
    ensures Distinct(InService(s)) && Elements(InService(s)) == Outstanding(s.m.pools.ctx)
    ensures |s.m.queue| + |SlotContexts(s, |s.lanes|)| + One(s.d.pc.BatchEnq?) == s.m.pools.ctx.inUse
  {
    hide LaneOk, CtxOk, PoolOk, DispatchesOf, CoOk, Descends, FullService, SlotContexts, InService, Serving,
         HandOk, TokensOk, HoldersOk, QueueOk, Outstanding;
    ServiceDistinct(s);
    ServiceComplete(s);
    DistinctCount(InService(s));
    assert Elements(InService(s)) == Outstanding(s.m.pools.ctx);
    ContextCount(s.m.pools);
    ServiceLength(s);
  }

  lemma ContextCount(c: CtxPools)
    requires CtxOk(c)
    ensures |Outstanding(c.ctx)| == c.ctx.inUse
  {
    OutstandingCount(c.ctx);
  }

  lemma ServiceLength(s: Sys)
    ensures |InService(s)| == |s.m.queue| + |SlotContexts(s, |s.lanes|)| + One(s.d.pc.BatchEnq?)
  {
    hide SlotContexts;
  }

  lemma ServiceDistinct(s: Sys)
    requires Inv(s)
    ensures Distinct(InService(s))
    ensures forall a :: a in InService(s) ==> a in s.h.owner
  {
    hide LaneOk, CtxOk, Outstanding, DispatchesOf, CoOk, Descends, FullService, SlotContexts, Serving, HoldersOk;
    var q, sc := s.m.queue, SlotContexts(s, |s.lanes|);
    SlotContextsOwned(s, |s.lanes|);
    forall j | 0 <= j < |q|
      ensures q[j].rnbl in s.h.owner && s.h.owner[q[j].rnbl] == q[j].mbuf && Placed(s.h.place, q[j].mbuf, InQueue)
    {
      assert QueuedOk(q[j], s.h, s.m.cos);
    }
    if s.d.pc.BatchEnq? {
      BatchEnqFits(s);
    }
    forall i, j | 0 <= i < j < |InService(s)|
      ensures InService(s)[i] != InService(s)[j]
    {
      var x := InService(s);
      if i >= |q| && j < |q| + |sc| {
        assert x[i] == sc[i - |q|] && x[j] == sc[j - |q|];
      } else if i >= |q| {
        assert x[i] == sc[i - |q|] && x[i] in sc;
      } else if j >= |q| && j < |q| + |sc| {
        assert x[j] == sc[j - |q|] && x[j] in sc;
      }
    }
  }

  lemma QueuedInService(s: Sys, a: Addr, b: nat)
    requires QueueOk(s) && QueuedSomewhere(s.m.queue, b) && b in s.h.born && s.h.born[b].rnbl == a
    ensures a in InService(s)
  {
    hide DispatchesOf, CoOk, SlotContexts;
    var q := s.m.queue;
    var j :| 0 <= j < |q| && q[j].mbuf == b;
    assert QueuedOk(q[j], s.h, s.m.cos);
    assert InService(s)[j] == q[j].rnbl;
  }

  lemma SlottedInService(s: Sys, a: Addr, i: nat)
    requires HoldersOk(s) && i < |s.lanes| && s.lanes[i].job.Some? && StageOf(s, i) != At(FinMbuf)
    requires s.lanes[i].job.value.rnbl == a
    ensures a in InService(s)
  {
    hide HoldersOk, SlotContexts;
    var q, sc := s.m.queue, SlotContexts(s, |s.lanes|);
    SlotContextsOwned(s, |s.lanes|);
    var j :| 0 <= j < |sc| && sc[j] == a;
    assert InService(s)[|q| + j] == a;
  }

  lemma HandInService(s: Sys)
    requires s.d.pc.BatchEnq?
    ensures s.d.task.rnbl in InService(s)
  {
    hide SlotContexts;
    assert InService(s)[|s.m.queue| + |SlotContexts(s, |s.lanes|)|] == s.d.task.rnbl;
  }

  lemma ServiceComplete(s: Sys)
    requires Inv(s)
    ensures forall a :: a in s.h.owner ==> a in InService(s)
  {
    hide LaneOk, CtxOk, Outstanding, DispatchesOf, CoOk, FullService, SlotContexts, InService;
    forall a | a in s.h.owner
      ensures a in InService(s)
    {
      assert Serving(s, a);
      var b := s.h.owner[a];
      if s.d.pc.BatchEnq? && s.d.task.rnbl == a {
        HandInService(s);
      } else if s.h.place[b].InQueue? {
        assert Placed(s.h.place, b, InQueue);
        QueuedInService(s, a, b);
      } else {
        var i := s.h.place[b].lane;
        assert Placed(s.h.place, b, InSlot(i));
        assert SlotHolds(s.lanes, i, b);
        assert HeldOk(s.lanes[i], s.lanes[i].job.value, i, StageOf(s, i), s.h, s.m.cos);
        SlottedInService(s, a, i);
      }
    }
  }

  // ---------- order ----------

  /** First come, first served: dispatches so far followed by the waiting tasks only ever grows
      at its end, whatever arrives or is preempted in between.  So the task at position p of the
      queue is dispatched after exactly p more dispatches. */
  lemma {:induction false} QueueIsFifo(s: Sys, acts: seq<Act>)
    requires Inv(s)
    ensures var u := Run(s, acts); s.h.log + s.m.queue <= u.h.log + u.m.queue
    decreases |acts|
  {
    hide LanesOk, HoldersOk, QueueOk, TokensOk, PoolsOk, HandOk, Step;
    if acts != [] {
      StepKeeps(s, acts[0]);
      OneStepFifo(s, acts[0]);
      QueueIsFifo(Step(s, acts[0]), acts[1..]);
    }
  }

  // What one step does to the log and the queue: nothing, a task behind the tail, or the head dispatched.
  predicate QueueMove(log: seq<Task>, q: seq<Task>, log': seq<Task>, q': seq<Task>)
  {
    || (log' == log && q' == q)
    || (log' == log && |q'| == |q| + 1 && q'[..|q|] == q)
    || (q != [] && log' == log + [q[0]] && q' == q[1..])
  }

  lemma SlotMove(s: Sys, clock: nat)
    requires Shape(s) && LanePc(s.d.pc) && (s.d.pc.PreEnq? ==> |s.m.queue| < s.m.capacity)
    ensures var u := DispatcherStep(s, clock); QueueMove(s.h.log, s.m.queue, u.h.log, u.m.queue)
  {
    hide Outstanding, FreeList, ContextFree;
  }

  lemma NetMove(s: Sys, clock: nat)
    requires Shape(s) && !LanePc(s.d.pc) && (s.d.pc.BatchEnq? ==> |s.m.queue| < s.m.capacity)
    ensures var u := DispatcherStep(s, clock); QueueMove(s.h.log, s.m.queue, u.h.log, u.m.queue)
  {
    hide Outstanding, FreeList, ContextAlloc;
  }

  lemma OneStepMove(s: Sys, a: Act)
    requires Inv(s)
    ensures QueueMove(s.h.log, s.m.queue, Step(s, a).h.log, Step(s, a).m.queue)
  {
    hide LanesOk, HoldersOk, QueueOk, TokensOk, PoolsOk, HandOk, DispatcherStep, LaneStep, RunLoop, Resume;
    if a.Dispatcher? {
      if s.d.pc.PreEnq? { PreEnqFacts(s); }
      if s.d.pc.BatchEnq? { BatchEnqFits(s); }
      if LanePc(s.d.pc) { SlotMove(s, a.clock); } else { NetMove(s, a.clock); }
    }
  }

  lemma OneStepFifo(s: Sys, a: Act)
    requires Inv(s)
    ensures var u := Step(s, a); s.h.log + s.m.queue <= u.h.log + u.m.queue
  {
    hide Step, Inv;
    OneStepMove(s, a);
    var q := s.m.queue;
    if q != [] { assert s.h.log + q == (s.h.log + [q[0]]) + q[1..]; }
  }

  lemma {:induction false} WaitIsBounded(s: Sys, acts: seq<Act>, p: nat)
    requires Inv(s) && p < |s.m.queue|
    ensures var u := Run(s, acts);
            var k := |u.h.log| - |s.h.log|;
            && k >= 0
            && (k <= p ==> p - k < |u.m.queue| && u.m.queue[p - k] == s.m.queue[p])
            && (k > p ==> u.h.log[|s.h.log| + p] == s.m.queue[p])
  {
    hide LanesOk, HoldersOk, QueueOk, TokensOk, PoolsOk, HandOk;
    QueueIsFifo(s, acts);
    LogGrows(s, acts);
    var u := Run(s, acts);
    var x := |s.h.log| + p;
    assert (s.h.log + s.m.queue)[x] == s.m.queue[p];
    assert (u.h.log + u.m.queue)[x] == s.m.queue[p];
  }

  lemma {:induction false} LogGrows(s: Sys, acts: seq<Act>)
    requires Shape(s)
    ensures s.h.log <= Run(s, acts).h.log
    decreases |acts|
  {
    if acts != [] {
      ShapeKept(s, acts[0]);
      OneStepLog(s, acts[0]);
      LogGrows(Step(s, acts[0]), acts[1..]);
    }
  }

  lemma OneStepLog(s: Sys, a: Act)
    requires Shape(s)
    ensures s.h.log <= Step(s, a).h.log
  {
    hide Outstanding, FreeList, Take, ContextAlloc, ContextFree, RunLoop, Resume;
  }

  // ---------- two dispatches each ----------

  /** A released packet was dispatched exactly twice: first as the task it was admitted
      as, then as that task's saved context, with the same type and timestamp. */
  lemma {:induction false} ServedExactlyTwice(s0: Sys, acts: seq<Act>, b: nat)
    requires Start(s0)
    ensures var s := Run(s0, acts);
            && |DispatchesOf(s.h.log, b)| <= 2
            && (b in s.m.freed ==>
                  && b in s.h.born && Admitted(s.h.born[b], b)
                  && DispatchesOf(s.h.log, b) == [s.h.born[b], s.h.born[b].(category := CONTEXT)])
  {
    hide LaneOk, CtxOk, DispatchesOf, CoOk, Outstanding, PoolsOk;
    StartOk(s0);
    RunKeeps(s0, acts);
    var s := Run(s0, acts);
    DispatchCount(s, b);
    if b in s.m.freed {
      assert FullService(s.h.born, s.h.log, b);
      BirthsOk(s0, acts, b);
    }
  }

  // The task the batch loop makes of packet b.
  predicate Admitted(t: Task, b: nat)
  {
    t.mbuf == b && t.typ == 1 && t.category == PACKET
  }

  ghost predicate PacketBirths(born: map<nat, Task>)
  {
    forall b :: b in born ==> Admitted(born[b], b)
  }

  lemma {:induction false} BornAsPackets(s: Sys, acts: seq<Act>)
    requires Inv(s) && PacketBirths(s.h.born)
    ensures PacketBirths(Run(s, acts).h.born)
    decreases |acts|
  {
    hide LanesOk, HoldersOk, QueueOk, TokensOk, PoolsOk, HandOk, Step;
    if acts != [] {
      StepKeeps(s, acts[0]);
      OneStepBorn(s, acts[0]);
      BornAsPackets(Step(s, acts[0]), acts[1..]);
    }
  }

  lemma OneStepBorn(s: Sys, a: Act)
    requires Inv(s) && PacketBirths(s.h.born)
    ensures PacketBirths(Step(s, a).h.born)
  {
    hide LanesOk, HoldersOk, QueueOk, TokensOk, PoolsOk, Outstanding, FreeList, Take,
         ContextAlloc, ContextFree, RunLoop, Resume;
  }

  lemma BirthsOk(s0: Sys, acts: seq<Act>, b: nat)
    requires Start(s0) && b in Run(s0, acts).h.born
    ensures Admitted(Run(s0, acts).h.born[b], b)
  {
    hide LanesOk, HoldersOk, QueueOk, TokensOk, PoolsOk, HandOk;
    StartOk(s0);
    var n: nat, ready: set<nat>, pools: CtxPools :| StartWith(s0, n, ready, pools);
    BornAsPackets(s0, acts);
  }

  // How many dispatches a packet has had, by where it is.
  lemma DispatchCount(s: Sys, b: nat)
    requires Inv(s)
    ensures |DispatchesOf(s.h.log, b)| <= 2
    ensures b in s.h.place && s.h.place[b].Done? ==> |DispatchesOf(s.h.log, b)| == 2
  {
    hide LaneOk, CtxOk, DispatchesOf, CoOk, Outstanding, PoolsOk, Descends, Owns;
    if b !in s.h.place {
      NeverDispatched(s.h.log, b);
    } else {
      match s.h.place[b] {
        case InRing => assert Placed(s.h.place, b, InRing);
        case InQueue =>
          assert Placed(s.h.place, b, InQueue);
          var j :| 0 <= j < |s.m.queue| && s.m.queue[j].mbuf == b;
          assert QueuedOk(s.m.queue[j], s.h, s.m.cos);
        case InSlot(i) =>
          assert Placed(s.h.place, b, InSlot(i));
          assert SlotHolds(s.lanes, i, b);
          assert HeldOk(s.lanes[i], s.lanes[i].job.value, i, StageOf(s, i), s.h, s.m.cos);
        case Done => assert Placed(s.h.place, b, Done);
      }
    }
  }

  ghost function TotalDispatches(bs: seq<nat>, log: seq<Task>): nat
  {
    if bs == [] then 0
    else TotalDispatches(bs[..|bs| - 1], log) + |DispatchesOf(log, bs[|bs| - 1])|
  }

  // Summed over all packets, the dispatches are the whole log.
  lemma {:induction false} LogIsTotal(bs: seq<nat>, log: seq<Task>)
    requires Distinct(bs) && forall j :: 0 <= j < |log| ==> log[j].mbuf in bs
    ensures TotalDispatches(bs, log) == |log|
    decreases |log|
  {
    if log == [] {
      NoLogNoDispatch(bs);
    } else {
      var n := |log| - 1;
      assert log == log[..n] + [log[n]];
      LogIsTotal(bs, log[..n]);
      OneMoreDispatch(bs, log[..n], log[n]);
    }
  }

  lemma {:induction false} NoLogNoDispatch(bs: seq<nat>)
    ensures TotalDispatches(bs, []) == 0
  {
    if bs != [] { NoLogNoDispatch(bs[..|bs| - 1]); }
  }

  lemma {:induction false} OneMoreDispatch(bs: seq<nat>, log: seq<Task>, t: Task)
    requires Distinct(bs)
    ensures TotalDispatches(bs, log + [t]) == TotalDispatches(bs, log) + One(t.mbuf in bs)
  {
    hide DispatchesOf;
    if bs != [] {
      var n := |bs| - 1;
      OneMoreDispatch(bs[..n], log, t);
      LogAppend(log, t, bs[n]);
      assert bs == bs[..n] + [bs[n]];
    }
  }

  lemma {:induction false} AtMostTwice(s: Sys, bs: seq<nat>)
    requires Inv(s)
    ensures TotalDispatches(bs, s.h.log) <= 2 * |bs|
    ensures (forall j :: 0 <= j < |bs| ==> bs[j] in s.m.freed) ==> TotalDispatches(bs, s.h.log) == 2 * |bs|
  {
    hide LaneOk, CtxOk, DispatchesOf, CoOk, Outstanding, PoolsOk, QueueOk, HoldersOk, HandOk, LanesOk;
    if bs != [] {
      var n := |bs| - 1;
      AtMostTwice(s, bs[..n]);
      DispatchCount(s, bs[n]);
      assert bs[n] in s.m.freed ==> Placed(s.h.place, bs[n], Done);
    }
  }

  /** The dispatch budget: N packets take at most 2N dispatches, and exactly 2N once they have all
      been served.  With no more arrivals the difference 2N - dispatches only shrinks. */
  lemma {:induction false} DispatchBudget(s0: Sys, acts: seq<Act>)
    requires Start(s0)
    ensures var s := Run(s0, acts);
            && |s.h.log| <= 2 * |s.h.arrived|
            && ((forall b :: b in s.h.arrived ==> b in s.m.freed) ==> |s.h.log| == 2 * |s.h.arrived|)
  {
    hide LanesOk, HoldersOk, QueueOk, PoolsOk, HandOk, DispatchesOf;
    StartOk(s0);
    RunKeeps(s0, acts);
    var s := Run(s0, acts);
    LogIsTotal(s.h.arrived, s.h.log);
    AtMostTwice(s, s.h.arrived);
  }

  // ---------- exhaustion ----------

  predicate Exhausted(s: Sys)
    requires Shape(s)
  {
    && s.d.pc.Batch? && s.m.inbound != [] && s.d.batch < MAX_RX_BURST
    && ContextAlloc(s.m.pools).NoContext?
  }

  /** The batch loop waits for a context only the dispatcher could free: entered with packets
      pending and no context left, it never gets out, whatever the workers do. */
  lemma {:induction false} ExhaustionIsForever(s: Sys, acts: seq<Act>)
    requires Shape(s) && Exhausted(s)
    ensures Run(s, acts).d == s.d && Run(s, acts).m.queue == s.m.queue
    ensures Exhausted(Run(s, acts))
    decreases |acts|
  {
    if acts != [] {
      ShapeKept(s, acts[0]);
      ExhaustedStep(s, acts[0]);
      ExhaustionIsForever(Step(s, acts[0]), acts[1..]);
    }
  }

  lemma ExhaustedStep(s: Sys, a: Act)
    requires Shape(s) && Exhausted(s)
    ensures var u := Step(s, a);
            Shape(u) && Exhausted(u) && u.d == s.d && u.m.queue == s.m.queue && |u.lanes| == |s.lanes|
  {
    hide Outstanding, FreeList, Take, ContextAlloc, ContextFree, RunLoop, Resume;
  }

  // With a context free, the same round goes through in two steps.
  lemma ContextFreeProceeds(s: Sys, clock: nat)
    requires Inv(s) && s.d.pc.Batch? && s.m.inbound != [] && s.d.batch < MAX_RX_BURST
    ensures !Exhausted(s) <==> s.m.pools.ctx.inUse < s.m.capacity
    ensures !Exhausted(s) ==>
              var u := DispatcherStep(s, clock);
              u.d.pc.BatchEnq? && BatchEnqStep(u).m.inbound == s.m.inbound[1..]
  {
    hide LanesOk, HoldersOk, QueueOk, TokensOk, HandOk, Outstanding, FreeList;
    ContextAllocEffect(s.m.pools);
  }
}
