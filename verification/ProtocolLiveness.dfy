/** Everything that arrived gets served: without further arrivals, under any schedule that keeps
    giving every thread its turn. */
module ProtocolLiveness {
  import opened Constants
  import opened Mempools
  import opened TaskQueues
  import opened Contexts
  import opened Protocol
  import opened ProtocolInvariant
  import opened ProtocolSteps
  import opened ProtocolTraffic
  import opened ProtocolRuns
  import opened ProtocolProgress

  function DispatcherSteps(acts: seq<Act>): nat
  {
    if acts == [] then 0 else (if acts[0].Dispatcher? then 1 else 0) + DispatcherSteps(acts[1..])
  }

  // ---------- a stretch without productive steps ----------

  // From s the dispatcher takes at least k steps of acts, and nothing at all comes of acts.
  ghost predicate Polls(s: Sys, acts: seq<Act>, k: nat)
  {
    Inv(s) && NoArrivals(acts) && DispatcherSteps(acts) >= k && Productive(s, acts) == 0
  }

  // A worker's step that changes nothing leaves the very same state.
  lemma WorkerStays(s: Sys, w: nat)
    requires Shape(s) && Idle(s, Step(s, Worker(w)))
    ensures Step(s, Worker(w)) == s
  {
    hide LaneStep, Resume;
  }

  lemma {:induction false} StepOn(s: Sys, acts: seq<Act>, k: nat) returns (u: Sys, rest: seq<Act>, clock: nat)
    requires k > 0 && Polls(s, acts, k)
    ensures u == DispatcherStep(s, clock) && Idle(s, u) && Polls(u, rest, k - 1)
    ensures |u.lanes| == |s.lanes| && Run(s, acts) == Run(u, rest)
    decreases |acts|
  {
    hide LanesOk, HoldersOk, QueueOk, TokensOk, PoolsOk, HandOk, DispatcherStep, WorkerStep, Idle;
    StepKeeps(s, acts[0]);
    ShapeKept(s, acts[0]);
    if acts[0].Dispatcher? {
      clock := acts[0].clock;
      u, rest := DispatcherStep(s, clock), acts[1..];
    } else {
      WorkerStays(s, acts[0].lane);
      u, rest, clock := StepOn(s, acts[1..], k);
    }
  }

  lemma {:induction false} WorkerPolls(s: Sys, acts: seq<Act>, w: nat)
    requires Polls(s, acts, 0) && Worker(w) in acts && w < |s.lanes|
    ensures WorkerStep(s, w) == s
    decreases |acts|
  {
    hide LanesOk, HoldersOk, QueueOk, TokensOk, PoolsOk, HandOk, DispatcherStep, WorkerStep, Idle;
    if acts[0] == Worker(w) {
      WorkerStays(s, w);
    } else {
      StepKeeps(s, acts[0]);
      var u := Step(s, acts[0]);
      IdleSize(s, u);
      WorkerPolls(u, acts[1..], w);
      StaysAlike(s, u, w);
    }
  }

  lemma IdleSize(s: Sys, u: Sys)
    requires Idle(s, u)
    ensures |u.lanes| == |s.lanes|
  {
  }

  lemma StaysAlike(s: Sys, u: Sys, w: nat)
    requires Idle(s, u) && w < |s.lanes| && WorkerStep(u, w) == u
    ensures WorkerStep(s, w) == s
  {
    hide LaneStep, Resume;
  }

  ghost predicate WorkersPoll(s: Sys)
  {
    forall w :: 0 <= w < |s.lanes| ==> WorkerStep(s, w) == s
  }

  lemma WorkersStillPoll(s: Sys, v: Sys)
    requires WorkersPoll(s) && Idle(s, v)
    ensures WorkersPoll(v)
  {
    hide LaneStep, Resume;
    forall w | 0 <= w < |v.lanes|
      ensures WorkerStep(v, w) == v
    {
      assert WorkerStep(s, w) == s;
    }
  }

  // ---------- one visit to a slot ----------

  // A worker whose slot holds a task under way can always move.
  lemma BusyCanMove(l: Lane, st: Stage, dt: Task, t: Task)
    requires l.job == Some(t) && LaneOk(l, st, dt) && Passing(st) && l.respFlag == RUNNING
    ensures AfterStep(l, t).wpc != l.wpc
  {
  }

  lemma PollingSlot(s: Sys, w: nat)
    requires Inv(s) && WorkersPoll(s) && w < |s.lanes| && Passing(StageOf(s, w))
    ensures s.lanes[w].job.Some? ==> s.lanes[w].respFlag == FINISHED || s.lanes[w].respFlag == PREEMPTED
  {
    hide HoldersOk, QueueOk, TokensOk, PoolsOk, HandOk, WorkerStep, LaneStep, AfterStep;
    WorkerEffect(s, w);
    var l := s.lanes[w];
    assert LaneOk(l, StageOf(s, w), s.d.task);
    if l.job.Some? && l.respFlag == RUNNING {
      assert WorkerStep(s, w).lanes[w] == l;
      BusyCanMove(l, StageOf(s, w), s.d.task, l.job.value);
    }
  }

  // Collecting a finished or a preempted task is work.
  lemma FinishedIsWork(s: Sys, clock: nat)
    requires Inv(s) && s.d.pc.FinCtx?
    ensures !Idle(s, DispatcherStep(s, clock))
  {
    hide LanesOk, HoldersOk, QueueOk, TokensOk, PoolsOk, HandOk, DispatcherStep, Work, Freed;
    FinCtxWorks(s, clock);
    FinCtxEffect(s, clock);
    FreedIsNotIdle(s);
  }

  lemma FreedIsNotIdle(s: Sys)
    requires Inv(s) && s.d.pc.FinCtx?
    requires s.lanes[s.d.at].job.Some? && CtxFreeable(s.m.pools, s.lanes[s.d.at].job.value.rnbl)
    ensures !Idle(s, Freed(s, s.lanes[s.d.at].job.value.rnbl))
  {
    hide CtxOk, DispatchesOf, CoOk, Descends, FullService, QueuedOk, Outstanding, ContextFree, TokensOk, QueueOk,
         LaneOk;
    var i := s.d.at;
    var t := s.lanes[i].job.value;
    assert HeldOk(s.lanes[i], t, i, StageOf(s, i), s.h, s.m.cos);
    assert t.rnbl in s.h.owner && t.rnbl !in Freed(s, t.rnbl).h.owner;
  }

  lemma {:induction false} PreemptedIsWork(s: Sys, acts: seq<Act>, k: nat)
    requires Polls(s, acts, k) && PreRank(s.d.pc) >= 0 && k >= 6 - PreRank(s.d.pc)
    ensures false
    decreases 5 - PreRank(s.d.pc)
  {
    hide LanesOk, HoldersOk, QueueOk, TokensOk, PoolsOk, HandOk, Run;
    var u, rest, clock := StepOn(s, acts, k);
    if s.d.pc.PreEnq? {
      PreEnqFacts(s);
      assert false;
    } else {
      PreemptedIsWork(u, rest, k - 1);
    }
  }

  const VISIT: nat := 9

  // At a slot it looks into, a polling dispatcher finds it empty, and either not ready or nothing to post.
  lemma IdleVisit(s: Sys, acts: seq<Act>, k: nat) returns (u: Sys, rest: seq<Act>)
    requires k >= VISIT && Polls(s, acts, k) && s.d.pc.Look?
    requires s.lanes[s.d.at].job.Some? ==>
               s.lanes[s.d.at].respFlag == FINISHED || s.lanes[s.d.at].respFlag == PREEMPTED
    ensures Polls(u, rest, k - VISIT) && Idle(s, u)
    ensures if s.d.at + 1 < |s.lanes| then u.d.pc.Look? && u.d.at == s.d.at + 1 else u.d.pc.Batch? && u.d.batch == 0
    ensures s.lanes[s.d.at].job.None? && (s.m.queue == [] || s.lanes[s.d.at].respFlag == RUNNING)
  {
    hide HoldersOk, QueueOk, TokensOk, PoolsOk, HandOk, WorkingOk, Productive, Run;
    var l := s.lanes[s.d.at];
    assert LaneOk(l, StageOf(s, s.d.at), s.d.task);
    var c;
    u, rest, c := StepOn(s, acts, k);
    if l.respFlag != RUNNING {
      var v, r1, c1 := StepOn(u, rest, k - 1);
      if l.respFlag == FINISHED {
        var x, r2, c2 := StepOn(v, r1, k - 2);
        FinishedIsWork(v, c2);
        assert false;
      }
      var w, r2, c2 := StepOn(v, r1, k - 2);
      if l.respFlag == PREEMPTED {
        PreemptedIsWork(w, r2, k - 3);
        assert false;
      }
      u, rest, c := StepOn(w, r2, k - 3);
      assert s.m.queue != [] ==> u.m.queue != s.m.queue;
    }
  }

  // ---------- a whole scan ----------

  lemma {:induction false} IdleScan(s: Sys, acts: seq<Act>, k: nat) returns (u: Sys, rest: seq<Act>)
    requires WorkersPoll(s) && s.d.pc.Look? && Polls(s, acts, k) && k >= VISIT * (|s.lanes| - s.d.at)
    ensures Polls(u, rest, k - VISIT * (|s.lanes| - s.d.at)) && Idle(s, u) && u.d.pc.Batch? && u.d.batch == 0
    ensures forall j :: s.d.at <= j < |s.lanes| ==>
              s.lanes[j].job.None? && (s.m.queue == [] || s.lanes[j].respFlag == RUNNING)
    decreases |s.lanes| - s.d.at
  {
    hide HoldersOk, QueueOk, TokensOk, PoolsOk, HandOk, LaneOk, Productive, DispatcherSteps, NoArrivals;
    PollingSlot(s, s.d.at);
    var v, r := IdleVisit(s, acts, k);
    if v.d.pc.Look? {
      WorkersStillPoll(s, v);
      u, rest := IdleScan(v, r, k - VISIT);
    } else {
      u, rest := v, r;
    }
  }

  lemma GrantedIsWork(u: Sys, clock: nat)
    requires Inv(u) && u.d.pc.Batch? && u.m.inbound != [] && u.d.batch < MAX_RX_BURST
    requires u.m.pools.ctx.inUse < u.m.capacity
    ensures !Idle(u, DispatcherStep(u, clock))
  {
    hide LanesOk, HoldersOk, QueueOk, TokensOk, HandOk, LaneOk, Outstanding, FreeList;
    ContextAllocEffect(u.m.pools);
  }

  // All contexts are out and packets are waiting for one.
  predicate Starved(s: Sys)
  {
    s.m.inbound != [] && s.m.pools.ctx.inUse == s.m.capacity
  }

  lemma InUseBounded(s: Sys)
    requires Inv(s)
    ensures s.m.pools.ctx.inUse <= s.m.capacity
  {
    PoolsBounded(s.m.pools);
  }

  /** After one idle scan of all slots: every slot is empty, tasks are left in the queue only if no
      slot is ready, and packets in the ring only if all contexts are out. */
  lemma ScanMeansDone(s: Sys, acts: seq<Act>, k: nat)
    requires s.d.pc.Look? && s.d.at == 0 && WorkersPoll(s)
    requires Polls(s, acts, k) && k > VISIT * |s.lanes|
    ensures forall j :: 0 <= j < |s.lanes| ==> s.lanes[j].job.None?
    ensures s.m.queue == [] || forall j :: 0 <= j < |s.lanes| ==> s.lanes[j].respFlag == RUNNING
    ensures s.m.inbound == [] || Starved(s)
  {
    hide LanesOk, HoldersOk, QueueOk, TokensOk, HandOk, PoolsOk, Outstanding, FreeList, Productive, DispatcherSteps,
         NoArrivals;
    InUseBounded(s);
    var u, rest := IdleScan(s, acts, k);
    if s.m.inbound != [] && s.m.pools.ctx.inUse < s.m.capacity {
      var v, r, clock := StepOn(u, rest, k - VISIT * |s.lanes|);
      GrantedIsWork(u, clock);
    }
  }

  // ---------- getting back to the first slot ----------

  // Steps left in a slot, at most.
  function Left(pc: DispPc): nat
  {
    match pc
    case Look => 20 case IsFin => 19 case IsPre => 18
    case FinCtx => 17 case FinMbuf => 16 case FinFlag => 15
    case PreRnbl => 16 case PreMbuf => 15 case PreCat => 14 case PreTyp => 13 case PreTs => 12 case PreEnq => 11
    case PreFlag => 10
    case Deq => 8
    case PutRun => 7 case PutRnbl => 6 case PutMbuf => 5 case PutTyp => 4 case PutCat => 3 case PutTs => 2
    case PutFlag => 1
    case _ => 0
  }

  const SLOT: nat := 20

  function ToTop(s: Sys): nat
    requires s.d.at <= |s.lanes|
  {
    if s.d.at < |s.lanes| then Left(s.d.pc) + SLOT * (|s.lanes| - 1 - s.d.at) + 1 else 1
  }

  lemma SlotStepLeft(s: Sys, clock: nat)
    requires Shape(s) && LanePc(s.d.pc)
    ensures var u := DispatcherStep(s, clock); Shape(u) && |u.lanes| == |s.lanes| && ToTop(u) < ToTop(s)
    ensures DispatcherStep(s, clock).d.pc != BatchEnq
  {
    hide Outstanding, FreeList, ContextFree;
    ShapeKept(s, Dispatcher(clock));
  }

  lemma {:induction false} BackToTop(s: Sys, acts: seq<Act>, k: nat) returns (u: Sys, rest: seq<Act>)
    requires |s.lanes| > 0 && Polls(s, acts, k) && Shape(s) && k >= ToTop(s)
    ensures Idle(s, u)
    ensures Starved(s) || (u.d.pc.Look? && u.d.at == 0 && Polls(u, rest, k - ToTop(s)))
    decreases ToTop(s)
  {
    hide LanesOk, HoldersOk, QueueOk, TokensOk, HandOk, PoolsOk, Outstanding, FreeList, Productive, DispatcherSteps,
         NoArrivals, ToTop;
    TopBounds(s);
    if s.d.pc.Look? && s.d.at == 0 {
      u, rest := s, acts;
      PollsLess(s, acts, k, k - ToTop(s));
    } else if LanePc(s.d.pc) {
      var v, r, clock := StepOn(s, acts, k);
      SlotStepLeft(s, clock);
      PollsLess(v, r, k - 1, k - 1 - (ToTop(s) - 1 - ToTop(v)));
      var k' := k - 1 - (ToTop(s) - 1 - ToTop(v));
      u, rest := BackToTop(v, r, k');
    } else {
      var v, r, clock := StepOn(s, acts, k);
      BatchIdles(s, clock);
      u, rest := v, r;
    }
  }

  lemma TopBounds(s: Sys)
    requires Shape(s)
    ensures ToTop(s) >= 1 && (!LanePc(s.d.pc) ==> ToTop(s) == 1)
  {
  }

  lemma PollsLess(s: Sys, acts: seq<Act>, k: nat, j: nat)
    requires Polls(s, acts, k) && j <= k
    ensures Polls(s, acts, j)
  {
    hide Inv;
  }

  // The batch loop idles only by going back to the slots, or for want of a context.
  lemma BatchIdles(s: Sys, clock: nat)
    requires Inv(s) && |s.lanes| > 0 && !LanePc(s.d.pc) && Idle(s, DispatcherStep(s, clock))
    ensures Starved(s) || (DispatcherStep(s, clock).d.pc.Look? && DispatcherStep(s, clock).d.at == 0)
  {
    hide LanesOk, HoldersOk, QueueOk, TokensOk, Outstanding, FreeList, LaneOk;
    InUseBounded(s);
    if s.d.pc.BatchEnq? {
      BatchEnqFits(s);
    } else if s.m.inbound != [] && s.d.batch < MAX_RX_BURST && s.m.pools.ctx.inUse < s.m.capacity {
      GrantedIsWork(s, clock);
    }
  }

  // ---------- packets waiting and no context: the batch loop locks ----------

  lemma SlotMoves(u: Sys, clock: nat)
    requires Shape(u) && LanePc(u.d.pc)
    ensures var v := DispatcherStep(u, clock);
            && v.m.inbound == u.m.inbound && !(v.d.pc.Look? && v.d.at == 0)
            && (!LanePc(v.d.pc) ==> v.d.pc.Batch? && v.d.batch == 0)
  {
    hide Outstanding, FreeList, ContextFree;
  }

  lemma StarvedAtBatch(s: Sys, acts: seq<Act>)
    requires Inv(s) && Starved(s) && s.d.pc.Batch? && s.d.batch < MAX_RX_BURST
    ensures Exhausted(Run(s, acts))
  {
    hide LanesOk, HoldersOk, QueueOk, TokensOk, HandOk, PoolsOk, Exhausted, Run;
    ContextFreeProceeds(s, 0);
    ExhaustionIsForever(s, acts);
  }

  lemma {:induction false} StarvedScan(s: Sys, acts: seq<Act>, k: nat)
    requires |s.lanes| > 0 && Polls(s, acts, k) && Shape(s) && Starved(s) && LanePc(s.d.pc) && k >= ToTop(s)
    ensures Exhausted(Run(s, acts))
    decreases ToTop(s)
  {
    hide LanesOk, HoldersOk, QueueOk, TokensOk, HandOk, PoolsOk, Outstanding, FreeList, Productive, DispatcherSteps,
         NoArrivals, ToTop, Exhausted, Run, DispatcherStep, Starved;
    TopBounds(s);
    var v, r, clock := StepOn(s, acts, k);
    StarvedAlike(s, v);
    SlotMoves(s, clock);
    SlotStepLeft(s, clock);
    if LanePc(v.d.pc) {
      StarvedScan(v, r, k - 1);
    } else {
      StarvedAtBatch(v, r);
    }
  }

  lemma StarvedLocks(s: Sys, acts: seq<Act>, k: nat)
    requires |s.lanes| > 0 && Polls(s, acts, k) && Shape(s) && Starved(s) && !s.d.pc.BatchEnq?
    requires k >= SLOT * |s.lanes| + 2
    ensures Exhausted(Run(s, acts))
  {
    hide LanesOk, HoldersOk, QueueOk, TokensOk, HandOk, PoolsOk, Outstanding, FreeList, Productive, DispatcherSteps,
         NoArrivals, ToTop, Exhausted, Run;
    if LanePc(s.d.pc) {
      TopAtMost(s);
      StarvedScan(s, acts, k);
    } else if s.d.batch < MAX_RX_BURST {
      StarvedAtBatch(s, acts);
    } else {
      var v, r, clock := StepOn(s, acts, k);
      TopAtMost(v);
      StarvedScan(v, r, k - 1);
    }
  }

  // ---------- rounds ----------

  // Every worker gets a step, and the dispatcher enough of them for two scans.
  predicate FullRound(n: nat, acts: seq<Act>)
  {
    && NoArrivals(acts) && (forall w :: 0 <= w < n ==> Worker(w) in acts)
    && DispatcherSteps(acts) >= (SLOT + VISIT) * n + 3
  }

  // Everything that arrived is out of the ring, the queue and the slots.
  predicate Served(s: Sys)
  {
    && s.m.inbound == [] && (forall j :: 0 <= j < |s.lanes| ==> s.lanes[j].job.None?)
    && (s.m.queue == [] || forall j :: 0 <= j < |s.lanes| ==> s.lanes[j].respFlag == RUNNING)
  }

  lemma QuietRound(s: Sys, acts: seq<Act>)
    requires |s.lanes| > 0 && Inv(s) && FullRound(|s.lanes|, acts) && Productive(s, acts) == 0
    ensures Served(s) || Exhausted(Run(s, acts))
  {
    hide LanesOk, HoldersOk, QueueOk, TokensOk, HandOk, PoolsOk, Productive, DispatcherSteps, Starved, WorkerStep,
         Exhausted, Run;
    var k := (SLOT + VISIT) * |s.lanes| + 3;
    assert Polls(s, acts, k);
    PollsLess(s, acts, k, 0);
    forall w | 0 <= w < |s.lanes|
      ensures WorkerStep(s, w) == s
    {
      WorkerPolls(s, acts, w);
    }
    NotEnqueuing(s, acts, k);
    TopAtMost(s);
    var u, rest := BackToTop(s, acts, k);
    if !Starved(s) {
      WorkersStillPoll(s, u);
      ScanMeansDone(u, rest, k - ToTop(s));
      StarvedAlike(s, u);
    } else {
      StarvedLocks(s, acts, k);
    }
  }

  lemma NotEnqueuing(s: Sys, acts: seq<Act>, k: nat)
    requires k > 0 && Polls(s, acts, k)
    ensures !s.d.pc.BatchEnq?
  {
    hide LanesOk, HoldersOk, QueueOk, TokensOk, PoolsOk, Outstanding, FreeList, Productive, DispatcherSteps;
    var u, rest, clock := StepOn(s, acts, k);
    if s.d.pc.BatchEnq? { BatchEnqFits(s); }
  }

  lemma TopAtMost(s: Sys)
    requires Shape(s) && |s.lanes| > 0
    ensures ToTop(s) <= SLOT * |s.lanes| + 1
  {
  }

  lemma StarvedAlike(s: Sys, u: Sys)
    requires Idle(s, u)
    ensures Starved(s) <==> Starved(u)
  {
  }

  // ---------- a slot once ready stays ready ----------

  predicate Ready(l: Lane)
  {
    l.job.Some? || l.respFlag != RUNNING
  }

  lemma ReadySlot(s: Sys, clock: nat)
    requires Shape(s) && LanePc(s.d.pc) && Ready(Here(s)) && LaneOk(Here(s), At(s.d.pc), s.d.task)
    ensures var u := DispatcherStep(s, clock); |u.lanes| == |s.lanes| && Ready(u.lanes[s.d.at])
  {
    hide WorkingOk, Outstanding, FreeList, ContextFree;
  }

  lemma ReadyElsewhere(s: Sys, clock: nat, i: nat)
    requires Shape(s) && i < |s.lanes| && i != s.d.at
    ensures var u := DispatcherStep(s, clock); |u.lanes| == |s.lanes| && u.lanes[i] == s.lanes[i]
  {
    hide Outstanding, FreeList, ContextAlloc, ContextFree;
  }

  lemma ReadyWorker(s: Sys, w: nat, i: nat)
    requires w < |s.lanes| && i < |s.lanes| && Ready(s.lanes[i])
    ensures |WorkerStep(s, w).lanes| == |s.lanes| && Ready(WorkerStep(s, w).lanes[i])
  {
    hide RunLoop, Resume;
  }

  lemma ReadyKept(s: Sys, a: Act, i: nat)
    requires Inv(s) && i < |s.lanes| && Ready(s.lanes[i])
    ensures |Step(s, a).lanes| == |s.lanes| && Ready(Step(s, a).lanes[i])
  {
    hide HoldersOk, QueueOk, TokensOk, PoolsOk, HandOk, LaneOk, DispatcherStep, WorkerStep, Ready;
    match a
    case Dispatcher(clock) =>
      if i == s.d.at {
        assert LaneOk(s.lanes[i], StageOf(s, i), s.d.task);
        ReadySlot(s, clock);
      } else {
        ReadyElsewhere(s, clock, i);
      }
    case Worker(w) => if w < |s.lanes| { ReadyWorker(s, w, i); }
    case Arrival(b) =>
  }

  lemma {:induction false} ReadyStays(s: Sys, acts: seq<Act>, i: nat)
    requires Inv(s) && i < |s.lanes| && Ready(s.lanes[i])
    ensures Ready(Run(s, acts).lanes[i])
    decreases |acts|
  {
    hide Inv, Step, Ready;
    if acts != [] {
      StepKeeps(s, acts[0]);
      InvShape(s);
      ReadyKept(s, acts[0], i);
      ReadyStays(Step(s, acts[0]), acts[1..], i);
    }
  }

  // ---------- counting packets against contexts ----------

  // The packets in the first n slots.
  ghost function SlotPackets(lanes: seq<Lane>, n: nat): seq<nat>
    requires n <= |lanes|
  {
    if n == 0 then []
    else SlotPackets(lanes, n - 1) + (if lanes[n - 1].job.Some? then [lanes[n - 1].job.value.mbuf] else [])
  }

  lemma {:induction false} SlotPacketsHeld(s: Sys, n: nat)
    requires Inv(s) && n <= |s.lanes|
    ensures Distinct(SlotPackets(s.lanes, n))
    ensures forall b :: b in SlotPackets(s.lanes, n) ==>
              b in s.h.place && s.h.place[b].InSlot? && s.h.place[b].lane < n
    ensures |SlotContexts(s, n)| <= |SlotPackets(s.lanes, n)|
  {
    hide LaneOk, CtxOk, DispatchesOf, CoOk, Descends, Owns, QueueOk, TokensOk, PoolsOk;
    if n > 0 {
      SlotPacketsHeld(s, n - 1);
      if s.lanes[n - 1].job.Some? {
        assert HeldOk(s.lanes[n - 1], s.lanes[n - 1].job.value, n - 1, StageOf(s, n - 1), s.h, s.m.cos);
      }
    }
  }

  ghost function Unreleased(s: Sys): seq<nat>
  {
    s.m.inbound + seq(|s.m.queue|, j requires 0 <= j < |s.m.queue| => s.m.queue[j].mbuf)
    + SlotPackets(s.lanes, |s.lanes|) + s.m.freed
  }

  lemma UnreleasedDistinct(s: Sys)
    requires Inv(s)
    ensures Distinct(Unreleased(s)) && forall b :: b in Unreleased(s) ==> b in s.h.arrived
  {
    hide LaneOk, CtxOk, DispatchesOf, CoOk, Descends, Owns, PoolsOk, HoldersOk, FullService, SlotPackets;
    SlotPacketsHeld(s, |s.lanes|);
    var q, p := s.m.queue, SlotPackets(s.lanes, |s.lanes|);
    forall j | 0 <= j < |q|
      ensures Placed(s.h.place, q[j].mbuf, InQueue)
    {
      assert QueuedOk(q[j], s.h, s.m.cos);
    }
    var x := Unreleased(s);
    var a, b, c := |s.m.inbound|, |s.m.inbound| + |q|, |s.m.inbound| + |q| + |p|;
    forall i | 0 <= i < |x|
      ensures x[i] in s.h.place
      ensures i < a ==> x[i] == s.m.inbound[i] && s.h.place[x[i]] == InRing
      ensures a <= i < b ==> x[i] == q[i - a].mbuf && s.h.place[x[i]] == InQueue
      ensures b <= i < c ==> x[i] == p[i - b] && s.h.place[x[i]].InSlot?
      ensures c <= i ==> x[i] == s.m.freed[i - c] && s.h.place[x[i]] == Done
    {
      if i < a { assert s.m.inbound[i] in s.m.inbound; }
      if b <= i < c { assert p[i - b] in p; }
      if c <= i { assert s.m.freed[i - c] in s.m.freed; }
    }
  }

  lemma {:induction false} AsSet(s: seq<nat>) returns (r: set<nat>)
    ensures |r| <= |s| && forall x :: x in s ==> x in r
  {
    if s == [] {
      r := {};
    } else {
      var q := AsSet(s[..|s| - 1]);
      r := q + {s[|s| - 1]};
    }
  }

  // With no more unreleased packets than contexts, the ring never waits for one.
  lemma NotStarved(s: Sys)
    requires Inv(s) && !s.d.pc.BatchEnq? && |s.h.arrived| <= s.m.capacity + |s.m.freed|
    ensures !Starved(s)
  {
    hide LanesOk, HoldersOk, QueueOk, TokensOk, HandOk, PoolsOk, SlotPackets, SlotContexts, Unreleased, InService,
         Outstanding;
    AccountingHolds(s);
    SlotPacketsHeld(s, |s.lanes|);
    UnreleasedDistinct(s);
    var all := AsSet(s.h.arrived);
    DistinctSize(Unreleased(s), all);
    UnreleasedLength(s);
  }

  lemma UnreleasedLength(s: Sys)
    ensures |Unreleased(s)| == |s.m.inbound| + |s.m.queue| + |SlotPackets(s.lanes, |s.lanes|)| + |s.m.freed|
  {
    hide SlotPackets;
  }

  // ---------- everything is served ----------

  lemma KeptStep(s: Sys, a: Act)
    requires Shape(s) && !a.Arrival?
    ensures var u := Step(s, a);
            && |u.lanes| == |s.lanes| && u.h.arrived == s.h.arrived && u.m.capacity == s.m.capacity
            && s.m.freed <= u.m.freed
  {
    hide Outstanding, FreeList, Take, ContextAlloc, ContextFree, RunLoop, Resume;
  }

  lemma {:induction false} Kept(s: Sys, acts: seq<Act>)
    requires Shape(s) && NoArrivals(acts)
    ensures var u := Run(s, acts);
            u.h.arrived == s.h.arrived && u.m.capacity == s.m.capacity && s.m.freed <= u.m.freed
    decreases |acts|
  {
    hide Step;
    if acts != [] {
      ShapeKept(s, acts[0]);
      KeptStep(s, acts[0]);
      Kept(Step(s, acts[0]), acts[1..]);
    }
  }

  lemma ServedMeansReleased(s: Sys, i: nat)
    requires Inv(s) && Served(s) && i < |s.lanes| && Ready(s.lanes[i])
    ensures forall b :: b in s.h.arrived ==> b in s.m.freed
  {
    hide LanesOk, HoldersOk, QueueOk, TokensOk, PoolsOk, HandOk;
    forall b | b in s.h.arrived
      ensures b in s.m.freed
    {
      PlacesExclusive(s, b);
      assert !QueuedSomewhere(s.m.queue, b);
      assert forall j: nat :: !SlotHolds(s.lanes, j, b);
    }
  }

  function Joined(rounds: seq<seq<Act>>): seq<Act>
  {
    if rounds == [] then [] else rounds[0] + Joined(rounds[1..])
  }

  lemma {:induction false} JoinedQuiet(rounds: seq<seq<Act>>)
    requires forall r :: 0 <= r < |rounds| ==> NoArrivals(rounds[r])
    ensures NoArrivals(Joined(rounds))
  {
    if rounds != [] { JoinedQuiet(rounds[1..]); }
  }

  lemma {:induction false} RoundsServe(s: Sys, rounds: seq<seq<Act>>, i: nat)
    requires Inv(s) && i < |s.lanes| && Ready(s.lanes[i]) && |rounds| > Work(s)
    requires forall r :: 0 <= r < |rounds| ==> FullRound(|s.lanes|, rounds[r])
    ensures var u := Run(s, Joined(rounds)); Exhausted(u) || AllReleased(u)
    decreases |rounds|
  {
    hide LanesOk, HoldersOk, QueueOk, TokensOk, PoolsOk, HandOk, Work, Ready, Productive, Served, DispatcherSteps, Run,
         Exhausted;
    WorkNonNegative(s);
    JoinedQuiet(rounds);
    var r, rest := rounds[0], rounds[1..];
    assert Joined(rounds) == r + Joined(rest);
    RunThen(s, r, Joined(rest));
    if Productive(s, r) == 0 {
      QuietRound(s, r);
      if Served(s) {
        ServedMeansReleased(s, i);
        Kept(s, Joined(rounds));
      } else {
        ExhaustionIsForever(Run(s, r), Joined(rest));
      }
    } else {
      WorkRunsOut(s, r);
      RunKeeps(s, r);
      ReadyStays(s, r, i);
      RoundsServe(Run(s, r), rest, i);
    }
  }

  predicate AllReleased(u: Sys)
  {
    forall b :: b in u.h.arrived ==> b in u.m.freed
  }

  lemma ExhaustedKeepsOne(u: Sys)
    requires Inv(u) && Exhausted(u)
    ensures !AllReleased(u)
  {
    hide LanesOk, HoldersOk, QueueOk, PoolsOk, HandOk, ContextAlloc;
    var b := u.m.inbound[0];
    assert b in u.m.inbound && Placed(u.h.place, b, InRing);
    assert b in u.h.arrived && b !in u.m.freed;
  }

  /** Liveness.  After any run from a start, once nothing more arrives, with a ready slot: every
      schedule of enough full rounds releases every packet that ever arrived if and only if it does
      not end with the batch loop locked.  N packets have then taken exactly 2N dispatches. */
  lemma EverythingServed(s0: Sys, acts: seq<Act>, rounds: seq<seq<Act>>, i: nat)
    requires Start(s0) && i < |s0.lanes| && Ready(Run(s0, acts).lanes[i])
    requires |rounds| > Work(Run(s0, acts))
    requires forall r :: 0 <= r < |rounds| ==> FullRound(|s0.lanes|, rounds[r])
    ensures var u := Run(Run(s0, acts), Joined(rounds));
            && (AllReleased(u) <==> !Exhausted(u))
            && (AllReleased(u) ==> |u.h.log| == 2 * |u.h.arrived|)
  {
    hide Inv, Work, Ready, Run, FullRound, Joined, Exhausted;
    StartOk(s0);
    RunKeeps(s0, acts);
    var s := Run(s0, acts);
    RoundsServe(s, rounds, i);
    RunKeeps(s, Joined(rounds));
    var u := Run(s, Joined(rounds));
    if Exhausted(u) { ExhaustedKeepsOne(u); }
    InvShape(s0);
    RunThen(s0, acts, Joined(rounds));
    DispatchBudget(s0, acts + Joined(rounds));
  }

  /** No more unreleased packets than contexts are enough for that. */
  lemma EnoughContextsServe(s0: Sys, acts: seq<Act>, rounds: seq<seq<Act>>, i: nat)
    requires Start(s0) && i < |s0.lanes| && Ready(Run(s0, acts).lanes[i])
    requires |rounds| > Work(Run(s0, acts))
    requires forall r :: 0 <= r < |rounds| ==> FullRound(|s0.lanes|, rounds[r])
    requires |Run(s0, acts).h.arrived| <= Run(s0, acts).m.capacity + |Run(s0, acts).m.freed|
    ensures var u := Run(Run(s0, acts), Joined(rounds));
            AllReleased(u) && |u.h.log| == 2 * |u.h.arrived|
  {
    hide Inv, Work, Ready, Run, Joined, Exhausted, DispatcherSteps, AllReleased;
    StartOk(s0);
    InvShape(s0);
    RunKeeps(s0, acts);
    var s := Run(s0, acts);
    RunKeeps(s, Joined(rounds));
    var u := Run(s, Joined(rounds));
    EverythingServed(s0, acts, rounds, i);
    JoinedQuiet(rounds);
    Kept(s, Joined(rounds));
    if Exhausted(u) {
      ExhaustedIsStarved(u);
      NotStarved(u);
    }
  }

  lemma ExhaustedIsStarved(u: Sys)
    requires Inv(u) && Exhausted(u)
    ensures Starved(u) && u.d.pc.Batch?
  {
    hide LanesOk, HoldersOk, QueueOk, TokensOk, HandOk, PoolsOk, ContextAlloc;
    ContextFreeProceeds(u, 0);
    InUseBounded(u);
  }
}
