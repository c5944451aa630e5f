/** Without arrivals the scheduling protocol runs out of work: a potential that every step
    either lowers or, moving only the dispatcher's own position, leaves alone. */
module ProtocolProgress {
  import opened Constants
  import opened Mempools
  import opened TaskQueues
  import opened Contexts
  import opened Protocol
  import opened ProtocolInvariant
  import opened ProtocolSteps
  import opened ProtocolTraffic
  import opened ProtocolRuns

  // Stores still to be made for the task in one slot, before it leaves the slot.
  function SlotWork(l: Lane, st: Stage): int
  {
    match l.job
    case None => if l.respFlag == FINISHED || l.respFlag == PREEMPTED then 1 else 0
    case Some(t) =>
      (if t.category == PACKET then 41 else 0) +
      if st.At? && PutRank(st.pc) >= 0 then 40 - PutRank(st.pc)
      else if l.respFlag == RUNNING then
        (if l.reqFlag == ACTIVE then (if l.wpc.Spin? then 33 else 32) else 31 - WorkRank(l.wpc))
      else 10
  }

  // A continuation has one more visit to a slot ahead of it, a new packet two.
  function TaskWork(t: Task): nat
  {
    if t.category == PACKET then 82 else 41
  }

  function QueueWork(q: seq<Task>): nat
  {
    if q == [] then 0 else QueueWork(q[..|q| - 1]) + TaskWork(q[|q| - 1])
  }

  function SlotsWork(s: Sys, n: nat): int
    requires n <= |s.lanes|
  {
    if n == 0 then 0 else SlotsWork(s, n - 1) + SlotWork(s.lanes[n - 1], StageOf(s, n - 1))
  }

  const PACKET_WORK: nat := 85

  // All work left, in stores and hand-overs.
  function Work(s: Sys): int
  {
    |s.h.owner| + PACKET_WORK * |s.m.inbound| - (if s.d.pc.BatchEnq? then 2 else 0)
    + QueueWork(s.m.queue) + SlotsWork(s, |s.lanes|)
  }

  // Only the dispatcher's private position and local copy moved.
  predicate Idle(s: Sys, u: Sys)
  {
    u.lanes == s.lanes && u.m == s.m && u.h == s.h
  }

  // ---------- sums ----------

  lemma {:induction false} SlotsWorkSame(s: Sys, u: Sys, n: nat)
    requires n <= |s.lanes| == |u.lanes|
    requires forall i :: 0 <= i < n ==> SlotWork(u.lanes[i], StageOf(u, i)) == SlotWork(s.lanes[i], StageOf(s, i))
    ensures SlotsWork(u, n) == SlotsWork(s, n)
  {
    hide SlotWork;
    if n > 0 { SlotsWorkSame(s, u, n - 1); }
  }

  lemma {:induction false} SlotsWorkUpdate(s: Sys, u: Sys, n: nat, k: nat)
    requires k < n <= |s.lanes| == |u.lanes|
    requires forall i :: 0 <= i < n && i != k ==>
               SlotWork(u.lanes[i], StageOf(u, i)) == SlotWork(s.lanes[i], StageOf(s, i))
    ensures SlotsWork(u, n) - SlotsWork(s, n)
            == SlotWork(u.lanes[k], StageOf(u, k)) - SlotWork(s.lanes[k], StageOf(s, k))
  {
    hide SlotWork;
    if k == n - 1 { SlotsWorkSame(s, u, n - 1); } else { SlotsWorkUpdate(s, u, n - 1, k); }
  }

  lemma QueueWorkAppend(q: seq<Task>, t: Task)
    ensures QueueWork(q + [t]) == QueueWork(q) + TaskWork(t)
  {
    assert (q + [t])[..|q|] == q;
  }

  lemma {:induction false} QueueWorkDrop(q: seq<Task>)
    requires q != []
    ensures QueueWork(q) == TaskWork(q[0]) + QueueWork(q[1..])
  {
    var n := |q| - 1;
    if n == 0 {
      assert q[..0] == [] && q[1..] == [];
    } else {
      QueueWorkDrop(q[..n]);
      assert q[..n][1..] == q[1..][..n - 1];
    }
  }

  // ---------- the worker ----------

  lemma WorkerSlotWork(l: Lane, st: Stage, dt: Task, t: Task)
    requires l.job == Some(t) && LaneOk(l, st, dt)
    ensures AfterStep(l, t) == l || SlotWork(AfterStep(l, t), st) < SlotWork(l, st)
    ensures AfterStep(l, t) == l ==> !l.wpc.PktRnbl? && !l.wpc.Swap?
  {
  }

  lemma WorkerWorks(s: Sys, w: nat)
    requires Inv(s) && w < |s.lanes|
    ensures WorkerStep(s, w) == s || Work(WorkerStep(s, w)) < Work(s)
  {
    hide LaneOk, HoldersOk, QueueOk, TokensOk, PoolsOk, HandOk, WorkerStep, LaneStep, AfterStep, SlotWork;
    WorkerEffect(s, w);
    var u := WorkerStep(s, w);
    var l := s.lanes[w];
    if l.job.Some? {
      assert LaneOk(l, StageOf(s, w), s.d.task);
      WorkerSlotWork(l, StageOf(s, w), s.d.task, l.job.value);
      if AfterStep(l, l.job.value) == l {
        assert s.lanes[w := l] == s.lanes;
      } else {
        SlotsWorkUpdate(s, u, |s.lanes|, w);
      }
    }
  }

  // ---------- the dispatcher ----------

  lemma PassingWork(l: Lane, st: Stage, st': Stage)
    requires Passing(st) && Passing(st')
    ensures SlotWork(l, st) == SlotWork(l, st')
  {
  }

  lemma PlainSlotWork(s: Sys, clock: nat)
    requires Inv(s) && Plain(s)
    ensures var u := DispatcherStep(s, clock); var i := s.d.at;
            && |u.lanes| == |s.lanes|
            && (u.lanes[i] == s.lanes[i] ==> SlotWork(u.lanes[i], StageOf(u, i)) <= SlotWork(s.lanes[i], StageOf(s, i)))
            && (u.lanes[i] != s.lanes[i] ==> SlotWork(u.lanes[i], StageOf(u, i)) < SlotWork(s.lanes[i], StageOf(s, i)))
  {
    hide HoldersOk, QueueOk, TokensOk, PoolsOk, HandOk, WorkingOk;
    assert LaneOk(s.lanes[s.d.at], At(s.d.pc), s.d.task);
  }

  lemma PlainWorks(s: Sys, clock: nat)
    requires Inv(s) && Plain(s)
    ensures var u := DispatcherStep(s, clock);
            Work(u) <= Work(s) && (!Idle(s, u) ==> Work(u) < Work(s))
  {
    hide LaneOk, HoldersOk, QueueOk, TokensOk, PoolsOk, HandOk, DispatcherStep, SlotWork;
    PlainIsLanePc(s);
    PlainHere(s, clock);
    PlainSlotWork(s, clock);
    var u := DispatcherStep(s, clock);
    var i := s.d.at;
    forall j | 0 <= j < |s.lanes| && j != i
      ensures SlotWork(u.lanes[j], StageOf(u, j)) == SlotWork(s.lanes[j], StageOf(s, j))
    {
      PassingWork(s.lanes[j], Away, StageOf(u, j));
    }
    SlotsWorkUpdate(s, u, |s.lanes|, i);
    if u.lanes[i] == s.lanes[i] { assert u.lanes == s.lanes; }
  }

  lemma FinCtxWorks(s: Sys, clock: nat)
    requires Inv(s) && s.d.pc.FinCtx?
    ensures Work(DispatcherStep(s, clock)) < Work(s)
  {
    hide LaneOk, CtxOk, DispatchesOf, CoOk, Descends, FullService, QueuedOk, Outstanding, ContextFree,
         DispatcherStep, TokensOk, QueueOk;
    FinCtxEffect(s, clock);
    var i := s.d.at;
    var t := s.lanes[i].job.value;
    var u := Freed(s, t.rnbl);
    assert HeldOk(s.lanes[i], t, i, StageOf(s, i), s.h, s.m.cos);
    assert u.h.owner.Keys == s.h.owner.Keys - {t.rnbl};
    SlotsWorkUpdate(s, u, |s.lanes|, i);
  }

  lemma FinMbufWorks(s: Sys, clock: nat)
    requires Inv(s) && s.d.pc.FinMbuf?
    ensures Work(DispatcherStep(s, clock)) < Work(s)
  {
    hide CtxOk, DispatchesOf, CoOk, Descends, FullService, QueuedOk, Outstanding, TokensOk, QueueOk;
    var i := s.d.at;
    assert LaneOk(s.lanes[i], StageOf(s, i), s.d.task);
    SlotsWorkUpdate(s, DispatcherStep(s, clock), |s.lanes|, i);
  }

  lemma PreEnqWorks(s: Sys, clock: nat)
    requires Inv(s) && s.d.pc.PreEnq?
    ensures Work(DispatcherStep(s, clock)) < Work(s)
  {
    hide CtxOk, DispatchesOf, CoOk, Descends, FullService, QueuedOk, Outstanding, TokensOk, QueueOk, QueueWork;
    PreEnqFacts(s);
    var i := s.d.at;
    assert LaneOk(s.lanes[i], StageOf(s, i), s.d.task);
    QueueWorkAppend(s.m.queue, s.d.task);
    SlotsWorkUpdate(s, DispatcherStep(s, clock), |s.lanes|, i);
  }

  lemma DeqWorks(s: Sys, clock: nat)
    requires Inv(s) && s.d.pc.Deq? && s.m.queue != []
    ensures Work(DispatcherStep(s, clock)) < Work(s)
  {
    hide CtxOk, DispatchesOf, CoOk, FullService, Outstanding, TokensOk, QueueWork;
    var i := s.d.at;
    assert QueuedOk(s.m.queue[0], s.h, s.m.cos);
    assert LaneOk(s.lanes[i], StageOf(s, i), s.d.task);
    QueueWorkDrop(s.m.queue);
    SlotsWorkUpdate(s, DispatcherStep(s, clock), |s.lanes|, i);
  }

  lemma BatchWorks(s: Sys, clock: nat)
    requires Inv(s) && s.d.pc.Batch?
    ensures var u := DispatcherStep(s, clock);
            Work(u) <= Work(s) && (!Idle(s, u) ==> Work(u) < Work(s))
  {
    hide LanesOk, HoldersOk, QueueOk, TokensOk, LaneOk, CtxOk, Outstanding, ContextAlloc, SlotWork;
    ShapeKept(s, Dispatcher(clock));
    ContextAllocEffect(s.m.pools);
    var u := DispatcherStep(s, clock);
    var r := ContextAlloc(s.m.pools);
    forall j | 0 <= j < |s.lanes|
      ensures SlotWork(u.lanes[j], StageOf(u, j)) == SlotWork(s.lanes[j], StageOf(s, j))
    {
      PassingWork(s.lanes[j], StageOf(s, j), StageOf(u, j));
    }
    SlotsWorkSame(s, u, |s.lanes|);
    if u.d.pc.BatchEnq? {
      assert u.h.owner.Keys == s.h.owner.Keys + {r.cont};
    }
  }

  lemma BatchEnqWorks(s: Sys, clock: nat)
    requires Inv(s) && s.d.pc.BatchEnq?
    ensures Work(DispatcherStep(s, clock)) < Work(s)
  {
    hide LanesOk, HoldersOk, QueueOk, TokensOk, LaneOk, CtxOk, Outstanding, SlotWork, QueueWork;
    BatchEnqFits(s);
    var u := DispatcherStep(s, clock);
    QueueWorkAppend(s.m.queue, s.d.task);
    forall j | 0 <= j < |s.lanes|
      ensures SlotWork(u.lanes[j], StageOf(u, j)) == SlotWork(s.lanes[j], StageOf(s, j))
    {
      PassingWork(s.lanes[j], StageOf(s, j), StageOf(u, j));
    }
    SlotsWorkSame(s, u, |s.lanes|);
  }

  // ---------- all steps, all runs ----------

  lemma StepWorks(s: Sys, a: Act)
    requires Inv(s) && !a.Arrival?
    ensures Work(Step(s, a)) <= Work(s)
    ensures Idle(s, Step(s, a)) || Work(Step(s, a)) < Work(s)
  {
    hide LanesOk, HoldersOk, QueueOk, TokensOk, PoolsOk, HandOk, DispatcherStep, WorkerStep, Work;
    match a
    case Worker(w) =>
      if w < |s.lanes| { WorkerWorks(s, w); }
    case Dispatcher(clock) =>
      match s.d.pc
      case FinCtx => FinCtxWorks(s, clock);
      case FinMbuf => FinMbufWorks(s, clock);
      case PreEnq => PreEnqWorks(s, clock);
      case Batch => BatchWorks(s, clock);
      case BatchEnq => BatchEnqWorks(s, clock);
      case Deq => if s.m.queue == [] { PlainWorks(s, clock); } else { DeqWorks(s, clock); }
      case _ => PlainWorks(s, clock);
  }

  lemma {:induction false} SlotsWorkNonNegative(s: Sys, n: nat)
    requires LanesOk(s) && n <= |s.lanes|
    ensures SlotsWork(s, n) >= 0
  {
    hide LaneOk, SlotWork;
    if n > 0 {
      SlotsWorkNonNegative(s, n - 1);
      SlotWorkNonNegative(s.lanes[n - 1], StageOf(s, n - 1), s.d.task);
    }
  }

  lemma SlotWorkNonNegative(l: Lane, st: Stage, dt: Task)
    requires LaneOk(l, st, dt)
    ensures SlotWork(l, st) >= 0
  {
  }

  lemma WorkNonNegative(s: Sys)
    requires Inv(s)
    ensures Work(s) >= 0
  {
    hide HoldersOk, QueueOk, TokensOk, PoolsOk, LanesOk;
    SlotsWorkNonNegative(s, |s.lanes|);
  }

  // The steps of a run that change anything besides the dispatcher's own position.
  ghost function Productive(s: Sys, acts: seq<Act>): nat
    requires Shape(s)
    decreases |acts|
  {
    if acts == [] then 0
    else
      ShapeKept(s, acts[0]);
      (if Idle(s, Step(s, acts[0])) then 0 else 1) + Productive(Step(s, acts[0]), acts[1..])
  }

  predicate NoArrivals(acts: seq<Act>)
  {
    forall i :: 0 <= i < |acts| ==> !acts[i].Arrival?
  }

  /** Every run without arrivals, however long and however scheduled, makes at most Work(s)
      productive steps: after that all threads only poll. */
  lemma {:induction false} WorkRunsOut(s: Sys, acts: seq<Act>)
    requires Inv(s) && NoArrivals(acts)
    ensures Productive(s, acts) + Work(Run(s, acts)) <= Work(s)
    ensures Productive(s, acts) <= Work(s)
    decreases |acts|
  {
    hide LanesOk, HoldersOk, QueueOk, TokensOk, PoolsOk, HandOk, Step, Work, Idle;
    if acts == [] {
      WorkNonNegative(s);
    } else {
      StepKeeps(s, acts[0]);
      StepWorks(s, acts[0]);
      WorkRunsOut(Step(s, acts[0]), acts[1..]);
      RunKeeps(s, acts);
      WorkNonNegative(Run(s, acts));
    }
  }
}
