/** Every step of the scheduling protocol keeps the invariant. */
module ProtocolSteps {
  import opened Mempools
  import opened TaskQueues
  import opened Contexts
  import opened Protocol
  import opened ProtocolInvariant

  // ---------- the worker ----------

  lemma CoroutineYieldsOnce()
    ensures Resume(Entry) == Yielded(2, 2)
    ensures Resume(Yielded(2, 2)) == Exited
  {
    assert RunLoop(0, 0) == RunLoop(1, 1) == RunLoop(2, 2);
    assert RunLoop(3, 3) == RunLoop(4, 4);
  }

  // What the worker's step leaves in its own lane.
  function AfterStep(l: Lane, t: Task): Lane
  {
    var l' := LaneStep(l);
    if l.wpc.Swap? then l'.(finished := l.finished || t.category == CONTEXT) else l'
  }

  lemma ReadingStepOk(l: Lane, t: Task)
    requires l.req == t && (t.category == PACKET || t.category == CONTEXT)
    requires WorkingOk(l, t) && WorkRank(l.wpc) <= 3
    ensures WorkingOk(AfterStep(l, t), t)
  {
  }

  lemma CopyingStepOk(l: Lane, t: Task)
    requires l.req == t && WorkingOk(l, t) && 4 <= WorkRank(l.wpc) <= 8
    ensures WorkingOk(AfterStep(l, t), t)
  {
  }

  lemma PublishStepOk(l: Lane, t: Task)
    requires l.req == t && WorkingOk(l, t) && l.wpc.StFlag?
    requires |l.given| > 0 && l.given[|l.given| - 1] == t && l.seen == l.given[..|l.given| - 1]
    ensures AfterStep(l, t).seen == l.given
    ensures AfterStep(l, t).resp == t.(category := CONTEXT)
    ensures AfterStep(l, t).respFlag == if t.category == CONTEXT then FINISHED else PREEMPTED
  {
    assert l.given == l.given[..|l.given| - 1] + [t];
  }

  lemma LaneStepOk(l: Lane, st: Stage, dt: Task, t: Task)
    requires l.job == Some(t) && LaneOk(l, st, dt)
    ensures LaneOk(AfterStep(l, t), st, dt)
  {
    hide WorkingOk;
    if st.At? && PutRank(st.pc) >= 0 {
    } else if l.respFlag == RUNNING && l.reqFlag == WAITING {
      WorkingBounds(l, t);
      if WorkRank(l.wpc) <= 3 { ReadingStepOk(l, t); }
      else if WorkRank(l.wpc) <= 8 { CopyingStepOk(l, t); }
      else { PublishStepOk(l, t); }
    } else if l.respFlag == RUNNING && l.wpc.Clear? {
      FreshStart(AfterStep(l, t), t);
    }
  }

  lemma WorkingBounds(l: Lane, t: Task)
    requires WorkingOk(l, t)
    ensures 0 <= WorkRank(l.wpc) <= 9
  {
  }

  lemma FreshStart(l: Lane, t: Task)
    requires l.wpc.Cat?
    ensures WorkingOk(l, t)
  {
  }

  // The lane and the memory after a worker's step, with the coroutine worked out.
  lemma WorkerEffect(s: Sys, w: nat)
    requires Inv(s) && w < |s.lanes|
    ensures var l := s.lanes[w]; var u := WorkerStep(s, w);
            && u.d == s.d && u.h == s.h && u.m == s.m.(cos := u.m.cos)
            && (l.job.None? ==> u == s)
            && (l.job.Some? ==>
                  var t := l.job.value;
                  && u.lanes == s.lanes[w := AfterStep(l, t)]
                  && (l.wpc.PktRnbl? ==> u.m.cos == s.m.cos[t.rnbl := Co(Entry, t.mbuf)])
                  && (l.wpc.Swap? ==>
                        u.m.cos == s.m.cos[t.rnbl := if t.category == PACKET then Suspended(t) else Co(Exited, t.mbuf)])
                  && (!l.wpc.PktRnbl? && !l.wpc.Swap? ==> u.m.cos == s.m.cos))
  {
    hide DispatchesOf, RunLoop, TokensOk, QueueOk, PoolsOk, Descends;
    CoroutineYieldsOnce();
    var l := s.lanes[w];
    assert LaneOk(l, StageOf(s, w), s.d.task);
    if l.job.None? {
      assert s.lanes[w := l] == s.lanes;
    }
  }

  lemma WorkerLanes(s: Sys, w: nat)
    requires Inv(s) && w < |s.lanes|
    ensures LanesOk(WorkerStep(s, w))
  {
    hide LaneOk, HoldersOk, QueueOk, TokensOk, PoolsOk, HandOk, WorkerStep, LaneStep, AfterStep;
    WorkerEffect(s, w);
    if s.lanes[w].job.Some? {
      LaneStepOk(s.lanes[w], StageOf(s, w), s.d.task, s.lanes[w].job.value);
    }
  }

  // Building or switching a coroutine never touches a context another task holds.
  lemma CoStepOk(l: Lane, t: Task, st: Stage, dt: Task, cos: map<Addr, Co>, cos': map<Addr, Co>)
    requires l.job == Some(t) && LaneOk(l, st, dt) && CoOk(l, t, cos)
    requires l.wpc.PktRnbl? ==> cos' == cos[t.rnbl := Co(Entry, t.mbuf)]
    requires l.wpc.Swap? ==>
               cos' == cos[t.rnbl := if t.category == PACKET then Suspended(t) else Co(Exited, t.mbuf)]
    requires !l.wpc.PktRnbl? && !l.wpc.Swap? ==> cos' == cos
    ensures CoOk(AfterStep(l, t), t, cos')
  {
  }

  lemma AfterStepKeepsJob(l: Lane, t: Task)
    ensures AfterStep(l, t).job == l.job
  {
  }

  lemma ForeignCo(l: Lane, t: Task, cos: map<Addr, Co>, a: Addr, co: Co)
    requires CoOk(l, t, cos) && t.rnbl != a
    ensures CoOk(l, t, cos[a := co])
  {
  }

  // A task in a lane at FinMbuf is over, so its coroutine no longer matters.
  lemma OverCo(l: Lane, t: Task, dt: Task, cos: map<Addr, Co>)
    requires LaneOk(l, At(FinMbuf), dt) && l.job == Some(t)
    ensures CoOk(l, t, cos)
  {
  }

  lemma WorkerHolders(s: Sys, w: nat)
    requires Inv(s) && w < |s.lanes|
    ensures HoldersOk(WorkerStep(s, w))
  {
    hide LaneOk, QueueOk, TokensOk, PoolsOk, HandOk, WorkerStep, LaneStep, AfterStep,
         CoOk, DispatchesOf, Descends;
    WorkerEffect(s, w);
    var u := WorkerStep(s, w);
    if s.lanes[w].job.Some? {
      var l, t := s.lanes[w], s.lanes[w].job.value;
      AfterStepKeepsJob(l, t);
      CoStepOk(l, t, StageOf(s, w), s.d.task, s.m.cos, u.m.cos);
      forall i | 0 <= i < |u.lanes| && i != w && u.lanes[i].job.Some?
        ensures CoOk(u.lanes[i], u.lanes[i].job.value, u.m.cos)
      {
        var t' := u.lanes[i].job.value;
        if StageOf(s, i) == At(FinMbuf) {
          OverCo(s.lanes[i], t', s.d.task, u.m.cos);
        } else if l.wpc.PktRnbl? || l.wpc.Swap? {
          BusyIsNotCollected(l, StageOf(s, w), s.d.task, t);
          ForeignCo(s.lanes[i], t', s.m.cos, t.rnbl, u.m.cos[t.rnbl]);
        }
      }
    }
  }

  // A worker in the middle of a task has its dispatcher elsewhere.
  lemma BusyIsNotCollected(l: Lane, st: Stage, dt: Task, t: Task)
    requires l.job == Some(t) && LaneOk(l, st, dt) && (l.wpc.PktRnbl? || l.wpc.Swap?)
    ensures Passing(st)
  {
  }

  lemma WorkerQueue(s: Sys, w: nat)
    requires Inv(s) && w < |s.lanes|
    ensures QueueOk(WorkerStep(s, w))
  {
    hide LaneOk, TokensOk, PoolsOk, HandOk, WorkerStep, LaneStep, AfterStep, CoOk, DispatchesOf, Descends;
    WorkerEffect(s, w);
    var u := WorkerStep(s, w);
    var l := s.lanes[w];
    if l.job.Some? && (l.wpc.PktRnbl? || l.wpc.Swap?) {
      var t := l.job.value;
      BusyIsNotCollected(l, StageOf(s, w), s.d.task, t);
      forall j | 0 <= j < |u.m.queue|
        ensures QueuedOk(u.m.queue[j], u.h, u.m.cos)
      {
        assert QueuedOk(s.m.queue[j], s.h, s.m.cos);
      }
    }
  }

  lemma WorkerTokens(s: Sys, w: nat)
    requires Inv(s) && w < |s.lanes|
    ensures TokensOk(WorkerStep(s, w))
  {
    hide LaneOk, HoldersOk, QueueOk, PoolsOk, HandOk, WorkerStep, LaneStep, AfterStep, DispatchesOf, FullService;
    WorkerEffect(s, w);
    var u := WorkerStep(s, w);
    if s.lanes[w].job.Some? {
      AfterStepKeepsJob(s.lanes[w], s.lanes[w].job.value);
    }
    forall b, i | Placed(u.h.place, b, InSlot(i))
      ensures SlotHolds(u.lanes, i, b)
    {
      assert SlotHolds(s.lanes, i, b);
    }
  }

  lemma WorkerKeeps(s: Sys, w: nat)
    requires Inv(s) && w < |s.lanes|
    ensures Inv(WorkerStep(s, w))
  {
    hide LanesOk, HoldersOk, QueueOk, TokensOk, WorkerStep, CtxOk, Outstanding;
    WorkerEffect(s, w);
    WorkerLanes(s, w);
    WorkerHolders(s, w);
    WorkerQueue(s, w);
    WorkerTokens(s, w);
  }

  // ---------- the dispatcher: steps that only move it along or write one field ----------

  predicate PlainPc(pc: DispPc)
  {
    LanePc(pc) && !pc.FinCtx? && !pc.FinMbuf? && !pc.PreEnq? && !pc.Deq?
  }

  predicate Plain(s: Sys)
  {
    PlainPc(s.d.pc) || (s.d.pc.Deq? && s.m.queue == [])
  }

  lemma StageIrrelevant(l: Lane, st: Stage, st': Stage, dt: Task, dt': Task)
    requires LaneOk(l, st, dt) && Passing(st) && Passing(st')
    ensures LaneOk(l, st', dt')
  {
    match l.job
    case None =>
    case Some(t) =>
  }

  // The dispatcher leaves a slot in a state that no longer depends on where it stands.
  lemma LeavingOk(l: Lane, pc: DispPc, dt: Task)
    requires LaneOk(l, At(pc), dt)
    requires (pc.Look? && l.respFlag == RUNNING) || pc.Deq?
    ensures LaneOk(l, Away, dt)
  {
  }

  lemma PostedOk(l: Lane, dt: Task, t: Task)
    requires l.job == Some(t) && LaneOk(l, At(PutFlag), dt)
    ensures LaneOk(l.(reqFlag := ACTIVE), Away, dt)
  {
    assert l.req == t;
  }

  // The lane, the next position and the local task after a plain step.
  lemma ScanStepOk(l: Lane, pc: DispPc, dt: Task)
    requires LaneOk(l, At(pc), dt)
    ensures pc.Look? && l.respFlag != RUNNING ==> LaneOk(l, At(IsFin), dt)
    ensures pc.IsFin? ==> LaneOk(l, At(if l.respFlag == FINISHED then FinCtx else IsPre), dt)
    ensures pc.IsPre? ==> LaneOk(l, At(if l.respFlag == PREEMPTED then PreRnbl else Deq), dt)
    ensures pc.FinFlag? || pc.PreFlag? ==> LaneOk(l.(respFlag := PROCESSED), At(Deq), dt)
  {
    match l.job
    case None =>
    case Some(t) =>
  }

  // The local task after handle_preempted's load at `pc`.
  function CopyTask(dt: Task, pc: DispPc, resp: Task): Task
  {
    match pc
    case PreRnbl => dt.(rnbl := resp.rnbl)
    case PreMbuf => dt.(mbuf := resp.mbuf)
    case PreCat => dt.(category := resp.category)
    case PreTyp => dt.(typ := resp.typ)
    case PreTs => dt.(timestamp := resp.timestamp)
    case _ => dt
  }

  function CopyNext(pc: DispPc): DispPc
  {
    match pc
    case PreRnbl => PreMbuf case PreMbuf => PreCat case PreCat => PreTyp
    case PreTyp => PreTs case PreTs => PreEnq
    case _ => pc
  }

  lemma CopyFieldOk(pc: DispPc, dt: Task, t: Task)
    requires PreRank(pc) >= 0 && CollectingOk(PreRank(pc), dt, t)
    ensures CollectingOk(PreRank(CopyNext(pc)), CopyTask(dt, pc, t.(category := CONTEXT)), t)
    ensures PreRank(CopyNext(pc)) >= 0 && PutRank(CopyNext(pc)) < 0
  {
  }

  lemma CollectStepOk(l: Lane, pc: DispPc, dt: Task)
    requires LaneOk(l, At(pc), dt) && PreRank(pc) >= 0
    ensures LaneOk(l, At(CopyNext(pc)), CopyTask(dt, pc, l.resp))
  {
    hide PostingOk, WorkingOk, CollectingOk;
    PreIsNotPut(pc);
    CopyFieldOk(pc, dt, l.job.value);
  }

  lemma PreIsNotPut(pc: DispPc)
    requires PreRank(pc) >= 0
    ensures PutRank(pc) < 0 && !pc.Look? && !pc.IsFin? && !pc.IsPre? && !pc.FinCtx? && !pc.FinMbuf?
  {
  }

  // The lane after dispatch_request's store at `pc`.
  function PutLane(l: Lane, pc: DispPc, dt: Task): Lane
  {
    match pc
    case PutRun => l.(respFlag := RUNNING)
    case PutRnbl => l.(req := l.req.(rnbl := dt.rnbl))
    case PutMbuf => l.(req := l.req.(mbuf := dt.mbuf))
    case PutTyp => l.(req := l.req.(typ := dt.typ))
    case PutCat => l.(req := l.req.(category := dt.category))
    case PutTs => l.(req := l.req.(timestamp := dt.timestamp))
    case _ => l
  }

  function PutNext(pc: DispPc): DispPc
  {
    match pc
    case PutRun => PutRnbl case PutRnbl => PutMbuf case PutMbuf => PutTyp
    case PutTyp => PutCat case PutCat => PutTs case PutTs => PutFlag
    case _ => pc
  }

  lemma PutFieldOk(l: Lane, pc: DispPc, dt: Task, t: Task)
    requires PutRank(pc) >= 0 && PostingOk(l, PutRank(pc), dt, t)
    ensures PostingOk(PutLane(l, pc, dt), PutRank(PutNext(pc)), dt, t)
    ensures PutRank(PutNext(pc)) >= 0
  {
  }

  lemma PostStepOk(l: Lane, pc: DispPc, dt: Task)
    requires LaneOk(l, At(pc), dt) && PutRank(pc) >= 0
    ensures LaneOk(PutLane(l, pc, dt), At(PutNext(pc)), dt)
  {
    hide PostingOk, WorkingOk;
    PutFieldOk(l, pc, dt, l.job.value);
  }

  lemma PlainHere(s: Sys, clock: nat)
    requires Inv(s) && Plain(s)
    ensures var u := DispatcherStep(s, clock); var i := s.d.at;
            && |u.lanes| == |s.lanes| && LaneOk(u.lanes[i], StageOf(u, i), u.d.task)
            && u.m == s.m && u.h == s.h && u.lanes[i].job == s.lanes[i].job
            && (forall j :: 0 <= j < |s.lanes| && j != i ==> u.lanes[j] == s.lanes[j])
            && (u.d.at != i ==> u.d.pc.Look? || u.d.pc.Batch?)
            && (u.d.pc.Batch? ==> u.d.at == |s.lanes|)
            && u.d.pc != BatchEnq
  {
    hide LaneOk, HoldersOk, QueueOk, TokensOk, PoolsOk, HandOk;
    var i, l, pc, dt := s.d.at, s.lanes[s.d.at], s.d.pc, s.d.task;
    assert LaneOk(l, At(pc), dt);
    if PutRank(pc) >= 0 {
      PostStepOk(l, pc, dt);
      if pc.PutFlag? { OccupiedAtPut(l, pc, dt); PostedOk(l, dt, l.job.value); }
    } else if PreRank(pc) >= 0 {
      CollectStepOk(l, pc, dt);
    } else {
      ScanStepOk(l, pc, dt);
      if (pc.Look? && l.respFlag == RUNNING) || pc.Deq? { LeavingOk(l, pc, dt); }
    }
  }

  lemma OccupiedAtPut(l: Lane, pc: DispPc, dt: Task)
    requires LaneOk(l, At(pc), dt) && PutRank(pc) >= 0
    ensures l.job.Some?
  {
  }

  lemma PlainLanes(s: Sys, clock: nat)
    requires Inv(s) && Plain(s)
    ensures LanesOk(DispatcherStep(s, clock))
  {
    hide LaneOk, HoldersOk, QueueOk, TokensOk, PoolsOk, HandOk, DispatcherStep;
    PlainHere(s, clock);
    var u := DispatcherStep(s, clock);
    forall j | 0 <= j < |u.lanes|
      ensures LaneOk(u.lanes[j], StageOf(u, j), u.d.task)
    {
      if j != s.d.at {
        StageIrrelevant(s.lanes[j], Away, StageOf(u, j), s.d.task, u.d.task);
      }
    }
  }

  lemma CoSurvives(l: Lane, l': Lane, t: Task, cos: map<Addr, Co>)
    requires CoOk(l, t, cos) && l'.wpc == l.wpc
    requires l'.respFlag == l.respFlag || (l.respFlag == PROCESSED && l'.respFlag == RUNNING)
    ensures CoOk(l', t, cos)
  {
  }

  // A slot that holds a task never has its response flag cleared under it.
  lemma FlagUnderTask(s: Sys, clock: nat)
    requires Inv(s) && Plain(s) && s.lanes[s.d.at].job.Some?
    ensures var l, l' := s.lanes[s.d.at], DispatcherStep(s, clock).lanes[s.d.at];
            && l'.wpc == l.wpc
            && (l'.respFlag == l.respFlag || (l.respFlag == PROCESSED && l'.respFlag == RUNNING))
  {
    hide HoldersOk, QueueOk, TokensOk, PoolsOk, HandOk;
    assert LaneOk(s.lanes[s.d.at], At(s.d.pc), s.d.task);
  }

  lemma PlainHolders(s: Sys, clock: nat)
    requires Inv(s) && Plain(s)
    ensures HoldersOk(DispatcherStep(s, clock))
  {
    hide LaneOk, QueueOk, TokensOk, PoolsOk, HandOk, CoOk, DispatchesOf, Descends, Owns;
    PlainHere(s, clock);
    var u := DispatcherStep(s, clock);
    forall j | 0 <= j < |u.lanes| && u.lanes[j].job.Some?
      ensures HeldOk(u.lanes[j], u.lanes[j].job.value, j, StageOf(u, j), u.h, u.m.cos)
    {
      assert HeldOk(s.lanes[j], s.lanes[j].job.value, j, StageOf(s, j), s.h, s.m.cos);
      if j == s.d.at {
        FlagUnderTask(s, clock);
        CoSurvives(s.lanes[j], u.lanes[j], s.lanes[j].job.value, s.m.cos);
      }
    }
  }

  lemma PlainKeeps(s: Sys, clock: nat)
    requires Inv(s) && Plain(s)
    ensures Inv(DispatcherStep(s, clock))
  {
    hide LanesOk, HoldersOk, LaneOk, CtxOk, Outstanding, DispatchesOf, FullService, DispatcherStep, QueuedOk, Shape;
    ShapeKept(s, Dispatcher(clock));
    PlainHere(s, clock);
    PlainLanes(s, clock);
    PlainHolders(s, clock);
    var u := DispatcherStep(s, clock);
    PlainIsLanePc(s);
    forall b, i | Placed(u.h.place, b, InSlot(i))
      ensures SlotHolds(u.lanes, i, b)
    {
      assert SlotHolds(s.lanes, i, b);
    }
  }

  lemma PlainIsLanePc(s: Sys)
    requires Shape(s) && Plain(s)
    ensures s.d.at < |s.lanes| && s.d.pc != BatchEnq
  {
  }

  // ---------- counting ----------

  lemma LogAppend(log: seq<Task>, t: Task, b: nat)
    ensures DispatchesOf(log + [t], b) == DispatchesOf(log, b) + (if t.mbuf == b then [t] else [])
  {
    assert (log + [t])[..|log|] == log;
  }

  /** A context in service outside the queue leaves room in the queue: one context per queued
      task plus this one, and as many nodes as contexts. */
  lemma QueueFits(s: Sys, a: Addr)
    requires QueueOk(s) && PoolsOk(s)
    requires a in s.h.owner && !Placed(s.h.place, s.h.owner[a], InQueue)
    ensures |s.m.queue| < s.m.capacity
  {
    hide DispatchesOf, Descends, Serving, CoIs;
    var q := s.m.queue;
    var used := seq(|q|, j requires 0 <= j < |q| => q[j].rnbl) + [a];
    var out := Outstanding(s.m.pools.ctx);
    forall j | 0 <= j < |q|
      ensures used[j] == q[j].rnbl && used[j] in out && used[j] != a && s.h.owner[used[j]] == q[j].mbuf
    {
      assert QueuedOk(q[j], s.h, s.m.cos);
    }
    assert Distinct(used);
    DistinctSize(used, out);
    OutstandingCount(s.m.pools.ctx);
  }

  // ---------- handle_finished ----------

  lemma AtFinCtx(l: Lane, dt: Task)
    requires LaneOk(l, At(FinCtx), dt) || LaneOk(l, At(FinMbuf), dt)
    ensures l.job.Some? && l.resp == l.job.value && l.job.value.category == CONTEXT && l.respFlag == FINISHED
    ensures LaneOk(l, At(FinMbuf), dt)
    ensures LaneOk(l.(job := None), At(FinFlag), dt)
  {
  }

  // The state after context_free.
  function Freed(s: Sys, a: Addr): Sys
    requires CtxFreeable(s.m.pools, a)
  {
    Goto(s.(m := s.m.(pools := ContextFree(s.m.pools, a)), h := s.h.(owner := s.h.owner - {a})), FinMbuf)
  }

  predicate CtxFreeable(c: CtxPools, a: Addr)
  {
    && 0 < c.ctx.inUse <= |c.ctx.items| && 0 < c.stk.inUse <= |c.stk.items|
    && a in Outstanding(c.ctx) && a in c.stackOf && c.stackOf[a] in Outstanding(c.stk)
  }

  lemma FinCtxEffect(s: Sys, clock: nat)
    requires Inv(s) && s.d.pc.FinCtx?
    ensures var l := s.lanes[s.d.at];
            && l.job.Some? && CtxFreeable(s.m.pools, l.job.value.rnbl)
            && DispatcherStep(s, clock) == Freed(s, l.job.value.rnbl)
            && CtxOk(Freed(s, l.job.value.rnbl).m.pools)
  {
    hide LaneOk, CtxOk, DispatchesOf, CoOk, Descends, FullService, QueuedOk, TokensOk, ContextFree;
    var l := s.lanes[s.d.at];
    assert LaneOk(l, StageOf(s, s.d.at), s.d.task);
    AtFinCtx(l, s.d.task);
    assert HeldOk(l, l.job.value, s.d.at, StageOf(s, s.d.at), s.h, s.m.cos);
    FreeIsLegal(s.m.pools, l.job.value.rnbl);
  }

  lemma FinCtxHolders(s: Sys, i: nat, t: Task, u: Sys)
    requires Inv(s) && s.d.pc.FinCtx? && i == s.d.at && s.lanes[i].job == Some(t)
    requires CtxFreeable(s.m.pools, t.rnbl) && u == Freed(s, t.rnbl)
    ensures LanesOk(u) && HoldersOk(u) && QueueOk(u)
  {
    hide LaneOk, CtxOk, DispatchesOf, CoOk, Descends, TokensOk, ContextFree, PoolsOk, Outstanding;
    assert LaneOk(s.lanes[i], StageOf(s, i), s.d.task);
    AtFinCtx(s.lanes[i], s.d.task);
    assert HeldOk(s.lanes[i], t, i, StageOf(s, i), s.h, s.m.cos);
    forall j | 0 <= j < |u.lanes|
      ensures LaneOk(u.lanes[j], StageOf(u, j), u.d.task)
    {
      assert LaneOk(s.lanes[j], StageOf(s, j), s.d.task);
    }
    forall j | 0 <= j < |u.lanes| && u.lanes[j].job.Some?
      ensures HeldOk(u.lanes[j], u.lanes[j].job.value, j, StageOf(u, j), u.h, u.m.cos)
    {
      assert HeldOk(s.lanes[j], s.lanes[j].job.value, j, StageOf(s, j), s.h, s.m.cos);
    }
    forall j | 0 <= j < |u.m.queue|
      ensures QueuedOk(u.m.queue[j], u.h, u.m.cos)
    {
      assert QueuedOk(s.m.queue[j], s.h, s.m.cos);
    }
  }

  lemma FinCtxKeeps(s: Sys, clock: nat)
    requires Inv(s) && s.d.pc.FinCtx?
    ensures Inv(DispatcherStep(s, clock))
  {
    hide LanesOk, HoldersOk, QueueOk, LaneOk, CtxOk, DispatchesOf, CoOk, Descends, FullService, QueuedOk,
         ContextFree, Outstanding, DispatcherStep;
    ShapeKept(s, Dispatcher(clock));
    FinCtxEffect(s, clock);
    var t := s.lanes[s.d.at].job.value;
    FreeIsLegal(s.m.pools, t.rnbl);
    FinCtxHolders(s, s.d.at, t, Freed(s, t.rnbl));
  }

  lemma FreeIsLegal(c: CtxPools, a: Addr)
    requires CtxOk(c) && a in Outstanding(c.ctx)
    ensures a in c.stackOf && c.stackOf[a] in Outstanding(c.stk) && 0 < c.ctx.inUse && 0 < c.stk.inUse
    ensures c.ctx.inUse <= |c.ctx.items| && c.stk.inUse <= |c.stk.items|
    ensures CtxOk(ContextFree(c, a)) && Outstanding(ContextFree(c, a).ctx) == Outstanding(c.ctx) - {a}
    ensures |ContextFree(c, a).ctx.items| == |c.ctx.items|
    ensures ContextFree(c, a).ctx.inUse <= |ContextFree(c, a).ctx.items|
    ensures ContextFree(c, a).stk.inUse <= |ContextFree(c, a).stk.items|
  {
    ContextFreeEffect(c, a);
  }

  lemma FinMbufFacts(s: Sys)
    requires Inv(s) && s.d.pc.FinMbuf?
    ensures var i := s.d.at; var l := s.lanes[i];
            && l.job.Some? && l.resp == l.job.value && l.job.value.category == CONTEXT
            && LaneOk(l.(job := None), At(FinFlag), s.d.task)
            && HeldOk(l, l.job.value, i, At(FinMbuf), s.h, s.m.cos)
  {
    hide LaneOk, HeldOk, QueueOk, TokensOk, PoolsOk, HandOk;
    assert LaneOk(s.lanes[s.d.at], StageOf(s, s.d.at), s.d.task);
    AtFinCtx(s.lanes[s.d.at], s.d.task);
    assert HeldOk(s.lanes[s.d.at], s.lanes[s.d.at].job.value, s.d.at, StageOf(s, s.d.at), s.h, s.m.cos);
  }

  lemma FinMbufHolders(s: Sys)
    requires Inv(s) && s.d.pc.FinMbuf?
    ensures LanesOk(ReleaseStep(s)) && HoldersOk(ReleaseStep(s)) && QueueOk(ReleaseStep(s))
  {
    hide LaneOk, CtxOk, DispatchesOf, CoOk, Descends, TokensOk, PoolsOk, Outstanding;
    FinMbufFacts(s);
    var u := ReleaseStep(s);
    forall j | 0 <= j < |u.lanes|
      ensures LaneOk(u.lanes[j], StageOf(u, j), u.d.task)
    {
      assert LaneOk(s.lanes[j], StageOf(s, j), s.d.task);
    }
    forall j | 0 <= j < |u.lanes| && u.lanes[j].job.Some?
      ensures HeldOk(u.lanes[j], u.lanes[j].job.value, j, StageOf(u, j), u.h, u.m.cos)
    {
      assert HeldOk(s.lanes[j], s.lanes[j].job.value, j, StageOf(s, j), s.h, s.m.cos);
    }
    forall j | 0 <= j < |u.m.queue|
      ensures QueuedOk(u.m.queue[j], u.h, u.m.cos)
    {
      assert QueuedOk(s.m.queue[j], s.h, s.m.cos);
    }
  }

  lemma ServedTwice(h: Hist, t: Task)
    requires Descends(h.born, t) && t.category == CONTEXT && DispatchesOf(h.log, t.mbuf) == Behind(t) + [t]
    ensures FullService(h.born, h.log, t.mbuf)
  {
    hide DispatchesOf;
    assert h.born[t.mbuf] == t.(category := PACKET);
  }

  lemma FinMbufTokens(s: Sys)
    requires Inv(s) && s.d.pc.FinMbuf?
    ensures TokensOk(ReleaseStep(s)) && !ReleaseStep(s).m.fault
  {
    hide LaneOk, CtxOk, DispatchesOf, CoOk, Descends, Outstanding, FullService, QueuedOk, QueueOk;
    FinMbufFacts(s);
    var u := ReleaseStep(s);
    var t := s.lanes[s.d.at].job.value;
    ServedTwice(s.h, t);
    assert t.mbuf !in s.m.freed;
    forall b, i | Placed(u.h.place, b, InSlot(i))
      ensures SlotHolds(u.lanes, i, b)
    {
      assert SlotHolds(s.lanes, i, b);
    }
    forall b
      ensures b in u.m.freed <==> Placed(u.h.place, b, Done)
    {
      assert b in s.m.freed <==> Placed(s.h.place, b, Done);
    }
    forall b
      ensures b in u.m.inbound <==> Placed(u.h.place, b, InRing)
    {
      assert b in s.m.inbound <==> Placed(s.h.place, b, InRing);
    }
    forall b | Placed(u.h.place, b, InQueue)
      ensures QueuedSomewhere(u.m.queue, b)
    {
      assert Placed(s.h.place, b, InQueue);
    }
  }

  lemma FinMbufKeeps(s: Sys, clock: nat)
    requires Inv(s) && s.d.pc.FinMbuf?
    ensures Inv(DispatcherStep(s, clock))
  {
    hide LanesOk, HoldersOk, QueueOk, LaneOk, CtxOk, DispatchesOf, CoOk, FullService, QueuedOk,
         Outstanding, TokensOk;
    ShapeKept(s, Dispatcher(clock));
    FinMbufFacts(s);
    FinMbufHolders(s);
    FinMbufTokens(s);
    var u := ReleaseStep(s);
    var t := s.lanes[s.d.at].job.value;
    forall a | a in u.h.owner
      ensures Serving(u, a)
    {
      assert Serving(s, a);
      assert s.h.owner[a] != t.mbuf;
    }
  }

  // ---------- handle_preempted: back to the tail of the queue ----------

  lemma AtPreEnq(l: Lane, dt: Task)
    requires LaneOk(l, At(PreEnq), dt)
    ensures l.job.Some? && l.job.value.category == PACKET && dt == l.job.value.(category := CONTEXT)
    ensures l.respFlag == PREEMPTED
    ensures LaneOk(l.(job := None), At(PreFlag), dt)
  {
  }

  lemma PreEnqFacts(s: Sys)
    requires Inv(s) && s.d.pc.PreEnq?
    ensures var i := s.d.at; var l := s.lanes[i];
            && l.job.Some? && l.job.value.category == PACKET
            && s.d.task == l.job.value.(category := CONTEXT)
            && LaneOk(l.(job := None), At(PreFlag), s.d.task)
            && HeldOk(l, l.job.value, i, At(PreEnq), s.h, s.m.cos)
            && CoIs(s.m.cos, l.job.value.rnbl, Suspended(l.job.value))
            && |s.m.queue| < s.m.capacity
  {
    hide LaneOk, QueueOk, TokensOk, PoolsOk, HandOk, DispatchesOf;
    var l := s.lanes[s.d.at];
    assert LaneOk(l, StageOf(s, s.d.at), s.d.task);
    AtPreEnq(l, s.d.task);
    assert HeldOk(l, l.job.value, s.d.at, StageOf(s, s.d.at), s.h, s.m.cos);
    QueueFits(s, l.job.value.rnbl);
  }

  lemma PreEnqHolders(s: Sys)
    requires Inv(s) && s.d.pc.PreEnq?
    ensures LanesOk(RequeueStep(s)) && HoldersOk(RequeueStep(s)) && QueueOk(RequeueStep(s))
  {
    hide LaneOk, CtxOk, DispatchesOf, CoOk, TokensOk, PoolsOk, Outstanding;
    PreEnqFacts(s);
    var u := RequeueStep(s);
    forall j | 0 <= j < |u.lanes|
      ensures LaneOk(u.lanes[j], StageOf(u, j), u.d.task)
    {
      assert LaneOk(s.lanes[j], StageOf(s, j), s.d.task);
    }
    forall j | 0 <= j < |u.lanes| && u.lanes[j].job.Some?
      ensures HeldOk(u.lanes[j], u.lanes[j].job.value, j, StageOf(u, j), u.h, u.m.cos)
    {
      assert HeldOk(s.lanes[j], s.lanes[j].job.value, j, StageOf(s, j), s.h, s.m.cos);
    }
    var q := s.m.queue;
    forall j | 0 <= j < |u.m.queue|
      ensures QueuedOk(u.m.queue[j], u.h, u.m.cos)
      ensures j < |q| ==> u.m.queue[j] == q[j] && q[j].mbuf != s.d.task.mbuf
    {
      if j < |q| { assert QueuedOk(q[j], s.h, s.m.cos); }
    }
  }

  lemma PreEnqTokens(s: Sys)
    requires Inv(s) && s.d.pc.PreEnq?
    ensures TokensOk(RequeueStep(s))
  {
    hide LaneOk, CtxOk, DispatchesOf, CoOk, Descends, Outstanding, FullService, QueuedOk, QueueOk;
    PreEnqFacts(s);
    var u := RequeueStep(s);
    var n := |s.m.queue|;
    forall b, i | Placed(u.h.place, b, InSlot(i))
      ensures SlotHolds(u.lanes, i, b)
    {
      assert SlotHolds(s.lanes, i, b);
    }
    forall b
      ensures b in u.m.freed <==> Placed(u.h.place, b, Done)
      ensures b in u.m.inbound <==> Placed(u.h.place, b, InRing)
    {
      assert b in s.m.freed <==> Placed(s.h.place, b, Done);
      assert b in s.m.inbound <==> Placed(s.h.place, b, InRing);
    }
    forall b | Placed(u.h.place, b, InQueue)
      ensures QueuedSomewhere(u.m.queue, b)
    {
      if b == s.d.task.mbuf {
        assert u.m.queue[n].mbuf == b;
      } else {
        assert QueuedSomewhere(s.m.queue, b);
        var j :| 0 <= j < n && s.m.queue[j].mbuf == b;
        assert u.m.queue[j].mbuf == b;
      }
    }
  }

  lemma PreEnqKeeps(s: Sys, clock: nat)
    requires Inv(s) && s.d.pc.PreEnq?
    ensures Inv(DispatcherStep(s, clock))
  {
    hide LanesOk, HoldersOk, QueueOk, LaneOk, CtxOk, DispatchesOf, CoOk, FullService, QueuedOk,
         Outstanding, TokensOk;
    ShapeKept(s, Dispatcher(clock));
    PreEnqFacts(s);
    PreEnqHolders(s);
    PreEnqTokens(s);
    var u := RequeueStep(s);
    forall a | a in u.h.owner
      ensures Serving(u, a)
    {
      assert Serving(s, a);
    }
  }
}
