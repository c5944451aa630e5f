/** The store every thread makes when it starts: init_worker marks the first response slot
    PROCESSED, whoever the thread is.  What that does to a system already running. */
module ProtocolLateInit {
  import opened Mempools
  import opened TaskQueues
  import opened Contexts
  import opened Protocol
  import opened ProtocolInvariant
  import opened ProtocolSteps
  import opened ProtocolTraffic
  import opened ProtocolRuns

  function LateInit(s: Sys): Sys
    requires |s.lanes| > 0
  {
    s.(lanes := s.lanes[0 := s.lanes[0].(respFlag := PROCESSED)])
  }

  // ---------- what counts as harm ----------

  ghost predicate Conserved(s: Sys)
  {
    forall b: nat :: ConservedAt(s, b)
  }

  // Every packet has one place in the books at any point of a run.
  ghost predicate ConservedAlong(s: Sys, acts: seq<Act>)
    requires Shape(s)
    decreases |acts|
  {
    Conserved(s) &&
    (acts == [] || (ShapeKept(s, acts[0]); ConservedAlong(Step(s, acts[0]), acts[1..])))
  }

  // The worker is not done with the request, or nobody has read its response.
  predicate InUse(l: Lane)
  {
    !Quiet(l) || l.respFlag == FINISHED || l.respFlag == PREEMPTED
  }

  // The dispatcher is writing a request into a slot still in use.
  predicate Clash(s: Sys, i: nat)
  {
    i < |s.lanes| && s.d.at == i && PutRank(s.d.pc) >= 0 && InUse(s.lanes[i])
  }

  ghost predicate ClashFree(s: Sys)
  {
    forall i: nat :: !Clash(s, i)
  }

  ghost predicate ClashFreeAlong(s: Sys, acts: seq<Act>)
    requires Shape(s)
    decreases |acts|
  {
    ClashFree(s) &&
    (acts == [] || (ShapeKept(s, acts[0]); ClashFreeAlong(Step(s, acts[0]), acts[1..])))
  }

  // The dispatcher takes a task off the queue for the first slot while that slot is in use.
  predicate PostsOver(s: Sys, a: Act)
    requires |s.lanes| > 0
  {
    a.Dispatcher? && s.d.pc.Deq? && s.d.at == 0 && s.m.queue != [] && InUse(s.lanes[0])
  }

  ghost predicate NeverPostsOver(s: Sys, acts: seq<Act>)
    requires Shape(s) && |s.lanes| > 0
    decreases |acts|
  {
    acts == [] ||
    (!PostsOver(s, acts[0]) && (ShapeKept(s, acts[0]); NeverPostsOver(Step(s, acts[0]), acts[1..])))
  }

  // ---------- three cases ----------

  // handle_finished or handle_preempted has read the flag and will not read it again.
  predicate Committed(pc: DispPc)
  {
    pc.FinCtx? || pc.FinMbuf? || pc.FinFlag? || PreRank(pc) >= 0 || pc.PreFlag?
  }

  // A response is published and the dispatcher has not yet committed to it.
  predicate Unread(s: Sys)
    requires |s.lanes| > 0
  {
    var l := s.lanes[0];
    && l.job.Some? && (l.respFlag == FINISHED || l.respFlag == PREEMPTED)
    && !(s.d.at == 0 && Committed(s.d.pc))
  }

  // A task is in the slot and no response is published yet.
  predicate InProgress(s: Sys)
    requires |s.lanes| > 0
  {
    s.lanes[0].job.Some? && s.lanes[0].respFlag == RUNNING
  }

  // ---------- an unread response is lost for certain ----------

  // Packet b is in no place a step could release it from.
  predicate LaneClean(l: Lane, st: Stage, b: nat)
  {
    && ((l.respFlag == FINISHED || l.respFlag == PREEMPTED) && !(st.At? && (st.pc.FinFlag? || st.pc.PreFlag?)) ==>
          l.resp.mbuf != b)
    && (st.At? && (st.pc.FinCtx? || st.pc.FinMbuf? || st.pc.PreRnbl? || st.pc.PreMbuf?) ==> l.resp.mbuf != b)
    && (!Quiet(l) ==> l.req.mbuf != b)
    && (st.At? && PutRank(st.pc) >= 3 ==> l.req.mbuf != b)
    && (WorkRank(l.wpc) >= 7 ==> l.resp.mbuf != b)
  }

  predicate HandClean(d: Disp, b: nat)
  {
    PutRank(d.pc) >= 0 || PreRank(d.pc) >= 2 || d.pc.BatchEnq? ==> d.task.mbuf != b
  }

  ghost predicate NoTrace(s: Sys, b: nat)
  {
    && b in s.h.place && b !in s.m.inbound && b !in s.m.freed
    && (forall j :: 0 <= j < |s.m.queue| ==> s.m.queue[j].mbuf != b)
    && (forall i :: 0 <= i < |s.lanes| ==> LaneClean(s.lanes[i], StageOf(s, i), b))
    && HandClean(s.d, b)
  }

  lemma WorkerNoTrace(s: Sys, w: nat, b: nat)
    requires NoTrace(s, b) && w < |s.lanes|
    ensures NoTrace(WorkerStep(s, w), b)
  {
    hide RunLoop, Resume;
    var u := WorkerStep(s, w);
    forall i | 0 <= i < |u.lanes|
      ensures LaneClean(u.lanes[i], StageOf(u, i), b)
    {
      assert LaneClean(s.lanes[i], StageOf(s, i), b);
    }
  }

  // Slots the dispatcher is not at do not depend on where else it is.
  lemma AwayClean(l: Lane, st: Stage, b: nat)
    requires LaneClean(l, Away, b) && Passing(st)
    ensures LaneClean(l, st, b)
  {
  }

  // The slot the dispatcher is at, and its local task.
  ghost predicate HereClean(s: Sys, u: Sys, b: nat)
    requires s.d.at < |s.lanes|
  {
    var i := s.d.at;
    && |u.lanes| == |s.lanes| && LaneClean(u.lanes[i], StageOf(u, i), b) && HandClean(u.d, b)
    && (forall j :: 0 <= j < |s.lanes| && j != i ==> u.lanes[j] == s.lanes[j])
    && (u.d.at != i ==> u.d.pc.Look? || (u.d.pc.Batch? && u.d.at == |s.lanes|))
  }

  lemma CopyNoTrace(s: Sys, clock: nat, b: nat)
    requires Shape(s) && LanePc(s.d.pc) && LaneClean(Here(s), At(s.d.pc), b) && HandClean(s.d, b)
    requires PutRank(s.d.pc) >= 0 || PreRank(s.d.pc) >= 0
    ensures HereClean(s, DispatcherStep(s, clock), b)
  {
  }

  lemma ScanNoTrace(s: Sys, clock: nat, b: nat)
    requires Shape(s) && LanePc(s.d.pc) && LaneClean(Here(s), At(s.d.pc), b) && HandClean(s.d, b)
    requires PutRank(s.d.pc) < 0 && PreRank(s.d.pc) < 0
    requires forall j :: 0 <= j < |s.m.queue| ==> s.m.queue[j].mbuf != b
    ensures HereClean(s, DispatcherStep(s, clock), b)
  {
    hide Outstanding, FreeList, ContextFree;
  }

  lemma MemNoTrace(s: Sys, clock: nat, b: nat)
    requires Shape(s) && LanePc(s.d.pc) && LaneClean(Here(s), At(s.d.pc), b) && HandClean(s.d, b)
    requires forall j :: 0 <= j < |s.m.queue| ==> s.m.queue[j].mbuf != b
    requires b in s.h.place && b !in s.m.freed
    ensures var u := DispatcherStep(s, clock);
            && b in u.h.place && u.m.inbound == s.m.inbound && b !in u.m.freed
            && (forall j :: 0 <= j < |u.m.queue| ==> u.m.queue[j].mbuf != b)
  {
    hide Outstanding, FreeList, ContextFree;
  }

  lemma SlotNoTrace(s: Sys, clock: nat, b: nat)
    requires Shape(s) && LanePc(s.d.pc) && NoTrace(s, b)
    ensures NoTrace(DispatcherStep(s, clock), b)
  {
    hide LaneClean, HandClean, DispatcherStep;
    var u := DispatcherStep(s, clock);
    assert LaneClean(Here(s), StageOf(s, s.d.at), b);
    if PutRank(s.d.pc) >= 0 || PreRank(s.d.pc) >= 0 { CopyNoTrace(s, clock, b); } else { ScanNoTrace(s, clock, b); }
    MemNoTrace(s, clock, b);
    forall i | 0 <= i < |u.lanes|
      ensures LaneClean(u.lanes[i], StageOf(u, i), b)
    {
      assert LaneClean(s.lanes[i], StageOf(s, i), b);
      if i != s.d.at { AwayClean(s.lanes[i], StageOf(u, i), b); }
    }
  }

  lemma NetNoTrace(s: Sys, clock: nat, b: nat)
    requires Shape(s) && !LanePc(s.d.pc) && NoTrace(s, b)
    ensures NoTrace(DispatcherStep(s, clock), b)
  {
    hide Outstanding, FreeList, ContextAlloc, LaneClean;
    var u := DispatcherStep(s, clock);
    forall i | 0 <= i < |u.lanes|
      ensures LaneClean(u.lanes[i], StageOf(u, i), b)
    {
      AwayClean(s.lanes[i], StageOf(u, i), b);
    }
  }

  lemma NoTraceStep(s: Sys, a: Act, b: nat)
    requires Shape(s) && NoTrace(s, b)
    ensures NoTrace(Step(s, a), b)
  {
    hide NoTrace, DispatcherStep, WorkerStep;
    match a
    case Dispatcher(clock) => if LanePc(s.d.pc) { SlotNoTrace(s, clock, b); } else { NetNoTrace(s, clock, b); }
    case Worker(w) => if w < |s.lanes| { WorkerNoTrace(s, w, b); }
    case Arrival(c) => ArrivalNoTrace(s, c, b);
  }

  lemma {:induction false} NeverReleased(s: Sys, acts: seq<Act>, b: nat)
    requires Shape(s) && NoTrace(s, b)
    ensures b !in Run(s, acts).m.freed
    decreases |acts|
  {
    hide NoTrace, DispatcherStep, WorkerStep;
    if acts == [] {
      NotFreed(s, b);
    } else {
      ShapeKept(s, acts[0]);
      NoTraceStep(s, acts[0], b);
      NeverReleased(Step(s, acts[0]), acts[1..], b);
    }
  }

  // A packet that arrived and will not be released, whatever happens next.
  ghost predicate Stranded(s: Sys, b: nat)
    requires Shape(s)
  {
    b in s.h.arrived && forall acts :: b !in Run(s, acts).m.freed
  }

  lemma NoTraceStrands(s: Sys, b: nat)
    requires Shape(s) && NoTrace(s, b) && b in s.h.arrived
    ensures Stranded(s, b)
  {
    hide NoTrace, Run;
    forall acts
      ensures b !in Run(s, acts).m.freed
    {
      NeverReleased(s, acts, b);
    }
  }

  lemma NotFreed(s: Sys, b: nat)
    requires NoTrace(s, b)
    ensures b !in s.m.freed
  {
  }

  lemma ArrivalNoTrace(s: Sys, c: nat, b: nat)
    requires NoTrace(s, b)
    ensures NoTrace(ArrivalStep(s, c), b)
  {
    hide LaneClean, HandClean;
    var u := ArrivalStep(s, c);
    forall i | 0 <= i < |u.lanes|
      ensures LaneClean(u.lanes[i], StageOf(u, i), b)
    {
      assert LaneClean(s.lanes[i], StageOf(s, i), b);
    }
  }

  // A slot holding another packet, and one holding none.
  lemma OtherClean(l: Lane, st: Stage, dt: Task, b: nat)
    requires LaneOk(l, st, dt) && (l.job.Some? ==> l.job.value.mbuf != b)
    ensures LaneClean(l, st, b)
  {
  }

  lemma WipedClean(l: Lane, st: Stage, dt: Task, b: nat)
    requires l.job.Some? && LaneOk(l, st, dt) && (l.respFlag == FINISHED || l.respFlag == PREEMPTED)
    requires st.At? ==> !Committed(st.pc)
    ensures LaneClean(l.(respFlag := PROCESSED), st, b)
  {
  }

  lemma WipedNoTrace(s: Sys)
    requires Inv(s) && |s.lanes| > 0 && Unread(s)
    ensures NoTrace(LateInit(s), s.lanes[0].job.value.mbuf)
  {
    hide LaneOk, LaneClean, CtxOk, DispatchesOf, CoOk, Descends, Owns, Outstanding, FullService, PoolsOk;
    var b := s.lanes[0].job.value.mbuf;
    var u := LateInit(s);
    assert HeldOk(s.lanes[0], s.lanes[0].job.value, 0, StageOf(s, 0), s.h, s.m.cos);
    assert Placed(s.h.place, b, InSlot(0));
    forall i | 0 <= i < |u.lanes|
      ensures LaneClean(u.lanes[i], StageOf(u, i), b)
    {
      assert LaneOk(s.lanes[i], StageOf(s, i), s.d.task);
      if i == 0 {
        WipedClean(s.lanes[0], StageOf(s, 0), s.d.task, b);
      } else {
        if s.lanes[i].job.Some? {
          assert HeldOk(s.lanes[i], s.lanes[i].job.value, i, StageOf(s, i), s.h, s.m.cos);
        }
        OtherClean(s.lanes[i], StageOf(s, i), s.d.task, b);
      }
    }
    forall j | 0 <= j < |s.m.queue|
      ensures s.m.queue[j].mbuf != b
    {
      assert QueuedOk(s.m.queue[j], s.h, s.m.cos);
    }
    assert b in s.m.inbound <==> Placed(s.h.place, b, InRing);
    assert b in s.m.freed <==> Placed(s.h.place, b, Done);
    HandIsClean(s, b);
  }

  lemma HandIsClean(s: Sys, b: nat)
    requires Inv(s) && |s.lanes| > 0 && Unread(s) && b == s.lanes[0].job.value.mbuf
    ensures HandClean(s.d, b)
  {
    hide CtxOk, DispatchesOf, CoOk, Descends, Owns, Outstanding, FullService, PoolsOk, WorkingOk;
    assert HeldOk(s.lanes[0], s.lanes[0].job.value, 0, StageOf(s, 0), s.h, s.m.cos);
    if s.d.at < |s.lanes| && (PutRank(s.d.pc) >= 0 || PreRank(s.d.pc) >= 2) {
      var l := s.lanes[s.d.at];
      assert LaneOk(l, At(s.d.pc), s.d.task);
      assert LaneOk(s.lanes[0], StageOf(s, 0), s.d.task);
      assert s.d.at != 0;
      assert HeldOk(l, l.job.value, s.d.at, StageOf(s, s.d.at), s.h, s.m.cos);
    }
    assert b in s.m.inbound <==> Placed(s.h.place, b, InRing);
  }

  /** The store over a published response: the packet is never released, whatever happens next. */
  lemma ResponseWiped(s: Sys)
    requires Inv(s) && |s.lanes| > 0 && Unread(s)
    ensures Shape(LateInit(s)) && Stranded(LateInit(s), s.lanes[0].job.value.mbuf)
  {
    hide NoTrace, CtxOk, DispatchesOf, CoOk, Descends, Owns, Outstanding, FullService, PoolsOk, LaneOk;
    var b := s.lanes[0].job.value.mbuf;
    assert HeldOk(s.lanes[0], s.lanes[0].job.value, 0, StageOf(s, 0), s.h, s.m.cos);
    assert b in s.h.place;
    WipedNoTrace(s);
    NoTraceStrands(LateInit(s), b);
  }

  // ---------- the store undone ----------

  predicate Scanning(pc: DispPc)
  {
    pc.IsFin? || pc.IsPre? || pc.Deq?
  }

  // What the flag would read, and where the dispatcher would stand, had the store not been made.
  function UndoneFlag(flag: nat, st: Stage): nat
  {
    if flag != PROCESSED then flag
    else if st.At? && (st.pc.FinCtx? || st.pc.FinMbuf? || st.pc.FinFlag?) then FINISHED
    else if st.At? && (PreRank(st.pc) >= 0 || st.pc.PreFlag?) then PREEMPTED
    else RUNNING
  }

  function Undo(u: Sys): Sys
    requires |u.lanes| > 0
  {
    u.(lanes := u.lanes[0 := u.lanes[0].(respFlag := UndoneFlag(u.lanes[0].respFlag, StageOf(u, 0)))],
       d := if u.d.at == 0 && Scanning(u.d.pc) then u.d.(pc := Look) else u.d)
  }

  // A system that is sound once the store is undone.
  ghost predicate Exposed(u: Sys)
  {
    && |u.lanes| > 0 && Shape(u) && Inv(Undo(u))
    && if u.lanes[0].job.Some? then u.lanes[0].respFlag != RUNNING && !(u.d.at == 0 && u.d.pc.PutRun?)
       else u.d.at == 0 && (u.d.pc.FinFlag? || u.d.pc.PreFlag?)
  }

  ghost predicate Sound(u: Sys)
  {
    |u.lanes| > 0 && (Inv(u) || Exposed(u))
  }

  lemma VacantStore(s: Sys)
    requires Inv(s) && |s.lanes| > 0 && s.lanes[0].job.None?
    requires !(s.d.at == 0 && (s.d.pc.FinFlag? || s.d.pc.PreFlag?))
    ensures Inv(LateInit(s))
  {
    hide CtxOk, DispatchesOf, CoOk, Descends, Owns, Outstanding, FullService, OccupiedOk;
    var u := LateInit(s);
    forall i | 0 <= i < |u.lanes|
      ensures LaneOk(u.lanes[i], StageOf(u, i), u.d.task)
    {
      assert LaneOk(s.lanes[i], StageOf(s, i), s.d.task);
    }
    forall b, i | Placed(u.h.place, b, InSlot(i))
      ensures SlotHolds(u.lanes, i, b)
    {
      assert SlotHolds(s.lanes, i, b);
    }
  }

  lemma UndoRestores(s: Sys)
    requires Inv(s) && |s.lanes| > 0 && !Unread(s)
    requires s.lanes[0].job.Some? ==> s.lanes[0].respFlag != PROCESSED
    requires s.lanes[0].job.None? ==> s.d.at == 0 && (s.d.pc.FinFlag? || s.d.pc.PreFlag?)
    ensures Undo(LateInit(s)) == s && Exposed(LateInit(s))
  {
    hide HoldersOk, QueueOk, TokensOk, PoolsOk, HandOk, WorkingOk;
    assert LaneOk(s.lanes[0], StageOf(s, 0), s.d.task);
    var u := LateInit(s);
    assert UndoneFlag(u.lanes[0].respFlag, StageOf(u, 0)) == s.lanes[0].respFlag;
    assert Undo(u).lanes == s.lanes;
  }

  lemma StoreIsSound(s: Sys)
    requires Inv(s) && |s.lanes| > 0 && !Unread(s)
    ensures Sound(LateInit(s))
  {
    hide Inv, Exposed;
    if s.lanes[0].job.None? && !(s.d.at == 0 && (s.d.pc.FinFlag? || s.d.pc.PreFlag?)) {
      VacantStore(s);
    } else if s.lanes[0].job.Some? && s.lanes[0].respFlag == PROCESSED {
      assert LateInit(s).lanes == s.lanes;
    } else {
      UndoRestores(s);
    }
  }

  // ---------- every step but one keeps it sound ----------

  // A worker does not read its response flag, and writes it only at the end.
  lemma LaneFlag(l: Lane, f: nat)
    ensures var m := LaneStep(l);
            if l.wpc.StFlag? then
              LaneStep(l.(respFlag := f)) == m && (m.respFlag == FINISHED || m.respFlag == PREEMPTED)
            else LaneStep(l.(respFlag := f)) == m.(respFlag := f) && m.respFlag == l.respFlag
  {
  }

  lemma OwnUndo(u: Sys)
    requires |u.lanes| > 0
    requires u.lanes[0].wpc.StFlag? && u.d.at == 0 ==> u.d.pc.Look? || Scanning(u.d.pc)
    ensures WorkerStep(Undo(u), 0) == Undo(WorkerStep(u, 0))
  {
    hide LaneStep, UndoneFlag, WorkerStep;
    if u.lanes[0].wpc.StFlag? { PublishUndo(u); } else { QuietUndo(u); }
  }

  lemma PublishUndo(u: Sys)
    requires |u.lanes| > 0 && u.lanes[0].wpc.StFlag? && (u.d.at == 0 ==> u.d.pc.Look? || Scanning(u.d.pc))
    ensures WorkerStep(Undo(u), 0) == Undo(WorkerStep(u, 0))
  {
    hide LaneStep, UndoneFlag;
    var l, f := u.lanes[0], UndoneFlag(u.lanes[0].respFlag, StageOf(u, 0));
    LaneFlag(l, f);
    PublishedFlag(LaneStep(l).respFlag, StageOf(u, 0));
    assert WorkerStep(Undo(u), 0).lanes == Undo(WorkerStep(u, 0)).lanes;
  }

  lemma QuietUndo(u: Sys)
    requires |u.lanes| > 0 && !u.lanes[0].wpc.StFlag?
    ensures WorkerStep(Undo(u), 0) == Undo(WorkerStep(u, 0))
  {
    hide RunLoop, Resume, LaneStep, UndoneFlag;
    var l, f := u.lanes[0], UndoneFlag(u.lanes[0].respFlag, StageOf(u, 0));
    LaneFlag(l, f);
    assert WorkerStep(Undo(u), 0).lanes == Undo(WorkerStep(u, 0)).lanes;
  }

  lemma PublishedFlag(flag: nat, st: Stage)
    ensures flag == FINISHED || flag == PREEMPTED ==> UndoneFlag(flag, st) == flag
  {
  }

  lemma OtherUndo(u: Sys, w: nat)
    requires 0 < w < |u.lanes|
    ensures WorkerStep(Undo(u), w) == Undo(WorkerStep(u, w))
  {
    hide RunLoop, Resume, LaneStep, UndoneFlag;
    var s := Undo(u);
    assert s.lanes[w] == u.lanes[w];
    assert WorkerStep(s, w).lanes == Undo(WorkerStep(u, w)).lanes;
  }

  lemma ArrivalUndo(u: Sys, b: nat)
    requires |u.lanes| > 0
    ensures ArrivalStep(Undo(u), b) == Undo(ArrivalStep(u, b))
  {
  }

  // The dispatcher away from the first slot neither reads nor writes it.
  function WithFirst(u: Sys, l: Lane): Sys
    requires |u.lanes| > 0
  {
    u.(lanes := u.lanes[0 := l])
  }

  lemma PutFrame(u: Sys, l: Lane, clock: nat)
    requires Shape(u) && 0 < u.d.at < |u.lanes| && PutRank(u.d.pc) >= 0
    ensures var v := DispatcherStep(u, clock);
            && |v.lanes| == |u.lanes| && v.lanes[0] == u.lanes[0]
            && DispatcherStep(WithFirst(u, l), clock) == WithFirst(v, l)
  {
    var s := WithFirst(u, l);
    assert Here(s) == Here(u);
    assert DispatcherStep(s, clock).lanes == WithFirst(DispatcherStep(u, clock), l).lanes;
  }

  lemma PreFrame(u: Sys, l: Lane, clock: nat)
    requires Shape(u) && 0 < u.d.at < |u.lanes| && (PreRank(u.d.pc) >= 0 || u.d.pc.PreFlag?)
    ensures var v := DispatcherStep(u, clock);
            && |v.lanes| == |u.lanes| && v.lanes[0] == u.lanes[0]
            && DispatcherStep(WithFirst(u, l), clock) == WithFirst(v, l)
  {
    var s := WithFirst(u, l);
    assert Here(s) == Here(u);
    assert DispatcherStep(s, clock).lanes == WithFirst(DispatcherStep(u, clock), l).lanes;
  }

  lemma ScanFrame(u: Sys, l: Lane, clock: nat)
    requires Shape(u) && 0 < u.d.at < |u.lanes| && PreRank(u.d.pc) < 0 && PutRank(u.d.pc) < 0 && !u.d.pc.PreFlag?
    ensures var v := DispatcherStep(u, clock);
            && |v.lanes| == |u.lanes| && v.lanes[0] == u.lanes[0]
            && DispatcherStep(WithFirst(u, l), clock) == WithFirst(v, l)
  {
    hide Outstanding, FreeList, ContextFree;
    var s := WithFirst(u, l);
    assert Here(s) == Here(u);
    assert DispatcherStep(s, clock).lanes == WithFirst(DispatcherStep(u, clock), l).lanes;
  }

  lemma NetFrame(u: Sys, l: Lane, clock: nat)
    requires Shape(u) && |u.lanes| > 0 && !LanePc(u.d.pc)
    ensures var v := DispatcherStep(u, clock);
            v.lanes == u.lanes && DispatcherStep(WithFirst(u, l), clock) == WithFirst(v, l)
  {
    hide Outstanding, FreeList, ContextAlloc;
  }

  lemma AwayUndo(u: Sys, clock: nat)
    requires Shape(u) && |u.lanes| > 0 && u.d.at != 0
    ensures Shape(Undo(u)) && DispatcherStep(Undo(u), clock) == Undo(DispatcherStep(u, clock))
  {
    hide DispatcherStep;
    var l := Undo(u).lanes[0];
    assert Undo(u) == WithFirst(u, l);
    if !LanePc(u.d.pc) { NetFrame(u, l, clock); }
    else if PutRank(u.d.pc) >= 0 { PutFrame(u, l, clock); }
    else if PreRank(u.d.pc) >= 0 || u.d.pc.PreFlag? { PreFrame(u, l, clock); }
    else { ScanFrame(u, l, clock); }
    LandsLooking(u, clock);
  }

  // Coming back to the first slot, the dispatcher starts by looking.
  lemma LandsLooking(u: Sys, clock: nat)
    requires Shape(u) && u.d.at != 0
    ensures var v := DispatcherStep(u, clock); v.d.at == 0 ==> v.d.pc.Look? || v.d.pc.Batch?
  {
    hide Outstanding, FreeList, ContextFree, ContextAlloc;
  }

  // At the first slot, past the flag: the steps do not read it.
  lemma PostingUndo(u: Sys, clock: nat)
    requires Shape(u) && |u.lanes| > 0 && u.d.at == 0 && PutRank(u.d.pc) >= 1
    ensures Shape(Undo(u)) && Undo(DispatcherStep(u, clock)) == DispatcherStep(Undo(u), clock)
  {
    var v, t := DispatcherStep(u, clock), DispatcherStep(Undo(u), clock);
    assert Undo(v).lanes == t.lanes;
  }

  lemma FinishingUndo(u: Sys, clock: nat)
    requires Shape(u) && |u.lanes| > 0 && u.d.at == 0 && (u.d.pc.FinCtx? || u.d.pc.FinMbuf?)
    ensures Shape(Undo(u)) && Undo(DispatcherStep(u, clock)) == DispatcherStep(Undo(u), clock)
  {
    hide Outstanding, FreeList, ContextFree;
    assert Undo(DispatcherStep(u, clock)).lanes == DispatcherStep(Undo(u), clock).lanes;
  }

  lemma RequeueingUndo(u: Sys, clock: nat)
    requires Shape(u) && |u.lanes| > 0 && u.d.at == 0 && PreRank(u.d.pc) >= 0
    ensures Shape(Undo(u)) && Undo(DispatcherStep(u, clock)) == DispatcherStep(Undo(u), clock)
  {
    assert Undo(DispatcherStep(u, clock)).lanes == DispatcherStep(Undo(u), clock).lanes;
  }

  lemma FlagUndo(u: Sys, clock: nat)
    requires Shape(u) && |u.lanes| > 0 && u.d.at == 0 && (u.d.pc.FinFlag? || u.d.pc.PreFlag?)
    ensures Shape(Undo(u)) && DispatcherStep(u, clock) == DispatcherStep(Undo(u), clock)
  {
    assert DispatcherStep(u, clock).lanes == DispatcherStep(Undo(u), clock).lanes;
  }

  // ---------- looking into the first slot ----------

  // Moving past a slot without touching it keeps the invariant.
  lemma SkipKeeps(s: Sys, clock: nat)
    requires Inv(s) && s.d.pc.Look?
    ensures Inv(NextSlot(s, clock))
  {
    hide LaneOk, CtxOk, DispatchesOf, Descends, Owns, Outstanding, FullService;
    var u := NextSlot(s, clock);
    forall i | 0 <= i < |u.lanes|
      ensures LaneOk(u.lanes[i], StageOf(u, i), u.d.task)
      ensures u.lanes[i].job.Some? ==>
                HeldOk(u.lanes[i], u.lanes[i].job.value, i, StageOf(u, i), u.h, u.m.cos)
    {
      assert LaneOk(s.lanes[i], StageOf(s, i), s.d.task);
      StageIrrelevant(s.lanes[i], StageOf(s, i), StageOf(u, i), s.d.task, u.d.task);
      if s.lanes[i].job.Some? {
        assert HeldOk(s.lanes[i], s.lanes[i].job.value, i, StageOf(s, i), s.h, s.m.cos);
      }
    }
    forall a | a in u.h.owner
      ensures Serving(u, a)
    {
      assert Serving(s, a);
    }
  }

  // The three looks at a published response, back from where the store left them.
  lemma LooksAgain(u: Sys, clock: nat)
    requires Exposed(u) && u.d.at == 0 && (u.d.pc.IsFin? || u.d.pc.IsPre?)
    requires u.lanes[0].respFlag == if u.d.pc.IsFin? then FINISHED else PREEMPTED
    ensures Inv(DispatcherStep(u, clock))
  {
    hide LanesOk, HoldersOk, QueueOk, TokensOk, PoolsOk, HandOk;
    var s := Undo(u);
    assert s.lanes == u.lanes;
    StepKeeps(s, Dispatcher(clock));
    var s1 := DispatcherStep(s, clock);
    StepKeeps(s1, Dispatcher(clock));
    var s2 := DispatcherStep(s1, clock);
    if u.d.pc.IsPre? { StepKeeps(s2, Dispatcher(clock)); }
  }

  // Exposed, and about to take a task: the slot is in use.
  lemma ExposedInUse(u: Sys)
    requires Exposed(u) && u.d.at == 0 && (u.d.pc.Look? || Scanning(u.d.pc))
    ensures u.lanes[0].job.Some? && InUse(u.lanes[0])
  {
    hide HoldersOk, QueueOk, TokensOk, PoolsOk, HandOk;
    var s := Undo(u);
    assert LaneOk(s.lanes[0], StageOf(s, 0), s.d.task);
  }

  lemma LookStep(u: Sys, clock: nat)
    requires Exposed(u) && u.d.at == 0 && (u.d.pc.Look? || Scanning(u.d.pc))
    requires u.d.pc.Deq? ==> u.m.queue == []
    ensures Sound(DispatcherStep(u, clock))
  {
    hide LanesOk, HoldersOk, QueueOk, TokensOk, PoolsOk, HandOk;
    var s := Undo(u);
    var l := u.lanes[0];
    var v := DispatcherStep(u, clock);
    assert u.lanes[0].job.Some?;
    if (u.d.pc.IsFin? && l.respFlag == FINISHED) || (u.d.pc.IsPre? && l.respFlag == PREEMPTED) {
      LooksAgain(u, clock);
    } else if u.d.pc.Deq? {
      SkipKeeps(s, clock);
      assert Undo(v) == NextSlot(s, clock);
    } else {
      assert Undo(v) == s;
    }
  }

  // ---------- all steps ----------

  lemma ExposedWorker(u: Sys, w: nat)
    requires Exposed(u) && w < |u.lanes|
    ensures Sound(WorkerStep(u, w))
  {
    hide HoldersOk, QueueOk, TokensOk, PoolsOk, HandOk, WorkingOk, WorkerStep, LaneStep;
    var s := Undo(u);
    assert LaneOk(s.lanes[0], StageOf(s, 0), s.d.task);
    if w == 0 { OwnUndo(u); } else { OtherUndo(u, w); }
    WorkerKeeps(s, w);
    WorkerSame(u, w);
  }

  lemma WorkerSame(u: Sys, w: nat)
    requires w < |u.lanes| && |u.lanes| > 0
    ensures var v := WorkerStep(u, w);
            && |v.lanes| == |u.lanes| && v.d == u.d && v.lanes[0].job == u.lanes[0].job
            && v.m.pools == u.m.pools
            && (v.lanes[0].respFlag == u.lanes[0].respFlag ||
                v.lanes[0].respFlag == FINISHED || v.lanes[0].respFlag == PREEMPTED)
  {
    hide RunLoop, Resume;
  }

  lemma ExposedDispatcher(u: Sys, clock: nat)
    requires Exposed(u) && !PostsOver(u, Dispatcher(clock))
    ensures Sound(DispatcherStep(u, clock))
  {
    hide LanesOk, HoldersOk, QueueOk, TokensOk, PoolsOk, HandOk, DispatcherStep, UndoneFlag;
    ShapeKept(u, Dispatcher(clock));
    var s, v := Undo(u), DispatcherStep(u, clock);
    if u.d.at == 0 && (u.d.pc.Look? || Scanning(u.d.pc)) {
      ExposedInUse(u);
      LookStep(u, clock);
    } else {
      StepKeeps(s, Dispatcher(clock));
      if u.d.at != 0 {
        AwayUndo(u, clock);
        AwayKeepsFirst(u, clock);
      } else if PutRank(u.d.pc) >= 0 {
        PostingUndo(u, clock);
        PostingFirst(u, clock);
      } else {
        if u.d.pc.FinFlag? || u.d.pc.PreFlag? { FlagUndo(u, clock); }
        else if PreRank(u.d.pc) >= 0 { RequeueingUndo(u, clock); }
        else { FinishingUndo(u, clock); }
        CollectingFirst(u, clock);
      }
    }
  }

  lemma AwayKeepsFirst(u: Sys, clock: nat)
    requires Shape(u) && |u.lanes| > 0 && u.d.at != 0
    ensures var v := DispatcherStep(u, clock);
            |v.lanes| == |u.lanes| && v.lanes[0] == u.lanes[0] && !(v.d.at == 0 && v.d.pc.PutRun?)
  {
    hide DispatcherStep;
    var l := u.lanes[0];
    if !LanePc(u.d.pc) { NetFrame(u, l, clock); }
    else if PutRank(u.d.pc) >= 0 { PutFrame(u, l, clock); }
    else if PreRank(u.d.pc) >= 0 || u.d.pc.PreFlag? { PreFrame(u, l, clock); }
    else { ScanFrame(u, l, clock); }
    LandsLooking(u, clock);
  }

  lemma PostingFirst(u: Sys, clock: nat)
    requires Shape(u) && |u.lanes| > 0 && u.d.at == 0 && PutRank(u.d.pc) >= 1
    ensures var v := DispatcherStep(u, clock);
            && |v.lanes| == |u.lanes| && v.lanes[0].job == u.lanes[0].job
            && v.lanes[0].respFlag == u.lanes[0].respFlag && !v.d.pc.PutRun?
  {
  }

  lemma CollectingFirst(u: Sys, clock: nat)
    requires Shape(u) && |u.lanes| > 0 && u.d.at == 0 && Committed(u.d.pc)
    ensures var v := DispatcherStep(u, clock);
            && |v.lanes| == |u.lanes| && !v.d.pc.PutRun?
            && (!u.d.pc.FinFlag? && !u.d.pc.PreFlag? ==>
                  && v.d.at == 0 && Committed(v.d.pc) && v.lanes[0].respFlag == u.lanes[0].respFlag
                  && (if u.d.pc.FinMbuf? || u.d.pc.PreEnq? then
                        v.lanes[0].job.None? && (v.d.pc.FinFlag? || v.d.pc.PreFlag?)
                      else v.lanes[0].job == u.lanes[0].job))
  {
    hide Outstanding, FreeList, ContextFree;
  }

  lemma SoundStep(u: Sys, a: Act)
    requires Sound(u) && !PostsOver(u, a)
    ensures Sound(Step(u, a))
  {
    hide Inv, Exposed, DispatcherStep, WorkerStep;
    if Inv(u) {
      StepKeeps(u, a);
      InvShape(u);
      ShapeKept(u, a);
    } else {
      match a
      case Dispatcher(clock) => ExposedDispatcher(u, clock);
      case Worker(w) => if w < |u.lanes| { ExposedWorker(u, w); }
      case Arrival(b) => ExposedArrival(u, b);
    }
  }

  lemma ExposedArrival(u: Sys, b: nat)
    requires Exposed(u)
    ensures Exposed(ArrivalStep(u, b))
  {
    hide LanesOk, HoldersOk, QueueOk, TokensOk, PoolsOk, HandOk, UndoneFlag;
    ArrivalUndo(u, b);
    ArrivalKeeps(Undo(u), b);
  }

  lemma SoundShape(u: Sys)
    requires Sound(u)
    ensures Shape(u)
  {
  }

  // ---------- conservation decides ----------

  lemma SoundConserves(u: Sys)
    requires Sound(u)
    ensures Conserved(u)
  {
    hide LanesOk, HoldersOk, QueueOk, TokensOk, PoolsOk, HandOk, ConservedAt;
    forall b: nat
      ensures ConservedAt(u, b)
    {
      if Inv(u) {
        PlacesExclusive(u, b);
      } else {
        PlacesExclusive(Undo(u), b);
        SamePlaces(u, b);
      }
    }
  }

  lemma SamePlaces(u: Sys, b: nat)
    requires |u.lanes| > 0 && ConservedAt(Undo(u), b)
    ensures ConservedAt(u, b)
  {
    var s := Undo(u);
    assert forall i: nat :: SlotHolds(s.lanes, i, b) <==> SlotHolds(u.lanes, i, b);
  }

  // Where the packet of the first slot's task is, before the step.
  lemma HeldOnlyHere(s: Sys, b: nat)
    requires Inv(s) && |s.lanes| > 0 && s.lanes[0].job.Some? && b == s.lanes[0].job.value.mbuf
    ensures b in s.h.arrived && b !in s.m.inbound && b !in s.m.freed
    ensures forall j :: 0 <= j < |s.m.queue| ==> s.m.queue[j].mbuf != b
    ensures forall i :: 0 < i < |s.lanes| && s.lanes[i].job.Some? ==> s.lanes[i].job.value.mbuf != b
  {
    hide CtxOk, DispatchesOf, CoOk, Descends, Owns, Outstanding, FullService, PoolsOk, LaneOk;
    assert HeldOk(s.lanes[0], s.lanes[0].job.value, 0, StageOf(s, 0), s.h, s.m.cos);
    forall j | 0 <= j < |s.m.queue|
      ensures s.m.queue[j].mbuf != b
    {
      assert QueuedOk(s.m.queue[j], s.h, s.m.cos);
    }
    forall i | 0 < i < |s.lanes| && s.lanes[i].job.Some?
      ensures s.lanes[i].job.value.mbuf != b
    {
      assert HeldOk(s.lanes[i], s.lanes[i].job.value, i, StageOf(s, i), s.h, s.m.cos);
    }
    assert b in s.h.place;
    assert b in s.m.inbound <==> Placed(s.h.place, b, InRing);
    assert b in s.m.freed <==> Placed(s.h.place, b, Done);
  }

  // ---------- posting over ----------

  lemma PostingIsClear(l: Lane, st: Stage, dt: Task)
    requires LaneOk(l, st, dt) && st.At? && PutRank(st.pc) >= 0
    ensures Quiet(l) && (l.respFlag == PROCESSED || l.respFlag == RUNNING)
  {
  }

  lemma SoundClashFree(u: Sys)
    requires Sound(u)
    ensures ClashFree(u)
  {
    hide HoldersOk, QueueOk, TokensOk, PoolsOk, HandOk, LaneOk;
    forall i: nat
      ensures !Clash(u, i)
    {
      if i < |u.lanes| && u.d.at == i && PutRank(u.d.pc) >= 0 {
        var s := if Inv(u) then u else Undo(u);
        assert LaneOk(s.lanes[i], StageOf(s, i), s.d.task);
        PostingIsClear(s.lanes[i], StageOf(s, i), s.d.task);
      }
    }
  }

  lemma PostingOverClashes(u: Sys, a: Act)
    requires Shape(u) && |u.lanes| > 0 && PostsOver(u, a)
    ensures Clash(Step(u, a), 0)
  {
  }

  lemma {:induction false} SoundRun(u: Sys, acts: seq<Act>)
    requires Sound(u)
    ensures Shape(u) && (ClashFreeAlong(u, acts) <==> NeverPostsOver(u, acts))
    ensures NeverPostsOver(u, acts) ==> ConservedAlong(u, acts)
    decreases |acts|
  {
    hide Sound, Conserved, ClashFree, PostsOver, Step;
    SoundShape(u);
    SoundConserves(u);
    SoundClashFree(u);
    if acts != [] {
      FirstLane(u);
      ShapeKept(u, acts[0]);
      if PostsOver(u, acts[0]) {
        ClashShows(u, acts);
      } else {
        SoundStep(u, acts[0]);
        SoundRun(Step(u, acts[0]), acts[1..]);
      }
    }
  }

  lemma FirstLane(u: Sys)
    requires Sound(u)
    ensures |u.lanes| > 0
  {
  }

  lemma ClashShows(u: Sys, acts: seq<Act>)
    requires Shape(u) && |u.lanes| > 0 && acts != [] && PostsOver(u, acts[0])
    ensures !ClashFreeAlong(u, acts)
  {
    hide Step, PostsOver, Clash;
    ShapeKept(u, acts[0]);
    PostingOverClashes(u, acts[0]);
    var v := Step(u, acts[0]);
    assert ClashFreeAlong(v, acts[1..]) ==> ClashFree(v);
  }

  /** The store at any other moment: over every continuation, no request is ever written into a slot
      in use if and only if the dispatcher never takes a task for the first slot while that one is.
      Until then the books stay in order. */
  lemma LateInitExact(s: Sys, acts: seq<Act>)
    requires Inv(s) && |s.lanes| > 0 && !Unread(s)
    ensures Shape(LateInit(s))
    ensures ClashFreeAlong(LateInit(s), acts) <==> NeverPostsOver(LateInit(s), acts)
    ensures NeverPostsOver(LateInit(s), acts) ==> ConservedAlong(LateInit(s), acts)
  {
    hide Inv, Sound;
    StoreIsSound(s);
    SoundRun(LateInit(s), acts);
  }

  // ---------- how a clash loses the packet ----------

  // Steps until the worker has published and waits again.
  function StepsOut(l: Lane): nat
  {
    match l.wpc
    case Spin => if l.reqFlag == WAITING then 0 else 13
    case Clear => 12 case Cat => 11 case PktMbuf => 10 case PktRnbl => 9 case CtxRnbl => 9 case Swap => 8
    case StTs => 7 case StTyp => 6 case StMbuf => 5 case StRnbl => 4 case StCat => 3 case StFlag => 2
  }

  // The request is taken down before it is worked on.
  predicate InTurn(l: Lane)
  {
    l.wpc.Spin? || l.wpc.Clear? || l.reqFlag == WAITING
  }

  // Only the first worker moved.
  predicate OnlyFirst(v: Sys, w: Sys)
  {
    && |w.lanes| == |v.lanes| && w.d == v.d && w.h == v.h && w.m == v.m.(cos := w.m.cos, fault := w.m.fault)
    && forall i :: 0 < i < |v.lanes| ==> w.lanes[i] == v.lanes[i]
  }

  lemma FirstMoves(v: Sys)
    requires |v.lanes| > 0 && InTurn(v.lanes[0]) && !Quiet(v.lanes[0])
    ensures var w := WorkerStep(v, 0);
            OnlyFirst(v, w) && InTurn(w.lanes[0]) && StepsOut(w.lanes[0]) < StepsOut(v.lanes[0])
  {
    hide RunLoop, Resume;
  }

  lemma {:induction false} WorkerRunsOut(v: Sys) returns (acts: seq<Act>)
    requires Shape(v) && |v.lanes| > 0 && InTurn(v.lanes[0])
    ensures OnlyFirst(v, Run(v, acts)) && Quiet(Run(v, acts).lanes[0])
    ensures |acts| <= StepsOut(v.lanes[0]) && forall i :: 0 <= i < |acts| ==> acts[i] == Worker(0)
    decreases StepsOut(v.lanes[0])
  {
    hide WorkerStep;
    if Quiet(v.lanes[0]) {
      acts := [];
    } else {
      FirstMoves(v);
      ShapeKept(v, Worker(0));
      var rest := WorkerRunsOut(WorkerStep(v, 0));
      acts := [Worker(0)] + rest;
      assert acts[1..] == rest;
    }
  }

  // Packet b is at most in the first slot.
  ghost predicate NowhereElse(v: Sys, b: nat)
  {
    && b in v.h.place && b !in v.m.inbound && b !in v.m.freed && v.d.task.mbuf != b
    && (forall j :: 0 <= j < |v.m.queue| ==> v.m.queue[j].mbuf != b)
    && (forall i :: 0 < i < |v.lanes| ==> LaneClean(v.lanes[i], Away, b))
  }

  /** The dispatcher is about to clear the response flag of a slot in use: the worker publishes first,
      and the flag store wipes the response. */
  lemma WipeBehind(v: Sys, b: nat) returns (acts: seq<Act>)
    requires Shape(v) && |v.lanes| > 0 && InTurn(v.lanes[0])
    requires v.d.at == 0 && v.d.pc.PutRun? && NowhereElse(v, b)
    ensures var w := Run(v, acts);
            NoTrace(w, b) && w.d.pc.PutRnbl? && w.h == v.h && w.m == v.m.(cos := w.m.cos, fault := w.m.fault)
  {
    hide Run, LaneClean;
    var steps := WorkerRunsOut(v);
    var x := Run(v, steps);
    var a := Dispatcher(0);
    acts := steps + [a];
    RunThen(v, steps, [a]);
    RunOne(x, a);
    FlagWipes(x, b);
  }

  lemma RunOne(x: Sys, a: Act)
    requires Shape(x)
    ensures Run(x, [a]) == Step(x, a)
  {
    hide Step;
    ShapeKept(x, a);
    assert [a][1..] == [];
  }

  lemma FlagWipes(x: Sys, b: nat)
    requires Shape(x) && |x.lanes| > 0 && Quiet(x.lanes[0]) && x.d.at == 0 && x.d.pc.PutRun? && NowhereElse(x, b)
    ensures var w := DispatcherStep(x, 0); NoTrace(w, b) && w.d.pc.PutRnbl? && w.h == x.h && w.m == x.m
  {
    var w := DispatcherStep(x, 0);
    forall i | 0 <= i < |w.lanes|
      ensures LaneClean(w.lanes[i], StageOf(w, i), b)
    {
      if i > 0 { assert LaneClean(x.lanes[i], Away, b); }
    }
  }

  lemma ExposedInTurn(u: Sys)
    requires Exposed(u) && u.lanes[0].job.Some?
    ensures InTurn(u.lanes[0])
  {
    hide HoldersOk, QueueOk, TokensOk, PoolsOk, HandOk;
    var s := Undo(u);
    assert LaneOk(s.lanes[0], StageOf(s, 0), s.d.task);
  }

  lemma TakenOver(u: Sys, b: nat)
    requires Exposed(u) && PostsOver(u, Dispatcher(0)) && u.lanes[0].job.Some? && b == u.lanes[0].job.value.mbuf
    ensures b in u.h.arrived
    ensures var v := DispatcherStep(u, 0);
            && |v.lanes| == |u.lanes| && v.d.at == 0 && v.d.pc.PutRun? && NowhereElse(v, b)
            && v.m == u.m.(queue := v.m.queue) && v.h.arrived == u.h.arrived
            && v.lanes[0] == u.lanes[0].(job := v.lanes[0].job, given := v.lanes[0].given)
  {
    hide HoldersOk, QueueOk, TokensOk, PoolsOk, HandOk, LaneOk, LaneClean, UndoneFlag;
    var s, v := Undo(u), DispatcherStep(u, 0);
    HeldOnlyHere(s, b);
    forall i | 0 < i < |v.lanes|
      ensures LaneClean(v.lanes[i], Away, b)
    {
      assert s.lanes[i] == v.lanes[i] && LaneOk(s.lanes[i], StageOf(s, i), s.d.task);
      OtherClean(s.lanes[i], Away, s.d.task, b);
    }
    assert s.m.queue[0].mbuf != b;
    InPlace(s, b);
  }

  lemma InPlace(s: Sys, b: nat)
    requires TokensOk(s) && b in s.h.arrived
    ensures b in s.h.place
  {
  }

  /** Posting over a task can lose its packet: it ends up in no place a step could release it from. */
  lemma PostingOverStrands(u: Sys) returns (acts: seq<Act>, b: nat)
    requires Exposed(u) && PostsOver(u, Dispatcher(0))
    ensures var w := Run(u, acts);
            && NoTrace(w, b) && b in w.h.arrived && w.d.pc.PutRnbl?
            && w.m == u.m.(queue := w.m.queue, cos := w.m.cos, fault := w.m.fault)
  {
    hide Inv, Undo, UndoneFlag, Run, NoTrace, NowhereElse, LaneClean, DispatcherStep;
    ExposedInUse(u);
    ExposedInTurn(u);
    b := u.lanes[0].job.value.mbuf;
    TakenOver(u, b);
    var a := Dispatcher(0);
    ShapeKept(u, a);
    var v := DispatcherStep(u, 0);
    var rest := WipeBehind(v, b);
    acts := [a] + rest;
    RunOne(u, a);
    RunThen(u, [a], rest);
  }

  // ---------- when that is certain ----------

  ghost predicate Settled(u: Sys)
  {
    |u.lanes| > 0 && (Inv(u) || (Exposed(u) && u.d.at == 0 && Committed(u.d.pc)))
  }

  lemma SettledStep(u: Sys, a: Act)
    requires Settled(u)
    ensures !PostsOver(u, a) && Settled(Step(u, a))
  {
    hide HoldersOk, QueueOk, TokensOk, PoolsOk, HandOk, WorkingOk, DispatcherStep, WorkerStep, UndoneFlag, LanesOk;
    if Inv(u) {
      NotOver(u, a);
      StepKeeps(u, a);
      ShapeKept(u, a);
    } else {
      SoundStep(u, a);
      match a
      case Dispatcher(clock) =>
        CollectingFirst(u, clock);
        if u.d.pc.FinFlag? || u.d.pc.PreFlag? {
          FlagUndo(u, clock);
          StepKeeps(Undo(u), a);
        }
      case Worker(w) => if w < |u.lanes| { WorkerSame(u, w); }
      case Arrival(b) =>
    }
  }

  lemma NotOver(u: Sys, a: Act)
    requires Inv(u) && |u.lanes| > 0
    ensures !PostsOver(u, a)
  {
    hide HoldersOk, QueueOk, TokensOk, PoolsOk, HandOk, WorkingOk;
    assert LaneOk(u.lanes[0], StageOf(u, 0), u.d.task);
  }

  lemma {:induction false} SettledRun(u: Sys, acts: seq<Act>)
    requires Settled(u)
    ensures Shape(u) && NeverPostsOver(u, acts)
    decreases |acts|
  {
    hide Inv, Exposed, PostsOver, Step;
    SoundShape(u);
    if acts != [] {
      ShapeKept(u, acts[0]);
      SettledStep(u, acts[0]);
      SettledRun(Step(u, acts[0]), acts[1..]);
    }
  }

  /** With no task in progress and no response unread, no request is written into a slot in use, and
      packets are conserved, in every continuation. */
  lemma LateInitHarmless(s: Sys, acts: seq<Act>)
    requires Inv(s) && |s.lanes| > 0 && !Unread(s) && !InProgress(s)
    ensures Shape(LateInit(s)) && ClashFreeAlong(LateInit(s), acts) && ConservedAlong(LateInit(s), acts)
  {
    LateInitExact(s, acts);
    SettledAtOnce(s);
    SettledRun(LateInit(s), acts);
  }

  lemma SettledAtOnce(s: Sys)
    requires Inv(s) && |s.lanes| > 0 && !Unread(s) && !InProgress(s)
    ensures Settled(LateInit(s))
  {
    hide HoldersOk, QueueOk, TokensOk, PoolsOk, HandOk, WorkingOk, LanesOk;
    if s.lanes[0].job.None? && !(s.d.at == 0 && (s.d.pc.FinFlag? || s.d.pc.PreFlag?)) {
      VacantStore(s);
    } else if s.lanes[0].job.Some? && s.lanes[0].respFlag == PROCESSED {
      assert LateInit(s).lanes == s.lanes;
    } else {
      UndoRestores(s);
      if s.lanes[0].job.Some? { FlagCases(s); }
    }
  }

  lemma FlagCases(s: Sys)
    requires Inv(s) && |s.lanes| > 0 && s.lanes[0].job.Some?
    ensures var f := s.lanes[0].respFlag; f == RUNNING || f == FINISHED || f == PREEMPTED || f == PROCESSED
  {
    hide HoldersOk, QueueOk, TokensOk, PoolsOk, HandOk, WorkingOk;
    assert LaneOk(s.lanes[0], StageOf(s, 0), s.d.task);
  }

  /** A task in progress whose worker publishes first: the store leaves no trace. */
  lemma PublishedInTime(s: Sys)
    requires Inv(s) && |s.lanes| > 0 && InProgress(s) && s.lanes[0].wpc.StFlag?
    ensures WorkerStep(LateInit(s), 0) == WorkerStep(s, 0)
  {
    hide Inv;
    assert WorkerStep(LateInit(s), 0).lanes == WorkerStep(s, 0).lanes;
  }
}
