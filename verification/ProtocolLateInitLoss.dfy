/** When the late store does harm.  With a task in progress in the first slot, and contexts for the
    waiting packets, some continuation strands the task's packet; with none, no continuation strands
    any packet. */
module ProtocolLateInitLoss {
  import opened Constants
  import opened Mempools
  import opened TaskQueues
  import opened Contexts
  import opened Protocol
  import opened ProtocolInvariant
  import opened ProtocolSteps
  import opened ProtocolTraffic
  import opened ProtocolRuns
  import opened ProtocolProgress
  import opened ProtocolLiveness
  import opened ProtocolLateInit

  // Every waiting packet can get a context.
  predicate Enough(s: Sys)
  {
    s.m.pools.ctx.inUse + |s.m.inbound| <= s.m.capacity + One(s.d.pc.BatchEnq?)
  }

  // And one more task can exist beside the first slot's.
  predicate Roomy(s: Sys)
  {
    s.m.capacity >= 2 && Enough(s)
  }

  // The store stands, the task's worker has not published, and the dispatcher can come by.
  ghost predicate Armed(u: Sys)
  {
    && Exposed(u) && u.lanes[0].job.Some? && u.lanes[0].respFlag == PROCESSED
    && !(u.d.at == 0 && Committed(u.d.pc)) && Roomy(u)
  }

  ghost function Remaining(u: Sys): (w: nat)
    requires Armed(u)
  {
    WorkNonNegative(Undo(u));
    Work(Undo(u))
  }

  predicate AtTop(u: Sys)
  {
    u.d.pc.Look? && u.d.at == 0
  }

  // ---------- one step of the dispatcher ----------

  lemma ProcessedIsPosting(v: Sys)
    requires Inv(v) && |v.lanes| > 0 && v.lanes[0].job.Some? && v.lanes[0].respFlag == PROCESSED
    ensures v.d.at == 0 && v.d.pc.PutRun?
  {
    hide HoldersOk, QueueOk, TokensOk, PoolsOk, HandOk, WorkingOk;
    assert LaneOk(v.lanes[0], StageOf(v, 0), v.d.task);
  }

  lemma StillExposed(v: Sys)
    requires Sound(v) && v.lanes[0].job.Some? && v.lanes[0].respFlag == PROCESSED
    requires !(v.d.at == 0 && v.d.pc.PutRun?)
    ensures Exposed(v)
  {
    hide Inv, UndoneFlag;
    if Inv(v) { ProcessedIsPosting(v); }
  }

  // The first slot, and what the dispatcher does next.
  lemma FirstKept(u: Sys, clock: nat)
    requires Shape(u) && |u.lanes| > 0 && u.lanes[0].job.Some? && u.lanes[0].respFlag == PROCESSED
    requires !(u.d.at == 0 && (Committed(u.d.pc) || u.d.pc.PutRun?))
    requires u.d.at == 0 && u.d.pc.Deq? ==> u.m.queue == []
    ensures var v := DispatcherStep(u, clock);
            && |v.lanes| == |u.lanes| && v.lanes[0].job == u.lanes[0].job && v.lanes[0].respFlag == PROCESSED
            && !(v.d.at == 0 && (Committed(v.d.pc) || v.d.pc.PutRun?))
  {
    hide DispatcherStep;
    if u.d.at != 0 {
      AwayKeepsFirst(u, clock);
      LandsLooking(u, clock);
    } else {
      FirstKeptHere(u, clock);
    }
  }

  lemma FirstKeptHere(u: Sys, clock: nat)
    requires Shape(u) && |u.lanes| > 0 && u.lanes[0].job.Some? && u.lanes[0].respFlag == PROCESSED && u.d.at == 0
    requires !Committed(u.d.pc) && !u.d.pc.PutRun? && (u.d.pc.Deq? ==> u.m.queue == [])
    ensures var v := DispatcherStep(u, clock);
            && |v.lanes| == |u.lanes| && v.lanes[0].job == u.lanes[0].job && v.lanes[0].respFlag == PROCESSED
            && !(v.d.at == 0 && (Committed(v.d.pc) || v.d.pc.PutRun?))
  {
  }

  lemma RoomKept(u: Sys, clock: nat)
    requires Shape(u) && Enough(u) && u.m.capacity == |u.m.pools.ctx.items| && (u.d.pc.BatchEnq? ==> u.m.inbound != [])
    ensures Enough(DispatcherStep(u, clock)) && DispatcherStep(u, clock).m.capacity == u.m.capacity
  {
    hide Outstanding, FreeList;
  }

  // The system with the store undone makes the same step, or none while the flag is being read.
  lemma UndoneStep(u: Sys, clock: nat)
    requires Exposed(u) && u.lanes[0].job.Some? && u.lanes[0].respFlag == PROCESSED
    requires !(u.d.at == 0 && Committed(u.d.pc)) && !PostsOver(u, Dispatcher(clock))
    ensures |DispatcherStep(u, clock).lanes| == |u.lanes|
    ensures Undo(DispatcherStep(u, clock)) == DispatcherStep(Undo(u), clock) ||
            (u.d.at == 0 && Undo(DispatcherStep(u, clock)) == Undo(u))
  {
    hide LanesOk, HoldersOk, QueueOk, TokensOk, PoolsOk, HandOk, DispatcherStep;
    ShapeKept(u, Dispatcher(clock));
    if u.d.at != 0 {
      AwayUndo(u, clock);
    } else if PutRank(u.d.pc) >= 0 {
      PostingUndo(u, clock);
    } else {
      ExposedInUse(u);
      LookUndone(u, clock);
    }
  }

  lemma LookUndone(u: Sys, clock: nat)
    requires Shape(u) && |u.lanes| > 0 && u.d.at == 0 && u.lanes[0].respFlag == PROCESSED
    requires (u.d.pc.Look? || Scanning(u.d.pc)) && (u.d.pc.Deq? ==> u.m.queue == [])
    ensures Shape(Undo(u)) && |DispatcherStep(u, clock).lanes| == |u.lanes|
    ensures Undo(DispatcherStep(u, clock)) == DispatcherStep(Undo(u), clock) ||
            Undo(DispatcherStep(u, clock)) == Undo(u)
  {
    var v, s := DispatcherStep(u, clock), Undo(u);
    if u.d.pc.Deq? {
      assert Undo(v).lanes == NextSlot(s, clock).lanes;
    } else {
      assert Undo(v).lanes == s.lanes;
    }
  }

  lemma ArmedStep(u: Sys, clock: nat)
    requires Armed(u) && !PostsOver(u, Dispatcher(clock))
    ensures var v := DispatcherStep(u, clock); Armed(v) && Remaining(v) <= Remaining(u)
  {
    hide LanesOk, HoldersOk, QueueOk, TokensOk, DispatcherStep, Work, UndoneFlag, Enough;
    var s := Undo(u);
    ExposedDispatcher(u, clock);
    if u.d.at == 0 && u.d.pc.Deq? { ExposedInUse(u); }
    FirstKept(u, clock);
    StillExposed(DispatcherStep(u, clock));
    RoomKept(u, clock);
    UndoneStep(u, clock);
    StepWorks(s, Dispatcher(clock));
  }

  // ---------- round to the first slot ----------

  // A published response in slot j is ahead of the dispatcher.
  predicate Ahead(u: Sys, j: nat)
  {
    && 0 < j < |u.lanes| && u.lanes[j].job.Some? && u.d.at <= j
    && (u.lanes[j].respFlag == FINISHED || u.lanes[j].respFlag == PREEMPTED)
    && (u.d.at == j ==> u.d.pc.Look? || u.d.pc.IsFin? || u.d.pc.IsPre? || u.d.pc.FinCtx? || PreRank(u.d.pc) >= 0)
  }

  lemma AheadMoves(u: Sys, clock: nat, j: nat)
    requires Shape(u) && Ahead(u, j) && LaneOk(u.lanes[j], StageOf(u, j), u.d.task)
    ensures Ahead(DispatcherStep(u, clock), j) || (u.d.at == j && (u.d.pc.FinCtx? || u.d.pc.PreEnq?))
  {
    hide WorkingOk, Outstanding, FreeList, ContextFree, ContextAlloc;
  }

  lemma AheadStep(u: Sys, clock: nat, j: nat)
    requires Armed(u) && !PostsOver(u, Dispatcher(clock)) && Ahead(u, j)
    ensures var v := DispatcherStep(u, clock);
            Armed(v) && (Remaining(v) < Remaining(u) || Ahead(v, j))
  {
    hide HoldersOk, QueueOk, TokensOk, PoolsOk, HandOk, LaneOk, DispatcherStep, Work, UndoneFlag, Ahead, Roomy;
    ArmedStep(u, clock);
    var s := Undo(u);
    AheadPlace(u, j);
    assert s.lanes[j] == u.lanes[j] && LaneOk(s.lanes[j], StageOf(s, j), s.d.task);
    SameStage(u, j);
    AheadMoves(u, clock, j);
    if u.d.at == j {
      AwayUndo(u, clock);
      if u.d.pc.FinCtx? { FinCtxWorks(s, clock); }
      if u.d.pc.PreEnq? { PreEnqWorks(s, clock); }
    }
  }

  lemma AheadPlace(u: Sys, j: nat)
    requires Ahead(u, j)
    ensures 0 < j < |u.lanes| && u.lanes[j].job.Some?
  {
  }

  lemma SameStage(u: Sys, j: nat)
    requires |u.lanes| > 0 && j > 0
    ensures StageOf(Undo(u), j) == StageOf(u, j) && (u.d.at == j ==> Undo(u).d == u.d) && Undo(u).d.task == u.d.task
  {
  }

  // The batch loop: a packet waiting gets its context and is queued; otherwise back to the top.
  lemma BatchArmed(u: Sys, clock: nat)
    requires Armed(u) && !LanePc(u.d.pc)
    ensures var v := DispatcherStep(u, clock);
            && Armed(v) && Remaining(v) <= Remaining(u)
            && (AtTop(v) || (!LanePc(v.d.pc) && Remaining(v) < Remaining(u)))
            && (u.m.queue != [] || u.d.pc.BatchEnq? ==> v.m.queue != [])
            && (u.d.pc.Batch? && u.m.inbound != [] && u.d.batch == 0 ==> v.d.pc.BatchEnq?)
  {
    hide LanesOk, HoldersOk, QueueOk, TokensOk, DispatcherStep, Work, UndoneFlag;
    ArmedStep(u, clock);
    var s := Undo(u);
    AwayUndo(u, clock);
    if u.d.pc.BatchEnq? {
      BatchEnqWorks(s, clock);
      BatchEnqFits(s);
    } else {
      BatchWorks(s, clock);
    }
    BatchMoves(u, clock);
  }

  lemma BatchMoves(u: Sys, clock: nat)
    requires Shape(u) && |u.lanes| > 0 && !LanePc(u.d.pc) && Roomy(u) && CtxOk(u.m.pools)
    requires u.m.capacity == |u.m.pools.ctx.items| && (u.d.pc.BatchEnq? ==> |u.m.queue| < u.m.capacity)
    ensures var v := DispatcherStep(u, clock);
            && (AtTop(v) || (!LanePc(v.d.pc) && v.m != u.m))
            && (u.m.queue != [] || u.d.pc.BatchEnq? ==> v.m.queue != [])
            && (u.d.pc.Batch? && u.m.inbound != [] && u.d.batch == 0 ==> v.d.pc.BatchEnq?)
  {
    hide Outstanding, FreeList, ContextAlloc, CtxOk;
    if u.d.pc.Batch? { ContextAllocEffect(u.m.pools); }
  }

  // The way from one state to the top of the scan.
  ghost predicate Leads(u: Sys, acts: seq<Act>, j: nat)
    requires Armed(u)
  {
    var v := Run(u, acts);
    && Armed(v) && AtTop(v) && Remaining(v) <= Remaining(u)
    && (Ahead(u, j) ==> Remaining(v) < Remaining(u))
    && (LanePc(u.d.pc) && u.m.inbound != [] ==> v.m.queue != [])
    && (!LanePc(u.d.pc) && (u.m.queue != [] || u.d.pc.BatchEnq? || (u.m.inbound != [] && u.d.batch == 0)) ==>
          v.m.queue != [])
  }

  // The run leaves an arrived packet without a trace, while there are contexts for the waiting ones.
  ghost predicate Loses(u: Sys, acts: seq<Act>)
    requires Shape(u)
  {
    var w := Run(u, acts);
    Enough(w) && exists b: nat :: NoTrace(w, b) && b in w.h.arrived
  }

  lemma LosesLater(u: Sys, a: Act, acts: seq<Act>)
    requires Shape(u) && Shape(Step(u, a)) && Loses(Step(u, a), acts)
    ensures Loses(u, [a] + acts)
  {
    hide Step, Run, NoTrace;
    RunOn(u, a, acts);
  }

  lemma LosesAfter(u: Sys, before: seq<Act>, acts: seq<Act>)
    requires Shape(u) && Loses(Run(u, before), acts)
    ensures Loses(u, before + acts)
  {
    hide Run, NoTrace;
    RunThen(u, before, acts);
  }

  ghost predicate Onward(u: Sys, v: Sys, j: nat)
    requires Armed(u)
  {
    && Armed(v) && Remaining(v) <= Remaining(u)
    && (AtTop(v) || Remaining(v) < Remaining(u) || ToTop(v) < ToTop(u))
    && (Ahead(u, j) ==> !AtTop(v) && (Remaining(v) < Remaining(u) || Ahead(v, j)))
    && if LanePc(u.d.pc) then
         v.m.inbound == u.m.inbound && !AtTop(v) && (!LanePc(v.d.pc) ==> v.d.pc.Batch? && v.d.batch == 0)
       else
         && (AtTop(v) || !LanePc(v.d.pc)) && (u.m.queue != [] || u.d.pc.BatchEnq? ==> v.m.queue != [])
         && (u.d.pc.Batch? && u.m.inbound != [] && u.d.batch == 0 ==> v.d.pc.BatchEnq?)
  }

  lemma OneOn(u: Sys, j: nat)
    requires Armed(u) && !PostsOver(u, Dispatcher(0))
    ensures Onward(u, DispatcherStep(u, 0), j)
  {
    hide LanesOk, HoldersOk, QueueOk, TokensOk, PoolsOk, HandOk, DispatcherStep, Undo, Work, Roomy, ToTop;
    if LanePc(u.d.pc) {
      ArmedStep(u, 0);
      SlotMoves(u, 0);
      SlotStepLeft(u, 0);
      if Ahead(u, j) { AheadStep(u, 0, j); }
    } else {
      BatchArmed(u, 0);
      assert !Ahead(u, j);
    }
  }

  lemma OverLoses(u: Sys) returns (acts: seq<Act>)
    requires Armed(u) && PostsOver(u, Dispatcher(0))
    ensures Shape(u) && Loses(u, acts)
  {
    hide Inv, Undo, UndoneFlag, Run, NoTrace;
    var b;
    acts, b := PostingOverStrands(u);
  }

  lemma RunOn(u: Sys, a: Act, rest: seq<Act>)
    requires Shape(u)
    ensures Shape(Step(u, a)) && Run(u, [a]) == Step(u, a) && Run(u, [a] + rest) == Run(Step(u, a), rest)
  {
    hide Step;
    ShapeKept(u, a);
    assert [a][1..] == [] && ([a] + rest)[1..] == rest;
  }

  lemma ArmedShape(u: Sys)
    requires Armed(u)
    ensures Shape(u) && |u.lanes| > 0
  {
  }

  lemma {:induction false} RoundTrip(u: Sys, j: nat) returns (acts: seq<Act>)
    requires Armed(u)
    ensures Shape(u) && (Loses(u, acts) || Leads(u, acts, j))
    decreases Remaining(u), ToTop(u)
  {
    hide Exposed, DispatcherStep, Undo, Work, Roomy, Ahead, ToTop, Run, Loses, PostsOver;
    ArmedShape(u);
    var a := Dispatcher(0);
    if PostsOver(u, a) {
      acts := OverLoses(u);
    } else {
      var v := DispatcherStep(u, 0);
      OneOn(u, j);
      if AtTop(v) {
        acts := [a];
        RunOn(u, a, []);
      } else {
        var rest := RoundTrip(v, j);
        acts := [a] + rest;
        RunOn(u, a, rest);
        if Loses(v, rest) { LosesLater(u, a, rest); }
      }
    }
  }

  // ---------- at the first slot with a task waiting ----------

  lemma {:induction false} PostsNow(u: Sys) returns (acts: seq<Act>)
    requires Armed(u) && u.d.at == 0 && (u.d.pc.Look? || Scanning(u.d.pc)) && u.m.queue != []
    ensures Shape(u) && Loses(u, acts)
    decreases Left(u.d.pc)
  {
    hide LanesOk, HoldersOk, QueueOk, TokensOk, PoolsOk, HandOk, Undo, Work, Roomy, Loses, InUse;
    ArmedShape(u);
    var a := Dispatcher(0);
    if u.d.pc.Deq? {
      ExposedInUse(u);
      acts := OverLoses(u);
    } else {
      ArmedStep(u, 0);
      var rest := PostsNow(DispatcherStep(u, 0));
      acts := [a] + rest;
      LosesLater(u, a, rest);
    }
  }

  // ---------- a new packet ----------

  lemma {:induction false} Unused(used: set<nat>) returns (b: nat)
    ensures forall x :: x in used ==> x < b
    decreases |used|
  {
    if used == {} {
      b := 0;
    } else {
      var x :| x in used;
      var c := Unused(used - {x});
      b := if x < c then c else x + 1;
      assert forall y :: y in used ==> y == x || y in used - {x};
    }
  }

  lemma ArmedArrival(u: Sys, b: nat)
    requires Armed(u) && AtTop(u) && b !in u.h.place && u.m.pools.ctx.inUse + |u.m.inbound| < u.m.capacity
    ensures var v := Step(u, Arrival(b)); Armed(v) && AtTop(v) && v.m.inbound != []
  {
    hide LanesOk, HoldersOk, QueueOk, TokensOk, PoolsOk, HandOk, UndoneFlag, Undo;
    ExposedArrival(u, b);
  }

  // ---------- all contexts out: another slot is busy ----------

  lemma {:induction false} NoneBeyond(s: Sys, n: nat)
    requires n <= |s.lanes| && forall j :: 0 < j < n ==> s.lanes[j].job.None?
    ensures |SlotContexts(s, n)| <= 1
    ensures n == 0 ==> SlotContexts(s, n) == []
  {
    if n > 1 { NoneBeyond(s, n - 1); }
  }

  lemma BusyElsewhere(u: Sys) returns (j: nat)
    requires Armed(u) && AtTop(u) && u.m.queue == [] && u.m.pools.ctx.inUse == u.m.capacity
    ensures 0 < j < |u.lanes| && u.lanes[j].job.Some?
  {
    hide LanesOk, HoldersOk, QueueOk, TokensOk, PoolsOk, HandOk, SlotContexts, InService, Outstanding, UndoneFlag;
    var s := Undo(u);
    AccountingHolds(s);
    if forall i :: 0 < i < |u.lanes| ==> u.lanes[i].job.None? {
      assert forall i :: 0 < i < |s.lanes| ==> s.lanes[i] == u.lanes[i];
      NoneBeyond(s, |s.lanes|);
      assert false;
    }
    j :| 0 < j < |u.lanes| && u.lanes[j].job.Some?;
  }

  lemma BusyFlag(u: Sys, j: nat)
    requires Armed(u) && AtTop(u) && 0 < j < |u.lanes| && u.lanes[j].job.Some?
    ensures u.lanes[j].respFlag == RUNNING || Ahead(u, j)
  {
    hide HoldersOk, QueueOk, TokensOk, PoolsOk, HandOk, WorkingOk, UndoneFlag;
    var s := Undo(u);
    assert LaneOk(s.lanes[j], StageOf(s, j), s.d.task);
  }

  // Its worker can move, and that is work done.
  lemma BusyStep(u: Sys, j: nat)
    requires Armed(u) && AtTop(u) && 0 < j < |u.lanes| && u.lanes[j].job.Some? && u.lanes[j].respFlag == RUNNING
    ensures var v := Step(u, Worker(j));
            Armed(v) && AtTop(v) && Remaining(v) < Remaining(u)
  {
    hide HoldersOk, QueueOk, TokensOk, PoolsOk, HandOk, WorkerStep, LaneStep, AfterStep, LaneOk, Work, UndoneFlag;
    var s := Undo(u);
    var l := s.lanes[j];
    assert l == u.lanes[j] && LaneOk(l, StageOf(s, j), s.d.task);
    BusyCanMove(l, StageOf(s, j), s.d.task, l.job.value);
    WorkerEffect(s, j);
    assert WorkerStep(s, j).lanes[j] != l;
    WorkerWorks(s, j);
    OtherUndo(u, j);
    ExposedWorker(u, j);
    OthersFirst(u, j);
    StillExposed(WorkerStep(u, j));
  }

  lemma OthersFirst(u: Sys, j: nat)
    requires 0 < j < |u.lanes|
    ensures var v := WorkerStep(u, j);
            && |v.lanes| == |u.lanes| && v.lanes[0] == u.lanes[0] && v.d == u.d
            && v.m == u.m.(cos := v.m.cos, fault := v.m.fault)
  {
    hide RunLoop, Resume, LaneStep;
  }

  // ---------- the continuation that loses the packet ----------

  lemma {:induction false} LosesFromTop(u: Sys) returns (acts: seq<Act>)
    requires Armed(u) && AtTop(u)
    ensures Shape(u) && Loses(u, acts)
    decreases Remaining(u)
  {
    hide Exposed, DispatcherStep, WorkerStep, Undo, Work, Ahead, Run, Loses;
    ArmedShape(u);
    ShapesKept(u);
    if u.m.queue != [] {
      acts := PostsNow(u);
    } else if u.m.inbound != [] {
      acts := LosesPending(u);
    } else if u.m.pools.ctx.inUse < u.m.capacity {
      var b := Unused(u.h.place.Keys);
      ArmedArrival(u, b);
      var rest := LosesPending(Step(u, Arrival(b)));
      acts := [Arrival(b)] + rest;
      LosesLater(u, Arrival(b), rest);
    } else {
      var j := BusyElsewhere(u);
      BusyFlag(u, j);
      if u.lanes[j].respFlag == RUNNING {
        BusyStep(u, j);
        var rest := LosesFromTop(Step(u, Worker(j)));
        acts := [Worker(j)] + rest;
        LosesLater(u, Worker(j), rest);
      } else {
        acts := RoundTrip(u, j);
        if !Loses(u, acts) {
          var rest := LosesFromTop(Run(u, acts));
          LosesAfter(u, acts, rest);
          acts := acts + rest;
        }
      }
    }
  }

  lemma ShapesKept(u: Sys)
    requires Shape(u)
    ensures forall a :: Shape(Step(u, a))
  {
    hide Step;
    forall a
      ensures Shape(Step(u, a))
    {
      ShapeKept(u, a);
    }
  }

  lemma LosesPending(u: Sys) returns (acts: seq<Act>)
    requires Armed(u) && AtTop(u) && u.m.inbound != []
    ensures Shape(u) && Loses(u, acts)
  {
    hide Exposed, Undo, Work, Ahead, Run, Roomy, Loses;
    ArmedShape(u);
    acts := RoundTrip(u, 0);
    if !Loses(u, acts) {
      var rest := PostsNow(Run(u, acts));
      LosesAfter(u, acts, rest);
      acts := acts + rest;
    }
  }

  lemma ArmedAtOnce(s: Sys)
    requires Inv(s) && |s.lanes| > 0 && InProgress(s) && Roomy(s)
    ensures Armed(LateInit(s))
  {
    hide HoldersOk, QueueOk, TokensOk, PoolsOk, HandOk, WorkingOk;
    assert LaneOk(s.lanes[0], StageOf(s, 0), s.d.task);
    UndoRestores(s);
  }

  /** Over a task in progress, with contexts for the waiting packets: some continuation leaves an
      arrived packet in no place it could be released from, and contexts for the waiting ones. */
  lemma InProgressLoses(s: Sys) returns (acts: seq<Act>, b: nat)
    requires Inv(s) && |s.lanes| > 0 && InProgress(s) && Roomy(s)
    ensures Shape(LateInit(s))
    ensures var w := Run(LateInit(s), acts); Enough(w) && NoTrace(w, b) && Stranded(w, b)
  {
    hide Inv, Exposed, Undo, Work, Run, Roomy, NoTrace;
    acts := LosesSomehow(s);
    b :| NoTrace(Run(LateInit(s), acts), b) && b in Run(LateInit(s), acts).h.arrived;
    NoTraceStrands(Run(LateInit(s), acts), b);
  }

  lemma LosesSomehow(s: Sys) returns (acts: seq<Act>)
    requires Inv(s) && |s.lanes| > 0 && InProgress(s) && Roomy(s)
    ensures Shape(LateInit(s)) && Loses(LateInit(s), acts)
  {
    hide Inv, Exposed, Undo, Work, Run, Roomy, Loses;
    ArmedAtOnce(s);
    var u := LateInit(s);
    ArmedShape(u);
    acts := RoundTrip(u, 0);
    if !Loses(u, acts) {
      var rest := LosesFromTop(Run(u, acts));
      LosesAfter(u, acts, rest);
      acts := acts + rest;
    }
  }

  // ---------- no task in progress: every packet can still be released ----------

  lemma EnoughStep(u: Sys, a: Act)
    requires Inv(u) && Enough(u) && !a.Arrival?
    ensures Shape(Step(u, a)) && Enough(Step(u, a))
  {
    hide LanesOk, HoldersOk, QueueOk, TokensOk, CtxOk, Outstanding, DispatcherStep, WorkerStep;
    ShapeKept(u, a);
    match a
    case Dispatcher(clock) => RoomKept(u, clock);
    case Worker(w) => if w < |u.lanes| { PoolsKept(u, w); }
  }

  lemma PoolsKept(u: Sys, w: nat)
    requires w < |u.lanes|
    ensures var v := WorkerStep(u, w); v.d == u.d && v.m == u.m.(cos := v.m.cos, fault := v.m.fault)
  {
    hide RunLoop, Resume, LaneStep;
  }

  lemma {:induction false} EnoughAlong(u: Sys, acts: seq<Act>)
    requires Inv(u) && Enough(u) && NoArrivals(acts)
    ensures Enough(Run(u, acts))
    decreases |acts|
  {
    hide Inv, Enough, Step;
    InvShape(u);
    if acts != [] {
      StepKeeps(u, acts[0]);
      EnoughStep(u, acts[0]);
      EnoughAlong(Step(u, acts[0]), acts[1..]);
    }
  }

  lemma EnoughIsNotExhausted(u: Sys)
    requires Inv(u) && Enough(u)
    ensures !Exhausted(u)
  {
    hide LanesOk, HoldersOk, QueueOk, TokensOk, HandOk, PoolsOk, ContextAlloc;
    if Exhausted(u) { ExhaustedIsStarved(u); }
  }

  // All workers in turn, then the dispatcher for long enough.
  function Workers(n: nat): seq<Act>
  {
    if n == 0 then [] else Workers(n - 1) + [Worker(n - 1)]
  }

  function Dispatchers(k: nat): seq<Act>
  {
    if k == 0 then [] else [Dispatcher(0)] + Dispatchers(k - 1)
  }

  lemma {:induction false} WorkersCover(n: nat)
    ensures NoArrivals(Workers(n)) && DispatcherSteps(Workers(n)) == 0
    ensures forall w :: 0 <= w < n ==> Worker(w) in Workers(n)
  {
    if n > 0 {
      WorkersCover(n - 1);
      StepsAdd(Workers(n - 1), [Worker(n - 1)]);
    }
  }

  lemma {:induction false} DispatchersCount(k: nat)
    ensures NoArrivals(Dispatchers(k)) && DispatcherSteps(Dispatchers(k)) == k
  {
    if k > 0 {
      DispatchersCount(k - 1);
      assert Dispatchers(k)[1..] == Dispatchers(k - 1);
    }
  }

  lemma {:induction false} StepsAdd(a: seq<Act>, b: seq<Act>)
    ensures DispatcherSteps(a + b) == DispatcherSteps(a) + DispatcherSteps(b)
  {
    if a == [] {
      assert a + b == b;
    } else {
      StepsAdd(a[1..], b);
      assert (a + b)[1..] == a[1..] + b;
    }
  }

  lemma SomeRound(n: nat) returns (acts: seq<Act>)
    ensures FullRound(n, acts)
  {
    hide Workers, Dispatchers, DispatcherSteps;
    var k := (SLOT + VISIT) * n + 3;
    WorkersCover(n);
    DispatchersCount(k);
    StepsAdd(Workers(n), Dispatchers(k));
    acts := Workers(n) + Dispatchers(k);
  }

  // A sound system with a ready slot and enough contexts can release everything.
  lemma SoundReleases(u: Sys) returns (acts: seq<Act>)
    requires Inv(u) && |u.lanes| > 0 && Ready(u.lanes[0]) && Enough(u)
    ensures Shape(u) && AllReleased(Run(u, acts)) && Run(u, acts).h.arrived == u.h.arrived
  {
    hide Inv, Work, Ready, Enough, Run, Joined, Exhausted, DispatcherSteps, AllReleased;
    InvShape(u);
    WorkNonNegative(u);
    var one := SomeRound(|u.lanes|);
    var rounds := seq(Work(u) + 1, _ => one);
    JoinedQuiet(rounds);
    acts := Joined(rounds);
    RoundsServe(u, rounds, 0);
    RunKeeps(u, acts);
    EnoughAlong(u, acts);
    EnoughIsNotExhausted(Run(u, acts));
    Kept(u, acts);
  }

  // The first slot stays ready.
  lemma SettledReady(u: Sys, a: Act)
    requires Settled(u) && Ready(u.lanes[0])
    ensures Settled(Step(u, a)) && Ready(Step(u, a).lanes[0])
  {
    hide Inv, Exposed, DispatcherStep, WorkerStep, PostsOver, Ready;
    SettledStep(u, a);
    if Inv(u) {
      ReadyKept(u, a, 0);
    } else {
      CommittedReady(u, a);
    }
  }

  lemma CommittedReady(u: Sys, a: Act)
    requires Exposed(u) && u.d.at == 0 && Committed(u.d.pc) && Ready(u.lanes[0])
    ensures |Step(u, a).lanes| > 0 && Ready(Step(u, a).lanes[0])
  {
    hide Inv, Undo, UndoneFlag, DispatcherStep, WorkerStep;
    match a
    case Dispatcher(clock) =>
      CollectingFirst(u, clock);
      if u.d.pc.FinFlag? || u.d.pc.PreFlag? { MarkedReady(u, clock); }
    case Worker(w) => if w < |u.lanes| { WorkerSame(u, w); }
    case Arrival(b) =>
  }

  lemma MarkedReady(u: Sys, clock: nat)
    requires Shape(u) && |u.lanes| > 0 && u.d.at == 0 && (u.d.pc.FinFlag? || u.d.pc.PreFlag?)
    ensures Ready(DispatcherStep(u, clock).lanes[0])
  {
  }

  lemma {:induction false} SettledAlong(u: Sys, acts: seq<Act>)
    requires Settled(u) && Ready(u.lanes[0])
    ensures Shape(u) && Settled(Run(u, acts)) && Ready(Run(u, acts).lanes[0])
    decreases |acts|
  {
    hide Settled, Step, Ready;
    SettledShape(u);
    if acts != [] {
      SettledReady(u, acts[0]);
      SettledShape(Step(u, acts[0]));
      SettledAlong(Step(u, acts[0]), acts[1..]);
    }
  }

  lemma SettledShape(u: Sys)
    requires Settled(u)
    ensures Shape(u) && |u.lanes| > 0
  {
    hide LanesOk, HoldersOk, QueueOk, TokensOk, PoolsOk, HandOk, Undo;
  }

  // The dispatcher finishes collecting, and the system is sound.
  lemma {:induction false} FinishesCollecting(u: Sys) returns (acts: seq<Act>)
    requires Settled(u) && Ready(u.lanes[0]) && Enough(u)
    ensures Shape(u)
    ensures var v := Run(u, acts);
            Inv(v) && |v.lanes| > 0 && Ready(v.lanes[0]) && Enough(v) && v.h.arrived == u.h.arrived
    decreases Left(u.d.pc)
  {
    hide LanesOk, HoldersOk, QueueOk, TokensOk, PoolsOk, HandOk, DispatcherStep, Ready, Undo, Enough;
    SettledShape(u);
    if Inv(u) {
      acts := [];
    } else {
      var a := Dispatcher(0);
      SettledReady(u, a);
      CollectingOn(u);
      var rest := FinishesCollecting(DispatcherStep(u, 0));
      RunOn(u, a, rest);
      acts := [a] + rest;
    }
  }

  lemma CollectingOn(u: Sys)
    requires Exposed(u) && u.d.at == 0 && Committed(u.d.pc) && Enough(u)
    ensures var v := DispatcherStep(u, 0); Enough(v) && v.h.arrived == u.h.arrived && Left(v.d.pc) < Left(u.d.pc)
  {
    hide LanesOk, HoldersOk, QueueOk, TokensOk, HandOk, CtxOk, Outstanding, FreeList, UndoneFlag;
    RoomKept(u, 0);
    CollectingLeft(u);
  }

  lemma CollectingLeft(u: Sys)
    requires Shape(u) && LanePc(u.d.pc) && Committed(u.d.pc)
    ensures var v := DispatcherStep(u, 0); v.h.arrived == u.h.arrived && Left(v.d.pc) < Left(u.d.pc)
  {
    hide Outstanding, FreeList, ContextFree;
  }

  /** While there are contexts for the waiting packets, no arrived packet is ever stranded. */
  ghost predicate Harmless(s: Sys)
    requires |s.lanes| > 0 && Shape(LateInit(s))
  {
    forall acts, b :: Enough(Run(LateInit(s), acts)) ==> !Stranded(Run(LateInit(s), acts), b)
  }

  lemma SettledNotStranded(u: Sys, b: nat)
    requires Settled(u) && Ready(u.lanes[0]) && Enough(u)
    ensures Shape(u) && !Stranded(u, b)
  {
    hide Settled, Inv, Ready, Enough, Run;
    SettledShape(u);
    var first := FinishesCollecting(u);
    var rest := SoundReleases(Run(u, first));
    RunThen(u, first, rest);
    var acts := first + rest;
    assert b in u.h.arrived ==> b in Run(u, acts).m.freed;
  }

  lemma NothingStranded(s: Sys, acts: seq<Act>, b: nat)
    requires Inv(s) && |s.lanes| > 0 && !Unread(s) && !InProgress(s) && Shape(LateInit(s))
    requires Enough(Run(LateInit(s), acts))
    ensures !Stranded(Run(LateInit(s), acts), b)
  {
    hide Inv, Settled, Enough, Run, Stranded;
    SettledAtOnce(s);
    SettledAlong(LateInit(s), acts);
    SettledNotStranded(Run(LateInit(s), acts), b);
  }

  lemma NotHarmless(s: Sys, acts: seq<Act>, b: nat)
    requires |s.lanes| > 0 && Shape(LateInit(s))
    requires Enough(Run(LateInit(s), acts)) && Stranded(Run(LateInit(s), acts), b)
    ensures !Harmless(s)
  {
    hide Enough, Stranded, Run;
  }

  /** What can be seen at the moment of the store: with contexts for the waiting packets, it is harmless
      if and only if no task is in progress in the first slot and no response is unread there. */
  lemma HarmlessExact(s: Sys)
    requires Inv(s) && |s.lanes| > 0 && Roomy(s)
    ensures Shape(LateInit(s)) && (Harmless(s) <==> !InProgress(s) && !Unread(s))
  {
    hide Inv, NoTrace, Stranded, Run;
    InvShape(s);
    if InProgress(s) {
      var acts, b := InProgressLoses(s);
      NotHarmless(s, acts, b);
    } else if Unread(s) {
      ResponseWiped(s);
      NoSteps(LateInit(s));
      NotHarmless(s, [], s.lanes[0].job.value.mbuf);
    } else {
      forall acts, b | Enough(Run(LateInit(s), acts))
        ensures !Stranded(Run(LateInit(s), acts), b)
      {
        NothingStranded(s, acts, b);
      }
    }
  }

  lemma NoSteps(u: Sys)
    requires Shape(u)
    ensures Run(u, []) == u
  {
  }
}
