/** The inductive invariant of the scheduling protocol. */
module ProtocolInvariant {
  import opened Mempools
  import opened TaskQueues
  import opened Contexts
  import opened Protocol

  // Where the dispatcher stands relative to one lane.
  datatype Stage = Away | At(pc: DispPc)

  function StageOf(s: Sys, i: nat): Stage
  {
    if s.d.at == i then At(s.d.pc) else Away
  }

  predicate Passing(st: Stage)
  {
    st.Away? || st.pc.Look?
  }

  // ---------- one lane ----------

  // How far dispatch_request, handle_preempted and the worker have come.
  function PutRank(pc: DispPc): int
  {
    match pc
    case PutRun => 0 case PutRnbl => 1 case PutMbuf => 2 case PutTyp => 3
    case PutCat => 4 case PutTs => 5 case PutFlag => 6
    case _ => -1
  }

  function PreRank(pc: DispPc): int
  {
    match pc
    case PreRnbl => 0 case PreMbuf => 1 case PreCat => 2 case PreTyp => 3
    case PreTs => 4 case PreEnq => 5
    case _ => -1
  }

  function WorkRank(pc: WorkPc): int
  {
    match pc
    case Spin => -1 case Clear => -1 case Cat => 0 case PktMbuf => 1 case CtxRnbl => 1
    case PktRnbl => 2 case Swap => 3 case StTs => 4 case StTyp => 5 case StMbuf => 6
    case StRnbl => 7 case StCat => 8 case StFlag => 9
  }

  // The worker waits and no request is posted.
  predicate Quiet(l: Lane)
  {
    l.wpc.Spin? && l.reqFlag == WAITING
  }

  // An empty slot.
  predicate VacantOk(l: Lane, st: Stage)
  {
    && Quiet(l) && l.given == l.seen
    && (Passing(st) ==> l.respFlag == PROCESSED || l.respFlag == RUNNING)
    && (st.At? ==>
          && (st.pc.IsFin? || st.pc.IsPre? || st.pc.Deq? ==> l.respFlag == PROCESSED)
          && (st.pc.FinFlag? ==> l.respFlag == FINISHED)
          && (st.pc.PreFlag? ==> l.respFlag == PREEMPTED)
          && (st.pc.Look? || st.pc.IsFin? || st.pc.IsPre? || st.pc.Deq? || st.pc.FinFlag? || st.pc.PreFlag?))
  }

  // The dispatcher is writing task t into the request slot, field by field.
  predicate PostingOk(l: Lane, r: int, dt: Task, t: Task)
  {
    && Quiet(l) && dt == t
    && l.respFlag == (if r == 0 then PROCESSED else RUNNING)
    && (r >= 2 ==> l.req.rnbl == t.rnbl)
    && (r >= 3 ==> l.req.mbuf == t.mbuf)
    && (r >= 4 ==> l.req.typ == t.typ)
    && (r >= 5 ==> l.req.category == t.category)
    && (r >= 6 ==> l.req.timestamp == t.timestamp)
  }

  // The worker is on task t: what it has read and what it has copied out so far.
  predicate WorkingOk(l: Lane, t: Task)
  {
    var r := WorkRank(l.wpc);
    && r >= 0
    && (r >= 1 ==> l.cat == t.category)
    && (l.wpc.PktMbuf? || l.wpc.PktRnbl? ==> t.category == PACKET)
    && (l.wpc.CtxRnbl? ==> t.category == CONTEXT)
    && (l.wpc.PktRnbl? ==> l.pkt == t.mbuf)
    && (r >= 3 ==> l.cont == t.rnbl)
    && (r == 3 ==> !l.finished)
    && (r >= 4 ==> l.finished == (t.category == CONTEXT))
    && (r >= 5 ==> l.resp.timestamp == t.timestamp)
    && (r >= 6 ==> l.resp.typ == t.typ)
    && (r >= 7 ==> l.resp.mbuf == t.mbuf)
    && (r >= 8 ==> l.resp.rnbl == t.rnbl)
    && (r >= 9 ==> l.resp.category == CONTEXT)
  }

  // A preempted task is being copied back, field by field.
  predicate CollectingOk(r: int, dt: Task, t: Task)
  {
    && (r >= 1 ==> dt.rnbl == t.rnbl)
    && (r >= 2 ==> dt.mbuf == t.mbuf)
    && (r >= 3 ==> dt.category == CONTEXT)
    && (r >= 4 ==> dt.typ == t.typ)
    && (r >= 5 ==> dt.timestamp == t.timestamp)
  }

  predicate OccupiedOk(l: Lane, st: Stage, dt: Task, t: Task)
  {
    && (t.category == PACKET || t.category == CONTEXT)
    && |l.given| > 0 && l.given[|l.given| - 1] == t
    && (l.seen == l.given || l.seen == l.given[..|l.given| - 1])
    && if st.At? && PutRank(st.pc) >= 0 then
         PostingOk(l, PutRank(st.pc), dt, t) && l.seen == l.given[..|l.given| - 1]
       else if l.respFlag == RUNNING then
         && Passing(st) && l.req == t && l.seen == l.given[..|l.given| - 1]
         && (if l.reqFlag == ACTIVE then l.wpc.Spin? || l.wpc.Clear?
             else l.reqFlag == WAITING && WorkingOk(l, t))
       else
         && Quiet(l) && l.seen == l.given && l.resp == t.(category := CONTEXT)
         && if l.respFlag == FINISHED then
              t.category == CONTEXT
              && (Passing(st) || st.pc.IsFin? || st.pc.FinCtx? || st.pc.FinMbuf?)
            else
              && l.respFlag == PREEMPTED && t.category == PACKET
              && (Passing(st) || st.pc.IsFin? || st.pc.IsPre? || PreRank(st.pc) >= 0)
              && (st.At? ==> CollectingOk(PreRank(st.pc), dt, t))
  }

  predicate LaneOk(l: Lane, st: Stage, dt: Task)
  {
    match l.job
    case None => VacantOk(l, st)
    case Some(t) => OccupiedOk(l, st, dt, t)
  }

  // ---------- coroutines ----------

  function Suspended(t: Task): Co
  {
    Co(Yielded(2, 2), t.mbuf)
  }

  predicate CoIs(cos: map<Addr, Co>, a: Addr, co: Co)
  {
    a in cos && cos[a] == co
  }

  // The saved context of the task in a lane is at the point the lane's progress implies.
  predicate CoOk(l: Lane, t: Task, cos: map<Addr, Co>)
  {
    var over := l.respFlag == FINISHED || l.respFlag == PREEMPTED;
    var r := WorkRank(l.wpc);
    if t.category == CONTEXT then
      !over && r <= 3 ==> CoIs(cos, t.rnbl, Suspended(t))
    else
      && (r == 3 ==> CoIs(cos, t.rnbl, Co(Entry, t.mbuf)))
      && (r >= 4 || l.respFlag == PREEMPTED ==> CoIs(cos, t.rnbl, Suspended(t)))
  }

  // ---------- tokens and history ----------

  function DispatchesOf(log: seq<Task>, b: nat): seq<Task>
  {
    if log == [] then []
    else
      var n := |log| - 1;
      DispatchesOf(log[..n], b) + (if log[n].mbuf == b then [log[n]] else [])
  }

  // The dispatches a task has behind it when it sits in the queue.
  function Behind(t: Task): seq<Task>
  {
    if t.category == CONTEXT then [t.(category := PACKET)] else []
  }

  // Task t is packet t.mbuf's task: as first made, or as its preempted continuation.
  predicate Descends(born: map<nat, Task>, t: Task)
  {
    && t.mbuf in born
    && born[t.mbuf].category == PACKET
    && (t == born[t.mbuf] || t == born[t.mbuf].(category := CONTEXT))
  }

  predicate Owns(owner: map<Addr, nat>, t: Task)
  {
    t.rnbl in owner && owner[t.rnbl] == t.mbuf
  }

  predicate Placed(place: map<nat, Place>, b: nat, p: Place)
  {
    b in place && place[b] == p
  }

  predicate QueuedOk(t: Task, h: Hist, cos: map<Addr, Co>)
  {
    && Placed(h.place, t.mbuf, InQueue) && Descends(h.born, t) && Owns(h.owner, t)
    && DispatchesOf(h.log, t.mbuf) == Behind(t)
    && (t.category == CONTEXT ==> CoIs(cos, t.rnbl, Suspended(t)))
  }

  predicate HeldOk(l: Lane, t: Task, i: nat, st: Stage, h: Hist, cos: map<Addr, Co>)
  {
    && Placed(h.place, t.mbuf, InSlot(i)) && Descends(h.born, t)
    && (if st == At(FinMbuf) then t.rnbl !in h.owner else Owns(h.owner, t))
    && DispatchesOf(h.log, t.mbuf) == Behind(t) + [t]
    && CoOk(l, t, cos)
  }

  ghost predicate LanesOk(s: Sys)
  {
    forall i :: 0 <= i < |s.lanes| ==> LaneOk(s.lanes[i], StageOf(s, i), s.d.task)
  }

  ghost predicate HoldersOk(s: Sys)
  {
    forall i :: 0 <= i < |s.lanes| && s.lanes[i].job.Some? ==>
      HeldOk(s.lanes[i], s.lanes[i].job.value, i, StageOf(s, i), s.h, s.m.cos)
  }

  ghost predicate QueueOk(s: Sys)
  {
    && (forall j :: 0 <= j < |s.m.queue| ==> QueuedOk(s.m.queue[j], s.h, s.m.cos))
    && (forall i, j :: 0 <= i < j < |s.m.queue| ==> s.m.queue[i].mbuf != s.m.queue[j].mbuf)
  }

  ghost predicate QueuedSomewhere(q: seq<Task>, b: nat)
  {
    exists j :: 0 <= j < |q| && q[j].mbuf == b
  }

  predicate SlotHolds(lanes: seq<Lane>, i: nat, b: nat)
  {
    i < |lanes| && lanes[i].job.Some? && lanes[i].job.value.mbuf == b
  }

  /** Every packet that ever arrived is where `place` says, and nowhere else. */
  ghost predicate TokensOk(s: Sys)
  {
    && Distinct(s.h.arrived) && Distinct(s.m.inbound) && Distinct(s.m.freed)
    && (forall b :: b in s.h.place <==> b in s.h.arrived)
    && (forall b :: b in s.m.inbound <==> Placed(s.h.place, b, InRing))
    && (forall b :: b in s.m.freed <==> Placed(s.h.place, b, Done))
    && (forall b :: Placed(s.h.place, b, InQueue) ==> QueuedSomewhere(s.m.queue, b))
    && (forall b, i :: Placed(s.h.place, b, InSlot(i)) ==> SlotHolds(s.lanes, i, b))
    && (forall b :: b in s.m.inbound ==> DispatchesOf(s.h.log, b) == [])
    && (forall b :: b in s.m.freed ==> FullService(s.h.born, s.h.log, b))
    && (forall j :: 0 <= j < |s.h.log| ==> s.h.log[j].mbuf in s.h.place)
  }

  // Dispatched exactly twice: as the packet it came as, then as its saved context.
  predicate FullService(born: map<nat, Task>, log: seq<Task>, b: nat)
  {
    && b in born
    && DispatchesOf(log, b) == [born[b], born[b].(category := CONTEXT)]
  }

  // The task being built in the batch loop.
  predicate HandOk(s: Sys)
  {
    s.d.pc.BatchEnq? ==>
      && s.m.inbound != []
      && s.d.task == Task(s.d.task.rnbl, s.m.inbound[0], 1, PACKET, s.d.now)
      && Owns(s.h.owner, s.d.task)
  }

  // A context serves a queued or running packet, or the one being enqueued right now.
  predicate Serving(s: Sys, a: Addr)
  {
    a in s.h.owner &&
    var b := s.h.owner[a];
    if s.d.pc.BatchEnq? && s.d.task.rnbl == a then s.d.task.mbuf == b
    else b in s.h.born && s.h.born[b].rnbl == a && b in s.h.place
         && (s.h.place[b].InQueue? || s.h.place[b].InSlot?)
  }

  /** The contexts out of the pool are exactly the contexts in service. */
  ghost predicate PoolsOk(s: Sys)
  {
    && CtxOk(s.m.pools)
    && |s.m.pools.ctx.items| == s.m.capacity
    && (forall a :: a in s.h.owner <==> a in Outstanding(s.m.pools.ctx))
    && (forall a :: a in s.h.owner ==> Serving(s, a))
    && !s.m.fault
  }

  ghost predicate Inv(s: Sys)
  {
    Shape(s) && LanesOk(s) && HoldersOk(s) && QueueOk(s) && TokensOk(s) && HandOk(s) && PoolsOk(s)
  }
}
