/** The preemptive scheduling protocol: one net/dispatcher thread and N workers,
    interleaved at single shared-memory stores.

    Lane i stands for slot i + 1 of the two global arrays: the request the dispatcher
    posts, the response the worker publishes, and the worker's own thread state.
    Memory is sequentially consistent. */
module Protocol {
  import opened Constants
  import opened Mempools
  import opened TaskQueues
  import opened Contexts

  const WAITING: nat := 0
  const ACTIVE: nat := 1

  const RUNNING: nat := 0
  const FINISHED: nat := 1
  const PREEMPTED: nat := 2
  const PROCESSED: nat := 3

  // ---------- the request body as a coroutine ----------

  // Where a saved context resumes: at its entry, after the yield inside the loop, or nowhere.
  datatype CoPc = Entry | Yielded(i: nat, k: nat) | Exited

  // A saved context and the packet it works on.
  datatype Co = Co(pc: CoPc, req: nat)

  // simple_generic_work from loop head (i, k): four rounds, yielding when k is 2.
  function RunLoop(i: nat, k: nat): CoPc
    decreases 4 - i
  {
    if i >= 4 then Exited
    else if k == 2 then Yielded(i, k)
    else RunLoop(i + 1, k + 1)
  }

  function Resume(pc: CoPc): CoPc
  {
    match pc
    case Entry => RunLoop(0, 0)
    case Yielded(i, k) => RunLoop(i + 1, k + 1)
    case Exited => Exited
  }

  // ---------- state ----------

  datatype Option<T> = None | Some(value: T)

  datatype WorkPc =
    | Spin     // wait for the request flag
    | Clear    // store WAITING
    | Cat      // load the category
    | PktMbuf  // new packet: load mbuf
    | PktRnbl  // load rnbl and build a context there
    | CtxRnbl  // saved context: load rnbl
    | Swap     // run the coroutine until it comes back
    | StTs | StTyp | StMbuf | StRnbl | StCat  // finish_request, field by field
    | StFlag   // publish FINISHED or PREEMPTED

  datatype Lane = Lane(
    reqFlag: nat, req: Task,
    respFlag: nat, resp: Task,
    wpc: WorkPc, cat: nat, pkt: nat, cont: Addr, finished: bool,
    // history: the task now in the slot, all tasks posted here, all tasks as the worker read them
    job: Option<Task>, given: seq<Task>, seen: seq<Task>)

  datatype DispPc =
    | Look | IsFin | IsPre                                 // the three loads of the response flag
    | FinCtx | FinMbuf | FinFlag                           // handle_finished
    | PreRnbl | PreMbuf | PreCat | PreTyp | PreTs | PreEnq | PreFlag  // handle_preempted
    | Deq | PutRun | PutRnbl | PutMbuf | PutTyp | PutCat | PutTs | PutFlag  // dispatch_request
    | Batch | BatchEnq                                     // the batch loop of NetWorker::work

  datatype Disp = Disp(pc: DispPc, at: nat, task: Task, batch: nat, now: nat)

  datatype Mem = Mem(
    inbound: seq<nat>, queue: seq<Task>, capacity: nat,
    pools: CtxPools, cos: map<Addr, Co>,
    freed: seq<nat>,
    // a task dropped by a full queue, a rolled-back context, a bad or double free, a bad switch
    fault: bool)

  datatype Place = InRing | InQueue | InSlot(lane: nat) | Done

  datatype Hist = Hist(
    arrived: seq<nat>,        // every packet, in order of arrival
    place: map<nat, Place>,   // where it is now
    born: map<nat, Task>,     // the task first made for it
    owner: map<Addr, nat>,    // which packet each context serves
    log: seq<Task>)           // every task dispatched, in order

  datatype Sys = Sys(lanes: seq<Lane>, d: Disp, m: Mem, h: Hist)

  datatype Act = Dispatcher(clock: nat) | Worker(lane: nat) | Arrival(mbuf: nat)

  predicate LanePc(pc: DispPc)
  {
    !pc.Batch? && !pc.BatchEnq?
  }

  predicate Shape(s: Sys)
  {
    && s.d.at <= |s.lanes|
    && (LanePc(s.d.pc) <==> s.d.at < |s.lanes|)
    && s.m.pools.ctx.inUse <= |s.m.pools.ctx.items|
    && s.m.pools.stk.inUse <= |s.m.pools.stk.items|
  }

  const NO_TASK: Task := Task(NULL, 0, 0, 0, 0)

  // Response slots in `ready` start PROCESSED; a zeroed slot reads RUNNING.
  function InitLane(ready: bool): Lane
  {
    Lane(WAITING, NO_TASK, if ready then PROCESSED else RUNNING, NO_TASK,
         Spin, 0, 0, NULL, false, None, [], [])
  }

  function Init(n: nat, ready: set<nat>, pools: CtxPools, capacity: nat): Sys
  {
    Sys(seq(n, i => InitLane(i in ready)),
        Disp(if n == 0 then Batch else Look, 0, NO_TASK, 0, 0),
        Mem([], [], capacity, pools, map[], [], false),
        Hist([], map[], map[], map[], []))
  }

  // ---------- the dispatcher ----------

  function Goto(s: Sys, pc: DispPc): Sys
  {
    s.(d := s.d.(pc := pc))
  }

  // On to the next slot, or to the batch loop after the last one.
  function NextSlot(s: Sys, clock: nat): Sys
  {
    if s.d.at + 1 < |s.lanes| then s.(d := s.d.(pc := Look, at := s.d.at + 1))
    else s.(d := s.d.(pc := Batch, at := |s.lanes|, batch := 0, now := clock))
  }

  function Here(s: Sys): Lane
    requires s.d.at < |s.lanes|
  {
    s.lanes[s.d.at]
  }

  function SetHere(s: Sys, l: Lane, pc: DispPc): Sys
    requires s.d.at < |s.lanes|
  {
    s.(lanes := s.lanes[s.d.at := l], d := s.d.(pc := pc))
  }

  function SetTask(s: Sys, t: Task, pc: DispPc): Sys
  {
    s.(d := s.d.(task := t, pc := pc))
  }

  // context_free on what the response slot says
  function FreeStep(s: Sys): Sys
    requires s.d.at < |s.lanes|
  {
    var a := Here(s).resp.rnbl;
    var c := s.m.pools;
    if c.ctx.inUse <= |c.ctx.items| && c.stk.inUse <= |c.stk.items|
       && a in Outstanding(c.ctx) && a in c.stackOf && c.stackOf[a] in Outstanding(c.stk)
       && 0 < c.ctx.inUse && 0 < c.stk.inUse then
      Goto(s.(m := s.m.(pools := ContextFree(c, a)), h := s.h.(owner := s.h.owner - {a})), FinMbuf)
    else Goto(s.(m := s.m.(fault := true)), FinMbuf)
  }

  // rte_pktmbuf_free on what the response slot says
  function ReleaseStep(s: Sys): Sys
    requires s.d.at < |s.lanes|
  {
    var l := Here(s);
    var b := l.resp.mbuf;
    SetHere(s.(m := s.m.(freed := s.m.freed + [b], fault := s.m.fault || b in s.m.freed),
               h := s.h.(place := s.h.place[b := Done])),
            l.(job := None), FinFlag)
  }

  // tskq_enqueue_tail of the preempted task
  function RequeueStep(s: Sys): Sys
    requires s.d.at < |s.lanes|
  {
    var q := s.m.queue;
    SetHere(s.(m := s.m.(queue := Enqueued(q, s.m.capacity, s.d.task),
                         fault := s.m.fault || |q| >= s.m.capacity),
               h := s.h.(place := s.h.place[s.d.task.mbuf := InQueue])),
            Here(s).(job := None), PreFlag)
  }

  // tskq_dequeue
  function DequeueStep(s: Sys, clock: nat): Sys
    requires s.d.at < |s.lanes|
  {
    if s.m.queue == [] then NextSlot(s, clock)
    else
      var t := s.m.queue[0];
      var l := Here(s);
      SetHere(s.(m := s.m.(queue := s.m.queue[1..]),
                 h := s.h.(log := s.h.log + [t], place := s.h.place[t.mbuf := InSlot(s.d.at)]),
                 d := s.d.(task := t)),
              l.(job := Some(t), given := l.given + [t]), PutRun)
  }

  // One round of the batch loop up to context_alloc; a failed allocation just goes round again.
  function BatchStep(s: Sys): Sys
    requires Shape(s)
  {
    if s.m.inbound == [] || s.d.batch >= MAX_RX_BURST then
      s.(d := s.d.(pc := if |s.lanes| == 0 then Batch else Look, at := 0, batch := 0))
    else
      match ContextAlloc(s.m.pools)
      case NoContext => s
      case NoStack(c) => s.(m := s.m.(pools := c, fault := true))
      case Granted(c, a) =>
        s.(m := s.m.(pools := c), h := s.h.(owner := s.h.owner[a := s.m.inbound[0]]),
           d := s.d.(pc := BatchEnq, task := Task(a, s.m.inbound[0], 1, PACKET, s.d.now)))
  }

  // The rest of the round: enqueue the new task and take the packet off the ring.
  function BatchEnqStep(s: Sys): Sys
  {
    var q := s.m.queue;
    var t := s.d.task;
    s.(m := s.m.(queue := Enqueued(q, s.m.capacity, t), fault := s.m.fault || |q| >= s.m.capacity,
                 inbound := if s.m.inbound == [] then [] else s.m.inbound[1..]),
       h := s.h.(place := s.h.place[t.mbuf := InQueue], born := s.h.born[t.mbuf := t]),
       d := s.d.(pc := Batch, batch := s.d.batch + 1))
  }

  function DispatcherStep(s: Sys, clock: nat): Sys
    requires Shape(s)
  {
    var d := s.d;
    match d.pc
    case Look => if Here(s).respFlag != RUNNING then Goto(s, IsFin) else NextSlot(s, clock)
    case IsFin => if Here(s).respFlag == FINISHED then Goto(s, FinCtx) else Goto(s, IsPre)
    case IsPre => if Here(s).respFlag == PREEMPTED then Goto(s, PreRnbl) else Goto(s, Deq)
    case FinCtx => FreeStep(s)
    case FinMbuf => ReleaseStep(s)
    case FinFlag => SetHere(s, Here(s).(respFlag := PROCESSED), Deq)
    case PreRnbl => SetTask(s, d.task.(rnbl := Here(s).resp.rnbl), PreMbuf)
    case PreMbuf => SetTask(s, d.task.(mbuf := Here(s).resp.mbuf), PreCat)
    case PreCat => SetTask(s, d.task.(category := Here(s).resp.category), PreTyp)
    case PreTyp => SetTask(s, d.task.(typ := Here(s).resp.typ), PreTs)
    case PreTs => SetTask(s, d.task.(timestamp := Here(s).resp.timestamp), PreEnq)
    case PreEnq => RequeueStep(s)
    case PreFlag => SetHere(s, Here(s).(respFlag := PROCESSED), Deq)
    case Deq => DequeueStep(s, clock)
    case PutRun => SetHere(s, Here(s).(respFlag := RUNNING), PutRnbl)
    case PutRnbl => SetHere(s, Here(s).(req := Here(s).req.(rnbl := d.task.rnbl)), PutMbuf)
    case PutMbuf => SetHere(s, Here(s).(req := Here(s).req.(mbuf := d.task.mbuf)), PutTyp)
    case PutTyp => SetHere(s, Here(s).(req := Here(s).req.(typ := d.task.typ)), PutCat)
    case PutCat => SetHere(s, Here(s).(req := Here(s).req.(category := d.task.category)), PutTs)
    case PutTs => SetHere(s, Here(s).(req := Here(s).req.(timestamp := d.task.timestamp)), PutFlag)
    case PutFlag => NextSlot(SetHere(s, Here(s).(reqFlag := ACTIVE), PutFlag), clock)
    case Batch => BatchStep(s)
    case BatchEnq => BatchEnqStep(s)
  }

  // ---------- a worker ----------

  // Steps that touch only the worker's own lane.
  function LaneStep(l: Lane): Lane
  {
    match l.wpc
    case Spin => if l.reqFlag == WAITING then l else l.(wpc := Clear)
    case Clear => l.(reqFlag := WAITING, wpc := Cat)
    case Cat => l.(cat := l.req.category, wpc := if l.req.category == PACKET then PktMbuf else CtxRnbl)
    case PktMbuf => l.(pkt := l.req.mbuf, wpc := PktRnbl)
    case PktRnbl => l.(cont := l.req.rnbl, finished := false, wpc := Swap)
    case CtxRnbl => l.(finished := false, cont := l.req.rnbl, wpc := Swap)
    case Swap => l.(wpc := StTs)
    case StTs => l.(resp := l.resp.(timestamp := l.req.timestamp), wpc := StTyp)
    case StTyp => l.(resp := l.resp.(typ := l.req.typ), wpc := StMbuf)
    case StMbuf => l.(resp := l.resp.(mbuf := l.req.mbuf), wpc := StRnbl)
    case StRnbl => l.(resp := l.resp.(rnbl := l.cont), wpc := StCat)
    case StCat => l.(resp := l.resp.(category := CONTEXT), wpc := StFlag)
    case StFlag =>
      l.(respFlag := if l.finished then FINISHED else PREEMPTED, wpc := Spin,
         seen := l.seen + [Task(l.cont, l.resp.mbuf, l.resp.typ, l.cat, l.resp.timestamp)])
  }

  // getcontext and makecontext at PktRnbl; swapping in and out of the coroutine at Swap.
  function WorkerStep(s: Sys, w: nat): Sys
    requires w < |s.lanes|
  {
    var l := s.lanes[w];
    var l' := LaneStep(l);
    match l.wpc
    case PktRnbl =>
      s.(lanes := s.lanes[w := l'], m := s.m.(cos := s.m.cos[l.req.rnbl := Co(Entry, l.pkt)]))
    case Swap =>
      if l.cont !in s.m.cos || s.m.cos[l.cont].pc.Exited? then
        s.(lanes := s.lanes[w := l'], m := s.m.(fault := true))
      else
        var co := s.m.cos[l.cont];
        var pc := Resume(co.pc);
        s.(lanes := s.lanes[w := l'.(finished := l.finished || pc.Exited?)],
           m := s.m.(cos := s.m.cos[l.cont := Co(pc, co.req)]))
    case _ => s.(lanes := s.lanes[w := l'])
  }

  // ---------- whole runs ----------

  // A packet lands on the inbound ring; each packet is a token of its own.
  function ArrivalStep(s: Sys, b: nat): Sys
  {
    if b in s.h.place then s
    else s.(m := s.m.(inbound := s.m.inbound + [b]),
            h := s.h.(arrived := s.h.arrived + [b], place := s.h.place[b := InRing]))
  }

  function Step(s: Sys, a: Act): Sys
    requires Shape(s)
  {
    match a
    case Dispatcher(clock) => DispatcherStep(s, clock)
    case Worker(w) => if w < |s.lanes| then WorkerStep(s, w) else s
    case Arrival(b) => ArrivalStep(s, b)
  }

  lemma LaneSteps(s: Sys, clock: nat)
    requires Shape(s) && LanePc(s.d.pc)
    ensures Shape(DispatcherStep(s, clock)) && |DispatcherStep(s, clock).lanes| == |s.lanes|
  {
    hide Outstanding, FreeList, Take;
  }

  lemma NetSteps(s: Sys, clock: nat)
    requires Shape(s) && !LanePc(s.d.pc)
    ensures Shape(DispatcherStep(s, clock)) && |DispatcherStep(s, clock).lanes| == |s.lanes|
  {
    hide Outstanding, FreeList;
  }

  lemma ShapeKept(s: Sys, a: Act)
    requires Shape(s)
    ensures Shape(Step(s, a)) && |Step(s, a).lanes| == |s.lanes|
  {
    hide DispatcherStep;
    match a
    case Dispatcher(clock) =>
      if LanePc(s.d.pc) { LaneSteps(s, clock); } else { NetSteps(s, clock); }
    case Worker(w) =>
    case Arrival(b) =>
  }

  ghost function Run(s: Sys, acts: seq<Act>): (t: Sys)
    requires Shape(s)
    ensures Shape(t) && |t.lanes| == |s.lanes|
    decreases |acts|
  {
    if acts == [] then s
    else
      ShapeKept(s, acts[0]);
      Run(Step(s, acts[0]), acts[1..])
  }
}
