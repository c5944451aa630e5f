/** Setting up the pools, and that the protocol's start is what it gives. */
module Startup {
  import opened Mempools
  import opened TaskQueues
  import opened Contexts
  import opened Protocol
  import opened ProtocolRuns

  const STACK_CAPACITY: nat := 768 * 1024
  const MCELL_CAPACITY: nat := 768 * 1024
  const STACK_SIZE: nat := 2048

  // What malloc returns for one pool: the buffer, NULL on failure, and whether there is a free list.
  datatype Grant = Grant(region: Addr, haveList: bool)

  predicate Granted(g: Grant)
  {
    g.region != NULL && g.haveList
  }

  // Element sizes whose pools an int can measure.
  predicate Measurable(size: nat)
  {
    0 < size && size * (768 * 1024) <= 0x7fff_ffff
  }

  /** taskqueue_init: the first pool that cannot be made ends it; otherwise queue nodes, contexts and
      stacks are equally many and all of them free. */
  method TaskqueueInit(tasks: Mempool, cells: Mempool, ctx: Mempool, stk: Mempool,
                       taskSize: nat, cellSize: nat, ctxSize: nat, g: seq<Grant>) returns (ret: int)
    requires |g| == 4 && Measurable(taskSize) && Measurable(cellSize) && Measurable(ctxSize)
    requires tasks != cells && tasks != ctx && tasks != stk && cells != ctx && cells != stk && ctx != stk
    modifies tasks, cells, ctx, stk
    ensures ret == 0 <==> forall i :: 0 <= i < 4 ==> Granted(g[i])
    ensures ret == 0 || ret == -1
    ensures ret == 0 ==>
              && tasks.View() == FreshPool(g[0].region, TASK_CAPACITY, taskSize)
              && ctx.View() == FreshPool(g[2].region, TASK_CAPACITY, ctxSize)
              && stk.View() == FreshPool(g[3].region, STACK_CAPACITY, STACK_SIZE)
              && tasks.Valid() && ctx.Valid() && stk.Valid()
              && tasks.capacity == ctx.capacity == stk.capacity == TASK_CAPACITY
  {
    hide FreshPool, PoolOk;
    ret := tasks.Create(TASK_CAPACITY, taskSize, g[0].region, g[0].haveList);
    if ret != 0 { return; }
    ret := cells.Create(MCELL_CAPACITY, cellSize, g[1].region, g[1].haveList);
    if ret != 0 { return; }
    ret := ctx.Create(TASK_CAPACITY, ctxSize, g[2].region, g[2].haveList);
    if ret != 0 { return; }
    ret := stk.Create(STACK_CAPACITY, STACK_SIZE, g[3].region, g[3].haveList);
  }

  /** Pools so made are a legal start of the protocol, for any number of workers and any set of slots
      made ready: as many queue nodes as contexts, contexts and stacks in lockstep. */
  lemma FreshPoolsStart(ctxRegion: Addr, ctxSize: nat, stkRegion: Addr, n: nat, ready: set<nat>)
    requires ctxRegion != NULL && ctxSize > 0 && stkRegion != NULL
    ensures var pools := CtxPools(FreshPool(ctxRegion, TASK_CAPACITY, ctxSize),
                                  FreshPool(stkRegion, STACK_CAPACITY, STACK_SIZE), map[]);
            var s := Init(n, ready, pools, TASK_CAPACITY);
            StartWith(s, n, ready, pools) && Start(s)
  {
    hide PoolOk, Outstanding, Init;
    var a, b := FreshPool(ctxRegion, TASK_CAPACITY, ctxSize), FreshPool(stkRegion, STACK_CAPACITY, STACK_SIZE);
    FreshPoolOk(ctxRegion, TASK_CAPACITY, ctxSize);
    FreshPoolOk(stkRegion, STACK_CAPACITY, STACK_SIZE);
    OutstandingCount(a);
    OutstandingCount(b);
    assert StartWith(Init(n, ready, CtxPools(a, b, map[]), TASK_CAPACITY), n, ready, CtxPools(a, b, map[]));
  }
}
