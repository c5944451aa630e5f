/** Coroutine contexts: a context block and a stack block, taken and given back together. */
module Contexts {
  import opened Mempools

  // Both pools and, per context, the stack its uc_stack points at.
  datatype CtxPools = CtxPools(ctx: Pool, stk: Pool, stackOf: map<Addr, Addr>)

  datatype Alloc = Granted(pools: CtxPools, cont: Addr) | NoContext | NoStack(rolledBack: CtxPools)

  // context_alloc: a context without a stack is put back.
  function ContextAlloc(c: CtxPools): (r: Alloc)
    requires c.ctx.inUse <= |c.ctx.items|
  {
    var (p, a) := Take(c.ctx);
    if a == NULL then NoContext
    else
      var (q, st) := Take(c.stk);
      if st == NULL then NoStack(c.(ctx := Give(p, a)))
      else Granted(CtxPools(p, q, c.stackOf[a := st]), a)
  }

  // context_free: the stack first, then the context.
  function ContextFree(c: CtxPools, a: Addr): CtxPools
    requires 0 < c.ctx.inUse <= |c.ctx.items| && 0 < c.stk.inUse <= |c.stk.items|
    requires a in c.stackOf
  {
    CtxPools(Give(c.ctx, a), Give(c.stk, c.stackOf[a]), c.stackOf)
  }

  /** The two pools in lockstep: same capacity, same count, and every context out
      owns a stack of its own. */
  ghost predicate CtxOk(c: CtxPools)
  {
    && PoolOk(c.ctx) && PoolOk(c.stk)
    && |c.ctx.items| == |c.stk.items| && c.ctx.inUse == c.stk.inUse
    && (forall a :: a in Outstanding(c.ctx) ==>
          a in c.stackOf && c.stackOf[a] in Outstanding(c.stk))
    && (forall a, b :: a in Outstanding(c.ctx) && b in Outstanding(c.ctx) && a != b ==>
          c.stackOf[a] != c.stackOf[b])
  }

  /** In lockstep the rollback is dead code: the allocation succeeds exactly when a
      context is free, and hands out a context and a stack nobody holds. */
  lemma ContextAllocEffect(c: CtxPools)
    requires CtxOk(c)
    ensures !ContextAlloc(c).NoStack?
    ensures ContextAlloc(c).Granted? <==> c.ctx.inUse < |c.ctx.items|
    ensures ContextAlloc(c).Granted? ==>
              var r := ContextAlloc(c);
              && CtxOk(r.pools)
              && r.cont != NULL && r.cont !in Outstanding(c.ctx)
              && Outstanding(r.pools.ctx) == Outstanding(c.ctx) + {r.cont}
              && |r.pools.ctx.items| == |c.ctx.items|
              && r.pools.stackOf[r.cont] !in Outstanding(c.stk)
              && Outstanding(r.pools.stk) == Outstanding(c.stk) + {r.pools.stackOf[r.cont]}
              && (forall a :: a in Outstanding(c.ctx) ==> r.pools.stackOf[a] == c.stackOf[a])
  {
    TakeEffect(c.ctx);
    TakeEffect(c.stk);
  }

  // Freeing a held context gives back that context and its own stack, and nothing else.
  lemma ContextFreeEffect(c: CtxPools, a: Addr)
    requires CtxOk(c) && a in Outstanding(c.ctx)
    ensures 0 < c.ctx.inUse && 0 < c.stk.inUse && CtxOk(ContextFree(c, a))
    ensures Outstanding(ContextFree(c, a).ctx) == Outstanding(c.ctx) - {a}
    ensures Outstanding(ContextFree(c, a).stk) == Outstanding(c.stk) - {c.stackOf[a]}
    ensures |ContextFree(c, a).ctx.items| == |c.ctx.items|
  {
    GiveEffect(c.ctx, a);
    GiveEffect(c.stk, c.stackOf[a]);
  }

  // The memory of the two pools and the stack address stored in each context.
  class ContextStore {
    const ctxPool: Mempool
    const stkPool: Mempool
    var stackOf: map<Addr, Addr>

    ghost predicate Valid()
      reads this, ctxPool, ctxPool.freeItems, stkPool, stkPool.freeItems
    {
      && ctxPool != stkPool && ctxPool.freeItems != stkPool.freeItems
      && ctxPool.Valid() && stkPool.Valid()
    }

    ghost function View(): CtxPools
      reads this, ctxPool, ctxPool.freeItems, stkPool, stkPool.freeItems
    {
      CtxPools(ctxPool.View(), stkPool.View(), stackOf)
    }

    constructor (ctxPool: Mempool, stkPool: Mempool)
      requires ctxPool != stkPool && ctxPool.freeItems != stkPool.freeItems
      requires ctxPool.Valid() && stkPool.Valid() && ctxPool.capacity == stkPool.capacity
      requires Outstanding(ctxPool.View()) == {} && Outstanding(stkPool.View()) == {}
      ensures this.ctxPool == ctxPool && this.stkPool == stkPool && Valid() && CtxOk(View())
      ensures Outstanding(View().ctx) == {}
    {
      this.ctxPool := ctxPool;
      this.stkPool := stkPool;
      stackOf := map[];
      new;
      OutstandingCount(ctxPool.View());
      OutstandingCount(stkPool.View());
    }

    method AllocContext() returns (r: int, cont: Addr)
      requires Valid()
      modifies this, ctxPool`inUse, stkPool`inUse, ctxPool.freeItems
      ensures Valid()
      ensures r == if ContextAlloc(old(View())).Granted? then 0 else -1
      // a failed call leaves both pools as they were
      ensures r == 0 ==> View() == ContextAlloc(old(View())).pools
                         && cont == ContextAlloc(old(View())).cont
      ensures r != 0 ==> View() == old(View())
    {
      hide PoolOk;
      TakeEffect(ctxPool.View());
      TakeEffect(stkPool.View());
      cont := ctxPool.Alloc();
      if cont == NULL {
        return -1, NULL;
      }
      var stack := stkPool.Alloc();
      if stack == NULL {
        ctxPool.Free(cont);
        return -1, NULL;
      }
      stackOf := stackOf[cont := stack];
      r := 0;
    }

    method FreeContext(c: Addr)
      requires Valid() && CtxOk(View()) && c in Outstanding(View().ctx)
      modifies this, ctxPool`inUse, stkPool`inUse, ctxPool.freeItems, stkPool.freeItems
      ensures Valid()
      ensures old(ctxPool.inUse > 0 && stkPool.inUse > 0 && c in stackOf)
              && View() == ContextFree(old(View()), c)
    {
      hide PoolOk;
      ContextFreeEffect(View(), c);
      stkPool.Free(stackOf[c]);
      ctxPool.Free(c);
    }
  }
}
