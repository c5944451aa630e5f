/** The FIFO of runnable tasks: nodes from a fixed pool, linked by address. */
module TaskQueues {
  import opened Mempools

  const PACKET: nat := 1
  const CONTEXT: nat := 2
  // TASK_CAPACITY and STACK_CAPACITY
  const TASK_CAPACITY: nat := 768 * 1024

  datatype Task = Task(rnbl: Addr, mbuf: nat, typ: nat, category: nat, timestamp: nat)

  // One struct task in memory.
  datatype Cell = Cell(task: Task, next: Addr)

  // The queue after tskq_enqueue_tail: a full node pool drops the task silently.
  function Enqueued(q: seq<Task>, capacity: nat, t: Task): seq<Task>
  {
    if |q| < capacity then q + [t] else q
  }

  // ---------- linked chains in memory ----------

  /** `chain` lists, in order, the distinct nodes reached from head through next, ending at tail. */
  ghost predicate Linked(mem: map<Addr, Cell>, head: Addr, tail: Addr, chain: seq<Addr>)
  {
    && Distinct(chain)
    && (forall i :: 0 <= i < |chain| ==> chain[i] in mem && chain[i] != NULL)
    && (forall i :: 0 <= i < |chain| - 1 ==> mem[chain[i]].next == chain[i + 1])
    && (if chain == [] then head == NULL && tail == NULL
        else head == chain[0] && tail == chain[|chain| - 1] && mem[tail].next == NULL)
  }

  ghost function Tasks(mem: map<Addr, Cell>, chain: seq<Addr>): (q: seq<Task>)
    requires forall i :: 0 <= i < |chain| ==> chain[i] in mem
    ensures |q| == |chain|
  {
    seq(|chain|, i requires 0 <= i < |chain| => mem[chain[i]].task)
  }

  // The memory after a node is linked behind the tail, and in front of the head.
  function LinkedBehind(mem: map<Addr, Cell>, tail: Addr, node: Addr, t: Task): map<Addr, Cell>
    requires tail in mem
  {
    mem[node := Cell(t, NULL)][tail := mem[tail].(next := node)]
  }

  lemma LinkedEnds(mem: map<Addr, Cell>, head: Addr, tail: Addr, chain: seq<Addr>)
    requires Linked(mem, head, tail, chain)
    ensures Distinct(chain) && (forall i :: 0 <= i < |chain| ==> chain[i] in mem)
    ensures head == NULL <==> chain == []
    ensures chain == [] ==> tail == NULL
    ensures chain != [] ==> head == chain[0] && head in mem && tail in mem && tail in chain
  {
    assert chain != [] ==> chain[0] != NULL;
  }

  lemma AppendNode(mem: map<Addr, Cell>, head: Addr, tail: Addr, chain: seq<Addr>, node: Addr, t: Task)
    requires Linked(mem, head, tail, chain) && chain != [] && node != NULL && node !in chain
    ensures var mem' := LinkedBehind(mem, tail, node, t);
            && Linked(mem', head, node, chain + [node])
            && Tasks(mem', chain + [node]) == Tasks(mem, chain) + [t]
  {
  }

  lemma PrependNode(mem: map<Addr, Cell>, head: Addr, tail: Addr, chain: seq<Addr>, node: Addr, t: Task)
    requires Linked(mem, head, tail, chain) && node != NULL && node !in chain
    ensures var mem' := mem[node := Cell(t, head)];
            && Linked(mem', node, if chain == [] then node else tail, [node] + chain)
            && Tasks(mem', [node] + chain) == [t] + Tasks(mem, chain)
  {
  }

  lemma DropNode(mem: map<Addr, Cell>, head: Addr, tail: Addr, chain: seq<Addr>)
    requires Linked(mem, head, tail, chain) && chain != []
    ensures head in mem && mem[head].task == Tasks(mem, chain)[0]
    ensures var head' := mem[head].next;
            && (head' == NULL <==> |chain| == 1)
            && Linked(mem, head', if head' == NULL then NULL else tail, chain[1..])
            && Tasks(mem, chain[1..]) == Tasks(mem, chain)[1..]
  {
    assert |chain| > 1 ==> mem[chain[0]].next == chain[1];
  }

  class TaskQueue {
    const pool: Mempool
    var mem: map<Addr, Cell>
    var head: Addr
    var tail: Addr
    ghost var chain: seq<Addr>

    /** The nodes of the chain are exactly the pool's outstanding blocks. */
    ghost predicate Valid()
      reads this, pool, pool.freeItems
    {
      && pool.Valid()
      && Linked(mem, head, tail, chain)
      && Elements(chain) == Outstanding(pool.View())
    }

    ghost function Contents(): (q: seq<Task>)
      requires Valid()
      reads this, pool, pool.freeItems
    {
      Tasks(mem, chain)
    }

    constructor (pool: Mempool)
      requires pool.Valid() && Outstanding(pool.View()) == {}
      ensures this.pool == pool && Valid() && Contents() == []
    {
      this.pool := pool;
      mem := map[];
      head, tail := NULL, NULL;
      chain := [];
      new;
    }

    // One node per queued task, so the queue never outgrows the pool.
    lemma NodeCount()
      requires Valid()
      ensures |Contents()| == |chain| == pool.inUse <= pool.capacity
    {
      LinkedEnds(mem, head, tail, chain);
      DistinctCount(chain);
      OutstandingCount(pool.View());
    }

    method EnqueueTail(t: Task)
      requires Valid()
      modifies this, pool`inUse
      ensures Valid()
      ensures Contents() == Enqueued(old(Contents()), pool.capacity, t)
    {
      hide Linked, Tasks, PoolOk;
      LinkedEnds(mem, head, tail, chain);
      NodeCount();
      TakeEffect(pool.View());
      var tsk := pool.Alloc();
      if tsk == NULL {
        return;
      }
      assert Elements(chain + [tsk]) == Elements(chain) + {tsk};
      assert tsk !in Elements(chain);
      if head != NULL {
        AppendNode(mem, head, tail, chain, tsk, t);
        mem := mem[tsk := Cell(t, NULL)];
        mem := mem[tail := mem[tail].(next := tsk)];
        tail := tsk;
      } else {
        PrependNode(mem, head, tail, chain, tsk, t);
        assert Tasks(mem, chain) == [];
        assert chain + [tsk] == [tsk] + chain;
        head := tsk;
        tail := tsk;
        mem := mem[tsk := Cell(t, NULL)];
      }
      chain := chain + [tsk];
    }

    // The source stores to the node without a test: with none free that is a store through null.
    method EnqueueHead(t: Task) returns (stored: bool)
      requires Valid()
      modifies this, pool`inUse
      ensures Valid()
      ensures stored <==> |old(Contents())| < pool.capacity
      ensures Contents() == if stored then [t] + old(Contents()) else old(Contents())
    {
      hide Linked, Tasks, PoolOk;
      LinkedEnds(mem, head, tail, chain);
      NodeCount();
      TakeEffect(pool.View());
      var tsk := pool.Alloc();
      if tsk == NULL {
        return false;
      }
      stored := true;
      assert Elements([tsk] + chain) == Elements(chain) + {tsk};
      assert tsk !in Elements(chain);
      PrependNode(mem, head, tail, chain, tsk, t);
      if head != NULL {
        var tmp := head;
        head := tsk;
        mem := mem[tsk := Cell(t, tmp)];
      } else {
        head := tsk;
        tail := tsk;
        mem := mem[tsk := Cell(t, NULL)];
      }
      chain := [tsk] + chain;
    }

    method Dequeue() returns (r: int, t: Task)
      requires Valid()
      modifies this, pool`inUse, pool.freeItems
      ensures Valid()
      ensures r == if old(Contents()) == [] then -1 else 0
      ensures r == -1 ==> Contents() == []
      ensures r == 0 ==> t == old(Contents())[0] && Contents() == old(Contents())[1..]
    {
      hide Linked, Tasks, PoolOk;
      LinkedEnds(mem, head, tail, chain);
      t := Task(NULL, 0, 0, 0, 0);
      if head == NULL {
        return -1, t;
      }
      DropNode(mem, head, tail, chain);
      t := mem[head].task;
      var tsk := head;
      head := mem[head].next;
      assert tsk in Elements(chain);
      GiveEffect(pool.View(), tsk);
      pool.Free(tsk);
      if head == NULL {
        tail := NULL;
      }
      assert Elements(chain[1..]) == Elements(chain) - {tsk};
      chain := chain[1..];
      r := 0;
    }
  }
}
