/** The preallocated pool of equal blocks: a stack of free addresses in one array. */
module Mempools {

  type Addr = nat
  const NULL: Addr := 0

  // What a pool holds: the blocks it carved, its free-list array, and how many are out.
  datatype Pool = Pool(blocks: set<Addr>, items: seq<Addr>, inUse: nat)

  ghost predicate Distinct(s: seq<Addr>)
  {
    forall i, j :: 0 <= i < j < |s| ==> s[i] != s[j]
  }

  function Elements(s: seq<Addr>): set<Addr>
  {
    set a | a in s
  }

  function FreeList(p: Pool): seq<Addr>
    requires p.inUse <= |p.items|
  {
    p.items[p.inUse..]
  }

  // The blocks handed out and not yet given back.
  function Outstanding(p: Pool): set<Addr>
    requires p.inUse <= |p.items|
  {
    set a | a in p.blocks && a !in FreeList(p)
  }

  ghost predicate PoolOk(p: Pool)
  {
    && p.inUse <= |p.items| == |p.blocks|
    && Distinct(FreeList(p))
    && (forall i :: p.inUse <= i < |p.items| ==> p.items[i] in p.blocks)
    && NULL !in p.blocks
  }

  // mempool_alloc
  function Take(p: Pool): (r: (Pool, Addr))
  {
    if p.inUse >= |p.items| then (p, NULL)
    else (p.(inUse := p.inUse + 1), p.items[p.inUse])
  }

  // mempool_free
  function Give(p: Pool, a: Addr): Pool
    requires 0 < p.inUse <= |p.items|
  {
    p.(items := p.items[p.inUse - 1 := a], inUse := p.inUse - 1)
  }

  // ---------- what one call does ----------

  lemma {:induction false} DistinctSize(s: seq<Addr>, t: set<Addr>)
    requires Distinct(s) && forall i :: 0 <= i < |s| ==> s[i] in t
    ensures |s| <= |t|
    ensures |s| == |t| ==> forall a :: a in t ==> a in s
  {
    if s != [] {
      var n := |s| - 1;
      var rest := t - {s[n]};
      DistinctSize(s[..n], rest);
      forall a | |s| == |t| && a in t
        ensures a in s
      {
        if a != s[n] { assert a in rest && a in s[..n]; }
      }
    }
  }

  lemma {:induction false} DistinctCount(s: seq<Addr>)
    requires Distinct(s)
    ensures |Elements(s)| == |s|
  {
    if s != [] {
      var n := |s| - 1;
      DistinctCount(s[..n]);
      assert Elements(s) == Elements(s[..n]) + {s[n]};
      assert s[n] !in s[..n];
    }
  }

  // The counter is the number of blocks out.
  lemma OutstandingCount(p: Pool)
    requires PoolOk(p)
    ensures |Outstanding(p)| == p.inUse
  {
    var free := FreeList(p);
    DistinctCount(free);
    assert Elements(free) <= p.blocks;
    assert Outstanding(p) == p.blocks - Elements(free);
  }

  /** Allocation fails exactly when every block is out; otherwise it hands out a
      block that was free, and that block alone changes hands. */
  lemma TakeEffect(p: Pool)
    requires PoolOk(p)
    ensures PoolOk(Take(p).0) && Take(p).0.blocks == p.blocks && |Take(p).0.items| == |p.items|
    ensures Take(p).1 == NULL <==> Outstanding(p) == p.blocks
    ensures Take(p).1 == NULL <==> p.inUse == |p.items|
    ensures Take(p).1 == NULL ==> Take(p).0 == p
    ensures Take(p).1 != NULL ==>
              && Take(p).1 in p.blocks && Take(p).1 !in Outstanding(p)
              && Outstanding(Take(p).0) == Outstanding(p) + {Take(p).1}
              && Take(p).0.inUse == p.inUse + 1
  {
    if p.inUse < |p.items| {
      var a := p.items[p.inUse];
      assert a == FreeList(p)[0];
      assert FreeList(p) == [a] + FreeList(Take(p).0);
    }
  }

  /** Giving back an outstanding block frees that block alone. */
  lemma GiveEffect(p: Pool, a: Addr)
    requires PoolOk(p) && a in Outstanding(p)
    ensures p.inUse > 0 && PoolOk(Give(p, a))
    ensures Give(p, a).blocks == p.blocks && |Give(p, a).items| == |p.items|
    ensures Outstanding(Give(p, a)) == Outstanding(p) - {a}
  {
    OutstandingCount(p);
    assert p.inUse != 0;
    assert FreeList(Give(p, a)) == [a] + FreeList(p);
  }

  // ---------- whole histories ----------

  datatype PoolOp = DoTake | DoGive(addr: Addr)

  predicate Legal(p: Pool, op: PoolOp)
    requires p.inUse <= |p.items|
  {
    op.DoGive? ==> op.addr in Outstanding(p)
  }

  ghost function Apply(p: Pool, op: PoolOp): (q: Pool)
    requires PoolOk(p) && Legal(p, op)
    ensures PoolOk(q) && q.blocks == p.blocks
  {
    match op
    case DoTake => TakeEffect(p); Take(p).0
    case DoGive(a) => GiveEffect(p, a); Give(p, a)
  }

  ghost predicate LegalRun(p: Pool, ops: seq<PoolOp>)
    requires PoolOk(p)
    decreases |ops|
  {
    ops == [] || (Legal(p, ops[0]) && LegalRun(Apply(p, ops[0]), ops[1..]))
  }

  ghost function Replay(p: Pool, ops: seq<PoolOp>): (q: Pool)
    requires PoolOk(p) && LegalRun(p, ops)
    ensures PoolOk(q) && q.blocks == p.blocks
    decreases |ops|
  {
    if ops == [] then p else Replay(Apply(p, ops[0]), ops[1..])
  }

  // The blocks a run still owes, kept without looking at the pool: handed out minus given back.
  ghost function Owed(p: Pool, ops: seq<PoolOp>, out: set<Addr>): set<Addr>
    requires PoolOk(p) && LegalRun(p, ops)
    decreases |ops|
  {
    if ops == [] then out
    else
      var op := ops[0];
      var out' := if op.DoGive? then out - {op.addr}
                  else if Take(p).1 == NULL then out else out + {Take(p).1};
      Owed(Apply(p, op), ops[1..], out')
  }

  /** Over every legal history of a fresh pool, the blocks the callers hold and the free list
      partition the carved blocks, and a block in someone's hands is never handed out again. */
  lemma {:induction false} HistoryPartitions(p: Pool, ops: seq<PoolOp>)
    requires PoolOk(p) && LegalRun(p, ops)
    ensures var q := Replay(p, ops);
            var held := Owed(p, ops, Outstanding(p));
            && held == Outstanding(q)
            && held + Elements(FreeList(q)) == p.blocks
            && held !! Elements(FreeList(q))
            && |held| == q.inUse
            && Take(q).1 !in held
    decreases |ops|
  {
    if ops == [] {
      TakeEffect(p);
      OutstandingCount(p);
      assert Outstanding(p) + Elements(FreeList(p)) == p.blocks;
    } else {
      match ops[0] {
        case DoTake => TakeEffect(p);
        case DoGive(a) => GiveEffect(p, a);
      }
      HistoryPartitions(Apply(p, ops[0]), ops[1..]);
    }
  }

  // ---------- carving ----------

  function Carved(buf: Addr, n: nat, itemLen: nat): seq<Addr>
  {
    seq(n, i requires 0 <= i => buf + i * itemLen)
  }

  // Distinct blocks of a carved buffer do not overlap, and all lie inside it.
  lemma CarvedBlocks(buf: Addr, n: nat, itemLen: nat)
    requires itemLen > 0 && buf != NULL
    ensures Distinct(Carved(buf, n, itemLen))
    ensures forall i :: 0 <= i < n ==>
              buf <= Carved(buf, n, itemLen)[i] && Carved(buf, n, itemLen)[i] + itemLen <= buf + n * itemLen
    ensures forall i, j :: 0 <= i < j < n ==>
              Carved(buf, n, itemLen)[i] + itemLen <= Carved(buf, n, itemLen)[j]
  {
    forall i | 0 <= i < n
      ensures buf <= Carved(buf, n, itemLen)[i] && Carved(buf, n, itemLen)[i] + itemLen <= buf + n * itemLen
    {
      StepsApart(i, n, itemLen);
    }
    forall i, j | 0 <= i < j < n
      ensures Carved(buf, n, itemLen)[i] + itemLen <= Carved(buf, n, itemLen)[j]
    {
      StepsApart(i, j, itemLen);
    }
  }

  lemma StepsApart(i: nat, j: nat, d: nat)
    requires i < j
    ensures i * d + d <= j * d
  {
    assert (j - i - 1) * d >= 0;
    assert j * d == i * d + d + (j - i - 1) * d;
  }

  // The pool that mempool_create leaves behind.
  function FreshPool(buf: Addr, n: nat, itemLen: nat): Pool
  {
    Pool(Elements(Carved(buf, n, itemLen)), Carved(buf, n, itemLen), 0)
  }

  lemma FreshPoolOk(buf: Addr, n: nat, itemLen: nat)
    requires itemLen > 0 && buf != NULL
    ensures PoolOk(FreshPool(buf, n, itemLen))
    ensures Outstanding(FreshPool(buf, n, itemLen)) == {}
  {
    CarvedBlocks(buf, n, itemLen);
    DistinctCount(Carved(buf, n, itemLen));
    var p := FreshPool(buf, n, itemLen);
    assert FreeList(p) == p.items;
  }

  // ---------- the object ----------

  class Mempool {
    var freeItems: array<Addr>
    var inUse: nat
    var capacity: nat
    var buf: Addr
    var len: nat
    var itemLen: nat
    ghost var blocks: set<Addr>

    ghost function View(): Pool
      reads this, freeItems
    {
      Pool(blocks, freeItems[..], inUse)
    }

    ghost predicate Valid()
      reads this, freeItems
    {
      PoolOk(View()) && capacity == freeItems.Length
    }

    // A zeroed struct, before mempool_create.
    constructor ()
      ensures fresh(freeItems) && Valid() && capacity == 0
    {
      freeItems := new Addr[0];
      inUse, capacity, buf, len, itemLen := 0, 0, NULL, 0, 0;
      blocks := {};
    }

    /** mempool_create.  `region` is the buffer malloc returned (NULL when it failed) and
        `haveList` says whether the free-list array could be allocated. */
    method Create(nElements: int, elementSize: int, region: Addr, haveList: bool) returns (r: int)
      requires nElements > 0 && elementSize > 0 ==> nElements * elementSize <= 0x7fff_ffff
      modifies this
      ensures r == 0 <==> nElements > 0 && elementSize > 0 && region != NULL && haveList
      ensures r == 0 || r == -1
      ensures r == 0 ==> Valid() && fresh(freeItems) && capacity == nElements
                         && View() == FreshPool(region, nElements, elementSize)
    {
      if nElements <= 0 || elementSize <= 0 {
        return -1;
      }
      len := nElements * elementSize;
      itemLen := elementSize;
      buf := region;
      if buf == NULL {
        return -1;
      }
      var numItems := len / elementSize;
      ExactQuotient(nElements, elementSize);
      if !haveList {
        return -1;
      }
      freeItems := new Addr[numItems];
      inUse := 0;
      capacity := numItems;
      var p := buf;
      for i := 0 to numItems
        invariant fresh(freeItems) && freeItems.Length == numItems
        invariant inUse == 0 && capacity == numItems
        invariant p == region + i * elementSize
        invariant forall k :: 0 <= k < i ==> freeItems[k] == region + k * elementSize
      {
        freeItems[i] := p;
        p := p + elementSize;
      }
      blocks := Elements(Carved(region, numItems, elementSize));
      assert freeItems[..] == Carved(region, numItems, elementSize);
      FreshPoolOk(region, numItems, elementSize);
      r := 0;
    }

    method Alloc() returns (item: Addr)
      requires Valid()
      modifies this`inUse
      ensures Valid() && View() == Take(old(View())).0 && item == Take(old(View())).1
    {
      TakeEffect(View());
      if inUse >= capacity {
        return NULL;
      }
      item := freeItems[inUse];
      inUse := inUse + 1;
    }

    // The caller returns a block it was given; the assertion of the source then holds.
    method Free(item: Addr)
      requires Valid() && item in Outstanding(View())
      modifies this`inUse, freeItems
      ensures Valid() && old(inUse) > 0 && View() == Give(old(View()), item)
      ensures inUse <= capacity
    {
      GiveEffect(View(), item);
      inUse := inUse - 1;
      freeItems[inUse] := item;
    }
  }

  lemma ExactQuotient(n: nat, d: nat)
    requires d > 0
    ensures n * d / d == n
  {
    var q := n * d / d;
    assert n * d == q * d + n * d % d;
    if q < n { StepsApart(q, n, d); }
    if n < q { StepsApart(n, q, d); }
  }
}
