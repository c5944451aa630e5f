/** A run of the drain system worked out: requests served one at a time, 2^32 of them, and the
    stall at the end. */
module DrainScenarios {
  import opened Bits
  import opened Constants
  import opened PeerMask
  import opened Lrpc
  import opened LrpcRuns
  import opened Drain
  import opened LrpcEndpoints
  import opened DrainSystem

  lemma {:induction false} AfterThen(s: Sys, a: seq<Move>, b: seq<Move>)
    requires Shaped(s)
    ensures After(s, a + b) == After(After(s, a), b)
    decreases |a|
  {
    hide Next;
    if a == [] {
      assert a + b == b;
    } else {
      assert (a + b)[1..] == a[1..] + b;
      AfterThen(Next(s, a[0]), a[1..], b);
    }
  }

  lemma AfterOne(s: Sys, m: Move)
    requires Shaped(s)
    ensures After(s, [m]) == Next(s, m)
  {
    hide Next;
    assert [m][1..] == [];
    assert After(Next(s, m), []) == Next(s, m);
  }

  // What the errand for one peer leaves alone, and what is known throughout.
  ghost predicate Calm(s: Sys, p: nat, pushed: nat, taken: nat)
  {
    && SysOk(s) && p < |s.peers| && |s.accepted| == pushed && |s.sentTo| == taken
    && forall i :: 0 <= i < |s.peers| && i != p ==> HasBit(s.free, i)
  }

  // Nobody has anything to do.
  ghost predicate AtRest(s: Sys, k: nat)
  {
    && SysOk(s) && s.dpc.DispIdle? && |s.peers| > 0 && |s.accepted| == k && |s.sentTo| == k
    && forall i :: 0 <= i < |s.peers| ==> HasBit(s.free, i)
  }

  // ---------- the push ----------

  function SendLeft(pc: SendPc): nat
  {
    match pc
    case SendIdle => 0 case SendCmd => 1 case SendPayload => 2 case SendSlowPayload => 2 case SendLoad => 3
  }

  lemma SendMoves(c: Chan)
    requires Shape(c) && !c.spc.SendIdle?
    ensures SendLeft(SenderStep(c).spc) < SendLeft(c.spc)
  {
    hide Wrap32, And, ParityBit;
  }

  lemma PushMove(s: Sys, k: nat)
    requires s.dpc.Pushing? && Calm(s, s.dpc.peer, k + 1, k) && HasBit(s.free, s.dpc.peer)
    ensures Shaped(s)
    ensures var u := Next(s, Dispatch); var p := s.dpc.peer;
            if u.dpc.Pushing? then
              && u.dpc == s.dpc && Calm(u, p, k + 1, k) && HasBit(u.free, p)
              && SendLeft(u.peers[p].down.spc) < SendLeft(s.peers[p].down.spc)
            else u.dpc.Draining? && Calm(u, p, k + 1, k + 1) && !HasBit(u.free, p)
  {
    hide RingOk, PeerOk, Wrap32, And, HasBit, Share, Ctz, Xor, Pow2, SenderStep;
    NextKeeps(s, Dispatch);
    PushingFree(s);
    var p := s.dpc.peer;
    StoreOfPush(s.peers[p]);
    StillSending(s.peers[p]);
    SendMoves(s.peers[p].down);
    forall i: nat
      ensures HasBit(Xor(s.free, Pow2(p)), i) <==> HasBit(s.free, i) && i != p
    {
      XorBit(s.free, p, i);
    }
  }

  lemma StillSending(p: Peer)
    requires PeerOk(p, true, AtPush)
    ensures !p.down.spc.SendIdle?
  {
  }

  lemma {:induction false} PushOn(s: Sys, k: nat) returns (moves: seq<Move>)
    requires s.dpc.Pushing? && Calm(s, s.dpc.peer, k + 1, k) && HasBit(s.free, s.dpc.peer)
    ensures Shaped(s)
    ensures var u := After(s, moves); var p := s.dpc.peer;
            u.dpc.Draining? && Calm(u, p, k + 1, k + 1) && !HasBit(u.free, p)
    decreases SendLeft(s.peers[s.dpc.peer].down.spc)
  {
    hide SysOk, HasBit, Next, After, SendLeft;
    ShapedOf(s);
    PushMove(s, k);
    AfterOne(s, Dispatch);
    var u := Next(s, Dispatch);
    if u.dpc.Pushing? {
      var rest := PushOn(u, k);
      AfterThen(s, [Dispatch], rest);
      moves := [Dispatch] + rest;
    } else {
      moves := [Dispatch];
    }
  }

  // ---------- the worker ----------

  function WorkLeft(p: Peer): nat
  {
    match p.pc
    case Working(_) => 4
    case Notifying => SendLeft(p.up.spc)
    case Polling =>
      match p.down.rpc
      case RecvIdle => 7
      case RecvRead => 6
      case RecvPublish => 5
  }

  // Until its answer is out, a worker with a request gets on.
  lemma WorkerGetsOn(p: Peer)
    requires PeerOk(p, false, Elsewhere) && !PlaceOf(p).InIngress?
    ensures Shape(p.down) && Shape(p.up)
    ensures var q := WorkerMove(p, 0);
            PeerOk(q, false, Elsewhere) && (PlaceOf(q).InIngress? || WorkLeft(q) < WorkLeft(p))
  {
    hide Inv, Wrap32, And, ParityBit, HasDone;
    WorkerKeeps(p, 0, false, Elsewhere);
    match p.pc
    case Polling => ReceiverGetsOn(p.down);
    case Working(_) => BeginsSending(p.up);
    case Notifying => SendMoves(p.up);
  }

  lemma ReceiverGetsOn(c: Chan)
    requires Inv(c) && |c.received| < |c.sent|
    ensures var d := ReceiverStep(c);
            && (c.rpc.RecvIdle? ==> d.rpc.RecvRead?) && (c.rpc.RecvRead? ==> d.rpc.RecvPublish?)
            && (c.rpc.RecvPublish? ==> d.rpc.RecvIdle?)
  {
    hide And, Wrap32;
    if c.rpc.RecvIdle? { RecvFalseExact(c); }
  }

  lemma BeginsSending(c: Chan)
    requires Shape(c)
    ensures SendLeft(SendBegin(c, LRPC_TX, 0).spc) <= 3
  {
  }

  lemma WorkMove(s: Sys, p: nat, k: nat)
    requires s.dpc.DispIdle? && Calm(s, p, k, k) && !HasBit(s.free, p) && !PlaceOf(s.peers[p]).InIngress?
    ensures Shaped(s)
    ensures var u := Next(s, Work(p, 0));
            && u.dpc.DispIdle? && Calm(u, p, k, k) && !HasBit(u.free, p)
            && (PlaceOf(u.peers[p]).InIngress? || WorkLeft(u.peers[p]) < WorkLeft(s.peers[p]))
  {
    hide RingOk, PeerOk, HasBit, Share, Ctz, WorkerMove, WorkLeft, PlaceOf, QueueOk, SharesOk;
    NextKeeps(s, Work(p, 0));
    assert PeerOk(s.peers[p], HasBit(s.free, p), RoleOf(s.dpc, p));
    WorkerGetsOn(s.peers[p]);
  }

  lemma {:induction false} WorkOn(s: Sys, p: nat, k: nat) returns (moves: seq<Move>)
    requires s.dpc.DispIdle? && Calm(s, p, k, k) && !HasBit(s.free, p)
    ensures Shaped(s)
    ensures var u := After(s, moves);
            u.dpc.DispIdle? && Calm(u, p, k, k) && !HasBit(u.free, p) && PlaceOf(u.peers[p]).InIngress?
    decreases WorkLeft(s.peers[p])
  {
    hide SysOk, HasBit, Next, WorkLeft, PlaceOf;
    ShapedOf(s);
    if PlaceOf(s.peers[p]).InIngress? {
      moves := [];
    } else {
      WorkMove(s, p, k);
      AfterOne(s, Work(p, 0));
      var u := Next(s, Work(p, 0));
      if PlaceOf(u.peers[p]).InIngress? {
        moves := [Work(p, 0)];
      } else {
        var rest := WorkOn(u, p, k);
        AfterThen(s, [Work(p, 0)], rest);
        moves := [Work(p, 0)] + rest;
      }
    }
  }

  // ---------- the pop ----------

  lemma PopFinds(s: Sys, p: nat, k: nat)
    requires s.dpc.DispIdle? && Calm(s, p, k, k) && PlaceOf(s.peers[p]).InIngress?
    ensures Shaped(s)
    ensures var u := Next(s, BeginPop(p));
            u.dpc == Popping(p) && Calm(u, p, k, k) && u.peers[p].up.rpc.RecvRead?
  {
    hide RingOk, HasBit, Share, Ctz, QueueOk, SharesOk, ReceiverStep, Inv;
    NextKeeps(s, BeginPop(p));
    assert PeerOk(s.peers[p], HasBit(s.free, p), RoleOf(s.dpc, p));
    ReceiverGetsOn(s.peers[p].up);
  }

  lemma PopMoves(s: Sys, p: nat, k: nat)
    requires s.dpc == Popping(p) && Calm(s, p, k, k) && !s.peers[p].up.rpc.RecvIdle?
    ensures Shaped(s)
    ensures var u := Next(s, Dispatch);
            if s.peers[p].up.rpc.RecvRead? then
              u.dpc == Popping(p) && Calm(u, p, k, k) && u.peers[p].up.rpc.RecvPublish?
            else AtRest(u, k)
  {
    hide RingOk, HasBit, Share, Ctz, QueueOk, SharesOk, Or, Pow2, PeersOk;
    NextKeeps(s, Dispatch);
    forall i: nat
      ensures HasBit(Or(s.free, Pow2(p)), i) <==> HasBit(s.free, i) || i == p
    {
      OrBit(s.free, p, i);
    }
  }

  lemma PopAll(s: Sys, p: nat, k: nat) returns (moves: seq<Move>)
    requires s.dpc.DispIdle? && Calm(s, p, k, k) && PlaceOf(s.peers[p]).InIngress?
    ensures Shaped(s) && AtRest(After(s, moves), k)
  {
    hide SysOk, HasBit, Next, PlaceOf, After;
    ShapedOf(s);
    PopFinds(s, p, k);
    var a := Next(s, BeginPop(p));
    PopMoves(a, p, k);
    var b := Next(a, Dispatch);
    PopMoves(b, p, k);
    AfterOne(s, BeginPop(p));
    AfterOne(a, Dispatch);
    AfterOne(b, Dispatch);
    AfterThen(a, [Dispatch], [Dispatch]);
    AfterThen(s, [BeginPop(p)], [Dispatch] + [Dispatch]);
    moves := [BeginPop(p)] + ([Dispatch] + [Dispatch]);
  }

  // ---------- one request ----------

  lemma EnqueueOne(s: Sys, k: nat)
    requires AtRest(s, k)
    ensures Shaped(s)
    ensures var u := Next(s, Enqueue(0));
            && SysOk(u) && u.dpc.DispIdle? && u.peers == s.peers && u.free == s.free
            && |u.accepted| == k + 1 && u.sentTo == s.sentTo
  {
    hide RingOk, HasBit, Share, PeersOk, SharesOk, Wrap32, And;
    NextKeeps(s, Enqueue(0));
    FullExact(s.ring, s.head, s.tail, s.accepted, |s.sentTo|);
  }

  lemma StartPush(s: Sys, k: nat)
    requires SysOk(s) && s.dpc.Draining? && |s.accepted| == k + 1 && |s.sentTo| == k && k + 1 < WORD32
    requires |s.peers| > 0 && forall i :: 0 <= i < |s.peers| ==> HasBit(s.free, i)
    ensures Shaped(s)
    ensures var u := Next(s, Dispatch);
            u.dpc.Pushing? && Calm(u, u.dpc.peer, k + 1, k) && HasBit(u.free, u.dpc.peer)
  {
    hide RingOk, HasBit, Share, SharesOk, Wrap32, And, Ctz, SendBegin, PeerOk;
    NextKeeps(s, Dispatch);
    RingBounds(s.ring, s.head, s.tail, s.accepted, k);
    PendingExact(k, k + 1);
    SomePeer(s.free, 0);
    SomeBit(s.free);
  }

  lemma SomePeer(free: nat, i: nat)
    requires HasBit(free, i)
    ensures free > 0
  {
    if free == 0 { NoBits(i); }
  }

  lemma NothingLeft(s: Sys, p: nat, k: nat)
    requires s.dpc.Draining? && Calm(s, p, k, k)
    ensures Shaped(s)
    ensures var u := Next(s, Dispatch); u.dpc.DispIdle? && Calm(u, p, k, k) && u.free == s.free
  {
    hide RingOk, HasBit, Share, SharesOk, Wrap32, And, Ctz, SendBegin, PeerOk;
    NextKeeps(s, Dispatch);
    RingBounds(s.ring, s.head, s.tail, s.accepted, k);
    PendingExact(k, k);
  }

  /** One request enqueued, drained, worked on and answered, from rest to rest. */
  lemma OneCycle(s: Sys, k: nat) returns (moves: seq<Move>)
    requires AtRest(s, k) && k + 1 < WORD32
    ensures Shaped(s) && AtRest(After(s, moves), k + 1)
  {
    hide SysOk, HasBit, Next, PlaceOf, After;
    ShapedOf(s);
    EnqueueOne(s, k);
    var a := Next(s, Enqueue(0));
    var b := Next(a, BeginDrain);
    BeginsDraining(a);
    StartPush(b, k);
    var c := Next(b, Dispatch);
    var p := c.dpc.peer;
    var push := PushOn(c, k);
    var d := After(c, push);
    NothingLeft(d, p, k + 1);
    var e := Next(d, Dispatch);
    var work := WorkOn(e, p, k + 1);
    var f := After(e, work);
    var pop := PopAll(f, p, k + 1);
    AfterOne(s, Enqueue(0));
    AfterOne(a, BeginDrain);
    AfterOne(b, Dispatch);
    AfterOne(d, Dispatch);
    AfterThen(e, work, pop);
    AfterThen(d, [Dispatch], work + pop);
    AfterThen(c, push, [Dispatch] + (work + pop));
    AfterThen(b, [Dispatch], push + ([Dispatch] + (work + pop)));
    AfterThen(a, [BeginDrain], [Dispatch] + (push + ([Dispatch] + (work + pop))));
    AfterThen(s, [Enqueue(0)], [BeginDrain] + ([Dispatch] + (push + ([Dispatch] + (work + pop)))));
    moves := [Enqueue(0)] + ([BeginDrain] + ([Dispatch] + (push + ([Dispatch] + (work + pop)))));
  }

  lemma BeginsDraining(s: Sys)
    requires SysOk(s) && s.dpc.DispIdle?
    ensures Shaped(s) && SysOk(Next(s, BeginDrain)) && Next(s, BeginDrain) == s.(dpc := Draining)
  {
    hide QueueOk, PeersOk, SharesOk;
    NextKeeps(s, BeginDrain);
  }

  lemma {:induction false} Cycles(n: nat, k: nat) returns (moves: seq<Move>)
    requires n > 0 && k < WORD32
    ensures AtRest(After(Initial(n), moves), k)
  {
    hide SysOk, HasBit, Next, Initial;
    if k == 0 {
      moves := [];
      StartsAtRest(n);
    } else {
      var before := Cycles(n, k - 1);
      var s := After(Initial(n), before);
      var more := OneCycle(s, k - 1);
      AfterThen(Initial(n), before, more);
      moves := before + more;
    }
  }

  lemma StartsAtRest(n: nat)
    requires n > 0
    ensures AtRest(Initial(n), 0)
  {
    hide SysOk, HasBit, Pow2;
    InitialOk(n);
    var free := Initial(n).free;
    forall i: nat | i < n
      ensures HasBit(free, i)
    {
      AllFree(n, i);
    }
  }

  /** With any number of workers, a run of one request at a time reaches the stall: after 2^32 - 1
      requests served, the next one is never dispatched, and none after it. */
  lemma StallHappens(n: nat) returns (before: seq<Move>)
    requires n > 0
    ensures var s := After(Initial(n), before);
            && SysOk(s) && Crossed(|s.sentTo|, |s.accepted|) && |s.accepted| == |s.sentTo| + 1
            && forall moves :: After(s, moves).sentTo == s.sentTo
  {
    hide SysOk, HasBit, Next, Initial, After;
    var run := Cycles(n, 0xFFFF_FFFF);
    var s := After(Initial(n), run);
    EnqueueOne(s, 0xFFFF_FFFF);
    AfterOne(s, Enqueue(0));
    AfterThen(Initial(n), run, [Enqueue(0)]);
    before := run + [Enqueue(0)];
    var u := Next(s, Enqueue(0));
    AtTheWrap();
    forall moves
      ensures After(u, moves).sentTo == u.sentTo
    {
      WrapStallsForever(u, moves);
    }
  }

  lemma AtTheWrap()
    ensures Crossed(0xFFFF_FFFF, 0x1_0000_0000)
  {
  }
}
