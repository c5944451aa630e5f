/** The dispatcher draining its ring over LRPC channels to n workers that answer over channels of
    their own, all interleaving at the single loads and stores of module Lrpc. */
module DrainSystem {
  import opened Bits
  import opened Constants
  import opened PeerMask
  import opened Lrpc
  import opened LrpcRuns
  import opened Drain
  import opened LrpcEndpoints

  const LRPC_Q_LEN: nat := 4096

  datatype DispPc =
    | DispIdle
    | Draining                        // at the test of the drain loop
    | Pushing(peer: nat, req: nat)    // inside a push to one peer
    | Popping(peer: nat)              // inside a pop that found a notification

  datatype WorkPc = Polling | Working(req: nat) | Notifying

  datatype Peer = Peer(down: Chan, up: Chan, pc: WorkPc)

  /** `accepted` is what the ring ever took, `sentTo` the peer each dispatched request went to. */
  datatype Sys = Sys(dpc: DispPc, free: nat, ring: seq<nat>, head: nat, tail: nat, peers: seq<Peer>,
                     accepted: seq<nat>, sentTo: seq<nat>)

  datatype Move =
    | Enqueue(req: nat)
    | BeginDrain
    | BeginPop(peer: nat)
    | Dispatch
    | Work(peer: nat, notif: nat)

  predicate Shaped(s: Sys)
  {
    && |s.ring| == RQUEUE_LEN
    && (forall i :: 0 <= i < |s.peers| ==> Shape(s.peers[i].down) && Shape(s.peers[i].up))
    && (s.dpc.Pushing? || s.dpc.Popping? ==> s.dpc.peer < |s.peers|)
  }

  // ---------- the steps ----------

  // push_to_rqueue
  function EnqueueStep(s: Sys, req: nat): Sys
    requires Shaped(s)
  {
    var at := And(s.head, RQUEUE_LEN - 1);
    if !s.dpc.DispIdle? || Wrap32(s.head - s.tail) == RQUEUE_LEN then s
    else s.(ring := s.ring[at := req], head := Wrap32(s.head + 1), accepted := s.accepted + [req])
  }

  // The loop test of drain_queue and, when it holds, entering the push.
  function DrainStep(s: Sys): Sys
    requires Shaped(s) && s.dpc.Draining?
  {
    if s.head > s.tail && s.free > 0 && Ctz(s.free) < |s.peers| then
      var p := Ctz(s.free);
      var req := s.ring[And(s.tail, RQUEUE_LEN - 1)];
      s.(dpc := Pushing(p, req),
         peers := s.peers[p := s.peers[p].(down := SendBegin(s.peers[p].down, LRPC_TX, req))])
    else s.(dpc := DispIdle)
  }

  // One store of the push; after the last one the bookkeeping of a successful push.
  function PushStep(s: Sys): Sys
    requires Shaped(s) && s.dpc.Pushing?
  {
    var p := s.dpc.peer;
    var d := s.peers[p].down;
    var t := s.(peers := s.peers[p := s.peers[p].(down := SenderStep(d))]);
    if !SenderStep(d).spc.SendIdle? then t
    else if d.spc.SendCmd? then
      t.(dpc := Draining, tail := Wrap32(s.tail + 1), free := Xor(s.free, Pow2(p)), sentTo := s.sentTo + [p])
    else t.(dpc := Draining)
  }

  // Looking for a notification.
  function PopBegin(s: Sys, i: nat): Sys
    requires Shaped(s)
  {
    if !s.dpc.DispIdle? || i >= |s.peers| then s
    else
      var u := ReceiverStep(s.peers[i].up);
      s.(peers := s.peers[i := s.peers[i].(up := u)], dpc := if u.rpc.RecvIdle? then DispIdle else Popping(i))
  }

  // The rest of the pop, ending in signal_free_worker.
  function PopStep(s: Sys): Sys
    requires Shaped(s) && s.dpc.Popping?
  {
    var i := s.dpc.peer;
    var u := ReceiverStep(s.peers[i].up);
    var t := s.(peers := s.peers[i := s.peers[i].(up := u)]);
    if u.rpc.RecvIdle? then t.(dpc := DispIdle, free := Or(s.free, Pow2(i))) else t
  }

  // A worker: app_dequeue, then app_work with its notification.
  function WorkerMove(p: Peer, notif: nat): Peer
    requires Shape(p.down) && Shape(p.up)
  {
    match p.pc
    case Polling =>
      var d := ReceiverStep(p.down);
      p.(down := d, pc := if p.down.rpc.RecvPublish? then Working(p.down.got.payload) else Polling)
    case Working(_) => p.(up := SendBegin(p.up, LRPC_TX, notif), pc := Notifying)
    case Notifying =>
      var u := SenderStep(p.up);
      p.(up := u, pc := if u.spc.SendIdle? then Polling else Notifying)
  }

  function Next(s: Sys, m: Move): (t: Sys)
    requires Shaped(s)
    ensures Shaped(t) && |t.peers| == |s.peers|
  {
    match m
    case Enqueue(req) => EnqueueStep(s, req)
    case BeginDrain => if s.dpc.DispIdle? then s.(dpc := Draining) else s
    case BeginPop(i) => PopBegin(s, i)
    case Dispatch =>
      (match s.dpc
       case DispIdle => s
       case Draining => DrainStep(s)
       case Pushing(_, _) => PushStep(s)
       case Popping(_) => PopStep(s))
    case Work(i, notif) =>
      if i >= |s.peers| then s else s.(peers := s.peers[i := WorkerMove(s.peers[i], notif)])
  }

  function After(s: Sys, moves: seq<Move>): (t: Sys)
    requires Shaped(s)
    ensures Shaped(t) && |t.peers| == |s.peers|
    decreases |moves|
  {
    if moves == [] then s else After(Next(s, moves[0]), moves[1..])
  }

  function NewChan(): Chan
  {
    Chan(LRPC_Q_LEN, seq(LRPC_Q_LEN, _ => Msg(0, 0)), 0, 0, 0, SendIdle, Msg(0, 0), 0, 0,
         0, RecvIdle, 0, Msg(0, 0), [], [])
  }

  function Initial(n: nat): (s: Sys)
    ensures Shaped(s) && |s.peers| == n
  {
    Sys(DispIdle, Pow2(n) - 1, seq(RQUEUE_LEN, _ => 0), 0, 0,
        seq(n, _ => Peer(NewChan(), NewChan(), Polling)), [], [])
  }

  // ---------- the invariant ----------

  datatype Role = Elsewhere | AtPush | AtPop

  function RoleOf(dpc: DispPc, i: nat): Role
  {
    if dpc.Pushing? && dpc.peer == i then AtPush
    else if dpc.Popping? && dpc.peer == i then AtPop
    else Elsewhere
  }

  /** One peer.  Of the requests sent to it, those taken, those answered and those whose answer was
      read differ by at most one in all; it is free exactly when they agree. */
  ghost predicate PeerOk(p: Peer, free: bool, role: Role)
  {
    && Inv(p.down) && Inv(p.up) && p.down.size == LRPC_Q_LEN && p.up.size == LRPC_Q_LEN
    && |p.up.received| <= |p.up.sent| <= |p.down.received| <= |p.down.sent| <= |p.up.received| + 1
    && (free <==> |p.down.sent| == |p.up.received|)
    && (p.pc.Polling? <==> |p.down.received| == |p.up.sent|)
    && (role.AtPush? <==> !p.down.spc.SendIdle?)
    && (role.AtPush? ==> free)
    && (role.AtPop? <==> !p.up.rpc.RecvIdle?)
    && (p.pc.Notifying? <==> !p.up.spc.SendIdle?)
    && (!p.pc.Polling? ==> p.down.rpc.RecvIdle?)
    && (p.pc.Working? ==> p.down.received != [] && p.pc.req == p.down.received[|p.down.received| - 1].payload)
  }

  // The requests that went to peer i, in order.
  function Share(reqs: seq<nat>, to: seq<nat>, i: nat): seq<Msg>
    requires |to| <= |reqs|
  {
    if to == [] then []
    else
      var n := |to| - 1;
      Share(reqs, to[..n], i) + (if to[n] == i then [Msg(LRPC_TX, reqs[n])] else [])
  }

  ghost predicate QueueOk(s: Sys)
  {
    && RingOk(s.ring, s.head, s.tail, s.accepted, |s.sentTo|)
    && |s.sentTo| <= |s.accepted|
    && (s.dpc.Pushing? ==>
          && s.free > 0 && s.dpc.peer == Ctz(s.free) && s.dpc.peer < |s.peers|
          && |s.sentTo| < |s.accepted| && s.dpc.req == s.accepted[|s.sentTo|]
          && s.peers[s.dpc.peer].down.msg == Msg(LRPC_TX, s.dpc.req))
  }

  ghost predicate PeersOk(s: Sys)
  {
    && (forall k: nat :: HasBit(s.free, k) ==> k < |s.peers|)
    && (forall i :: 0 <= i < |s.peers| ==> PeerOk(s.peers[i], HasBit(s.free, i), RoleOf(s.dpc, i)))
  }

  ghost predicate SharesOk(s: Sys)
  {
    |s.sentTo| <= |s.accepted| &&
    forall i :: 0 <= i < |s.peers| ==> s.peers[i].down.sent == Share(s.accepted, s.sentTo, i)
  }

  ghost predicate SysOk(s: Sys)
  {
    Shaped(s) && QueueOk(s) && PeersOk(s) && SharesOk(s)
  }

  // ---------- one peer's steps ----------

  lemma CmdOk()
    ensures LRPC_TX < WORD64 && !HasDone(LRPC_TX)
  {
  }

  lemma BeginPush(p: Peer, req: nat)
    requires PeerOk(p, true, Elsewhere)
    ensures PeerOk(p.(down := SendBegin(p.down, LRPC_TX, req)), true, AtPush)
    ensures SendBegin(p.down, LRPC_TX, req).sent == p.down.sent
    ensures SendBegin(p.down, LRPC_TX, req).msg == Msg(LRPC_TX, req)
  {
    hide Inv, Wrap32, And;
    CmdOk();
    ShapeOf(p.down);
    BeginKeeps(p.down, LRPC_TX, req);
  }

  /** No push is ever refused: the slow path finds room, because nothing is unread. */
  lemma StoreOfPush(p: Peer)
    requires PeerOk(p, true, AtPush)
    ensures Shape(p.down)
    ensures var d := SenderStep(p.down);
            && d.msg == p.down.msg
            && (d.spc.SendIdle? <==> p.down.spc.SendCmd?)
            && (d.spc.SendIdle? ==> PeerOk(p.(down := d), false, Elsewhere) && d.sent == p.down.sent + [p.down.msg])
            && (!d.spc.SendIdle? ==> PeerOk(p.(down := d), true, AtPush) && d.sent == p.down.sent)
  {
    hide Inv, Wrap32, And, ParityBit;
    ShapeOf(p.down);
    SenderKeeps(p.down);
    if p.down.spc.SendLoad? { SendFalseExact(p.down); }
  }

  lemma FindNotif(p: Peer, free: bool)
    requires PeerOk(p, free, Elsewhere)
    ensures Shape(p.up)
    ensures var u := ReceiverStep(p.up);
            PeerOk(p.(up := u), free, if u.rpc.RecvIdle? then Elsewhere else AtPop)
  {
    hide Inv, Wrap32, And, ParityBit, HasDone;
    ShapeOf(p.up);
    ReceiverKeeps(p.up);
  }

  lemma ReadNotif(p: Peer, free: bool)
    requires PeerOk(p, free, AtPop)
    ensures Shape(p.up) && !free
    ensures var u := ReceiverStep(p.up);
            && (u.rpc.RecvIdle? ==> PeerOk(p.(up := u), true, Elsewhere))
            && (!u.rpc.RecvIdle? ==> PeerOk(p.(up := u), false, AtPop))
  {
    hide Wrap32, And, ParityBit, HasDone, TableOk, CountersOk, SenderOk;
    ReceiverKeeps(p.up);
  }

  lemma WorkerKeeps(p: Peer, notif: nat, free: bool, role: Role)
    requires PeerOk(p, free, role)
    ensures Shape(p.down) && Shape(p.up)
    ensures var q := WorkerMove(p, notif);
            PeerOk(q, free, role) && q.down.sent == p.down.sent && q.down.msg == p.down.msg
  {
    ShapeOf(p.down);
    ShapeOf(p.up);
    match p.pc
    case Polling => WorkerReceives(p, notif, free, role);
    case Working(_) => WorkerBegins(p, notif, free, role);
    case Notifying => WorkerStores(p, notif, free, role);
  }

  lemma WorkerReceives(p: Peer, notif: nat, free: bool, role: Role)
    requires PeerOk(p, free, role) && p.pc.Polling? && Shape(p.down) && Shape(p.up)
    ensures var q := WorkerMove(p, notif);
            PeerOk(q, free, role) && q.down.sent == p.down.sent && q.down.msg == p.down.msg
  {
    hide Wrap32, And, ParityBit, HasDone, TableOk, CountersOk, SenderOk;
    ReceiverKeeps(p.down);
  }

  lemma WorkerBegins(p: Peer, notif: nat, free: bool, role: Role)
    requires PeerOk(p, free, role) && p.pc.Working? && Shape(p.down) && Shape(p.up)
    ensures var q := WorkerMove(p, notif);
            PeerOk(q, free, role) && q.down.sent == p.down.sent && q.down.msg == p.down.msg
  {
    hide Inv, Wrap32, And;
    CmdOk();
    BeginKeeps(p.up, LRPC_TX, notif);
  }

  lemma WorkerStores(p: Peer, notif: nat, free: bool, role: Role)
    requires PeerOk(p, free, role) && p.pc.Notifying? && Shape(p.down) && Shape(p.up)
    ensures var q := WorkerMove(p, notif);
            PeerOk(q, free, role) && q.down.sent == p.down.sent && q.down.msg == p.down.msg
  {
    hide Inv, Wrap32, And, ParityBit;
    SenderKeeps(p.up);
    if p.up.spc.SendLoad? { SendFalseExact(p.up); }
  }

  // ---------- the whole system's steps ----------

  lemma {:induction false} ShareOfMore(reqs: seq<nat>, more: seq<nat>, to: seq<nat>, i: nat)
    requires |to| <= |reqs|
    ensures Share(reqs + more, to, i) == Share(reqs, to, i)
  {
    if to != [] { ShareOfMore(reqs, more, to[..|to| - 1], i); }
  }

  lemma ShareNext(reqs: seq<nat>, to: seq<nat>, p: nat, i: nat)
    requires |to| < |reqs|
    ensures Share(reqs, to + [p], i) ==
            Share(reqs, to, i) + (if p == i then [Msg(LRPC_TX, reqs[|to|])] else [])
  {
    assert (to + [p])[..|to|] == to;
  }

  lemma EnqueueKeeps(s: Sys, req: nat)
    requires SysOk(s)
    ensures SysOk(EnqueueStep(s, req))
  {
    hide RingOk, PeerOk, Wrap32, And, HasBit, Share, Shape;
    FullExact(s.ring, s.head, s.tail, s.accepted, |s.sentTo|);
    RingBounds(s.ring, s.head, s.tail, s.accepted, |s.sentTo|);
    if s.dpc.DispIdle? && Wrap32(s.head - s.tail) != RQUEUE_LEN {
      PushKeeps(s.ring, s.head, s.tail, s.accepted, |s.sentTo|, req);
      forall i | 0 <= i < |s.peers|
        ensures Share(s.accepted + [req], s.sentTo, i) == Share(s.accepted, s.sentTo, i)
      {
        ShareOfMore(s.accepted, [req], s.sentTo, i);
      }
    }
  }

  lemma DrainKeeps(s: Sys)
    requires SysOk(s) && s.dpc.Draining?
    ensures SysOk(DrainStep(s))
  {
    hide RingOk, PeerOk, Wrap32, And, HasBit, Share, Ctz, SendBegin;
    if s.head > s.tail && s.free > 0 {
      SomeBit(s.free);
      var p := Ctz(s.free);
      RingBounds(s.ring, s.head, s.tail, s.accepted, |s.sentTo|);
      PendingExact(|s.sentTo|, |s.accepted|);
      TakeKeeps(s.ring, s.head, s.tail, s.accepted, |s.sentTo|);
      BeginPush(s.peers[p], s.ring[And(s.tail, RQUEUE_LEN - 1)]);
    }
  }

  lemma PushStepKeeps(s: Sys)
    requires SysOk(s) && s.dpc.Pushing?
    ensures SysOk(PushStep(s))
  {
    hide RingOk, PeerOk, Wrap32, And, HasBit, Share, Ctz, Xor, Pow2, SenderStep;
    var p := s.dpc.peer;
    PushingFree(s);
    StoreOfPush(s.peers[p]);
    if SenderStep(s.peers[p].down).spc.SendIdle? {
      TakeKeeps(s.ring, s.head, s.tail, s.accepted, |s.sentTo|);
      forall k: nat
        ensures HasBit(Xor(s.free, Pow2(p)), k) <==> HasBit(s.free, k) && k != p
      {
        XorBit(s.free, p, k);
      }
      forall i | 0 <= i < |s.peers|
        ensures Share(s.accepted, s.sentTo + [p], i) ==
                Share(s.accepted, s.sentTo, i) + (if p == i then [Msg(LRPC_TX, s.accepted[|s.sentTo|])] else [])
      {
        ShareNext(s.accepted, s.sentTo, p, i);
      }
    }
  }

  lemma PushingFree(s: Sys)
    requires SysOk(s) && s.dpc.Pushing?
    ensures s.dpc.peer < |s.peers| && HasBit(s.free, s.dpc.peer)
    ensures PeerOk(s.peers[s.dpc.peer], true, AtPush)
  {
    hide RingOk, PeerOk, HasBit, Share, Ctz, Shape;
    SomeBit(s.free);
  }

  lemma PopBeginKeeps(s: Sys, i: nat)
    requires SysOk(s)
    ensures SysOk(PopBegin(s, i))
  {
    hide RingOk, PeerOk, HasBit, Share, Ctz, ReceiverStep;
    if s.dpc.DispIdle? && i < |s.peers| {
      FindNotif(s.peers[i], HasBit(s.free, i));
    }
  }

  lemma PopStepKeeps(s: Sys)
    requires SysOk(s) && s.dpc.Popping?
    ensures SysOk(PopStep(s))
  {
    hide RingOk, PeerOk, HasBit, Share, Ctz, ReceiverStep, Or, Pow2;
    var i := s.dpc.peer;
    ReadNotif(s.peers[i], HasBit(s.free, i));
    forall k: nat
      ensures HasBit(Or(s.free, Pow2(i)), k) <==> HasBit(s.free, k) || k == i
    {
      OrBit(s.free, i, k);
    }
  }

  lemma WorkKeeps(s: Sys, i: nat, notif: nat)
    requires SysOk(s) && i < |s.peers|
    ensures SysOk(Next(s, Work(i, notif)))
  {
    hide RingOk, PeerOk, HasBit, Share, Ctz, WorkerMove;
    WorkerKeeps(s.peers[i], notif, HasBit(s.free, i), RoleOf(s.dpc, i));
  }

  lemma NextKeeps(s: Sys, m: Move)
    requires SysOk(s)
    ensures SysOk(Next(s, m))
  {
    hide QueueOk, PeersOk, SharesOk;
    match m
    case Enqueue(req) => EnqueueKeeps(s, req);
    case BeginDrain => if s.dpc.DispIdle? { BeginDrainKeeps(s); }
    case BeginPop(i) => PopBeginKeeps(s, i);
    case Dispatch =>
      match s.dpc {
        case DispIdle =>
        case Draining => DrainKeeps(s);
        case Pushing(_, _) => PushStepKeeps(s);
        case Popping(_) => PopStepKeeps(s);
      }
    case Work(i, notif) =>
      if i < |s.peers| { WorkKeeps(s, i, notif); }
  }

  lemma BeginDrainKeeps(s: Sys)
    requires SysOk(s) && s.dpc.DispIdle?
    ensures SysOk(s.(dpc := Draining))
  {
    hide RingOk, PeerOk, HasBit, Share, Ctz, Shape;
  }

  lemma InitialOk(n: nat)
    ensures SysOk(Initial(n))
  {
    hide HasBit, Pow2, Inv, And;
    NewChanOk();
    var s := Initial(n);
    forall k: nat
      ensures HasBit(s.free, k) <==> k < n
    {
      AllFree(n, k);
    }
  }

  lemma NewChanOk()
    ensures Inv(NewChan())
  {
    hide Inv, PowerOfTwoTest, Pow2;
    QueueLengthPower();
    InitOk(LRPC_Q_LEN);
    assert NewChan() == Init(LRPC_Q_LEN).chan;
  }

  lemma QueueLengthPower()
    ensures PowerSize(LRPC_Q_LEN)
  {
    assert Pow2(4) == 16;
    PowMonotone(4, 8);
    PowMonotone(4, 12);
  }

  lemma {:induction false} AfterKeeps(s: Sys, moves: seq<Move>)
    requires SysOk(s)
    ensures SysOk(After(s, moves))
    decreases |moves|
  {
    hide QueueOk, PeersOk, SharesOk, Next;
    if moves != [] {
      NextKeeps(s, moves[0]);
      AfterKeeps(Next(s, moves[0]), moves[1..]);
    }
  }

  // ---------- what the scheduler promises ----------

  datatype Place = Free | InEgress | InHands | InIngress

  // Where the one request a peer may hold is.
  function PlaceOf(p: Peer): Place
  {
    if |p.down.sent| == |p.up.received| then Free
    else if |p.down.received| < |p.down.sent| then InEgress
    else if |p.up.sent| < |p.down.received| then InHands
    else InIngress
  }

  /** Over every run, with any number of workers: a peer has at most one unanswered request, its
      free bit says exactly when it has none, it works exactly while it holds one, neither of its
      channels ever holds more than one message, and no push is ever refused. */
  lemma OneUnanswered(n: nat, moves: seq<Move>, i: nat)
    requires i < n
    ensures var s := After(Initial(n), moves); var p := s.peers[i];
            && |p.down.sent| - |p.up.received| <= 1
            && (HasBit(s.free, i) <==> PlaceOf(p).Free?)
            && (!p.pc.Polling? <==> PlaceOf(p).InHands?)
            && |p.down.sent| - |p.down.received| <= 1 && |p.up.sent| - |p.up.received| <= 1
            && (p.down.spc.SendLoad? ==> !SenderStep(p.down).spc.SendIdle?)
            && (p.up.spc.SendLoad? ==> !SenderStep(p.up).spc.SendIdle?)
  {
    hide HasBit, Inv, QueueOk, SharesOk, Initial, After, Wrap32, And;
    InitialOk(n);
    AfterKeeps(Initial(n), moves);
    var s := After(Initial(n), moves);
    var p := s.peers[i];
    assert PeerOk(p, HasBit(s.free, i), RoleOf(s.dpc, i));
    ShapeOf(p.down);
    ShapeOf(p.up);
    if p.down.spc.SendLoad? { SendFalseExact(p.down); }
    if p.up.spc.SendLoad? { SendFalseExact(p.up); }
  }

  /** Requests leave the ring in the order they entered it, each to exactly one peer: what went
      down a peer's channel is its share of the oldest requests, in order, and what the peer has
      taken so far is a prefix of that. */
  lemma FifoToPeers(n: nat, moves: seq<Move>, i: nat)
    requires i < n
    ensures var s := After(Initial(n), moves); var p := s.peers[i];
            && |s.sentTo| <= |s.accepted| <= |s.sentTo| + RQUEUE_LEN
            && p.down.sent == Share(s.accepted, s.sentTo, i)
            && p.down.received <= Share(s.accepted, s.sentTo, i)
            && (p.pc.Working? ==> p.down.received != [] &&
                                  p.pc.req == p.down.received[|p.down.received| - 1].payload)
  {
    hide HasBit, Initial, After, Share, RingOk, CountersOk, TableOk, SenderOk;
    InitialOk(n);
    AfterKeeps(Initial(n), moves);
    var s := After(Initial(n), moves);
    RingBounds(s.ring, s.head, s.tail, s.accepted, |s.sentTo|);
    assert PeerOk(s.peers[i], HasBit(s.free, i), RoleOf(s.dpc, i));
  }

  // Once a request is left behind by the wrap of the head counter, no step dispatches.
  lemma CrossedStep(s: Sys, m: Move)
    requires SysOk(s) && Crossed(|s.sentTo|, |s.accepted|) && !s.dpc.Pushing?
    ensures var t := Next(s, m);
            t.sentTo == s.sentTo && Crossed(|t.sentTo|, |t.accepted|) && !t.dpc.Pushing?
  {
    hide RingOk, PeerOk, HasBit, Share, Shape, Wrap32, And, PeersOk, SharesOk;
    RingBounds(s.ring, s.head, s.tail, s.accepted, |s.sentTo|);
    PendingExact(|s.sentTo|, |s.accepted|);
    CrossedMore(|s.sentTo|, |s.accepted|);
  }

  lemma CrossedMore(taken: nat, pushed: nat)
    requires Crossed(taken, pushed)
    ensures Crossed(taken, pushed + 1)
  {
  }

  /** The emptiness test across 2^32: if the head count passes a multiple of 2^32 while a request
      is still queued and no push is in progress, no request is ever dispatched again. */
  lemma {:induction false} WrapStallsForever(s: Sys, moves: seq<Move>)
    requires SysOk(s) && Crossed(|s.sentTo|, |s.accepted|) && !s.dpc.Pushing?
    ensures After(s, moves).sentTo == s.sentTo
    decreases |moves|
  {
    hide SysOk, Crossed, Next;
    if moves != [] {
      ShapedOf(s);
      CrossedStep(s, moves[0]);
      NextKeeps(s, moves[0]);
      WrapStallsForever(Next(s, moves[0]), moves[1..]);
    }
  }

  lemma ShapedOf(s: Sys)
    requires SysOk(s)
    ensures Shaped(s)
  {
  }
}
