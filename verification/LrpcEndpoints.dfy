/** The two ends of an LRPC channel as the objects the program updates in place.
    Each call is proved to do what its steps do in the machine of module Lrpc. */
module LrpcEndpoints {
  import opened Bits
  import opened Lrpc
  import opened LrpcRuns

  const EAGAIN: nat := 11
  const LRPC_TX: nat := 0

  // The memory both ends share: the message table and the published receive head.
  class SharedRing {
    const tbl: array<Msg>
    var wb: nat

    // generate_lrpc_buffer: everything zeroed
    constructor (len: nat)
      ensures fresh(tbl) && tbl.Length == len && wb == 0
      ensures tbl[..] == seq(len, _ => Msg(0, 0))
    {
      tbl := new Msg[len](_ => Msg(0, 0));
      wb := 0;
    }
  }

  class ChanOut {
    const ring: SharedRing
    const size: nat
    var head: nat
    var tail: nat

    // The sender's half of machine state s, between calls.
    ghost predicate Matches(s: Chan)
      reads this, ring, ring.tbl
    {
      && Shape(s) && s.spc.SendIdle?
      && size == s.size && head == s.head && tail == s.tail
      && ring.tbl[..] == s.tbl && ring.wb == s.wb
    }

    constructor (ring: SharedRing, size: nat)
      ensures this.ring == ring && this.size == size && head == 0 && tail == 0
    {
      this.ring := ring;
      this.size := size;
      head, tail := 0, 0;
    }

    /** lrpc_send and, when the cached window is full, __lrpc_send.  A failed
        check yields EINVAL, which the bool result turns into true. */
    method Send(cmd: nat, payload: nat, ghost s: Chan) returns (ok: bool)
      requires Matches(s)
      modifies this, ring.tbl
      ensures Matches(SendCall(s, cmd, payload).chan)
      ensures ok <==> !SendCall(s, cmd, payload).outcome.Full?
    {
      hide And, Wrap32;
      ghost var b := SendBegin(s, cmd, payload);
      if HasDone(cmd) {
        return true;
      }
      if Wrap32(head - tail) >= size {
        if Wrap32(head - tail) != size {
          return true;
        }
        tail := ring.wb;
        if Wrap32(head - tail) == size {
          return false;
        }
        TwoSteps(SenderStep(b), Sender, Sender);
        var dst := And(head, size - 1);
        ring.tbl[dst] := ring.tbl[dst].(payload := payload);
        var word := cmd + ParityBit(head, size);
        head := Wrap32(head + 1);
        ring.tbl[dst] := ring.tbl[dst].(cmd := word);
        return true;
      }
      TwoSteps(b, Sender, Sender);
      var dst := And(head, size - 1);
      var word := cmd + ParityBit(head, size);
      head := Wrap32(head + 1);
      ring.tbl[dst] := ring.tbl[dst].(payload := payload);
      ring.tbl[dst] := ring.tbl[dst].(cmd := word);
      return true;
    }

    // LrpcContext::push on this channel
    method Push(payload: nat, ghost s: Chan) returns (status: nat)
      requires Matches(s) && Inv(s)
      modifies this, ring.tbl
      ensures status == EAGAIN <==> |s.sent| - |s.received| == s.size
      ensures status == 0 || status == EAGAIN
      ensures Matches(SendCall(s, LRPC_TX, payload).chan)
      ensures SendCall(s, LRPC_TX, payload).chan.sent ==
              if status == 0 then s.sent + [Msg(LRPC_TX, payload)] else s.sent
    {
      hide And, Wrap32;
      SendCallEffect(s, LRPC_TX, payload);
      var ok := Send(LRPC_TX, payload, s);
      status := if !ok then EAGAIN else 0;
    }
  }

  class ChanIn {
    const ring: SharedRing
    const size: nat
    var recv: nat

    // The receiver's half of machine state s, between calls.
    ghost predicate Matches(s: Chan)
      reads this, ring, ring.tbl
    {
      && Shape(s) && s.rpc.RecvIdle?
      && size == s.size && recv == s.recv
      && ring.tbl[..] == s.tbl && ring.wb == s.wb
    }

    constructor (ring: SharedRing, size: nat)
      ensures this.ring == ring && this.size == size && recv == 0
    {
      this.ring := ring;
      this.size := size;
      recv := 0;
    }

    // lrpc_recv
    method Recv(ghost s: Chan) returns (ok: bool, cmd: nat, payload: nat)
      requires Matches(s)
      modifies this, ring
      ensures Matches(RecvCall(s).chan) && ok == RecvCall(s).ok
      ensures ok ==> RecvCall(s).chan.received == s.received + [Msg(cmd, payload)]
    {
      hide And, Wrap32;
      cmd, payload := 0, 0;
      var m := And(recv, size - 1);
      var word := ring.tbl[m].cmd;
      if HasDone(word) != (ParityBit(recv, size) == DONE) {
        return false, cmd, payload;
      }
      TwoSteps(ReceiverStep(s), Receiver, Receiver);
      recv := Wrap32(recv + 1);
      cmd := word % DONE;
      payload := ring.tbl[m].payload;
      ring.wb := recv;
      ok := true;
    }

    // LrpcContext::pop on this channel
    method Pop(ghost s: Chan) returns (status: nat, payload: nat)
      requires Matches(s) && Inv(s)
      modifies this, ring
      ensures status == EAGAIN <==> |s.received| == |s.sent|
      ensures status == 0 || status == EAGAIN
      ensures status == 0 ==> payload == s.sent[|s.received|].payload
      ensures Matches(RecvCall(s).chan)
    {
      hide And, Wrap32;
      RecvCallEffect(s);
      var ok, cmd, p := Recv(s);
      payload := p;
      status := if ok then 0 else EAGAIN;
    }
  }

  /** Wiring up one direction as register_dpt does: a zeroed buffer and its two ends,
      refused unless the length is a power of two. */
  method OpenChannel(len: nat) returns (ok: bool, out: ChanOut?, inp: ChanIn?)
    requires len < WORD32
    ensures ok <==> PowerSize(len)
    ensures ok ==> out != null && inp != null && out.ring == inp.ring
    ensures ok ==> Init(len).Ready? && Inv(Init(len).chan)
                   && out.Matches(Init(len).chan) && inp.Matches(Init(len).chan)
  {
    InitOk(len);
    out, inp := null, null;
    ok := PowerOfTwoTest(len);
    if ok {
      var ring := new SharedRing(len);
      out := new ChanOut(ring, len);
      inp := new ChanIn(ring, len);
    }
  }
}
