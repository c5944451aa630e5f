/** What the LRPC channel promises over every run, and its two operations as whole calls. */
module LrpcRuns {
  import opened Bits
  import opened Constants
  import opened Lrpc

  // Commands are 64-bit words.
  predicate Commands64(acts: seq<Act>)
  {
    forall i :: 0 <= i < |acts| && acts[i].Begin? ==> acts[i].cmd < WORD64
  }

  lemma {:induction false} RunKeeps(s: Chan, acts: seq<Act>)
    requires Inv(s) && Commands64(acts)
    ensures Inv(Run(s, acts))
    decreases |acts|
  {
    if acts != [] {
      StepKeeps(s, acts[0]);
      RunKeeps(Step(s, acts[0]), acts[1..]);
    }
  }

  // ---------- what the channel promises ----------

  /** FIFO: from a fresh channel of any power-of-two size, after any interleaving
      and any number of counter wraps, what was delivered is a prefix of what was accepted. */
  lemma {:induction false} DeliveredIsPrefix(size: nat, acts: seq<Act>)
    requires size < WORD32 && Init(size).Ready? && Commands64(acts)
    ensures var s := Run(Init(size).chan, acts); s.received <= s.sent
  {
    InitOk(size);
    RunKeeps(Init(size).chan, acts);
  }

  /** No counter overtakes another in any reachable state, so the ring never
      holds more than `size` unread messages. */
  lemma {:induction false} CountersNeverCross(size: nat, acts: seq<Act>)
    requires size < WORD32 && Init(size).Ready? && Commands64(acts)
    ensures var s := Run(Init(size).chan, acts);
            0 <= TailCount(s) <= |s.received| <= RecvCount(s) <= |s.sent|
              <= HeadCount(s) <= TailCount(s) + s.size
  {
    InitOk(size);
    RunKeeps(Init(size).chan, acts);
  }

  /** A payload store never touches a slot that still holds a message the receiver
      has not finished with: every published, unpublished-as-read message keeps its payload. */
  lemma {:induction false} NoOverwriteOfUnread(s: Chan, a: Act)
    requires Inv(s) && (a.Begin? ==> a.cmd < WORD64)
    ensures forall j :: |s.received| <= j < |s.sent| ==>
              Step(s, a).tbl[Residue(j, s.size)] == s.tbl[Residue(j, s.size)]
  {
    hide And, Pow2, Wrap32;
    if a.Sender? && !s.spc.SendIdle? && !s.spc.SendLoad? {
      forall j | |s.received| <= j < |s.sent|
        ensures Step(s, a).tbl[Residue(j, s.size)] == s.tbl[Residue(j, s.size)]
      {
        ResiduesDiffer(j, |s.sent|, s.size);
      }
    }
  }

  // The check at the top of the slow path always holds.
  lemma SlowPathCheckHolds(size: nat, acts: seq<Act>)
    requires size < WORD32 && Init(size).Ready? && Commands64(acts)
    ensures var s := Run(Init(size).chan, acts);
            s.spc.SendLoad? ==> Wrap32(s.head - s.tail) == s.size
  {
    InitOk(size);
    RunKeeps(Init(size).chan, acts);
  }

  /** A send that reports false does so exactly when the ring was full at the
      load of the published head; otherwise the call goes on to claim a slot. */
  lemma SendFalseExact(s: Chan)
    requires Inv(s) && s.spc.SendLoad?
    ensures SenderStep(s).spc.SendIdle? <==> |s.sent| - |s.received| == s.size
    ensures SenderStep(s).spc.SendIdle? || SenderStep(s).spc.SendSlowPayload?
  {
    hide And, Pow2, Wrap32;
    CounterFacts(|s.sent|, s.size);
    WrappedDistance(|s.sent|, |s.received|);
  }

  // A receive that reports false does so exactly when no published message is unread.
  lemma RecvFalseExact(s: Chan)
    requires Inv(s) && s.rpc.RecvIdle?
    ensures ReceiverStep(s) == s <==> |s.received| == |s.sent|
    ensures Empty(s) <==> |s.received| == |s.sent|
  {
    hide And, Pow2, Wrap32;
    ParityExact(s);
  }

  // lrpc_empty
  predicate Empty(s: Chan)
    requires Shape(s)
  {
    HasDone(s.tbl[And(s.recv, s.size - 1)].cmd) != (ParityBit(s.recv, s.size) == DONE)
  }

  // lrpc_get_cached_send_window and lrpc_get_cached_length
  function CachedWindow(s: Chan): nat
  {
    Wrap32(s.size - s.head + s.tail)
  }

  function CachedLength(s: Chan): nat
  {
    Wrap32(s.head - s.tail)
  }

  /** The cached reports err only on the safe side: never more room than there
      is, never fewer queued messages than there are; polling makes them exact. */
  lemma CachedReportsSafe(s: Chan)
    requires Inv(s)
    ensures CachedWindow(s) + CachedLength(s) == s.size
    ensures CachedWindow(s) <= s.size - (HeadCount(s) - |s.received|)
    ensures CachedLength(s) >= HeadCount(s) - |s.received|
    ensures s.spc.SendIdle? ==>
              CachedLength(PollStep(s)) == |s.sent| - |s.received|
  {
    hide And, Pow2, Wrap32;
    CounterFacts(HeadCount(s), s.size);
    WrappedDistance(HeadCount(s), TailCount(s));
    WindowComplement(s);
    if s.spc.SendIdle? { WrappedDistance(|s.sent|, |s.received|); }
  }

  lemma WindowComplement(s: Chan)
    requires Wrap32(s.head - s.tail) <= s.size < WORD32
    ensures CachedWindow(s) == s.size - CachedLength(s)
  {
    var d := s.head - s.tail;
    WrapIsRemainder(d);
    WrapIsRemainder(s.size - d);
  }

  // ---------- whole calls ----------

  datatype SendOutcome = Sent | Full | Refused

  datatype SendResult = SendResult(chan: Chan, outcome: SendOutcome)

  datatype RecvResult = RecvResult(chan: Chan, ok: bool)

  /** One uninterrupted lrpc_send: all of its steps in a row. */
  function SendCall(s: Chan, cmd: nat, payload: nat): (r: SendResult)
    requires Shape(s) && s.spc.SendIdle?
    ensures Shape(r.chan)
  {
    var b := SendBegin(s, cmd, payload);
    if HasDone(cmd) then SendResult(b, Refused)
    else if b.spc.SendPayload? then SendResult(Run(b, [Sender, Sender]), Sent)
    else
      var l := SenderStep(b);
      if l.spc.SendIdle? then
        SendResult(l, if Wrap32(s.head - s.tail) != s.size then Refused else Full)
      else SendResult(Run(l, [Sender, Sender]), Sent)
  }

  // One uninterrupted lrpc_recv.
  function RecvCall(s: Chan): (r: RecvResult)
    requires Shape(s) && s.rpc.RecvIdle?
    ensures Shape(r.chan)
  {
    var l := ReceiverStep(s);
    if l.rpc.RecvIdle? then RecvResult(l, false) else RecvResult(Run(l, [Receiver, Receiver]), true)
  }

  lemma TwoSteps(s: Chan, a: Act, b: Act)
    requires Shape(s)
    ensures Run(s, [a, b]) == Step(Step(s, a), b)
  {
    var t := Step(s, a);
    assert [a, b][1..] == [b];
    assert [b][1..] == [];
    assert Run(t, [b]) == Run(Step(t, b), []);
  }

  // The two stores that end every successful send.
  lemma StorePair(s: Chan)
    requires Inv(s) && (s.spc.SendPayload? || s.spc.SendSlowPayload?)
    ensures var t := Run(s, [Sender, Sender]);
            Inv(t) && t.spc.SendIdle? && t.sent == s.sent + [s.msg] && t.received == s.received
  {
    hide And, Pow2, Wrap32;
    TwoSteps(s, Sender, Sender);
    SenderKeeps(s);
    SenderKeeps(SenderStep(s));
  }

  // The load of the payload and the publication that end every successful receive.
  lemma ReadPair(s: Chan)
    requires Inv(s) && s.rpc.RecvRead?
    ensures var t := Run(s, [Receiver, Receiver]);
            Inv(t) && t.rpc.RecvIdle? && t.sent == s.sent && |t.received| == |s.received| + 1
  {
    hide And, Pow2, Wrap32;
    TwoSteps(s, Receiver, Receiver);
    ReceiverKeeps(s);
    ReceiverKeeps(ReceiverStep(s));
  }

  /** A whole send, with the receiver anywhere: it is refused exactly for a command that carries
      the parity bit, reports full exactly when `size` messages are unread, and otherwise appends. */
  lemma SendCallEffect(s: Chan, cmd: nat, payload: nat)
    requires Inv(s) && s.spc.SendIdle? && cmd < WORD64
    ensures var r := SendCall(s, cmd, payload);
            && (r.outcome.Refused? <==> cmd >= DONE)
            && (r.outcome.Full? <==> cmd < DONE && |s.sent| - |s.received| == s.size)
            && (r.outcome.Sent? ==> Inv(r.chan) && r.chan.spc.SendIdle? && r.chan.sent == s.sent + [Msg(cmd, payload)])
            && (!r.outcome.Sent? ==> Inv(r.chan) && r.chan.sent == s.sent)
            && r.chan.received == s.received
  {
    hide And, Pow2, Wrap32;
    PlainCommand(cmd);
    BeginKeeps(s, cmd, payload);
    var b := SendBegin(s, cmd, payload);
    if cmd < DONE {
      if b.spc.SendPayload? {
        StorePair(b);
      } else {
        SendFalseExact(b);
        SenderKeeps(b);
        var l := SenderStep(b);
        if l.spc.SendSlowPayload? {
          StorePair(l);
        }
      }
    }
  }

  /** A whole receive, with the sender anywhere: it takes the oldest unread message or, exactly
      when there is none, leaves the channel alone. */
  lemma RecvCallEffect(s: Chan)
    requires Inv(s) && s.rpc.RecvIdle?
    ensures var r := RecvCall(s);
            && Inv(r.chan) && r.chan.sent == s.sent && r.chan.rpc.RecvIdle?
            && (r.ok <==> |s.received| < |s.sent|)
            && (r.ok ==> r.chan.received == s.received + [s.sent[|s.received|]])
            && (!r.ok ==> r.chan == s)
  {
    hide And, Pow2, Wrap32;
    ParityExact(s);
    ReceiverKeeps(s);
    var l := ReceiverStep(s);
    if l.rpc.RecvRead? {
      ReadPair(l);
    }
  }
}
