/** The LRPC shared-memory channel as a machine of single loads and stores.

    One sender and one receiver interleave freely over a table of messages and
    one published head counter.  All counters are 32-bit and wrap; the sender
    tells a new message from an old one by a parity bit that flips every lap. */
module Lrpc {
  import opened Bits
  import opened Constants

  // LRPC_DONE_PARITY: the top bit of the command word.
  const DONE: nat := 0x8000_0000_0000_0000

  datatype Msg = Msg(cmd: nat, payload: nat)

  datatype SendPc =
    | SendIdle         // no call in progress
    | SendLoad         // slow path, about to load the published head
    | SendSlowPayload  // slow path, about to store the payload
    | SendPayload      // fast path, about to store the payload
    | SendCmd          // about to store the command word

  datatype RecvPc =
    | RecvIdle         // about to load the command word
    | RecvRead         // about to load the payload
    | RecvPublish      // about to publish the receive head

  /** Shared memory, the private fields of both ends, and the history of what
      was accepted and what was delivered. */
  datatype Chan = Chan(
    size: nat,
    tbl: seq<Msg>, wb: nat,
    head: nat, tail: nat, spc: SendPc, msg: Msg, dst: nat, word: nat,
    recv: nat, rpc: RecvPc, src: nat, got: Msg,
    sent: seq<Msg>, received: seq<Msg>)

  datatype Act = Begin(cmd: nat, payload: nat) | Sender | Receiver | Poll

  predicate Shape(s: Chan)
  {
    0 < s.size && |s.tbl| == s.size && s.dst < s.size && s.src < s.size
  }

  // The parity bit of a lap: set on even laps, clear on odd ones.
  function ParityBit(counter: nat, size: nat): nat
  {
    if And(counter, size) != 0 then 0 else DONE
  }

  predicate HasDone(word: nat)
  {
    word / DONE % 2 == 1
  }

  // ---------- the steps ----------

  /** Entering lrpc_send.  The check on the command word sends nothing when it
      fails; the fast path claims a slot; a full cached window goes slow. */
  function SendBegin(s: Chan, cmd: nat, payload: nat): (t: Chan)
    requires Shape(s)
    ensures Shape(t) && t.size == s.size
  {
    if !s.spc.SendIdle? || HasDone(cmd) then s
    else if Wrap32(s.head - s.tail) >= s.size then
      s.(spc := SendLoad, msg := Msg(cmd, payload))
    else
      s.(spc := SendPayload, msg := Msg(cmd, payload), dst := And(s.head, s.size - 1),
         word := cmd + ParityBit(s.head, s.size), head := Wrap32(s.head + 1))
  }

  function SenderStep(s: Chan): (t: Chan)
    requires Shape(s)
    ensures Shape(t) && t.size == s.size
  {
    match s.spc
    case SendIdle => s
    case SendLoad =>
      if Wrap32(s.head - s.tail) != s.size then s.(spc := SendIdle)
      else if Wrap32(s.head - s.wb) == s.size then s.(tail := s.wb, spc := SendIdle)
      else s.(tail := s.wb, spc := SendSlowPayload, dst := And(s.head, s.size - 1))
    case SendSlowPayload =>
      s.(tbl := s.tbl[s.dst := s.tbl[s.dst].(payload := s.msg.payload)],
         word := s.msg.cmd + ParityBit(s.head, s.size), head := Wrap32(s.head + 1), spc := SendCmd)
    case SendPayload =>
      s.(tbl := s.tbl[s.dst := s.tbl[s.dst].(payload := s.msg.payload)], spc := SendCmd)
    case SendCmd =>
      s.(tbl := s.tbl[s.dst := s.tbl[s.dst].(cmd := s.word)], spc := SendIdle,
         sent := s.sent + [s.msg])
  }

  function ReceiverStep(s: Chan): (t: Chan)
    requires Shape(s)
    ensures Shape(t) && t.size == s.size
  {
    match s.rpc
    case RecvIdle =>
      var i := And(s.recv, s.size - 1);
      var cmd := s.tbl[i].cmd;
      if HasDone(cmd) != (ParityBit(s.recv, s.size) == DONE) then s
      else s.(src := i, recv := Wrap32(s.recv + 1), got := s.got.(cmd := cmd % DONE), rpc := RecvRead)
    case RecvRead =>
      s.(got := s.got.(payload := s.tbl[s.src].payload), rpc := RecvPublish)
    case RecvPublish =>
      s.(wb := s.recv, received := s.received + [s.got], rpc := RecvIdle)
  }

  // lrpc_poll_send_tail, called between sends.
  function PollStep(s: Chan): (t: Chan)
    requires Shape(s)
    ensures Shape(t) && t.size == s.size
  {
    if s.spc.SendIdle? then s.(tail := s.wb) else s
  }

  function Step(s: Chan, a: Act): (t: Chan)
    requires Shape(s)
    ensures Shape(t) && t.size == s.size
  {
    match a
    case Begin(cmd, payload) => SendBegin(s, cmd, payload)
    case Sender => SenderStep(s)
    case Receiver => ReceiverStep(s)
    case Poll => PollStep(s)
  }

  function Run(s: Chan, acts: seq<Act>): (t: Chan)
    requires Shape(s)
    ensures Shape(t) && t.size == s.size
    decreases |acts|
  {
    if acts == [] then s else Run(Step(s, acts[0]), acts[1..])
  }

  // lrpc_init_out and lrpc_init_in over a zeroed buffer; -EINVAL unless the size is a power of two.
  datatype InitResult = Ready(chan: Chan) | Invalid

  function Init(size: nat): (r: InitResult)
    ensures r.Ready? ==> Shape(r.chan)
  {
    if !PowerOfTwoTest(size) then Invalid
    else
      var none := Msg(0, 0);
      Ready(Chan(size, seq(size, _ => none), 0, 0, 0, SendIdle, none, 0, 0,
                 0, RecvIdle, 0, none, [], []))
  }

  // ---------- the unwrapped counters ----------

  function HeadCount(s: Chan): nat
  {
    |s.sent| + (if s.spc.SendPayload? || s.spc.SendCmd? then 1 else 0)
  }

  function RecvCount(s: Chan): nat
  {
    |s.received| + (if s.rpc.RecvIdle? then 0 else 1)
  }

  function TailCount(s: Chan): int
  {
    HeadCount(s) - Wrap32(s.head - s.tail)
  }

  // What the command word of message j looks like in the table.
  function WordFor(m: Msg, j: nat, size: nat): nat
    requires size > 0
  {
    m.cmd + (if OddLap(j, size) then 0 else DONE)
  }

  // ---------- the invariant ----------

  ghost predicate PowerSize(size: nat)
  {
    exists k :: k <= 31 && size == Pow2(k)
  }

  /** The counters are the wrapped true counts, and they never cross:
      cached tail <= published head <= receive head <= published sends <= send head <= cached tail + size. */
  ghost predicate CountersOk(s: Chan)
  {
    && s.head == Wrap32(HeadCount(s))
    && s.recv == Wrap32(RecvCount(s))
    && s.wb == Wrap32(|s.received|)
    && 0 <= TailCount(s) <= |s.received|
    && s.tail == Wrap32(TailCount(s))
    && RecvCount(s) <= |s.sent|
    && HeadCount(s) <= TailCount(s) + s.size
  }

  ghost predicate TableOk(s: Chan)
    requires Shape(s)
  {
    && (forall j :: 0 <= j < |s.sent| && |s.sent| - s.size <= j ==>
          s.tbl[Residue(j, s.size)].cmd == WordFor(s.sent[j], j, s.size))
    && (forall j :: |s.sent| <= j < s.size ==> s.tbl[j].cmd == 0)
    && (forall j :: |s.received| <= j < |s.sent| ==>
          s.tbl[Residue(j, s.size)].payload == s.sent[j].payload)
    && (forall j :: 0 <= j < |s.sent| ==> s.sent[j].cmd < DONE)
  }

  ghost predicate SenderOk(s: Chan)
    requires Shape(s)
  {
    && (!s.spc.SendIdle? ==> s.msg.cmd < DONE)
    && (s.spc.SendLoad? ==> Wrap32(s.head - s.tail) == s.size)
    && (s.spc.SendSlowPayload? ==>
          s.dst == Residue(|s.sent|, s.size) && |s.sent| < TailCount(s) + s.size)
    && (s.spc.SendPayload? || s.spc.SendCmd? ==>
          s.dst == Residue(|s.sent|, s.size) && s.word == WordFor(s.msg, |s.sent|, s.size))
    && (s.spc.SendCmd? ==> s.tbl[s.dst].payload == s.msg.payload)
  }

  ghost predicate ReceiverOk(s: Chan)
    requires Shape(s)
  {
    && |s.received| <= |s.sent|
    && s.received == s.sent[..|s.received|]
    && (!s.rpc.RecvIdle? ==>
          |s.received| < |s.sent| && s.src == Residue(|s.received|, s.size) &&
          s.got.cmd == s.sent[|s.received|].cmd)
    && (s.rpc.RecvPublish? ==> s.got == s.sent[|s.received|])
  }

  ghost predicate Inv(s: Chan)
  {
    Shape(s) && PowerSize(s.size) && CountersOk(s) && TableOk(s) && SenderOk(s) && ReceiverOk(s)
  }

  // ---------- wrapped arithmetic over true counts ----------

  lemma CounterFacts(n: nat, size: nat)
    requires PowerSize(size)
    ensures 0 < size <= 0x8000_0000
    ensures And(Wrap32(n), size - 1) == Residue(n, size)
    ensures ParityBit(Wrap32(n), size) == if OddLap(n, size) then 0 else DONE
  {
    var k :| k <= 31 && size == Pow2(k);
    RingIndex(n, size, k);
    var c := WordInLaps(size, k);
  }

  lemma DoneBit(m: Msg, j: nat, size: nat)
    requires size > 0 && m.cmd < DONE
    ensures HasDone(WordFor(m, j, size)) <==> !OddLap(j, size)
    ensures WordFor(m, j, size) % DONE == m.cmd
  {
  }

  lemma PlainCommand(cmd: nat)
    requires cmd < WORD64
    ensures HasDone(cmd) <==> cmd >= DONE
  {
  }

  /** The parity test, exactly: the slot at the receive head passes it if and
      only if a published message is waiting there. */
  lemma ParityExact(s: Chan)
    requires Inv(s) && s.rpc.RecvIdle?
    ensures var i := And(s.recv, s.size - 1);
            && i == Residue(|s.received|, s.size)
            && (HasDone(s.tbl[i].cmd) == (ParityBit(s.recv, s.size) == DONE)
                <==> |s.received| < |s.sent|)
  {
    hide And, Pow2, Wrap32;
    var n := |s.received|;
    CounterFacts(n, s.size);
    if n < |s.sent| {
      assert s.tbl[Residue(n, s.size)].cmd == WordFor(s.sent[n], n, s.size);
      DoneBit(s.sent[n], n, s.size);
    } else if n < s.size {
    } else {
      var j := n - s.size;
      assert s.tbl[Residue(j, s.size)].cmd == WordFor(s.sent[j], j, s.size);
      DoneBit(s.sent[j], j, s.size);
    }
  }

  // ---------- every step keeps the invariant ----------

  lemma InitOk(size: nat)
    requires size < WORD32
    ensures Init(size).Ready? <==> PowerSize(size)
    ensures Init(size).Ready? ==> Inv(Init(size).chan)
  {
    PowerOfTwoTestExact(size);
    if k: nat :| size == Pow2(k) {
      if k > 31 { Pow32(); PowMonotone(32, k); }
      assert PowerSize(size);
    }
  }

  // The counters: only wrapped arithmetic is at work here.
  lemma ClaimedSlot(n: nat, head: nat, tail: nat, size: nat)
    requires head == Wrap32(n) && size <= 0x8000_0000
    requires Wrap32(head - tail) < size && Wrap32(head - tail) <= n
    requires tail == Wrap32(n - Wrap32(head - tail))
    ensures Wrap32(head + 1) == Wrap32(n + 1)
    ensures Wrap32(Wrap32(head + 1) - tail) == Wrap32(head - tail) + 1
  {
    WrappedIncrement(n);
    WrappedDistance(n + 1, n - Wrap32(head - tail));
  }

  lemma BeginCounters(s: Chan, cmd: nat, payload: nat)
    requires Shape(s) && PowerSize(s.size) && CountersOk(s) && s.spc.SendIdle?
    ensures CountersOk(SendBegin(s, cmd, payload))
  {
    hide And, Pow2, Wrap32;
    CounterFacts(|s.sent|, s.size);
    if Wrap32(s.head - s.tail) < s.size {
      ClaimedSlot(|s.sent|, s.head, s.tail, s.size);
    }
  }

  lemma SenderCounters(s: Chan)
    requires Shape(s) && PowerSize(s.size) && CountersOk(s) && SenderOk(s)
    ensures CountersOk(SenderStep(s))
  {
    hide And, Pow2, Wrap32;
    var n := |s.sent|;
    CounterFacts(n, s.size);
    if s.spc.SendLoad? {
      WrappedDistance(n, |s.received|);
    } else if s.spc.SendSlowPayload? {
      ClaimedSlot(n, s.head, s.tail, s.size);
    }
  }

  lemma ReceiverCounters(s: Chan)
    requires Inv(s)
    ensures CountersOk(ReceiverStep(s))
  {
    hide And, Pow2, Wrap32;
    if s.rpc.RecvIdle? {
      ParityExact(s);
      WrappedIncrement(|s.received|);
    }
  }

  lemma PollKeeps(s: Chan)
    requires Inv(s)
    ensures Inv(PollStep(s))
  {
    hide And, Pow2, Wrap32;
    if s.spc.SendIdle? {
      CounterFacts(|s.sent|, s.size);
      WrappedDistance(|s.sent|, |s.received|);
    }
  }

  // The table: a store lands only on a slot no unread message occupies.
  lemma {:induction false} PayloadTable(s: Chan)
    requires Inv(s) && (s.spc.SendPayload? || s.spc.SendSlowPayload?)
    ensures TableOk(SenderStep(s))
  {
    hide And, Pow2, Wrap32;
    var t := SenderStep(s);
    forall j | |s.received| <= j < |s.sent|
      ensures t.tbl[Residue(j, s.size)].payload == s.sent[j].payload
    {
      ResiduesDiffer(j, |s.sent|, s.size);
    }
  }

  lemma {:induction false} CmdTable(s: Chan)
    requires Inv(s) && s.spc.SendCmd?
    ensures TableOk(SenderStep(s))
  {
    hide And, Pow2, Wrap32;
    var t := SenderStep(s);
    var n := |s.sent|;
    forall j | 0 <= j < n + 1 && n + 1 - s.size <= j
      ensures t.tbl[Residue(j, s.size)].cmd == WordFor(t.sent[j], j, s.size)
    {
      if j < n { ResiduesDiffer(j, n, s.size); }
    }
    assert n < s.size ==> Residue(n, s.size) == n;
  }

  // The private fields of the two ends.
  lemma BeginFields(s: Chan, cmd: nat, payload: nat)
    requires Inv(s) && cmd < WORD64 && s.spc.SendIdle?
    ensures SenderOk(SendBegin(s, cmd, payload))
  {
    hide And, Pow2, Wrap32;
    PlainCommand(cmd);
    CounterFacts(|s.sent|, s.size);
  }

  lemma SenderFields(s: Chan)
    requires Shape(s) && PowerSize(s.size) && CountersOk(s) && SenderOk(s)
    ensures SenderOk(SenderStep(s))
  {
    hide And, Pow2, Wrap32;
    var n := |s.sent|;
    CounterFacts(n, s.size);
    WrappedDistance(n, |s.received|);
  }

  lemma ReceiverFields(s: Chan)
    requires Inv(s)
    ensures ReceiverOk(ReceiverStep(s))
  {
    hide And, Pow2, Wrap32;
    var n := |s.received|;
    match s.rpc
    case RecvIdle =>
      ParityExact(s);
      if n < |s.sent| {
        assert s.tbl[Residue(n, s.size)].cmd == WordFor(s.sent[n], n, s.size);
        DoneBit(s.sent[n], n, s.size);
      }
    case RecvRead =>
      assert s.tbl[Residue(n, s.size)].payload == s.sent[n].payload;
    case RecvPublish =>
      assert s.sent[..n + 1] == s.sent[..n] + [s.sent[n]];
  }

  lemma BeginKeeps(s: Chan, cmd: nat, payload: nat)
    requires Inv(s) && cmd < WORD64
    ensures Inv(SendBegin(s, cmd, payload))
  {
    hide And, Pow2, Wrap32;
    if s.spc.SendIdle? {
      BeginCounters(s, cmd, payload);
      BeginFields(s, cmd, payload);
    }
  }

  lemma SenderKeeps(s: Chan)
    requires Inv(s)
    ensures Inv(SenderStep(s))
  {
    hide And, Pow2, Wrap32;
    SenderCounters(s);
    SenderFields(s);
    match s.spc
    case SendIdle =>
    case SendLoad =>
    case SendSlowPayload => PayloadTable(s);
    case SendPayload => PayloadTable(s);
    case SendCmd => CmdTable(s);
  }

  lemma ReceiverKeeps(s: Chan)
    requires Inv(s)
    ensures Inv(ReceiverStep(s))
  {
    hide And, Pow2, Wrap32;
    ReceiverCounters(s);
    ReceiverFields(s);
  }

  lemma StepKeeps(s: Chan, a: Act)
    requires Inv(s) && (a.Begin? ==> a.cmd < WORD64)
    ensures Inv(Step(s, a))
  {
    match a
    case Begin(cmd, payload) => BeginKeeps(s, cmd, payload);
    case Sender => SenderKeeps(s);
    case Receiver => ReceiverKeeps(s);
    case Poll => PollKeeps(s);
  }
}
