/** The open-loop client: send attempts against a schedule, requests on the network, responses
    credited back by id, over any number of schedules. */
module Client {
  import opened Bits

  // mbuf 0 is null; completed 0 means no response yet.
  datatype Request = Request(id: nat, mbuf: nat, completed: nat)

  datatype Counters = Counters(sendIndex: nat, recv: nat, attempts: nat, skipped: nat)

  datatype Pending = Nothing | Next(index: nat)

  /** `plan` holds every schedule's send times and `current` the one being played.  `stamp` is the
      worker id shifted left by 27.  `wire` holds the ids of requests on the network, `inbound`
      those of responses received but not read.  `sent` and `credited` are the request indices
      handed to the network and completed, in order; `nulls` counts sends without a packet and
      `strays` reads behind the last send time.  `over` is set behind the last schedule. */
  datatype State = State(
    plan: seq<seq<nat>>, current: nat, stamp: nat, max: int,
    requests: seq<Request>, offset: nat, counts: Counters,
    startOffset: nat, it: nat, nextTime: nat, next: Pending, complete: bool,
    wire: seq<nat>, inbound: seq<nat>,
    sent: seq<nat>, credited: seq<nat>, nulls: nat, sentBefore: nat, recvBefore: nat,
    lastSend: nat, strays: nat, over: bool)

  // Requests generated for the first k schedules.
  function Base(plan: seq<seq<nat>>, k: nat): nat
    requires k <= |plan|
  {
    if k == 0 then 0 else Base(plan, k - 1) + |plan[k - 1]|
  }

  predicate Shaped(c: State)
  {
    && c.current < |c.plan|
    && (forall k :: 0 <= k < |c.plan| ==> c.plan[k] != [])
    && |c.requests| == Base(c.plan, |c.plan|)
    && c.offset == Base(c.plan, c.current)
    && c.counts.sendIndex <= |Times(c)|
    && (c.next.Next? ==> c.next.index == c.offset + c.counts.sendIndex && c.counts.sendIndex < |Times(c)|)
  }

  function Times(c: State): seq<nat>
    requires c.current < |c.plan|
  {
    c.plan[c.current]
  }

  function EndTime(c: State): nat
    requires c.current < |c.plan| && Times(c) != []
  {
    Times(c)[|Times(c)| - 1] + c.startOffset
  }

  lemma {:induction false} BaseGrows(plan: seq<seq<nat>>, j: nat, k: nat)
    requires j <= k <= |plan|
    ensures Base(plan, j) <= Base(plan, k)
    ensures j < k ==> Base(plan, j) + |plan[j]| <= Base(plan, k)
    decreases k
  {
    if j < k { BaseGrows(plan, j, k - 1); }
  }

  // ---------- the steps ----------

  // Entering play_schedule: counters at zero, the first send time read.
  function StartSchedule(c: State, k: nat, now: nat): State
    requires k < |c.plan| && c.plan[k] != []
  {
    c.(current := k, counts := Counters(0, 0, 0, 0), startOffset := now, it := 1,
       nextTime := c.plan[k][0] + now, next := Nothing, complete := false)
  }

  // *send_time_it: `beyond` is what lies behind the last entry.
  function TimeAt(c: State, beyond: nat): nat
    requires c.current < |c.plan|
  {
    (if c.it < |Times(c)| then Times(c)[c.it] else beyond) + c.startOffset
  }

  function Stray(c: State): nat
    requires c.current < |c.plan|
  {
    if c.it < |Times(c)| then 0 else 1
  }

  // Behind the loop of play_schedule: the last send time is the end, or read off the iterator.
  function EndSchedule(c: State, beyond: nat): State
    requires Shaped(c)
  {
    if c.complete then c.(lastSend := EndTime(c))
    else c.(lastSend := TimeAt(c, beyond), strays := c.strays + Stray(c))
  }

  /** Leaving play_schedule and entering the next one, if any.  `now` is the start offset. */
  function NextSchedule(c: State, now: nat, beyond: nat): (d: State)
    requires Shaped(c)
    ensures Shaped(d) && SameClient(c, d)
  {
    if c.over then c
    else
      var e := EndSchedule(c, beyond);
      if c.current + 1 == |c.plan| then e.(over := true)
      else StartSchedule(e.(offset := c.offset + |Times(c)|,
                            sentBefore := c.sentBefore + c.counts.sendIndex,
                            recvBefore := c.recvBefore + c.counts.recv), c.current + 1, now)
  }

  // What no step changes.
  predicate SameClient(c: State, d: State)
  {
    d.plan == c.plan && d.stamp == c.stamp && d.max == c.max
  }

  predicate Due(c: State, time: nat)
    requires Shaped(c)
  {
    !c.over && c.nextTime <= time <= EndTime(c) && c.counts.sendIndex < |Times(c)|
  }

  predicate Allowed(c: State)
  {
    c.max < 0 || c.max > c.counts.sendIndex - c.counts.recv
  }

  // gen_next_req: `alloc` is the packet the allocator hands out, 0 when it has none.
  function GenNextReq(c: State, alloc: nat): (d: State)
    requires Shaped(c) && c.counts.sendIndex < |Times(c)| && c.offset + c.counts.sendIndex < |c.requests|
    ensures Shaped(d) && SameClient(c, d) && d.next == Next(c.offset + c.counts.sendIndex)
    ensures |d.requests| == |c.requests|
  {
    if c.next.Next? then c
    else
      var i := c.offset + c.counts.sendIndex;
      var r := c.requests[i];
      c.(next := Next(i), requests := c.requests[i := r.(id := Xor(r.id, c.stamp), mbuf := alloc)])
  }

  // gen_next_req returned EAGAIN
  predicate GenFailed(c: State, alloc: nat)
  {
    c.next.Nothing? && alloc == 0
  }

  // gen_next_send_time
  function Advance(c: State, beyond: nat): (d: State)
    requires Shaped(c)
    ensures Shaped(d) && SameClient(c, d)
  {
    var at := TimeAt(c, beyond);
    c.(nextTime := at, it := c.it + 1, complete := c.complete || at >= EndTime(c), strays := c.strays + Stray(c))
  }

  // send_request succeeded on the pending request
  function Sent(c: State): (d: State)
    requires c.next.Next? && c.next.index < |c.requests|
    ensures SameClient(c, d) && (Shaped(c) ==> Shaped(d))
  {
    var r := c.requests[c.next.index];
    var counted := c.(counts := c.counts.(sendIndex := c.counts.sendIndex + 1), next := Nothing,
                      sent := c.sent + [c.next.index]);
    if r.mbuf == 0 then counted.(nulls := c.nulls + 1) else counted.(wire := c.wire + [r.id])
  }

  function Skip(c: State): (d: State)
    ensures SameClient(c, d) && (Shaped(c) ==> Shaped(d))
  {
    c.(counts := c.counts.(skipped := c.counts.skipped + 1))
  }

  // One round of the send loop leaves it by `break`.
  predicate Breaks(c: State, alloc: nat, room: bool)
  {
    Allowed(c) && (GenFailed(c, alloc) || !room)
  }

  // A counted attempt.
  function Tried(b: State, alloc: nat, room: bool, beyond: nat): (d: State)
    requires Shaped(b) && b.counts.sendIndex < |Times(b)| && b.offset + b.counts.sendIndex < |b.requests|
    ensures Shaped(d) && SameClient(b, d)
  {
    if !Allowed(b) then Advance(Skip(b), beyond)
    else
      var g := GenNextReq(b, alloc);
      if GenFailed(b, alloc) || !room then Skip(g) else Advance(Sent(g), beyond)
  }

  /** One round of the send loop; `room` says whether the outbound ring has room. */
  function Attempt(c: State, time: nat, alloc: nat, room: bool, beyond: nat): (d: State)
    requires Shaped(c)
    ensures Shaped(d) && SameClient(c, d)
  {
    if !Due(c, time) || c.offset + c.counts.sendIndex >= |c.requests| then c
    else Tried(c.(counts := c.counts.(attempts := c.counts.attempts + 1)), alloc, room, beyond)
  }

  // A server answers a request: its response reaches the client's inbound ring.
  function Answer(c: State, k: nat): (d: State)
    ensures SameClient(c, d) && (Shaped(c) ==> Shaped(d))
  {
    if k >= |c.wire| then c
    else c.(wire := c.wire[..k] + c.wire[k + 1..], inbound := c.inbound + [c.wire[k]])
  }

  // One response read: the request it names is completed.
  function Pop(c: State, time: nat): (d: State)
    ensures SameClient(c, d) && (Shaped(c) ==> Shaped(d))
  {
    if c.over || c.inbound == [] then c
    else
      var i := Xor(c.inbound[0], c.stamp);
      c.(inbound := c.inbound[1..], counts := c.counts.(recv := c.counts.recv + 1),
         credited := c.credited + [i],
         requests := if i < |c.requests| then c.requests[i := c.requests[i].(completed := time)] else c.requests)
  }

  datatype Move =
    | Try(time: nat, alloc: nat, room: bool, beyond: nat)
    | Serve(k: nat)
    | Read(time: nat)
    | Switch(now: nat, beyond: nat)

  function Step(c: State, m: Move): (d: State)
    requires Shaped(c)
    ensures Shaped(d) && SameClient(c, d)
  {
    match m
    case Try(time, alloc, room, beyond) => Attempt(c, time, alloc, room, beyond)
    case Serve(k) => Answer(c, k)
    case Read(time) => Pop(c, time)
    case Switch(now, beyond) => NextSchedule(c, now, beyond)
  }

  function Run(c: State, moves: seq<Move>): (d: State)
    requires Shaped(c)
    ensures Shaped(d) && SameClient(c, d)
    decreases |moves|
  {
    if moves == [] then c else Run(Step(c, moves[0]), moves[1..])
  }

  // Every schedule generated, the first one about to be played.
  function Start(plan: seq<seq<nat>>, stamp: nat, max: int, now: nat): (c: State)
    requires plan != [] && forall k :: 0 <= k < |plan| ==> plan[k] != []
    ensures Shaped(c) && c.stamp == stamp && c.max == max && c.plan == plan
  {
    StartSchedule(
      State(plan, 0, stamp, max, seq(Base(plan, |plan|), i requires i >= 0 => Request(i, 0, 0)), 0,
            Counters(0, 0, 0, 0),
            0, 0, 0, Nothing, false, [], [], [], [], 0, 0, 0, 0, 0, false), 0, now)
  }

  // ---------- the send accounting, whatever the allocator does ----------

  ghost predicate Counted(c: State)
  {
    && c.counts.attempts == c.counts.sendIndex + c.counts.skipped
    && (c.max >= 0 ==> c.counts.sendIndex - c.counts.recv <= c.max)
    && |c.sent| == c.sentBefore + c.counts.sendIndex
    && |c.credited| == c.recvBefore + c.counts.recv
  }

  lemma TriedCounts(b: State, alloc: nat, room: bool, beyond: nat)
    requires Shaped(b) && b.counts.sendIndex < |Times(b)| && b.offset + b.counts.sendIndex < |b.requests|
    requires b.counts.attempts > 0 && Counted(b.(counts := b.counts.(attempts := b.counts.attempts - 1)))
    ensures Counted(Tried(b, alloc, room, beyond))
  {
    hide Base, Shaped, GenNextReq, Sent, TimeAt, Stray;
    GenFrame(b, alloc);
    SentFrame(GenNextReq(b, alloc));
  }

  lemma StepCounts(c: State, m: Move)
    requires Shaped(c) && Counted(c)
    ensures Counted(Step(c, m))
  {
    hide Xor, Base, Tried;
    match m
    case Try(time, alloc, room, beyond) =>
      if Due(c, time) && c.offset + c.counts.sendIndex < |c.requests| {
        TriedCounts(c.(counts := c.counts.(attempts := c.counts.attempts + 1)), alloc, room, beyond);
      }
    case Serve(k) =>
    case Read(time) =>
    case Switch(now, beyond) =>
  }

  lemma {:induction false} RunCounts(c: State, moves: seq<Move>)
    requires Shaped(c) && Counted(c)
    ensures Counted(Run(c, moves))
    decreases |moves|
  {
    hide Counted, Step;
    if moves != [] {
      StepCounts(c, moves[0]);
      RunCounts(Step(c, moves[0]), moves[1..]);
    }
  }

  /** Over every run of every plan, in the schedule being played: attempts are sent plus skipped,
      and with a non-negative limit the counted in-flight requests never exceed it.  The requests
      without a response are the counted ones plus those carried over from earlier schedules. */
  lemma AttemptsAccounted(plan: seq<seq<nat>>, stamp: nat, max: int, now: nat, moves: seq<Move>)
    requires plan != [] && forall k :: 0 <= k < |plan| ==> plan[k] != []
    ensures var c := Run(Start(plan, stamp, max, now), moves);
            && c.counts.attempts == c.counts.sendIndex + c.counts.skipped
            && (max >= 0 ==> c.counts.sendIndex - c.counts.recv <= max)
            && |c.sent| - |c.credited| ==
               (c.sentBefore - c.recvBefore) + (c.counts.sendIndex - c.counts.recv)
  {
    hide Run, Xor, Base;
    RunCounts(Start(plan, stamp, max, now), moves);
  }

  // ---------- crediting ----------

  function Decoded(ids: seq<nat>, stamp: nat): seq<nat>
  {
    seq(|ids|, i requires 0 <= i < |ids| => Xor(ids[i], stamp))
  }

  // Every request up to i that was sent carries its stamped index; every later one its index.
  ghost predicate IdsOk(c: State)
  {
    && (forall k :: c.offset + c.counts.sendIndex <= k < |c.requests| && c.next != Next(k) ==>
          c.requests[k].id == k && c.requests[k].mbuf == 0)
    && (c.next.Next? ==> c.next.index < |c.requests| && c.requests[c.next.index].mbuf != 0 &&
                         c.requests[c.next.index].id == Xor(c.next.index, c.stamp))
  }

  // Requests are sent in index order, so none twice.
  ghost predicate SentOk(c: State)
  {
    && (forall i :: 0 <= i < |c.sent| ==> c.sent[i] < c.offset + c.counts.sendIndex)
    && (forall i, j :: 0 <= i < j < |c.sent| ==> c.sent[i] < c.sent[j])
  }

  // Every request sent is on the network, waiting to be read, or credited, exactly once.
  ghost predicate NetworkOk(sent: seq<nat>, credited: seq<nat>, wire: seq<nat>, inbound: seq<nat>, stamp: nat)
  {
    multiset(sent) == multiset(credited) + multiset(Decoded(wire, stamp)) + multiset(Decoded(inbound, stamp))
  }

  ghost predicate Inv(c: State)
  {
    Shaped(c) && c.nulls == 0 && IdsOk(c) && SentOk(c) &&
    NetworkOk(c.sent, c.credited, c.wire, c.inbound, c.stamp)
  }

  lemma DecodedAppend(ids: seq<nat>, id: nat, stamp: nat)
    ensures Decoded(ids + [id], stamp) == Decoded(ids, stamp) + [Xor(id, stamp)]
  {
  }

  lemma DecodedSplit(ids: seq<nat>, k: nat, stamp: nat)
    requires k < |ids|
    ensures multiset(Decoded(ids, stamp)) ==
            multiset(Decoded(ids[..k] + ids[k + 1..], stamp)) + multiset{Xor(ids[k], stamp)}
  {
    hide Xor;
    var all := Decoded(ids, stamp);
    var rest := Decoded(ids[..k] + ids[k + 1..], stamp);
    assert rest == all[..k] + all[k + 1..];
    assert all == all[..k] + [all[k]] + all[k + 1..];
  }

  // The index of the next request to send exists and belongs to this schedule.
  lemma IndexInRange(c: State)
    requires Shaped(c) && c.counts.sendIndex < |Times(c)|
    ensures c.offset + c.counts.sendIndex < |c.requests|
  {
    BaseGrows(c.plan, c.current, |c.plan|);
  }

  lemma GenKeeps(c: State, alloc: nat)
    requires Inv(c) && c.counts.sendIndex < |Times(c)| && alloc != 0
    ensures c.offset + c.counts.sendIndex < |c.requests|
    ensures Inv(GenNextReq(c, alloc)) && GenNextReq(c, alloc).next == Next(c.offset + c.counts.sendIndex)
  {
    hide Xor, Base, NetworkOk;
    IndexInRange(c);
  }

  lemma SentKeeps(c: State)
    requires Inv(c) && c.next.Next?
    ensures c.next.index < |c.requests|
    ensures Inv(Sent(c)) && Sent(c).wire == c.wire + [Xor(c.next.index, c.stamp)]
  {
    hide Xor, Base;
    var i := c.next.index;
    XorCancels(i, c.stamp);
    DecodedAppend(c.wire, Xor(i, c.stamp), c.stamp);
    assert multiset(c.sent + [i]) == multiset(c.sent) + multiset{i};
  }

  // Steps that touch only counters or times.
  lemma CounterKeeps(c: State, counts: Counters, it: nat, nextTime: nat, complete: bool, strays: nat)
    requires Inv(c) && counts.sendIndex == c.counts.sendIndex
    ensures Inv(c.(counts := counts, it := it, nextTime := nextTime, complete := complete, strays := strays))
  {
    hide Xor, Base;
  }

  lemma AttemptKeeps(c: State, time: nat, alloc: nat, room: bool, beyond: nat)
    requires Inv(c) && alloc != 0
    ensures Inv(Attempt(c, time, alloc, room, beyond))
  {
    hide Inv, Shaped, GenNextReq, Sent, Base, Advance, Skip;
    ShapeOf(c);
    if Due(c, time) {
      IndexInRange(c);
      var b := c.(counts := c.counts.(attempts := c.counts.attempts + 1));
      CounterKeeps(c, b.counts, c.it, c.nextTime, c.complete, c.strays);
      ShapeOf(b);
      if !Allowed(c) {
        AdvanceSkips(b, beyond);
      } else {
        GenKeeps(b, alloc);
        var g := GenNextReq(b, alloc);
        ShapeOf(g);
        if room {
          SentKeeps(g);
          AdvanceKeeps(Sent(g), beyond);
        } else {
          SkipKeeps(g);
        }
      }
    }
  }

  lemma ShapeOf(c: State)
    requires Inv(c)
    ensures Shaped(c)
  {
  }

  lemma AdvanceKeeps(c: State, beyond: nat)
    requires Inv(c)
    ensures Shaped(c) && Inv(Advance(c, beyond))
  {
    hide Inv, Base;
    ShapeOf(c);
    var d := Advance(c, beyond);
    CounterKeeps(c, c.counts, d.it, d.nextTime, d.complete, d.strays);
  }

  lemma SkipKeeps(c: State)
    requires Inv(c)
    ensures Inv(Skip(c))
  {
    hide Inv;
    CounterKeeps(c, Skip(c).counts, c.it, c.nextTime, c.complete, c.strays);
  }

  lemma AdvanceSkips(c: State, beyond: nat)
    requires Inv(c)
    ensures Shaped(Skip(c)) && Inv(Advance(Skip(c), beyond))
  {
    hide Inv, Base, Shaped;
    SkipKeeps(c);
    AdvanceKeeps(Skip(c), beyond);
  }

  lemma AnswerKeeps(c: State, k: nat)
    requires Inv(c)
    ensures Inv(Answer(c, k))
  {
    hide Xor, Base;
    if k < |c.wire| {
      DecodedSplit(c.wire, k, c.stamp);
      DecodedAppend(c.inbound, c.wire[k], c.stamp);
    }
  }

  lemma PopKeeps(c: State, time: nat)
    requires Inv(c)
    ensures Inv(Pop(c, time))
  {
    hide Xor, Base, NetworkOk;
    if c.inbound != [] { CreditOne(c.sent, c.credited, c.wire, c.inbound, c.stamp); }
  }

  lemma CreditOne(sent: seq<nat>, credited: seq<nat>, wire: seq<nat>, inbound: seq<nat>, stamp: nat)
    requires inbound != [] && NetworkOk(sent, credited, wire, inbound, stamp)
    ensures NetworkOk(sent, credited + [Xor(inbound[0], stamp)], wire, inbound[1..], stamp)
  {
    hide Xor;
    var i := Xor(inbound[0], stamp);
    assert Decoded(inbound, stamp) == [i] + Decoded(inbound[1..], stamp);
    assert multiset(credited + [i]) == multiset(credited) + multiset{i};
  }

  lemma SwitchKeeps(c: State, now: nat, beyond: nat)
    requires Inv(c)
    ensures Inv(NextSchedule(c, now, beyond))
  {
    hide Xor, NetworkOk;
    if c.current + 1 < |c.plan| {
      assert c.counts.sendIndex <= |Times(c)|;
    }
  }

  // Every allocation on the way succeeds.
  predicate Allocates(moves: seq<Move>)
  {
    forall i :: 0 <= i < |moves| && moves[i].Try? ==> moves[i].alloc != 0
  }

  lemma {:induction false} RunKeeps(c: State, moves: seq<Move>)
    requires Inv(c) && Allocates(moves)
    ensures Shaped(c) && Inv(Run(c, moves))
    decreases |moves|
  {
    hide Inv, Shaped, Attempt, NextSchedule, Answer, Pop;
    ShapeOf(c);
    if moves != [] {
      var m := moves[0];
      match m {
        case Try(time, alloc, room, beyond) => AttemptKeeps(c, time, alloc, room, beyond);
        case Serve(k) => AnswerKeeps(c, k);
        case Read(time) => PopKeeps(c, time);
        case Switch(now, beyond) => SwitchKeeps(c, now, beyond);
      }
      RunKeeps(Step(c, m), moves[1..]);
    }
  }

  lemma StartOk(plan: seq<seq<nat>>, stamp: nat, max: int, now: nat)
    requires plan != [] && forall k :: 0 <= k < |plan| ==> plan[k] != []
    ensures Inv(Start(plan, stamp, max, now)) && Counted(Start(plan, stamp, max, now))
  {
    hide Xor, Base;
  }

  /** With one response per request and every allocation served, over all schedules of any run:
      each response read completes the one request it answers, which was sent before and not yet
      completed; no request is credited twice; and the requests without a response are exactly
      those on the network or waiting to be read. */
  lemma EveryResponseCredited(plan: seq<seq<nat>>, stamp: nat, max: int, now: nat, moves: seq<Move>, time: nat)
    requires plan != [] && forall k :: 0 <= k < |plan| ==> plan[k] != []
    requires Allocates(moves)
    ensures var c := Run(Start(plan, stamp, max, now), moves);
            && |c.sent| - |c.credited| == |c.wire| + |c.inbound|
            && (forall i, j :: 0 <= i < j < |c.credited| ==> c.credited[i] != c.credited[j])
            && (forall i :: 0 <= i < |c.credited| ==> c.credited[i] in c.sent)
            && (c.inbound != [] && !c.over ==>
                  var i := Xor(c.inbound[0], stamp);
                  && i in c.sent && i !in c.credited && i < |c.requests|
                  && Pop(c, time).requests[i].completed == time
                  && forall k :: 0 <= k < |c.requests| && k != i ==> Pop(c, time).requests[k] == c.requests[k])
  {
    hide Xor, Base, Run, Start;
    StartOk(plan, stamp, max, now);
    RunKeeps(Start(plan, stamp, max, now), moves);
    var c := Run(Start(plan, stamp, max, now), moves);
    CreditedOnce(c);
    if c.inbound != [] { NextCredit(c, 0); }
  }

  lemma CreditedOnce(c: State)
    requires Inv(c)
    ensures |c.sent| - |c.credited| == |c.wire| + |c.inbound|
    ensures forall i, j :: 0 <= i < j < |c.credited| ==> c.credited[i] != c.credited[j]
    ensures forall i :: 0 <= i < |c.credited| ==> c.credited[i] in c.sent
  {
    hide Xor, Base, IdsOk;
    assert |multiset(c.sent)| == |c.sent|;
    forall x
      ensures multiset(c.sent)[x] <= 1
    {
      AtMostOnce(c.sent, x);
    }
    forall i, j | 0 <= i < j < |c.credited|
      ensures c.credited[i] != c.credited[j]
    {
      assert multiset(c.credited)[c.credited[i]] <= multiset(c.sent)[c.credited[i]] <= 1;
      TwoPlaces(c.credited, i, j);
    }
    forall i | 0 <= i < |c.credited|
      ensures c.credited[i] in c.sent
    {
      assert c.credited[i] in multiset(c.credited);
      assert c.credited[i] in multiset(c.sent);
    }
  }

  lemma {:induction false} AtMostOnce(s: seq<nat>, x: nat)
    requires forall i, j :: 0 <= i < j < |s| ==> s[i] < s[j]
    ensures multiset(s)[x] <= 1
  {
    if s != [] {
      var n := |s| - 1;
      assert s == s[..n] + [s[n]];
      AtMostOnce(s[..n], x);
      if x == s[n] { assert x !in s[..n]; }
    }
  }

  lemma TwoPlaces(s: seq<nat>, i: nat, j: nat)
    requires i < j < |s|
    ensures s[i] == s[j] ==> multiset(s)[s[i]] >= 2
  {
    assert s == s[..j] + s[j..];
    assert s[i] in s[..j] && s[j] in s[j..];
  }

  // Every response waiting to be read names a request that was sent and not yet credited.
  lemma NextCredit(c: State, k: nat)
    requires Inv(c) && k < |c.inbound|
    ensures var i := Xor(c.inbound[k], c.stamp); i in c.sent && i !in c.credited && i < |c.requests|
  {
    hide Xor, Base, IdsOk;
    var i := Xor(c.inbound[k], c.stamp);
    assert Decoded(c.inbound, c.stamp)[k] == i;
    assert i in multiset(Decoded(c.inbound, c.stamp));
    assert i in multiset(c.sent);
    AtMostOnce(c.sent, i);
    assert i in c.sent;
    BaseGrows(c.plan, c.current, |c.plan|);
  }

  // ---------- what the hypotheses are for ----------

  /** A failed allocation leaves the request pending without a packet, and the next attempt that
      finds room counts it as sent all the same: a round sends a null packet exactly when the
      pending request has none. */
  lemma NullSendExact(c: State, time: nat, alloc: nat, room: bool, beyond: nat)
    requires Shaped(c)
    ensures Attempt(c, time, alloc, room, beyond).nulls > c.nulls <==>
              && Due(c, time) && Allowed(c) && room && c.offset + c.counts.sendIndex < |c.requests|
              && c.next.Next? && c.requests[c.next.index].mbuf == 0
  {
    hide Xor, Base;
  }

  // A round whose allocation fails, and one that sends.
  lemma AllocFails(c: State, time: nat, room: bool, beyond: nat)
    requires Shaped(c) && Due(c, time) && Allowed(c) && c.next.Nothing?
    ensures var d := Attempt(c, time, 0, room, beyond); var i := c.offset + c.counts.sendIndex;
            && i < |c.requests| && d.next == Next(i) && d.requests[i].mbuf == 0
            && Due(d, time) && Allowed(d) && d.counts.sendIndex == c.counts.sendIndex && d.nulls == c.nulls
            && d.offset == c.offset && |d.requests| == |c.requests|
  {
    hide Xor, Base;
    IndexInRange(c);
  }

  lemma AttemptSends(c: State, time: nat, alloc: nat, beyond: nat)
    requires Shaped(c) && Due(c, time) && Allowed(c) && c.next.Nothing? && alloc != 0
    ensures var d := Attempt(c, time, alloc, true, beyond);
            && d.sent == c.sent + [c.offset + c.counts.sendIndex] && d.credited == c.credited
            && d.counts.sendIndex == c.counts.sendIndex + 1 && d.current == c.current && d.over == c.over
            && d.it == c.it + 1 && (c.it < |Times(c)| ==> d.strays == c.strays)
            && d.complete == (c.complete || TimeAt(c, beyond) >= EndTime(c))
  {
    hide Xor, Base;
    IndexInRange(c);
  }

  // The first allocation fails; the second attempt finds room.
  lemma NullSendHappens(plan: seq<seq<nat>>, stamp: nat)
    requires plan == [[0, 10]]
    ensures Run(Start(plan, stamp, 1, 0), [Try(0, 0, true, 0), Try(0, 7, true, 0)]).nulls > 0
  {
    hide Xor, Base, Attempt, Run;
    var c := Start(plan, stamp, 1, 0);
    assert Times(c) == [0, 10];
    var a, b := Try(0, 0, true, 0), Try(0, 7, true, 0);
    TwoMoves(c, a, b);
    AllocFails(c, 0, true, 0);
    NullSendExact(Step(c, a), 0, 7, true, 0);
  }

  lemma TwoMoves(c: State, a: Move, b: Move)
    requires Shaped(c)
    ensures Run(c, [a, b]) == Step(Step(c, a), b)
  {
    hide Step;
    assert [a, b][1..] == [b] && [b][1..] == [];
    assert Run(Step(c, a), [b]) == Run(Step(Step(c, a), b), []);
  }

  // ---------- the limit across schedules ----------

  // Requests sent and not answered, whichever schedule they belong to.
  function Outstanding(c: State): int
  {
    |c.sent| - |c.credited|
  }

  // Every schedule on the way is left only when nothing is outstanding.
  ghost predicate LeavesNothing(c: State, moves: seq<Move>)
    requires Shaped(c)
    decreases |moves|
  {
    moves == [] ||
    ((moves[0].Switch? ==> Outstanding(c) == 0) && LeavesNothing(Step(c, moves[0]), moves[1..]))
  }

  lemma {:induction false} NothingCarried(c: State, moves: seq<Move>)
    requires Shaped(c) && Counted(c) && c.sentBefore == c.recvBefore && LeavesNothing(c, moves)
    ensures Counted(Run(c, moves)) && Run(c, moves).sentBefore == Run(c, moves).recvBefore
    decreases |moves|
  {
    hide Step, Counted;
    if moves != [] {
      StepCounts(c, moves[0]);
      CarryStep(c, moves[0]);
      NothingCarried(Step(c, moves[0]), moves[1..]);
    }
  }

  lemma CarryStep(c: State, m: Move)
    requires Shaped(c) && Counted(c) && c.sentBefore == c.recvBefore && (m.Switch? ==> Outstanding(c) == 0)
    ensures Step(c, m).sentBefore == Step(c, m).recvBefore
  {
    hide Xor, Base;
  }

  /** If every schedule is left with nothing outstanding, the limit holds for the requests really
      outstanding, over all schedules. */
  lemma LimitHolds(plan: seq<seq<nat>>, stamp: nat, max: nat, now: nat, moves: seq<Move>)
    requires plan != [] && forall k :: 0 <= k < |plan| ==> plan[k] != []
    requires LeavesNothing(Start(plan, stamp, max, now), moves)
    ensures Outstanding(Run(Start(plan, stamp, max, now), moves)) <= max
  {
    hide Run, Xor, Base, LeavesNothing;
    NothingCarried(Start(plan, stamp, max, now), moves);
  }

  // No move on the way leaves the schedule.
  predicate Stays(moves: seq<Move>)
  {
    forall i :: 0 <= i < |moves| ==> !moves[i].Switch?
  }

  ghost predicate CanExceed(c: State)
    requires Shaped(c)
  {
    exists moves :: Stays(moves) && Outstanding(Run(c, moves)) > c.max
  }

  lemma {:induction false} StaysInSchedule(c: State, moves: seq<Move>)
    requires Shaped(c) && Counted(c) && Stays(moves)
    ensures var d := Run(c, moves);
            && Counted(d) && d.current == c.current && d.sentBefore == c.sentBefore && d.recvBefore == c.recvBefore
            && d.plan == c.plan && d.max == c.max
    decreases |moves|
  {
    hide Step, Counted;
    if moves != [] {
      StepCounts(c, moves[0]);
      StayStep(c, moves[0]);
      StaysInSchedule(Step(c, moves[0]), moves[1..]);
    }
  }

  lemma StayStep(c: State, m: Move)
    requires Shaped(c) && !m.Switch?
    ensures var d := Step(c, m); d.current == c.current && d.sentBefore == c.sentBefore && d.recvBefore == c.recvBefore
  {
    hide Xor, Base;
  }

  // k attempts in a row, all at one clock reading, all with packet and room.
  function Volley(time: nat, k: nat): seq<Move>
  {
    if k == 0 then [] else Volley(time, k - 1) + [Try(time, 1, true, 0)]
  }

  lemma {:induction false} RunAppend(c: State, moves: seq<Move>, m: Move)
    requires Shaped(c)
    ensures Run(c, moves + [m]) == Step(Run(c, moves), m)
    decreases |moves|
  {
    hide Step;
    if moves == [] {
      OneMove(c, m);
      assert [] + [m] == [m];
    } else {
      assert (moves + [m])[1..] == moves[1..] + [m];
      RunAppend(Step(c, moves[0]), moves[1..], m);
    }
  }

  // At the time of entry m - 1, the first m requests of a fresh schedule can all go out.
  ghost predicate Fresh(c: State)
  {
    Shaped(c) && !c.over && c.counts == Counters(0, 0, 0, 0) && c.it == 1 && c.next.Nothing? && IteratorOk(c)
  }

  // k requests into a fresh schedule.
  ghost predicate Into(c: State, d: State, k: nat)
    requires Shaped(c)
  {
    && Shaped(d) && d.plan == c.plan && d.max == c.max && d.current == c.current && d.startOffset == c.startOffset
    && d.counts.sendIndex == k && d.counts.recv == 0 && d.it == k + 1 && d.next.Nothing? && !d.over
    && (k < |Times(c)| ==> IteratorOk(d)) && Outstanding(d) == Outstanding(c) + k
  }

  lemma {:induction false} VolleySends(c: State, m: nat, k: nat)
    requires Fresh(c) && Ascending(Times(c)) && k <= m <= |Times(c)| && m > 0 && c.max >= m
    ensures Into(c, Run(c, Volley(Times(c)[m - 1] + c.startOffset, k)), k)
  {
    hide Into, Attempt, Base, Ascending, Run, Volley, Step;
    var t := Times(c)[m - 1] + c.startOffset;
    VolleyRun(c, t, k);
    if k == 0 {
      IntoNone(c);
    } else {
      VolleySends(c, m, k - 1);
      var d := Run(c, Volley(t, k - 1));
      InOrder(Times(c), k - 1, m - 1);
      InOrder(Times(c), m - 1, |Times(c)| - 1);
      IntoNext(c, d, t, k - 1);
    }
  }

  lemma VolleyRun(c: State, t: nat, k: nat)
    requires Shaped(c)
    ensures k == 0 ==> Run(c, Volley(t, k)) == c
    ensures k > 0 ==> Run(c, Volley(t, k)) == Attempt(Run(c, Volley(t, k - 1)), t, 1, true, 0)
  {
    hide Attempt, Shaped;
    if k > 0 { RunAppend(c, Volley(t, k - 1), Try(t, 1, true, 0)); }
  }

  lemma IntoNone(c: State)
    requires Fresh(c)
    ensures Into(c, c, 0)
  {
  }

  lemma IntoNext(c: State, d: State, t: nat, k: nat)
    requires Shaped(c) && Into(c, d, k) && k < |Times(c)| && c.max > k
    requires Times(c)[k] + c.startOffset <= t <= EndTime(c)
    ensures Shaped(d) && Into(c, Attempt(d, t, 1, true, 0), k + 1)
  {
    hide Base, Attempt;
    VolleyStep(d, t);
  }

  lemma InOrder(times: seq<nat>, i: nat, j: nat)
    requires Ascending(times) && i <= j < |times|
    ensures times[i] <= times[j]
  {
  }

  lemma VolleyStep(d: State, t: nat)
    requires Shaped(d) && Due(d, t) && Allowed(d) && d.next.Nothing? && IteratorOk(d) && d.it <= |Times(d)|
    ensures var e := Attempt(d, t, 1, true, 0);
            && e.counts.sendIndex == d.counts.sendIndex + 1 && e.counts.recv == d.counts.recv && e.it == d.it + 1
            && e.next.Nothing? && !e.over && (d.it < |Times(d)| ==> IteratorOk(e)) && e.current == d.current
            && e.startOffset == d.startOffset && Outstanding(e) == Outstanding(d) + 1
  {
    hide Xor, Base;
    IndexInRange(d);
  }

  /** Leaving a schedule with u requests outstanding: in the next schedule the requests really
      outstanding can exceed the limit if and only if u and what that schedule may have in flight,
      the smaller of the limit and its length, come to more than the limit. */
  lemma CarriedOverExact(c: State, now: nat, beyond: nat)
    requires Shaped(c) && Counted(c) && !c.over && c.max >= 0 && c.current + 1 < |c.plan|
    requires Ascending(c.plan[c.current + 1])
    ensures CanExceed(NextSchedule(c, now, beyond)) <==>
              Outstanding(c) + Least(c.max, |c.plan[c.current + 1]|) > c.max
  {
    hide Xor, Base, Run, Volley;
    var d := NextSchedule(c, now, beyond);
    var m := Least(c.max, |c.plan[c.current + 1]|);
    NextStart(c, now, beyond);
    if Outstanding(c) + m > c.max {
      if m == 0 {
        assert Stays([]) && Run(d, []) == d by { NoMoves(d); }
      } else {
        var t := Times(d)[m - 1] + d.startOffset;
        assert Fresh(d);
        VolleySends(d, m, m);
        VolleyStays(t, m);
      }
    } else {
      forall moves | Stays(moves)
        ensures Outstanding(Run(d, moves)) <= c.max
      {
        StaysInSchedule(d, moves);
      }
    }
  }

  lemma NoMoves(c: State)
    requires Shaped(c)
    ensures Run(c, []) == c
  {
  }

  lemma {:induction false} VolleyStays(t: nat, k: nat)
    ensures Stays(Volley(t, k))
  {
    if k > 0 { VolleyStays(t, k - 1); }
  }

  lemma NextStart(c: State, now: nat, beyond: nat)
    requires Shaped(c) && Counted(c) && !c.over && c.max >= 0 && c.current + 1 < |c.plan|
    ensures var d := NextSchedule(c, now, beyond);
            && Counted(d) && !d.over && d.counts == Counters(0, 0, 0, 0) && d.it == 1 && d.next.Nothing?
            && IteratorOk(d) && Times(d) == c.plan[c.current + 1] && Outstanding(d) == Outstanding(c) && d.max == c.max
            && d.sentBefore - d.recvBefore == Outstanding(c) && d.current == c.current + 1 && d.plan == c.plan
  {
    hide Xor, Base;
  }

  // Two schedules of two requests, a limit of one, the clock well before either end, no response:
  // two are outstanding.
  lemma LimitIsPerSchedule(plan: seq<seq<nat>>, stamp: nat)
    requires plan == [[5, 9], [5, 9]]
    ensures var c := Run(Start(plan, stamp, 1, 0), [Try(5, 7, true, 0), Switch(0, 0), Try(5, 8, true, 0)]);
            Outstanding(c) == 2 && c.strays == 0
  {
    hide Xor, Run, Base, Attempt;
    var c := Start(plan, stamp, 1, 0);
    assert Times(c) == [5, 9];
    ThreeMoves(c, Try(5, 7, true, 0), Switch(0, 0), Try(5, 8, true, 0));
    AttemptSends(c, 5, 7, 0);
    var d := Attempt(c, 5, 7, true, 0);
    var e := NextSchedule(d, 0, 0);
    assert Times(e) == [5, 9];
    AttemptSends(e, 5, 8, 0);
  }

  lemma ThreeMoves(c: State, a: Move, b: Move, d: Move)
    requires Shaped(c)
    ensures Run(c, [a, b, d]) == Step(Step(Step(c, a), b), d)
  {
    hide Step;
    assert [a, b, d][1..] == [b, d];
    TwoMoves(Step(c, a), b, d);
  }

  // ---------- reading send times ----------

  // The next send time is the one before the iterator.
  predicate IteratorOk(c: State)
    requires Shaped(c)
  {
    c.it >= 1 && (c.it <= |Times(c)| ==> c.nextTime == Times(c)[c.it - 1] + c.startOffset)
  }

  predicate Ascending(times: seq<nat>)
  {
    forall i, j :: 0 <= i < j < |times| ==> times[i] <= times[j]
  }

  // The round goes on to read the next send time with the iterator at the end.
  predicate StrayTry(c: State, m: Move)
    requires Shaped(c)
  {
    && m.Try? && !c.over && c.it == |Times(c)| && m.time == EndTime(c)
    && c.counts.sendIndex < |Times(c)| && !Breaks(c, m.alloc, m.room)
  }

  /** A round reads an entry behind the last exactly when the iterator is at the end and the loop's
      clock equals the end time to the nanosecond. */
  lemma OverrunExact(c: State, time: nat, alloc: nat, room: bool, beyond: nat)
    requires Shaped(c) && IteratorOk(c) && c.it <= |Times(c)|
    ensures var d := Attempt(c, time, alloc, room, beyond); var m := Try(time, alloc, room, beyond);
            && d.strays == c.strays + (if StrayTry(c, m) then 1 else 0)
            && (d.it > |Times(c)| <==> StrayTry(c, m)) && d.current == c.current && d.over == c.over
            && d.startOffset == c.startOffset && (d.it <= |Times(c)| ==> IteratorOk(d))
            && (d.it == c.it ==> d.complete == c.complete)
            && (c.it < d.it <= |Times(c)| ==> d.it == c.it + 1 && (d.it == |Times(c)| ==> d.complete))
  {
    hide Xor, Base, Tried;
    if c.counts.sendIndex < |Times(c)| { IndexInRange(c); }
    if Due(c, time) {
      TriedReads(c.(counts := c.counts.(attempts := c.counts.attempts + 1)), alloc, room, beyond);
    }
  }

  // In a schedule of one request the iterator is at the end from the start.
  predicate ReadOk(c: State)
    requires Shaped(c)
  {
    && IteratorOk(c) && c.it <= |Times(c)|
    && (if |Times(c)| == 1 then !c.complete else c.it == |Times(c)| ==> c.complete)
  }

  /** Leaving a schedule reads behind the last entry exactly when the iterator is at the end and the
      end was not noticed; short of a stray round, that is every schedule of one request and no other. */
  lemma EndReadExact(c: State, now: nat, beyond: nat)
    requires Shaped(c) && !c.over
    ensures NextSchedule(c, now, beyond).strays > c.strays <==> c.it >= |Times(c)| && !c.complete
    ensures ReadOk(c) ==> (NextSchedule(c, now, beyond).strays > c.strays <==> |Times(c)| == 1)
    ensures NextSchedule(c, now, beyond).strays >= c.strays
  {
    hide Xor, Base;
  }

  // Schedules played to the end.
  function Finished(c: State): nat
  {
    if c.over then |c.plan| else c.current
  }

  ghost predicate NoStrayTry(c: State, moves: seq<Move>)
    requires Shaped(c)
    decreases |moves|
  {
    moves == [] || (!StrayTry(c, moves[0]) && NoStrayTry(Step(c, moves[0]), moves[1..]))
  }

  predicate LongFrom(plan: seq<seq<nat>>, i: nat, j: nat)
  {
    forall k :: i <= k < j && k < |plan| ==> |plan[k]| >= 2
  }

  lemma {:induction false} StraysGrow(c: State, moves: seq<Move>)
    requires Shaped(c)
    ensures Run(c, moves).strays >= c.strays && Finished(Run(c, moves)) >= Finished(c)
    decreases |moves|
  {
    hide Step;
    if moves != [] {
      StrayStepGrows(c, moves[0]);
      StraysGrow(Step(c, moves[0]), moves[1..]);
    }
  }

  lemma StrayStepGrows(c: State, m: Move)
    requires Shaped(c)
    ensures Step(c, m).strays >= c.strays && Finished(Step(c, m)) >= Finished(c)
  {
    hide Xor, Base;
  }

  // What one move does to the reads.
  lemma ReadStep(c: State, m: Move)
    requires Shaped(c) && ReadOk(c)
    ensures var d := Step(c, m);
            && (StrayTry(c, m) ==> d.strays > c.strays)
            && (!StrayTry(c, m) ==>
                  && ReadOk(d)
                  && Finished(c) <= Finished(d)
                  && (d.strays == c.strays <==> LongFrom(c.plan, Finished(c), Finished(d))))
  {
    hide Xor, Base, Attempt;
    match m
    case Try(time, alloc, room, beyond) => OverrunExact(c, time, alloc, room, beyond);
    case Serve(k) =>
    case Read(time) =>
    case Switch(now, beyond) =>
      if !c.over { EndReadExact(c, now, beyond); }
  }

  lemma {:induction false} StraysFrom(c: State, moves: seq<Move>)
    requires Shaped(c) && ReadOk(c)
    ensures var d := Run(c, moves);
            d.strays == c.strays <==> NoStrayTry(c, moves) && LongFrom(c.plan, Finished(c), Finished(d))
    decreases |moves|
  {
    hide Step, ReadOk, StrayTry, LongFrom;
    if moves == [] {
      NothingFinished(c);
    } else {
      var d := Step(c, moves[0]);
      ReadStep(c, moves[0]);
      StraysGrow(d, moves[1..]);
      if !StrayTry(c, moves[0]) {
        StraysFrom(d, moves[1..]);
        LongSplit(c.plan, Finished(c), Finished(d), Finished(Run(d, moves[1..])));
        StrayStepGrows(c, moves[0]);
      }
    }
  }

  lemma NothingFinished(c: State)
    ensures LongFrom(c.plan, Finished(c), Finished(c))
  {
  }

  lemma LongSplit(plan: seq<seq<nat>>, i: nat, j: nat, k: nat)
    requires i <= j <= k
    ensures LongFrom(plan, i, k) <==> LongFrom(plan, i, j) && LongFrom(plan, j, k)
  {
  }

  /** Over every run of every plan: the client reads only entries of its schedules if and only if no
      round goes on at the end of a schedule with the clock at the end time, and every schedule
      played to its end has at least two requests. */
  lemma StraysExact(plan: seq<seq<nat>>, stamp: nat, max: int, now: nat, moves: seq<Move>)
    requires plan != [] && forall k :: 0 <= k < |plan| ==> plan[k] != []
    ensures var c := Start(plan, stamp, max, now); var d := Run(c, moves);
            d.strays == 0 <==> NoStrayTry(c, moves) && LongFrom(plan, 0, Finished(d))
  {
    hide Xor, Base, Run, NoStrayTry, LongFrom;
    StraysFrom(Start(plan, stamp, max, now), moves);
  }

  // A plan of one-request schedules, left without an attempt.
  lemma OneRequestStrays(plan: seq<seq<nat>>, stamp: nat, beyond: nat)
    requires plan == [[5], [5]]
    ensures Run(Start(plan, stamp, 1, 0), [Switch(9, beyond)]).strays == 1
  {
    hide Xor, Run, Base;
    var c := Start(plan, stamp, 1, 0);
    assert Times(c) == [5];
    OneMove(c, Switch(9, beyond));
  }

  lemma TriedReads(b: State, alloc: nat, room: bool, beyond: nat)
    requires Shaped(b) && b.counts.sendIndex < |Times(b)| && b.offset + b.counts.sendIndex < |b.requests|
    ensures var d := Tried(b, alloc, room, beyond);
            && d.current == b.current && d.startOffset == b.startOffset && d.over == b.over
            && (Breaks(b, alloc, room) ==>
                  d.it == b.it && d.nextTime == b.nextTime && d.strays == b.strays && d.complete == b.complete)
            && (!Breaks(b, alloc, room) ==>
                  && d.it == b.it + 1 && d.nextTime == TimeAt(b, beyond) && d.strays == b.strays + Stray(b)
                  && d.complete == (b.complete || d.nextTime >= EndTime(b)))
  {
    hide Base, Shaped, GenNextReq, Sent;
    GenFrame(b, alloc);
    var g := GenNextReq(b, alloc);
    SentFrame(g);
  }

  // What preparing and sending a request leave alone.
  lemma GenFrame(b: State, alloc: nat)
    requires Shaped(b) && b.counts.sendIndex < |Times(b)| && b.offset + b.counts.sendIndex < |b.requests|
    ensures var g := GenNextReq(b, alloc); g == b.(next := g.next, requests := g.requests) && g.next.Next?
  {
    hide Xor, Base;
  }

  lemma SentFrame(c: State)
    requires c.next.Next? && c.next.index < |c.requests|
    ensures var d := Sent(c);
            && d == c.(counts := d.counts, next := d.next, sent := d.sent, nulls := d.nulls, wire := d.wire)
            && d.counts == c.counts.(sendIndex := c.counts.sendIndex + 1) && |d.sent| == |c.sent| + 1
  {
  }

  // A schedule of one request whose clock hits the end time.
  lemma OverrunHappens(plan: seq<seq<nat>>, stamp: nat, beyond: nat)
    requires plan == [[5]]
    ensures Run(Start(plan, stamp, -1, 0), [Try(5, 7, true, beyond)]).strays == 1
  {
    hide Xor, Run, Base, Attempt;
    var c := Start(plan, stamp, -1, 0);
    assert Times(c) == [5];
    OverrunExact(c, 5, 7, true, beyond);
    OneMove(c, Try(5, 7, true, beyond));
  }

  lemma OneMove(c: State, m: Move)
    requires Shaped(c)
    ensures Run(c, [m]) == Step(c, m)
  {
    hide Step;
    assert [m][1..] == [];
  }
}
