/** The client's loops over its own fields, tied to the steps of module Client, and the
    generation of the schedules they play. */
module ClientPlayer {
  import opened Bits
  import opened Constants
  import opened Client

  // What the allocator, the outbound ring and the memory behind the send times offer one round.
  datatype Offer = Offer(alloc: nat, room: bool, beyond: nat)

  // The first k rounds as moves.
  function Tries(time: nat, offers: nat -> Offer, k: nat): seq<Move>
  {
    if k == 0 then []
    else
      var o := offers(k - 1);
      Tries(time, offers, k - 1) + [Try(time, o.alloc, o.room, o.beyond)]
  }

  function Reads(time: nat, k: nat): seq<Move>
  {
    if k == 0 then [] else Reads(time, k - 1) + [Read(time)]
  }

  // Where a schedule's clock stands.
  datatype Cursor = Cursor(startOffset: nat, endTime: nat, it: nat, nextTime: nat, complete: bool, lastSend: nat)

  // What no field of the program records.
  datatype History = History(sent: seq<nat>, credited: seq<nat>, nulls: nat, sentBefore: nat, recvBefore: nat,
                             strays: nat)

  class Player {
    const plan: seq<seq<nat>>
    const stamp: nat
    const max: int
    const requests: array<Request>
    var current: nat
    var offset: nat
    var counts: Counters
    var cur: Cursor
    var next: Pending
    var over: bool
    var wire: seq<nat>
    var inbound: seq<nat>
    ghost var hist: History

    ghost function View(): State
      reads this, requests
    {
      State(plan, current, stamp, max, requests[..], offset, counts,
            cur.startOffset, cur.it, cur.nextTime, next, cur.complete, wire, inbound,
            hist.sent, hist.credited, hist.nulls, hist.sentBefore, hist.recvBefore, cur.lastSend, hist.strays, over)
    }

    ghost predicate Valid()
      reads this, requests
    {
      current < |plan| && plan[current] != [] && Shaped(View()) && cur.endTime == EndTime(View())
    }

    constructor (plan: seq<seq<nat>>, stamp: nat, max: int, now: nat)
      requires plan != [] && forall k :: 0 <= k < |plan| ==> plan[k] != []
      ensures Valid() && fresh(requests) && View() == Start(plan, stamp, max, now)
    {
      this.plan, this.stamp, this.max := plan, stamp, max;
      requests := new Request[Base(plan, |plan|)](i requires i >= 0 => Request(i, 0, 0));
      current, offset, counts := 0, 0, Counters(0, 0, 0, 0);
      cur := Cursor(now, plan[0][|plan[0]| - 1] + now, 1, plan[0][0] + now, false, 0);
      next, over := Nothing, false;
      wire, inbound := [], [];
      hist := History([], [], 0, 0, 0, 0);
      new;
      hide Base, Shaped;
      assert requests[..] == Start(plan, stamp, max, now).requests;
    }

    // gen_next_req
    method GenNextReq(alloc: nat) returns (ok: bool)
      requires Valid() && counts.sendIndex < |plan[current]| && offset + counts.sendIndex < requests.Length
      modifies this`next, requests
      ensures Valid() && View() == Client.GenNextReq(old(View()), alloc)
      ensures ok <==> !GenFailed(old(View()), alloc)
    {
      hide Base, Xor;
      if next.Next? {
        return true;
      }
      var i := offset + counts.sendIndex;
      ghost var was := requests[..];
      next := Next(i);
      requests[i] := requests[i].(id := Xor(requests[i].id, stamp), mbuf := alloc);
      assert requests[..] == was[i := was[i].(id := Xor(was[i].id, stamp), mbuf := alloc)];
      return alloc != 0;
    }

    // gen_next_send_time and the check for the end of the schedule
    method GenNextSendTime(beyond: nat)
      requires Valid()
      modifies this`cur, this`hist
      ensures Valid() && View() == Advance(old(View()), beyond)
    {
      hide Base, Shaped;
      ghost var was := View();
      Ends(was);
      var at := (if cur.it < |plan[current]| then plan[current][cur.it] else beyond) + cur.startOffset;
      hist := hist.(strays := hist.strays + Stray(View()));
      cur := cur.(nextTime := at, it := cur.it + 1);
      if cur.nextTime >= cur.endTime {
        cur := cur.(complete := true);
      }
      assert View() == Advance(was, beyond);
    }

    // send_request on a ring with room, and the bookkeeping behind it
    method SendPending()
      requires Valid() && next.Next? && next.index < requests.Length
      modifies this`counts, this`next, this`hist, this`wire
      ensures Valid() && View() == Sent(old(View()))
    {
      hide Base, Shaped;
      ghost var was := View();
      var r := requests[next.index];
      if r.mbuf != 0 {
        wire := wire + [r.id];
      }
      hist := hist.(sent := hist.sent + [next.index], nulls := hist.nulls + (if r.mbuf == 0 then 1 else 0));
      counts := counts.(sendIndex := counts.sendIndex + 1);
      next := Nothing;
      assert View() == Sent(was);
    }

    // The attempts that are not sent.
    method CountSkip()
      requires Valid()
      modifies this`counts
      ensures Valid() && View() == Skip(old(View()))
    {
      hide Base;
      counts := counts.(skipped := counts.skipped + 1);
    }

    method CountAttempt()
      requires Valid()
      modifies this`counts
      ensures Valid()
      ensures View() == old(View()).(counts := old(counts).(attempts := old(counts).attempts + 1))
    {
      hide Base;
      counts := counts.(attempts := counts.attempts + 1);
    }

    // One round of the send loop.
    method Round(time: nat, o: Offer) returns (broke: bool)
      requires Valid() && Due(View(), time)
      modifies this, requests
      ensures Valid() && View() == Attempt(old(View()), time, o.alloc, o.room, o.beyond)
      ensures broke == Breaks(old(View()), o.alloc, o.room)
      ensures current == old(current) && cur.endTime == old(cur).endTime
    {
      hide Base, Xor, Shaped, Client.GenNextReq, Sent, Advance, Skip;
      IndexInRange(View());
      ghost var was := View();
      CountAttempt();
      if max < 0 || max > counts.sendIndex - counts.recv {
        var ok := GenNextReq(o.alloc);
        if ok && o.room {
          PendingIndex(View());
          SendPending();
        } else {
          CountSkip();
          SameEnd(was, time, o);
          return true;
        }
      } else {
        CountSkip();
      }
      GenNextSendTime(o.beyond);
      SameEnd(was, time, o);
      return false;
    }

    /** The send loop: all attempts at one clock reading, until none is due or one breaks off.  The
        loop is followed up to a read behind the last send time. */
    method SendDue(time: nat, offers: nat -> Offer) returns (k: nat, broke: bool)
      requires Valid() && IteratorOk(View()) && cur.it <= |plan[current]| && !over
      modifies this, requests
      ensures Valid() && View() == Run(old(View()), Tries(time, offers, k)) && current == old(current)
      ensures broke ==> k > 0 && BrokeAt(old(View()), time, offers, k - 1)
      ensures broke || !Due(View(), time) || cur.it > |plan[current]|
    {
      hide Base, Xor, Shaped, Attempt, Breaks, IteratorOk, Run, Tries, StrayTry;
      k, broke := 0, false;
      ghost var start := View();
      StillShaped(start);
      NoTries(time, offers);
      while !broke && cur.nextTime <= time <= cur.endTime && counts.sendIndex < |plan[current]| &&
            cur.it <= |plan[current]|
        invariant current == old(current) && cur.endTime == old(cur).endTime && current < |plan| && !over
        invariant Valid() && View() == Run(start, Tries(time, offers, k))
        invariant cur.it <= |plan[current]| ==> IteratorOk(View())
        invariant broke ==> k > 0 && BrokeAt(start, time, offers, k - 1)
        decreases !broke, |plan[current]| + 1 - cur.it
      {
        var o := offers(k);
        RoundStays(View(), time, o);
        NextTry(start, time, offers, k);
        broke := Round(time, o);
        k := k + 1;
      }
    }

    /** The receive loop: up to eight responses, oldest first.  A response that names no request is
        where it is followed to. */
    method TakeAnswers(time: nat) returns (batch: nat, wild: bool)
      requires Valid() && !over
      modifies this, requests
      ensures Valid() && View() == Run(old(View()), Reads(time, batch))
      ensures batch <= |old(inbound)| && inbound == old(inbound)[batch..] && batch <= MAX_RX_BURST
      ensures forall i :: 0 <= i < batch ==> Xor(old(inbound)[i], stamp) < requests.Length
      ensures if wild then
                batch < MAX_RX_BURST && batch < |old(inbound)| && Xor(old(inbound)[batch], stamp) >= requests.Length
              else batch == Least(|old(inbound)|, MAX_RX_BURST)
    {
      hide Base, Xor, Shaped, Pop, Run, Reads;
      batch, wild := 0, false;
      ghost var start := View();
      StillShaped(start);
      NoReads(time);
      assert inbound[0..] == inbound;
      while inbound != [] && batch < MAX_RX_BURST && !wild
        invariant Valid() && View() == Run(start, Reads(time, batch)) && !over
        invariant batch <= |start.inbound| && inbound == start.inbound[batch..] && batch <= MAX_RX_BURST
        invariant forall i :: 0 <= i < batch ==> Xor(start.inbound[i], stamp) < requests.Length
        invariant wild ==> batch < MAX_RX_BURST && inbound != [] && Xor(inbound[0], stamp) >= requests.Length
        decreases |inbound|, !wild
      {
        if Xor(inbound[0], stamp) >= requests.Length {
          wild := true;
        } else {
          NextRead(start, time, batch);
          assert start.inbound[batch..][1..] == start.inbound[batch + 1..];
          PopOne(time);
          batch := batch + 1;
        }
      }
    }

    // Behind the loop of play_schedule.
    method NoteLastSend(beyond: nat)
      requires Valid()
      modifies this`cur, this`hist
      ensures Valid() && View() == EndSchedule(old(View()), beyond)
    {
      hide Base;
      if cur.complete {
        cur := cur.(lastSend := cur.endTime);
      } else {
        hist := hist.(strays := hist.strays + Stray(View()));
        cur := cur.(lastSend := (if cur.it < |plan[current]| then plan[current][cur.it] else beyond) + cur.startOffset);
      }
    }

    // send_offset is moved on and the next schedule entered with its counters at zero.
    method Enter(now: nat)
      requires Valid() && current + 1 < |plan| && plan[current + 1] != []
      modifies this`offset, this`current, this`counts, this`hist, this`cur, this`next
      ensures current == old(current) + 1 && cur.endTime == plan[current][|plan[current]| - 1] + cur.startOffset
      ensures View() == StartSchedule(old(View()).(offset := old(offset) + |plan[old(current)]|,
                                                   sentBefore := old(hist).sentBefore + old(counts).sendIndex,
                                                   recvBefore := old(hist).recvBefore + old(counts).recv),
                                      current, now)
    {
      hide Base, Shaped;
      hist := hist.(sentBefore := hist.sentBefore + counts.sendIndex, recvBefore := hist.recvBefore + counts.recv);
      offset := offset + |plan[current]|;
      current := current + 1;
      counts := Counters(0, 0, 0, 0);
      var times := plan[current];
      cur := Cursor(now, times[|times| - 1] + now, 1, times[0] + now, false, cur.lastSend);
      next := Nothing;
    }

    method FinishSchedule(now: nat, beyond: nat)
      requires Valid()
      modifies this
      ensures Valid() && View() == NextSchedule(old(View()), now, beyond)
    {
      hide Base;
      if over {
        return;
      }
      ghost var was := View();
      NextTimes(was, now, beyond);
      NoteLastSend(beyond);
      if current + 1 == |plan| {
        over := true;
      } else {
        Enter(now);
      }
    }

    method PopOne(time: nat)
      requires Valid() && !over && inbound != [] && Xor(inbound[0], stamp) < requests.Length
      modifies this`counts, this`hist, this`inbound, requests
      ensures Valid() && View() == Pop(old(View()), time) && inbound == old(inbound)[1..]
    {
      hide Base, Xor;
      ghost var was := requests[..];
      var i := Xor(inbound[0], stamp);
      inbound := inbound[1..];
      requests[i] := requests[i].(completed := time);
      assert requests[..] == was[i := was[i].(completed := time)];
      hist := hist.(credited := hist.credited + [i]);
      counts := counts.(recv := counts.recv + 1);
    }
  }

  lemma SameEnd(c: State, time: nat, o: Offer)
    requires Shaped(c)
    ensures var d := Attempt(c, time, o.alloc, o.room, o.beyond);
            d.current == c.current && d.startOffset == c.startOffset && EndTime(d) == EndTime(c)
  {
    hide Base, Xor, Tried;
    if Due(c, time) {
      IndexInRange(c);
      TriedReads(c.(counts := c.counts.(attempts := c.counts.attempts + 1)), o.alloc, o.room, o.beyond);
    }
  }

  lemma Ends(c: State)
    requires Shaped(c)
    ensures c.current < |c.plan| && Times(c) != []
  {
  }

  lemma NextTimes(c: State, now: nat, beyond: nat)
    requires Shaped(c) && !c.over
    ensures var d := NextSchedule(c, now, beyond); Times(d) != [] && d.current < |d.plan|
  {
    hide Base;
  }

  // Round k of the loop leaves it by `break`.
  ghost predicate BrokeAt(c: State, time: nat, offers: nat -> Offer, k: nat)
    requires Shaped(c)
  {
    Breaks(Run(c, Tries(time, offers, k)), offers(k).alloc, offers(k).room)
  }

  lemma PendingIndex(c: State)
    requires Shaped(c) && c.next.Next?
    ensures c.next.index < |c.requests|
  {
    IndexInRange(c);
  }

  lemma StillShaped(c: State)
    requires Shaped(c)
    ensures Run(c, []) == c
  {
  }

  lemma NoReads(time: nat)
    ensures Reads(time, 0) == []
  {
  }

  lemma NextRead(start: State, time: nat, k: nat)
    requires Shaped(start)
    ensures Run(start, Reads(time, k + 1)) == Pop(Run(start, Reads(time, k)), time)
  {
    hide Pop, Run;
    RunAppend(start, Reads(time, k), Read(time));
  }

  lemma NoTries(time: nat, offers: nat -> Offer)
    ensures Tries(time, offers, 0) == []
  {
  }

  lemma NextTry(start: State, time: nat, offers: nat -> Offer, k: nat)
    requires Shaped(start)
    ensures var c := Run(start, Tries(time, offers, k)); var o := offers(k);
            Run(start, Tries(time, offers, k + 1)) == Attempt(c, time, o.alloc, o.room, o.beyond)
  {
    hide Attempt, Run;
    RunAppend(start, Tries(time, offers, k), Try(time, offers(k).alloc, offers(k).room, offers(k).beyond));
  }

  lemma RoundStays(c: State, time: nat, o: Offer)
    requires Shaped(c) && Due(c, time) && IteratorOk(c) && c.it <= |Times(c)|
    ensures var d := Attempt(c, time, o.alloc, o.room, o.beyond);
            && d.current == c.current && (d.it <= |Times(c)| ==> IteratorOk(d)) && d.over == c.over
            && (!Breaks(c, o.alloc, o.room) ==> d.it == c.it + 1)
  {
    hide Attempt, IteratorOk, Breaks;
    OverrunExact(c, time, o.alloc, o.room, o.beyond);
    RoundMoves(c, time, o.alloc, o.room, o.beyond);
  }

  // A round that does not break moves the iterator on; every round stays in the schedule.
  lemma RoundMoves(c: State, time: nat, alloc: nat, room: bool, beyond: nat)
    requires Shaped(c) && Due(c, time)
    ensures var d := Attempt(c, time, alloc, room, beyond);
            d.current == c.current && (!Breaks(c, alloc, room) ==> d.it == c.it + 1)
  {
    hide Base, Xor, Tried;
    IndexInRange(c);
    TriedReads(c.(counts := c.counts.(attempts := c.counts.attempts + 1)), alloc, room, beyond);
  }

  // ---------- generating a schedule ----------

  // Time after k intervals.
  function Elapsed(draws: nat -> nat, k: nat): nat
  {
    if k == 0 then 0 else Elapsed(draws, k - 1) + draws(k - 1)
  }

  predicate Numbered(requests: seq<Request>)
  {
    forall i :: 0 <= i < |requests| ==> requests[i].id == i && requests[i].mbuf == 0
  }

  lemma {:induction false} ElapsedGrows(draws: nat -> nat, j: nat, k: nat)
    requires j <= k
    ensures Elapsed(draws, j) <= Elapsed(draws, k)
    decreases k
  {
    if j < k { ElapsedGrows(draws, j, k - 1); }
  }

  // The first i ratios added up.
  function Cumulated(ratios: seq<real>, i: nat): real
    requires i <= |ratios|
  {
    if i == 0 then 0.0 else Cumulated(ratios, i - 1) + ratios[i - 1]
  }

  predicate UsesUp(ratios: seq<real>, roll: real, n: nat)
    requires n <= |ratios|
  {
    forall j :: 1 <= j <= n ==> roll >= Cumulated(ratios, j)
  }

  // Command i is the first whose cumulated share exceeds the roll.
  predicate Picks(ratios: seq<real>, roll: real, i: nat)
  {
    i < |ratios| && roll < Cumulated(ratios, i + 1) && UsesUp(ratios, roll, i)
  }

  /** The choice of a request type: the roll is used up ratio by ratio.  It fails exactly when no
      cumulated share exceeds the roll. */
  method PickCommand(ratios: seq<real>, roll: real) returns (idx: int)
    ensures idx == -1 || (idx >= 0 && Picks(ratios, roll, idx))
    ensures idx == -1 <==> UsesUp(ratios, roll, |ratios|)
  {
    idx := -1;
    var r := roll;
    for i := 0 to |ratios|
      invariant idx == -1 && r == roll - Cumulated(ratios, i)
      invariant UsesUp(ratios, roll, i)
    {
      if r < ratios[i] {
        assert roll < Cumulated(ratios, i + 1);
        return i;
      }
      r := r - ratios[i];
    }
  }

  // The mix of request types: their shares, their run times, and whether packets carry run times.
  datatype Load = Load(ratios: seq<real>, reqsUs: seq<nat>, carries: bool)

  function RunTime(load: Load, kind: nat): nat
    requires load.carries ==> kind < |load.reqsUs|
  {
    if load.carries then load.reqsUs[kind] else 0
  }

  // Everything gen_schedule decides about the requests so far.
  ghost predicate Generated(existing: seq<Request>, startTime: nat, draws: nat -> nat, rolls: nat -> real,
                            load: Load, requests: seq<Request>, times: seq<nat>, kinds: seq<nat>, runs: seq<nat>)
  {
    && |kinds| == |runs| == |times| && |requests| == |existing| + |times| && requests[..|existing|] == existing
    && (Numbered(existing) ==> Numbered(requests))
    && (forall i :: 0 <= i < |times| ==> times[i] == startTime + Elapsed(draws, i + 1))
    && (forall i :: 0 <= i < |times| ==> Picks(load.ratios, rolls(i), kinds[i]))
    && (forall i :: 0 <= i < |times| ==>
          (load.carries ==> kinds[i] < |load.reqsUs|) && runs[i] == RunTime(load, kinds[i]))
  }

  lemma GenerateOne(existing: seq<Request>, startTime: nat, draws: nat -> nat, rolls: nat -> real,
                    load: Load, requests: seq<Request>, times: seq<nat>, kinds: seq<nat>, runs: seq<nat>,
                    kind: nat)
    requires Generated(existing, startTime, draws, rolls, load, requests, times, kinds, runs)
    requires Picks(load.ratios, rolls(|times|), kind) && (load.carries ==> kind < |load.reqsUs|)
    ensures Generated(existing, startTime, draws, rolls, load, requests + [Request(|requests|, 0, 0)],
                      times + [startTime + Elapsed(draws, |times| + 1)], kinds + [kind], runs + [RunTime(load, kind)])
  {
    hide Picks, Elapsed;
  }

  lemma PickedInside(ratios: seq<real>, roll: real, i: nat)
    requires Picks(ratios, roll, i)
    ensures i < |ratios|
  {
  }

  lemma NoneGenerated(existing: seq<Request>, startTime: nat, draws: nat -> nat, rolls: nat -> real, load: Load)
    ensures Generated(existing, startTime, draws, rolls, load, existing, [], [], [])
  {
  }

  lemma GeneratedAscends(existing: seq<Request>, startTime: nat, draws: nat -> nat, rolls: nat -> real,
                         load: Load, requests: seq<Request>, times: seq<nat>, kinds: seq<nat>, runs: seq<nat>)
    requires Generated(existing, startTime, draws, rolls, load, requests, times, kinds, runs)
    ensures Ascending(times)
  {
    hide Picks, Elapsed;
    forall i, j | 0 <= i < j < |times|
      ensures times[i] <= times[j]
    {
      ElapsedGrows(draws, i + 1, j + 1);
    }
  }

  /** gen_schedule: one request per send time, numbered on from the requests there already are, its
      type picked by its roll, with the run time of that type where packets carry one.  Send times
      ascend, and the last is the first one past the duration.  The intervals drawn must add up to
      more than the duration.  The program aborts at the first roll that picks no type. */
  method GenSchedule(existing: seq<Request>, startTime: nat, duration: nat, draws: nat -> nat,
                     load: Load, rolls: nat -> real, ghost enough: nat)
    returns (aborted: bool, times: seq<nat>, requests: seq<Request>, kinds: seq<nat>, runs: seq<nat>)
    requires Elapsed(draws, enough) > duration && (load.carries ==> |load.ratios| <= |load.reqsUs|)
    ensures Generated(existing, startTime, draws, rolls, load, requests, times, kinds, runs)
    ensures Ascending(times)
    ensures aborted ==> UsesUp(load.ratios, rolls(|times|), |load.ratios|)
    ensures forall i :: 0 <= i < |times| - 1 ==> times[i] <= startTime + duration
    ensures !aborted ==> times != [] && times[|times| - 1] > startTime + duration
  {
    hide Picks, Generated, UsesUp;
    NoneGenerated(existing, startTime, draws, rolls, load);
    aborted, times, requests, kinds, runs := false, [], existing, [], [];
    var time := 0;
    while time <= duration && !aborted
      invariant |times| <= enough && time == Elapsed(draws, |times|)
      invariant Generated(existing, startTime, draws, rolls, load, requests, times, kinds, runs)
      invariant forall i :: 0 <= i < |times| - 1 ==> times[i] <= startTime + duration
      invariant times != [] ==> times[|times| - 1] == startTime + time
      invariant aborted ==> UsesUp(load.ratios, rolls(|times|), |load.ratios|)
      decreases enough - |times|, !aborted
    {
      var kind := PickCommand(load.ratios, rolls(|times|));
      if kind == -1 {
        aborted := true;
      } else {
        assert |times| != enough;
        PickedInside(load.ratios, rolls(|times|), kind);
        GenerateOne(existing, startTime, draws, rolls, load, requests, times, kinds, runs, kind);
        time := time + draws(|times|);
        times := times + [startTime + time];
        requests := requests + [Request(|requests|, 0, 0)];
        kinds, runs := kinds + [kind], runs + [RunTime(load, kind)];
      }
    }
    GeneratedAscends(existing, startTime, draws, rolls, load, requests, times, kinds, runs);
  }
}
