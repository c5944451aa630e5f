/** Thinning a client's samples for its log: every spacing-th sample in latency order, and always
    the fastest and the slowest. */
module Sampling {
  import opened Bits

  // ---------- the library sort ----------

  ghost predicate SortedBy<T>(s: seq<T>, key: T -> int)
  {
    forall i, j :: 0 <= i < j < |s| ==> key(s[i]) <= key(s[j])
  }

  // std::sort: all its callers may rely on.
  method SortBy<T(==)>(s: seq<T>, key: T -> int) returns (r: seq<T>)
    ensures SortedBy(r, key) && multiset(r) == multiset(s)
  {
    hide SortedBy;
    r := [];
    NothingSorted(key);
    for i := 0 to |s|
      invariant SortedBy(r, key) && multiset(r) == multiset(s[..i])
    {
      var at := 0;
      while at < |r| && key(r[at]) <= key(s[i])
        invariant at <= |r| && forall k :: 0 <= k < at ==> key(r[k]) <= key(s[i])
      {
        at := at + 1;
      }
      InsertSorted(r, key, s[i], at);
      InsertKeeps(r, s, i, at);
      r := r[..at] + [s[i]] + r[at..];
    }
    assert s[..|s|] == s;
  }

  lemma NothingSorted<T>(key: T -> int)
    ensures SortedBy([], key)
  {
  }

  lemma InsertKeeps<T>(r: seq<T>, s: seq<T>, i: nat, at: nat)
    requires i < |s| && at <= |r| && multiset(r) == multiset(s[..i])
    ensures multiset(r[..at] + [s[i]] + r[at..]) == multiset(s[..i + 1])
  {
    assert s[..i + 1] == s[..i] + [s[i]];
    assert r == r[..at] + r[at..];
  }

  lemma InsertSorted<T>(r: seq<T>, key: T -> int, x: T, at: nat)
    requires SortedBy(r, key) && at <= |r|
    requires forall k :: 0 <= k < at ==> key(r[k]) <= key(x)
    requires at < |r| ==> key(x) <= key(r[at])
    ensures SortedBy(r[..at] + [x] + r[at..], key)
  {
    assert forall k :: at <= k < |r| ==> key(x) <= key(r[k]);
  }

  // ---------- the ranks picked ----------

  // The ranks from i on: every spacing-th below the last, then the last.
  function Ranks(i: nat, size: nat, spacing: nat): seq<nat>
    requires size > 0 && spacing > 0
    decreases size - i
  {
    if i < size - 1 then [i] + Ranks(i + spacing, size, spacing) else [size - 1]
  }

  function Picked<T>(s: seq<T>, ranks: seq<nat>): seq<T>
    requires forall k :: 0 <= k < |ranks| ==> ranks[k] < |s|
  {
    seq(|ranks|, k requires 0 <= k < |ranks| => s[ranks[k]])
  }

  // Ranks of a sequence of the given size, in order, from its first to its last, no two
  // neighbours more than gap apart.
  predicate Spread(ranks: seq<nat>, first: nat, size: nat, gap: nat)
  {
    && ranks != [] && ranks[0] == first && ranks[|ranks| - 1] == size - 1
    && (forall k :: 0 <= k < |ranks| ==> ranks[k] < size)
    && (forall j, k :: 0 <= j < k < |ranks| ==> ranks[j] < ranks[k])
    && (forall k :: 0 <= k < |ranks| - 1 ==> ranks[k + 1] - ranks[k] <= gap)
  }

  lemma {:induction false} RanksSpread(i: nat, size: nat, spacing: nat)
    requires i < size && spacing > 0
    ensures Spread(Ranks(i, size, spacing), i, size, spacing)
    decreases size - i
  {
    var r := Ranks(i, size, spacing);
    if i + spacing < size {
      RanksSpread(i + spacing, size, spacing);
      var rest := Ranks(i + spacing, size, spacing);
      if i < size - 1 {
        ConsSpread(i, rest, size, spacing);
      }
    } else if i < size - 1 {
      assert r == [i, size - 1];
    }
  }

  lemma ConsSpread(i: nat, rest: seq<nat>, size: nat, gap: nat)
    requires gap > 0 && Spread(rest, i + gap, size, gap)
    ensures Spread([i] + rest, i, size, gap)
  {
    forall k | 0 <= k < |rest|
      ensures rest[k] > i
    {
      assert k > 0 ==> rest[0] < rest[k];
    }
  }

  // The number of ranks from i, less one, is the number of spacings to the last rank, rounded up.
  lemma {:induction false} RankCount(i: nat, size: nat, spacing: nat)
    requires i < size && spacing > 0
    ensures var q := |Ranks(i, size, spacing)| - 1;
            i + q * spacing >= size - 1 && (q > 0 ==> i + (q - 1) * spacing < size - 1)
    decreases size - i
  {
    if i + spacing < size {
      RankCount(i + spacing, size, spacing);
      var q := |Ranks(i + spacing, size, spacing)| - 1;
      assert (q + 1) * spacing == q * spacing + spacing;
      assert q > 0 ==> (q - 1) * spacing == q * spacing - spacing;
    } else if i < size - 1 {
      assert |Ranks(i, size, spacing)| == 2;
    }
  }

  /** With more than n samples and n at least one, between n + 1 and 2n ranks are picked. */
  lemma RankCountBounds(size: nat, n: nat, spacing: nat, rest: nat)
    requires n > 0 && size > n && size == spacing * n + rest && rest < n
    ensures spacing > 0 && n + 1 <= |Ranks(0, size, spacing)| <= 2 * n
  {
    assert spacing == 0 ==> spacing * n == 0;
    RankCount(0, size, spacing);
    var q := |Ranks(0, size, spacing)| - 1;
    assert spacing * n == n * spacing;
    AtLeast(q, size, n, spacing, rest);
    AtMost(q, size, n, spacing, rest);
  }

  lemma AtLeast(q: int, size: nat, n: nat, spacing: nat, rest: nat)
    requires n > 0 && spacing > 0 && size > n && size == n * spacing + rest
    requires q * spacing >= size - 1
    ensures q >= n
  {
    assert (n - 1) * spacing == n * spacing - spacing;
    assert spacing == 1 ==> n * spacing == n;
    Ordered(n - 1, q, spacing);
  }

  lemma AtMost(q: int, size: nat, n: nat, spacing: nat, rest: nat)
    requires n > 0 && spacing > 0 && size == n * spacing + rest && rest < n
    requires q > 0 ==> (q - 1) * spacing < size - 1
    ensures q <= 2 * n - 1
  {
    if q > 0 {
      assert (2 * n - 1) * spacing == n * spacing + (n - 1) * spacing;
      Scaled(1, spacing, n - 1);
      Ordered(q - 1, 2 * n - 1, spacing);
    }
  }

  /** Every rank lies between two neighbouring picks, so every sample's latency is bracketed by
      two kept ones at most a spacing of ranks apart. */
  lemma {:induction false} RanksBracket(ranks: seq<nat>, first: nat, size: nat, gap: nat, r: nat)
    returns (k: nat)
    requires Spread(ranks, first, size, gap) && first <= r < size && first < size - 1
    ensures k + 1 < |ranks| && ranks[k] <= r <= ranks[k + 1] && ranks[k + 1] - ranks[k] <= gap
  {
    k := 0;
    while r > ranks[k + 1]
      invariant k + 1 < |ranks| && ranks[k] <= r
      decreases |ranks| - k
    {
      k := k + 1;
    }
  }

  /** sample_into.  The result is in time order.  Few samples are all kept.  Otherwise what is
      added is the picks of Ranks in some latency order of the samples.  To ask for none of some is a
      division by zero. */
  method SampleInto<T(==)>(from: seq<T>, to: seq<T>, lat: T -> int, time: T -> int, n: nat)
    returns (died: bool, out: seq<T>, ghost byLat: seq<T>)
    requires |from| < 0x8000_0000
    ensures died <==> n == 0 && from != []
    ensures from == [] || died ==> out == to
    ensures from != [] && !died ==> SortedBy(out, time)
    ensures 0 < |from| <= n ==> multiset(out) == multiset(to) + multiset(from)
    ensures |from| > n > 0 ==>
              && SortedBy(byLat, lat) && multiset(byLat) == multiset(from) && |byLat| == |from|
              && Spread(Ranks(0, |from|, |from| / n), 0, |from|, |from| / n)
              && n + 1 <= |Ranks(0, |from|, |from| / n)| <= 2 * n
              && multiset(out) == multiset(to) + multiset(Picked(byLat, Ranks(0, |from|, |from| / n)))
  {
    died, byLat := false, [];
    if from == [] {
      return false, to, [];
    }
    if |from| <= n {
      out := SortBy(to + from, time);
      return;
    }
    var sorted := SortBy(from, lat);
    byLat := sorted;
    SameSize(sorted, from);
    if n == 0 {
      return true, to, byLat;
    }
    var spacing := |from| / n;
    RankCountBounds(|from|, n, spacing, |from| % n);
    RanksSpread(0, |from|, spacing);
    out := PickFrom(sorted, to, spacing);
    out := SortBy(out, time);
  }

  lemma SameSize<T>(s: seq<T>, t: seq<T>)
    requires multiset(s) == multiset(t)
    ensures |s| == |t|
  {
    assert |multiset(s)| == |s| && |multiset(t)| == |t|;
  }

  lemma FirstPick<T>(sorted: seq<T>, spacing: nat)
    requires |sorted| > 1 && spacing > 0
    requires Spread(Ranks(0, |sorted|, spacing), 0, |sorted|, spacing)
    ensures var all := Ranks(0, |sorted|, spacing);
            && |all| > 1 && all[1..] == Ranks(spacing, |sorted|, spacing)
            && (forall k :: 0 <= k < |all| ==> all[k] < |sorted|)
            && |Picked(sorted, all)| == |all| && Picked(sorted, all)[..1] == [sorted[0]]
  {
  }

  lemma NextRank(all: seq<nat>, done: nat, i: nat, size: nat, spacing: nat)
    requires size > 0 && spacing > 0 && done <= |all| && all[done..] == Ranks(i, size, spacing) && i < size - 1
    ensures done < |all| && all[done] == i && all[done + 1..] == Ranks(i + spacing, size, spacing)
  {
    assert all[done] == all[done..][0];
    assert all[done + 1..] == all[done..][1..];
  }

  lemma LastRank(all: seq<nat>, done: nat, i: nat, size: nat, spacing: nat)
    requires size > 0 && spacing > 0 && done <= |all| && all[done..] == Ranks(i, size, spacing) && i >= size - 1
    ensures done + 1 == |all| && all[done] == size - 1
  {
    assert all[done] == all[done..][0];
  }

  lemma PickOne<T>(s: seq<T>, all: seq<nat>, done: nat)
    requires done < |all| && forall k :: 0 <= k < |all| ==> all[k] < |s|
    ensures |Picked(s, all)| == |all|
    ensures Picked(s, all)[..done] + [s[all[done]]] == Picked(s, all)[..done + 1]
  {
  }

  // The picking loop, its counter a 32-bit unsigned.
  method PickFrom<T>(sorted: seq<T>, to: seq<T>, spacing: nat) returns (out: seq<T>)
    requires 1 < |sorted| < 0x8000_0000 && 0 < spacing <= |sorted|
    requires Spread(Ranks(0, |sorted|, spacing), 0, |sorted|, spacing)
    ensures out == to + Picked(sorted, Ranks(0, |sorted|, spacing))
  {
    hide Ranks, Picked, Spread;
    ghost var all := Ranks(0, |sorted|, spacing);
    FirstPick(sorted, spacing);
    out := to + [sorted[0]];
    var i := spacing;
    ghost var done := 1;
    while i < |sorted| - 1
      invariant 0 < done <= |all| && all[done..] == Ranks(i, |sorted|, spacing)
      invariant i < WORD32
      invariant out == to + Picked(sorted, all)[..done]
      decreases |sorted| - i
    {
      NextRank(all, done, i, |sorted|, spacing);
      PickOne(sorted, all, done);
      out := out + [sorted[i]];
      done := done + 1;
      i := Wrap32(i + spacing);
    }
    LastRank(all, done, i, |sorted|, spacing);
    PickOne(sorted, all, done);
    out := out + [sorted[|sorted| - 1]];
  }
}
