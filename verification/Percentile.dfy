/** Percentiles read off a histogram, against the sorted samples it summarises, and the
    merging of histograms. */
module Percentiles {
  import opened Bits
  import opened Constants
  import opened Histograms

  // ---------- thresholds as exact fractions ----------

  datatype Pctl = P25 | Median | P75 | P90 | P99 | P999 | P9999

  function Num(p: Pctl): nat
  {
    match p
    case P25 => 1 case Median => 1 case P75 => 3 case P90 => 9
    case P99 => 99 case P999 => 999 case P9999 => 9999
  }

  function Den(p: Pctl): nat
  {
    match p
    case P25 => 4 case Median => 2 case P75 => 4 case P90 => 10
    case P99 => 100 case P999 => 1000 case P9999 => 10000
  }

  // The samples in the first j columns.
  function Before(counts: seq<nat>, j: nat): nat
    requires j <= |counts|
  {
    Sum(counts[..j])
  }

  // The test both programs make at a column holding b samples with c samples before it.
  predicate Hit(c: nat, b: nat, count: nat, num: nat, den: nat)
  {
    c * den < count * num && (c + b) * den >= count * num
  }

  predicate Chosen(counts: seq<nat>, count: nat, num: nat, den: nat, j: nat)
  {
    j < |counts| && Hit(Before(counts, j), counts[j], count, num, den)
  }

  predicate Picks(counts: seq<nat>, count: nat, p: Pctl, j: nat)
  {
    Chosen(counts, count, Num(p), Den(p), j)
  }

  lemma BeforeNext(counts: seq<nat>, j: nat)
    requires j < |counts|
    ensures Before(counts, j + 1) == Before(counts, j) + counts[j]
  {
    assert counts[..j + 1][..j] == counts[..j];
  }

  lemma {:induction false} BeforeMonotone(counts: seq<nat>, i: nat, j: nat)
    requires i <= j <= |counts|
    ensures Before(counts, i) <= Before(counts, j)
    decreases j
  {
    if i < j {
      BeforeMonotone(counts, i, j - 1);
      BeforeNext(counts, j - 1);
    }
  }

  // No threshold picks two columns.
  lemma ChosenOnce(counts: seq<nat>, count: nat, num: nat, den: nat, i: nat, j: nat)
    requires Chosen(counts, count, num, den, i) && Chosen(counts, count, num, den, j)
    ensures i == j
  {
    if i < j { ChosenApart(counts, count, num, den, i, j); }
    if j < i { ChosenApart(counts, count, num, den, j, i); }
  }

  lemma ChosenApart(counts: seq<nat>, count: nat, num: nat, den: nat, i: nat, j: nat)
    requires i < j && Chosen(counts, count, num, den, i)
    ensures !Chosen(counts, count, num, den, j)
  {
    if j < |counts| {
      BeforeNext(counts, i);
      BeforeMonotone(counts, i + 1, j);
      Scaled(Before(counts, i) + counts[i], Before(counts, j), den);
    }
  }

  // Some column is picked as soon as the columns hold all samples.
  lemma {:induction false} ChosenExists(counts: seq<nat>, count: nat, num: nat, den: nat, n: nat)
    returns (j: nat)
    requires n <= |counts| && 0 < count * num <= Before(counts, n) * den
    ensures Chosen(counts, count, num, den, j)
  {
    assert n != 0;
    BeforeNext(counts, n - 1);
    if Before(counts, n - 1) * den < count * num {
      j := n - 1;
    } else {
      j := ChosenExists(counts, count, num, den, n - 1);
    }
  }

  // ---------- the loop ----------

  function Note(out: map<Pctl, nat>, p: Pctl, c: nat, b: nat, count: nat, value: nat): map<Pctl, nat>
  {
    if Hit(c, b, count, Num(p), Den(p)) then out[p := value] else out
  }

  // The percentiles compute_pctls reports.
  predicate Reported(p: Pctl)
  {
    !p.P90?
  }

  // Every threshold met among the first n columns is recorded with the middle of its column.
  ghost predicate Found(out: map<Pctl, nat>, labels: seq<nat>, counts: seq<nat>, count: nat, n: nat)
    requires |labels| == |counts|
  {
    forall p, j: nat :: Reported(p) && j < n && Picks(counts, count, p, j) ==>
      p in out && out[p] == labels[j] + 500
  }

  // Nothing else is recorded.
  ghost predicate Backed(out: map<Pctl, nat>, counts: seq<nat>, count: nat)
  {
    forall p :: p in out ==> Reported(p) && exists j: nat :: Picks(counts, count, p, j)
  }

  function Notes(out: map<Pctl, nat>, c: nat, b: nat, count: nat, value: nat): map<Pctl, nat>
  {
    var o1 := Note(out, P25, c, b, count, value);
    var o2 := Note(o1, Median, c, b, count, value);
    var o3 := Note(o2, P75, c, b, count, value);
    var o4 := Note(o3, P99, c, b, count, value);
    var o5 := Note(o4, P999, c, b, count, value);
    Note(o5, P9999, c, b, count, value)
  }

  lemma NotesEffect(out: map<Pctl, nat>, c: nat, b: nat, count: nat, value: nat, p: Pctl)
    requires P90 !in out
    ensures var after := Notes(out, c, b, count, value);
            if Reported(p) && Hit(c, b, count, Num(p), Den(p)) then p in after && after[p] == value
            else (p in after <==> p in out) && (p in after ==> after[p] == out[p])
  {
    hide Hit;
  }

  // One round of the loop.
  lemma NoteColumn(out: map<Pctl, nat>, labels: seq<nat>, counts: seq<nat>, count: nat, n: nat)
    requires |labels| == |counts| && n < |counts|
    requires Found(out, labels, counts, count, n) && Backed(out, counts, count)
    ensures var after := Notes(out, Before(counts, n), counts[n], count, labels[n] + 500);
            Found(after, labels, counts, count, n + 1) && Backed(after, counts, count)
  {
    hide Notes, Hit, Before, Num, Den;
    var c := Before(counts, n);
    var after := Notes(out, c, counts[n], count, labels[n] + 500);
    forall p
      ensures if Reported(p) && Picks(counts, count, p, n) then p in after && after[p] == labels[n] + 500
              else (p in after <==> p in out) && (p in after ==> after[p] == out[p])
    {
      NotesEffect(out, c, counts[n], count, labels[n] + 500, p);
    }
    forall p, j: nat | Reported(p) && j < n + 1 && Picks(counts, count, p, j)
      ensures p in after && after[p] == labels[j] + 500
    {
      if j < n {
        ChosenApart(counts, count, Num(p), Den(p), j, n);
      }
    }
  }

  // Every threshold met is in the result with its column's middle, and nothing else is.
  ghost predicate Tabulated(out: map<Pctl, nat>, labels: seq<nat>, counts: seq<nat>, count: nat)
    requires |labels| == |counts|
  {
    && (forall p, j: nat :: Reported(p) && Picks(counts, count, p, j) ==> p in out && out[p] == labels[j] + 500)
    && (forall p :: p in out ==> Reported(p) && exists j: nat :: Picks(counts, count, p, j))
  }

  // One pass over the columns with a running count.
  method ReadOff(labels: seq<nat>, counts: seq<nat>, count: nat) returns (out: map<Pctl, nat>)
    requires |labels| == |counts|
    ensures Tabulated(out, labels, counts, count)
  {
    hide Notes, Before, Num, Den, Hit;
    out := map[];
    var c := 0;
    NothingBefore(counts);
    for bucket := 0 to |counts|
      invariant c == Before(counts, bucket)
      invariant Found(out, labels, counts, count, bucket) && Backed(out, counts, count)
    {
      NoteColumn(out, labels, counts, count, bucket);
      out := Notes(out, c, counts[bucket], count, labels[bucket] + 500);
      BeforeNext(counts, bucket);
      c := c + counts[bucket];
    }
  }

  // Times in nanoseconds; the mean of no samples is a division by zero.
  datatype Report = NoSamples | Report(min: nat, max: nat, mean: real, pctls: map<Pctl, nat>)

  /** compute_pctls.  A percentile is reported exactly when some column meets its threshold, and
      with that column's value, the middle of its bucket. */
  method ComputePctls(h: Hist, labels: seq<nat>, counts: seq<nat>) returns (r: Report)
    requires |labels| == |counts|
    ensures r.NoSamples? <==> h.count == 0
    ensures r.Report? ==> r.min == h.min && r.max == h.max && r.mean * h.count as real == h.total as real
    ensures r.Report? ==> Tabulated(r.pctls, labels, counts, h.count)
  {
    if h.count == 0 {
      return NoSamples;
    }
    var out := ReadOff(labels, counts, h.count);
    r := Report(h.min, h.max, h.total as real / h.count as real, out);
  }

  lemma NothingBefore(counts: seq<nat>)
    ensures Before(counts, 0) == 0
  {
  }

  // ---------- against the sorted samples ----------

  predicate Sorted(d: seq<nat>)
  {
    forall i, j :: 0 <= i < j < |d| ==> d[i] <= d[j]
  }

  // Samples short enough that the 32-bit key is the true bucket.
  predicate Untruncated(d: seq<nat>)
  {
    forall i :: 0 <= i < |d| ==> d[i] < 1000 * 0x1_0000_0000
  }

  lemma TrueBucket(v: nat)
    requires v < 1000 * 0x1_0000_0000
    ensures BucketOf(v) == v / 1000
  {
  }

  // In sorted order the samples below bucket k come first.
  lemma {:induction false} SortedBelow(d: seq<nat>, k: nat, i: nat)
    requires Sorted(d) && Untruncated(d) && i < |d|
    ensures BucketOf(d[i]) < k <==> i < CountBelow(d, k)
  {
    hide BucketOf;
    var n := |d| - 1;
    BelowBound(d[..n], k);
    TrueBucket(d[i]);
    TrueBucket(d[n]);
    if i < n {
      SortedBelow(d[..n], k, i);
    } else if n > 0 {
      SortedBelow(d[..n], k, n - 1);
      TrueBucket(d[n - 1]);
    }
  }

  lemma {:induction false} BelowBound(d: seq<nat>, k: nat)
    ensures CountBelow(d, k) <= |d|
  {
    if d != [] { BelowBound(d[..|d| - 1], k); }
  }

  lemma {:induction false} ColumnPrefix(b: map<nat, nat>, n: nat, j: nat)
    requires j < |Columns(b, n)|
    ensures Columns(b, n)[j] < n
    ensures Columns(b, n)[..j] == Columns(b, Columns(b, n)[j])
  {
    if n > 0 {
      var c := Columns(b, n - 1);
      if j < |c| {
        ColumnPrefix(b, n - 1, j);
        assert Columns(b, n)[..j] == c[..j];
      } else {
        assert Columns(b, n)[..j] == c;
      }
    }
  }

  lemma CountsPrefix(b: map<nat, nat>, c: seq<nat>, j: nat)
    requires j <= |c|
    ensures CountsOf(b, c)[..j] == CountsOf(b, c[..j])
  {
  }

  // The buckets hold the counts of the samples d.
  ghost predicate Tallies(b: map<nat, nat>, d: seq<nat>)
  {
    forall k :: At(b, k) == CountIn(d, k)
  }

  predicate KeysBelow(b: map<nat, nat>, height: nat)
  {
    forall k :: k in b ==> k < height
  }

  // The running count at a column is the number of samples in lower buckets.
  lemma RunningCount(d: seq<nat>, b: map<nat, nat>, height: nat, j: nat)
    requires Tallies(b, d) && j < |Columns(b, height)|
    ensures var c := Columns(b, height);
            && Before(CountsOf(b, c), j) == CountBelow(d, c[j])
            && Before(CountsOf(b, c), j + 1) == CountBelow(d, c[j] + 1)
  {
    hide CountBelow, CountIn, Columns, Sum;
    var c := Columns(b, height);
    ColumnPrefix(b, height, j);
    CountsPrefix(b, c, j);
    RowSums(d, b, c[j]);
    BeforeNext(CountsOf(b, c), j);
    CountBelowStep(d, c[j]);
  }

  lemma AllCounted(d: seq<nat>, b: map<nat, nat>, height: nat)
    requires Tallies(b, d) && KeysBelow(b, height)
    ensures var v := CountsOf(b, Columns(b, height));
            Before(v, |v|) == |d|
  {
    hide Columns, CountsOf, CountIn, Sum, CountBelow, BucketOf;
    var v := CountsOf(b, Columns(b, height));
    forall i | 0 <= i < |d|
      ensures BucketOf(d[i]) < height
    {
      CountInPositive(d, i);
      assert At(b, BucketOf(d[i])) > 0;
    }
    CountBelowAll(d, height);
    RowSums(d, b, height);
    assert v[..|v|] == v;
  }

  // The rank of the order statistic at fraction num/den of n samples, from one.
  predicate IsRank(r: nat, n: nat, num: nat, den: nat)
  {
    r > 0 && (r - 1) * den < n * num <= r * den
  }

  // Column j is the one a threshold picks and holds the sample x, whose distance from the
  // reported middle of the bucket is at most half a bucket.
  ghost predicate PicksSample(b: map<nat, nat>, height: nat, count: nat, num: nat, den: nat, x: nat, j: nat)
  {
    var c := Columns(b, height);
    var v := CountsOf(b, c);
    && j < |c|
    && Chosen(v, count, num, den, j)
    && (forall i: nat :: Chosen(v, count, num, den, i) ==> i == j)
    && BucketOf(x) == c[j]
    && c[j] * 1000 + 500 <= x + 500 && x <= c[j] * 1000 + 500 + 500
  }

  ghost predicate PicksTheColumnOf(b: map<nat, nat>, height: nat, count: nat, num: nat, den: nat, x: nat)
  {
    exists j: nat :: PicksSample(b, height, count, num, den, x, j)
  }

  lemma OrderStatisticColumn(d: seq<nat>, b: map<nat, nat>, height: nat, num: nat, den: nat, r: nat)
    requires Sorted(d) && Untruncated(d) && d != []
    requires Tallies(b, d) && KeysBelow(b, height)
    requires 0 < num <= den && IsRank(r, |d|, num, den)
    ensures 1 <= r <= |d|
    ensures PicksTheColumnOf(b, height, |d|, num, den, d[r - 1])
  {
    hide CountBelow, CountIn, Columns, Sum, Hit, BucketOf, Chosen, Before, CountsOf;
    var c := Columns(b, height);
    var v := CountsOf(b, c);
    var n := |d|;
    RankInRange(r, n, num, den);
    AllCounted(d, b, height);
    var j := ChosenExists(v, n, num, den, |v|);
    ChosenInside(v, n, num, den, j, r);
    CountsLength(b, c);
    RunningCount(d, b, height, j);
    SortedBelow(d, c[j], r - 1);
    SortedBelow(d, c[j] + 1, r - 1);
    TrueBucket(d[r - 1]);
    forall i: nat | Chosen(v, n, num, den, i)
      ensures i == j
    {
      ChosenOnce(v, n, num, den, i, j);
    }
    assert PicksSample(b, height, n, num, den, d[r - 1], j);
  }

  // A sample as its bucket records it: the bucket's number keeps 32 bits.
  function Recorded(v: nat): nat
  {
    BucketOf(v) * 1000 + v % 1000
  }

  function AsRecorded(s: seq<nat>): seq<nat>
  {
    seq(|s|, i requires 0 <= i < |s| => Recorded(s[i]))
  }

  lemma RecordedBucket(v: nat)
    ensures BucketOf(Recorded(v)) == BucketOf(v) && Recorded(v) < 1000 * 0x1_0000_0000
    ensures Recorded(v) == v <==> v < 1000 * 0x1_0000_0000
  {
    hide BucketOf;
    BucketBound(v);
    TrueBucket(Recorded(v));
    if v < 1000 * 0x1_0000_0000 { TrueBucket(v); }
  }

  lemma BucketBound(v: nat)
    ensures BucketOf(v) < 0x1_0000_0000
  {
  }

  /** Samples are recorded as they are exactly when all of them are below 1000 * 2^32. */
  lemma RecordedExact(s: seq<nat>)
    ensures AsRecorded(s) == s <==> Untruncated(s)
  {
    hide BucketOf, Recorded;
    forall i | 0 <= i < |s|
      ensures AsRecorded(s)[i] == s[i] <==> s[i] < 1000 * 0x1_0000_0000
    {
      RecordedBucket(s[i]);
    }
  }

  lemma {:induction false} RecordedCounts(s: seq<nat>, k: nat)
    ensures CountIn(AsRecorded(s), k) == CountIn(s, k)
  {
    hide BucketOf, Recorded;
    if s != [] {
      var n := |s| - 1;
      RecordedCounts(s[..n], k);
      RecordedBucket(s[n]);
      assert AsRecorded(s)[..n] == AsRecorded(s[..n]);
    }
  }

  // The samples in ascending order, as recorded.
  ghost predicate InOrder(d: seq<nat>, s: seq<nat>)
  {
    Sorted(d) && multiset(d) == multiset(AsRecorded(s))
  }

  lemma InOrderFacts(d: seq<nat>, s: seq<nat>)
    requires InOrder(d, s)
    ensures |d| == |s| && Untruncated(d)
    ensures forall k :: CountIn(d, k) == CountIn(s, k)
  {
    hide BucketOf, Recorded, CountIn, Sorted;
    var e := AsRecorded(s);
    assert |multiset(d)| == |d| && |multiset(e)| == |e|;
    forall i | 0 <= i < |d|
      ensures d[i] < 1000 * 0x1_0000_0000
    {
      assert d[i] in multiset(d) && d[i] in multiset(e);
      var j :| 0 <= j < |e| && e[j] == d[i];
      RecordedBucket(s[j]);
    }
    forall k
      ensures CountIn(d, k) == CountIn(s, k)
    {
      CountInAnyOrder(d, e, k);
      RecordedCounts(s, k);
    }
  }

  /** For any samples and any fraction in (0, 1], exactly one column of their histogram is picked, and
      it holds the order statistic of that rank, of the samples as their buckets record them. */
  lemma PercentileIsOrderStatistic(s: seq<nat>, d: seq<nat>, b: map<nat, nat>, height: nat,
                                   num: nat, den: nat, r: nat)
    requires InOrder(d, s) && s != []
    requires Tallies(b, s) && KeysBelow(b, height)
    requires 0 < num <= den && IsRank(r, |s|, num, den)
    ensures 1 <= r <= |d| == |s|
    ensures PicksTheColumnOf(b, height, |s|, num, den, d[r - 1])
  {
    hide CountIn, AsRecorded, PicksTheColumnOf, Untruncated, IsRank, At;
    InOrderFacts(d, s);
    OrderStatisticColumn(d, b, height, num, den, r);
  }

  lemma CountsLength(b: map<nat, nat>, c: seq<nat>)
    ensures |CountsOf(b, c)| == |c|
  {
  }

  lemma RankInRange(r: nat, n: nat, num: nat, den: nat)
    requires 0 < n && 0 < num <= den && IsRank(r, n, num, den)
    ensures 1 <= r <= n
    ensures 0 < n * num <= n * den
  {
    Scaled(num, den, n);
    assert n * num == num * n && n * den == den * n;
    assert n * num >= num by { Scaled(1, n, num); }
    Ordered(r - 1, n, den);
  }

  // A rank at the threshold falls among the samples of the chosen column.
  lemma ChosenInside(v: seq<nat>, n: nat, num: nat, den: nat, j: nat, r: nat)
    requires Chosen(v, n, num, den, j) && IsRank(r, n, num, den)
    ensures j < |v| && Before(v, j) < r <= Before(v, j + 1)
  {
    BeforeNext(v, j);
    Ordered(Before(v, j), r, den);
    Ordered(r - 1, Before(v, j + 1), den);
  }

  // ---------- the index check_hist prints next to it ----------

  function CheckIndex(n: nat, num: nat, den: nat): nat
    requires n > 0 && den > 0
  {
    (n - 1) * num / den
  }

  function Rest(n: nat, num: nat, den: nat): nat
    requires den > 0
  {
    n * num % den
  }

  /** check_hist compares the bucket with the sample at index floor((n - 1) * q).  That is the
      order statistic the bucket was chosen for exactly when n * num leaves a remainder of zero or
      at least num; otherwise it is the sample one place lower. */
  lemma CheckIndexExact(n: nat, num: nat, den: nat, r: nat)
    requires n > 0 && 0 < num <= den && IsRank(r, n, num, den)
    ensures CheckIndex(n, num, den) == r - 1 <==> Rest(n, num, den) == 0 || Rest(n, num, den) >= num
    ensures CheckIndex(n, num, den) != r - 1 ==> r >= 2 && CheckIndex(n, num, den) == r - 2
  {
    hide CheckIndex, Rest;
    var a := RestIs(n, num, den);
    var rest := Rest(n, num, den);
    RankFromQuotient(n * num, den, a, rest, r);
    assert (n - 1) * num == n * num - num;
    if rest >= num {
      CheckIndexIs(n, num, den, a, rest - num);
    } else {
      assert a * den == (a - 1) * den + den;
      OneLess(a, den, rest, num, (n - 1) * num);
      CheckIndexIs(n, num, den, a - 1, den + rest - num);
    }
  }

  lemma RestIs(n: nat, num: nat, den: nat) returns (a: nat)
    requires den > 0
    ensures n * num == a * den + Rest(n, num, den) && Rest(n, num, den) < den
  {
    a := n * num / den;
  }

  lemma CheckIndexIs(n: nat, num: nat, den: nat, q: nat, r: nat)
    requires n > 0 && den > 0 && (n - 1) * num == q * den + r && r < den
    ensures CheckIndex(n, num, den) == q
  {
    DivModUnique((n - 1) * num, den, q, r);
  }

  lemma OneLess(a: nat, den: nat, rest: nat, num: nat, m: nat)
    requires m == a * den + rest - num && rest < num
    ensures a >= 1
  {
    assert a == 0 ==> a * den == 0;
  }

  lemma RankFromQuotient(t: nat, den: nat, a: nat, rest: nat, r: nat)
    requires den > 0 && t == a * den + rest && rest < den
    requires r > 0 && (r - 1) * den < t <= r * den
    ensures r == if rest == 0 then a else a + 1
  {
    assert (a + 1) * den == a * den + den;
    Ordered(r - 1, a + 1, den);
    if rest > 0 {
      Ordered(a, r, den);
    } else {
      Ordered(r - 1, a, den);
      assert (a - 1) * den == a * den - den;
      if a > 0 { Ordered(a - 1, r, den); }
    }
  }

  // ---------- merging the rows of several clients ----------

  function Most(a: nat, b: nat): nat { if a > b then a else b }

  // The columns of two rows added up; a missing column adds nothing.
  function Added(a: map<nat, nat>, b: map<nat, nat>): map<nat, nat>
  {
    map k | k in a.Keys + b.Keys :: At(a, k) + At(b, k)
  }

  datatype Merged = NoRows | Row(hist: Hist)

  // merge_hists; taking the minimum of no rows raises.
  function MergeHists(rows: seq<Hist>): Merged
  {
    if rows == [] then NoRows else
      var last := rows[|rows| - 1];
      match MergeHists(rows[..|rows| - 1])
      case NoRows => Row(last)
      case Row(h) => Row(Hist(Least(h.min, last.min), Most(h.max, last.max), h.total + last.total,
                              h.count + last.count, Added(h.buckets, last.buckets)))
  }

  function Pooled(ss: seq<seq<nat>>): seq<nat>
  {
    if ss == [] then [] else Pooled(ss[..|ss| - 1]) + ss[|ss| - 1]
  }

  function Rows(ss: seq<seq<nat>>): seq<Hist>
  {
    seq(|ss|, i requires 0 <= i < |ss| => HistOf(ss[i]))
  }

  lemma {:induction false} CountInConcat(s: seq<nat>, t: seq<nat>, k: nat)
    ensures CountIn(s + t, k) == CountIn(s, k) + CountIn(t, k)
  {
    if t == [] {
      assert s + t == s;
    } else {
      var n := |t| - 1;
      CountInConcat(s, t[..n], k);
      assert (s + t)[..|s + t| - 1] == s + t[..n];
    }
  }

  lemma {:induction false} SumConcat(s: seq<nat>, t: seq<nat>)
    ensures Sum(s + t) == Sum(s) + Sum(t)
  {
    if t == [] {
      assert s + t == s;
    } else {
      var n := |t| - 1;
      SumConcat(s, t[..n]);
      assert (s + t)[..|s + t| - 1] == s + t[..n];
    }
  }

  lemma MaxConcat(m: nat, s: seq<nat>, n: nat, t: seq<nat>)
    requires IsMax(m, s) && IsMax(n, t)
    ensures IsMax(Most(m, n), s + t)
  {
    assert s != [] ==> m in s + t;
    assert t != [] ==> n in s + t;
  }

  predicate Unwrapped(ss: seq<seq<nat>>)
  {
    forall i :: 0 <= i < |ss| ==> Sum(ss[i]) < WORD64
  }

  /** Merging the histograms of several sample sets gives the count, maximum and bucket counts of
      all samples together, and their total if and only if no client's own total wrapped. */
  lemma {:induction false} MergeIsPooled(ss: seq<seq<nat>>)
    requires ss != []
    requires forall i :: 0 <= i < |ss| ==> |ss[i]| < WORD64
    ensures MergeHists(Rows(ss)).Row?
    ensures var h := MergeHists(Rows(ss)).hist; var d := Pooled(ss);
            && h.count == |d| && IsMax(h.max, d) && Tallies(h.buckets, d)
            && h.total <= Sum(d) && (h.total == Sum(d) <==> Unwrapped(ss))
  {
    hide HistOf, CountIn, Sum, IsMax, Added, At, Tallies;
    var n := |ss| - 1;
    var last := ss[n];
    RowIsTally(last);
    assert Rows(ss)[..n] == Rows(ss[..n]);
    if n == 0 {
      assert Pooled(ss[..n]) == [];
      assert Pooled(ss) == last;
    } else {
      MergeIsPooled(ss[..n]);
      UnwrappedSplit(ss);
      var h := MergeHists(Rows(ss[..n])).hist;
      var d := Pooled(ss[..n]);
      SumConcat(d, last);
      MaxConcat(h.max, d, HistOf(last).max, last);
      TalliesAdd(h.buckets, d, HistOf(last).buckets, last);
    }
  }

  lemma TalliesAdd(a: map<nat, nat>, s: seq<nat>, b: map<nat, nat>, t: seq<nat>)
    requires Tallies(a, s) && Tallies(b, t)
    ensures Tallies(Added(a, b), s + t)
  {
    hide CountIn;
    forall k
      ensures At(Added(a, b), k) == CountIn(s + t, k)
    {
      CountInConcat(s, t, k);
    }
  }

  lemma UnwrappedSplit(ss: seq<seq<nat>>)
    requires ss != []
    ensures Unwrapped(ss) <==> Unwrapped(ss[..|ss| - 1]) && Sum(ss[|ss| - 1]) < WORD64
  {
    hide Sum;
    var n := |ss| - 1;
    if Unwrapped(ss[..n]) && Sum(ss[n]) < WORD64 {
      forall i | 0 <= i < |ss|
        ensures Sum(ss[i]) < WORD64
      {
        if i < n { assert ss[..n][i] == ss[i]; }
      }
    }
  }

  lemma RowIsTally(s: seq<nat>)
    requires |s| < WORD64
    ensures HistOf(s).count == |s| && IsMax(HistOf(s).max, s) && Tallies(HistOf(s).buckets, s)
    ensures HistOf(s).total <= Sum(s) && (HistOf(s).total == Sum(s) <==> Sum(s) < WORD64)
  {
    hide HistOf, CountIn, Sum;
    HistIsStatistics(s);
    WrapAtMost(Sum(s));
  }

  lemma WrapAtMost(n: nat)
    ensures Wrap64(n) <= n && (Wrap64(n) == n <==> n < WORD64)
  {
  }

  // Some client reports a minimum of zero.
  ghost predicate ZeroReported(ss: seq<seq<nat>>)
  {
    exists i :: 0 <= i < |ss| && (ss[i] == [] || ss[i][|ss[i]| - 1] == 0)
  }

  lemma {:induction false} MergedMin(ss: seq<seq<nat>>)
    requires ss != []
    ensures MergeHists(Rows(ss)).Row?
    ensures var m := MergeHists(Rows(ss)).hist.min;
            && (exists i :: 0 <= i < |ss| && m == HistOf(ss[i]).min)
            && (forall i :: 0 <= i < |ss| ==> m <= HistOf(ss[i]).min)
  {
    hide HistOf;
    var n := |ss| - 1;
    assert Rows(ss)[..n] == Rows(ss[..n]);
    if n > 0 {
      MergedMin(ss[..n]);
      var m := MergeHists(Rows(ss[..n])).hist.min;
      var i :| 0 <= i < n && m == HistOf(ss[..n][i]).min;
      assert m == HistOf(ss[i]).min;
      assert forall i :: 0 <= i < n ==> ss[..n][i] == ss[i];
    }
  }

  lemma {:induction false} PooledMembers(ss: seq<seq<nat>>, x: nat)
    ensures x in Pooled(ss) <==> exists i :: 0 <= i < |ss| && x in ss[i]
  {
    if ss != [] {
      var n := |ss| - 1;
      PooledMembers(ss[..n], x);
      if x in Pooled(ss[..n]) {
        var i :| 0 <= i < n && x in ss[..n][i];
        assert x in ss[i];
      }
      if i :| 0 <= i < n && x in ss[i] {
        assert x in ss[..n][i];
      }
    }
  }

  /** The merged minimum is the minimum of all samples exactly when either some sample is zero and
      some client reports zero, or no sample is zero and every client has samples. */
  lemma MergedMinExact(ss: seq<seq<nat>>)
    requires Pooled(ss) != []
    ensures MergeHists(Rows(ss)).Row?
    ensures IsMin(MergeHists(Rows(ss)).hist.min, Pooled(ss)) <==>
              if 0 in Pooled(ss) then ZeroReported(ss) else [] !in ss
  {
    hide HistOf, Pooled, SinceZero, MergeHists, Rows;
    var d := Pooled(ss);
    NoClients(ss);
    MergedMin(ss);
    var m := MergeHists(Rows(ss)).hist.min;
    forall i | 0 <= i < |ss|
      ensures HistOf(ss[i]).min == 0 <==> ss[i] == [] || ss[i][|ss[i]| - 1] == 0
    {
      MinSinceZero(ss[i]);
      NoZeroSinceZero(ss[i]);
    }
    assert m == 0 <==> ZeroReported(ss);
    if 0 in d {
      assert IsMin(m, d) <==> m == 0;
    } else {
      MinWithoutZero(ss, m);
    }
  }

  /** A client writes a row only for samples it has.  On such rows the merged minimum is right exactly
      when no sample is zero or some client's last sample is. */
  lemma MergedMinOfRows(ss: seq<seq<nat>>)
    requires ss != [] && [] !in ss
    ensures MergeHists(Rows(ss)).Row?
    ensures IsMin(MergeHists(Rows(ss)).hist.min, Pooled(ss)) <==>
              (0 in Pooled(ss) ==> exists i :: 0 <= i < |ss| && ss[i][|ss[i]| - 1] == 0)
  {
    hide HistOf, Pooled, MergeHists, Rows, IsMin;
    assert ss[0] != [];
    PooledMembers(ss, ss[0][0]);
    MergedMinExact(ss);
  }

  lemma NoClients(ss: seq<seq<nat>>)
    ensures ss == [] ==> Pooled(ss) == []
  {
  }

  lemma RowMin(s: seq<nat>)
    requires 0 !in s
    ensures s == [] ==> HistOf(s).min == 0
    ensures s != [] ==> IsMin(HistOf(s).min, s)
  {
    if s != [] { MinExact(s); }
  }

  lemma MinWithoutZero(ss: seq<seq<nat>>, m: nat)
    requires 0 !in Pooled(ss)
    requires exists i :: 0 <= i < |ss| && m == HistOf(ss[i]).min
    requires forall i :: 0 <= i < |ss| ==> m <= HistOf(ss[i]).min
    ensures IsMin(m, Pooled(ss)) <==> [] !in ss
  {
    hide HistOf, Pooled, IsMin;
    if [] in ss {
      EmptyRowIsZero(ss, m);
      ZeroIsNoMin(Pooled(ss));
    } else {
      var w :| 0 <= w < |ss| && m == HistOf(ss[w]).min;
      RowReached(ss, w);
      forall x | x in Pooled(ss)
        ensures m <= x
      {
        PooledMembers(ss, x);
        var i :| 0 <= i < |ss| && x in ss[i];
        RowReached(ss, i);
        MinBelow(HistOf(ss[i]).min, ss[i], x);
      }
      MinFrom(m, Pooled(ss));
    }
  }

  lemma EmptyRowIsZero(ss: seq<seq<nat>>, m: nat)
    requires [] in ss && forall i :: 0 <= i < |ss| ==> m <= HistOf(ss[i]).min
    ensures m == 0
  {
    var i :| 0 <= i < |ss| && ss[i] == [];
    assert m <= HistOf(ss[i]).min;
  }

  lemma ZeroIsNoMin(d: seq<nat>)
    requires 0 !in d
    ensures !IsMin(0, d)
  {
  }

  lemma MinBelow(m: nat, s: seq<nat>, x: nat)
    requires IsMin(m, s) && x in s
    ensures m <= x
  {
  }

  lemma MinFrom(m: nat, d: seq<nat>)
    requires m in d && forall x :: x in d ==> m <= x
    ensures IsMin(m, d)
  {
    forall i | 0 <= i < |d|
      ensures m <= d[i]
    {
      assert d[i] in d;
    }
  }

  // A client with samples reports one of them, the least.
  lemma RowReached(ss: seq<seq<nat>>, i: nat)
    requires i < |ss| && ss[i] != [] && 0 !in Pooled(ss)
    ensures IsMin(HistOf(ss[i]).min, ss[i]) && HistOf(ss[i]).min in Pooled(ss)
  {
    hide Pooled, HistOf;
    PooledMembers(ss, 0);
    RowMin(ss[i]);
    PooledMembers(ss, HistOf(ss[i]).min);
  }

  // Bucket counts do not depend on the order of the samples.
  lemma {:induction false} CountInAnyOrder(s: seq<nat>, d: seq<nat>, k: nat)
    requires multiset(s) == multiset(d)
    ensures CountIn(s, k) == CountIn(d, k)
  {
    if s == [] {
      assert |multiset(d)| == 0;
    } else {
      var n := |s| - 1;
      var x := s[n];
      assert s == s[..n] + [x];
      assert x in multiset(d);
      var i :| 0 <= i < |d| && d[i] == x;
      var rest := d[..i] + d[i + 1..];
      assert d == d[..i] + [x] + d[i + 1..];
      assert multiset(s[..n]) == multiset(s) - multiset{x} == multiset(rest);
      CountInAnyOrder(s[..n], rest, k);
      CountInConcat(d[..i] + [x], d[i + 1..], k);
      CountInConcat(d[..i], [x], k);
      CountInConcat(d[..i], d[i + 1..], k);
      assert CountIn([x], k) == (if BucketOf(x) == k then 1 else 0);
    }
  }

  /** From the clients' samples to the published number: on the merged histogram every threshold
      picks exactly one column, the one holding the order statistic of all samples together, as recorded. */
  lemma MergedPercentile(ss: seq<seq<nat>>, d: seq<nat>, height: nat, num: nat, den: nat, r: nat)
    requires forall i :: 0 <= i < |ss| ==> |ss[i]| < WORD64
    requires InOrder(d, Pooled(ss)) && d != []
    requires 0 < num <= den && IsRank(r, |d|, num, den)
    requires MergeHists(Rows(ss)).Row? && KeysBelow(MergeHists(Rows(ss)).hist.buckets, height)
    ensures var h := MergeHists(Rows(ss)).hist;
            && 1 <= r <= |d| && h.count == |d|
            && PicksTheColumnOf(h.buckets, height, h.count, num, den, d[r - 1])
  {
    hide Pooled, MergeHists, Rows, CountIn, Sum, PicksTheColumnOf, InOrder, Untruncated, Tallies, IsRank;
    NoRowsNoClients(ss);
    MergeIsPooled(ss);
    InOrderFacts(d, Pooled(ss));
    PercentileIsOrderStatistic(Pooled(ss), d, MergeHists(Rows(ss)).hist.buckets, height, num, den, r);
  }

  lemma NoRowsNoClients(ss: seq<seq<nat>>)
    ensures MergeHists(Rows(ss)).Row? ==> ss != []
  {
  }

  // ---------- the published numbers ----------

  function Labels(cols: seq<nat>): seq<nat>
  {
    seq(|cols|, i requires 0 <= i < |cols| => cols[i] * 1000)
  }

  // The published value of a percentile is within half a bucket of its order statistic.
  ghost predicate Published(out: map<Pctl, nat>, d: seq<nat>, p: Pctl, r: nat)
  {
    1 <= r <= |d| && p in out && out[p] <= d[r - 1] + 500 && d[r - 1] <= out[p] + 500
  }

  lemma PickedIsPublished(out: map<Pctl, nat>, b: map<nat, nat>, height: nat, d: seq<nat>, p: Pctl, r: nat)
    requires Reported(p) && 1 <= r <= |d| && PicksTheColumnOf(b, height, |d|, Num(p), Den(p), d[r - 1])
    requires var c := Columns(b, height);
             |Labels(c)| == |CountsOf(b, c)| && Tabulated(out, Labels(c), CountsOf(b, c), |d|)
    ensures Published(out, d, p, r)
  {
    hide Columns, CountsOf, Hit, Before, BucketOf, Num, Den;
    var j: nat :| PicksSample(b, height, |d|, Num(p), Den(p), d[r - 1], j);
    assert Picks(CountsOf(b, Columns(b, height)), |d|, p, j);
  }

  lemma Fractions(p: Pctl)
    ensures 0 < Num(p) <= Den(p)
  {
  }

  /** From the clients' histograms to the published report: merged, its columns in ascending order,
      and read off.  Every percentile reported is within half a bucket of the order statistic of all
      the clients' samples together, as recorded. */
  method Publish(rows: seq<Hist>, height: nat, ghost ss: seq<seq<nat>>, ghost d: seq<nat>) returns (r: Report)
    requires rows == Rows(ss) && ss != [] && forall i :: 0 <= i < |ss| ==> |ss[i]| < WORD64
    requires InOrder(d, Pooled(ss))
    requires MergeHists(rows).Row? ==> KeysBelow(MergeHists(rows).hist.buckets, height)
    ensures r.NoSamples? <==> d == []
    ensures r.Report? ==>
              && IsMax(r.max, Pooled(ss))
              && (r.mean * |d| as real == Sum(Pooled(ss)) as real <==> Unwrapped(ss))
              && forall p, k: nat :: Reported(p) && IsRank(k, |d|, Num(p), Den(p)) ==> Published(r.pctls, d, p, k)
  {
    hide Pooled, MergeHists, Rows, Sum, InOrder, Untruncated, Columns, CountsOf, Tabulated, Published, IsRank, IsMax,
         Unwrapped, Num, Den;
    MergeIsPooled(ss);
    var h := MergeHists(rows).hist;
    InOrderFacts(d, Pooled(ss));
    var cols := Columns(h.buckets, height);
    var counts := CountsOf(h.buckets, cols);
    CountsLength(h.buckets, cols);
    r := ComputePctls(h, Labels(cols), counts);
    if r.Report? {
      forall p, k: nat | Reported(p) && IsRank(k, |d|, Num(p), Den(p))
        ensures Published(r.pctls, d, p, k)
      {
        Fractions(p);
        MergedPercentile(ss, d, height, Num(p), Den(p), k);
        PickedIsPublished(r.pctls, h.buckets, height, d, p, k);
      }
    }
  }
}
