/** Latency histograms: 1000 ns buckets in an ordered map, filled sample by sample. */
module Histograms {

  import opened Bits
  import opened Constants

  // The value left in a 64-bit unsigned counter.
  function Wrap64(n: nat): nat
  {
    n % 0x1_0000_0000_0000_0000
  }

  datatype Hist = Hist(min: nat, max: nat, total: nat, count: nat, buckets: map<nat, nat>)

  const EMPTY: Hist := Hist(0, 0, 0, 0, map[])

  // The map key of a sample: its 1000 ns bucket, as an int converted to uint32_t.
  function BucketOf(v: nat): (k: nat)
    ensures k <= v / 1000
  {
    v / 1000 % 0x1_0000_0000
  }

  // std::map::operator[] reads a missing key as zero.
  function At(b: map<nat, nat>, k: nat): nat
  {
    if k in b then b[k] else 0
  }

  // insert_value
  function Inserted(h: Hist, v: nat): Hist
  {
    Hist(if v < h.min || h.min == 0 then v else h.min,
         if v > h.max then v else h.max,
         Wrap64(h.total + v),
         Wrap64(h.count + 1),
         h.buckets[BucketOf(v) := At(h.buckets, BucketOf(v)) + 1])
  }

  function HistOf(s: seq<nat>): Hist
  {
    if s == [] then EMPTY else Inserted(HistOf(s[..|s| - 1]), s[|s| - 1])
  }

  // ---------- the reference: plain statistics of the samples ----------

  function CountIn(s: seq<nat>, k: nat): nat
  {
    if s == [] then 0
    else CountIn(s[..|s| - 1], k) + (if BucketOf(s[|s| - 1]) == k then 1 else 0)
  }

  predicate IsMax(m: nat, s: seq<nat>)
  {
    (s == [] ==> m == 0) && (s != [] ==> m in s) && forall i :: 0 <= i < |s| ==> s[i] <= m
  }

  predicate IsMin(m: nat, s: seq<nat>)
  {
    m in s && forall i :: 0 <= i < |s| ==> m <= s[i]
  }

  /** A histogram holds the sample count, total, maximum and bucket counts. */
  lemma {:induction false} HistIsStatistics(s: seq<nat>)
    requires |s| < WORD64
    ensures HistOf(s).count == |s| && HistOf(s).total == Wrap64(Sum(s)) && IsMax(HistOf(s).max, s)
    ensures forall k :: At(HistOf(s).buckets, k) == CountIn(s, k)
    ensures forall k :: k in HistOf(s).buckets <==> CountIn(s, k) > 0
  {
    hide HistOf, CountIn, Sum;
    HistSums(s);
    HistMax(s);
    forall k
      ensures At(HistOf(s).buckets, k) == CountIn(s, k)
      ensures k in HistOf(s).buckets <==> CountIn(s, k) > 0
    {
      HistBucket(s, k);
    }
  }

  lemma {:induction false} HistSums(s: seq<nat>)
    requires |s| < WORD64
    ensures HistOf(s).count == |s| && HistOf(s).total == Wrap64(Sum(s))
  {
    hide BucketOf, At, Wrap64;
    SmallWrap(|s|);
    if s == [] {
      SmallWrap(0);
    } else {
      var n := |s| - 1;
      HistSums(s[..n]);
      WrapSum(Sum(s[..n]), s[n]);
    }
  }

  lemma {:induction false} HistMax(s: seq<nat>)
    ensures IsMax(HistOf(s).max, s)
  {
    hide Inserted, IsMax;
    if s == [] {
      NoMax();
    } else {
      var n := |s| - 1;
      HistMax(s[..n]);
      InsertedMax(HistOf(s[..n]), s[n]);
      MaxAppend(HistOf(s[..n]).max, s[..n], s[n]);
      assert s == s[..n] + [s[n]];
    }
  }

  lemma NoMax()
    ensures IsMax(0, [])
  {
  }

  lemma InsertedMax(h: Hist, v: nat)
    ensures Inserted(h, v).max == if v > h.max then v else h.max
  {
    hide BucketOf;
  }

  lemma MaxAppend(m: nat, s: seq<nat>, v: nat)
    requires IsMax(m, s)
    ensures IsMax(if v > m then v else m, s + [v])
  {
    assert s != [] ==> m in s + [v];
  }

  lemma {:induction false} HistBucket(s: seq<nat>, k: nat)
    ensures At(HistOf(s).buckets, k) == CountIn(s, k)
    ensures k in HistOf(s).buckets <==> CountIn(s, k) > 0
  {
    hide BucketOf;
    if s != [] { HistBucket(s[..|s| - 1], k); }
  }

  lemma SmallWrap(a: nat)
    requires a < WORD64
    ensures Wrap64(a) == a
  {
  }

  lemma WrapSum(a: nat, b: nat)
    ensures Wrap64(Wrap64(a) + b) == Wrap64(a + b)
  {
    var q := a / 0x1_0000_0000_0000_0000;
    assert a == q * 0x1_0000_0000_0000_0000 + a % 0x1_0000_0000_0000_0000;
    assert a + b == q * 0x1_0000_0000_0000_0000 + (a % 0x1_0000_0000_0000_0000 + b);
  }

  // ---------- the minimum, which uses zero as "none yet" ----------

  // The samples behind the last zero.
  function SinceZero(s: seq<nat>): seq<nat>
  {
    if s == [] || s[|s| - 1] == 0 then [] else SinceZero(s[..|s| - 1]) + [s[|s| - 1]]
  }

  lemma {:induction false} MinSinceZero(s: seq<nat>)
    ensures SinceZero(s) == [] ==> HistOf(s).min == 0
    ensures SinceZero(s) != [] ==> IsMin(HistOf(s).min, SinceZero(s)) && HistOf(s).min > 0
  {
    if s != [] { MinSinceZero(s[..|s| - 1]); }
  }

  lemma {:induction false} NoZeroSinceZero(s: seq<nat>)
    ensures 0 !in s ==> SinceZero(s) == s
    ensures SinceZero(s) == [] <==> s == [] || s[|s| - 1] == 0
    ensures 0 !in SinceZero(s)
  {
    if s != [] {
      var n := |s| - 1;
      NoZeroSinceZero(s[..n]);
      assert s == s[..n] + [s[n]];
    }
  }

  /** The recorded minimum is the minimum of the samples exactly when no sample is zero or the
      last one inserted is. */
  lemma MinExact(s: seq<nat>)
    requires s != []
    ensures IsMin(HistOf(s).min, s) <==> 0 !in s || s[|s| - 1] == 0
  {
    MinSinceZero(s);
    NoZeroSinceZero(s);
    if 0 in s && s[|s| - 1] == 0 {
      assert IsMin(0, s);
    }
    if 0 in s && s[|s| - 1] != 0 {
      var i :| 0 <= i < |s| && s[i] == 0;
      assert !(HistOf(s).min <= s[i]);
    }
  }

  // ---------- the object and its printing loops ----------

  // One more than the largest key.
  ghost predicate IsHeight(keys: set<nat>, n: nat)
  {
    (forall k :: k in keys ==> k < n) && (n > 0 ==> n - 1 in keys)
  }

  // The keys below i, as a set.
  function Below(i: nat): (r: set<nat>)
    ensures forall k: nat :: k in r <==> k < i
  {
    if i == 0 then {} else Below(i - 1) + {i - 1}
  }

  lemma {:induction false} BelowSize(i: nat)
    ensures |Below(i)| == i
  {
    if i > 0 {
      BelowSize(i - 1);
      OneMore(Below(i - 1), i - 1);
    }
  }

  lemma OneMore(s: set<nat>, x: nat)
    requires x !in s
    ensures |s + {x}| == |s| + 1
  {
  }

  /** The growing bound: with the keys below i filled in, the map is larger than i exactly while
      some original key is still ahead. */
  lemma SizeAhead(keys: set<nat>, i: nat)
    ensures i < |keys + Below(i)| <==> exists k :: k in keys && k >= i
    ensures i <= |keys + Below(i)|
  {
    BelowSize(i);
    var ahead := set k | k in keys && k >= i;
    assert keys + Below(i) == ahead + Below(i) && ahead !! Below(i);
    if k :| k in keys && k >= i {
      assert k in ahead;
    }
    if |ahead| > 0 {
      var k :| k in ahead;
      assert k in keys && k >= i;
    }
  }

  // The map after a loop has read every key below n with operator[].
  function Padded(b: map<nat, nat>, n: nat): map<nat, nat>
  {
    map k | k in b.Keys + Below(n) :: At(b, k)
  }

  // The non-empty buckets below n, ascending.
  function Columns(b: map<nat, nat>, n: nat): seq<nat>
  {
    if n == 0 then []
    else Columns(b, n - 1) + (if At(b, n - 1) > 0 then [n - 1] else [])
  }

  function CountsOf(b: map<nat, nat>, cols: seq<nat>): seq<nat>
  {
    seq(|cols|, i requires 0 <= i < |cols| => At(b, cols[i]))
  }

  class Histogram {
    var min: nat
    var max: nat
    var total: nat
    var count: nat
    var buckets: map<nat, nat>

    ghost function View(): Hist
      reads this
    {
      Hist(min, max, total, count, buckets)
    }

    // The clearing that log_latency does before filling.
    constructor ()
      ensures View() == EMPTY
    {
      min, max, total, count := 0, 0, 0, 0;
      buckets := map[];
    }

    method InsertValue(val: nat)
      modifies this
      ensures View() == Inserted(old(View()), val)
    {
      if val > max {
        max := val;
      }
      if val < min || min == 0 {
        min := val;
      }
      total := Wrap64(total + val);
      var bucket := BucketOf(val);
      buckets := buckets[bucket := At(buckets, bucket) + 1];
      count := Wrap64(count + 1);
    }

    /** The header row: the loop is bounded by a size its own reads increase, and still stops
        right behind the largest key. */
    method HeaderRow(ghost height: nat) returns (cols: seq<nat>)
      requires IsHeight(buckets.Keys, height)
      modifies this`buckets
      ensures cols == Columns(old(buckets), height)
      ensures buckets == Padded(old(buckets), height)
    {
      hide Padded;
      ghost var b := buckets;
      var i: nat := 0;
      cols := [];
      StartOfLoop(b, height);
      while i < |buckets|
        invariant i <= height && buckets == Padded(b, i) && cols == Columns(b, i)
        invariant i < |buckets| <==> i < height
        decreases height - i
      {
        if i !in buckets {
          buckets := buckets[i := 0];
        }
        if buckets[i] > 0 {
          cols := cols + [i];
        }
        RoundOfLoop(b, height, i);
        i := i + 1;
      }
    }

    // The value row over the same map: one count per column.  The index is 32 bits wide, as the keys
    // are: with the largest key there is, it comes round to zero and the loop never ends.
    method ValueRow(ghost height: nat) returns (vals: seq<nat>, endless: bool)
      requires IsHeight(buckets.Keys, height) && height <= 0x1_0000_0000
      modifies this`buckets
      ensures endless <==> height == 0x1_0000_0000
      ensures vals == CountsOf(old(buckets), Columns(old(buckets), height))
      ensures buckets == Padded(old(buckets), height)
    {
      hide Padded;
      ghost var b := buckets;
      var i: nat := 0;
      vals, endless := [], false;
      StartOfLoop(b, height);
      while i < |buckets| && !endless
        invariant i <= height && buckets == Padded(b, i) && vals == CountsOf(b, Columns(b, i))
        invariant i < |buckets| <==> i < height
        invariant endless <==> i == 0x1_0000_0000
        decreases height - i
      {
        if i !in buckets {
          buckets := buckets[i := 0];
        }
        if buckets[i] > 0 {
          vals := vals + [buckets[i]];
        }
        RoundOfLoop(b, height, i);
        i := i + 1;
        endless := i == 0x1_0000_0000;
      }
    }
  }

  // Reading key i with operator[] pads the map by that key.
  function Touched(b: map<nat, nat>, i: nat): map<nat, nat>
  {
    if i in b then b else b[i := 0]
  }

  lemma StartOfLoop(b: map<nat, nat>, height: nat)
    requires IsHeight(b.Keys, height)
    ensures Padded(b, 0) == b && (0 < |b| <==> 0 < height)
  {
    assert b.Keys + Below(0) == b.Keys;
    SizeAhead(b.Keys, 0);
    HeightAhead(b.Keys, height, 0);
  }

  lemma RoundOfLoop(b: map<nat, nat>, height: nat, i: nat)
    requires IsHeight(b.Keys, height) && i < height
    ensures Touched(Padded(b, i), i) == Padded(b, i + 1) && At(Touched(Padded(b, i), i), i) == At(b, i)
    ensures i + 1 < |Padded(b, i + 1)| <==> i + 1 < height
  {
    hide Padded, Below, Touched;
    PadNext(b, i);
    SizeAhead(b.Keys, i + 1);
    HeightAhead(b.Keys, height, i + 1);
    PaddedSize(b, i + 1);
  }

  lemma PaddedSize(b: map<nat, nat>, n: nat)
    ensures |Padded(b, n)| == |b.Keys + Below(n)|
  {
    assert Padded(b, n).Keys == b.Keys + Below(n);
  }

  lemma PadNext(b: map<nat, nat>, i: nat)
    ensures Touched(Padded(b, i), i) == Padded(b, i + 1) && At(Touched(Padded(b, i), i), i) == At(b, i)
  {
    var p, q := Touched(Padded(b, i), i), Padded(b, i + 1);
    assert p.Keys == q.Keys;
    assert forall k :: k in p.Keys ==> p[k] == At(b, k);
  }

  lemma HeightAhead(keys: set<nat>, height: nat, i: nat)
    requires IsHeight(keys, height) && i <= height
    ensures (exists k :: k in keys && k >= i) <==> i < height
  {
    if i < height { assert height - 1 in keys; }
  }

  // ---------- what the rows say ----------

  lemma {:induction false} ColumnsAre(b: map<nat, nat>, n: nat)
    ensures forall i, j :: 0 <= i < j < |Columns(b, n)| ==> Columns(b, n)[i] < Columns(b, n)[j]
    ensures forall k :: k in Columns(b, n) <==> 0 <= k < n && At(b, k) > 0
  {
    if n > 0 {
      var c := Columns(b, n - 1);
      ColumnsAre(b, n - 1);
      assert forall i :: 0 <= i < |c| ==> c[i] in c;
    }
  }

  // Samples in buckets below k.
  function CountBelow(s: seq<nat>, k: nat): nat
  {
    if s == [] then 0
    else CountBelow(s[..|s| - 1], k) + (if BucketOf(s[|s| - 1]) < k then 1 else 0)
  }

  lemma {:induction false} CountBelowStep(s: seq<nat>, k: nat)
    ensures CountBelow(s, k + 1) == CountBelow(s, k) + CountIn(s, k)
    ensures CountBelow(s, 0) == 0
  {
    if s != [] { CountBelowStep(s[..|s| - 1], k); }
  }

  lemma {:induction false} CountBelowAll(s: seq<nat>, k: nat)
    requires forall i :: 0 <= i < |s| ==> BucketOf(s[i]) < k
    ensures CountBelow(s, k) == |s|
  {
    if s != [] { CountBelowAll(s[..|s| - 1], k); }
  }

  lemma {:induction false} CountInPositive(s: seq<nat>, i: nat)
    requires i < |s|
    ensures CountIn(s, BucketOf(s[i])) > 0
  {
    var n := |s| - 1;
    if i < n { CountInPositive(s[..n], i); }
  }

  // Up to column n, the value row sums to the samples below bucket n.
  lemma {:induction false} RowSums(s: seq<nat>, b: map<nat, nat>, n: nat)
    requires forall k :: At(b, k) == CountIn(s, k)
    ensures Sum(CountsOf(b, Columns(b, n))) == CountBelow(s, n)
  {
    hide CountBelow, CountIn, BucketOf, Sum, CountsOf;
    if n == 0 {
      CountBelowStep(s, 0);
      EmptyRow(b);
    } else {
      RowSums(s, b, n - 1);
      CountBelowStep(s, n - 1);
      RowGrows(b, Columns(b, n - 1), n - 1);
      assert At(b, n - 1) == 0 ==> Columns(b, n) == Columns(b, n - 1);
    }
  }

  lemma EmptyRow(b: map<nat, nat>)
    ensures Sum(CountsOf(b, [])) == 0
  {
  }

  lemma RowGrows(b: map<nat, nat>, c: seq<nat>, k: nat)
    ensures Sum(CountsOf(b, c + [k])) == Sum(CountsOf(b, c)) + At(b, k)
  {
    var v := CountsOf(b, c);
    assert CountsOf(b, c + [k]) == v + [At(b, k)];
    assert (v + [At(b, k)])[..|v|] == v;
  }

  /** The printed rows: as many values as columns, all positive, the columns strictly ascending
      and exactly the non-empty buckets, the values summing to the sample count. */
  lemma RowsAreComplete(s: seq<nat>, height: nat)
    requires |s| < WORD64 && IsHeight(HistOf(s).buckets.Keys, height)
    ensures var b := HistOf(s).buckets; var c := Columns(b, height); var v := CountsOf(b, c);
            && |v| == |c| && Sum(v) == HistOf(s).count
            && (forall i :: 0 <= i < |c| ==> v[i] == CountIn(s, c[i]) && v[i] > 0)
            && (forall k :: k in c <==> CountIn(s, k) > 0)
            && (forall i, j :: 0 <= i < j < |c| ==> c[i] < c[j])
  {
    var b := HistOf(s).buckets;
    HistIsStatistics(s);
    RowSums(s, b, height);
    ColumnsAre(b, height);
    forall i | 0 <= i < |s|
      ensures BucketOf(s[i]) < height
    {
      CountInPositive(s, i);
      assert BucketOf(s[i]) in b;
    }
    CountBelowAll(s, height);
    forall k
      ensures k in Columns(b, height) <==> CountIn(s, k) > 0
    {
      assert CountIn(s, k) > 0 ==> k in b.Keys && At(b, k) > 0;
    }
  }
}
