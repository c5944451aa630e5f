/** Machine-word arithmetic used by the channel, the queues and the client:
    bitwise AND and XOR on naturals, powers of two, and 32-bit wrap-around. */
module Bits {

  // Two to the thirty-second: every uint32_t counter wraps here.
  const WORD32: nat := 0x1_0000_0000

  // What a uint32_t holds after x was assigned to it.
  function Wrap32(x: int): (r: nat)
    ensures r < WORD32
    decreases if x < 0 then -x else x
  {
    if x < 0 then (if x + WORD32 >= 0 then x + WORD32 else Wrap32(x + WORD32))
    else if x < WORD32 then x
    else Wrap32(x - WORD32)
  }

  lemma {:induction false} WrapIsRemainder(x: int)
    ensures Wrap32(x) == x % 0x1_0000_0000
    decreases if x < 0 then -x else x
  {
    if x < 0 {
      if x + WORD32 < 0 { WrapIsRemainder(x + WORD32); }
    } else if x >= WORD32 {
      WrapIsRemainder(x - WORD32);
    }
  }

  function Pow2(k: nat): (r: nat)
    ensures r >= 1
  {
    if k == 0 then 1 else 2 * Pow2(k - 1)
  }

  function And(x: nat, y: nat): (r: nat)
    ensures r <= x && r <= y
  {
    if x == 0 || y == 0 then 0
    else 2 * And(x / 2, y / 2) + (if x % 2 == 1 && y % 2 == 1 then 1 else 0)
  }

  function Xor(x: nat, y: nat): nat
    decreases x + y
  {
    if x == 0 && y == 0 then 0
    else 2 * Xor(x / 2, y / 2) + (if x % 2 != y % 2 then 1 else 0)
  }

  // The test of the `is_power_of_two` macro.
  predicate PowerOfTwoTest(x: nat)
  {
    x != 0 && And(x, x - 1) == 0
  }

  // The bit trick accepts exactly the powers of two.
  lemma {:induction false} PowerOfTwoTestExact(x: nat)
    ensures PowerOfTwoTest(x) <==> exists k :: x == Pow2(k)
  {
    if PowerOfTwoTest(x) {
      var k := PowerOfTwoExponent(x);
    }
    if k: nat :| x == Pow2(k) {
      AndPredecessor(k);
    }
  }

  lemma {:induction false} PowerOfTwoExponent(x: nat) returns (k: nat)
    requires PowerOfTwoTest(x)
    ensures x == Pow2(k)
  {
    if x == 1 {
      k := 0;
      assert Pow2(0) == 1;
    } else if x % 2 == 1 {
      // both x and x - 1 still hold the bits of x / 2
      AndIdempotent(x / 2);
      assert false;
    } else {
      assert (x - 1) / 2 == x / 2 - 1;
      var j := PowerOfTwoExponent(x / 2);
      k := j + 1;
    }
  }

  lemma {:induction false} AndIdempotent(x: nat)
    ensures And(x, x) == x
  {
    if x != 0 { AndIdempotent(x / 2); }
  }

  lemma {:induction false} AndPredecessor(k: nat)
    ensures And(Pow2(k), Pow2(k) - 1) == 0
  {
    if k != 0 {
      var p := Pow2(k - 1);
      assert (2 * p - 1) / 2 == p - 1;
      AndPredecessor(k - 1);
    }
  }

  lemma DivModUnique(x: nat, d: nat, q: nat, r: nat)
    requires x == q * d + r && r < d
    ensures x / d == q && x % d == r
  {
    QuotientUnique(d, q, r, x / d, x % d);
  }

  lemma QuotientUnique(d: nat, q: int, r: int, q': int, r': int)
    requires q * d + r == q' * d + r'
    requires 0 <= r < d && 0 <= r' < d
    ensures q == q' && r == r'
  {
    if q < q' {
      OneMultiple(q' - q, d);
    } else if q' < q {
      OneMultiple(q - q', d);
    }
  }

  lemma OneMultiple(a: int, d: nat)
    requires a >= 1
    ensures a * d >= d
  {
    assert a * d == (a - 1) * d + d;
  }

  lemma {:induction false} XorCancels(x: nat, y: nat)
    ensures Xor(Xor(x, y), y) == x
    decreases x + y
  {
    if x != 0 || y != 0 {
      XorCancels(x / 2, y / 2);
      var z := Xor(x, y);
      assert z / 2 == Xor(x / 2, y / 2);
      if z == 0 && y == 0 {
        assert Xor(x / 2, 0) == 0;
        XorZero(x);
      }
    }
  }

  lemma {:induction false} XorZero(x: nat)
    ensures Xor(x, 0) == x
  {
    if x != 0 { XorZero(x / 2); }
  }

  lemma {:induction false} PowMonotone(j: nat, k: nat)
    requires j <= k
    ensures Pow2(j) <= Pow2(k)
    ensures Pow2(k) == Pow2(j) * Pow2(k - j)
  {
    if j == k {
      assert Pow2(0) == 1;
    } else {
      PowMonotone(j, k - 1);
      assert Pow2(j) * Pow2(k - j) == Pow2(j) * (2 * Pow2(k - 1 - j));
    }
  }

  lemma Pow32()
    ensures Pow2(32) == WORD32
    ensures Pow2(31) == 0x8000_0000
  {
    assert Pow2(8) == 256;
    PowMonotone(8, 16);
    assert Pow2(16) == 65536;
    PowMonotone(16, 32);
    assert Pow2(32) == 2 * Pow2(31);
  }

  // Position of the n-th item in a ring of d slots, and whether its lap is odd:
  // the remainder and the quotient's parity, by counting laps.
  function Residue(n: nat, d: nat): (r: nat)
    requires d > 0
    ensures r < d
  {
    if n < d then n else Residue(n - d, d)
  }

  predicate OddLap(n: nat, d: nat)
    requires d > 0
  {
    if n < d then false else !OddLap(n - d, d)
  }

  lemma {:induction false} LapsAreDivision(n: nat, d: nat)
    requires d > 0
    ensures Residue(n, d) == n % d
    ensures OddLap(n, d) <==> n / d % 2 == 1
  {
    if n < d {
      DivModUnique(n, d, 0, n);
    } else {
      LapsAreDivision(n - d, d);
      NextLap(n - d, d);
    }
  }

  // One modulus further the residue is the same and the quotient is one more.
  lemma NextLap(a: nat, d: nat)
    requires d > 0
    ensures (a + d) % d == a % d && (a + d) / d == a / d + 1
  {
    assert a + d == (a / d + 1) * d + a % d;
    DivModUnique(a + d, d, a / d + 1, a % d);
  }

  // Residues repeat only one modulus apart.
  lemma {:induction false} ResiduesDiffer(a: nat, b: nat, d: nat)
    requires a < b < a + d
    ensures Residue(a, d) != Residue(b, d)
  {
    if b >= d {
      if a >= d {
        ResiduesDiffer(a - d, b - d, d);
      } else {
        assert Residue(b, d) == b - d;
      }
    }
  }

  // Halving a position halves the ring and keeps the lap.
  lemma {:induction false} HalvedRing(x: nat, h: nat)
    requires h > 0
    ensures Residue(x, 2 * h) == 2 * Residue(x / 2, h) + x % 2
    ensures OddLap(x, 2 * h) == OddLap(x / 2, h)
  {
    if x >= 2 * h {
      HalvedRing(x - 2 * h, h);
      assert (x - 2 * h) / 2 == x / 2 - h;
    }
  }

  // Masking with size - 1 gives the position in a power-of-two ring.
  lemma {:induction false} AndMask(x: nat, k: nat)
    ensures And(x, Pow2(k) - 1) == Residue(x, Pow2(k))
  {
    if k == 0 {
      LapsAreDivision(x, 1);
    } else if x != 0 {
      var h := Pow2(k - 1);
      assert (2 * h - 1) / 2 == h - 1;
      AndMask(x / 2, k - 1);
      HalvedRing(x, h);
    }
  }

  // Masking with the size itself tells whether the lap is odd.
  lemma {:induction false} AndBit(x: nat, k: nat)
    ensures And(x, Pow2(k)) != 0 <==> OddLap(x, Pow2(k))
  {
    if k == 0 {
      LapsAreDivision(x, 1);
      assert And(x / 2, 0) == 0;
    } else if x != 0 {
      var h := Pow2(k - 1);
      assert (2 * h) / 2 == h;
      AndBit(x / 2, k - 1);
      HalvedRing(x, h);
    }
  }

  // Reducing by an even multiple of the size keeps index and lap parity.
  lemma LapsInWord(n: nat, size: nat, c: nat, word: nat)
    requires size > 0 && c > 0 && word == size * (2 * c)
    ensures n % word % size == n % size
    ensures n % word / size % 2 == n / size % 2
  {
    var q, r := Parts(n, word);
    var a, b := Parts(r, size);
    Regroup(q, size, c, a);
    DivModUnique(n, size, 2 * (q * c) + a, b);
    EvenShift(q * c, a);
  }

  lemma Parts(x: nat, d: nat) returns (q: nat, r: nat)
    requires d > 0
    ensures x == q * d + r && r < d && q == x / d && r == x % d
  {
    q, r := x / d, x % d;
  }

  lemma Regroup(q: nat, size: nat, c: nat, a: nat)
    ensures q * (size * (2 * c)) + a * size == (2 * (q * c) + a) * size
  {
    assert q * (size * (2 * c)) == (2 * (q * c)) * size;
  }

  lemma EvenShift(e: nat, a: nat)
    ensures (2 * e + a) % 2 == a % 2
  {
  }

  // A power-of-two ring index and lap bit survive the wrap of a 32-bit counter.
  lemma RingIndex(n: nat, size: nat, k: nat)
    requires size == Pow2(k) && k <= 31
    ensures And(Wrap32(n), size - 1) == Residue(n, size)
    ensures And(Wrap32(n), size) != 0 <==> OddLap(n, size)
  {
    LapsAreDivision(n, size);
    LapsAreDivision(Wrap32(n), size);
    WrapIsRemainder(n);
    var c := WordInLaps(size, k);
    AndMask(Wrap32(n), k);
    AndBit(Wrap32(n), k);
    LapsInWord(n, size, c, WORD32);
  }

  lemma WordInLaps(size: nat, k: nat) returns (c: nat)
    requires size == Pow2(k) && k <= 31
    ensures c > 0 && WORD32 == size * (2 * c)
    ensures size <= 0x8000_0000
  {
    Pow32();
    PowMonotone(k, 31);
    c := Pow2(31 - k);
    WordProduct(size, c);
  }

  lemma WordProduct(size: nat, c: nat)
    requires size * c == 0x8000_0000
    ensures WORD32 == size * (2 * c)
  {
    assert size * (2 * c) == 2 * (size * c);
  }

  // Subtracting two wrapped counters gives their true distance below 2^32.
  lemma WrappedDistance(h: nat, t: nat)
    requires t <= h < t + WORD32
    ensures Wrap32(Wrap32(h) - Wrap32(t)) == h - t
  {
    WrapIsRemainder(h);
    WrapIsRemainder(t);
  }

  lemma WrappedIncrement(n: nat)
    ensures Wrap32(Wrap32(n) + 1) == Wrap32(n + 1)
  {
    WrapIsRemainder(n);
    WrapIsRemainder(n + 1);
  }

  // ---------- products in order ----------

  lemma Ordered(a: int, b: int, d: nat)
    requires a * d < b * d
    ensures a < b
  {
    assert (a - b) * d == a * d - b * d;
    assert b <= a ==> (a - b) * d >= 0;
  }

  lemma Scaled(a: nat, b: nat, d: nat)
    requires a <= b
    ensures a * d <= b * d
  {
    assert (b - a) * d >= 0;
    assert (b - a) * d == b * d - a * d;
  }

  function Least(a: nat, b: nat): nat { if a < b then a else b }

  function Sum(s: seq<nat>): nat
  {
    if s == [] then 0 else Sum(s[..|s| - 1]) + s[|s| - 1]
  }
}
