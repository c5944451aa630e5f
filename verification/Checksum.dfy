/** The Internet checksum: a 64-bit add-with-carry chain, narrower tails and two folds,
    proved equal to the 16-bit one's complement sum of RFC 1071, sections 1 and 2. */
module Checksum {

  type Byte = x: nat | x < 256

  // ---------- the reference ----------

  // 16-bit one's complement addition: the carry comes back in at the bottom.
  function OnesAdd(a: nat, b: nat): (r: nat)
    requires a < 0x1_0000 && b < 0x1_0000
    ensures r < 0x1_0000
  {
    if a + b < 0x1_0000 then a + b else a + b - 0xffff
  }

  // A 16-bit word as the machine loads it; an odd last byte is padded with zero.
  function HostWord(buf: seq<Byte>): (r: nat)
    requires buf != []
    ensures r < 0x1_0000
  {
    var lo: nat := buf[0];
    if |buf| == 1 then lo
    else
      var hi: nat := buf[1];
      lo + 256 * hi
  }

  function NetworkWord(buf: seq<Byte>): (r: nat)
    requires buf != []
    ensures r < 0x1_0000
  {
    var hi: nat := buf[0];
    if |buf| == 1 then 256 * hi
    else
      var lo: nat := buf[1];
      256 * hi + lo
  }

  function Rest(buf: seq<Byte>): (r: seq<Byte>)
    requires buf != []
    ensures |r| < |buf|
  {
    if |buf| == 1 then [] else buf[2..]
  }

  // One word after another, as section 1 of RFC 1071 describes it.
  function OnesSum(acc: nat, buf: seq<Byte>): (r: nat)
    requires acc < 0x1_0000
    ensures r < 0x1_0000
    decreases |buf|
  {
    if buf == [] then acc else OnesSum(OnesAdd(acc, HostWord(buf)), Rest(buf))
  }

  function NetworkSum(acc: nat, buf: seq<Byte>): (r: nat)
    requires acc < 0x1_0000
    ensures r < 0x1_0000
    decreases |buf|
  {
    if buf == [] then acc else NetworkSum(OnesAdd(acc, NetworkWord(buf)), Rest(buf))
  }

  function Reference(buf: seq<Byte>): (r: nat)
    ensures r < 0x1_0000
  {
    0xffff - OnesSum(0, buf)
  }

  // ---------- sums without carries ----------

  // The plain sum of the 16-bit words.
  function Total(buf: seq<Byte>): nat
    decreases |buf|
  {
    if buf == [] then 0 else HostWord(buf) + Total(Rest(buf))
  }

  // x stands for the one's complement class of v: same residue, and zero only for zero.
  predicate Stands(x: int, v: int)
  {
    0 <= x && 0 <= v && (x == 0 <==> v == 0) && (x - v) % 0xffff == 0
  }

  lemma StandsShift(x: int, v: int, y: int, k: int)
    requires Stands(x, v) && 0 <= y && (y == 0 <==> x == 0) && y == x + 0xffff * k
    ensures Stands(y, v)
  {
    Multiple(x - v, k);
  }

  lemma Multiple(d: int, k: int)
    requires d % 0xffff == 0
    ensures (d + 0xffff * k) % 0xffff == 0
  {
  }

  lemma StandsAdd(x: int, v: int, y: int, w: int)
    requires Stands(x, v) && Stands(y, w)
    ensures Stands(x + y, v + w)
  {
  }

  // In 16 bits the class has one representative.
  lemma StandsUnique(x: nat, y: nat, v: int)
    requires x < 0x1_0000 && y < 0x1_0000 && Stands(x, v) && Stands(y, v)
    ensures x == y
  {
  }

  lemma OnesAddStands(a: nat, b: nat)
    requires a < 0x1_0000 && b < 0x1_0000
    ensures Stands(OnesAdd(a, b), a + b)
  {
  }

  lemma StandsTrans(x: int, y: int, v: int)
    requires Stands(x, y) && Stands(y, v)
    ensures Stands(x, v)
  {
  }

  lemma {:induction false} OnesSumStands(acc: nat, buf: seq<Byte>)
    requires acc < 0x1_0000
    ensures Stands(OnesSum(acc, buf), acc + Total(buf))
    decreases |buf|
  {
    if buf != [] {
      var w := HostWord(buf);
      var a := OnesAdd(acc, w);
      OnesAddStands(acc, w);
      OnesSumStands(a, Rest(buf));
      var t := Total(Rest(buf));
      StandsAdd(a, acc + w, t, t);
      StandsTrans(OnesSum(a, Rest(buf)), a + t, acc + w + t);
    }
  }

  lemma {:induction false} TotalSplit(buf: seq<Byte>, k: nat)
    requires k <= |buf| && k % 2 == 0
    ensures Total(buf) == Total(buf[..k]) + Total(buf[k..])
    decreases k
  {
    if k == 0 {
      assert buf[0..] == buf && buf[..0] == [];
    } else {
      TotalSplit(buf[2..], k - 2);
      assert buf[2..][..k - 2] == buf[..k][2..];
      assert buf[2..][k - 2..] == buf[k..];
      assert Total(buf[..k]) == HostWord(buf[..k]) + Total(buf[..k][2..]);
    }
  }

  // ---------- machine operations ----------

  // A little-endian load of all bytes of b.
  function Load(b: seq<Byte>): nat
  {
    if b == [] then 0 else b[0] + 256 * Load(b[1..])
  }

  // add with carry in, wrapping at `word`; the second component is the carry flag.
  function Adc(a: nat, b: nat, cf: nat, word: nat): (r: (nat, nat))
    requires a < word && b < word && cf <= 1
    ensures r.0 < word && r.1 <= 1 && r.0 + word * r.1 == a + b + cf
  {
    if a + b + cf < word then (a + b + cf, 0) else (a + b + cf - word, 1)
  }

  const W64: nat := 0x1_0000_0000_0000_0000
  const W32: nat := 0x1_0000_0000
  const W16: nat := 0x1_0000

  lemma LoadStands1(b: seq<Byte>)
    requires |b| == 1
    ensures Load(b) == Total(b) < 256
  {
    assert b[1..] == [];
  }

  lemma LoadStands2(b: seq<Byte>)
    requires |b| == 2
    ensures Load(b) == Total(b) < W16
  {
    LoadStands1(b[1..]);
    assert b[2..] == [];
    assert Total(b) == HostWord(b) + Total([]);
  }

  // Widening a load by one 16-bit word multiplies the rest by 2^16, which is 1 modulo 2^16 - 1.
  lemma LoadWord(b: seq<Byte>)
    requires |b| >= 2
    ensures Load(b) == HostWord(b) + W16 * Load(b[2..])
    ensures Total(b) == HostWord(b) + Total(b[2..])
  {
    assert b[1..][1..] == b[2..];
    assert Rest(b) == b[2..];
    assert Load(b) == b[0] + 256 * Load(b[1..]);
    assert Load(b[1..]) == b[1] + 256 * Load(b[2..]);
  }

  lemma LoadStands4(b: seq<Byte>)
    requires |b| == 4
    ensures Stands(Load(b), Total(b)) && Load(b) < W32
  {
    LoadWord(b);
    LoadStands2(b[2..]);
    StandsWiden(HostWord(b), Load(b[2..]), Total(b[2..]));
  }

  lemma LoadStands8(b: seq<Byte>)
    requires |b| == 8
    ensures Stands(Load(b), Total(b)) && Load(b) < W64
  {
    var c := b[2..];
    LoadWord(b);
    LoadWord(c);
    LoadStands4(c[2..]);
    StandsWiden(HostWord(c), Load(c[2..]), Total(c[2..]));
    StandsWiden(HostWord(b), Load(c), Total(c));
  }

  lemma StandsWiden(w: nat, x: nat, v: nat)
    requires Stands(x, v)
    ensures Stands(w + W16 * x, w + v)
  {
    assert (w + W16 * x) - (w + v) == (x - v) + 0xffff * x;
    Multiple(x - v, x);
  }

  /** One step of the carry chain.  The sum and its pending carry together stand for what was
      added, and the pair (all ones, carry) is never reached, so folding the carry in later
      cannot overflow. */
  lemma CarryChain(sum: nat, cf: nat, w: nat, v: nat, t: nat)
    requires sum < W64 && w < W64 && cf <= 1 && sum + cf < W64
    requires Stands(sum + cf, v) && Stands(w, t)
    ensures var (s, c) := Adc(sum, w, cf, W64); s + c < W64 && Stands(s + c, v + t)
  {
    var (s, c) := Adc(sum, w, cf, W64);
    StandsAdd(sum + cf, v, w, t);
    StandsShift(sum + cf + w, v + t, s + c, -(c * 281479271743489));
  }

  lemma Fold32(sum: nat, v: nat)
    requires sum < W64 && Stands(sum, v)
    ensures var (s, c) := Adc(sum / W32, sum % W32, 0, W32); s + c < W32 && Stands(s + c, v)
  {
    var hi, lo := sum / W32, sum % W32;
    var (s, c) := Adc(hi, lo, 0, W32);
    assert sum == hi * W32 + lo;
    StandsShift(sum, v, s + c, -(65537 * hi) - 65537 * c);
  }

  lemma Fold16(sum: nat, v: nat)
    requires sum < W32 && Stands(sum, v)
    ensures var (s, c) := Adc(sum / W16, sum % W16, 0, W16); s + c < W16 && Stands(s + c, v)
  {
    var hi, lo := sum / W16, sum % W16;
    var (s, c) := Adc(hi, lo, 0, W16);
    assert sum == hi * W16 + lo;
    StandsShift(sum, v, s + c, -hi - c);
  }

  // ---------- the routine ----------

  // The 8-byte chunks.  shrl leaves a carry behind, which cmp clears before the first adcq.
  method SumChunks(buf: seq<Byte>) returns (sum: nat, p: nat)
    ensures p == |buf| / 8 * 8 && sum < W64 && Stands(sum, Total(buf[..p]))
  {
    hide Stands, Total, Load;
    var cf: nat := 0;
    sum, p := 0, 0;
    NothingStands(buf[..0]);
    var edx := |buf| / 8;
    while edx != 0
      invariant 0 <= edx && p + 8 * edx == |buf| / 8 * 8
      invariant p % 8 == 0 && cf <= 1 && sum < W64 && sum + cf < W64
      invariant Stands(sum + cf, Total(buf[..p]))
      decreases edx
    {
      var w := buf[p..p + 8];
      LoadStands8(w);
      NextChunk(buf, p, 8);
      CarryChain(sum, cf, Load(w), Total(buf[..p]), Total(w));
      var (s, c) := Adc(sum, Load(w), cf, W64);
      sum, cf := s, c;
      p := p + 8;
      edx := edx - 1;
    }
    sum := Adc(sum, 0, cf, W64).0;
  }

  // The n bytes at p, if the length has that bit: addq and then adcq $0.
  method AddTail(buf: seq<Byte>, sum: nat, p: nat, n: nat) returns (sum': nat, p': nat)
    requires n == 4 || n == 2 || n == 1
    requires p + |buf| % (2 * n) == |buf| && p % 2 == 0
    requires sum < W64 && Stands(sum, Total(buf[..p]))
    ensures p' + |buf| % n == |buf| && (n != 1 ==> p' % 2 == 0)
    ensures sum' < W64 && Stands(sum', Total(buf[..p']))
  {
    hide Stands, Total, Load;
    sum', p' := sum, p;
    LengthBit(|buf|, n);
    if |buf| / n % 2 == 1 {
      var w := buf[p..p + n];
      LoadStands(w);
      NextChunk(buf, p, n);
      CarryChain(sum, 0, Load(w), Total(buf[..p]), Total(w));
      var (s, c) := Adc(sum, Load(w), 0, W64);
      sum' := Adc(s, 0, c, W64).0;
      p' := p + n;
    }
  }

  lemma LengthBit(len: nat, n: nat)
    requires n == 4 || n == 2 || n == 1
    ensures len % (2 * n) == (if len / n % 2 == 1 then n else 0) + len % n
  {
    if n == 4 { LengthBit4(len); } else if n == 2 { LengthBit2(len); }
  }

  lemma LengthBit4(len: nat)
    ensures len % 8 == (if len / 4 % 2 == 1 then 4 else 0) + len % 4
  {
  }

  lemma LengthBit2(len: nat)
    ensures len % 4 == (if len / 2 % 2 == 1 then 2 else 0) + len % 2
  {
  }

  lemma LoadStands(w: seq<Byte>)
    requires |w| == 4 || |w| == 2 || |w| == 1
    ensures Load(w) < W32 && Stands(Load(w), Total(w))
  {
    hide Total, Load;
    if |w| == 4 { LoadStands4(w); } else if |w| == 2 { LoadStands2(w); } else { LoadStands1(w); }
  }

  // Down to 32 and then to 16 bits, the carry coming back in each time.
  method Fold(sum: nat, ghost v: nat) returns (r: nat)
    requires sum < W64 && Stands(sum, v)
    ensures r < W16 && Stands(r, v)
  {
    hide Stands;
    Fold32(sum, v);
    var (s32, c32) := Adc(sum / W32, sum % W32, 0, W32);
    var half := Adc(s32, 0, c32, W32).0;
    Fold16(half, v);
    var (s16, c16) := Adc(half / W16, half % W16, 0, W16);
    r := Adc(s16, 0, c16, W16).0;
  }

  /** chksum_internet, for every buffer an int length can describe. */
  method ChksumInternet(buf: seq<Byte>) returns (r: nat)
    requires |buf| < 0x8000_0000
    ensures r == Reference(buf)
  {
    hide Stands, Total, Load, OnesSum;
    var sum, p := SumChunks(buf);
    sum, p := AddTail(buf, sum, p, 4);
    sum, p := AddTail(buf, sum, p, 2);
    sum, p := AddTail(buf, sum, p, 1);
    assert buf[..p] == buf;
    sum := Fold(sum, Total(buf));
    r := 0xffff - sum;
    OnesSumStands(0, buf);
    StandsUnique(sum, OnesSum(0, buf), Total(buf));
  }

  lemma NothingStands(b: seq<Byte>)
    requires b == []
    ensures Stands(0, Total(b))
  {
  }

  lemma NextChunk(buf: seq<Byte>, p: nat, n: nat)
    requires p % 2 == 0 && p + n <= |buf|
    ensures Total(buf[..p + n]) == Total(buf[..p]) + Total(buf[p..p + n])
  {
    TotalSplit(buf[..p + n], p);
    assert buf[..p + n][..p] == buf[..p];
    assert buf[..p + n][p..] == buf[p..p + n];
  }

  // ---------- what RFC 1071 says about the sum ----------

  function Swap(x: nat): (r: nat)
    requires x < 0x1_0000
    ensures r < 0x1_0000
  {
    x % 256 * 256 + x / 256
  }

  lemma SwapAdd(a: nat, b: nat)
    requires a < 0x1_0000 && b < 0x1_0000
    ensures OnesAdd(Swap(a), Swap(b)) == Swap(OnesAdd(a, b))
  {
    SwapStands(a);
    SwapStands(b);
    SwapStands(OnesAdd(a, b));
    OnesAddStands(a, b);
    OnesAddStands(Swap(a), Swap(b));
    StandsAdd(Swap(a), 256 * a, Swap(b), 256 * b);
    StandsTrans(OnesAdd(Swap(a), Swap(b)), Swap(a) + Swap(b), 256 * a + 256 * b);
    Scale(OnesAdd(a, b), a + b);
    StandsTrans(Swap(OnesAdd(a, b)), 256 * OnesAdd(a, b), 256 * (a + b));
    StandsUnique(OnesAdd(Swap(a), Swap(b)), Swap(OnesAdd(a, b)), 256 * (a + b));
  }

  lemma SwapStands(x: nat)
    requires x < 0x1_0000
    ensures Stands(Swap(x), 256 * x)
  {
    var h, l := x / 256, x % 256;
    assert x == 256 * h + l;
    assert Swap(x) == 256 * l + h;
    assert 256 * x == 0x1_0000 * h + 256 * l;
  }

  lemma Scale(x: int, v: int)
    requires Stands(x, v)
    ensures Stands(256 * x, 256 * v)
  {
    var d := (x - v) / 0xffff;
    assert x - v == 0xffff * d;
    assert 256 * x - 256 * v == 0 + 0xffff * (256 * d);
    Multiple(0, 256 * d);
  }

  /** Byte order independence, section 2 (B): summing host-order words gives the byte-swapped
      network-order sum, so the checksum stored as the host holds it is right on the wire. */
  lemma {:induction false} ByteOrderIndependent(acc: nat, buf: seq<Byte>)
    requires acc < 0x1_0000
    ensures OnesSum(Swap(acc), buf) == Swap(NetworkSum(acc, buf))
    decreases |buf|
  {
    if buf != [] {
      assert HostWord(buf) == Swap(NetworkWord(buf));
      SwapAdd(acc, NetworkWord(buf));
      ByteOrderIndependent(OnesAdd(acc, NetworkWord(buf)), Rest(buf));
    }
  }

  /** The receiver's test, section 1 (3): with the checksum stored behind an even-length buffer,
      the checksum of the whole is zero. */
  lemma StoredChecksumVerifies(buf: seq<Byte>, sealed: seq<Byte>)
    requires |buf| % 2 == 0
    requires sealed == buf + [Reference(buf) % 256, Reference(buf) / 256]
    ensures Reference(sealed) == 0
  {
    var c := Reference(buf);
    var tail: seq<Byte> := [c % 256, c / 256];
    TotalSplit(sealed, |buf|);
    assert sealed[..|buf|] == buf && sealed[|buf|..] == tail;
    LoadWord(tail);
    assert tail[2..] == [];
    assert Total(tail) == c;
    OnesSumStands(0, buf);
    OnesSumStands(0, sealed);
    SealedTotal(OnesSum(0, buf), Total(buf));
    StandsUnique(OnesSum(0, sealed), 0xffff, Total(sealed));
  }

  lemma SealedTotal(x: nat, v: nat)
    requires x < 0x1_0000 && Stands(x, v)
    ensures Stands(0xffff, v + (0xffff - x))
  {
  }
}
