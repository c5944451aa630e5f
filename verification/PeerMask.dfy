/** The bitmask of free peers, as the ascending list of the peers whose bit is set. */
module PeerMask {
  import opened Bits

  function Or(x: nat, y: nat): nat
    decreases x + y
  {
    if x == 0 && y == 0 then 0
    else 2 * Or(x / 2, y / 2) + (if x % 2 == 1 || y % 2 == 1 then 1 else 0)
  }

  // __builtin_ctz: the lowest set bit
  function Ctz(m: nat): nat
    requires m > 0
  {
    if m % 2 == 1 then 0 else 1 + Ctz(m / 2)
  }

  predicate HasBit(m: nat, k: nat)
  {
    if k == 0 then m % 2 == 1 else HasBit(m / 2, k - 1)
  }

  function PeersFrom(m: nat, base: nat): seq<nat>
    decreases m
  {
    if m == 0 then []
    else (if m % 2 == 1 then [base] else []) + PeersFrom(m / 2, base + 1)
  }

  // The set bits, lowest first.
  function Peers(m: nat): seq<nat>
  {
    PeersFrom(m, 0)
  }

  lemma {:induction false} PeerIn(m: nat, base: nat, k: nat)
    ensures k in PeersFrom(m, base) <==> k >= base && HasBit(m, k - base)
    decreases m
  {
    if m == 0 {
      if k >= base { NoBits(k - base); }
    } else {
      PeerIn(m / 2, base + 1, k);
    }
  }

  lemma {:induction false} PeersAscend(m: nat, base: nat)
    ensures forall i, j :: 0 <= i < j < |PeersFrom(m, base)| ==> PeersFrom(m, base)[i] < PeersFrom(m, base)[j]
    decreases m
  {
    if m > 0 {
      var rest := PeersFrom(m / 2, base + 1);
      PeersAscend(m / 2, base + 1);
      forall i | 0 <= i < |rest|
        ensures base < rest[i]
      {
        PeerIn(m / 2, base + 1, rest[i]);
      }
    }
  }

  lemma {:induction false} NoBits(k: nat)
    ensures !HasBit(0, k)
  {
    if k > 0 { NoBits(k - 1); }
  }

  /** The list has the set bits and nothing else, each once, in ascending order. */
  lemma PeersAre(m: nat)
    ensures forall i, j :: 0 <= i < j < |Peers(m)| ==> Peers(m)[i] < Peers(m)[j]
    ensures forall k :: k in Peers(m) <==> HasBit(m, k)
  {
    hide HasBit, PeersFrom;
    PeersAscend(m, 0);
    forall k
      ensures k in Peers(m) <==> HasBit(m, k)
    {
      PeerIn(m, 0, k);
    }
  }

  /** Picking the lowest set bit and flipping it takes the first peer off the list. */
  lemma TakeLowest(m: nat)
    requires m > 0
    ensures |Peers(m)| > 0 && Ctz(m) == Peers(m)[0]
    ensures Peers(Xor(m, Pow2(Ctz(m)))) == Peers(m)[1..]
  {
    TakeLowestFrom(m, 0);
  }

  lemma {:induction false} TakeLowestFrom(m: nat, base: nat)
    requires m > 0
    ensures |PeersFrom(m, base)| > 0 && base + Ctz(m) == PeersFrom(m, base)[0]
    ensures PeersFrom(Xor(m, Pow2(Ctz(m))), base) == PeersFrom(m, base)[1..]
    decreases m
  {
    hide Xor;
    var h := m / 2;
    if m % 2 == 1 {
      XorHalves(m, 1);
      XorZero(h);
      assert Xor(m, 1) == 2 * h;
      assert PeersFrom(2 * h, base) == PeersFrom(h, base + 1);
    } else {
      TakeLowestFrom(h, base + 1);
      XorHalves(m, 2 * Pow2(Ctz(h)));
      assert PeersFrom(m, base) == PeersFrom(h, base + 1);
      var x := Xor(h, Pow2(Ctz(h)));
      assert PeersFrom(2 * x, base) == PeersFrom(x, base + 1);
    }
  }

  lemma XorHalves(x: nat, y: nat)
    ensures Xor(x, y) == 2 * Xor(x / 2, y / 2) + (if x % 2 != y % 2 then 1 else 0)
  {
  }

  // Setting a bit adds that peer and no other.
  lemma {:induction false} OrBit(m: nat, p: nat, k: nat)
    ensures HasBit(Or(m, Pow2(p)), k) <==> HasBit(m, k) || k == p
  {
    hide Or;
    OrHalves(m, Pow2(p));
    if p == 0 {
      OrZero(m / 2);
    } else if k > 0 {
      OrBit(m / 2, p - 1, k - 1);
    }
  }

  lemma OrHalves(x: nat, y: nat)
    ensures Or(x, y) % 2 == (if x % 2 == 1 || y % 2 == 1 then 1 else 0)
    ensures Or(x, y) / 2 == Or(x / 2, y / 2)
  {
  }

  lemma {:induction false} OrZero(x: nat)
    ensures Or(x, 0) == x
  {
    if x != 0 { OrZero(x / 2); }
  }

  // Clearing the lowest bit by XOR changes no other.
  lemma XorBit(m: nat, p: nat, k: nat)
    requires m > 0 && p == Ctz(m)
    ensures HasBit(Xor(m, Pow2(p)), k) <==> HasBit(m, k) && k != p
  {
    hide Xor, Ctz, HasBit, Peers;
    TakeLowest(m);
    PeersAre(m);
    PeersAre(Xor(m, Pow2(p)));
    var all := Peers(m);
    assert all == [p] + all[1..];
    assert forall i :: 0 < i < |all| ==> all[i] > all[0];
  }

  // free_peers starts as 2^n - 1: peers 0 to n - 1.
  lemma {:induction false} AllFree(n: nat, k: nat)
    ensures HasBit(Pow2(n) - 1, k) <==> k < n
  {
    if n == 0 {
      NoBits(k);
    } else {
      var p := Pow2(n - 1);
      assert (2 * p - 1) / 2 == p - 1 && (2 * p - 1) % 2 == 1;
      if k > 0 { AllFree(n - 1, k - 1); }
    }
  }

  lemma {:induction false} SomeBit(m: nat)
    requires m > 0
    ensures HasBit(m, Ctz(m))
  {
    if m % 2 == 0 { SomeBit(m / 2); }
  }

  // ---------- the completion notification ----------

  // (type << 60) ^ tsc in a 64-bit word
  function Notif(typ: nat, tsc: nat): nat
  {
    Xor(typ % 16 * 0x1000_0000_0000_0000, tsc)
  }

  function NotifType(notif: nat): nat
  {
    notif / 0x1000_0000_0000_0000
  }

  function NotifTsc(notif: nat): nat
  {
    notif % 0x1000_0000_0000_0000
  }

  lemma {:induction false} XorJoin(h: nat, g: nat, low: nat, k: nat)
    requires low < Pow2(k)
    ensures Xor(h * Pow2(k), g * Pow2(k) + low) == Xor(h, g) * Pow2(k) + low
  {
    hide Xor;
    if k == 0 {
      assert Pow2(0) == 1;
    } else {
      var p := Pow2(k - 1);
      XorJoin(h, g, low / 2, k - 1);
      assert h * (2 * p) == 2 * (h * p) && g * (2 * p) == 2 * (g * p);
      XorDoubled(h * p, g * p, low);
      assert Xor(h, g) * (2 * p) == 2 * (Xor(h, g) * p);
    }
  }

  lemma XorDoubled(x: nat, y: nat, low: nat)
    ensures Xor(2 * x, 2 * y + low) == 2 * Xor(x, y + low / 2) + low % 2
  {
    XorHalves(2 * x, 2 * y + low);
  }

  lemma Pow60()
    ensures Pow2(60) == 0x1000_0000_0000_0000
  {
    Pow32();
    PowMonotone(29, 31);
    assert Pow2(2) == 4;
    PowMonotone(29, 60);
  }

  /** The dispatcher reads back the type and time a worker packed into its notification exactly
      when the type fits four bits and the time sixty. */
  lemma NotifExact(typ: nat, tsc: nat)
    ensures NotifType(Notif(typ, tsc)) == typ && NotifTsc(Notif(typ, tsc)) == tsc <==>
              typ < 16 && tsc < 0x1000_0000_0000_0000
  {
    hide Xor, Pow2;
    Pow60();
    var g, low := tsc / 0x1000_0000_0000_0000, tsc % 0x1000_0000_0000_0000;
    XorJoin(typ % 16, g, low, 60);
    XorZero(typ % 16);
  }
}
