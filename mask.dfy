/**
 * Pins and the 16-bit pin mask: bit `p - 1` of the mask stands for pin `p`.
 * Bits are read off a natural number by repeated halving, so the mask needs no
 * bit-vector type.
 */
module PinMask {

  /** One of the tester's sixteen pins, numbered from 1. */
  type Pin = p: int | 1 <= p <= 16 witness 1

  const AllPins: set<Pin> := set p: int | 1 <= p <= 16 :: p as Pin

  /** The pins a pin mapping switches on. */
  predicate IsOn(pins: map<Pin, bool>, p: Pin) {
    p in pins && pins[p]
  }

  function Pow2(n: nat): (r: nat)
    ensures r >= 1
  {
    if n == 0 then 1 else 2 * Pow2(n - 1)
  }

  lemma Pow2Of16()
    ensures Pow2(16) == 65536
  {
    assert Pow2(4) == 16 by {
      assert Pow2(1) == 2 && Pow2(2) == 4 && Pow2(3) == 8;
    }
    assert Pow2(8) == 256 by {
      assert Pow2(5) == 32 && Pow2(6) == 64 && Pow2(7) == 128;
    }
    assert Pow2(12) == 4096 by {
      assert Pow2(9) == 512 && Pow2(10) == 1024 && Pow2(11) == 2048;
    }
    assert Pow2(13) == 8192 && Pow2(14) == 16384 && Pow2(15) == 32768;
  }

  /** Bit `i` of `m`. */
  predicate Bit(m: nat, i: nat) {
    if i == 0 then m % 2 == 1 else Bit(m / 2, i - 1)
  }

  /** The bit that stands for pin `p`. */
  predicate PinBit(m: nat, p: Pin) {
    Bit(m, p - 1)
  }

  /** `m | (1 << i)` */
  function SetBit(m: nat, i: nat): (r: nat)
    ensures forall j: nat :: Bit(r, j) <==> Bit(m, j) || j == i
  {
    if Bit(m, i) then
      assert forall j: nat :: Bit(m, j) <==> Bit(m, j) || j == i;
      m
    else
      AddClearBit(m, i);
      m + Pow2(i)
  }

  lemma {:induction false} AddClearBit(m: nat, i: nat)
    requires !Bit(m, i)
    ensures forall j: nat :: Bit(m + Pow2(i), j) <==> Bit(m, j) || j == i
  {
    forall j: nat ensures Bit(m + Pow2(i), j) <==> Bit(m, j) || j == i {
      AddClearBitAt(m, i, j);
    }
  }

  lemma {:induction false} AddClearBitAt(m: nat, i: nat, j: nat)
    requires !Bit(m, i)
    ensures Bit(m + Pow2(i), j) <==> Bit(m, j) || j == i
  {
    if i == 0 {
      assert (m + 1) / 2 == m / 2;
    } else {
      assert (m + Pow2(i)) % 2 == m % 2;
      assert (m + Pow2(i)) / 2 == m / 2 + Pow2(i - 1);
      if j > 0 {
        AddClearBitAt(m / 2, i - 1, j - 1);
      }
    }
  }

  /** A number below 2^k has no bit at or above k. */
  lemma {:induction false} HighBitsClear(m: nat, k: nat, i: nat)
    requires m < Pow2(k) && k <= i
    ensures !Bit(m, i)
  {
    if i > 0 && k > 0 {
      HighBitsClear(m / 2, k - 1, i - 1);
    } else if i > 0 {
      assert m == 0;
      HighBitsClear(0, 0, i - 1);
    }
  }

  /** Setting a bit below k keeps a number below 2^k. */
  lemma {:induction false} SetBitBound(m: nat, i: nat, k: nat)
    requires m < Pow2(k) && i < k
    ensures SetBit(m, i) < Pow2(k)
  {
    if !Bit(m, i) && i > 0 {
      SetBitBound(m / 2, i - 1, k - 1);
      assert (m + Pow2(i)) / 2 == m / 2 + Pow2(i - 1);
      assert SetBit(m / 2, i - 1) == m / 2 + Pow2(i - 1);
    }
  }

  /** Two numbers below 2^k with the same bits below k are equal. */
  lemma {:induction false} SameBits(m: nat, n: nat, k: nat)
    requires m < Pow2(k) && n < Pow2(k)
    requires forall i: nat :: i < k ==> Bit(m, i) == Bit(n, i)
    ensures m == n
  {
    if k > 0 {
      forall i: nat | i < k - 1 ensures Bit(m / 2, i) == Bit(n / 2, i) {
        assert Bit(m, i + 1) == Bit(n, i + 1);
      }
      SameBits(m / 2, n / 2, k - 1);
      assert Bit(m, 0) == Bit(n, 0);
    }
  }

  /** Pins `p..16` as binary digits, pin `p` the lowest. */
  function MaskFrom(pins: map<Pin, bool>, p: int): nat
    requires 1 <= p <= 17
    decreases 17 - p
  {
    if p == 17 then 0 else (if IsOn(pins, p) then 1 else 0) + 2 * MaskFrom(pins, p + 1)
  }

  /** The mask `_pins_to_arg` computes; pins absent from the mapping contribute 0. */
  function Mask(pins: map<Pin, bool>): (m: nat)
    ensures m < 65536
  {
    MaskFromBits(pins, 1, 0);
    Pow2Of16();
    MaskFrom(pins, 1)
  }

  lemma {:induction false} MaskFromBits(pins: map<Pin, bool>, p: int, i: nat)
    requires 1 <= p <= 17
    ensures MaskFrom(pins, p) < Pow2(17 - p)
    ensures Bit(MaskFrom(pins, p), i) <==> p + i <= 16 && IsOn(pins, p + i)
    decreases 17 - p
  {
    if p < 17 {
      MaskFromBits(pins, p + 1, if i == 0 then 0 else i - 1);
    } else if i > 0 {
      HighBitsClear(0, 0, i - 1);
    }
  }

  /** The mask fits in 16 bits and has bit `p - 1` set exactly when pin `p` is on. */
  lemma MaskBits(pins: map<Pin, bool>)
    ensures Mask(pins) < 65536
    ensures forall p: Pin :: PinBit(Mask(pins), p) <==> IsOn(pins, p)
    ensures forall i: nat :: 16 <= i ==> !Bit(Mask(pins), i)
  {
    MaskFromBits(pins, 1, 0);
    Pow2Of16();
    forall p: Pin ensures PinBit(Mask(pins), p) <==> IsOn(pins, p) {
      MaskFromBits(pins, 1, p - 1);
    }
    forall i: nat | 16 <= i ensures !Bit(Mask(pins), i) {
      MaskFromBits(pins, 1, i);
    }
  }

  /** The mask is the only 16-bit number whose bits are the pins switched on. */
  lemma MaskUnique(pins: map<Pin, bool>, m: nat)
    requires m < 65536
    requires forall p: Pin :: PinBit(m, p) <==> IsOn(pins, p)
    ensures m == Mask(pins)
  {
    MaskBits(pins);
    Pow2Of16();
    forall i: nat | i < 16 ensures Bit(m, i) == Bit(Mask(pins), i) {
      assert PinBit(m, (i + 1) as Pin) <==> IsOn(pins, (i + 1) as Pin);
    }
    SameBits(m, Mask(pins), 16);
  }

  lemma {:induction false} BitConcat(lo: nat, hi: nat, k: nat, i: nat)
    requires lo < Pow2(k)
    ensures Bit(lo + Pow2(k) * hi, i) == if i < k then Bit(lo, i) else Bit(hi, i - k)
  {
    if k > 0 {
      var x := Pow2(k - 1) * hi;
      assert Pow2(k) * hi == 2 * x;
      assert (lo + 2 * x) % 2 == lo % 2;
      assert (lo + 2 * x) / 2 == lo / 2 + x;
      if i > 0 {
        BitConcat(lo / 2, hi, k - 1, i - 1);
      }
    }
  }

  /**
   * Bits of a 16-bit number stored as a low and a high byte: pins 1..8 are
   * bits 0..7 of the low byte, pins 9..16 bits 0..7 of the high byte.
   */
  lemma ByteBits(lo: nat, hi: nat, p: Pin)
    requires lo < 256
    ensures PinBit(lo + 256 * hi, p) == if p <= 8 then Bit(lo, p - 1) else Bit(hi, p - 9)
  {
    assert Pow2(8) == 256 by {
      assert Pow2(4) == 16;
    }
    BitConcat(lo, hi, 8, p - 1);
  }

  /** The mask of a mapping, checked pin by pin against a low and a high byte. */
  lemma MaskByBytes(pins: map<Pin, bool>, lo: nat, hi: nat)
    requires lo < 256 && hi < 256
    requires Bit(lo, 0) == IsOn(pins, 1) && Bit(lo, 1) == IsOn(pins, 2) && Bit(lo, 2) == IsOn(pins, 3)
    requires Bit(lo, 3) == IsOn(pins, 4) && Bit(lo, 4) == IsOn(pins, 5) && Bit(lo, 5) == IsOn(pins, 6)
    requires Bit(lo, 6) == IsOn(pins, 7) && Bit(lo, 7) == IsOn(pins, 8)
    requires Bit(hi, 0) == IsOn(pins, 9) && Bit(hi, 1) == IsOn(pins, 10) && Bit(hi, 2) == IsOn(pins, 11)
    requires Bit(hi, 3) == IsOn(pins, 12) && Bit(hi, 4) == IsOn(pins, 13) && Bit(hi, 5) == IsOn(pins, 14)
    requires Bit(hi, 6) == IsOn(pins, 15) && Bit(hi, 7) == IsOn(pins, 16)
    ensures Mask(pins) == lo + 256 * hi
  {
    forall p: Pin ensures PinBit(lo + 256 * hi, p) <==> IsOn(pins, p) {
      ByteBits(lo, hi, p);
      assert p == 1 || p == 2 || p == 3 || p == 4 || p == 5 || p == 6 || p == 7 || p == 8
          || p == 9 || p == 10 || p == 11 || p == 12 || p == 13 || p == 14 || p == 15 || p == 16;
    }
    MaskUnique(pins, lo + 256 * hi);
  }

  /** The mask reads only the pins that are on. */
  lemma MaskOnlyOn(a: map<Pin, bool>, b: map<Pin, bool>)
    requires forall p: Pin :: IsOn(a, p) <==> IsOn(b, p)
    ensures Mask(a) == Mask(b)
  {
    MaskBits(a);
    MaskUnique(b, Mask(a));
  }

  /**
   * `_pins_to_arg`: visit the keys in any order and OR in the bit of each pin
   * whose value is true.
   */
  method PinsToArg(pins: map<Pin, bool>) returns (out: nat)
    ensures out == Mask(pins)
  {
    out := 0;
    var todo := pins.Keys;
    forall i: nat ensures !Bit(0, i) {
      HighBitsClear(0, 0, i);
    }
    while todo != {}
      invariant todo <= pins.Keys
      invariant out < Pow2(16)
      invariant forall p: Pin :: PinBit(out, p) <==> IsOn(pins, p) && p !in todo
      decreases todo
    {
      var pin :| pin in todo;
      if pins[pin] {
        SetBitBound(out, pin - 1, 16);
        out := SetBit(out, pin - 1);
      }
      todo := todo - {pin};
    }
    Pow2Of16();
    MaskUnique(pins, out);
  }
}
