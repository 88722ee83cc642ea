/** Go's uint64 as numbers below 2^64, with the shift and bitwise operators written out. */
module Words {

  const U64: nat := 0x1_0000_0000_0000_0000
  type uint64 = n: nat | n < U64

  function Pow2(k: nat): (r: nat)
    ensures r > 0
  {
    if k == 0 then 1 else 2 * Pow2(k - 1)
  }

  /** Whether bit `i` is set. */
  predicate Bit(b: nat, i: nat)
  {
    if i == 0 then b % 2 == 1 else Bit(b / 2, i - 1)
  }

  /** `b << 1`: the bit pushed out at position 63 is lost. */
  function Double(b: uint64): uint64
  {
    if b < U64 / 2 then 2 * b else 2 * b - U64
  }

  /** `b << s` */
  function Shl(b: uint64, s: nat): uint64
    decreases s
  {
    if s == 0 then b else Shl(Double(b), s - 1)
  }

  /** `a & b` */
  function And(a: nat, b: nat): nat
  {
    if a == 0 then 0 else 2 * And(a / 2, b / 2) + (if a % 2 == 1 && b % 2 == 1 then 1 else 0)
  }

  /** `a | b` */
  function Or(a: nat, b: nat): nat
    decreases a + b
  {
    if a == 0 && b == 0 then 0 else 2 * Or(a / 2, b / 2) + (if a % 2 == 1 || b % 2 == 1 then 1 else 0)
  }

  /** `a + b`, wrapping around. */
  function Add(a: uint64, b: uint64): uint64
  {
    if a + b < U64 then a + b else a + b - U64
  }

  lemma {:induction false} ZeroHasNoBit(i: nat)
    ensures !Bit(0, i)
  {
    if i > 0 { ZeroHasNoBit(i - 1); }
  }

  lemma {:induction false} OrBits(a: nat, b: nat, i: nat)
    ensures Bit(Or(a, b), i) <==> Bit(a, i) || Bit(b, i)
    decreases i
  {
    if a == 0 && b == 0 {
      ZeroHasNoBit(i);
    } else if i > 0 {
      assert Or(a, b) / 2 == Or(a / 2, b / 2);
      OrBits(a / 2, b / 2, i - 1);
    }
  }

  lemma {:induction false} OrBound(a: nat, b: nat, k: nat)
    requires a < Pow2(k) && b < Pow2(k)
    ensures Or(a, b) < Pow2(k)
    decreases k
  {
    if k > 0 { OrBound(a / 2, b / 2, k - 1); }
  }

  lemma Pow8(k: nat)
    ensures Pow2(k + 8) == 256 * Pow2(k)
  {
    assert Pow2(k + 4) == 16 * Pow2(k) by {
      assert Pow2(k + 2) == 4 * Pow2(k);
    }
    assert Pow2(k + 6) == 4 * Pow2(k + 4);
  }

  lemma Pow64()
    ensures Pow2(63) == U64 / 2 && Pow2(64) == U64
  {
    Pow8(0); Pow8(8); Pow8(16); Pow8(24); Pow8(32); Pow8(40); Pow8(48); Pow8(56);
  }

  /** Removing a high bit leaves the lower bits alone. */
  lemma {:induction false} DropHighBit(b: nat, k: nat, i: nat)
    requires i < k && b >= Pow2(k)
    ensures Bit(b - Pow2(k), i) <==> Bit(b, i)
    decreases k
  {
    if i > 0 {
      assert (b - Pow2(k)) / 2 == b / 2 - Pow2(k - 1);
      DropHighBit(b / 2, k - 1, i - 1);
    }
  }

  lemma DoubleBits(b: uint64, i: nat)
    requires i < 64
    ensures Bit(Double(b), i) <==> i > 0 && Bit(b, i - 1)
  {
    if i > 0 && b >= U64 / 2 {
      Pow64();
      assert Double(b) / 2 == b - Pow2(63);
      DropHighBit(b, 63, i - 1);
    }
  }

  lemma {:induction false} ShlBits(b: uint64, s: nat, i: nat)
    requires i < 64
    ensures Bit(Shl(b, s), i) <==> i >= s && Bit(b, i - s)
    decreases s
  {
    if s > 0 {
      ShlBits(Double(b), s - 1, i);
      if i >= s - 1 { DoubleBits(b, i - (s - 1)); }
    }
  }

  lemma {:induction false} OneBit(i: nat)
    ensures Bit(1, i) <==> i == 0
  {
    if i > 0 { ZeroHasNoBit(i - 1); }
  }

  /** `a & b` keeps exactly the common bits. */
  lemma {:induction false} AndBits(a: nat, b: nat, i: nat)
    ensures Bit(And(a, b), i) <==> Bit(a, i) && Bit(b, i)
    decreases i
  {
    if a == 0 {
      ZeroHasNoBit(i);
    } else if i > 0 {
      assert And(a, b) / 2 == And(a / 2, b / 2);
      AndBits(a / 2, b / 2, i - 1);
    }
  }

  /** A word that is not zero has a bit, below position 64. */
  lemma {:induction false} SomeBit(b: nat, k: nat) returns (i: nat)
    requires 0 < b < Pow2(k)
    ensures i < k && Bit(b, i)
    decreases k
  {
    if b % 2 == 1 {
      i := 0;
    } else {
      var j := SomeBit(b / 2, k - 1);
      i := j + 1;
    }
  }

  lemma {:induction false} AndBound(a: nat, b: nat)
    ensures And(a, b) <= a
  {
    if a > 0 { AndBound(a / 2, b / 2); }
  }

  /** `a & (1 << d) != 0` tests bit `d`. */
  lemma TestBit(a: uint64, d: nat)
    requires d < 64
    ensures And(a, Shl(1, d)) != 0 <==> Bit(a, d)
  {
    var m := Shl(1, d);
    AndBits(a, m, d);
    ShlBits(1, d, d);
    if And(a, m) != 0 {
      AndBound(a, m);
      Pow64();
      var i := SomeBit(And(a, m), 64);
      if i >= d { OneBit(i - d); }
      AndBits(a, m, i);
      ShlBits(1, d, i);
    } else {
      ZeroHasNoBit(d);
    }
  }
}
