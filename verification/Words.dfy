/**
 Unsigned 64-bit words as numbers below 2^64, with the bit operations src/cpuset.rs uses on
 them, defined bit by bit from the least significant end.
 */
module Words {

  const CPU_WORD_BITS: nat := 64

  /** `1u64 << n` */
  function Pow2(n: nat): (p: nat)
    ensures p > 0
  {
    if n == 0 then 1 else 2 * Pow2(n - 1)
  }

  /** The word type: values below 2^64. */
  ghost predicate IsWord(w: nat) { w < Pow2(CPU_WORD_BITS) }

  /** Bit `n` of `w`. */
  predicate Bit(w: nat, n: nat) {
    if n == 0 then w % 2 == 1 else Bit(w / 2, n - 1)
  }

  /** `a | b` */
  function Or(a: nat, b: nat): nat {
    if a == 0 then b
    else if b == 0 then a
    else 2 * Or(a / 2, b / 2) + (if a % 2 == 1 || b % 2 == 1 then 1 else 0)
  }

  /** `a & b` */
  function And(a: nat, b: nat): nat {
    if a == 0 || b == 0 then 0
    else 2 * And(a / 2, b / 2) + (if a % 2 == 1 && b % 2 == 1 then 1 else 0)
  }

  /** `w & (1 << n) != 0` */
  predicate Tests(w: nat, n: nat) {
    And(w, Pow2(n)) != 0
  }

  lemma {:induction false} ZeroHasNoBits(n: nat)
    ensures !Bit(0, n)
  {
    if n > 0 { ZeroHasNoBits(n - 1); }
  }

  lemma {:induction false} AndMask(w: nat, n: nat)
    ensures Tests(w, n) <==> Bit(w, n)
  {
    if w == 0 {
      ZeroHasNoBits(n);
    } else if n > 0 {
      AndMask(w / 2, n - 1);
    } else {
      assert And(w / 2, 0) == 0;
    }
  }

  lemma {:induction false} OrBits(a: nat, b: nat, n: nat)
    ensures Bit(Or(a, b), n) <==> Bit(a, n) || Bit(b, n)
  {
    ZeroHasNoBits(n);
    if a != 0 && b != 0 && n > 0 {
      OrBits(a / 2, b / 2, n - 1);
    }
  }

  lemma {:induction false} Pow2Bits(m: nat, n: nat)
    ensures Bit(Pow2(m), n) <==> m == n
  {
    if m == 0 {
      if n > 0 { ZeroHasNoBits(n - 1); }
    } else if n > 0 {
      Pow2Bits(m - 1, n - 1);
    }
  }

  lemma {:induction false} Pow2Bound(m: nat, width: nat)
    requires m < width
    ensures Pow2(m) < Pow2(width)
  {
    if m > 0 { Pow2Bound(m - 1, width - 1); }
  }

  lemma {:induction false} OrBound(a: nat, b: nat, width: nat)
    requires a < Pow2(width) && b < Pow2(width)
    ensures Or(a, b) < Pow2(width)
  {
    if a != 0 && b != 0 { OrBound(a / 2, b / 2, width - 1); }
  }

  /** A number below 2^width is determined by its low `width` bits. */
  lemma {:induction false} SameBits(a: nat, b: nat, width: nat)
    requires a < Pow2(width) && b < Pow2(width)
    requires forall n: nat :: n < width ==> Bit(a, n) == Bit(b, n)
    ensures a == b
  {
    if width > 0 {
      assert Bit(a, 0) == Bit(b, 0);
      forall n: nat | n < width - 1
        ensures Bit(a / 2, n) == Bit(b / 2, n)
      {
        assert Bit(a, n + 1) == Bit(b, n + 1);
      }
      SameBits(a / 2, b / 2, width - 1);
    }
  }

  /** `count_ones` */
  function Ones(w: nat): nat {
    if w == 0 then 0 else w % 2 + Ones(w / 2)
  }

  /** The number of set bits among the low `width`. */
  function OnesBelow(w: nat, width: nat): nat {
    if width == 0 then 0
    else OnesBelow(w, width - 1) + (if Bit(w, width - 1) then 1 else 0)
  }

  lemma {:induction false} OnesBelowHalf(w: nat, width: nat)
    requires width > 0
    ensures OnesBelow(w, width) == w % 2 + OnesBelow(w / 2, width - 1)
  {
    if width > 1 { OnesBelowHalf(w, width - 1); }
  }

  lemma {:induction false} OnesCounted(w: nat, width: nat)
    requires w < Pow2(width)
    ensures Ones(w) == OnesBelow(w, width)
  {
    if width > 0 {
      OnesBelowHalf(w, width);
      OnesCounted(w / 2, width - 1);
    }
  }
}
