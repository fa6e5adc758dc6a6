/** Shifts, masks and bitwise or on unbounded naturals, bit by bit. */
module Bits {

  function Pow2(n: nat): (r: nat)
    ensures r >= 1
  {
    if n == 0 then 1 else 2 * Pow2(n - 1)
  }

  function Bit(x: nat, i: nat): (b: nat)
    ensures b <= 1
  {
    if i == 0 then x % 2 else Bit(x / 2, i - 1)
  }

  function Shl(x: nat, n: nat): nat {
    if n == 0 then x else 2 * Shl(x, n - 1)
  }

  function Shr(x: nat, n: nat): nat {
    if n == 0 then x else Shr(x / 2, n - 1)
  }

  function Or(a: nat, b: nat): nat
    decreases a + b
  {
    if a == 0 && b == 0 then 0
    else 2 * Or(a / 2, b / 2) + if a % 2 == 1 || b % 2 == 1 then 1 else 0
  }

  function And(a: nat, b: nat): nat
    decreases a + b
  {
    if a == 0 && b == 0 then 0
    else 2 * And(a / 2, b / 2) + if a % 2 == 1 && b % 2 == 1 then 1 else 0
  }

  lemma {:induction false} BitZero(i: nat)
    ensures Bit(0, i) == 0
    decreases i
  {
    if i > 0 {
      BitZero(i - 1);
    }
  }

  lemma {:induction false} OrHalf(a: nat, b: nat)
    ensures Or(a, b) / 2 == Or(a / 2, b / 2) && Or(a, b) % 2 == if a % 2 == 1 || b % 2 == 1 then 1 else 0
  {
  }

  lemma {:induction false} AndHalf(a: nat, b: nat)
    ensures And(a, b) / 2 == And(a / 2, b / 2) && And(a, b) % 2 == if a % 2 == 1 && b % 2 == 1 then 1 else 0
  {
  }

  lemma {:induction false} BitOr(a: nat, b: nat, i: nat)
    ensures Bit(Or(a, b), i) == if Bit(a, i) == 1 || Bit(b, i) == 1 then 1 else 0
    decreases i
  {
    hide Or;
    OrHalf(a, b);
    if i > 0 {
      BitOr(a / 2, b / 2, i - 1);
    }
  }

  lemma {:induction false} BitAnd(a: nat, b: nat, i: nat)
    ensures Bit(And(a, b), i) == if Bit(a, i) == 1 && Bit(b, i) == 1 then 1 else 0
    decreases i
  {
    hide And;
    AndHalf(a, b);
    if i > 0 {
      BitAnd(a / 2, b / 2, i - 1);
    }
  }

  lemma {:induction false} BitShl(x: nat, n: nat, i: nat)
    ensures Bit(Shl(x, n), i) == if i < n then 0 else Bit(x, i - n)
    decreases n
  {
    if n > 0 && i > 0 {
      BitShl(x, n - 1, i - 1);
      assert Shl(x, n) / 2 == Shl(x, n - 1);
    }
  }

  lemma {:induction false} BitShr(x: nat, n: nat, i: nat)
    ensures Bit(Shr(x, n), i) == Bit(x, i + n)
    decreases n
  {
    if n > 0 {
      BitShr(x / 2, n - 1, i);
    }
  }

  /** The bits of a mask of n ones. */
  lemma {:induction false} BitMask(n: nat, i: nat)
    ensures Bit(Pow2(n) - 1, i) == if i < n then 1 else 0
    decreases n
  {
    if n == 0 {
      BitZero(i);
    } else if i > 0 {
      BitMask(n - 1, i - 1);
      assert (Pow2(n) - 1) / 2 == Pow2(n - 1) - 1;
    }
  }

  /** A number below 2^n has no bits from n on. */
  lemma {:induction false} BitAbove(x: nat, n: nat, i: nat)
    requires x < Pow2(n) && n <= i
    ensures Bit(x, i) == 0
    decreases n
  {
    if n == 0 {
      BitZero(i);
    } else {
      BitAbove(x / 2, n - 1, i - 1);
    }
  }

  /** Numbers below 2^n with the same first n bits are the same. */
  lemma {:induction false} SameBits(x: nat, y: nat, n: nat)
    requires x < Pow2(n) && y < Pow2(n) && forall i: nat :: i < n ==> Bit(x, i) == Bit(y, i)
    ensures x == y
    decreases n
  {
    if n > 0 {
      forall i: nat | i < n - 1
        ensures Bit(x / 2, i) == Bit(y / 2, i)
      {
        assert Bit(x, i + 1) == Bit(x / 2, i) && Bit(y, i + 1) == Bit(y / 2, i);
      }
      SameBits(x / 2, y / 2, n - 1);
      assert Bit(x, 0) == Bit(y, 0);
    }
  }

  /** A number is below 2^n when it has no bits from n on. */
  lemma {:induction false} BelowPower(x: nat, n: nat)
    requires forall i: nat :: n <= i ==> Bit(x, i) == 0
    ensures x < Pow2(n)
    decreases x
  {
    if x > 0 {
      if n == 0 {
        NoBits(x);
      } else {
        forall i: nat | n - 1 <= i
          ensures Bit(x / 2, i) == 0
        {
          assert Bit(x, i + 1) == Bit(x / 2, i);
        }
        BelowPower(x / 2, n - 1);
      }
    }
  }

  lemma {:induction false} NoBits(x: nat)
    requires forall i: nat :: Bit(x, i) == 0
    ensures x == 0
    decreases x
  {
    if x > 0 {
      assert Bit(x, 0) == 0;
      forall i: nat
        ensures Bit(x / 2, i) == 0
      {
        assert Bit(x, i + 1) == Bit(x / 2, i);
      }
      NoBits(x / 2);
    }
  }

  lemma {:induction false} MaskBelow(x: nat, n: nat)
    ensures And(x, Pow2(n) - 1) < Pow2(n)
  {
    var y := And(x, Pow2(n) - 1);
    forall i: nat | n <= i
      ensures Bit(y, i) == 0
    {
      BitAnd(x, Pow2(n) - 1, i);
      BitMask(n, i);
    }
    BelowPower(y, n);
  }

  lemma {:induction false} PowAdd(m: nat, n: nat)
    ensures Pow2(m + n) == Pow2(m) * Pow2(n)
    decreases m
  {
    if m > 0 {
      PowAdd(m - 1, n);
      assert 2 * (Pow2(m - 1) * Pow2(n)) == (2 * Pow2(m - 1)) * Pow2(n);
    }
  }

  /** Splitting a number at bit n: the mask takes the low part, the shift leaves the high part. */
  lemma {:induction false} TakeDrop(lo: nat, hi: nat, n: nat)
    requires lo < Pow2(n)
    ensures And(lo + Pow2(n) * hi, Pow2(n) - 1) == lo && Shr(lo + Pow2(n) * hi, n) == hi
    decreases n
  {
    hide And;
    var x := lo + Pow2(n) * hi;
    if n == 0 {
      AndZero(x);
    } else {
      var h := Pow2(n - 1) * hi;
      assert Pow2(n) * hi == 2 * h;
      assert x / 2 == lo / 2 + h && x % 2 == lo % 2;
      assert (Pow2(n) - 1) / 2 == Pow2(n - 1) - 1;
      TakeDrop(lo / 2, hi, n - 1);
      AndHalf(x, Pow2(n) - 1);
      assert Shr(x, n) == Shr(x / 2, n - 1);
    }
  }

  lemma {:induction false} AndZero(x: nat)
    ensures And(x, 0) == 0
    decreases x
  {
    if x > 0 {
      AndZero(x / 2);
    }
  }

  /** The powers of two that the transaction format uses. */
  lemma {:induction false} PowerValues()
    ensures Pow2(1) == 2 && Pow2(2) == 4 && Pow2(3) == 8 && Pow2(4) == 16 && Pow2(5) == 32 && Pow2(22) == 4194304
    ensures Pow2(32) == 4294967296
  {
    assert Pow2(2) == 4 && Pow2(4) == 16 && Pow2(5) == 32;
    assert Pow2(6) == 64;
    PowAdd(4, 6);
    assert Pow2(10) == 1024 && Pow2(12) == 4096;
    PowAdd(10, 12);
    PowAdd(10, 22);
  }

  /** Mask and shift together lose nothing. */
  lemma {:induction false} SplitAt(x: nat, n: nat)
    ensures x == And(x, Pow2(n) - 1) + Pow2(n) * Shr(x, n) && And(x, Pow2(n) - 1) < Pow2(n)
    decreases n
  {
    hide And;
    if n == 0 {
      AndZero(x);
    } else {
      SplitAt(x / 2, n - 1);
      AndHalf(x, Pow2(n) - 1);
      var m := Pow2(n - 1);
      assert (Pow2(n) - 1) / 2 == m - 1;
      var hi := Shr(x / 2, n - 1);
      assert Pow2(n) * hi == 2 * (m * hi);
    }
  }
}
