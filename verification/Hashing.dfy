/** The hash of a block address: two multiplications by odd constants between three
    xor-shifts.  It loses nothing, so distinct addresses have distinct hashes. */
module Hashing {
  import opened Words

  type Addr = a: nat | a < 0x1_0000

  const HASHES: nat := 0x1_0000_0000

  /** A right shift by "k" bits. */
  function Shifted(x: nat, k: nat): (r: nat)
    ensures r <= x && (k > 0 ==> r <= x / 2)
    decreases k
  {
    if k == 0 then x else Shifted(x / 2, k - 1)
  }

  function ShiftXor(x: nat, k: nat): nat {
    Xor(x, Shifted(x, k))
  }

  function MulFirst(x: nat): nat {
    x * 0x2c1b3c6d % HASHES
  }

  function MulSecond(x: nat): nat {
    x * 0x297a2d39 % HASHES
  }

  function Prospector32(x: Addr): nat {
    ShiftXor(MulSecond(ShiftXor(MulFirst(ShiftXor(x, 15)), 12)), 15)
  }

  lemma {:induction false} ShiftedQuotient(x: nat, k: nat)
    ensures Shifted(x, k) == x / Pow2(k)
    decreases k
  {
    if k == 0 {
      assert x / 1 == x;
    } else {
      ShiftedQuotient(x / 2, k - 1);
      HalfDiv(x, Pow2(k - 1));
    }
  }

  /** Every digit of an xor-shift is the digit there was, turned over if the one "k" places above
      it is one. */
  lemma ShiftXorDigit(x: nat, k: nat, i: nat)
    ensures Digit(ShiftXor(x, k), i) <==> Digit(x, i) != Digit(x, i + k)
  {
    ShiftedQuotient(x, k);
    BitwiseDigits(x, Shifted(x, k), i);
    ShiftRightDigit(x, k, i);
    hide Digit;
    hide Xor;
  }

  lemma {:induction false} XorHalf(a: nat, b: nat)
    ensures Xor(a, b) / 2 == Xor(a / 2, b / 2) && Xor(a, b) % 2 == (a + b) % 2
  {
    if a != 0 && b != 0 {
      var half := Xor(a / 2, b / 2);
      assert Xor(a, b) == 2 * half + (if a % 2 != b % 2 then 1 else 0);
      hide Xor;
      assert (a + b) % 2 == if a % 2 != b % 2 then 1 else 0;
    }
  }

  lemma {:induction false} XorCancels(a: nat, b: nat)
    ensures Xor(Xor(a, b), b) == a
    decreases a + b
  {
    if a != 0 && b != 0 {
      XorCancels(a / 2, b / 2);
      XorHalf(a, b);
      var x := Xor(a, b);
      XorHalf(x, b);
      assert Xor(x, b) == 2 * (Xor(x, b) / 2) + Xor(x, b) % 2;
    } else if a == 0 {
      XorSelf(b);
    }
  }

  lemma {:induction false} XorSelf(b: nat)
    ensures Xor(b, b) == 0
  {
    if b != 0 {
      XorSelf(b / 2);
    }
  }

  lemma {:induction false} XorShifts(a: nat, b: nat, k: nat)
    ensures Shifted(Xor(a, b), k) == Xor(Shifted(a, k), Shifted(b, k))
    decreases k
  {
    if k > 0 {
      XorHalf(a, b);
      XorShifts(a / 2, b / 2, k - 1);
    }
  }

  /** An xor-shift by a positive distance is injective. */
  lemma {:induction false} ShiftXorInjective(x: nat, y: nat, k: nat)
    requires k > 0 && ShiftXor(x, k) == ShiftXor(y, k)
    ensures x == y
    decreases x + y
  {
    var s, t := Shifted(x, k), Shifted(y, k);
    XorShifts(x, s, k);
    XorShifts(y, t, k);
    if x + y > 0 {
      ShiftXorInjective(s, t, k);
      XorCancels(x, s);
      XorCancels(y, t);
    }
  }

  lemma ShiftXorBound(x: nat, k: nat)
    requires x < HASHES
    ensures ShiftXor(x, k) < HASHES
  {
    assert Pow2(32) == HASHES by { Masks(); Pow2Adds(16, 16); }
    BitwiseBound(x, Shifted(x, k), 32);
  }

  lemma TwiceProduct(x: nat, y: nat)
    ensures 2 * (x * y) == (2 * x) * y
  {
  }

  lemma {:induction false} Pow2Adds(a: nat, b: nat)
    ensures Pow2(a + b) == Pow2(a) * Pow2(b)
    decreases a
  {
    if a > 0 {
      Pow2Adds(a - 1, b);
      TwiceProduct(Pow2(a - 1), Pow2(b));
    }
  }

  lemma MulFirstInvertible(x: nat)
    requires x < HASHES
    ensures MulFirst(x) * 0x64ea2d65 % HASHES == x
  {
    var q := x * 0x2c1b3c6d / HASHES;
    assert MulFirst(x) == x * 0x2c1b3c6d - HASHES * q;
    assert 0x2c1b3c6d * 0x64ea2d65 == HASHES * 0x1162fc52 + 1;
  }

  lemma MulSecondInvertible(x: nat)
    requires x < HASHES
    ensures MulSecond(x) * 0xcf0b109 % HASHES == x
  {
    var q := x * 0x297a2d39 / HASHES;
    assert MulSecond(x) == x * 0x297a2d39 - HASHES * q;
    assert 0x297a2d39 * 0xcf0b109 == HASHES * 0x218b958 + 1;
  }

  /** No two addresses share a hash. */
  lemma Prospector32Injective(x: Addr, y: Addr)
    requires Prospector32(x) == Prospector32(y)
    ensures x == y
  {
    hide Xor;
    hide Shifted;
    hide ShiftXor;
    var x1, y1 := ShiftXor(x, 15), ShiftXor(y, 15);
    ShiftXorBound(x, 15);
    ShiftXorBound(y, 15);
    var x2, y2 := ShiftXor(MulFirst(x1), 12), ShiftXor(MulFirst(y1), 12);
    ShiftXorBound(MulFirst(x1), 12);
    ShiftXorBound(MulFirst(y1), 12);
    ShiftXorInjective(MulSecond(x2), MulSecond(y2), 15);
    MulSecondInvertible(x2);
    MulSecondInvertible(y2);
    ShiftXorInjective(MulFirst(x1), MulFirst(y1), 12);
    MulFirstInvertible(x1);
    MulFirstInvertible(y1);
    ShiftXorInjective(x, y, 15);
  }

  lemma Prospector32Bound(x: Addr)
    ensures Prospector32(x) < HASHES
  {
    hide ShiftXor;
    ShiftXorBound(MulSecond(ShiftXor(MulFirst(ShiftXor(x, 15)), 12)), 15);
  }
}
