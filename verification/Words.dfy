/** Machine words.  Bitwise operations are defined on natural numbers, digit by digit,
    so that the same definition serves the emitted code and the reference interpreter. */
module Words {

  /** One more than the largest 64-bit machine word. */
  const WORD: nat := 0x1_0000_0000_0000_0000

  function And(a: nat, b: nat): nat {
    if a == 0 || b == 0 then 0
    else 2 * And(a / 2, b / 2) + (if a % 2 == 1 && b % 2 == 1 then 1 else 0)
  }

  function Or(a: nat, b: nat): nat
    decreases a + b
  {
    if a == 0 then b else if b == 0 then a
    else 2 * Or(a / 2, b / 2) + (if a % 2 == 1 || b % 2 == 1 then 1 else 0)
  }

  function Xor(a: nat, b: nat): nat
    decreases a + b
  {
    if a == 0 then b else if b == 0 then a
    else 2 * Xor(a / 2, b / 2) + (if a % 2 != b % 2 then 1 else 0)
  }

  function Pow2(k: nat): (p: nat)
    ensures p > 0
  {
    if k == 0 then 1 else 2 * Pow2(k - 1)
  }

  /** Sign extension of the low byte, as a machine word. */
  function SignExtend8(v: nat): nat {
    if v % 256 < 128 then v % 256 else WORD - 256 + v % 256
  }

  function Quotient(a: nat, b: nat): nat {
    if b == 0 then 0 else a / b
  }

  // ---- what these operations are, digit by digit ----

  /** True for a binary digit that is one. */
  predicate Digit(a: nat, k: nat) {
    a / Pow2(k) % 2 == 1
  }

  lemma DigitHalf(a: nat, k: nat)
    ensures Digit(a, k + 1) <==> Digit(a / 2, k)
    ensures Digit(a, 0) <==> a % 2 == 1
  {
    HalfDiv(a, Pow2(k));
    assert a / 1 == a;
  }

  lemma HalfDiv(a: nat, p: nat)
    requires p > 0
    ensures a / (2 * p) == a / 2 / p
  {
    var q, r := a / 2 / p, a / 2 % p;
    assert a == (2 * p) * q + (2 * r + a % 2) by { assert a / 2 == p * q + r; assert 2 * (p * q) == (2 * p) * q; }
    DivUnique(a, 2 * p, q, 2 * r + a % 2);
  }

  lemma DivUnique(a: nat, n: nat, q: nat, r: nat)
    requires n > 0 && r < n && a == n * q + r
    ensures a / n == q
  {
    ModUnique(a, n, q, r);
    assert n * (a / n - q) == 0;
  }

  /** A digit of a conjunction, a disjunction and an exclusive disjunction. */
  lemma {:induction false} BitwiseDigits(a: nat, b: nat, k: nat)
    ensures Digit(And(a, b), k) <==> Digit(a, k) && Digit(b, k)
    ensures Digit(Or(a, b), k) <==> Digit(a, k) || Digit(b, k)
    ensures Digit(Xor(a, b), k) <==> Digit(a, k) != Digit(b, k)
    decreases k
  {
    Halves(a, b);
    if k == 0 {
      DigitHalf(a, 0);
      DigitHalf(b, 0);
      DigitHalf(And(a, b), 0);
      DigitHalf(Or(a, b), 0);
      DigitHalf(Xor(a, b), 0);
    } else {
      DigitHalf(a, k - 1);
      DigitHalf(b, k - 1);
      DigitHalf(And(a, b), k - 1);
      DigitHalf(Or(a, b), k - 1);
      DigitHalf(Xor(a, b), k - 1);
      BitwiseDigits(a / 2, b / 2, k - 1);
    }
  }

  lemma Halves(a: nat, b: nat)
    ensures And(a, b) / 2 == And(a / 2, b / 2) && (And(a, b) % 2 == 1 <==> a % 2 == 1 && b % 2 == 1)
    ensures Or(a, b) / 2 == Or(a / 2, b / 2) && (Or(a, b) % 2 == 1 <==> a % 2 == 1 || b % 2 == 1)
    ensures Xor(a, b) / 2 == Xor(a / 2, b / 2) && (Xor(a, b) % 2 == 1 <==> (a % 2 == 1) != (b % 2 == 1))
  {
  }

  lemma ZeroDigits(k: nat)
    ensures !Digit(0, k)
  {
    DivUnique(0, Pow2(k), 0, 0);
  }

  /** Shifts move digits, and cutting to a width drops those above it. */
  lemma {:induction false} ShiftRightDigit(a: nat, n: nat, k: nat)
    ensures Digit(Quotient(a, Pow2(n)), k) <==> Digit(a, k + n)
    decreases n
  {
    if n == 0 {
      assert a / 1 == a;
    } else {
      HalfDiv(a, Pow2(n - 1));
      ShiftRightDigit(a / 2, n - 1, k);
      DigitHalf(a, k + n - 1);
    }
  }

  lemma {:induction false} ShiftLeftDigit(a: nat, n: nat, k: nat)
    ensures Digit(a * Pow2(n), k) <==> k >= n && Digit(a, k - n)
    decreases n
  {
    if n > 0 {
      var b := a * Pow2(n - 1);
      assert a * Pow2(n) == 2 * b;
      if k == 0 {
        DigitHalf(2 * b, 0);
      } else {
        DigitHalf(2 * b, k - 1);
        ShiftLeftDigit(a, n - 1, k - 1);
      }
    }
  }

  lemma {:induction false} CutDigit(a: nat, n: nat, k: nat)
    ensures Digit(a % Pow2(n), k) <==> k < n && Digit(a, k)
    decreases n
  {
    if n == 0 {
      assert a % 1 == 0;
      ZeroDigits(k);
    } else {
      var low := a / 2 % Pow2(n - 1);
      HalfMod(a, Pow2(n - 1));
      assert (2 * low + a % 2) / 2 == low && (2 * low + a % 2) % 2 == a % 2;
      if k == 0 {
        DigitHalf(a % Pow2(n), 0);
        DigitHalf(a, 0);
      } else {
        DigitHalf(a % Pow2(n), k - 1);
        DigitHalf(a, k - 1);
        CutDigit(a / 2, n - 1, k - 1);
      }
    }
  }

  /** Numbers with the same digits are the same: the digits are all there is to know. */
  lemma {:induction false} SameDigits(a: nat, b: nat)
    requires forall k: nat :: Digit(a, k) <==> Digit(b, k)
    ensures a == b
    decreases a + b
  {
    DigitHalf(a, 0);
    DigitHalf(b, 0);
    assert Digit(a, 0) <==> Digit(b, 0);
    forall k: nat ensures Digit(a / 2, k) <==> Digit(b / 2, k) {
      DigitHalf(a, k);
      DigitHalf(b, k);
      assert Digit(a, k + 1) <==> Digit(b, k + 1);
    }
    if a > 0 || b > 0 {
      SameDigits(a / 2, b / 2);
    }
  }

  /** The word of a sign-extended byte stands for its signed value. */
  lemma SignedByte(v: nat)
    ensures var signed := if v % 256 < 128 then v % 256 else v % 256 - 256;
      -128 <= signed < 128 && (signed - v) % 256 == 0 && SignExtend8(v) == signed % WORD
  {
    var signed := if v % 256 < 128 then v % 256 else v % 256 - 256;
    ModUnique(signed - v, 256, if v % 256 < 128 then -(v / 256) else -(v / 256) - 1, 0);
    ModUnique(signed, WORD, if v % 256 < 128 then 0 else -1, SignExtend8(v));
  }

  /** Division: the quotient leaves a remainder smaller than the divisor; by zero it is zero. */
  lemma QuotientRest(a: nat, b: nat)
    ensures b > 0 ==> Quotient(a, b) * b <= a < (Quotient(a, b) + 1) * b
    ensures b == 0 ==> Quotient(a, b) == 0
  {
    if b > 0 {
      assert a == b * (a / b) + a % b;
      assert (a / b + 1) * b == b * (a / b) + b;
    }
  }

  // ---- facts the emitted code relies on ----

  lemma {:induction false} AndMask(a: nat, k: nat)
    ensures And(a, Pow2(k) - 1) == a % Pow2(k)
  {
    if k == 0 {
      assert a % 1 == 0;
    } else if a != 0 {
      var p := Pow2(k - 1);
      var mask := 2 * p - 1;
      assert mask / 2 == p - 1 && mask % 2 == 1 && Pow2(k) == 2 * p;
      AndMask(a / 2, k - 1);
      HalfMod(a, p);
      calc {
        And(a, mask);
        2 * And(a / 2, mask / 2) + (if a % 2 == 1 && mask % 2 == 1 then 1 else 0);
        2 * ((a / 2) % p) + a % 2;
        a % (2 * p);
      }
    }
  }

  lemma HalfMod(a: nat, p: nat)
    requires p > 0
    ensures a % (2 * p) == 2 * ((a / 2) % p) + a % 2
  {
    var q, r := (a / 2) / p, (a / 2) % p;
    assert a == 2 * (q * p + r) + a % 2;
    assert a == q * (2 * p) + (2 * r + a % 2) by { assert 2 * (q * p) == q * (2 * p); }
    ModUnique(a, 2 * p, q, 2 * r + a % 2);
  }

  lemma ModUnique(a: int, n: nat, q: int, r: nat)
    requires n > 0 && r < n && a == q * n + r
    ensures a % n == r
  {
    var d := a / n - q;
    assert d * n == r - a % n;
    assert (-d) * n == -(d * n);
    if d > 0 {
      MulMono(d, n);
    } else if d < 0 {
      MulMono(-d, n);
    }
  }

  /** Cutting a word to a byte or a short gives the same as cutting the number itself. */
  lemma WordCut(v: int)
    ensures v % WORD % 256 == v % 256
    ensures v % WORD % 0x1_0000 == v % 0x1_0000
  {
    var q := v / WORD;
    ModUnique(v % WORD, 256, v / 256 - q * (WORD / 256), v % 256);
    ModUnique(v % WORD, 0x1_0000, v / 0x1_0000 - q * (WORD / 0x1_0000), v % 0x1_0000);
  }

  lemma MulMono(k: int, n: nat)
    requires k >= 1
    ensures k * n >= n
  {
    assert (k - 1) * n >= 0;
    assert k * n == (k - 1) * n + n;
  }

  lemma {:induction false} OrDisjoint(hi: nat, lo: nat, k: nat)
    requires lo < Pow2(k)
    ensures Or(hi * Pow2(k), lo) == hi * Pow2(k) + lo
  {
    if k == 0 || hi == 0 || lo == 0 {
    } else {
      var p := Pow2(k - 1);
      assert hi * (2 * p) == 2 * (hi * p);
      var x := hi * p;
      assert (2 * x) / 2 == x && (2 * x) % 2 == 0;
      assert x > 0 by { MulMono(hi, p); }
      OrDisjoint(hi, lo / 2, k - 1);
    }
  }

  lemma {:induction false} OrCommutes(a: nat, b: nat)
    ensures Or(a, b) == Or(b, a)
    decreases a + b
  {
    if a == 0 || b == 0 {
    } else {
      OrCommutes(a / 2, b / 2);
    }
  }

  lemma Masks()
    ensures Pow2(8) == 256 && Pow2(16) == 0x1_0000
  {
    assert Pow2(4) == 16;
    assert Pow2(8) == 2 * (2 * (2 * (2 * Pow2(4))));
    assert Pow2(12) == 2 * (2 * (2 * (2 * Pow2(8))));
    assert Pow2(16) == 2 * (2 * (2 * (2 * Pow2(12))));
  }

  lemma AndByte(a: nat)
    ensures And(a, 0xff) == a % 256
  {
    Masks();
    AndMask(a, 8);
  }

  lemma AndShort(a: nat)
    ensures And(a, 0xffff) == a % 0x1_0000
  {
    Masks();
    AndMask(a, 16);
  }

  /** Joining a high and a low byte with a disjunction, in either order. */
  lemma Join(hi: nat, lo: nat)
    requires lo < 256
    ensures Or(hi * 256, lo) == hi * 256 + lo
    ensures Or(lo, hi * 256) == hi * 256 + lo
  {
    Masks();
    OrDisjoint(hi, lo, 8);
    OrCommutes(lo, hi * 256);
  }

  /** Bitwise results stay inside the width of their operands. */
  lemma {:induction false} BitwiseBound(a: nat, b: nat, k: nat)
    requires a < Pow2(k) && b < Pow2(k)
    ensures And(a, b) < Pow2(k) && Or(a, b) < Pow2(k) && Xor(a, b) < Pow2(k)
  {
    if k == 0 || a == 0 || b == 0 {
    } else {
      BitwiseBound(a / 2, b / 2, k - 1);
    }
  }
}
