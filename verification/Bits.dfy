/**
 The bitwise operations of arbitrary-precision integers, defined digit by digit in
 two's complement, and what each does to a bit.
 */
module Bits {

  /** The bit of weight 2 to the power `i`. */
  function Bit(v: int, i: nat): bool
    decreases i
  {
    if i == 0 then v % 2 == 1 else Bit(v / 2, i - 1)
  }

  function Pow2(n: nat): (p: nat)
    ensures p > 0
  {
    if n == 0 then 1 else 2 * Pow2(n - 1)
  }

  function Xor(a: nat, b: nat): nat {
    if a == 0 && b == 0 then 0 else (if a % 2 != b % 2 then 1 else 0) + 2 * Xor(a / 2, b / 2)
  }

  function Or(a: nat, b: nat): nat {
    if a == 0 && b == 0 then 0 else (if a % 2 == 1 || b % 2 == 1 then 1 else 0) + 2 * Or(a / 2, b / 2)
  }

  /** The second operand is not negative, so neither is the result. */
  function And(a: int, b: nat): nat
    decreases b
  {
    if b == 0 then 0 else (if a % 2 == 1 && b % 2 == 1 then 1 else 0) + 2 * And(a / 2, b / 2)
  }

  function Not(a: int): int { -a - 1 }

  function Shl(a: nat, n: nat): nat
    decreases n
  {
    if n == 0 then a else Shl(2 * a, n - 1)
  }

  function Shr(a: nat, n: nat): nat
    decreases n
  {
    if n == 0 then a else Shr(a / 2, n - 1)
  }

  lemma {:induction false} BitXor(a: nat, b: nat, i: nat)
    ensures Bit(Xor(a, b), i) == (Bit(a, i) != Bit(b, i))
    decreases i
  {
    if i == 0 {
    } else if a == 0 && b == 0 {
      BitZero(i);
    } else {
      BitXor(a / 2, b / 2, i - 1);
    }
  }

  lemma {:induction false} BitZero(i: nat)
    ensures !Bit(0, i)
  {
    if i > 0 { BitZero(i - 1); }
  }

  lemma {:induction false} BitOr(a: nat, b: nat, i: nat)
    ensures Bit(Or(a, b), i) == (Bit(a, i) || Bit(b, i))
    decreases i
  {
    if i == 0 {
    } else if a == 0 && b == 0 {
      BitZero(i);
    } else {
      BitOr(a / 2, b / 2, i - 1);
    }
  }

  lemma {:induction false} BitAnd(a: int, b: nat, i: nat)
    ensures Bit(And(a, b), i) == (Bit(a, i) && Bit(b, i))
    decreases i
  {
    if b == 0 {
      BitZero(i);
    } else if i > 0 {
      BitAnd(a / 2, b / 2, i - 1);
    }
  }

  lemma {:induction false} BitNot(a: int, i: nat)
    ensures Bit(Not(a), i) == !Bit(a, i)
    decreases i
  {
    if i > 0 {
      assert Not(a) / 2 == Not(a / 2);
      BitNot(a / 2, i - 1);
    }
  }

  lemma {:induction false} BitShl(a: nat, n: nat, i: nat)
    ensures Bit(Shl(a, n), i) == (i >= n && Bit(a, i - n))
    decreases n
  {
    if n > 0 { BitShl(2 * a, n - 1, i); }
  }

  lemma {:induction false} BitShr(a: nat, n: nat, i: nat)
    ensures Bit(Shr(a, n), i) == Bit(a, i + n)
    decreases n
  {
    if n > 0 { BitShr(a / 2, n - 1, i); }
  }

  /** The bits of a number below 2 to the power `n` are its low `n` ones. */
  lemma {:induction false} HighBitsAreZero(a: nat, n: nat, i: nat)
    requires a < Pow2(n) && i >= n
    ensures !Bit(a, i)
    decreases n
  {
    if n == 0 { BitZero(i); } else { HighBitsAreZero(a / 2, n - 1, i - 1); }
  }

  lemma {:induction false} XorFits(a: nat, b: nat, n: nat)
    requires a < Pow2(n) && b < Pow2(n)
    ensures Xor(a, b) < Pow2(n)
    decreases n
  {
    if n > 0 { XorFits(a / 2, b / 2, n - 1); }
  }

  lemma {:induction false} OrFits(a: nat, b: nat, n: nat)
    requires a < Pow2(n) && b < Pow2(n)
    ensures Or(a, b) < Pow2(n)
    decreases n
  {
    if n > 0 { OrFits(a / 2, b / 2, n - 1); }
  }

  lemma {:induction false} AndFits(a: int, b: nat)
    ensures And(a, b) <= b
    decreases b
  {
    if b > 0 { AndFits(a / 2, b / 2); }
  }

  lemma {:induction false} BitMask(n: nat, i: nat)
    ensures Bit(Pow2(n) - 1, i) == (i < n)
    decreases n
  {
    if n == 0 {
      BitZero(i);
    } else if i > 0 {
      BitMask(n - 1, i - 1);
    }
  }

  /** Numbers below 2 to the power `n` with the same low bits are equal. */
  lemma {:induction false} BitsDecide(a: nat, b: nat, n: nat)
    requires a < Pow2(n) && b < Pow2(n) && forall i :: 0 <= i < n ==> Bit(a, i) == Bit(b, i)
    ensures a == b
    decreases n
  {
    if n > 0 {
      assert Bit(a, 0) == Bit(b, 0);
      forall i | 0 <= i < n - 1 ensures Bit(a / 2, i) == Bit(b / 2, i) { assert Bit(a, i + 1) == Bit(b, i + 1); }
      BitsDecide(a / 2, b / 2, n - 1);
    }
  }

  lemma {:induction false} PowSum(a: nat, b: nat)
    ensures Pow2(a + b) == Pow2(a) * Pow2(b)
  {
    if a > 0 {
      PowSum(a - 1, b);
      Doubled(Pow2(a - 1), Pow2(b));
    }
  }

  lemma Doubled(x: nat, y: nat)
    ensures 2 * (x * y) == (2 * x) * y
  {}

  lemma PowDouble(n: nat, p: nat)
    requires Pow2(n) == p
    ensures Pow2(n + n) == p * p
  {
    PowSum(n, n);
  }
}
