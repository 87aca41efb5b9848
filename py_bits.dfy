/** Python's bitwise operators on its unbounded integers.

    Python integers behave as two's-complement numbers with infinitely many
    bits: a non-negative number has only zero bits above some position, a
    negative one only one bits.  `a >> n` is floor division by 2^n, which is
    Dafny's Euclidean division for a positive divisor, so halving with `/ 2`
    and reading the low bit with `% 2` are exact for negative numbers too. */
module PyBits {

  /** The number of bit positions that still carry information: `a` for a
      non-negative number, `~a` for a negative one.  Halving never increases it. */
  function Size(a: int): nat {
    if a >= 0 then a else -a - 1
  }

  lemma HalvingShrinks(a: int)
    ensures Size(a / 2) <= Size(a)
    ensures Size(a) > 0 ==> Size(a / 2) < Size(a)
  {
  }

  /** `(a >> i) & 1`: bit `i` of `a`. */
  function Bit(a: int, i: nat): (b: int)
    ensures b == 0 || b == 1
    decreases i
  {
    if i == 0 then a % 2 else Bit(a / 2, i - 1)
  }

  /** `a << n` */
  function Shl(a: int, n: nat): int {
    if n == 0 then a else 2 * Shl(a, n - 1)
  }

  /** `a >> n` (arithmetic shift, rounding towards minus infinity) */
  function Shr(a: int, n: nat): int
    decreases n
  {
    if n == 0 then a else Shr(a / 2, n - 1)
  }

  /** `~a` */
  function Not(a: int): int {
    -a - 1
  }

  /** `a & b`: a pair of all-zero / all-one tails is resolved directly,
      otherwise the low bits are combined and the rest is done on `a >> 1`, `b >> 1`. */
  function And(a: int, b: int): int
    decreases Size(a) + Size(b)
  {
    if (a == 0 || a == -1) && (b == 0 || b == -1) then
      (if a == -1 && b == -1 then -1 else 0)
    else
      HalvingShrinks(a);
      HalvingShrinks(b);
      2 * And(a / 2, b / 2) + (if a % 2 == 1 && b % 2 == 1 then 1 else 0)
  }

  /** `a | b` */
  function Or(a: int, b: int): int
    decreases Size(a) + Size(b)
  {
    if (a == 0 || a == -1) && (b == 0 || b == -1) then
      (if a == -1 || b == -1 then -1 else 0)
    else
      HalvingShrinks(a);
      HalvingShrinks(b);
      2 * Or(a / 2, b / 2) + (if a % 2 == 1 || b % 2 == 1 then 1 else 0)
  }

  // ---------------------------------------------------------------------
  // Bits of constants and of the operators

  lemma {:induction false} BitOfZero(i: nat)
    ensures Bit(0, i) == 0
  {
    if i > 0 { BitOfZero(i - 1); }
  }

  lemma {:induction false} BitOfMinusOne(i: nat)
    ensures Bit(-1, i) == 1
  {
    if i > 0 { BitOfMinusOne(i - 1); }
  }

  /** Bit `i` of `2 * y + r` for a low bit `r`. */
  lemma BitOfDouble(y: int, r: int, i: nat)
    requires r == 0 || r == 1
    ensures Bit(2 * y + r, i) == if i == 0 then r else Bit(y, i - 1)
  {
  }

  lemma {:induction false} AndBit(a: int, b: int, i: nat)
    ensures Bit(And(a, b), i) == Bit(a, i) * Bit(b, i)
    decreases i
  {
    if (a == 0 || a == -1) && (b == 0 || b == -1) {
      if a == 0 { BitOfZero(i); } else { BitOfMinusOne(i); }
      if b == 0 { BitOfZero(i); } else { BitOfMinusOne(i); }
      if And(a, b) == 0 { BitOfZero(i); } else { BitOfMinusOne(i); }
    } else {
      var low := if a % 2 == 1 && b % 2 == 1 then 1 else 0;
      BitOfDouble(And(a / 2, b / 2), low, i);
      if i > 0 { AndBit(a / 2, b / 2, i - 1); }
    }
  }

  lemma {:induction false} OrBit(a: int, b: int, i: nat)
    ensures Bit(Or(a, b), i) == if Bit(a, i) == 1 || Bit(b, i) == 1 then 1 else 0
    decreases i
  {
    if (a == 0 || a == -1) && (b == 0 || b == -1) {
      if a == 0 { BitOfZero(i); } else { BitOfMinusOne(i); }
      if b == 0 { BitOfZero(i); } else { BitOfMinusOne(i); }
      if Or(a, b) == 0 { BitOfZero(i); } else { BitOfMinusOne(i); }
    } else {
      var low := if a % 2 == 1 || b % 2 == 1 then 1 else 0;
      BitOfDouble(Or(a / 2, b / 2), low, i);
      if i > 0 { OrBit(a / 2, b / 2, i - 1); }
    }
  }

  lemma {:induction false} NotBit(a: int, i: nat)
    ensures Bit(Not(a), i) == 1 - Bit(a, i)
    decreases i
  {
    var q, r := a / 2, a % 2;
    assert Not(a) == 2 * Not(q) + (1 - r);
    BitOfDouble(Not(q), 1 - r, i);
    if i > 0 { NotBit(q, i - 1); }
  }

  lemma {:induction false} ShlBit(a: int, n: nat, i: nat)
    ensures Bit(Shl(a, n), i) == if i < n then 0 else Bit(a, i - n)
    decreases n
  {
    if n > 0 {
      BitOfDouble(Shl(a, n - 1), 0, i);
      if i > 0 { ShlBit(a, n - 1, i - 1); }
    }
  }

  lemma {:induction false} ShrBit(a: int, n: nat, i: nat)
    ensures Bit(Shr(a, n), i) == Bit(a, i + n)
    decreases n
  {
    if n > 0 { ShrBit(a / 2, n - 1, i); }
  }

  /** `1 << k` has exactly one bit set, bit `k`. */
  lemma OneShlBit(k: nat, i: nat)
    ensures Bit(Shl(1, k), i) == if i == k then 1 else 0
  {
    ShlBit(1, k, i);
    if i > k { BitOfZero(i - k - 1); }
  }

  /** `(1 << n) - 1` has exactly the bits below `n` set. */
  lemma {:induction false} LowMaskBit(n: nat, i: nat)
    ensures Bit(Shl(1, n) - 1, i) == if i < n then 1 else 0
    decreases n
  {
    if n == 0 {
      BitOfZero(i);
    } else {
      assert Shl(1, n) - 1 == 2 * (Shl(1, n - 1) - 1) + 1;
      BitOfDouble(Shl(1, n - 1) - 1, 1, i);
      if i > 0 { LowMaskBit(n - 1, i - 1); }
    }
  }

  /** The bits of `0xFF`. */
  lemma ByteMaskBit(i: nat)
    ensures Bit(0xFF, i) == if i < 8 then 1 else 0
  {
    assert Shl(1, 8) - 1 == 0xFF;
    LowMaskBit(8, i);
  }

  // ---------------------------------------------------------------------
  // Integers are determined by their bits; masking bounds the result

  /** Two integers with the same bits at every position are equal. */
  lemma {:induction false} BitsDetermine(a: int, b: int)
    requires forall i: nat :: Bit(a, i) == Bit(b, i)
    ensures a == b
    decreases Size(a) + Size(b)
  {
    assert a % 2 == Bit(a, 0) == Bit(b, 0) == b % 2;
    if (a == 0 || a == -1) && (b == 0 || b == -1) {
    } else {
      forall i: nat
        ensures Bit(a / 2, i) == Bit(b / 2, i)
      {
        assert Bit(a, i + 1) == Bit(b, i + 1);
      }
      HalvingShrinks(a);
      HalvingShrinks(b);
      BitsDetermine(a / 2, b / 2);
    }
  }

  /** Masking with a non-negative `b` gives a value in `0..b`. */
  lemma {:induction false} AndBounded(a: int, b: int)
    requires b >= 0
    ensures 0 <= And(a, b) <= b
    decreases Size(a) + Size(b)
  {
    if (a == 0 || a == -1) && (b == 0 || b == -1) {
    } else {
      HalvingShrinks(a);
      HalvingShrinks(b);
      AndBounded(a / 2, b / 2);
    }
  }
}
