/** Python's unbounded integer bit operations on non-negative integers.
    A mask is a `nat`; bit `i` of `n` is `Bit(n, i)`. `And`, `Or` and `AndNot`
    model the operators `a & b`, `a | b` and `a & ~b`, and every fact about them
    is reduced to facts about single bits. */
module Bits {

  /** `1 << k` */
  function Pow2(k: nat): (r: nat)
    ensures r >= 1
  {
    if k == 0 then 1 else 2 * Pow2(k - 1)
  }

  /** Bit `i` of `n` is set. */
  predicate Bit(n: nat, i: nat)
  {
    if i == 0 then n % 2 == 1 else Bit(n / 2, i - 1)
  }

  /** `a & b` */
  function And(a: nat, b: nat): nat
  {
    if a == 0 || b == 0 then 0
    else 2 * And(a / 2, b / 2) + (if a % 2 == 1 && b % 2 == 1 then 1 else 0)
  }

  /** `a | b` */
  function Or(a: nat, b: nat): nat
    decreases a + b
  {
    if a == 0 then b
    else if b == 0 then a
    else 2 * Or(a / 2, b / 2) + (if a % 2 == 1 || b % 2 == 1 then 1 else 0)
  }

  /** `a & ~b` (Python's `~b` is `-b - 1`, whose set bits are exactly the clear bits of `b`) */
  function AndNot(a: nat, b: nat): nat
  {
    if a == 0 then 0
    else 2 * AndNot(a / 2, b / 2) + (if a % 2 == 1 && b % 2 == 0 then 1 else 0)
  }

  /** Truthiness of `m & flag`, the way the source tests a permission. */
  predicate Has(m: nat, flag: nat)
  {
    And(m, flag) != 0
  }

  lemma {:induction false} BitOfZero(i: nat)
    ensures !Bit(0, i)
  {
    if i > 0 { BitOfZero(i - 1); }
  }

  /** Reading a bit of `2 * q + low`. */
  lemma BitOfDouble(q: nat, low: nat, i: nat)
    requires low < 2
    ensures Bit(2 * q + low, i) == if i == 0 then low == 1 else Bit(q, i - 1)
  {
  }

  lemma {:induction false} BitOfAnd(a: nat, b: nat, i: nat)
    ensures Bit(And(a, b), i) == (Bit(a, i) && Bit(b, i))
    decreases i
  {
    if a == 0 || b == 0 {
      BitOfZero(i);
    } else {
      var low := if a % 2 == 1 && b % 2 == 1 then 1 else 0;
      BitOfDouble(And(a / 2, b / 2), low, i);
      if i > 0 { BitOfAnd(a / 2, b / 2, i - 1); }
    }
  }

  lemma {:induction false} BitOfOr(a: nat, b: nat, i: nat)
    ensures Bit(Or(a, b), i) == (Bit(a, i) || Bit(b, i))
    decreases i
  {
    if a == 0 {
      BitOfZero(i);
    } else if b == 0 {
      BitOfZero(i);
    } else {
      var low := if a % 2 == 1 || b % 2 == 1 then 1 else 0;
      BitOfDouble(Or(a / 2, b / 2), low, i);
      if i > 0 { BitOfOr(a / 2, b / 2, i - 1); }
    }
  }

  lemma {:induction false} BitOfAndNot(a: nat, b: nat, i: nat)
    ensures Bit(AndNot(a, b), i) == (Bit(a, i) && !Bit(b, i))
    decreases i
  {
    if a == 0 {
      BitOfZero(i);
    } else {
      var low := if a % 2 == 1 && b % 2 == 0 then 1 else 0;
      BitOfDouble(AndNot(a / 2, b / 2), low, i);
      if i > 0 { BitOfAndNot(a / 2, b / 2, i - 1); }
    }
  }

  lemma {:induction false} BitOfPow2(k: nat, i: nat)
    ensures Bit(Pow2(k), i) == (i == k)
    decreases k
  {
    if k == 0 {
      BitOfDouble(0, 1, i);
      if i > 0 { BitOfZero(i - 1); }
    } else {
      BitOfDouble(Pow2(k - 1), 0, i);
      if i > 0 { BitOfPow2(k - 1, i - 1); }
    }
  }

  /** `(1 << k) - 1` has exactly the bits below `k`. */
  lemma {:induction false} BitOfLowMask(k: nat, i: nat)
    ensures Bit(Pow2(k) - 1, i) == (i < k)
    decreases k
  {
    if k == 0 {
      BitOfZero(i);
    } else {
      BitOfDouble(Pow2(k - 1) - 1, 1, i);
      if i > 0 { BitOfLowMask(k - 1, i - 1); }
    }
  }

  /** A non-zero number has a set bit. */
  lemma {:induction false} NonzeroHasBit(n: nat) returns (i: nat)
    requires n != 0
    ensures Bit(n, i)
  {
    if n % 2 == 1 {
      i := 0;
    } else {
      var j := NonzeroHasBit(n / 2);
      BitOfDouble(n / 2, 0, j + 1);
      i := j + 1;
    }
  }

  /** Zero is the only number without set bits. */
  lemma ZeroIffNoBit(n: nat)
    ensures n == 0 ==> forall i: nat :: !Bit(n, i)
    ensures (forall i: nat :: !Bit(n, i)) ==> n == 0
  {
    if n == 0 {
      forall i: nat ensures !Bit(n, i) { BitOfZero(i); }
    } else {
      var i := NonzeroHasBit(n);
      assert Bit(n, i);
    }
  }

  /** Two numbers with the same bits are equal. */
  lemma {:induction false} BitsEqual(a: nat, b: nat)
    requires forall i: nat :: Bit(a, i) == Bit(b, i)
    ensures a == b
    decreases a + b
  {
    if a != 0 || b != 0 {
      assert Bit(a, 0) == Bit(b, 0);
      forall i: nat ensures Bit(a / 2, i) == Bit(b / 2, i) {
        assert Bit(a, i + 1) == Bit(b, i + 1);
      }
      BitsEqual(a / 2, b / 2);
    }
  }

  /** `m & flag` is truthy exactly when the two share a bit. */
  lemma HasIff(m: nat, flag: nat)
    ensures Has(m, flag) <==> exists i: nat :: Bit(m, i) && Bit(flag, i)
  {
    if Has(m, flag) {
      var i := NonzeroHasBit(And(m, flag));
      BitOfAnd(m, flag, i);
    } else {
      forall i: nat ensures !(Bit(m, i) && Bit(flag, i)) {
        BitOfAnd(m, flag, i);
        BitOfZero(i);
      }
    }
  }

  /** Testing one flag `1 << k` is reading bit `k`. */
  lemma HasPow2(m: nat, k: nat)
    ensures Has(m, Pow2(k)) <==> Bit(m, k)
  {
    HasIff(m, Pow2(k));
    forall i: nat ensures Bit(Pow2(k), i) == (i == k) { BitOfPow2(k, i); }
  }

  /** `n < 1 << k` exactly when `n` has no bit at or above `k`. */
  lemma {:induction false} BelowPow2(n: nat, k: nat)
    ensures n < Pow2(k) ==> forall i: nat :: k <= i ==> !Bit(n, i)
    ensures (forall i: nat :: k <= i ==> !Bit(n, i)) ==> n < Pow2(k)
    decreases k
  {
    if k == 0 {
      ZeroIffNoBit(n);
    } else {
      BelowPow2(n / 2, k - 1);
      forall i: nat | 0 < i ensures Bit(n, i) == Bit(n / 2, i - 1) {
        BitOfDouble(n / 2, n % 2, i);
      }
      if n < Pow2(k) {
        forall i: nat | k <= i ensures !Bit(n, i) {
          assert !Bit(n / 2, i - 1);
        }
      } else {
        assert !(n / 2 < Pow2(k - 1));
        var j :| k - 1 <= j && Bit(n / 2, j);
        assert Bit(n, j + 1);
        assert !(forall i: nat :: k <= i ==> !Bit(n, i));
      }
    }
  }

  /** `a | b` is `a + b` when the two share no bit. */
  lemma {:induction false} OrDisjoint(a: nat, b: nat)
    requires forall i: nat :: !(Bit(a, i) && Bit(b, i))
    ensures Or(a, b) == a + b
    decreases a + b
  {
    if a != 0 && b != 0 {
      assert !(Bit(a, 0) && Bit(b, 0));
      forall i: nat ensures !(Bit(a / 2, i) && Bit(b / 2, i)) {
        assert !(Bit(a, i + 1) && Bit(b, i + 1));
      }
      OrDisjoint(a / 2, b / 2);
    }
  }

  /** Adding a flag above every bit of `m`. */
  lemma OrFlagAbove(m: nat, k: nat)
    requires m < Pow2(k)
    ensures Or(m, Pow2(k)) == m + Pow2(k)
  {
    BelowPow2(m, k);
    forall i: nat ensures !(Bit(m, i) && Bit(Pow2(k), i)) { BitOfPow2(k, i); }
    OrDisjoint(m, Pow2(k));
  }
}
