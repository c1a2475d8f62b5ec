/** Ruby's `Integer#|` on non-negative integers, defined bit by bit. */
module Bits {

  /** Bit `k` of `n` is set. */
  predicate HasBit(n: nat, k: nat)
    decreases k
  {
    if k == 0 then n % 2 == 1 else HasBit(n / 2, k - 1)
  }

  /** `a | b`. */
  function Or(a: nat, b: nat): nat
    decreases a + b
  {
    if a == 0 && b == 0 then 0
    else 2 * Or(a / 2, b / 2) + (if a % 2 == 1 || b % 2 == 1 then 1 else 0)
  }

  /** A bit of `a | b` is set iff it is set in `a` or in `b`. */
  lemma {:induction false} OrBits(a: nat, b: nat, k: nat)
    ensures HasBit(Or(a, b), k) <==> HasBit(a, k) || HasBit(b, k)
    decreases k
  {
    if a == 0 && b == 0 {
      ZeroHasNoBits(k);
    } else if k > 0 {
      OrBits(a / 2, b / 2, k - 1);
    }
  }

  lemma {:induction false} ZeroHasNoBits(k: nat)
    ensures !HasBit(0, k)
    decreases k
  {
    if k > 0 {
      ZeroHasNoBits(k - 1);
    }
  }

  /** Or-ing the same flags in twice changes nothing. */
  lemma {:induction false} OrAbsorbs(a: nat, b: nat)
    ensures Or(Or(a, b), b) == Or(a, b)
    decreases a + b
  {
    if !(a == 0 && b == 0) {
      var r := Or(a, b);
      assert r / 2 == Or(a / 2, b / 2);
      OrAbsorbs(a / 2, b / 2);
    }
  }

  /** Or-ing into 0 gives the flags themselves. */
  lemma {:induction false} OrZero(b: nat)
    ensures Or(0, b) == b
    decreases b
  {
    if b != 0 {
      OrZero(b / 2);
    }
  }
}
