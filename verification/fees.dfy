/** The platform commission withheld from every charge: 5% of the gross
    amount, rounded the way `Math.round` rounds. */
module Fees {

  /** `r` is what `Math.round` returns for the rational `num / den`: the
      integer nearest to it, a tie going up (r - 1/2 <= num/den < r + 1/2). */
  ghost predicate IsMathRound(num: int, den: int, r: int)
    requires den > 0
  {
    den * (2 * r - 1) <= 2 * num < den * (2 * r + 1)
  }

  /** The commission on a gross amount in minor currency units. */
  function Commission(amount: nat): (fee: nat)
    ensures IsMathRound(5 * amount, 100, fee)
    ensures fee <= amount
  {
    (amount * 5 + 50) / 100
  }

  lemma MulCancel(d: int, a: int, b: int)
    requires d > 0 && d * a < d * b
    ensures a < b
  {
    assert d * b - d * a == d * (b - a);
  }

  /** `Math.round` has one answer, so the commission is the only integer
      that rounds 5% of the amount. */
  lemma MathRoundUnique(num: int, den: int, r1: int, r2: int)
    requires den > 0
    requires IsMathRound(num, den, r1) && IsMathRound(num, den, r2)
    ensures r1 == r2
  {
    MulCancel(den, 2 * r1 - 1, 2 * r2 + 1);
    MulCancel(den, 2 * r2 - 1, 2 * r1 + 1);
  }

  lemma CommissionIsTheRounding(amount: nat, fee: int)
    ensures IsMathRound(5 * amount, 100, fee) <==> fee == Commission(amount)
  {
    if IsMathRound(5 * amount, 100, fee) {
      MathRoundUnique(5 * amount, 100, fee, Commission(amount));
    }
  }

  /** A larger charge never carries a smaller commission. */
  lemma CommissionMonotone(a: nat, b: nat)
    requires a <= b
    ensures Commission(a) <= Commission(b)
  {
  }

  /** Halves round up: 0.45 -> 0, 0.5 -> 1, 1.5 -> 2, 50 on 1000. */
  lemma CommissionExamples()
    ensures Commission(9) == 0 && Commission(10) == 1
    ensures Commission(30) == 2 && Commission(1000) == 50
  {
  }
}
