/** Settlement arithmetic: amounts are whole cents, rates are ten-thousandths. */
module Money {

  const MIN_STAKE := 1000
  const MAX_STAKE := 1000000
  const RATE_SCALE := 10000

  /** Rounds a value given in ten-thousandths of a cent to whole cents, ties away from zero. */
  function RoundHalfUp(n: int): (cents: int)
    ensures -5000 <= RATE_SCALE * cents - n <= 5000
    ensures RATE_SCALE * cents - n == 5000 ==> 0 < n
    ensures RATE_SCALE * cents - n == -5000 ==> n < 0
  {
    if n >= 0 then (n + 5000) / RATE_SCALE else -((-n + 5000) / RATE_SCALE)
  }

  /** The contract of `RoundHalfUp` leaves no freedom: it is the nearest cent, ties away from zero. */
  lemma RoundHalfUpUnique(n: int, cents: int)
    requires -5000 <= RATE_SCALE * cents - n <= 5000
    requires RATE_SCALE * cents - n == 5000 ==> 0 < n
    requires RATE_SCALE * cents - n == -5000 ==> n < 0
    ensures cents == RoundHalfUp(n)
  {
  }

  function SafeAdd(a: int, b: int): (cents: int)
    ensures cents == a + b
  {
    RoundHalfUp(RATE_SCALE * (a + b))
  }

  function SafeSubtract(a: int, b: int): (cents: int)
    ensures cents == a - b
  {
    RoundHalfUp(RATE_SCALE * (a - b))
  }

  function SafeMultiply(amount: int, rate: int): (cents: int) {
    RoundHalfUp(amount * rate)
  }

  datatype Split = Split(paid: int, fee: int)

  /** The winner's payout and the platform fee taken from the pool of both stakes. */
  function WinnerAmounts(stake: int, rate: int): Split {
    var pool := SafeAdd(stake, stake);
    var fee := SafeMultiply(pool, rate);
    Split(SafeSubtract(pool, fee), fee)
  }

  /** One participant's refund and fee when nobody predicted the outcome. */
  function NoWinnerAmounts(stake: int, rate: int): Split {
    var fee := SafeMultiply(stake, rate);
    Split(SafeSubtract(stake, fee), fee)
  }

  lemma ProductBounds(amount: int, rate: int)
    requires 0 <= amount && 0 <= rate <= RATE_SCALE
    ensures 0 <= amount * rate <= RATE_SCALE * amount
  {
    assert amount * rate + amount * (RATE_SCALE - rate) == RATE_SCALE * amount;
  }

  /** Pool and stake split exactly, no part is negative, and the fee is within half a cent. */
  lemma ExactSplit(stake: int, rate: int)
    requires 0 <= stake && 0 <= rate <= RATE_SCALE
    ensures var w := WinnerAmounts(stake, rate);
            w.paid + w.fee == 2 * stake && 0 <= w.paid && 0 <= w.fee
            && -5000 < RATE_SCALE * w.fee - 2 * stake * rate <= 5000
    ensures var n := NoWinnerAmounts(stake, rate);
            n.paid + n.fee == stake && 0 <= n.paid && 0 <= n.fee
            && -5000 < RATE_SCALE * n.fee - stake * rate <= 5000
  {
    ProductBounds(2 * stake, rate);
    ProductBounds(stake, rate);
  }

  /** The platform gets no less than its exact fee from a pool if and only if the sub-cent part of that fee
      is nothing or at least half a cent; otherwise rounding favours the winner. */
  lemma PoolRemainderIff(stake: int, rate: int)
    requires 0 <= stake && 0 <= rate <= RATE_SCALE
    ensures RATE_SCALE * WinnerAmounts(stake, rate).fee >= 2 * stake * rate <==>
            (2 * stake * rate) % RATE_SCALE == 0 || (2 * stake * rate) % RATE_SCALE >= 5000
  {
    ProductBounds(2 * stake, rate);
    RemainderIff(2 * stake * rate);
  }

  /** The same for the fee a participant pays on a bet that nobody won. */
  lemma StakeRemainderIff(stake: int, rate: int)
    requires 0 <= stake && 0 <= rate <= RATE_SCALE
    ensures RATE_SCALE * NoWinnerAmounts(stake, rate).fee >= stake * rate <==>
            (stake * rate) % RATE_SCALE == 0 || (stake * rate) % RATE_SCALE >= 5000
  {
    ProductBounds(stake, rate);
    RemainderIff(stake * rate);
  }

  /** Rounding loses nothing exactly when there is nothing to lose or it rounds up. */
  lemma RemainderIff(n: int)
    requires 0 <= n
    ensures RATE_SCALE * RoundHalfUp(n) >= n <==> n % RATE_SCALE == 0 || n % RATE_SCALE >= 5000
  {
    assert n == RATE_SCALE * (n / RATE_SCALE) + n % RATE_SCALE;
    RoundHalfUpUnique(n, if n % RATE_SCALE >= 5000 then n / RATE_SCALE + 1 else n / RATE_SCALE);
  }

  /** A stake of 10.01 at the usual rates of 10% and 5% leaves the remainder with the users on both paths. */
  lemma RemainderGoesToUsers()
    ensures RATE_SCALE * WinnerAmounts(1001, 1000).fee < 2 * 1001 * 1000
    ensures RATE_SCALE * NoWinnerAmounts(1001, 500).fee < 1001 * 500
  {
  }

  /** The payout is positive exactly when the winner's exact share is over half a cent. */
  lemma PayoutPositive(stake: int, rate: int)
    requires 0 < stake && 0 <= rate <= RATE_SCALE
    ensures WinnerAmounts(stake, rate).paid > 0 <==> 2 * (2 * stake) * (RATE_SCALE - rate) > RATE_SCALE
  {
    var pool := 2 * stake;
    var fee := WinnerAmounts(stake, rate).fee;
    ProductBounds(pool, rate);
    assert fee == (pool * rate + 5000) / RATE_SCALE;
    assert pool * (RATE_SCALE - rate) == RATE_SCALE * pool - pool * rate;
    assert fee < pool <==> pool * rate + 5000 < RATE_SCALE * pool;
  }

  /** Every rate up to 99.97% leaves a payout for every admissible stake; 99.98% fails at the minimum. */
  lemma PayoutBoundIsTight(stake: int, rate: int)
    requires MIN_STAKE <= stake && 0 <= rate <= 9997
    ensures WinnerAmounts(stake, rate).paid > 0
    ensures WinnerAmounts(MIN_STAKE, 9998).paid == 0
  {
    PayoutPositive(stake, rate);
    SharePasses(2 * stake, RATE_SCALE - rate);
  }

  lemma SharePasses(pool: int, slack: int)
    requires 2 * MIN_STAKE <= pool && 3 <= slack
    ensures 2 * pool * slack > RATE_SCALE
  {
    assert 2 * pool * slack >= 2 * pool * 3 by {
      assert pool * (slack - 3) >= 0;
    }
  }
}
