/** Platform fees. Amounts are integers in units of 10^-7, the grid the ledger stores. */
module Fees {
  import opened Common

  /** x / d to the nearest integer, halves away from zero. */
  function RoundHalfAway(x: int, d: nat): int
    requires d > 0
  {
    if x >= 0 then (2 * x + d) / (2 * d) else -((d - 2 * x) / (2 * d))
  }

  /** Decimal.Div by 10000: the quotient to 16 places, from a dividend with 7. */
  function DivBps(x: int): int {
    RoundHalfAway(x * 1_000_000_000, 10_000)
  }

  /** Decimal.Round(7) of a value with 16 places. */
  function RoundToGrid(x: int): int {
    RoundHalfAway(x, 1_000_000_000)
  }

  function Calculate(amount: int, feeBps: int): (int, int) {
    if feeBps <= 0 || amount <= 0 then (0, amount)
    else
      var fee := RoundToGrid(DivBps(amount * feeBps));
      (fee, amount - fee)
  }

  function ApplyBounds(amount: int, fee: int, minFee: int, maxFee: Option<int>): (int, int) {
    var atLeast := if fee < minFee then minFee else fee;
    var atMost := if maxFee.Some? && atLeast > maxFee.value then maxFee.value else atLeast;
    var bounded := if atMost > amount then amount else atMost;
    (bounded, amount - bounded)
  }

  datatype FeeSchedule =
    FeeSchedule(transferFeeBps: int, conversionFeeBps: int, minFee: int, maxFee: Option<int>)

  datatype TransferFee = TransferFee(fee: int, net: int, bps: int)

  function CalculateFee(schedule: FeeSchedule, amount: int, isTransfer: bool): TransferFee {
    var bps := if isTransfer then schedule.transferFeeBps else schedule.conversionFeeBps;
    var (fee, _) := Calculate(amount, bps);
    var (bounded, net) := ApplyBounds(amount, fee, schedule.minFee, schedule.maxFee);
    TransferFee(bounded, net, bps)
  }

  // ---- rounding ----

  /** Both roundings together give the multiple of 1/10000 nearest to p, ties upwards. */
  lemma TwoRoundingsAreOne(p: int)
    requires p >= 0
    ensures -5000 <= p - 10_000 * RoundToGrid(DivBps(p)) < 5000
    ensures RoundToGrid(DivBps(p)) >= 0
  {
    assert DivBps(p) == p * 100_000 by { ExactQuotient(p); }
    Nearest(p * 100_000, 1_000_000_000);
  }

  lemma ExactQuotient(p: int)
    requires p >= 0
    ensures (2 * (p * 1_000_000_000) + 10_000) / (2 * 10_000) == p * 100_000
  {
  }

  lemma Nearest(x: int, d: nat)
    requires x >= 0 && d > 0
    ensures RoundHalfAway(x, d) >= 0
    ensures 0 <= 2 * x + d - 2 * (RoundHalfAway(x, d) * d) < 2 * d
  {
    var q := (2 * x + d) / (2 * d);
    assert 2 * x + d == q * (2 * d) + (2 * x + d) % (2 * d);
    assert q * (2 * d) == 2 * (q * d);
  }

  /** The computed fee in one inequality: amount * bps / 10000, rounded half up. */
  lemma FeeIsNearest(amount: int, bps: int)
    requires amount > 0 && bps > 0
    ensures -5000 <= amount * bps - 10_000 * Calculate(amount, bps).0 < 5000
    ensures Calculate(amount, bps).0 >= 0
  {
    ProductPositive(amount, bps);
    TwoRoundingsAreOne(amount * bps);
  }

  /** Nothing is charged on nothing, or at no rate, and the parts add up. */
  lemma CalculateSplits(amount: int, bps: int)
    ensures Calculate(amount, bps).0 + Calculate(amount, bps).1 == amount
    ensures amount <= 0 || bps <= 0 ==> Calculate(amount, bps).0 == 0
  {
  }

  lemma ProductPositive(a: int, b: int)
    requires a >= 0 && b >= 0
    ensures a * b >= 0
  {
  }

  // ---- conservation and bounds ----

  /** Fee and net always add back to the amount; the fee is never more than the amount, and it is
      never negative iff neither the amount nor the cap is. */
  lemma FeeSplitsAmount(schedule: FeeSchedule, amount: int, isTransfer: bool)
    ensures var t := CalculateFee(schedule, amount, isTransfer);
            && t.fee + t.net == amount
            && t.fee <= amount
            && (t.fee >= 0 <==> amount >= 0 && (schedule.maxFee.Some? ==> schedule.maxFee.value >= 0))
  {
    var bps := if isTransfer then schedule.transferFeeBps else schedule.conversionFeeBps;
    if bps > 0 && amount > 0 { FeeIsNearest(amount, bps); }
  }

  function Cap(amount: int, maxFee: Option<int>): int {
    if maxFee.Some? && maxFee.value < amount then maxFee.value else amount
  }

  function Gap(x: int, y: int): nat {
    if x <= y then y - x else x - y
  }

  /** Bounds clamp: the result is the point of [minFee, cap] nearest the fee, or the cap if that is empty. */
  lemma BoundsClamp(amount: int, fee: int, minFee: int, maxFee: Option<int>)
    ensures var b, cap := ApplyBounds(amount, fee, minFee, maxFee).0, Cap(amount, maxFee);
            && (minFee > cap ==> b == cap)
            && (minFee <= cap ==> minFee <= b <= cap && forall x | minFee <= x <= cap :: Gap(b, fee) <= Gap(x, fee))
  {
  }

  /** With nothing to clamp, a transfer pays the transfer rate and a conversion the conversion rate. */
  lemma RateByKind(schedule: FeeSchedule, amount: int)
    requires amount > 0 && schedule.minFee <= 0 && schedule.maxFee.None?
    ensures 0 < schedule.transferFeeBps <= 10_000 ==>
              -5000 <= amount * schedule.transferFeeBps - 10_000 * CalculateFee(schedule, amount, true).fee < 5000
    ensures 0 < schedule.conversionFeeBps <= 10_000 ==>
              -5000 <= amount * schedule.conversionFeeBps - 10_000 * CalculateFee(schedule, amount, false).fee < 5000
  {
    forall bps | 0 < bps <= 10_000
      ensures -5000 <= amount * bps - 10_000 * Calculate(amount, bps).0 < 5000
      ensures 0 <= Calculate(amount, bps).0 <= amount
    {
      FeeIsNearest(amount, bps);
      ProductMonotone(bps, 10_000, amount);
      assert bps * amount == amount * bps;
    }
  }

  /** Whatever rounded rate of the amount the fee started from, it is bounded by the schedule's own minimum, its
      cap and the amount: the cap if the minimum exceeds it, and otherwise the point of [minFee, cap] nearest to that
      rate of the kind of transfer, which is reported with it. */
  lemma FeeOfSchedule(schedule: FeeSchedule, amount: int, isTransfer: bool, raw: int)
    requires var bps := if isTransfer then schedule.transferFeeBps else schedule.conversionFeeBps;
             if bps > 0 && amount > 0 then -5000 <= amount * bps - 10_000 * raw < 5000 else raw == 0
    ensures var t, cap := CalculateFee(schedule, amount, isTransfer), Cap(amount, schedule.maxFee);
            && t.bps == (if isTransfer then schedule.transferFeeBps else schedule.conversionFeeBps)
            && (schedule.minFee > cap ==> t.fee == cap)
            && (schedule.minFee <= cap ==>
                  && schedule.minFee <= t.fee <= cap
                  && forall x | schedule.minFee <= x <= cap :: Gap(t.fee, raw) <= Gap(x, raw))
            && t.net == amount - t.fee
  {
    var bps := if isTransfer then schedule.transferFeeBps else schedule.conversionFeeBps;
    if bps > 0 && amount > 0 { FeeIsNearest(amount, bps); }
    assert raw == Calculate(amount, bps).0;
    BoundsClamp(amount, raw, schedule.minFee, schedule.maxFee);
  }

  // ---- monotonicity ----

  /** Before bounds the fee never falls as the amount grows, whatever the rate. */
  lemma FeeMonotone(a: int, b: int, bps: int)
    requires a <= b
    ensures Calculate(a, bps).0 <= Calculate(b, bps).0
  {
    if bps > 0 && b > 0 {
      FeeIsNearest(b, bps);
      if a > 0 {
        FeeIsNearest(a, bps);
        ProductMonotone(a, b, bps);
      }
    }
  }

  lemma ProductMonotone(a: int, b: int, k: int)
    requires a <= b && k >= 0
    ensures a * k <= b * k
  {
  }

  lemma NetMonotoneUpToFullRate(a: int, b: int, bps: int)
    requires a <= b && bps <= 10_000
    ensures Calculate(a, bps).1 <= Calculate(b, bps).1
  {
    if bps > 0 && b > 0 {
      FeeIsNearest(b, bps);
      if a > 0 {
        FeeIsNearest(a, bps);
        RateOfDifference(a, b, bps);
      } else {
        RateOfDifference(0, b, bps);
      }
    }
  }

  lemma RateOfDifference(a: int, b: int, bps: int)
    requires a <= b && bps <= 10_000
    ensures b * bps - a * bps <= 10_000 * (b - a)
  {
    assert b * bps - a * bps == (b - a) * bps;
    ProductMonotone(bps, 10_000, b - a);
    assert bps * (b - a) == (b - a) * bps;
  }

  /** Before bounds the net grows with the amount iff the rate is at most 100%. */
  lemma NetMonotoneIff(bps: int)
    ensures (forall a, b | a <= b :: Calculate(a, bps).1 <= Calculate(b, bps).1) <==> bps <= 10_000
  {
    if bps <= 10_000 {
      forall a, b | a <= b ensures Calculate(a, bps).1 <= Calculate(b, bps).1 {
        NetMonotoneUpToFullRate(a, b, bps);
      }
    } else {
      FeeIsNearest(10_000, bps);
      assert Calculate(0, bps).1 > Calculate(10_000, bps).1;
    }
  }

  /** After bounds both parts grow with the amount, whatever the rate. */
  lemma BoundedMonotone(schedule: FeeSchedule, a: int, b: int, isTransfer: bool)
    requires a <= b
    ensures CalculateFee(schedule, a, isTransfer).fee <= CalculateFee(schedule, b, isTransfer).fee
    ensures CalculateFee(schedule, a, isTransfer).net <= CalculateFee(schedule, b, isTransfer).net
  {
    var bps := if isTransfer then schedule.transferFeeBps else schedule.conversionFeeBps;
    FeeMonotone(a, b, bps);
    if bps <= 10_000 {
      NetMonotoneUpToFullRate(a, b, bps);
    } else {
      OverFullRate(a, bps);
      OverFullRate(b, bps);
    }
  }

  lemma OverFullRate(amount: int, bps: int)
    requires bps > 10_000
    ensures amount > 0 ==> Calculate(amount, bps).0 >= amount
  {
    if amount > 0 {
      FeeIsNearest(amount, bps);
      ProductMonotone(10_000, bps, amount);
    }
  }

  // ---- splitting ----

  /** Before bounds, splitting a transfer in two changes the total fee by at most one unit. */
  lemma SplitCostsAtMostOneUnit(a: int, b: int, bps: int)
    requires a > 0 && b > 0
    ensures -1 <= Calculate(a, bps).0 + Calculate(b, bps).0 - Calculate(a + b, bps).0 <= 1
  {
    if bps > 0 {
      FeeIsNearest(a, bps);
      FeeIsNearest(b, bps);
      FeeIsNearest(a + b, bps);
      assert (a + b) * bps == a * bps + b * bps;
    }
  }
}
