/** Splitting a job's price between the Pro and the platform, in whole paise. */
module CommissionCalculator {
  import opened Totals

  /** `Percent` holds hundredths of a percentage point, `Flat` holds paise. */
  datatype Rate = Percent(hundredths: nat) | Flat(paise: nat)

  datatype Shares = Shares(commission: nat, platform: nat, capped: bool)

  /** A finished job as the split sees it: what the customer pays and the frozen rate. */
  datatype PricedJob = PricedJob(price: nat, hundredths: nat)

  /** Exact half-up division: the nearest multiple, with ties going up. */
  function DivideRoundHalfUp(numerator: nat, divisor: nat): (q: nat)
    requires divisor > 0
    ensures 0 - divisor <= 2 * (numerator - q * divisor) < divisor
  {
    var quotient := numerator / divisor;
    var remainder := numerator - quotient * divisor;
    assert 0 <= remainder < divisor;
    assert (quotient + 1) * divisor == quotient * divisor + divisor;
    if remainder * 2 >= divisor then quotient + 1 else quotient
  }

  function ComputeShares(price: nat, rate: Rate): Shares {
    var pro := match rate
      case Percent(h) => DivideRoundHalfUp(price * h, 10_000)
      case Flat(p) => p;
    var capped := pro > price;
    var paid := if capped then price else pro;
    Shares(paid, price - paid, capped)
  }

  /** The shares always rebuild the price, and the clamp bites exactly when the
      configured rate is worth more than the whole job. */
  lemma SharesRebuildThePrice(price: nat, rate: Rate)
    ensures var s := ComputeShares(price, rate);
            s.commission + s.platform == price
            && (s.capped ==> s.platform == 0)
            && (rate.Flat? ==> (s.capped <==> rate.paise > price))
            && (rate.Percent? ==> (s.capped <==> 2 * (price * rate.hundredths - 10_000 * price) >= 10_000))
  {
    if rate.Percent? {
      var exact := price * rate.hundredths;
      var q := DivideRoundHalfUp(exact, 10_000);
    }
  }

  lemma ProductIsMonotone(a: nat, a': nat, b: nat, b': nat)
    requires a <= a' && b <= b'
    ensures a * b <= a' * b'
  {
    assert a * b <= a' * b;
    assert a' * b <= a' * b';
  }

  /** A dearer job, or a better rate of the same kind, never pays the Pro less. */
  lemma ProShareIsMonotone(price: nat, price': nat, rate: Rate, rate': Rate)
    requires price <= price'
    requires (rate.Percent? && rate'.Percent? && rate.hundredths <= rate'.hundredths)
             || (rate.Flat? && rate'.Flat? && rate.paise <= rate'.paise)
    ensures ComputeShares(price, rate).commission <= ComputeShares(price', rate').commission
  {
    if rate.Percent? {
      ProductIsMonotone(price, price', rate.hundredths, rate'.hundredths);
      var exact, exact' := price * rate.hundredths, price' * rate'.hundredths;
      var q, q' := DivideRoundHalfUp(exact, 10_000), DivideRoundHalfUp(exact', 10_000);
      assert q <= q';
    }
  }

  function PaidFor(job: PricedJob): int { ComputeShares(job.price, Percent(job.hundredths)).commission }

  /** The exact share in ten-thousandths of a paisa, before any rounding. */
  function ExactFor(job: PricedJob): int { job.price * job.hundredths }

  /** Rounding never drifts by more than half a paisa a job, over any list of jobs. */
  lemma {:induction false} RoundingDriftIsBounded(jobs: seq<PricedJob>)
    requires forall j :: 0 <= j < |jobs| ==> jobs[j].hundredths <= 10_000
    ensures -10_000 * |jobs| <= 2 * (10_000 * Total(jobs, PaidFor) - Total(jobs, ExactFor)) <= 10_000 * |jobs|
  {
    if jobs != [] {
      var job := jobs[0];
      SharesRebuildThePrice(job.price, Percent(job.hundredths));
      ProductIsMonotone(job.price, job.price, job.hundredths, 10_000);
      RoundingDriftIsBounded(jobs[1..]);
    }
  }
}
