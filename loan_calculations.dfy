/**
 * The fixed arithmetic of the loan decision: the eligibility rule chain and the
 * amortised instalment (EMI). Money is modelled as `real`, `Math.round(x)` as
 * `floor(x + 0.5)`.
 */
module LoanCalculations {

  /** `Math.round`: the nearest integer, halves rounded up. */
  function Round(x: real): (r: int)
    ensures x - 0.5 < r as real <= x + 0.5
  {
    (x + 0.5).Floor
  }

  lemma RoundMonotone(x: real, y: real)
    requires x <= y
    ensures Round(x) <= Round(y)
  {
  }

  // ---------------------------------------------------------------- eligibility

  datatype Decision = Approved | ApprovedReduced | Rejected

  /** Which justification text is returned, with the numbers it quotes. */
  datatype Justification =
    | BurdenTooHigh(ratio: real)
    | LowScoreOverCapacity(score: int, limit: int)
    | BelowMinimumScore(score: int)
    | WithinLimit(score: int, ratio: real)
    | ReducedOffer(amount: int)
    | FarAboveCapacity(limit: int)

  datatype Eligibility = Eligibility(
    decision: Decision,
    approvedAmount: real,
    maxEligibleLoan: int,
    emiToIncomeRatio: real,
    justification: Justification)

  /** Line 18's `monthlyIncome * 0.6 * tenure`: computed by the source, never returned. */
  function UnconstrainedMaxLoan(income: real, tenure: int): real {
    income * 0.6 * tenure as real
  }

  /**
   * `[(0.6 × income) − existing EMI] × tenure`: the amount whose instalment, added to the
   * existing EMI, takes exactly 60% of the income.
   */
  function FinalApprovalLimit(income: real, existingEmi: real, tenure: int): (limit: real)
    ensures income > 0.0 && tenure > 0 ==> EmiToIncomeRatio(income, existingEmi, limit, tenure) == 60.0
  {
    var limit := (0.6 * income - existingEmi) * tenure as real;
    assert income > 0.0 && tenure > 0 ==>
             limit / tenure as real == 0.6 * income - existingEmi && (0.6 * income) / income == 0.6;
    limit
  }

  /**
   * Existing EMI plus `amount / tenure`, as a percentage of the monthly income: at most 50
   * exactly when those monthly payments take at most half the income.
   */
  function EmiToIncomeRatio(income: real, existingEmi: real, amount: real, tenure: int): (ratio: real)
    requires income > 0.0 && tenure > 0
    ensures ratio <= 50.0 <==> existingEmi + amount / tenure as real <= 0.5 * income
    ensures existingEmi >= 0.0 && amount >= 0.0 ==> ratio >= 0.0
  {
    var outgo := existingEmi + amount / tenure as real;
    var ratio := outgo / income * 100.0;
    assert ratio * income == outgo * 100.0;
    ScaleComparison(ratio, 50.0, income);
    ratio
  }

  /** `calculateEligibility`: six rules, the first that matches decides. */
  function CalculateEligibility(income: real, existingEmi: real, requested: real, tenure: int, score: int): (r: Eligibility)
    requires income > 0.0 && tenure > 0
    ensures r.maxEligibleLoan == Round(FinalApprovalLimit(income, existingEmi, tenure))
    ensures r.decision == Rejected ==> r.approvedAmount == 0.0
    ensures r.decision == Approved ==> r.approvedAmount == requested
    ensures r.decision == ApprovedReduced ==> r.approvedAmount == r.maxEligibleLoan as real
    ensures r.decision != ApprovedReduced ==> r.emiToIncomeRatio == EmiToIncomeRatio(income, existingEmi, requested, tenure)
    ensures r.decision == ApprovedReduced ==> r.emiToIncomeRatio == EmiToIncomeRatio(income, existingEmi, r.approvedAmount, tenure)
  {
    var limit := FinalApprovalLimit(income, existingEmi, tenure);
    var ratio := EmiToIncomeRatio(income, existingEmi, requested, tenure);
    if ratio > 50.0 then
      Eligibility(Rejected, 0.0, Round(limit), ratio, BurdenTooHigh(ratio))
    else if score < 700 && requested > limit then
      Eligibility(Rejected, 0.0, Round(limit), ratio, LowScoreOverCapacity(score, Round(limit)))
    else if score < 650 then
      Eligibility(Rejected, 0.0, Round(limit), ratio, BelowMinimumScore(score))
    else if requested <= limit then
      Eligibility(Approved, requested, Round(limit), ratio, WithinLimit(score, ratio))
    else if requested > limit && requested <= limit * 1.2 then
      var reduced := Round(limit);
      Eligibility(ApprovedReduced, reduced as real, Round(limit),
                  EmiToIncomeRatio(income, existingEmi, reduced as real, tenure), ReducedOffer(reduced))
    else
      Eligibility(Rejected, 0.0, Round(limit), ratio, FarAboveCapacity(Round(limit)))
  }

  lemma ScaleComparison(a: real, b: real, c: real)
    requires c > 0.0
    ensures a * c > b * c <==> a > b
  {
    if a > b {
      assert a * c - b * c == (a - b) * c;
    } else {
      assert b * c - a * c == (b - a) * c;
    }
  }

  /**
   * Asking for more than the final approval limit is the same as an EMI burden above 60%:
   * the limit is exactly the amount whose instalment brings the burden to 60% of income.
   */
  lemma {:induction false} OverLimitIffBurdenAboveSixty(income: real, existingEmi: real, requested: real, tenure: int)
    requires income > 0.0 && tenure > 0
    ensures requested > FinalApprovalLimit(income, existingEmi, tenure)
        <==> EmiToIncomeRatio(income, existingEmi, requested, tenure) > 60.0
  {
    var t := tenure as real;
    var perMonth := requested / t;
    var total := existingEmi + perMonth;
    var ratio := EmiToIncomeRatio(income, existingEmi, requested, tenure);
    assert perMonth * t == requested;
    assert FinalApprovalLimit(income, existingEmi, tenure) == (0.6 * income - existingEmi) * t;
    ScaleComparison(perMonth, 0.6 * income - existingEmi, t);
    assert requested > FinalApprovalLimit(income, existingEmi, tenure) <==> perMonth > 0.6 * income - existingEmi;
    assert ratio == total / income * 100.0;
    assert ratio * income == total * 100.0;
    ScaleComparison(ratio, 60.0, income);
    assert perMonth > 0.6 * income - existingEmi <==> ratio * income > 60.0 * income;
  }

  /** Within the 50% burden the request is always strictly inside the final approval limit. */
  lemma WithinBurdenMeansWithinLimit(income: real, existingEmi: real, requested: real, tenure: int)
    requires income > 0.0 && tenure > 0
    requires EmiToIncomeRatio(income, existingEmi, requested, tenure) <= 50.0
    ensures requested < FinalApprovalLimit(income, existingEmi, tenure)
  {
    var t := tenure as real;
    var perMonth := requested / t;
    var total := existingEmi + perMonth;
    var ratio := EmiToIncomeRatio(income, existingEmi, requested, tenure);
    assert ratio * income == total * 100.0;
    ScaleComparison(ratio, 50.0, income);
    assert perMonth < 0.6 * income - existingEmi;
    ScaleComparison(0.6 * income - existingEmi, perMonth, t);
    assert perMonth * t == requested;
  }

  /**
   * What the rule chain decides, stated without its order: approval exactly when the
   * burden is at most 50% and the score at least 650, rejection otherwise. Rules 2, 5 and 6
   * are never the ones that fire, so `ApprovedReduced` is never returned.
   */
  lemma EligibilityDecision(income: real, existingEmi: real, requested: real, tenure: int, score: int)
    requires income > 0.0 && tenure > 0
    ensures var r := CalculateEligibility(income, existingEmi, requested, tenure, score);
            var ratio := EmiToIncomeRatio(income, existingEmi, requested, tenure);
            && (r.decision == Approved <==> ratio <= 50.0 && score >= 650)
            && (r.decision == Rejected <==> ratio > 50.0 || score < 650)
            && r.decision != ApprovedReduced
            && (r.decision == Approved ==> r.justification == WithinLimit(score, ratio))
            && (ratio > 50.0 ==> r.justification == BurdenTooHigh(ratio))
            && (ratio <= 50.0 && score < 650 ==> r.justification == BelowMinimumScore(score))
  {
    if EmiToIncomeRatio(income, existingEmi, requested, tenure) <= 50.0 {
      WithinBurdenMeansWithinLimit(income, existingEmi, requested, tenure);
    }
  }

  /** A score below 700 with a request above the limit is rejected, by the 50% rule that comes first. */
  lemma LowScoreOverLimitRejected(income: real, existingEmi: real, requested: real, tenure: int, score: int)
    requires income > 0.0 && tenure > 0
    requires score < 700 && requested > FinalApprovalLimit(income, existingEmi, tenure)
    ensures var r := CalculateEligibility(income, existingEmi, requested, tenure, score);
            && r.decision == Rejected && r.approvedAmount == 0.0
            && r.justification == BurdenTooHigh(EmiToIncomeRatio(income, existingEmi, requested, tenure))
  {
    OverLimitIffBurdenAboveSixty(income, existingEmi, requested, tenure);
  }

  /** A request above 120% of the limit is always rejected. */
  lemma FarAboveLimitRejected(income: real, existingEmi: real, requested: real, tenure: int, score: int)
    requires income > 0.0 && tenure > 0 && requested >= 0.0
    requires requested > FinalApprovalLimit(income, existingEmi, tenure) * 1.2
    ensures CalculateEligibility(income, existingEmi, requested, tenure, score).decision == Rejected
  {
    OverLimitIffBurdenAboveSixty(income, existingEmi, requested, tenure);
  }

  /** An approved amount fits the limit and keeps the burden within half of the income. */
  lemma ApprovedFitsCapacity(income: real, existingEmi: real, requested: real, tenure: int, score: int)
    requires income > 0.0 && tenure > 0
    requires CalculateEligibility(income, existingEmi, requested, tenure, score).decision == Approved
    ensures var r := CalculateEligibility(income, existingEmi, requested, tenure, score);
            && r.approvedAmount < FinalApprovalLimit(income, existingEmi, tenure)
            && r.approvedAmount <= r.maxEligibleLoan as real + 0.5
            && existingEmi + r.approvedAmount / tenure as real <= income / 2.0
  {
    var ratio := EmiToIncomeRatio(income, existingEmi, requested, tenure);
    EligibilityDecision(income, existingEmi, requested, tenure, score);
    WithinBurdenMeansWithinLimit(income, existingEmi, requested, tenure);
    var total := existingEmi + requested / tenure as real;
    assert ratio * income == total * 100.0;
    ScaleComparison(total, income / 2.0, 100.0);
  }

  /** Asking for less, or having a better score, never turns an approval into a rejection. */
  lemma ApprovalIsMonotone(income: real, existingEmi: real, requested: real, tenure: int, score: int,
                           smaller: real, better: int)
    requires income > 0.0 && tenure > 0
    requires smaller <= requested && better >= score
    requires CalculateEligibility(income, existingEmi, requested, tenure, score).decision == Approved
    ensures CalculateEligibility(income, existingEmi, smaller, tenure, better).decision == Approved
  {
    EligibilityDecision(income, existingEmi, requested, tenure, score);
    EligibilityDecision(income, existingEmi, smaller, tenure, better);
    DivisionMonotone(smaller, requested, tenure as real);
  }

  lemma DivisionMonotone(x: real, y: real, d: real)
    requires d > 0.0 && x <= y
    ensures x / d <= y / d
  {
    assert y / d - x / d == (y - x) / d;
  }

  /** Income 50,000, no EMI, 1,000,000 over 36 months: limit 1,080,000 but a 55.6% burden. */
  lemma WorkedExampleRejectedOnBurden()
    ensures var r := CalculateEligibility(50000.0, 0.0, 1000000.0, 36, 750);
            r.decision == Rejected && r.maxEligibleLoan == 1080000
            && r.justification.BurdenTooHigh?
  {
  }

  // ---------------------------------------------------------------- EMI

  function Pow(b: real, n: nat): real {
    if n == 0 then 1.0 else b * Pow(b, n - 1)
  }

  lemma {:induction false} PowAtLeastOne(b: real, n: nat)
    requires b >= 1.0
    ensures Pow(b, n) >= 1.0
  {
    if n > 0 {
      PowAtLeastOne(b, n - 1);
      assert b * Pow(b, n - 1) >= Pow(b, n - 1);
    }
  }

  lemma {:induction false} PowAboveOne(b: real, n: nat)
    requires b > 1.0 && n > 0
    ensures Pow(b, n) > 1.0
  {
    PowAtLeastOne(b, n - 1);
    assert b * Pow(b, n - 1) > Pow(b, n - 1);
  }

  /** The monthly rate `annualRate / 12 / 100`. */
  function MonthlyRate(annualRate: real): real {
    annualRate / 12.0 / 100.0
  }

  /** `r·(1+r)^n / ((1+r)^n − 1)`: the instalment per unit of principal. */
  function AnnuityFactor(r: real, months: int): real
    requires r > 0.0 && months > 0
  {
    var q := Pow(1.0 + r, months);
    PowAboveOne(1.0 + r, months);
    r * q / (q - 1.0)
  }

  lemma AnnuityFactorSpec(r: real, months: int)
    requires r > 0.0 && months > 0
    ensures Pow(1.0 + r, months) > 1.0
    ensures AnnuityFactor(r, months) * (Pow(1.0 + r, months) - 1.0) == r * Pow(1.0 + r, months)
    ensures AnnuityFactor(r, months) > 0.0
  {
    PowAboveOne(1.0 + r, months);
    QuotientSpec(r * Pow(1.0 + r, months), Pow(1.0 + r, months) - 1.0);
  }

  lemma QuotientSpec(a: real, d: real)
    requires d > 0.0
    ensures (a / d) * d == a
    ensures a > 0.0 ==> a / d > 0.0
  {
  }

  /** `P·r·(1+r)^n / ((1+r)^n − 1)` before rounding; the denominator is positive for `r > 0`, `n > 0`. */
  function ExactEmi(principal: real, annualRate: real, months: int): real
    requires annualRate > 0.0 && months > 0
  {
    principal * AnnuityFactor(MonthlyRate(annualRate), months)
  }

  /** `calculateEMI`: the annuity instalment, rounded to the nearest integer. */
  function CalculateEmi(principal: real, annualRate: real, months: int): (emi: int)
    requires annualRate > 0.0 && months > 0
    ensures ExactEmi(principal, annualRate, months) - 0.5 < emi as real <= ExactEmi(principal, annualRate, months) + 0.5
  {
    Round(ExactEmi(principal, annualRate, months))
  }

  /** What is still owed after `k` monthly payments: interest is added, then the payment is taken off. */
  function Balance(principal: real, r: real, payment: real, k: nat): real {
    if k == 0 then principal else Balance(principal, r, payment, k - 1) * (1.0 + r) - payment
  }

  /** One month of the closed form: multiply the previous balance by `1 + r`, take off the payment. */
  lemma BalanceStep(r: real, principal: real, payment: real, p: real, b: real, np: real, nb: real)
    requires r * b == r * principal * p - payment * (p - 1.0)
    requires np == (1.0 + r) * p
    requires nb == b * (1.0 + r) - payment
    ensures r * nb == r * principal * np - payment * (np - 1.0)
  {
    assert r * nb == (r * b) * (1.0 + r) - r * payment;
    assert (r * b) * (1.0 + r) == (r * principal * p - payment * (p - 1.0)) * (1.0 + r);
  }

  lemma {:induction false} BalanceClosedForm(principal: real, r: real, payment: real, k: nat)
    ensures r * Balance(principal, r, payment, k)
         == r * principal * Pow(1.0 + r, k) - payment * (Pow(1.0 + r, k) - 1.0)
  {
    if k > 0 {
      BalanceClosedForm(principal, r, payment, k - 1);
      BalanceStep(r, principal, payment, Pow(1.0 + r, k - 1), Balance(principal, r, payment, k - 1),
                  Pow(1.0 + r, k), Balance(principal, r, payment, k));
    }
  }

  /** Paying the exact EMI every month for the whole tenure leaves nothing owed. */
  lemma ExactEmiRepaysLoan(principal: real, annualRate: real, months: int)
    requires annualRate > 0.0 && months > 0
    ensures Balance(principal, MonthlyRate(annualRate), ExactEmi(principal, annualRate, months), months) == 0.0
  {
    var r := MonthlyRate(annualRate);
    var q := Pow(1.0 + r, months);
    var e := ExactEmi(principal, annualRate, months);
    AnnuityFactorSpec(r, months);
    BalanceClosedForm(principal, r, e, months);
    RepaidStep(r, principal, q, AnnuityFactor(r, months), e, Balance(principal, r, e, months));
  }

  lemma RepaidStep(r: real, principal: real, q: real, k: real, e: real, b: real)
    requires r > 0.0
    requires k * (q - 1.0) == r * q && e == principal * k
    requires r * b == r * principal * q - e * (q - 1.0)
    ensures b == 0.0
  {
    assert e * (q - 1.0) == principal * (k * (q - 1.0));
    assert r * b == 0.0;
  }

  lemma {:induction false} GrowthBound(r: real, n: nat)
    requires r > 0.0 && n > 0
    ensures Pow(1.0 + r, n) - 1.0 < n as real * r * Pow(1.0 + r, n)
  {
    var q := 1.0 + r;
    if n == 1 {
      assert Pow(q, 1) == q;
      assert r * q == r + r * r;
    } else {
      GrowthBound(r, n - 1);
      var p := Pow(q, n - 1);
      var big := n as real;
      PowAtLeastOne(q, n - 1);
      assert Pow(q, n) == q * p;
      GrowthStep(r, big, p, Pow(q, n));
    }
  }

  lemma GrowthStep(r: real, big: real, p: real, next: real)
    requires r > 0.0 && big >= 2.0 && p >= 1.0
    requires p - 1.0 < (big - 1.0) * r * p
    requires next == (1.0 + r) * p
    ensures next - 1.0 < big * r * next
  {
    PositiveProduct(big, r);
    PositiveProduct(r, p);
    PositiveProduct(big * r, r * p);
    assert next == p + r * p;
    assert big * r * next == (big * r) * (p + r * p);
    assert (big * r) * (p + r * p) == big * r * p + (big * r) * (r * p);
    assert (big - 1.0) * r * p + r * p == big * r * p;
    LessThanChain(next, p, r * p, (big - 1.0) * r * p, big * r * p, (big * r) * (r * p), big * r * next);
  }

  lemma PositiveProduct(a: real, b: real)
    requires a > 0.0 && b > 0.0
    ensures a * b > 0.0
  {
  }

  /** The linear bookkeeping of `GrowthStep`, over plain variables. */
  lemma LessThanChain(next: real, p: real, rp: real, x: real, y: real, z: real, total: real)
    requires next == p + rp
    requires p - 1.0 < x
    requires x + rp == y
    requires total == y + z
    requires z > 0.0
    ensures next - 1.0 < total
  {
  }

  /** Before rounding, the instalments add up to more than the principal: the interest is positive. */
  lemma ExactEmiExceedsPrincipalShare(principal: real, annualRate: real, months: int)
    requires annualRate > 0.0 && months > 0 && principal > 0.0
    ensures ExactEmi(principal, annualRate, months) * months as real > principal
  {
    var r := MonthlyRate(annualRate);
    var q := Pow(1.0 + r, months);
    AnnuityFactorSpec(r, months);
    GrowthBound(r, months);
    ShareStep(principal, r, q, AnnuityFactor(r, months), ExactEmi(principal, annualRate, months), months as real);
  }

  lemma ShareStep(principal: real, r: real, q: real, k: real, e: real, n: real)
    requires principal > 0.0 && q > 1.0
    requires k * (q - 1.0) == r * q && e == principal * k
    requires q - 1.0 < n * r * q
    ensures e * n > principal
  {
    var d := q - 1.0;
    ScaleComparison(n * r * q, d, principal);
    assert (principal * k * n) * d == principal * (n * (k * d));
    ScaleComparison(principal * k * n, principal, d);
  }

  /** A larger principal never gets a smaller instalment. */
  lemma EmiMonotoneInPrincipal(smaller: real, larger: real, annualRate: real, months: int)
    requires annualRate > 0.0 && months > 0 && smaller <= larger
    ensures CalculateEmi(smaller, annualRate, months) <= CalculateEmi(larger, annualRate, months)
  {
    var k := AnnuityFactor(MonthlyRate(annualRate), months);
    AnnuityFactorSpec(MonthlyRate(annualRate), months);
    ScaleComparison(larger, smaller, k);
    RoundMonotone(smaller * k, larger * k);
  }
}
