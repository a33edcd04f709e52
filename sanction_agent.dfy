/**
 * The sanction agent: an interest-rate tier from the credit score, then the instalment,
 * fee and totals of the sanctioned loan. The issue date is a parameter.
 */
module SanctionAgent {
  import opened Common
  import opened LoanCalculations
  import opened Records

  /** `determineInterestRate`: 12% at 800 and above, rising in steps to 18% below 650. */
  function DetermineInterestRate(creditScore: int): (rate: real)
    ensures 12.0 <= rate <= 18.0
    ensures rate == 12.0 <==> creditScore >= 800
    ensures rate == 13.5 <==> 750 <= creditScore < 800
    ensures rate == 15.0 <==> 700 <= creditScore < 750
    ensures rate == 16.5 <==> 650 <= creditScore < 700
    ensures rate == 18.0 <==> creditScore < 650
  {
    if creditScore >= 800 then 12.0
    else if creditScore >= 750 then 13.5
    else if creditScore >= 700 then 15.0
    else if creditScore >= 650 then 16.5
    else 18.0
  }

  /** A better score never gets a higher rate. */
  lemma RateNonIncreasing(lower: int, higher: int)
    requires lower <= higher
    ensures DetermineInterestRate(higher) <= DetermineInterestRate(lower)
  {
  }

  datatype SanctionResult = SanctionResult(replies: seq<Reply>, data: ApplicationData, sanction: SanctionData)

  /** The sanction terms for the record's approved amount, tenure and score. */
  function Terms(app: ApplicationData, dateOfIssue: string): (s: SanctionData)
    requires ReadyForSanction(app)
    ensures s.approvedAmount == app.eligibilityResult.value.approvedAmount
    ensures s.tenure == app.tenure.value && s.validity == 15 && s.dateOfIssue == dateOfIssue
    ensures s.interestRate == DetermineInterestRate(app.creditScore.value)
    ensures s.emi == CalculateEmi(s.approvedAmount, s.interestRate, s.tenure)
    ensures s.approvedAmount + s.totalInterest == s.totalRepayment as real
    ensures s.totalRepayment == s.emi * s.tenure
    ensures 0.02 * s.approvedAmount - 0.5 < s.processingFee as real <= 0.02 * s.approvedAmount + 0.5
  {
    var interestRate := DetermineInterestRate(app.creditScore.value);
    var approvedAmount := app.eligibilityResult.value.approvedAmount;
    var tenure := app.tenure.value;
    var emi := CalculateEmi(approvedAmount, interestRate, tenure);
    var processingFee := Round(approvedAmount * 0.02);
    var totalRepayment := emi * tenure;
    var totalInterest := totalRepayment as real - approvedAmount;
    SanctionData(approvedAmount, tenure, interestRate, emi, processingFee, totalInterest,
                 totalRepayment, 15, dateOfIssue)
  }

  /**
   * `SanctionAgent.process`: two replies, the sanction terms always returned, and the record
   * moved to `completed` with nothing else changed.
   */
  function Step(app: ApplicationData, dateOfIssue: string): (r: SanctionResult)
    requires ReadyForSanction(app)
    ensures |r.replies| == 2 && r.replies[1].tone == Some(Success)
    ensures r.sanction == Terms(app, dateOfIssue)
    ensures r.data == app.(stage := Completed)
    ensures WellFormed(app) && app.stage == UnderwritingApproved ==> WellFormed(r.data)
  {
    var sanction := Terms(app, dateOfIssue);
    SanctionResult([Reply(SanctionStarted, None), Reply(SanctionIssued(app.name, sanction), Some(Success))],
                   app.(stage := Completed), sanction)
  }

  /** `process` as written: compute each figure in turn, push the letter, set the stage. */
  method Process(data: ApplicationData, dateOfIssue: string)
    returns (responses: seq<Reply>, applicationData: ApplicationData, sanctionData: SanctionData)
    requires ReadyForSanction(data)
    ensures SanctionResult(responses, applicationData, sanctionData) == Step(data, dateOfIssue)
  {
    responses := [];
    applicationData := data;
    responses := responses + [Reply(SanctionStarted, None)];

    var interestRate := DetermineInterestRate(applicationData.creditScore.value);
    var approvedAmount := applicationData.eligibilityResult.value.approvedAmount;
    var tenure := applicationData.tenure.value;
    var emi := CalculateEmi(approvedAmount, interestRate, tenure);
    var processingFee := Round(approvedAmount * 0.02);
    var totalRepayment := emi * tenure;
    var totalInterest := totalRepayment as real - approvedAmount;

    sanctionData := SanctionData(approvedAmount, tenure, interestRate, emi, processingFee, totalInterest,
                                 totalRepayment, 15, dateOfIssue);
    responses := responses + [Reply(SanctionIssued(applicationData.name, sanctionData), Some(Success))];
    applicationData := applicationData.(stage := Completed);
  }

  /**
   * The instalment amortises the loan: paying the unrounded instalment for the whole tenure
   * leaves nothing owed, the sanctioned EMI is within half a rupee of it, and the total
   * repayment exceeds the principal less that rounding over the tenure.
   */
  lemma SanctionedEmiAmortises(app: ApplicationData, dateOfIssue: string)
    requires ReadyForSanction(app) && app.eligibilityResult.value.approvedAmount > 0.0
    ensures var s := Terms(app, dateOfIssue);
            var exact := ExactEmi(s.approvedAmount, s.interestRate, s.tenure);
            && Balance(s.approvedAmount, MonthlyRate(s.interestRate), exact, s.tenure) == 0.0
            && exact - 0.5 < s.emi as real <= exact + 0.5
            && s.totalRepayment as real > s.approvedAmount - 0.5 * s.tenure as real
  {
    var s := Terms(app, dateOfIssue);
    var exact := ExactEmi(s.approvedAmount, s.interestRate, s.tenure);
    ExactEmiRepaysLoan(s.approvedAmount, s.interestRate, s.tenure);
    ExactEmiExceedsPrincipalShare(s.approvedAmount, s.interestRate, s.tenure);
    RoundedTotalBound(s.emi as real, exact, s.tenure as real, s.approvedAmount);
  }

  /** `emi > exact − ½` and `exact·n > P` give `emi·n > P − n/2`. */
  lemma RoundedTotalBound(emi: real, exact: real, n: real, principal: real)
    requires n > 0.0 && emi > exact - 0.5 && exact * n > principal
    ensures emi * n > principal - 0.5 * n
  {
    ScaleComparison(emi, exact - 0.5, n);
    assert (exact - 0.5) * n == exact * n - 0.5 * n;
  }
}
