/**
 * The underwriting agent: a heuristic credit score from the profile plus a random offset,
 * the eligibility rules applied with that score, and the decision mapped to a stage.
 */
module UnderwritingAgent {
  import opened Common
  import opened LoanCalculations
  import opened Records

  /** The income step of the score: +50, +30, 0 or −30. */
  function IncomeAdjustment(income: real): (d: int)
    ensures -30 <= d <= 50
  {
    if income >= 50000.0 then 50
    else if income >= 30000.0 then 30
    else if income < 20000.0 then -30
    else 0
  }

  /** Existing EMI as a percentage of income, the figure the score step looks at. */
  function ExistingBurden(existingEmi: real, income: real): real
    requires income > 0.0
  {
    existingEmi / income * 100.0
  }

  /** The existing-EMI step of the score: −50 above 40%, −30 above 30%, +20 at exactly 0%. */
  function BurdenAdjustment(existingEmi: real, income: real): (d: int)
    requires income > 0.0
    ensures -50 <= d <= 20
  {
    var ratio := ExistingBurden(existingEmi, income);
    if ratio > 40.0 then -50
    else if ratio > 30.0 then -30
    else if ratio == 0.0 then 20
    else 0
  }

  function EmploymentAdjustment(employment: Option<Employment>): (d: int)
    ensures 0 <= d <= 20
  {
    if employment == Some(Salaried) then 20 else 0
  }

  /** `Math.floor(Math.random() * 100) - 50` for a draw in [0, 1): between −50 and 49. */
  function Offset(draw: real): (d: int)
    ensures 0.0 <= draw < 1.0 ==> -50 <= d <= 49
  {
    (draw * 100.0).Floor - 50
  }

  /** The score before it is clamped: 700 moved by the four adjustments, 570 to 839 for a draw in [0, 1). */
  function HeuristicScore(app: ApplicationData, draw: real): (h: int)
    requires ReadyForUnderwriting(app)
    ensures 0.0 <= draw < 1.0 ==> 570 <= h <= 839
  {
    700 + IncomeAdjustment(app.monthlyIncome.value)
        + BurdenAdjustment(app.existingEmi.value, app.monthlyIncome.value)
        + EmploymentAdjustment(app.employmentType)
        + Offset(draw)
  }

  /** The score `generateMockCreditScore` returns: the heuristic, kept within 300..900. */
  function CreditScore(app: ApplicationData, draw: real): (score: int)
    requires ReadyForUnderwriting(app)
    ensures 300 <= score <= 900
    ensures 300 <= HeuristicScore(app, draw) <= 900 ==> score == HeuristicScore(app, draw)
  {
    var h := HeuristicScore(app, draw);
    if h < 300 then 300 else if h > 900 then 900 else h
  }

  /** `generateMockCreditScore` as written: an accumulator adjusted step by step, then clamped. */
  method GenerateMockCreditScore(data: ApplicationData, draw: real) returns (score: int)
    requires ReadyForUnderwriting(data)
    ensures score == CreditScore(data, draw)
  {
    var baseScore := 700;

    var income := data.monthlyIncome.value;
    if income >= 50000.0 {
      baseScore := baseScore + 50;
    } else if income >= 30000.0 {
      baseScore := baseScore + 30;
    } else if income < 20000.0 {
      baseScore := baseScore - 30;
    }

    var emiToIncomeRatio := data.existingEmi.value / income * 100.0;
    if emiToIncomeRatio > 40.0 {
      baseScore := baseScore - 50;
    } else if emiToIncomeRatio > 30.0 {
      baseScore := baseScore - 30;
    } else if emiToIncomeRatio == 0.0 {
      baseScore := baseScore + 20;
    }

    if data.employmentType == Some(Salaried) {
      baseScore := baseScore + 20;
    }

    var random := (draw * 100.0).Floor - 50;
    baseScore := baseScore + random;

    score := if baseScore > 900 then 900 else baseScore;
    score := if score < 300 then 300 else score;
  }

  /** `getCreditScoreLabel`. */
  function ScoreLabelOf(score: int): (l: ScoreLabel)
    ensures l == Excellent <==> score >= 750
    ensures l == Good <==> 700 <= score < 750
    ensures l == Fair <==> 650 <= score < 700
    ensures l == Poor <==> score < 650
  {
    if score >= 750 then Excellent
    else if score >= 700 then Good
    else if score >= 650 then Fair
    else Poor
  }

  datatype UnderwritingResult = UnderwritingResult(replies: seq<Reply>, data: ApplicationData)

  /** The eligibility the record's own figures give with `score`. */
  function EligibilityFor(app: ApplicationData, score: int): Eligibility
    requires ReadyForUnderwriting(app)
  {
    CalculateEligibility(app.monthlyIncome.value, app.existingEmi.value, app.loanAmount.value,
                         app.tenure.value, score)
  }

  /** The stage an eligibility decision leads to. */
  function StageFor(d: Decision): Stage {
    match d
    case Approved => UnderwritingApproved
    case ApprovedReduced => UnderwritingApproved
    case Rejected => UnderwritingRejected
  }

  /**
   * `UnderwritingAgent.process`: three replies; the record gains the score and the
   * eligibility result computed from its own figures with that score, and its stage says
   * whether the decision was a rejection. Nothing else changes.
   */
  function Step(app: ApplicationData, draw: real): (r: UnderwritingResult)
    requires ReadyForUnderwriting(app)
    ensures |r.replies| == 3
    ensures var score := CreditScore(app, draw);
            var e := EligibilityFor(app, score);
            && r.data == app.(creditScore := Some(score), eligibilityResult := Some(e), stage := r.data.stage)
            && (r.data.stage == UnderwritingRejected <==> e.decision == Decision.Rejected)
            && r.data.stage in {UnderwritingApproved, UnderwritingRejected}
    ensures r.replies[2].tone == Some(Error) <==> r.data.stage == UnderwritingRejected
    ensures WellFormed(app) && app.stage == VerificationComplete ==> WellFormed(r.data)
  {
    var score := CreditScore(app, draw);
    var e := EligibilityFor(app, score);
    var assessed := app.(creditScore := Some(score), eligibilityResult := Some(e));
    var tone := match e.decision
                case Approved => Success
                case ApprovedReduced => Warning
                case Rejected => Error;
    UnderwritingResult(
      [Reply(UnderwritingStarted, None), Reply(ScoreRetrieved(score), None),
       Reply(Assessment(e.decision, assessed, ScoreLabelOf(score)), Some(tone))],
      assessed.(stage := StageFor(e.decision)))
  }

  /** `process` as written: score, eligibility, then the decision picks the reply and stage. */
  method Process(data: ApplicationData, draw: real) returns (responses: seq<Reply>, applicationData: ApplicationData)
    requires ReadyForUnderwriting(data)
    ensures UnderwritingResult(responses, applicationData) == Step(data, draw)
  {
    responses := [];
    applicationData := data;
    responses := responses + [Reply(UnderwritingStarted, None)];

    var creditScore := GenerateMockCreditScore(applicationData, draw);
    applicationData := applicationData.(creditScore := Some(creditScore));
    responses := responses + [Reply(ScoreRetrieved(creditScore), None)];

    var eligibility := CalculateEligibility(applicationData.monthlyIncome.value, applicationData.existingEmi.value,
                                            applicationData.loanAmount.value, applicationData.tenure.value, creditScore);
    applicationData := applicationData.(eligibilityResult := Some(eligibility));
    var scoreLabel := ScoreLabelOf(creditScore);

    if eligibility.decision == Approved {
      responses := responses + [Reply(Assessment(Approved, applicationData, scoreLabel), Some(Success))];
      applicationData := applicationData.(stage := UnderwritingApproved);
    } else if eligibility.decision == ApprovedReduced {
      responses := responses + [Reply(Assessment(ApprovedReduced, applicationData, scoreLabel), Some(Warning))];
      applicationData := applicationData.(stage := UnderwritingApproved);
    } else {
      responses := responses + [Reply(Assessment(Decision.Rejected, applicationData, scoreLabel), Some(Error))];
      applicationData := applicationData.(stage := UnderwritingRejected);
    }
  }

  // ---------------------------------------------------------------- properties of the score

  /**
   * For a draw in [0, 1) the heuristic lies between 570 and 839, so the clamp to 300..900
   * never changes it.
   */
  lemma ClampNeverBinds(app: ApplicationData, draw: real)
    requires ReadyForUnderwriting(app) && 0.0 <= draw < 1.0
    ensures 570 <= HeuristicScore(app, draw) <= 839
    ensures CreditScore(app, draw) == HeuristicScore(app, draw)
  {
  }

  /** A higher income never lowers the income step. */
  lemma IncomeAdjustmentMonotone(lower: real, higher: real)
    requires lower <= higher
    ensures IncomeAdjustment(lower) <= IncomeAdjustment(higher)
  {
  }

  /** A larger existing EMI (on the same income) never raises the EMI step. */
  lemma BurdenAdjustmentAntitone(smaller: real, larger: real, income: real)
    requires income > 0.0 && 0.0 <= smaller <= larger
    ensures BurdenAdjustment(larger, income) <= BurdenAdjustment(smaller, income)
  {
    assert smaller / income <= larger / income;
    assert 0.0 <= smaller / income;
    if larger > 0.0 {
      assert larger / income > 0.0;
    }
  }

  /** A Poor label always comes with a rejection: the eligibility rules refuse scores below 650. */
  lemma PoorLabelMeansRejected(app: ApplicationData, draw: real)
    requires ReadyForUnderwriting(app)
    requires ScoreLabelOf(CreditScore(app, draw)) == Poor
    ensures Step(app, draw).data.stage == UnderwritingRejected
  {
    var score := CreditScore(app, draw);
    EligibilityDecision(app.monthlyIncome.value, app.existingEmi.value, app.loanAmount.value, app.tenure.value, score);
  }

  /**
   * What underwriting decides, without the rule order: the record reaches
   * `underwriting_approved` exactly when the new EMI burden is at most 50% of income and the
   * score is at least 650.
   */
  lemma UnderwritingDecision(app: ApplicationData, draw: real)
    requires ReadyForUnderwriting(app)
    ensures var score := CreditScore(app, draw);
            var ratio := EmiToIncomeRatio(app.monthlyIncome.value, app.existingEmi.value, app.loanAmount.value, app.tenure.value);
            Step(app, draw).data.stage == UnderwritingApproved <==> ratio <= 50.0 && score >= 650
  {
    var score := CreditScore(app, draw);
    EligibilityDecision(app.monthlyIncome.value, app.existingEmi.value, app.loanAmount.value, app.tenure.value, score);
  }
}
