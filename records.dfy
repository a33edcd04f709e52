/**
 * The application record every agent passes along, the stages of the journey, the replies
 * the agents give (as tagged outcomes rather than formatted text), and the invariant that
 * ties the stage to the fields already collected.
 */
module Records {
  import opened Common
  import opened Strings
  import opened LoanCalculations

  /** The `stage` string of the record, one constructor per value the agents assign. */
  datatype Stage =
    | Greeting
    | CollectAge
    | CollectEmployment
    | CollectIncome
    | CollectExistingEmi
    | CollectLoanAmount
    | CollectCity
    | CollectPhone
    | DataCollectionComplete
    | SalesCollectPurpose
    | SalesCollectTenure
    | SalesInterestConfirmation
    | SalesAgentComplete
    | VerificationComplete
    | VerificationFailed
    | UnderwritingApproved
    | UnderwritingRejected
    | Completed
    | Rejected
  {
    /** The string the source stores in `stage`. */
    function Name(): string {
      match this
      case Greeting => "greeting"
      case CollectAge => "collect_age"
      case CollectEmployment => "collect_employment"
      case CollectIncome => "collect_income"
      case CollectExistingEmi => "collect_existing_emi"
      case CollectLoanAmount => "collect_loan_amount"
      case CollectCity => "collect_city"
      case CollectPhone => "collect_phone"
      case DataCollectionComplete => "data_collection_complete"
      case SalesCollectPurpose => "sales_collect_purpose"
      case SalesCollectTenure => "sales_collect_tenure"
      case SalesInterestConfirmation => "sales_interest_confirmation"
      case SalesAgentComplete => "sales_agent_complete"
      case VerificationComplete => "verification_complete"
      case VerificationFailed => "verification_failed"
      case UnderwritingApproved => "underwriting_approved"
      case UnderwritingRejected => "underwriting_rejected"
      case Completed => "completed"
      case Rejected => "rejected"
    }

    /** The stages the sales agent owns. */
    predicate IsSales() {
      this in {SalesCollectPurpose, SalesCollectTenure, SalesInterestConfirmation, SalesAgentComplete}
    }
  }

  /** Only the four sales stages have names starting with `sales_`. */
  lemma SalesPrefixIffSalesStage(s: Stage)
    ensures "sales_" <= s.Name() <==> s.IsSales()
  {
    if s.IsSales() {
      assert s.Name()[..6] == "sales_";
    } else {
      assert s.Name()[0] != 's';
    }
  }

  datatype Employment = Salaried | SelfEmployed
  {
    function Name(): string {
      match this
      case Salaried => "Salaried"
      case SelfEmployed => "Self-employed"
    }
  }

  /** The fields of `ApplicationData`; an absent optional field is `None`. */
  datatype ApplicationData = ApplicationData(
    stage: Stage,
    name: Option<string>,
    age: Option<int>,
    employmentType: Option<Employment>,
    monthlyIncome: Option<real>,
    existingEmi: Option<real>,
    loanAmount: Option<real>,
    city: Option<string>,
    phone: Option<string>,
    loanPurpose: Option<string>,
    tenure: Option<int>,
    acceptedInterest: Option<bool>,
    creditScore: Option<int>,
    eligibilityResult: Option<Eligibility>)

  /** The record the journey starts from: stage `greeting` and nothing else. */
  function InitialData(): (d: ApplicationData)
    ensures d.stage == Greeting && WellFormed(d)
  {
    ApplicationData(Greeting, None, None, None, None, None, None, None, None, None, None, None, None, None)
  }

  datatype Tone = Success | Error | Warning

  datatype ScoreLabel = Excellent | Good | Fair | Poor

  /** The reason `mockCRMVerification` gives when it fails. */
  datatype CrmFailure = InvalidPhoneFormat | NameValidationFailed | NotFoundInDatabase

  /** What the sanction agent returns besides the record. */
  datatype SanctionData = SanctionData(
    approvedAmount: real,
    tenure: int,
    interestRate: real,
    emi: int,
    processingFee: int,
    totalInterest: real,
    totalRepayment: int,
    validity: int,
    dateOfIssue: string)

  /** One message template per constructor, with the values it quotes. */
  datatype Text =
    // the journey
    | Welcome
    | ApplicationIdNotice(id: string)
    | SanctionIdNotice(id: string)
    | Apology
    // the master agent
    | AskAge(givenName: string)
    | InvalidAge
    | Underage
    | AskEmployment
    | NoStableIncome
    | SpecifyEmployment
    | AskIncome(employment: Employment)
    | InvalidIncome
    | IncomeBelowMinimum(income: real)
    | AskExistingEmi
    | InvalidExistingEmi
    | AskLoanAmount(existingEmi: real)
    | InvalidLoanAmount
    | LoanAmountBelowMinimum
    | AskCity(amount: real)
    | AskPhone(city: string)
    | InvalidPhone
    | CollectionSummary(summary: ApplicationData)
    | NotUnderstood
    // the sales agent
    | SalesWelcome(customer: Option<string>)
    | AskTenure(purpose: string)
    | AskValidTenure
    | InterestTerms(months: int)
    | OfferDeclined
    | TermsAccepted
    | AskYesNo
    // the verification agent
    | VerificationStarted
    | IdentityVerified(verified: ApplicationData)
    | VerificationIssue(failure: CrmFailure)
    // the underwriting agent
    | UnderwritingStarted
    | ScoreRetrieved(score: int)
    | Assessment(outcome: Decision, assessed: ApplicationData, scoreLabel: ScoreLabel)
    // the sanction agent
    | SanctionStarted
    | SanctionIssued(customer: Option<string>, sanction: SanctionData)

  /** `{ content, status }`. */
  datatype Reply = Reply(text: Text, tone: Option<Tone>)

  /** The agents `handleWorkerAgent` can start. */
  datatype AgentKind = Sales | Verification | Underwriting | Sanction

  /**
   * How many collection steps a record at this stage has been through; the fields present
   * are exactly those collected in the first `Level` steps.
   */
  function Level(s: Stage): nat {
    match s
    case Greeting => 0
    case CollectAge => 1
    case CollectEmployment => 2
    case CollectIncome => 3
    case CollectExistingEmi => 4
    case CollectLoanAmount => 5
    case CollectCity => 6
    case CollectPhone => 7
    case DataCollectionComplete => 8
    case SalesCollectPurpose => 9
    case SalesCollectTenure => 10
    case SalesInterestConfirmation => 11
    case SalesAgentComplete => 12
    case VerificationComplete => 12
    case VerificationFailed => 12
    case UnderwritingApproved => 13
    case UnderwritingRejected => 13
    case Completed => 13
    case Rejected => 0
  }

  /** A phone number as the master agent stores it: at least ten characters, all digits. */
  predicate ValidPhone(p: string) {
    AllDigits(p) && |p| >= 10
  }

  /**
   * The record holds exactly the fields of the first `k` collection steps, each within the
   * bounds its collecting agent enforces, and the eligibility result is the one the record's
   * own figures and score give.
   */
  predicate Filled(a: ApplicationData, k: nat) {
    && (a.name.Some? <==> k >= 1)
    && (a.age.Some? <==> k >= 2)
    && (a.age.Some? ==> 21 <= a.age.value <= 100)
    && (a.employmentType.Some? <==> k >= 3)
    && (a.monthlyIncome.Some? <==> k >= 4)
    && (a.monthlyIncome.Some? ==> a.monthlyIncome.value >= 15000.0)
    && (a.existingEmi.Some? <==> k >= 5)
    && (a.existingEmi.Some? ==> a.existingEmi.value >= 0.0)
    && (a.loanAmount.Some? <==> k >= 6)
    && (a.loanAmount.Some? ==> a.loanAmount.value >= 10000.0)
    && (a.city.Some? <==> k >= 7)
    && (a.phone.Some? <==> k >= 8)
    && (a.phone.Some? ==> ValidPhone(a.phone.value))
    && (a.loanPurpose.Some? <==> k >= 10)
    && (a.tenure.Some? <==> k >= 11)
    && (a.tenure.Some? ==> 6 <= a.tenure.value <= 60)
    && a.acceptedInterest == (if k >= 12 then Some(true) else None)
    && (a.creditScore.Some? <==> k >= 13)
    && (a.creditScore.Some? ==> 300 <= a.creditScore.value <= 900)
    && (a.eligibilityResult.Some? <==> k >= 13)
    && (a.eligibilityResult.Some? ==>
          && k >= 13
          && a.eligibilityResult.value == CalculateEligibility(
               a.monthlyIncome.value, a.existingEmi.value, a.loanAmount.value,
               a.tenure.value, a.creditScore.value))
  }

  /**
   * The journey invariant. A rejected record holds what was collected before the step that
   * rejected it (the age, employment and income checks, or the interest confirmation);
   * every other stage holds exactly the fields of its level, and the underwriting stages
   * agree with the eligibility decision.
   */
  predicate WellFormed(a: ApplicationData) {
    if a.stage == Stage.Rejected then
      Filled(a, 1) || Filled(a, 2) || Filled(a, 3) || Filled(a, 11)
    else
      && Filled(a, Level(a.stage))
      && (a.stage == UnderwritingRejected ==> a.eligibilityResult.value.decision == Decision.Rejected)
      && (a.stage in {UnderwritingApproved, Completed} ==> a.eligibilityResult.value.decision != Decision.Rejected)
  }

  /** Everything a record at the underwriting step holds, and what underwriting reads from it. */
  predicate ReadyForUnderwriting(a: ApplicationData) {
    && a.monthlyIncome.Some? && a.monthlyIncome.value > 0.0
    && a.existingEmi.Some? && a.loanAmount.Some?
    && a.tenure.Some? && a.tenure.value > 0
  }

  /** Everything the sanction agent reads from the record. */
  predicate ReadyForSanction(a: ApplicationData) {
    && a.creditScore.Some? && a.eligibilityResult.Some?
    && a.tenure.Some? && a.tenure.value > 0
  }

  lemma FilledReadyForUnderwriting(a: ApplicationData, k: nat)
    requires Filled(a, k) && k >= 11
    ensures ReadyForUnderwriting(a)
  {
  }

  lemma FilledReadyForSanction(a: ApplicationData, k: nat)
    requires Filled(a, k) && k >= 13
    ensures ReadyForSanction(a)
  {
  }

  /** `after` differs from `before` only in its stage and in fields `before` did not have yet. */
  predicate Extends(before: ApplicationData, after: ApplicationData) {
    && (before.name.Some? ==> after.name == before.name)
    && (before.age.Some? ==> after.age == before.age)
    && (before.employmentType.Some? ==> after.employmentType == before.employmentType)
    && (before.monthlyIncome.Some? ==> after.monthlyIncome == before.monthlyIncome)
    && (before.existingEmi.Some? ==> after.existingEmi == before.existingEmi)
    && (before.loanAmount.Some? ==> after.loanAmount == before.loanAmount)
    && (before.city.Some? ==> after.city == before.city)
    && (before.phone.Some? ==> after.phone == before.phone)
    && (before.loanPurpose.Some? ==> after.loanPurpose == before.loanPurpose)
    && (before.tenure.Some? ==> after.tenure == before.tenure)
    && (before.acceptedInterest.Some? ==> after.acceptedInterest == before.acceptedInterest)
    && (before.creditScore.Some? ==> after.creditScore == before.creditScore)
    && (before.eligibilityResult.Some? ==> after.eligibilityResult == before.eligibilityResult)
  }
}
