# Loan-application decision pipeline, modelled in Dafny

This project models the core of a personal-loan assistant for a non-bank lender (NBFC). A chat
journey collects an application record through a chain of agents.

- **Master agent.** An eight-stage data-collection machine: name, age, employment, monthly income,
  existing EMI, loan amount, city and phone. It has early rejections and an absorbing `rejected`
  stage.
- **Sales agent.** Asks for the purpose and the tenure (6 to 60 months), then asks whether the
  applicant accepts the 12–18% interest terms.
- **Verification agent.** Format checks on the phone and the name, then a simulated CRM lookup
  that passes 95% of the time.
- **Underwriting agent.** A heuristic credit score, the eligibility rules, and the decision mapped
  to a stage.
- **Sanction agent.** An interest-rate tier from the score, then the EMI, the 2% processing fee,
  the totals and a 15-day validity.
- **Journey orchestrator.** Routes each user message by the stage's `sales_` prefix, chains the
  automatic hand-offs and saves terminal outcomes to the application store.

The model is written in the form the source takes:
- The eligibility and EMI calculators are pure functions over `real`. `Math.round(x)` is
  `floor(x + 0.5)`.
- Each agent has a pure step function that specifies it. An imperative `Process` method builds
  the reply list and the record copy as the source does, and is proved equal to that step
  function.
- The orchestrator is a class `Journey` holding the record, the transcript and the sanction.
  Its methods are proved equal to the pure turn function `Turn`.
- The application store is a class `ApplicationStore` over what the storage key holds.

Randomness, time and storage failure are parameters:
- the verification draw;
- the credit-score draw;
- the clock in milliseconds;
- the random id suffix;
- the ISO timestamp a save records;
- the sanction letter's issue date, a separate reading;
- whether writing to storage succeeds.

Files:
- `common.dfy`: `Option`.
- `strings.dfy`: the JavaScript string operations the agents use (lower-casing, `includes`,
  digit filtering, character stripping, and leading-number `parseInt`/`parseFloat`).
- `loan_calculations.dfy`: `calculateEligibility`, `calculateEMI` and their properties.
- `records.dfy`: stages, the application record, reply texts and the journey invariant
  `WellFormed`. The invariant says which fields each stage has collected and the bounds they
  satisfy.
- `master_agent.dfy`, `sales_agent.dfy`, `verification_agent.dfy`, `underwriting_agent.dfy`,
  `sanction_agent.dfy`: the agents.
- `application_storage.dfy`: save, find, update and delete.
- `loan_journey.dfy`: the orchestrator.

### Behaviour of the code as written

These are proved or modelled as the code behaves, even where its comments or the intended
design suggest otherwise.

- **Reduced approvals never happen.** `requested > finalApprovalLimit` holds exactly when the
  EMI-to-income ratio exceeds 60% (`OverLimitIffBurdenAboveSixty`). So the 50% burden rule
  always fires first, and `approved_reduced` is unreachable. The "score below 700 and over the
  limit" rule and the "above 120%" rule are always pre-empted by it as well.
  - Approval happens exactly when the ratio is at most 50% and the score is at least 650
    (`EligibilityDecision`).
  - The standard worked example (income 50,000, no EMI, 1,000,000 over 36 months, score 750) is
    rejected on the burden rule, not approved (`WorkedExampleRejectedOnBurden`).
  - Likewise a request between the limit and 120% of it is rejected, not reduced.
- **"₹" is not stripped from amounts.** The character class that strips amounts in
  `masterAgent.ts` is a mis-encoded `[₹,]`. It removes U+00E2, U+201A, U+00B9 and the comma,
  but not "₹" (U+20B9). An income typed as "₹50000" is therefore refused with a warning
  (`RupeePrefixedIncomeRefused`).
- **"no" is found inside other words.** The test is a substring match, so any reply containing
  "no" declines, even "I know, yes" (`DeclineBeatsAccept`). The same holds for the
  employment answer (`NoMeansNoIncome`).
- **Lengths are counted in UTF-16 code units.** The name check counts code units, not
  characters, so a name of two characters outside the Basic Multilingual Plane passes it
  (`TwoAstralCharactersPassNameCheck`).
- **Commas in amounts are ignored wherever they are.** `"50,000"` parses to 50000
  (`FiftyThousandWithComma`), and so does any comma-grouped number (`GroupedAmountParses`); a
  comma anywhere else is dropped too (`CommasIgnored`).
- **A rejected application is saved again on every later message.** After a master-agent
  rejection, every further message goes to the master agent's fallback reply. The same record
  is then saved once more, with that fallback as the reason (`RejectedApplicationSavedAgain`).
- **Some rejections are never saved.** A rejection is only saved when the name is non-empty
  (JavaScript truthiness), so an empty name's rejection is never saved
  (`UnnamedRejectionNotSaved`).
- **A failed save keeps the new record.** When a save throws, the record and replies already
  set in that turn are kept, and the apology is added after them. This holds at each of the four
  save sites (`StorageFailureApologises`, `DeclineSaveFailureApologises`,
  `UnderwritingSaveFailureApologises`, `SanctionSaveFailureApologises`). After an approval, the
  record is then `completed` but no sanction letter is shown.
- **The score clamp never binds.** For a draw in [0, 1) the score is between 570 and 839
  (`ClampNeverBinds`).
- **The phone check always passes in the journey.** The master agent only stores phones of ten
  digits or more, so verification can only fail on the name or the draw
  (`JourneyRecordPassesPhoneCheck`).

## Model

| member | source | states |
|---|---|---|
| LoanCalculations.Round | src/utils/loanCalculations.ts:108 | `Math.round`: the result is within half of its argument (above −½, at most +½) |
| LoanCalculations.FinalApprovalLimit | src/utils/loanCalculations.ts:20-22 | borrowing exactly the final approval limit puts the EMI-to-income ratio at exactly 60% |
| LoanCalculations.EmiToIncomeRatio | src/utils/loanCalculations.ts:24-27 | the ratio is at most 50 exactly when the existing EMI plus the new instalment is at most half the income; it is never negative for non-negative figures |
| LoanCalculations.RoundMonotone | src/utils/loanCalculations.ts:108 | rounding never reverses the order of two amounts |
| LoanCalculations.CalculateEligibility | src/utils/loanCalculations.ts:9-95 | `maxEligibleLoan` is always the rounded final approval limit; `emiToIncomeRatio` is the ratio for the requested amount (for the approved amount on a reduced approval); a rejection approves 0; an approval approves the requested amount; a reduced approval approves the rounded limit |
| LoanCalculations.OverLimitIffBurdenAboveSixty | src/utils/loanCalculations.ts:22-27 | the request exceeds the final approval limit exactly when the EMI-to-income ratio exceeds 60% |
| LoanCalculations.WithinBurdenMeansWithinLimit | src/utils/loanCalculations.ts:22-32 | a ratio of at most 50% puts the request strictly below the limit |
| LoanCalculations.EligibilityDecision | src/utils/loanCalculations.ts:29-95 | approved ⟺ ratio ≤ 50 and score ≥ 650; rejected ⟺ ratio > 50 or score < 650; never `approved_reduced`; which justification each case carries |
| LoanCalculations.LowScoreOverLimitRejected | src/utils/loanCalculations.ts:43-51 | score below 700 with the request over the limit is rejected with 0 approved, on the burden justification because rule 1 fires first |
| LoanCalculations.FarAboveLimitRejected | src/utils/loanCalculations.ts:87-94 | a request above 120% of the limit is rejected |
| LoanCalculations.ApprovedFitsCapacity | src/utils/loanCalculations.ts:65-73 | an approved amount is below the limit and within half a rupee of `maxEligibleLoan`, and the new total EMI is at most half the income |
| LoanCalculations.ApprovalIsMonotone | src/utils/loanCalculations.ts:29-73 | asking for less with a score at least as good keeps an approval |
| LoanCalculations.WorkedExampleRejectedOnBurden | src/utils/loanCalculations.ts:18-40 | income 50,000, no EMI, 1,000,000 over 36 months at score 750: rejected on burden with limit 1,080,000 |
| LoanCalculations.PowAtLeastOne | src/utils/loanCalculations.ts:105-106 | `(1+r)^n ≥ 1` for `r ≥ 0` |
| LoanCalculations.PowAboveOne | src/utils/loanCalculations.ts:105-106 | `(1+r)^n > 1` for `r > 0`, `n > 0`: the EMI formula's denominator is positive |
| LoanCalculations.AnnuityFactorSpec | src/utils/loanCalculations.ts:104-106 | the annuity factor `r·q/(q−1)` is positive and satisfies `k·(q−1) = r·q` |
| LoanCalculations.CalculateEmi | src/utils/loanCalculations.ts:97-109 | the EMI is the amortisation formula `P·r·(1+r)^n/((1+r)^n−1)` rounded to within half a rupee |
| LoanCalculations.BalanceClosedForm | src/utils/loanCalculations.ts:98-106 | after k payments the balance `B_k` satisfies `r·B_k = r·P·q^k − pay·(q^k − 1)` |
| LoanCalculations.ExactEmiRepaysLoan | src/utils/loanCalculations.ts:98-106 | paying the unrounded EMI for the whole tenure leaves exactly nothing owed |
| LoanCalculations.GrowthBound | src/utils/loanCalculations.ts:105-106 | `(1+r)^n − 1 < n·r·(1+r)^n`, the bound behind "instalments repay more than the principal" |
| LoanCalculations.ExactEmiExceedsPrincipalShare | src/utils/loanCalculations.ts:97-106 | for a positive principal, the unrounded EMI times the tenure exceeds the principal |
| LoanCalculations.EmiMonotoneInPrincipal | src/utils/loanCalculations.ts:97-109 | a larger principal never gets a smaller EMI |
| Strings.ToLower | src/agents/masterAgent.ts:75 | lower-casing keeps the length (ASCII letters only, see Left out) |
| Strings.ToLowerAppend | src/agents/salesAgent.ts:78 | lower-casing distributes over concatenation |
| Strings.TypedWordFound | src/agents/salesAgent.ts:78-80 | a word typed in any letter case inside an answer is found in the lower-cased answer |
| Strings.ContainsAt | src/agents/salesAgent.ts:80 | `includes` holds exactly when the text occurs at some index |
| Strings.ContainsInfix | src/agents/masterAgent.ts:76-80 | a text includes anything placed inside it |
| Strings.Utf16Length | src/agents/verificationAgent.ts:71-79 | `length` counts UTF-16 code units: at least one and at most two per character |
| Strings.Utf16LengthOfBmp | src/agents/verificationAgent.ts:79 | within the Basic Multilingual Plane the code-unit length is the number of characters |
| Strings.Utf16LengthOfAstral | src/agents/verificationAgent.ts:79 | characters beyond the Basic Multilingual Plane count two code units each |
| Strings.Utf16LengthOfDigits | src/agents/verificationAgent.ts:71 | a string of digits has as many code units as characters |
| Strings.DigitsOnly | src/agents/masterAgent.ts:190 | `replace(/[^0-9]/g, '')` yields only digits and never lengthens |
| Strings.DigitsOnlyOfDigits | src/agents/masterAgent.ts:190 | a string of digits is kept unchanged |
| Strings.DigitsOnlyIdempotent | src/agents/masterAgent.ts:190 | filtering digits twice is filtering once |
| Strings.RemoveAll | src/agents/masterAgent.ts:104 | stripping a character class leaves none of its characters and never lengthens |
| Strings.RemoveAllKeeps | src/agents/masterAgent.ts:104 | a string with none of the stripped characters is unchanged |
| Strings.RemoveAllAppend | src/agents/masterAgent.ts:104 | stripping distributes over concatenation |
| Strings.LeadingDigits | src/agents/masterAgent.ts:47 | the longest digit prefix: a prefix, all digits, followed by a non-digit or the end |
| Strings.NatString | src/utils/applicationStorage.ts:33 | a number's decimal text is non-empty and all digits |
| Strings.NatStringValue | src/utils/applicationStorage.ts:33 | reading the decimal text back gives the number |
| Strings.NatStringThousands | src/agents/masterAgent.ts:104 | a numeral of four or more digits is the numeral of its thousands followed by the three-digit last group |
| Strings.LeadingDigitsOfNumeral | src/agents/masterAgent.ts:47 | the digit prefix of a numeral followed by a non-digit is the numeral |
| Strings.ParseInt | src/agents/masterAgent.ts:47 | `parseInt` is NaN exactly when, after leading spaces and a sign, no digit follows; a negative result needs a minus sign |
| Strings.ParseIntSkipsSpace | src/agents/masterAgent.ts:47 | leading whitespace does not change `parseInt` |
| Strings.ParseIntOfNumeral | src/agents/masterAgent.ts:47 | `parseInt` of a numeral followed by a non-digit is that number (`"25 years"` gives 25) |
| Strings.ParseIntOfNegativeNumeral | src/agents/masterAgent.ts:47 | `parseInt` of `-` and a numeral followed by a non-digit is the negated number |
| Strings.ParseFloatOfNumeral | src/agents/masterAgent.ts:104 | `parseFloat` of a numeral followed by anything but a digit, `.` or an exponent is that number |
| Strings.ParseFloatRefusesLeading | src/agents/masterAgent.ts:104-105 | text starting with a character that cannot begin a number is NaN |
| Strings.ParseFloatNaN | src/agents/masterAgent.ts:104-105 | `parseFloat` is NaN exactly when, after leading spaces and a sign, there is neither a digit nor a `.` followed by a digit |
| Records.SalesPrefixIffSalesStage | src/hooks/useLoanJourney.ts:85 | a stage name starts with `sales_` exactly for the four sales stages |
| Records.InitialData | src/hooks/useLoanJourney.ts:55-57 | the initial record has stage `greeting` and satisfies the journey invariant |
| Records.FilledReadyForUnderwriting | src/agents/underwritingAgent.ts:53-59 | a record past tenure collection has the income, EMI, amount and tenure underwriting reads |
| Records.FilledReadyForSanction | src/agents/sanctionAgent.ts:43-47 | an assessed record has the score, eligibility and tenure sanction reads |
| MasterAgent.AtGreeting | src/agents/masterAgent.ts:36-43 | one reply, no trigger; on a journey record it always advances one stage (never warns or rejects), keeping the invariant and every collected field |
| MasterAgent.AtAge | src/agents/masterAgent.ts:46-71 | one reply; warns, rejects or advances, and keeps the invariant |
| MasterAgent.AtEmployment | src/agents/masterAgent.ts:74-100 | one reply; warns, rejects or advances, and keeps the invariant; which of the three, for every answer, is `EmploymentDecision` |
| MasterAgent.AtIncome | src/agents/masterAgent.ts:103-128 | one reply; warns, rejects or advances, and keeps the invariant |
| MasterAgent.AtExistingEmi | src/agents/masterAgent.ts:131-149 | one reply; warns or advances, never rejects, and keeps the invariant |
| MasterAgent.AtLoanAmount | src/agents/masterAgent.ts:152-176 | one reply; warns or advances, never rejects, and keeps the invariant |
| MasterAgent.AtCity | src/agents/masterAgent.ts:179-186 | one reply, no trigger; on a journey record it always advances one stage (no validation), keeping the invariant |
| MasterAgent.AtPhone | src/agents/masterAgent.ts:189-212 | one reply; warns or stores the digits and completes collection, triggering sales exactly then |
| MasterAgent.Step | src/agents/masterAgent.ts:31-219 | exactly one reply per message; the invariant is kept and no collected field changes; each collecting stage warns (record unchanged), rejects (only at age, employment or income) or stores and advances one stage; any other stage gives the fallback with the record unchanged; sales is triggered exactly on completing the phone stage |
| MasterAgent.Process | src/agents/masterAgent.ts:31-219 | the imperative `process` computes exactly `Step` |
| MasterAgent.NameStoredVerbatim | src/agents/masterAgent.ts:36-43 | the name is the message verbatim and the stage becomes `collect_age` |
| MasterAgent.AgeAnswer | src/agents/masterAgent.ts:46-71 | for every answer, by its `parseInt`: no leading integer or an age outside 18..100 warns with the record unchanged; 18..20 rejects without storing the age; 21..100 is stored and moves to `collect_employment` |
| MasterAgent.NegativeAgeWarns | src/agents/masterAgent.ts:47-54 | a negative age such as "-25" warns with the record unchanged |
| MasterAgent.SalariedTestedFirst | src/agents/masterAgent.ts:75-77 | any answer containing "salaried" typed in any letter case is Salaried, whatever else it contains |
| MasterAgent.SelfEmploymentBeforeRejection | src/agents/masterAgent.ts:78-79 | "self" or "business" in any letter case, without "salaried", is Self-employed, even if it also contains "no" |
| MasterAgent.NoMeansNoIncome | src/agents/masterAgent.ts:80-86 | "unemployed" or "no" in any letter case, without the earlier keywords, rejects for lack of stable income |
| MasterAgent.EmploymentDecision | src/agents/masterAgent.ts:74-100 | for every answer: "salaried" gives Salaried; else "self"/"business" Self-employed; else "unemployed"/"no" rejects for lack of stable income; else a warning with the record unchanged; letter case ignored |
| MasterAgent.IncomeAnswer | src/agents/masterAgent.ts:104-127 | for every answer, by its stripped `parseFloat`: NaN or not positive warns with the record unchanged; below 15,000 rejects without storing; otherwise stored, moving to `collect_existing_emi` |
| MasterAgent.NumeralSurvivesStripping | src/agents/masterAgent.ts:104 | stripping leaves a numeral and a tail free of stripped characters unchanged |
| MasterAgent.CommasIgnored | src/agents/masterAgent.ts:104 | a comma anywhere in an amount does not change what it parses to |
| MasterAgent.GroupedStripsToNumeral | src/agents/masterAgent.ts:104 | stripping a comma-grouped number leaves its plain numeral |
| MasterAgent.GroupedAmountParses | src/agents/masterAgent.ts:104-105 | a comma-grouped number followed by a non-numeric tail parses to that number |
| MasterAgent.FiftyThousandWithComma | src/agents/masterAgent.ts:104-105 | "50,000" parses to 50000 |
| MasterAgent.RupeePrefixedIncomeRefused | src/agents/masterAgent.ts:104-110 | an income starting with "₹" warns, record unchanged |
| MasterAgent.SmallLoanAmountOnlyWarns | src/agents/masterAgent.ts:162-168 | a positive amount below 10,000 only warns and never rejects |
| MasterAgent.PhoneAnswer | src/agents/masterAgent.ts:189-211 | ten or more digits: the digits are stored, collection completes and sales is triggered; fewer: warning, unchanged |
| MasterAgent.RejectedIsAbsorbing | src/agents/masterAgent.ts:214-218 | at `rejected` every message gets the fallback and changes nothing |
| SalesAgent.Begin | src/agents/salesAgent.ts:29-40 | one untoned reply; stage `sales_collect_purpose`; other fields kept and the invariant holds |
| SalesAgent.AtTenure | src/agents/salesAgent.ts:57-75 | one reply; the invariant is kept and no collected field changes |
| SalesAgent.AtInterestConfirmation | src/agents/salesAgent.ts:77-109 | one reply; the invariant is kept and no collected field changes; which outcome, for every answer, is `InterestDecision` |
| SalesAgent.Step | src/agents/salesAgent.ts:42-112 | a reply exactly at the three question stages, none and the record unchanged elsewhere; the invariant is kept; a rejection only comes from the interest question; completing sales means interest was accepted |
| SalesAgent.Process | src/agents/salesAgent.ts:29-40 | the imperative `process` computes exactly `Begin` |
| SalesAgent.HandleResponse | src/agents/salesAgent.ts:42-112 | the imperative `handleResponse` computes exactly `Step` |
| SalesAgent.PurposeStoredVerbatim | src/agents/salesAgent.ts:46-55 | the purpose is the message verbatim and the stage becomes `sales_collect_tenure` |
| SalesAgent.TenureAnswer | src/agents/salesAgent.ts:57-75 | for every answer, by its `parseInt`: a tenure in 6..60 is stored, moving to interest confirmation; no leading integer or one outside 6..60 gives one warning and the record unchanged |
| SalesAgent.DeclineBeatsAccept | src/agents/salesAgent.ts:78-87 | any reply containing "no" or "decline" in any letter case is a decline, with the error reply, even if it also says yes |
| SalesAgent.AcceptWithoutDecline | src/agents/salesAgent.ts:89-101 | "yes", "accept" or "agree" in any letter case, without "no"/"decline", sets `acceptedInterest` and completes sales with the success reply |
| SalesAgent.InterestDecision | src/agents/salesAgent.ts:77-109 | for every answer: "no"/"decline" rejects with the decline reply; else "yes"/"accept"/"agree" accepts and completes sales; else a warning with the record unchanged; letter case ignored |
| VerificationAgent.MockCrmVerification | src/agents/verificationAgent.ts:66-96 | verified ⟺ a phone of at least 10 and a name of at least 3 UTF-16 code units and a draw below 0.95; the phone is checked before the name; the database failure only comes from the draw |
| VerificationAgent.Step | src/agents/verificationAgent.ts:29-64 | always two replies, the announcement first; only the stage changes, to complete or failed as the check says; success tone exactly on completion |
| VerificationAgent.Process | src/agents/verificationAgent.ts:29-64 | the imperative `process` computes exactly `Step` |
| VerificationAgent.JourneyRecordPassesPhoneCheck | src/agents/verificationAgent.ts:71-95 | on a journey record the phone check passes; the outcome is decided by the name's length in UTF-16 code units and the draw |
| VerificationAgent.TwoAstralCharactersPassNameCheck | src/agents/verificationAgent.ts:79-89 | a name of two characters beyond the Basic Multilingual Plane is four code units long and passes the name check |
| UnderwritingAgent.IncomeAdjustment | src/agents/underwritingAgent.ts:111-113 | the income step lies between −30 and +50 |
| UnderwritingAgent.BurdenAdjustment | src/agents/underwritingAgent.ts:116-119 | the existing-EMI step lies between −50 and +20 |
| UnderwritingAgent.EmploymentAdjustment | src/agents/underwritingAgent.ts:122 | the employment step is 0 or +20 |
| UnderwritingAgent.Offset | src/agents/underwritingAgent.ts:125 | for a draw in [0, 1) the random offset lies in −50..49 |
| UnderwritingAgent.HeuristicScore | src/agents/underwritingAgent.ts:108-125 | for a draw in [0, 1) the unclamped score lies in 570..839 |
| UnderwritingAgent.CreditScore | src/agents/underwritingAgent.ts:106-130 | the score lies in 300..900 and equals the heuristic whenever that is in range |
| UnderwritingAgent.GenerateMockCreditScore | src/agents/underwritingAgent.ts:106-130 | the accumulator computes exactly `CreditScore` |
| UnderwritingAgent.ScoreLabelOf | src/agents/underwritingAgent.ts:132-137 | Excellent ⟺ ≥ 750, Good ⟺ 700..749, Fair ⟺ 650..699, Poor ⟺ below 650 |
| UnderwritingAgent.Step | src/agents/underwritingAgent.ts:31-104 | three replies; the record gains the score and the eligibility computed from its own figures and nothing else changes; `underwriting_rejected` exactly on a rejection, with the error tone exactly then |
| UnderwritingAgent.Process | src/agents/underwritingAgent.ts:31-104 | the imperative `process` computes exactly `Step` |
| UnderwritingAgent.ClampNeverBinds | src/agents/underwritingAgent.ts:108-129 | for a draw in [0, 1) the heuristic lies in 570..839, so the clamp never changes it |
| UnderwritingAgent.IncomeAdjustmentMonotone | src/agents/underwritingAgent.ts:111-113 | a higher income never lowers the income step |
| UnderwritingAgent.BurdenAdjustmentAntitone | src/agents/underwritingAgent.ts:116-119 | a larger existing EMI never raises the EMI step |
| UnderwritingAgent.PoorLabelMeansRejected | src/agents/underwritingAgent.ts:64-103 | a Poor score always ends in `underwriting_rejected` |
| UnderwritingAgent.UnderwritingDecision | src/agents/underwritingAgent.ts:53-103 | `underwriting_approved` ⟺ ratio ≤ 50 and score ≥ 650 |
| SanctionAgent.DetermineInterestRate | src/agents/sanctionAgent.ts:79-86 | each tier exactly on its score band: 12 ⟺ 800 and up, 13.5 ⟺ 750..799, 15 ⟺ 700..749, 16.5 ⟺ 650..699, 18 ⟺ below 650 |
| SanctionAgent.RateNonIncreasing | src/agents/sanctionAgent.ts:79-86 | a better score never gets a higher rate |
| SanctionAgent.Terms | src/agents/sanctionAgent.ts:43-63 | amount and tenure from the record, the rate from the score, the EMI by `calculateEMI`, fee within half a rupee of 2%, repayment = EMI × tenure = amount + interest, validity 15 |
| SanctionAgent.Step | src/agents/sanctionAgent.ts:32-77 | two replies ending in success; the sanction is always returned; the record becomes `completed` and nothing else changes |
| SanctionAgent.Process | src/agents/sanctionAgent.ts:32-77 | the imperative `process` computes exactly `Step` |
| SanctionAgent.SanctionedEmiAmortises | src/agents/sanctionAgent.ts:46-51 | the unrounded EMI repays the sanctioned amount exactly; the EMI is within half a rupee of it; the total repayment exceeds the amount less half a rupee per month |
| ApplicationStorage.IdDeterminesClockAndSuffix | src/utils/applicationStorage.ts:33 | an id determines the clock reading and the suffix it was made from |
| ApplicationStorage.NewIdReadsBack | src/utils/applicationStorage.ts:33 | an id starts with `APP-`, the clock reading reads back from it with `parseInt`, and it ends with the suffix |
| ApplicationStorage.FindById | src/utils/applicationStorage.ts:68-71 | none ⟺ no record has the id; otherwise the first record with it |
| ApplicationStorage.IndexOf | src/utils/applicationStorage.ts:76-78 | −1 ⟺ no record has the id; otherwise the first index with it |
| ApplicationStorage.WithoutId | src/utils/applicationStorage.ts:97 | no kept record has the id; every record without it is kept |
| ApplicationStorage.Merge | src/utils/applicationStorage.ts:80-84 | for each of `id`, `data`, `status`, `sanctionData`, `rejectionReason` and `createdAt`: the update's value when it names one, the record's otherwise; `updatedAt` is the new time |
| ApplicationStorage.ApplicationStore.SaveApplication | src/utils/applicationStorage.ts:26-55 | on a successful write: the returned id is the new record's, which is appended at the end with the given data, status, sanction and reason and one time for both timestamps; on failure nothing changes and no id is returned |
| ApplicationStorage.ApplicationStore.GetApplicationById | src/utils/applicationStorage.ts:68-71 | the search loop returns the first record with the id, or none |
| ApplicationStorage.ApplicationStore.UpdateApplication | src/utils/applicationStorage.ts:73-92 | true ⟺ the id exists and the write succeeds; then only the first matching index is merged; otherwise nothing changes |
| ApplicationStorage.ApplicationStore.DeleteApplication | src/utils/applicationStorage.ts:94-104 | on a successful write every record with the id is removed, the rest kept in order, and true is returned |
| ApplicationStorage.SavedRecordIsFound | src/utils/applicationStorage.ts:26-71 | a saved record is found by its id unless an earlier record has the same id |
| ApplicationStorage.FindByIdAtIndexOf | src/utils/applicationStorage.ts:68-78 | `find` and `findIndex` agree on the first match |
| ApplicationStorage.UpdatedRecordIsFound | src/utils/applicationStorage.ts:73-87 | after an update that keeps the id, finding it returns the merged record |
| ApplicationStorage.WithoutIdAppend | src/utils/applicationStorage.ts:97 | the filter distributes over concatenation |
| ApplicationStorage.DeletedIsGone | src/utils/applicationStorage.ts:94-99 | after a delete, no record with the id is found, and a record with any other id still is |
| LoanJourney.InitialSession | src/hooks/useLoanJourney.ts:46-60 | the journey starts at `greeting` with the welcome message, no sanction, no letter and no id |
| LoanJourney.Bot | src/hooks/useLoanJourney.ts:92-95 | each agent reply becomes one bot message, in order, with its tone |
| LoanJourney.RejectionMessage | src/hooks/useLoanJourney.ts:104 | the default reason exactly when there are no replies; for any non-empty reply list, the text of its last reply, which is the last bot message shown |
| LoanJourney.SaveIfRejected | src/hooks/useLoanJourney.ts:103-116 | the store only changes for a named rejection; then on a writable store the rejected record is appended with the last reply as reason and its id set; a raise only comes from a failing store; at most one record is saved |
| LoanJourney.SaveRejected | src/hooks/useLoanJourney.ts:103-116 | a successful save appends the rejected record, sets the id and announces it; a failing save raises with nothing changed |
| LoanJourney.SalesWorker | src/hooks/useLoanJourney.ts:165-167 | the sales agent's first question is shown and the record moves to `sales_collect_purpose` |
| LoanJourney.SanctionWorker | src/hooks/useLoanJourney.ts:219-247 | the record completes; a successful save appends the approved record with the letter, sets the id, shows the letter and announces the id; a failing save raises before any of that |
| LoanJourney.UnderwritingWorker | src/hooks/useLoanJourney.ts:186-217 | the invariant is kept, the transcript only grows, at most one save happens and none on a failing store |
| LoanJourney.VerificationWorker | src/hooks/useLoanJourney.ts:168-184 | the same guarantees for verification and whatever it chains to |
| LoanJourney.Worker | src/hooks/useLoanJourney.ts:159-267 | `handleWorkerAgent` keeps the invariant, grows the transcript, saves at most once and shows a letter only on a completed record |
| LoanJourney.SalesTurn | src/hooks/useLoanJourney.ts:85-116 | the sales agent's replies come first in the transcript; the same guarantees hold |
| LoanJourney.MasterTurn | src/hooks/useLoanJourney.ts:117-149 | the master agent's replies come first in the transcript; the same guarantees hold |
| LoanJourney.Turn | src/hooks/useLoanJourney.ts:73-157 | `handleUserMessage` keeps the journey invariant (letter shown ⟺ sanction, only when completed); the transcript grows from the user's message; at most one application is saved per turn, none when storage fails |
| LoanJourney.RoutedByStagePrefix | src/hooks/useLoanJourney.ts:85-128 | after the user's message comes the sales agent's reply at a sales question stage, and the master agent's at every stage not starting with `sales_` |
| LoanJourney.TurnShowsMasterReplies | src/hooks/useLoanJourney.ts:117-128 | at a stage not starting with `sales_` the master agent's replies follow the user's message |
| LoanJourney.TurnShowsSalesReplies | src/hooks/useLoanJourney.ts:85-95 | at a sales stage the sales agent's replies follow the user's message |
| LoanJourney.MasterRejectionIsSaved | src/hooks/useLoanJourney.ts:136-149 | a master rejection with a name saves one rejected record with the last reply as reason, sets the id and announces it |
| LoanJourney.RejectedApplicationSavedAgain | src/hooks/useLoanJourney.ts:117-149 | at `rejected`, a further message saves the same record again, with the fallback reply as reason |
| LoanJourney.UnnamedRejectionNotSaved | src/hooks/useLoanJourney.ts:136 | a rejection with an empty name saves nothing |
| LoanJourney.TriggerStartsSales | src/hooks/useLoanJourney.ts:130-133 | a master step that sets a trigger starts the sales agent in the same turn: the record moves to `sales_collect_purpose`, its first question follows the master agent's replies, and nothing is saved |
| LoanJourney.StorageFailureApologises | src/hooks/useLoanJourney.ts:136-154 | a save that throws leaves the store and id unchanged and ends the turn with the apology after the agent's replies |
| LoanJourney.DeclineSaveFailureApologises | src/hooks/useLoanJourney.ts:103-116 | a declined offer whose save throws keeps the rejected record and the decline reply, saves nothing, sets no id, and ends the turn with the error-toned apology (the `catch` at lines 152-154) |
| LoanJourney.VerificationFailureSavesNothing | src/hooks/useLoanJourney.ts:98-100 | accepted terms with a failing CRM check (a name under 3 UTF-16 code units or a draw of 0.95 or more) stop at `verification_failed` with nothing saved and no letter |
| LoanJourney.UnderwritingRejectionIsSaved | src/hooks/useLoanJourney.ts:199-211 | accepted and verified but refused: the assessed record is saved as rejected with the eligibility justification and the id announced |
| LoanJourney.AcceptedApplicationIsSanctioned | src/hooks/useLoanJourney.ts:98-100 | accepted, verified, ratio ≤ 50 and score ≥ 650: in the same turn the record completes, the letter for the approved amount at the score's rate, dated with the issue date, is shown, and the approved record is saved with it |
| LoanJourney.UnderwritingSaveFailureApologises | src/hooks/useLoanJourney.ts:199-211 | accepted, verified and refused, but the save throws: the assessed record is kept, nothing is saved, no id or letter is set, and the turn ends with the apology |
| LoanJourney.SanctionSaveFailureApologises | src/hooks/useLoanJourney.ts:219-246 | accepted, verified and approved, but the save throws: the record is completed, the sanction and the letter flag stay as they were, nothing is saved, no id is set, and the turn ends with the apology |
| LoanJourney.Journey.constructor | src/hooks/useLoanJourney.ts:46-60 | the hook's state starts as the initial session over the given store |
| LoanJourney.Journey.AddMessage | src/hooks/useLoanJourney.ts:62-71 | `addMessage` appends one message and changes nothing else |
| LoanJourney.Journey.AddResponses | src/hooks/useLoanJourney.ts:92-95 | the loop appends every reply in order |
| LoanJourney.Journey.SaveRejection | src/hooks/useLoanJourney.ts:103-115 | the save and announcement compute exactly `SaveRejected` |
| LoanJourney.Journey.HandleWorkerAgent | src/hooks/useLoanJourney.ts:159-267 | the recursive hand-off computes exactly `Worker` |
| LoanJourney.Journey.RunSales | src/hooks/useLoanJourney.ts:165-167 | the `sales` case computes exactly `SalesWorker` |
| LoanJourney.Journey.RunVerification | src/hooks/useLoanJourney.ts:168-184 | the `verification` case computes exactly `VerificationWorker` |
| LoanJourney.Journey.RunUnderwriting | src/hooks/useLoanJourney.ts:186-217 | the `underwriting` case computes exactly `UnderwritingWorker` |
| LoanJourney.Journey.RunSanction | src/hooks/useLoanJourney.ts:219-247 | the `sanction` case computes exactly `SanctionWorker` |
| LoanJourney.Journey.HandleUserMessage | src/hooks/useLoanJourney.ts:73-157 | a user message changes the state exactly as `Turn` |
| LoanJourney.Journey.HandleSalesMessage | src/hooks/useLoanJourney.ts:85-116 | the sales branch computes exactly `SalesTurn` |
| LoanJourney.Journey.HandleMasterMessage | src/hooks/useLoanJourney.ts:117-149 | the master branch computes exactly `MasterTurn` |

## Left out

- Rendering and React state:
  - React rendering and the `isProcessing` flag are not modelled.
  - Message ids and per-message timestamps are not modelled.
  - The `setTimeout` pauses are not modelled; every step is synchronous.
- Exact reply text. Reply texts are tagged values carrying the data the text shows, not the
  formatted strings. Number formatting (`toLocaleString`, `toFixed`) is not modelled.
- Floating point:
  - Money and ratios are exact reals, not IEEE doubles.
  - Results right at the 50%, 0.6 and 1.2 boundaries, and the rounding of `.5` cases, may differ
    from the browser's.
- Integer widths. Integers are unbounded; the amounts involved stay far below 2^53.
- JavaScript number parsing:
  - `parseInt` and `parseFloat` are modelled as leading-number parsers: optional leading
    whitespace, a sign, digits, and for `parseFloat` a fraction and an exponent.
  - `Infinity`, hexadecimal forms and Unicode whitespace beyond the common ASCII characters are
    not modelled.
- `localStorage` and JSON:
  - What the storage key holds is a value, and serialisation is not modelled.
  - A failing write is a parameter; reading never fails beyond "unreadable".
  - The `console.error` logging is not modelled.
- Strings.ToLower: lowers the ASCII letters A–Z only. JavaScript's `toLowerCase` also folds
  other scripts, and a few characters change length (U+0130 becomes two code units) or become
  ASCII (the Kelvin sign becomes `k`). For such input the length claim and the keyword matches
  may differ from the browser's.
- Strings.ParseFloat: only its NaN cases (`ParseFloatNaN`) and its value on plain numerals
  (`ParseFloatOfNumeral`) are proved. A general statement about the sign of the result is not.
- ApplicationStorage.NewRecord: one clock reading is used for both `createdAt` and `updatedAt`.
  The source reads the clock twice (applicationStorage.ts:41-42), so the two may differ by a
  millisecond. The sanction letter's `dateOfIssue` is a separate parameter, as in the source
  (sanctionAgent.ts:62); the model does not state that it precedes the saved record's time.
- The id's random suffix is a parameter. That two saves in the same millisecond get different ids
  depends on that randomness and is not modelled.
- `getAllApplications` is not a separate method of `ApplicationStore`. It is `All()` (a function
  over what the key holds), because reading has no effect.
- LoanCalculations.CalculateEligibility requires a positive income and tenure. The source would
  divide by zero and produce `Infinity`/`NaN`. In the journey, the income is at least 15,000 and
  the tenure at least 6.
- LoanCalculations.CalculateEmi requires a positive rate and tenure. The source's formula is
  `NaN` at rate 0. In the journey the rate is at least 12% and the tenure at least 6 months.
- LoanJourney.Turn requires the session's record to satisfy the journey invariant, which every
  reachable session does (`InitialData` and `Turn` establish and keep it). The behaviour of the
  hook on a record no journey can produce is not modelled.
- The hook's `default` branch for an unknown agent name is left out: the master agent only
  triggers `sales`.
- The code after the `switch` in `handleWorkerAgent` is folded into the `sales` case. Only that
  case reaches it, and its sanction branch never runs there.
