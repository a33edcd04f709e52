/**
 * The master agent: the data-collection stage machine that walks from `greeting` to
 * `data_collection_complete`. Each call consumes one message and either warns (record
 * unchanged), rejects (stage `rejected`), or stores the answer and moves to the next stage.
 */
module MasterAgent {
  import opened Common
  import opened Strings
  import opened Records

  /**
   * The character class of the currency regex as the file's bytes spell it: the UTF-8 bytes
   * of the rupee sign read as Windows-1252 (`â`, `‚`, `¹`) and the comma. The rupee sign
   * itself (U+20B9) is not in the class.
   */
  const StrippedChars: set<char> := {'\U{E2}', '\U{201A}', '\U{B9}', ','}

  const RupeeSign: char := '\U{20B9}'

  /** `parseFloat(message.replace(/[â‚¹,]/g, ''))`. */
  function ParseAmount(message: string): Option<real> {
    ParseFloat(RemoveAll(message, StrippedChars))
  }

  /** `{ responses, applicationData, triggerAgent }`. */
  datatype MasterResult = MasterResult(replies: seq<Reply>, data: ApplicationData, trigger: Option<AgentKind>)

  /** The stages at which the master agent collects an answer. */
  predicate Collecting(s: Stage) {
    s in {Greeting, CollectAge, CollectEmployment, CollectIncome, CollectExistingEmi,
          CollectLoanAmount, CollectCity, CollectPhone}
  }

  /** A warning, the record left exactly as it was. */
  predicate Warned(r: MasterResult, app: ApplicationData) {
    r.data == app && r.trigger.None? && |r.replies| == 1 && r.replies[0].tone == Some(Warning)
  }

  /** An error reply, the stage set to `rejected` and nothing else changed. */
  predicate RejectedNow(r: MasterResult, app: ApplicationData) {
    r.data == app.(stage := Stage.Rejected) && r.trigger.None? && |r.replies| == 1
    && r.replies[0].tone == Some(Error)
  }

  /** The answer stored and the record one collection step further. */
  predicate Advanced(r: MasterResult, app: ApplicationData) {
    r.data.stage != Stage.Rejected && Level(r.data.stage) == Level(app.stage) + 1
    && Extends(app, r.data) && |r.replies| == 1 && r.replies[0].tone != Some(Warning)
    && r.replies[0].tone != Some(Error)
  }

  function WarnWith(app: ApplicationData, text: Text): MasterResult {
    MasterResult([Reply(text, Some(Warning))], app, None)
  }

  function RejectWith(app: ApplicationData, text: Text): MasterResult {
    MasterResult([Reply(text, Some(Error))], app.(stage := Stage.Rejected), None)
  }

  function AdvanceTo(data: ApplicationData, text: Text): MasterResult {
    MasterResult([Reply(text, None)], data, None)
  }

  function AtGreeting(message: string, app: ApplicationData): (r: MasterResult)
    requires app.stage == Greeting
    ensures |r.replies| == 1 && r.trigger.None?
    ensures WellFormed(app) ==> WellFormed(r.data) && Extends(app, r.data)
    ensures WellFormed(app) ==> Advanced(r, app)
    ensures !RejectedNow(r, app)
  {
    AdvanceTo(app.(name := Some(message), stage := CollectAge), AskAge(message))
  }

  function AtCity(message: string, app: ApplicationData): (r: MasterResult)
    requires app.stage == CollectCity
    ensures |r.replies| == 1 && r.trigger.None?
    ensures WellFormed(app) ==> WellFormed(r.data) && Extends(app, r.data)
    ensures WellFormed(app) ==> Advanced(r, app)
    ensures !RejectedNow(r, app)
  {
    AdvanceTo(app.(city := Some(message), stage := CollectPhone), AskPhone(message))
  }

  function AtAge(message: string, app: ApplicationData): (r: MasterResult)
    requires app.stage == CollectAge
    ensures |r.replies| == 1 && r.trigger.None?
    ensures WellFormed(app) ==> WellFormed(r.data) && Extends(app, r.data)
    ensures WellFormed(app) ==> Warned(r, app) || RejectedNow(r, app) || Advanced(r, app)
  {
    var age := ParseInt(message);
    if age.None? || age.value < 18 || age.value > 100 then WarnWith(app, InvalidAge)
    else if age.value < 21 then RejectWith(app, Underage)
    else AdvanceTo(app.(age := Some(age.value), stage := CollectEmployment), AskEmployment)
  }

  function AtEmployment(message: string, app: ApplicationData): (r: MasterResult)
    requires app.stage == CollectEmployment
    ensures |r.replies| == 1 && r.trigger.None?
    ensures WellFormed(app) ==> WellFormed(r.data) && Extends(app, r.data)
    ensures WellFormed(app) ==> Warned(r, app) || RejectedNow(r, app) || Advanced(r, app)
  {
    var answer := ToLower(message);
    if Contains(answer, "salaried") then
      AdvanceTo(app.(employmentType := Some(Salaried), stage := CollectIncome), AskIncome(Salaried))
    else if Contains(answer, "self") || Contains(answer, "business") then
      AdvanceTo(app.(employmentType := Some(SelfEmployed), stage := CollectIncome), AskIncome(SelfEmployed))
    else if Contains(answer, "unemployed") || Contains(answer, "no") then
      RejectWith(app, NoStableIncome)
    else
      WarnWith(app, SpecifyEmployment)
  }

  function AtIncome(message: string, app: ApplicationData): (r: MasterResult)
    requires app.stage == CollectIncome
    ensures |r.replies| == 1 && r.trigger.None?
    ensures WellFormed(app) ==> WellFormed(r.data) && Extends(app, r.data)
    ensures WellFormed(app) ==> Warned(r, app) || RejectedNow(r, app) || Advanced(r, app)
  {
    var income := ParseAmount(message);
    if income.None? || income.value <= 0.0 then WarnWith(app, InvalidIncome)
    else if income.value < 15000.0 then RejectWith(app, IncomeBelowMinimum(income.value))
    else AdvanceTo(app.(monthlyIncome := Some(income.value), stage := CollectExistingEmi), AskExistingEmi)
  }

  function AtExistingEmi(message: string, app: ApplicationData): (r: MasterResult)
    requires app.stage == CollectExistingEmi
    ensures |r.replies| == 1 && r.trigger.None?
    ensures WellFormed(app) ==> WellFormed(r.data) && Extends(app, r.data)
    ensures WellFormed(app) ==> Warned(r, app) || Advanced(r, app)
    ensures !RejectedNow(r, app)
  {
    var emi := ParseAmount(message);
    if emi.None? || emi.value < 0.0 then WarnWith(app, InvalidExistingEmi)
    else AdvanceTo(app.(existingEmi := Some(emi.value), stage := CollectLoanAmount), AskLoanAmount(emi.value))
  }

  function AtLoanAmount(message: string, app: ApplicationData): (r: MasterResult)
    requires app.stage == CollectLoanAmount
    ensures |r.replies| == 1 && r.trigger.None?
    ensures WellFormed(app) ==> WellFormed(r.data) && Extends(app, r.data)
    ensures WellFormed(app) ==> Warned(r, app) || Advanced(r, app)
    ensures !RejectedNow(r, app)
  {
    var amount := ParseAmount(message);
    if amount.None? || amount.value <= 0.0 then WarnWith(app, InvalidLoanAmount)
    else if amount.value < 10000.0 then WarnWith(app, LoanAmountBelowMinimum)
    else AdvanceTo(app.(loanAmount := Some(amount.value), stage := CollectCity), AskCity(amount.value))
  }

  function AtPhone(message: string, app: ApplicationData): (r: MasterResult)
    requires app.stage == CollectPhone
    ensures |r.replies| == 1
    ensures WellFormed(app) ==> WellFormed(r.data) && Extends(app, r.data)
    ensures WellFormed(app) ==> Warned(r, app) || Advanced(r, app)
    ensures !RejectedNow(r, app)
    ensures r.trigger.Some? <==> r.data.stage == DataCollectionComplete
    ensures r.trigger.Some? ==> r.trigger == Some(Sales)
  {
    var phone := DigitsOnly(message);
    if |phone| < 10 then WarnWith(app, InvalidPhone)
    else
      var data := app.(phone := Some(phone), stage := DataCollectionComplete);
      MasterResult([Reply(CollectionSummary(data), Some(Success))], data, Some(Sales))
  }

  /**
   * `MasterAgent.process`: one message at the current stage. At a collection stage the
   * outcome is a warning, a rejection or one step of progress; at any other stage the record
   * is returned unchanged with the fallback reply. Either way there is exactly one reply,
   * and on a well-formed record the journey invariant is kept and no collected field is
   * overwritten.
   */
  function Step(message: string, app: ApplicationData): (r: MasterResult)
    ensures |r.replies| == 1
    ensures WellFormed(app) ==> WellFormed(r.data)
    ensures WellFormed(app) ==> Extends(app, r.data)
    ensures WellFormed(app) && Collecting(app.stage) ==> Warned(r, app) || RejectedNow(r, app) || Advanced(r, app)
    ensures RejectedNow(r, app) ==> app.stage in {CollectAge, CollectEmployment, CollectIncome}
    ensures !Collecting(app.stage) ==> r == MasterResult([Reply(NotUnderstood, None)], app, None)
    ensures r.trigger.Some? <==> r.data.stage == DataCollectionComplete && app.stage == CollectPhone
    ensures r.trigger.Some? ==> r.trigger == Some(Sales)
  {
    match app.stage
    case Greeting => AtGreeting(message, app)
    case CollectAge => AtAge(message, app)
    case CollectEmployment => AtEmployment(message, app)
    case CollectIncome => AtIncome(message, app)
    case CollectExistingEmi => AtExistingEmi(message, app)
    case CollectLoanAmount => AtLoanAmount(message, app)
    case CollectCity => AtCity(message, app)
    case CollectPhone => AtPhone(message, app)
    case _ => MasterResult([Reply(NotUnderstood, None)], app, None)
  }

  /**
   * The agent as written: copy the record, test the stage, assign fields on the copy and
   * push one response.
   */
  method Process(message: string, currentData: ApplicationData)
    returns (responses: seq<Reply>, applicationData: ApplicationData, triggerAgent: Option<AgentKind>)
    ensures MasterResult(responses, applicationData, triggerAgent) == Step(message, currentData)
  {
    responses := [];
    applicationData := currentData;
    triggerAgent := None;

    if applicationData.stage == Greeting {
      assert Step(message, currentData) == AtGreeting(message, currentData);
      applicationData := applicationData.(name := Some(message), stage := CollectAge);
      responses := responses + [Reply(AskAge(message), None)];
      return;
    }

    if applicationData.stage == CollectAge {
      assert Step(message, currentData) == AtAge(message, currentData);
      var age := ParseInt(message);
      if age.None? || age.value < 18 || age.value > 100 {
        responses := responses + [Reply(InvalidAge, Some(Warning))];
        return;
      }
      if age.value < 21 {
        applicationData := applicationData.(stage := Stage.Rejected);
        responses := responses + [Reply(Underage, Some(Error))];
        return;
      }
      applicationData := applicationData.(age := Some(age.value), stage := CollectEmployment);
      responses := responses + [Reply(AskEmployment, None)];
      return;
    }

    if applicationData.stage == CollectEmployment {
      assert Step(message, currentData) == AtEmployment(message, currentData);
      var employment := ToLower(message);
      var employmentType;
      if Contains(employment, "salaried") {
        employmentType := Salaried;
      } else if Contains(employment, "self") || Contains(employment, "business") {
        employmentType := SelfEmployed;
      } else if Contains(employment, "unemployed") || Contains(employment, "no") {
        applicationData := applicationData.(stage := Stage.Rejected);
        responses := responses + [Reply(NoStableIncome, Some(Error))];
        return;
      } else {
        responses := responses + [Reply(SpecifyEmployment, Some(Warning))];
        return;
      }
      applicationData := applicationData.(employmentType := Some(employmentType), stage := CollectIncome);
      responses := responses + [Reply(AskIncome(employmentType), None)];
      return;
    }

    if applicationData.stage == CollectIncome {
      assert Step(message, currentData) == AtIncome(message, currentData);
      var income := ParseAmount(message);
      if income.None? || income.value <= 0.0 {
        responses := responses + [Reply(InvalidIncome, Some(Warning))];
        return;
      }
      if income.value < 15000.0 {
        applicationData := applicationData.(stage := Stage.Rejected);
        responses := responses + [Reply(IncomeBelowMinimum(income.value), Some(Error))];
        return;
      }
      applicationData := applicationData.(monthlyIncome := Some(income.value), stage := CollectExistingEmi);
      responses := responses + [Reply(AskExistingEmi, None)];
      return;
    }

    if applicationData.stage == CollectExistingEmi {
      assert Step(message, currentData) == AtExistingEmi(message, currentData);
      var emi := ParseAmount(message);
      if emi.None? || emi.value < 0.0 {
        responses := responses + [Reply(InvalidExistingEmi, Some(Warning))];
        return;
      }
      applicationData := applicationData.(existingEmi := Some(emi.value), stage := CollectLoanAmount);
      responses := responses + [Reply(AskLoanAmount(emi.value), None)];
      return;
    }

    if applicationData.stage == CollectLoanAmount {
      assert Step(message, currentData) == AtLoanAmount(message, currentData);
      var amount := ParseAmount(message);
      if amount.None? || amount.value <= 0.0 {
        responses := responses + [Reply(InvalidLoanAmount, Some(Warning))];
        return;
      }
      if amount.value < 10000.0 {
        responses := responses + [Reply(LoanAmountBelowMinimum, Some(Warning))];
        return;
      }
      applicationData := applicationData.(loanAmount := Some(amount.value), stage := CollectCity);
      responses := responses + [Reply(AskCity(amount.value), None)];
      return;
    }

    if applicationData.stage == CollectCity {
      assert Step(message, currentData) == AtCity(message, currentData);
      applicationData := applicationData.(city := Some(message), stage := CollectPhone);
      responses := responses + [Reply(AskPhone(message), None)];
      return;
    }

    if applicationData.stage == CollectPhone {
      assert Step(message, currentData) == AtPhone(message, currentData);
      var phone := DigitsOnly(message);
      if |phone| < 10 {
        responses := responses + [Reply(InvalidPhone, Some(Warning))];
        return;
      }
      applicationData := applicationData.(phone := Some(phone), stage := DataCollectionComplete);
      responses := responses + [Reply(CollectionSummary(applicationData), Some(Success))];
      triggerAgent := Some(Sales);
      return;
    }

    responses := responses + [Reply(NotUnderstood, None)];
  }

  // ---------------------------------------------------------------- properties of one answer

  /** At `greeting` whatever is typed becomes the name, verbatim. */
  lemma NameStoredVerbatim(message: string, app: ApplicationData)
    requires app.stage == Greeting
    ensures Step(message, app).data == app.(name := Some(message), stage := CollectAge)
  {
  }

  /**
   * Every age answer, by what `parseInt` reads from it: `NaN` or a number outside 18..100
   * warns and changes nothing, 18..20 rejects without storing the age, 21..100 is stored.
   */
  lemma AgeAnswer(message: string, app: ApplicationData)
    requires app.stage == CollectAge
    ensures var r := Step(message, app);
            var age := ParseInt(message);
            && (age.None? || age.value < 18 || age.value > 100 ==> Warned(r, app) && r.replies[0].text == InvalidAge)
            && (age.Some? && 18 <= age.value < 21 ==>
                  RejectedNow(r, app) && r.data.age == app.age && r.replies[0].text == Underage)
            && (age.Some? && 21 <= age.value <= 100 ==>
                  r.data == app.(age := age, stage := CollectEmployment) && r.replies == [Reply(AskEmployment, None)])
  {
  }

  /** A negative age such as `"-5"` is read by `parseInt` and refused with a warning. */
  lemma NegativeAgeWarns(n: nat, rest: string, app: ApplicationData)
    requires app.stage == CollectAge
    requires rest == [] || !IsDigit(rest[0])
    ensures Warned(Step("-" + NatString(n) + rest, app), app)
  {
    ParseIntOfNegativeNumeral(n, rest);
  }

  /**
   * Every employment answer, by the keywords its lower-cased text contains, tested in the
   * order the code tests them: "salaried"; "self" or "business"; "unemployed" or "no";
   * anything else only warns.
   */
  lemma EmploymentDecision(message: string, app: ApplicationData)
    requires app.stage == CollectEmployment
    ensures var r := Step(message, app);
            var a := ToLower(message);
            var salaried := Contains(a, "salaried");
            var self := Contains(a, "self") || Contains(a, "business");
            var none := Contains(a, "unemployed") || Contains(a, "no");
            && (salaried ==> r.data == app.(employmentType := Some(Salaried), stage := CollectIncome)
                             && r.replies == [Reply(AskIncome(Salaried), None)])
            && (!salaried && self ==> r.data == app.(employmentType := Some(SelfEmployed), stage := CollectIncome)
                                      && r.replies == [Reply(AskIncome(SelfEmployed), None)])
            && (!salaried && !self && none ==> RejectedNow(r, app) && r.replies[0].text == NoStableIncome)
            && (!salaried && !self && !none ==> Warned(r, app) && r.replies[0].text == SpecifyEmployment)
  {
  }

  /**
   * "salaried" is tested first: an answer containing the word in any case ("Salaried") is
   * recorded as salaried whatever else it says, even "not self-employed, no business".
   */
  lemma SalariedTestedFirst(before: string, word: string, after: string, app: ApplicationData)
    requires app.stage == CollectEmployment && ToLower(word) == "salaried"
    ensures Step(before + word + after, app).data
         == app.(employmentType := Some(Salaried), stage := CollectIncome)
  {
    TypedWordFound(before, word, after, "salaried");
  }

  /**
   * "Self" (as in "Self-employed") or "business", in any case, records self-employment and
   * wins over the rejecting words.
   */
  lemma SelfEmploymentBeforeRejection(before: string, word: string, after: string, app: ApplicationData)
    requires app.stage == CollectEmployment
    requires ToLower(word) == "self" || ToLower(word) == "business"
    requires !Contains(ToLower(before + word + after), "salaried")
    ensures Step(before + word + after, app).data
         == app.(employmentType := Some(SelfEmployed), stage := CollectIncome)
  {
    TypedWordFound(before, word, after, ToLower(word));
  }

  /** "unemployed" or "no" in an answer without the earlier keywords rejects the application. */
  lemma NoMeansNoIncome(before: string, word: string, after: string, app: ApplicationData)
    requires app.stage == CollectEmployment
    requires ToLower(word) == "unemployed" || ToLower(word) == "no"
    requires var answer := ToLower(before + word + after);
             !Contains(answer, "salaried") && !Contains(answer, "self") && !Contains(answer, "business")
    ensures RejectedNow(Step(before + word + after, app), app)
    ensures Step(before + word + after, app).replies[0].text == NoStableIncome
  {
    TypedWordFound(before, word, after, ToLower(word));
  }

  /**
   * Every income answer, by what `parseFloat` reads once the stripped characters are gone:
   * `NaN` or a non-positive amount warns, below 15,000 rejects without storing it, and
   * otherwise it is stored.
   */
  lemma IncomeAnswer(message: string, app: ApplicationData)
    requires app.stage == CollectIncome
    ensures var r := Step(message, app);
            var income := ParseAmount(message);
            && (income.None? || income.value <= 0.0 ==> Warned(r, app) && r.replies[0].text == InvalidIncome)
            && (income.Some? && 0.0 < income.value < 15000.0 ==>
                  RejectedNow(r, app) && r.data.monthlyIncome == app.monthlyIncome
                  && r.replies[0].text == IncomeBelowMinimum(income.value))
            && (income.Some? && income.value >= 15000.0 ==>
                  r.data == app.(monthlyIncome := income, stage := CollectExistingEmi)
                  && r.replies == [Reply(AskExistingEmi, None)])
  {
  }

  /** A comma anywhere in an amount is ignored. */
  lemma CommasIgnored(a: string, b: string)
    ensures ParseAmount(a + "," + b) == ParseAmount(a + b)
  {
    RemoveAllAppend(a + ",", b, StrippedChars);
    RemoveAllAppend(a, ",", StrippedChars);
    RemoveAllAppend(a, b, StrippedChars);
    assert RemoveAll(",", StrippedChars) == [];
    assert RemoveAll(a + ",", StrippedChars) == RemoveAll(a, StrippedChars);
    assert RemoveAll(a + "," + b, StrippedChars) == RemoveAll(a + b, StrippedChars);
  }

  /**
   * An amount typed with commas between thousands groups (`"50,000"`), followed by anything
   * that does not continue the number, reads as its value.
   */
  lemma GroupedAmountParses(n: nat, rest: string)
    requires forall i :: 0 <= i < |rest| ==> rest[i] !in StrippedChars
    requires rest == [] || (!IsDigit(rest[0]) && rest[0] != '.' && rest[0] != 'e' && rest[0] != 'E')
    ensures ParseAmount(Grouped(n) + rest) == Some(n as real)
  {
    RemoveAllAppend(Grouped(n), rest, StrippedChars);
    GroupedStripsToNumeral(n);
    RemoveAllKeeps(rest, StrippedChars);
    ParseFloatOfNumeral(n, rest);
  }

  /** Dropping the commas of a grouped numeral leaves the plain numeral. */
  lemma {:induction false} GroupedStripsToNumeral(n: nat)
    ensures RemoveAll(Grouped(n), StrippedChars) == NatString(n)
  {
    if n < 1000 {
      NumeralSurvivesStripping(n, []);
      assert NatString(n) + [] == NatString(n);
    } else {
      var head, tail := Grouped(n / 1000), ThreeDigits(n % 1000);
      RemoveAllAppend(head + ",", tail, StrippedChars);
      RemoveAllAppend(head, ",", StrippedChars);
      assert RemoveAll(",", StrippedChars) == [];
      GroupedStripsToNumeral(n / 1000);
      RemoveAllKeeps(tail, StrippedChars);
      NatStringThousands(n);
    }
  }

  /** The example the income question gives, written with a comma, reads as 50,000. */
  lemma FiftyThousandWithComma()
    ensures ParseAmount("50,000") == Some(50000.0)
  {
    assert NatString(5) == "5";
    assert NatString(50) == "50";
    assert ThreeDigits(0) == "000";
    assert Grouped(50000) == "50,000";
    GroupedAmountParses(50000, []);
    assert Grouped(50000) + [] == "50,000";
  }

  /** Removing the stripped characters leaves a numeral and the text after it alone. */
  lemma NumeralSurvivesStripping(n: nat, rest: string)
    requires forall i :: 0 <= i < |rest| ==> rest[i] !in StrippedChars
    ensures RemoveAll(NatString(n) + rest, StrippedChars) == NatString(n) + rest
  {
    var s := NatString(n) + rest;
    forall i | 0 <= i < |s|
      ensures s[i] !in StrippedChars
    {
      if i < |NatString(n)| {
        assert IsDigit(NatString(n)[i]);
      } else {
        assert s[i] == rest[i - |NatString(n)|];
      }
    }
    RemoveAllKeeps(s, StrippedChars);
  }

  /**
   * The rupee sign the reply text asks for is not among the stripped characters, so an
   * income typed as `₹50000` reads as `NaN` and is refused with a warning.
   */
  lemma RupeePrefixedIncomeRefused(rest: string, app: ApplicationData)
    requires app.stage == CollectIncome
    ensures Warned(Step([RupeeSign] + rest, app), app)
    ensures Step([RupeeSign] + rest, app).replies[0].text == InvalidIncome
  {
    RemoveAllAppend([RupeeSign], rest, StrippedChars);
    assert RemoveAll([RupeeSign], StrippedChars) == [RupeeSign];
    ParseFloatRefusesLeading(RupeeSign, RemoveAll(rest, StrippedChars));
  }

  /** A positive loan amount below 10,000 only warns; it never rejects. */
  lemma SmallLoanAmountOnlyWarns(message: string, app: ApplicationData)
    requires app.stage == CollectLoanAmount
    requires ParseAmount(message).Some? && 0.0 < ParseAmount(message).value < 10000.0
    ensures Warned(Step(message, app), app)
    ensures Step(message, app).replies[0].text == LoanAmountBelowMinimum
  {
  }

  /**
   * The phone stored is the digits of the answer; the step completes collection and
   * starts the sales agent exactly when there are at least ten of them.
   */
  lemma PhoneAnswer(message: string, app: ApplicationData)
    requires app.stage == CollectPhone
    ensures var r := Step(message, app);
            && (|DigitsOnly(message)| >= 10 <==> r.trigger == Some(Sales))
            && (|DigitsOnly(message)| >= 10 ==> r.data == app.(phone := Some(DigitsOnly(message)), stage := DataCollectionComplete))
            && (|DigitsOnly(message)| < 10 ==> Warned(r, app))
  {
  }

  /** Once rejected, every further message gets the fallback reply and changes nothing. */
  lemma RejectedIsAbsorbing(message: string, app: ApplicationData)
    requires app.stage == Stage.Rejected
    ensures Step(message, app) == MasterResult([Reply(NotUnderstood, None)], app, None)
  {
  }
}
