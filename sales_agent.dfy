/**
 * The sales agent: started once collection is complete, it asks for the loan purpose, then
 * the tenure (6 to 60 months), then a yes or no on the interest-rate terms.
 */
module SalesAgent {
  import opened Common
  import opened Strings
  import opened Records

  /** `{ responses, applicationData }`. */
  datatype SalesResult = SalesResult(replies: seq<Reply>, data: ApplicationData)

  /** The stages at which `handleResponse` does something. */
  predicate Answering(s: Stage) {
    s in {SalesCollectPurpose, SalesCollectTenure, SalesInterestConfirmation}
  }

  /**
   * `SalesAgent.process`: one introduction naming the customer, and the record moved to the
   * purpose question with every collected field kept.
   */
  function Begin(app: ApplicationData): (r: SalesResult)
    ensures |r.replies| == 1 && r.replies[0].tone.None?
    ensures r.data.stage == SalesCollectPurpose
    ensures WellFormed(app) && app.stage == DataCollectionComplete ==> WellFormed(r.data) && Extends(app, r.data)
  {
    SalesResult([Reply(SalesWelcome(app.name), None)], app.(stage := SalesCollectPurpose))
  }

  function AtTenure(message: string, app: ApplicationData): (r: SalesResult)
    requires app.stage == SalesCollectTenure
    ensures |r.replies| == 1
    ensures WellFormed(app) ==> WellFormed(r.data) && Extends(app, r.data)
  {
    var tenure := ParseInt(message);
    if tenure.None? || tenure.value < 6 || tenure.value > 60 then
      SalesResult([Reply(AskValidTenure, Some(Warning))], app)
    else
      SalesResult([Reply(InterestTerms(tenure.value), None)],
                  app.(tenure := Some(tenure.value), stage := SalesInterestConfirmation))
  }

  function AtInterestConfirmation(message: string, app: ApplicationData): (r: SalesResult)
    requires app.stage == SalesInterestConfirmation
    ensures |r.replies| == 1
    ensures WellFormed(app) ==> WellFormed(r.data) && Extends(app, r.data)
  {
    var acceptance := ToLower(message);
    if Contains(acceptance, "no") || Contains(acceptance, "decline") then
      SalesResult([Reply(OfferDeclined, Some(Error))], app.(stage := Stage.Rejected))
    else if Contains(acceptance, "yes") || Contains(acceptance, "accept") || Contains(acceptance, "agree") then
      SalesResult([Reply(TermsAccepted, Some(Success))],
                  app.(acceptedInterest := Some(true), stage := SalesAgentComplete))
    else
      SalesResult([Reply(AskYesNo, Some(Warning))], app)
  }

  /**
   * `SalesAgent.handleResponse`: one reply at each of the three question stages, none at any
   * other stage, where the record comes back unchanged. It only ever rejects at the
   * interest confirmation, and on a well-formed record it keeps the invariant and every
   * collected field.
   */
  function Step(message: string, app: ApplicationData): (r: SalesResult)
    ensures Answering(app.stage) <==> |r.replies| == 1
    ensures !Answering(app.stage) ==> r == SalesResult([], app)
    ensures WellFormed(app) ==> WellFormed(r.data) && Extends(app, r.data)
    ensures r.data.stage == Stage.Rejected && app.stage != Stage.Rejected ==> app.stage == SalesInterestConfirmation
    ensures r.data.stage == SalesAgentComplete && app.stage != SalesAgentComplete ==> r.data.acceptedInterest == Some(true)
  {
    match app.stage
    case SalesCollectPurpose =>
      SalesResult([Reply(AskTenure(message), None)],
                  app.(loanPurpose := Some(message), stage := SalesCollectTenure))
    case SalesCollectTenure => AtTenure(message, app)
    case SalesInterestConfirmation => AtInterestConfirmation(message, app)
    case _ => SalesResult([], app)
  }

  /** `process` as written: copy the record, push the introduction, set the stage. */
  method Process(data: ApplicationData) returns (responses: seq<Reply>, applicationData: ApplicationData)
    ensures SalesResult(responses, applicationData) == Begin(data)
  {
    responses := [];
    applicationData := data;
    responses := responses + [Reply(SalesWelcome(applicationData.name), None)];
    applicationData := applicationData.(stage := SalesCollectPurpose);
  }

  /** `handleResponse` as written: test the stage, assign on the copy, push a response. */
  method HandleResponse(message: string, data: ApplicationData)
    returns (responses: seq<Reply>, applicationData: ApplicationData)
    ensures SalesResult(responses, applicationData) == Step(message, data)
  {
    responses := [];
    applicationData := data;

    if applicationData.stage == SalesCollectPurpose {
      applicationData := applicationData.(loanPurpose := Some(message), stage := SalesCollectTenure);
      responses := responses + [Reply(AskTenure(message), None)];
      return;
    }

    if applicationData.stage == SalesCollectTenure {
      var tenure := ParseInt(message);
      if tenure.None? || tenure.value < 6 || tenure.value > 60 {
        responses := responses + [Reply(AskValidTenure, Some(Warning))];
        return;
      }
      applicationData := applicationData.(tenure := Some(tenure.value), stage := SalesInterestConfirmation);
      responses := responses + [Reply(InterestTerms(tenure.value), None)];
      return;
    }

    if applicationData.stage == SalesInterestConfirmation {
      var acceptance := ToLower(message);
      if Contains(acceptance, "no") || Contains(acceptance, "decline") {
        applicationData := applicationData.(stage := Stage.Rejected);
        responses := responses + [Reply(OfferDeclined, Some(Error))];
        return;
      }
      if Contains(acceptance, "yes") || Contains(acceptance, "accept") || Contains(acceptance, "agree") {
        applicationData := applicationData.(acceptedInterest := Some(true), stage := SalesAgentComplete);
        responses := responses + [Reply(TermsAccepted, Some(Success))];
        return;
      }
      responses := responses + [Reply(AskYesNo, Some(Warning))];
      return;
    }
  }

  // ---------------------------------------------------------------- properties of one answer

  /** The purpose is stored verbatim and the tenure question follows. */
  lemma PurposeStoredVerbatim(message: string, app: ApplicationData)
    requires app.stage == SalesCollectPurpose
    ensures Step(message, app).data == app.(loanPurpose := Some(message), stage := SalesCollectTenure)
  {
  }

  /**
   * Every tenure answer, by what `parseInt` reads from it: 6 to 60 is stored and the
   * interest terms follow; `NaN` or anything else warns and changes nothing.
   */
  lemma TenureAnswer(message: string, app: ApplicationData)
    requires app.stage == SalesCollectTenure
    ensures var r := Step(message, app);
            var tenure := ParseInt(message);
            && (tenure.Some? && 6 <= tenure.value <= 60 ==>
                  r.data == app.(tenure := tenure, stage := SalesInterestConfirmation)
                  && r.replies == [Reply(InterestTerms(tenure.value), None)])
            && (tenure.None? || tenure.value < 6 || tenure.value > 60 ==>
                  r.data == app && r.replies == [Reply(AskValidTenure, Some(Warning))])
  {
  }

  /**
   * Every reply to the interest terms, by the keywords its lower-cased text contains, in the
   * order the code tests them: "no" or "decline" refuses; otherwise "yes", "accept" or
   * "agree" accepts; anything else warns and changes nothing.
   */
  lemma InterestDecision(message: string, app: ApplicationData)
    requires app.stage == SalesInterestConfirmation
    ensures var r := Step(message, app);
            var a := ToLower(message);
            var refuses := Contains(a, "no") || Contains(a, "decline");
            var accepts := Contains(a, "yes") || Contains(a, "accept") || Contains(a, "agree");
            && (refuses ==> r.data == app.(stage := Stage.Rejected) && r.replies == [Reply(OfferDeclined, Some(Error))])
            && (!refuses && accepts ==>
                  r.data == app.(acceptedInterest := Some(true), stage := SalesAgentComplete)
                  && r.replies == [Reply(TermsAccepted, Some(Success))])
            && (!refuses && !accepts ==> r.data == app && r.replies == [Reply(AskYesNo, Some(Warning))])
  {
  }

  /**
   * The refusal test runs first: a reply containing "no" or "decline" in any case is a
   * refusal even when it also says yes ("Yes, no problem"), or when the letters sit inside
   * another word ("I don't know").
   */
  lemma DeclineBeatsAccept(before: string, word: string, after: string, app: ApplicationData)
    requires app.stage == SalesInterestConfirmation
    requires ToLower(word) == "no" || ToLower(word) == "decline"
    ensures var r := Step(before + word + after, app);
            r.data == app.(stage := Stage.Rejected) && r.replies == [Reply(OfferDeclined, Some(Error))]
  {
    TypedWordFound(before, word, after, ToLower(word));
  }

  /** "Yes", "accept" or "agree", in any case, with no refusing word in the reply accepts the terms. */
  lemma AcceptWithoutDecline(before: string, word: string, after: string, app: ApplicationData)
    requires app.stage == SalesInterestConfirmation
    requires ToLower(word) == "yes" || ToLower(word) == "accept" || ToLower(word) == "agree"
    requires var reply := ToLower(before + word + after);
             !Contains(reply, "no") && !Contains(reply, "decline")
    ensures var r := Step(before + word + after, app);
            && r.data == app.(acceptedInterest := Some(true), stage := SalesAgentComplete)
            && r.replies == [Reply(TermsAccepted, Some(Success))]
  {
    TypedWordFound(before, word, after, ToLower(word));
  }
}
