/**
 * The verification agent: format checks on the phone and the name, then a simulated CRM
 * lookup that succeeds 95% of the time. The random draw is a parameter.
 */
module VerificationAgent {
  import opened Common
  import opened Strings
  import opened Records

  /** `{ status: 'verified' }` or `{ status: 'failed', message }`. */
  datatype CrmResult = Verified | Failed(reason: CrmFailure)

  /**
   * `mockCRMVerification`, given the value `Math.random()` returned. The phone is checked
   * first, then the name, then the draw; verified exactly when all three pass. Lengths are
   * JavaScript's: UTF-16 code units.
   */
  function MockCrmVerification(app: ApplicationData, draw: real): (r: CrmResult)
    ensures r == Verified <==>
              && app.phone.Some? && Utf16Length(app.phone.value) >= 10
              && app.name.Some? && Utf16Length(app.name.value) >= 3
              && draw < 0.95
    ensures app.phone.None? || Utf16Length(app.phone.value) < 10 ==> r == Failed(InvalidPhoneFormat)
    ensures app.phone.Some? && Utf16Length(app.phone.value) >= 10 && (app.name.None? || Utf16Length(app.name.value) < 3)
            ==> r == Failed(NameValidationFailed)
    ensures r == Failed(NotFoundInDatabase) ==> draw >= 0.95
  {
    if app.phone.None? || Utf16Length(app.phone.value) < 10 then Failed(InvalidPhoneFormat)
    else if app.name.None? || Utf16Length(app.name.value) < 3 then Failed(NameValidationFailed)
    else if draw < 0.95 then Verified
    else Failed(NotFoundInDatabase)
  }

  datatype VerificationResult = VerificationResult(replies: seq<Reply>, data: ApplicationData)

  /**
   * `VerificationAgent.process`: always two replies, the announcement and the outcome; the
   * stage becomes `verification_complete` or `verification_failed` and nothing else changes.
   */
  function Step(app: ApplicationData, draw: real): (r: VerificationResult)
    ensures |r.replies| == 2 && r.replies[0] == Reply(VerificationStarted, None)
    ensures MockCrmVerification(app, draw) == Verified ==> r.data == app.(stage := VerificationComplete)
    ensures MockCrmVerification(app, draw) != Verified ==> r.data == app.(stage := VerificationFailed)
    ensures r.replies[1].tone == Some(Success) <==> r.data.stage == VerificationComplete
    ensures WellFormed(app) && app.stage == SalesAgentComplete ==> WellFormed(r.data)
  {
    var announcement := Reply(VerificationStarted, None);
    match MockCrmVerification(app, draw)
    case Verified =>
      VerificationResult([announcement, Reply(IdentityVerified(app), Some(Success))],
                         app.(stage := VerificationComplete))
    case Failed(reason) =>
      VerificationResult([announcement, Reply(VerificationIssue(reason), Some(Error))],
                         app.(stage := VerificationFailed))
  }

  /** `process` as written: push the announcement, run the check, set the stage on the copy. */
  method Process(data: ApplicationData, draw: real) returns (responses: seq<Reply>, applicationData: ApplicationData)
    ensures VerificationResult(responses, applicationData) == Step(data, draw)
  {
    responses := [];
    applicationData := data;
    responses := responses + [Reply(VerificationStarted, None)];
    var verificationResult := MockCrmVerification(applicationData, draw);
    if verificationResult == Verified {
      responses := responses + [Reply(IdentityVerified(applicationData), Some(Success))];
      applicationData := applicationData.(stage := VerificationComplete);
    } else {
      responses := responses + [Reply(VerificationIssue(verificationResult.reason), Some(Error))];
      applicationData := applicationData.(stage := VerificationFailed);
    }
  }

  /**
   * On a record the journey hands over, the phone check always passes (the master agent only
   * stores ten digits or more): the outcome depends on the name's length and the draw alone.
   */
  lemma JourneyRecordPassesPhoneCheck(app: ApplicationData, draw: real)
    requires WellFormed(app) && app.stage == SalesAgentComplete
    ensures MockCrmVerification(app, draw) != Failed(InvalidPhoneFormat)
    ensures Step(app, draw).data.stage == VerificationComplete <==> Utf16Length(app.name.value) >= 3 && draw < 0.95
  {
    Utf16LengthOfDigits(app.phone.value);
  }

  /**
   * A name of two characters from outside the Basic Multilingual Plane is four code units
   * long, so it passes the three-character name check.
   */
  lemma TwoAstralCharactersPassNameCheck(app: ApplicationData, draw: real)
    requires app.phone.Some? && ValidPhone(app.phone.value) && draw < 0.95
    requires app.name.Some? && |app.name.value| == 2
    requires forall i :: 0 <= i < |app.name.value| ==> (app.name.value[i] as int) >= 0x1_0000
    ensures MockCrmVerification(app, draw) == Verified
  {
    Utf16LengthOfDigits(app.phone.value);
    Utf16LengthOfAstral(app.name.value);
  }
}
