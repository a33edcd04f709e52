/**
 * The journey orchestrator (`useLoanJourney`): it holds the current record, the chat
 * transcript and the sanction shown, routes each user message by the stage's `sales_`
 * prefix, chains the automatic hand-offs (sales, verification, underwriting, sanction) and
 * saves each terminal outcome to the application store. Timers and rendering are left out;
 * what the clock, `Math.random` and storage yield in a turn is an `Environment`.
 */
module LoanJourney {
  import opened Common
  import opened Records
  import Strings
  import LoanCalculations
  import MasterAgent
  import SalesAgent
  import VerificationAgent
  import UnderwritingAgent
  import SanctionAgent
  import opened ApplicationStorage

  /** One entry of the transcript. */
  datatype ChatMessage = UserSaid(content: string) | BotSaid(text: Text, tone: Option<Tone>)

  /**
   * What one turn reads from outside: the verification draw, the credit-score draw, the
   * clock in milliseconds, the id's random suffix, the timestamp a save records, the date the
   * sanction letter is issued on, and whether writing to storage succeeds.
   */
  datatype Environment = Environment(
    verificationDraw: real,
    scoreDraw: real,
    millis: nat,
    idSuffix: string,
    now: string,
    issueDate: string,
    storageWritable: bool)

  /** The hook's state, together with what the store holds. */
  datatype Session = Session(
    data: ApplicationData,
    messages: seq<ChatMessage>,
    sanction: Option<SanctionData>,
    showSanctionLetter: bool,
    applicationId: Option<string>,
    stored: Stored)

  /** The state after some processing, and whether an exception escaped it. */
  datatype Progress = Progress(session: Session, raised: bool)

  /** The opening state: the welcome message and stage `greeting`. */
  function InitialSession(stored: Stored): (s: Session)
    ensures s.data.stage == Greeting && WellFormed(s.data) && s.messages == [BotSaid(Welcome, None)]
    ensures !s.showSanctionLetter && s.sanction.None? && s.applicationId.None?
  {
    Session(InitialData(), [BotSaid(Welcome, None)], None, false, None, stored)
  }

  /** The agents' replies as bot messages, in order. */
  function Bot(replies: seq<Reply>): (m: seq<ChatMessage>)
    ensures |m| == |replies|
    ensures forall i :: 0 <= i < |replies| ==> m[i] == BotSaid(replies[i].text, replies[i].tone)
  {
    if replies == [] then []
    else Bot(replies[..|replies| - 1]) + [BotSaid(replies[|replies| - 1].text, replies[|replies| - 1].tone)]
  }

  /** The name is present and not empty: the truthiness test before a rejection is saved. */
  predicate HasName(d: ApplicationData) {
    d.name.Some? && |d.name.value| > 0
  }

  /** The content of the last reply, or the fallback text when there is none. */
  function RejectionMessage(replies: seq<Reply>): (r: RejectionReason)
    ensures r == ApplicationRejected <==> replies == []
    ensures replies != [] ==> r == LastReply(replies[|replies| - 1].text)
    ensures r.LastReply? ==> Bot(replies)[|replies| - 1] == BotSaid(r.text, replies[|replies| - 1].tone)
  {
    if |replies| == 0 then ApplicationRejected else LastReply(replies[|replies| - 1].text)
  }

  /** The store gained exactly one record at the end. */
  predicate SavedOne(before: Stored, after: Stored) {
    after.Records? && |after.applications| > 0
    && after == Appended(before, after.applications[|after.applications| - 1])
  }

  predicate AtMostOneSaved(before: Stored, after: Stored) {
    after == before || SavedOne(before, after)
  }

  /** The letter is shown exactly when there is a sanction to show. */
  predicate LetterConsistent(s: Session) {
    s.showSanctionLetter <==> s.sanction.Some?
  }

  /**
   * The hook's invariant: a well-formed record, and the letter shown exactly when there is
   * a sanction, which only a completed application has.
   */
  predicate Consistent(s: Session) {
    WellFormed(s.data) && LetterConsistent(s) && (s.showSanctionLetter ==> s.data.stage == Completed)
  }

  /**
   * What every piece of processing keeps: the record ends well formed, the transcript only
   * grows, at most one application is saved, none when storage cannot be written, an
   * exception only comes from storage, and the letter stays consistent.
   */
  predicate Follows(s: Session, p: Progress, env: Environment) {
    && WellFormed(p.session.data)
    && s.messages <= p.session.messages
    && AtMostOneSaved(s.stored, p.session.stored)
    && (!env.storageWritable ==> p.session.stored == s.stored && p.session.applicationId == s.applicationId)
    && (p.raised ==> !env.storageWritable)
    && (LetterConsistent(s) ==> LetterConsistent(p.session))
    && (p.session.showSanctionLetter && !s.showSanctionLetter ==> p.session.data.stage == Completed)
  }

  /** The id a save in this turn gets. */
  function TurnId(env: Environment): string {
    NewId(env.millis, env.idSuffix)
  }

  /** The agent's replies shown and its record stored. */
  function Shown(s: Session, replies: seq<Reply>, d: ApplicationData): (t: Session)
    ensures t.messages == s.messages + Bot(replies) && s.messages <= t.messages
    ensures t == s.(data := d, messages := t.messages)
  {
    s.(data := d, messages := s.messages + Bot(replies))
  }

  /**
   * Save a rejected application and tell the customer its id; when writing fails the
   * exception escapes with nothing saved.
   */
  function SaveRejected(s: Session, d: ApplicationData, reason: RejectionReason, env: Environment): (p: Progress)
    ensures p.raised == !env.storageWritable
    ensures p.raised ==> p.session == s
    ensures !p.raised ==> p.session == s.(
              stored := Appended(s.stored, NewRecord(TurnId(env), d, ApplicationStatus.Rejected, None, Some(reason), env.now)),
              applicationId := Some(TurnId(env)),
              messages := s.messages + [BotSaid(ApplicationIdNotice(TurnId(env)), None)])
    ensures WellFormed(s.data) ==> Follows(s, p, env)
  {
    if !env.storageWritable then Progress(s, true)
    else
      var id := TurnId(env);
      Progress(s.(stored := Appended(s.stored, NewRecord(id, d, ApplicationStatus.Rejected, None, Some(reason), env.now)),
                  applicationId := Some(id),
                  messages := s.messages + [BotSaid(ApplicationIdNotice(id), None)]),
               false)
  }

  /** The sales agent started on complete data: its greeting, and the first sales question. */
  function SalesWorker(d: ApplicationData, s: Session): (p: Progress)
    requires WellFormed(d) && d.stage == DataCollectionComplete
    ensures p == Progress(Shown(s, SalesAgent.Begin(d).replies, SalesAgent.Begin(d).data), false)
    ensures p.session.data.stage == SalesCollectPurpose
    ensures forall env: Environment :: Follows(s, p, env)
  {
    var r := SalesAgent.Begin(d);
    Progress(Shown(s, r.replies, r.data), false)
  }

  /**
   * The sanction agent on an approved record: the letter issued, the application saved as
   * approved and its id announced; when the save throws, the record is completed but no
   * letter is shown.
   */
  function SanctionWorker(d: ApplicationData, s: Session, env: Environment): (p: Progress)
    requires WellFormed(d) && d.stage == UnderwritingApproved
    ensures p.raised == !env.storageWritable
    ensures var shown := Shown(s, SanctionAgent.Step(d, env.issueDate).replies, d.(stage := Completed));
            var letter := SanctionAgent.Terms(d, env.issueDate);
            && (p.raised ==> p.session == shown)
            && (!p.raised ==> p.session == shown.(
                  stored := Appended(s.stored, NewRecord(TurnId(env), d.(stage := Completed), ApplicationStatus.Approved, Some(letter), None, env.now)),
                  applicationId := Some(TurnId(env)),
                  sanction := Some(letter),
                  showSanctionLetter := true,
                  messages := shown.messages + [BotSaid(SanctionIdNotice(TurnId(env)), None)]))
    ensures Follows(s, p, env)
  {
    FilledReadyForSanction(d, 13);
    var r := SanctionAgent.Step(d, env.issueDate);
    var s1 := Shown(s, r.replies, r.data);
    if !env.storageWritable then Progress(s1, true)
    else
      var id := TurnId(env);
      Progress(s1.(stored := Appended(s1.stored, NewRecord(id, r.data, ApplicationStatus.Approved, Some(r.sanction), None, env.now)),
                   applicationId := Some(id),
                   sanction := Some(r.sanction),
                   showSanctionLetter := true,
                   messages := s1.messages + [BotSaid(SanctionIdNotice(id), None)]),
               false)
  }

  /**
   * The underwriting agent on a verified record: a rejection is saved with the eligibility
   * justification as its reason, an approval goes on to the sanction agent.
   */
  function UnderwritingWorker(d: ApplicationData, s: Session, env: Environment): (p: Progress)
    requires WellFormed(d) && d.stage == VerificationComplete
    ensures Follows(s, p, env)
  {
    FilledReadyForUnderwriting(d, 12);
    var r := UnderwritingAgent.Step(d, env.scoreDraw);
    var s1 := Shown(s, r.replies, r.data);
    if r.data.stage == UnderwritingRejected then
      SaveRejected(s1, r.data, EligibilityJustification(r.data.eligibilityResult.value.justification), env)
    else
      SanctionWorker(r.data, s1, env)
  }

  /** The verification agent: on success underwriting follows, on failure the turn ends. */
  function VerificationWorker(d: ApplicationData, s: Session, env: Environment): (p: Progress)
    requires WellFormed(d) && d.stage == SalesAgentComplete
    ensures Follows(s, p, env)
  {
    var r := VerificationAgent.Step(d, env.verificationDraw);
    var s1 := Shown(s, r.replies, r.data);
    if r.data.stage == VerificationComplete then UnderwritingWorker(r.data, s1, env)
    else Progress(s1, false)
  }

  /** The stage at which each worker agent is started. */
  function EntryStage(agent: AgentKind): Stage {
    match agent
    case Sales => DataCollectionComplete
    case Verification => SalesAgentComplete
    case Underwriting => VerificationComplete
    case Sanction => UnderwritingApproved
  }

  /** How many further hand-offs a worker agent can start. */
  function Rank(agent: AgentKind): nat {
    match agent
    case Verification => 2
    case Underwriting => 1
    case _ => 0
  }

  /**
   * `handleWorkerAgent`: run one agent on `d`, show its replies, store its record, and go on
   * to the next agent or save the outcome.
   */
  function Worker(agent: AgentKind, d: ApplicationData, s: Session, env: Environment): (p: Progress)
    requires WellFormed(d) && d.stage == EntryStage(agent)
    ensures Follows(s, p, env)
  {
    match agent
    case Sales => SalesWorker(d, s)
    case Verification => VerificationWorker(d, s, env)
    case Underwriting => UnderwritingWorker(d, s, env)
    case Sanction => SanctionWorker(d, s, env)
  }

  /** After an agent's turn: a named applicant's rejection is saved, unless an exception already escaped. */
  function SaveIfRejected(p: Progress, rejected: ApplicationData, replies: seq<Reply>, env: Environment): (q: Progress)
    requires WellFormed(p.session.data)
    ensures q.session.stored != p.session.stored ==> !p.raised && rejected.stage == Stage.Rejected && HasName(rejected)
    ensures !p.raised && rejected.stage == Stage.Rejected && HasName(rejected) && env.storageWritable ==>
              && q.session.stored == Appended(p.session.stored, NewRecord(TurnId(env), rejected, ApplicationStatus.Rejected,
                                                                         None, Some(RejectionMessage(replies)), env.now))
              && q.session.applicationId == Some(TurnId(env)) && !q.raised
    ensures q.raised ==> p.raised || !env.storageWritable
    ensures AtMostOneSaved(p.session.stored, q.session.stored)
  {
    if p.raised then p
    else if rejected.stage == Stage.Rejected && HasName(rejected) then
      SaveRejected(p.session, rejected, RejectionMessage(replies), env)
    else p
  }

  /** The branch for stages starting with `sales_`. */
  function SalesTurn(s: Session, message: string, env: Environment): (p: Progress)
    requires WellFormed(s.data)
    ensures Follows(s, p, env)
    ensures s.messages + Bot(SalesAgent.Step(message, s.data).replies) <= p.session.messages
  {
    var r := SalesAgent.Step(message, s.data);
    var s1 := Shown(s, r.replies, r.data);
    var p := if r.data.stage == SalesAgentComplete then VerificationWorker(r.data, s1, env) else Progress(s1, false);
    SaveIfRejected(p, r.data, r.replies, env)
  }

  /** The branch for every other stage, `rejected` included. */
  function MasterTurn(s: Session, message: string, env: Environment): (p: Progress)
    requires WellFormed(s.data)
    ensures Follows(s, p, env)
    ensures s.messages + Bot(MasterAgent.Step(message, s.data).replies) <= p.session.messages
  {
    var r := MasterAgent.Step(message, s.data);
    var s1 := Shown(s, r.replies, r.data);
    var p := if r.trigger.Some? then SalesWorker(r.data, s1) else Progress(s1, false);
    SaveIfRejected(p, r.data, r.replies, env)
  }

  /**
   * `handleUserMessage`: record the user's message, route it by the stage prefix, and turn
   * an escaping exception into an apology. The invariant is kept, the transcript grows from
   * the user's message on, and at most one application is saved per turn.
   */
  function Turn(s: Session, message: string, env: Environment): (t: Session)
    requires WellFormed(s.data)
    ensures Consistent(s) ==> Consistent(t)
    ensures WellFormed(t.data)
    ensures s.messages + [UserSaid(message)] <= t.messages
    ensures AtMostOneSaved(s.stored, t.stored)
    ensures !env.storageWritable ==> t.stored == s.stored && t.applicationId == s.applicationId
  {
    SalesPrefixIffSalesStage(s.data.stage);
    var s0 := s.(messages := s.messages + [UserSaid(message)]);
    var p := if "sales_" <= s.data.stage.Name() then SalesTurn(s0, message, env) else MasterTurn(s0, message, env);
    if p.raised then p.session.(messages := p.session.messages + [BotSaid(Apology, Some(Error))])
    else p.session
  }

  // ---------------------------------------------------------------- properties of a turn

  /**
   * Routing: after the user's message comes the first reply of the sales agent when the
   * stage starts with `sales_` and has a question open, and of the master agent otherwise.
   */
  lemma RoutedByStagePrefix(s: Session, message: string, env: Environment)
    requires WellFormed(s.data)
    ensures var t := Turn(s, message, env);
            && |t.messages| > |s.messages| + 1
            && t.messages[|s.messages|] == UserSaid(message)
            && (!s.data.stage.IsSales() ==>
                  var r := MasterAgent.Step(message, s.data).replies[0];
                  t.messages[|s.messages| + 1] == BotSaid(r.text, r.tone))
            && (SalesAgent.Answering(s.data.stage) ==>
                  var r := SalesAgent.Step(message, s.data).replies[0];
                  t.messages[|s.messages| + 1] == BotSaid(r.text, r.tone))
  {
    SalesPrefixIffSalesStage(s.data.stage);
    var t := Turn(s, message, env);
    var s0 := s.messages + [UserSaid(message)];
    assert t.messages[|s.messages|] == s0[|s.messages|];
    if s.data.stage.IsSales() {
      var r := SalesAgent.Step(message, s.data);
      TurnShowsSalesReplies(s, message, env);
      if SalesAgent.Answering(s.data.stage) {
        assert t.messages[|s.messages| + 1] == (s0 + Bot(r.replies))[|s0|];
      } else {
        assert r.replies == [];
        assert t.messages != s0;
      }
    } else {
      var r := MasterAgent.Step(message, s.data);
      TurnShowsMasterReplies(s, message, env);
      assert t.messages[|s.messages| + 1] == (s0 + Bot(r.replies))[|s0|];
    }
  }

  /** Outside the sales stages the master agent's replies follow the user's message. */
  lemma TurnShowsMasterReplies(s: Session, message: string, env: Environment)
    requires WellFormed(s.data) && !s.data.stage.IsSales()
    ensures s.messages + [UserSaid(message)] + Bot(MasterAgent.Step(message, s.data).replies)
            <= Turn(s, message, env).messages
  {
    SalesPrefixIffSalesStage(s.data.stage);
  }

  /** At a sales stage the sales agent's replies follow the user's message. */
  lemma TurnShowsSalesReplies(s: Session, message: string, env: Environment)
    requires WellFormed(s.data) && s.data.stage.IsSales()
    ensures s.messages + [UserSaid(message)] + Bot(SalesAgent.Step(message, s.data).replies)
            <= Turn(s, message, env).messages
  {
    SalesPrefixIffSalesStage(s.data.stage);
  }

  /**
   * A rejection by the master agent is saved under the applicant's name with the agent's
   * last reply as the reason, and the new id is announced.
   */
  lemma MasterRejectionIsSaved(s: Session, message: string, env: Environment)
    requires WellFormed(s.data) && !s.data.stage.IsSales() && env.storageWritable
    requires var r := MasterAgent.Step(message, s.data);
             r.data.stage == Stage.Rejected && HasName(r.data)
    ensures var r := MasterAgent.Step(message, s.data);
            var t := Turn(s, message, env);
            && t.data == r.data
            && t.stored == Appended(s.stored, NewRecord(TurnId(env), r.data, ApplicationStatus.Rejected, None,
                                                        Some(LastReply(r.replies[0].text)), env.now))
            && t.applicationId == Some(TurnId(env))
            && t.messages == s.messages + [UserSaid(message)] + Bot(r.replies)
                             + [BotSaid(ApplicationIdNotice(TurnId(env)), None)]
  {
    SalesPrefixIffSalesStage(s.data.stage);
  }

  /**
   * Once rejected, every further message is answered by the master agent's fallback and
   * saves the same application again, with that fallback as the reason.
   */
  lemma RejectedApplicationSavedAgain(s: Session, message: string, env: Environment)
    requires WellFormed(s.data) && s.data.stage == Stage.Rejected && HasName(s.data) && env.storageWritable
    ensures var t := Turn(s, message, env);
            && t.data == s.data
            && t.stored == Appended(s.stored, NewRecord(TurnId(env), s.data, ApplicationStatus.Rejected, None,
                                                        Some(LastReply(NotUnderstood)), env.now))
            && t.applicationId == Some(TurnId(env))
  {
    assert !s.data.stage.IsSales();
    MasterRejectionIsSaved(s, message, env);
  }

  /** A rejection of an applicant whose name is empty is never saved. */
  lemma UnnamedRejectionNotSaved(s: Session, message: string, env: Environment)
    requires WellFormed(s.data) && !s.data.stage.IsSales()
    requires var r := MasterAgent.Step(message, s.data);
             r.data.stage == Stage.Rejected && !HasName(r.data)
    ensures var t := Turn(s, message, env);
            t.stored == s.stored && t.applicationId == s.applicationId && t.data.stage == Stage.Rejected
  {
    SalesPrefixIffSalesStage(s.data.stage);
  }

  /**
   * When storage cannot be written, a rejection that would be saved ends the turn with the
   * apology instead: nothing saved, no id, the agent's replies still shown.
   */
  lemma StorageFailureApologises(s: Session, message: string, env: Environment)
    requires WellFormed(s.data) && !s.data.stage.IsSales() && !env.storageWritable
    requires var r := MasterAgent.Step(message, s.data);
             r.data.stage == Stage.Rejected && HasName(r.data)
    ensures var r := MasterAgent.Step(message, s.data);
            var t := Turn(s, message, env);
            && t.data == r.data && t.stored == s.stored && t.applicationId == s.applicationId
            && t.messages == s.messages + [UserSaid(message)] + Bot(r.replies) + [BotSaid(Apology, Some(Error))]
  {
    SalesPrefixIffSalesStage(s.data.stage);
  }

  /**
   * A master step that completes collection triggers the sales agent in the same turn: its
   * first question follows the master agent's replies, and nothing is saved.
   */
  lemma TriggerStartsSales(s: Session, message: string, env: Environment)
    requires WellFormed(s.data) && !s.data.stage.IsSales()
    requires MasterAgent.Step(message, s.data).trigger.Some?
    ensures var r := MasterAgent.Step(message, s.data);
            var t := Turn(s, message, env);
            && t.data == SalesAgent.Begin(r.data).data
            && t.data.stage == SalesCollectPurpose
            && t.stored == s.stored && t.applicationId == s.applicationId
            && t.messages == s.messages + [UserSaid(message)] + Bot(r.replies) + Bot(SalesAgent.Begin(r.data).replies)
  {
    SalesPrefixIffSalesStage(s.data.stage);
  }

  /**
   * A declined offer whose save throws: the rejected record and the decline reply are kept,
   * nothing is saved, and the turn ends with the apology.
   */
  lemma DeclineSaveFailureApologises(s: Session, message: string, env: Environment)
    requires WellFormed(s.data) && s.data.stage.IsSales() && !env.storageWritable
    requires var r := SalesAgent.Step(message, s.data);
             r.data.stage == Stage.Rejected && HasName(r.data)
    ensures var r := SalesAgent.Step(message, s.data);
            var t := Turn(s, message, env);
            && t.data == r.data && t.stored == s.stored && t.applicationId == s.applicationId
            && t.messages == s.messages + [UserSaid(message)] + Bot(r.replies) + [BotSaid(Apology, Some(Error))]
  {
    SalesPrefixIffSalesStage(s.data.stage);
  }

  /** The record verification passes to underwriting after an accepted offer. */
  function Accepted(s: Session): ApplicationData {
    s.data.(acceptedInterest := Some(true), stage := VerificationComplete)
  }

  /**
   * The offer accepted but the CRM check failing (a name under three UTF-16 code units, or the
   * draw at 0.95 or above): the turn stops at `verification_failed` and nothing is saved.
   */
  lemma VerificationFailureSavesNothing(s: Session, message: string, env: Environment)
    requires WellFormed(s.data) && s.data.stage == SalesInterestConfirmation
    requires SalesAgent.Step(message, s.data).data.stage == SalesAgentComplete
    requires Strings.Utf16Length(s.data.name.value) < 3 || env.verificationDraw >= 0.95
    ensures var t := Turn(s, message, env);
            && t.data == s.data.(acceptedInterest := Some(true), stage := VerificationFailed)
            && t.stored == s.stored && t.applicationId == s.applicationId
            && t.sanction == s.sanction && t.showSanctionLetter == s.showSanctionLetter
  {
    SalesPrefixIffSalesStage(s.data.stage);
    var r := SalesAgent.Step(message, s.data);
    assert r.data == s.data.(acceptedInterest := Some(true), stage := SalesAgentComplete);
  }

  /**
   * The offer accepted, verified, and refused by underwriting: the record carries the score
   * and eligibility, and it is saved as rejected with the eligibility justification.
   */
  lemma UnderwritingRejectionIsSaved(s: Session, message: string, env: Environment)
    requires WellFormed(s.data) && s.data.stage == SalesInterestConfirmation && env.storageWritable
    requires SalesAgent.Step(message, s.data).data.stage == SalesAgentComplete
    requires Strings.Utf16Length(s.data.name.value) >= 3 && env.verificationDraw < 0.95
    requires ReadyForUnderwriting(s.data)
    requires UnderwritingAgent.EligibilityFor(s.data, UnderwritingAgent.CreditScore(s.data, env.scoreDraw)).decision
             == LoanCalculations.Decision.Rejected
    ensures var score := UnderwritingAgent.CreditScore(s.data, env.scoreDraw);
            var e := UnderwritingAgent.EligibilityFor(s.data, score);
            var t := Turn(s, message, env);
            && t.data == s.data.(acceptedInterest := Some(true), creditScore := Some(score),
                                 eligibilityResult := Some(e), stage := UnderwritingRejected)
            && t.stored == Appended(s.stored, NewRecord(TurnId(env), t.data, ApplicationStatus.Rejected, None,
                                                        Some(EligibilityJustification(e.justification)), env.now))
            && t.applicationId == Some(TurnId(env))
            && t.sanction == s.sanction && t.showSanctionLetter == s.showSanctionLetter
  {
    SalesPrefixIffSalesStage(s.data.stage);
    var r := SalesAgent.Step(message, s.data);
    assert r.data == s.data.(acceptedInterest := Some(true), stage := SalesAgentComplete);
    var v := VerificationAgent.Step(r.data, env.verificationDraw);
    assert v.data == Accepted(s);
    assert UnderwritingAgent.CreditScore(v.data, env.scoreDraw) == UnderwritingAgent.CreditScore(s.data, env.scoreDraw);
  }

  /**
   * The offer accepted, verified, and approved (burden at most 50% and score at least 650):
   * the sanction letter is issued and shown, and the application is saved as approved with it.
   */
  lemma AcceptedApplicationIsSanctioned(s: Session, message: string, env: Environment)
    requires WellFormed(s.data) && s.data.stage == SalesInterestConfirmation && env.storageWritable
    requires SalesAgent.Step(message, s.data).data.stage == SalesAgentComplete
    requires Strings.Utf16Length(s.data.name.value) >= 3 && env.verificationDraw < 0.95
    requires ReadyForUnderwriting(s.data)
    requires LoanCalculations.EmiToIncomeRatio(s.data.monthlyIncome.value, s.data.existingEmi.value,
                                               s.data.loanAmount.value, s.data.tenure.value) <= 50.0
    requires UnderwritingAgent.CreditScore(s.data, env.scoreDraw) >= 650
    ensures var score := UnderwritingAgent.CreditScore(s.data, env.scoreDraw);
            var e := UnderwritingAgent.EligibilityFor(s.data, score);
            var t := Turn(s, message, env);
            && t.data == s.data.(acceptedInterest := Some(true), creditScore := Some(score),
                                 eligibilityResult := Some(e), stage := Completed)
            && t.sanction.Some? && t.sanction.value.approvedAmount == e.approvedAmount
            && t.sanction.value.interestRate == SanctionAgent.DetermineInterestRate(score)
            && t.sanction.value.dateOfIssue == env.issueDate
            && t.showSanctionLetter
            && t.stored == Appended(s.stored, NewRecord(TurnId(env), t.data, ApplicationStatus.Approved, t.sanction,
                                                        None, env.now))
            && t.applicationId == Some(TurnId(env))
  {
    SalesPrefixIffSalesStage(s.data.stage);
    var r := SalesAgent.Step(message, s.data);
    assert r.data == s.data.(acceptedInterest := Some(true), stage := SalesAgentComplete);
    var v := VerificationAgent.Step(r.data, env.verificationDraw);
    assert v.data == Accepted(s);
    assert UnderwritingAgent.CreditScore(v.data, env.scoreDraw) == UnderwritingAgent.CreditScore(s.data, env.scoreDraw);
    UnderwritingAgent.UnderwritingDecision(v.data, env.scoreDraw);
  }

  /** A verified record whose underwriting is refused, on a store that cannot be written: the save raises. */
  lemma UnderwritingRejectionRaises(d: ApplicationData, s: Session, env: Environment)
    requires WellFormed(d) && d.stage == VerificationComplete && !env.storageWritable
    requires UnderwritingAgent.Step(d, env.scoreDraw).data.stage == UnderwritingRejected
    ensures var u := UnderwritingAgent.Step(d, env.scoreDraw);
            UnderwritingWorker(d, s, env) == Progress(Shown(s, u.replies, u.data), true)
  {
  }

  /**
   * A verified record that underwriting approves, on a store that cannot be written: the
   * sanction agent completes the record and the save raises.
   */
  lemma UnderwritingApprovalRaises(d: ApplicationData, s: Session, env: Environment)
    requires WellFormed(d) && d.stage == VerificationComplete && !env.storageWritable
    requires UnderwritingAgent.Step(d, env.scoreDraw).data.stage == UnderwritingApproved
    ensures var u := UnderwritingAgent.Step(d, env.scoreDraw);
            var p := UnderwritingWorker(d, s, env);
            && p.raised
            && p.session == Shown(Shown(s, u.replies, u.data), SanctionAgent.Step(u.data, env.issueDate).replies,
                                  u.data.(stage := Completed))
  {
  }

  /** An accepted offer that passes the CRM check goes on to underwriting with `Accepted(s)`. */
  lemma AcceptedOfferReachesUnderwriting(s: Session, message: string, env: Environment)
    requires WellFormed(s.data) && s.data.stage == SalesInterestConfirmation
    requires SalesAgent.Step(message, s.data).data.stage == SalesAgentComplete
    requires Strings.Utf16Length(s.data.name.value) >= 3 && env.verificationDraw < 0.95
    ensures var s0 := s.(messages := s.messages + [UserSaid(message)]);
            var r := SalesAgent.Step(message, s.data);
            var v := VerificationAgent.Step(r.data, env.verificationDraw);
            && v.data == Accepted(s)
            && SalesTurn(s0, message, env)
               == SaveIfRejected(UnderwritingWorker(v.data, Shown(Shown(s0, r.replies, r.data), v.replies, v.data), env),
                                 r.data, r.replies, env)
  {
    var r := SalesAgent.Step(message, s.data);
    assert r.data == s.data.(acceptedInterest := Some(true), stage := SalesAgentComplete);
  }

  /**
   * The offer accepted, verified and refused by underwriting, but the save throws: the
   * assessed record is kept, nothing is saved, and the turn ends with the apology.
   */
  lemma UnderwritingSaveFailureApologises(s: Session, message: string, env: Environment)
    requires WellFormed(s.data) && s.data.stage == SalesInterestConfirmation && !env.storageWritable
    requires SalesAgent.Step(message, s.data).data.stage == SalesAgentComplete
    requires Strings.Utf16Length(s.data.name.value) >= 3 && env.verificationDraw < 0.95
    requires ReadyForUnderwriting(s.data)
    requires UnderwritingAgent.EligibilityFor(s.data, UnderwritingAgent.CreditScore(s.data, env.scoreDraw)).decision
             == LoanCalculations.Decision.Rejected
    ensures var score := UnderwritingAgent.CreditScore(s.data, env.scoreDraw);
            var e := UnderwritingAgent.EligibilityFor(s.data, score);
            var t := Turn(s, message, env);
            && t.data == s.data.(acceptedInterest := Some(true), creditScore := Some(score),
                                 eligibilityResult := Some(e), stage := UnderwritingRejected)
            && t.stored == s.stored && t.applicationId == s.applicationId
            && t.sanction == s.sanction && t.showSanctionLetter == s.showSanctionLetter
            && t.messages[|t.messages| - 1] == BotSaid(Apology, Some(Error))
  {
    SalesPrefixIffSalesStage(s.data.stage);
    AcceptedOfferReachesUnderwriting(s, message, env);
    var r := SalesAgent.Step(message, s.data);
    var v := VerificationAgent.Step(r.data, env.verificationDraw);
    assert UnderwritingAgent.CreditScore(v.data, env.scoreDraw) == UnderwritingAgent.CreditScore(s.data, env.scoreDraw);
    var s0 := s.(messages := s.messages + [UserSaid(message)]);
    UnderwritingRejectionRaises(v.data, Shown(Shown(s0, r.replies, r.data), v.replies, v.data), env);
  }

  /**
   * The offer accepted, verified and approved, but saving the approved application throws:
   * the record is completed, no letter is shown, nothing is saved, and the turn ends with
   * the apology.
   */
  lemma SanctionSaveFailureApologises(s: Session, message: string, env: Environment)
    requires WellFormed(s.data) && s.data.stage == SalesInterestConfirmation && !env.storageWritable
    requires SalesAgent.Step(message, s.data).data.stage == SalesAgentComplete
    requires Strings.Utf16Length(s.data.name.value) >= 3 && env.verificationDraw < 0.95
    requires ReadyForUnderwriting(s.data)
    requires LoanCalculations.EmiToIncomeRatio(s.data.monthlyIncome.value, s.data.existingEmi.value,
                                               s.data.loanAmount.value, s.data.tenure.value) <= 50.0
    requires UnderwritingAgent.CreditScore(s.data, env.scoreDraw) >= 650
    ensures var score := UnderwritingAgent.CreditScore(s.data, env.scoreDraw);
            var e := UnderwritingAgent.EligibilityFor(s.data, score);
            var t := Turn(s, message, env);
            && t.data == s.data.(acceptedInterest := Some(true), creditScore := Some(score),
                                 eligibilityResult := Some(e), stage := Completed)
            && t.stored == s.stored && t.applicationId == s.applicationId
            && t.sanction == s.sanction && t.showSanctionLetter == s.showSanctionLetter
            && t.messages[|t.messages| - 1] == BotSaid(Apology, Some(Error))
  {
    SalesPrefixIffSalesStage(s.data.stage);
    AcceptedOfferReachesUnderwriting(s, message, env);
    var r := SalesAgent.Step(message, s.data);
    var v := VerificationAgent.Step(r.data, env.verificationDraw);
    assert UnderwritingAgent.CreditScore(v.data, env.scoreDraw) == UnderwritingAgent.CreditScore(s.data, env.scoreDraw);
    UnderwritingAgent.UnderwritingDecision(v.data, env.scoreDraw);
    var s0 := s.(messages := s.messages + [UserSaid(message)]);
    UnderwritingApprovalRaises(v.data, Shown(Shown(s0, r.replies, r.data), v.replies, v.data), env);
  }

  // ---------------------------------------------------------------- the hook as a class

  class Journey {
    var data: ApplicationData
    var messages: seq<ChatMessage>
    var sanction: Option<SanctionData>
    var showSanctionLetter: bool
    var applicationId: Option<string>
    var store: ApplicationStore

    function State(): Session
      reads this, store
    {
      Session(data, messages, sanction, showSanctionLetter, applicationId, store.stored)
    }

    /** The state `useState` starts with, over an existing store. */
    constructor(store: ApplicationStore)
      ensures this.store == store
      ensures State() == InitialSession(store.stored)
    {
      data := InitialData();
      messages := [BotSaid(Welcome, None)];
      sanction := None;
      showSanctionLetter := false;
      applicationId := None;
      this.store := store;
    }

    /** `addMessage`. */
    method AddMessage(m: ChatMessage)
      modifies this
      ensures store == old(store)
      ensures State() == old(State()).(messages := old(messages) + [m])
    {
      messages := messages + [m];
    }

    /** The loop over `result.responses` that shows each reply. */
    method AddResponses(responses: seq<Reply>)
      modifies this
      ensures store == old(store)
      ensures State() == old(State()).(messages := old(messages) + Bot(responses))
    {
      for i := 0 to |responses|
        invariant store == old(store)
        invariant State() == old(State()).(messages := old(messages) + Bot(responses[..i]))
      {
        assert responses[..i + 1][..i] == responses[..i];
        AddMessage(BotSaid(responses[i].text, responses[i].tone));
      }
      assert responses[..|responses|] == responses;
    }

    /** Save a rejection and announce its id; `true` when the save threw. */
    method SaveRejection(d: ApplicationData, reason: RejectionReason, env: Environment) returns (raised: bool)
      modifies this, store
      ensures store == old(store)
      ensures Progress(State(), raised) == SaveRejected(old(State()), d, reason, env)
    {
      var appId := store.SaveApplication(d, ApplicationStatus.Rejected, None, Some(reason),
                                         env.millis, env.idSuffix, env.now, env.storageWritable);
      if appId.None? {
        return true;
      }
      applicationId := appId;
      AddMessage(BotSaid(ApplicationIdNotice(appId.value), None));
      return false;
    }

    /** `handleWorkerAgent`: the switch over the agent; `true` when an exception escaped. */
    method HandleWorkerAgent(agent: AgentKind, d: ApplicationData, env: Environment) returns (raised: bool)
      requires WellFormed(d) && d.stage == EntryStage(agent)
      modifies this, store
      ensures store == old(store)
      ensures Progress(State(), raised) == Worker(agent, d, old(State()), env)
      decreases Rank(agent), 1
    {
      match agent
      case Sales => raised := RunSales(d);
      case Verification => raised := RunVerification(d, env);
      case Underwriting => raised := RunUnderwriting(d, env);
      case Sanction => raised := RunSanction(d, env);
    }

    /** The `sales` case. */
    method RunSales(d: ApplicationData) returns (raised: bool)
      requires WellFormed(d) && d.stage == DataCollectionComplete
      modifies this
      ensures store == old(store)
      ensures Progress(State(), raised) == SalesWorker(d, old(State()))
    {
      var responses, result := SalesAgent.Process(d);
      AddResponses(responses);
      data := result;
      raised := false;
    }

    /** The `verification` case: underwriting is started when the record is verified. */
    method RunVerification(d: ApplicationData, env: Environment) returns (raised: bool)
      requires WellFormed(d) && d.stage == SalesAgentComplete
      modifies this, store
      ensures store == old(store)
      ensures Progress(State(), raised) == VerificationWorker(d, old(State()), env)
      decreases Rank(Verification), 0
    {
      var responses, result := VerificationAgent.Process(d, env.verificationDraw);
      data := result;
      AddResponses(responses);
      raised := false;
      if result.stage == VerificationComplete {
        raised := HandleWorkerAgent(Underwriting, result, env);
      }
    }

    /** The `underwriting` case: a rejection is saved, an approval goes on to sanction. */
    method RunUnderwriting(d: ApplicationData, env: Environment) returns (raised: bool)
      requires WellFormed(d) && d.stage == VerificationComplete
      modifies this, store
      ensures store == old(store)
      ensures Progress(State(), raised) == UnderwritingWorker(d, old(State()), env)
      decreases Rank(Underwriting), 0
    {
      FilledReadyForUnderwriting(d, 12);
      var responses, result := UnderwritingAgent.Process(d, env.scoreDraw);
      data := result;
      AddResponses(responses);
      raised := false;
      if result.stage == UnderwritingRejected {
        raised := SaveRejection(result, EligibilityJustification(result.eligibilityResult.value.justification), env);
      }
      if result.stage == UnderwritingApproved {
        raised := HandleWorkerAgent(Sanction, result, env);
      }
    }

    /** The `sanction` case: the letter is saved as an approved application and shown. */
    method RunSanction(d: ApplicationData, env: Environment) returns (raised: bool)
      requires WellFormed(d) && d.stage == UnderwritingApproved
      modifies this, store
      ensures store == old(store)
      ensures Progress(State(), raised) == SanctionWorker(d, old(State()), env)
    {
      FilledReadyForSanction(d, 13);
      var responses, result, sanctionData := SanctionAgent.Process(d, env.issueDate);
      data := result;
      AddResponses(responses);
      var appId := store.SaveApplication(result, ApplicationStatus.Approved, Some(sanctionData), None,
                                         env.millis, env.idSuffix, env.now, env.storageWritable);
      if appId.None? {
        return true;
      }
      applicationId := appId;
      sanction := Some(sanctionData);
      showSanctionLetter := true;
      AddMessage(BotSaid(SanctionIdNotice(appId.value), None));
      raised := false;
    }

    /** `handleUserMessage`: the user's message, then the branch its stage selects, then the apology when an exception escaped. */
    method HandleUserMessage(message: string, env: Environment)
      requires WellFormed(data)
      modifies this, store
      ensures store == old(store)
      ensures State() == Turn(old(State()), message, env)
    {
      AddMessage(UserSaid(message));
      var raised;
      if "sales_" <= data.stage.Name() {
        raised := HandleSalesMessage(message, env);
      } else {
        raised := HandleMasterMessage(message, env);
      }
      if raised {
        AddMessage(BotSaid(Apology, Some(Error)));
      }
    }

    /** The sales branch: the sales agent answers; verification follows an accepted offer. */
    method HandleSalesMessage(message: string, env: Environment) returns (raised: bool)
      requires WellFormed(data)
      modifies this, store
      ensures store == old(store)
      ensures Progress(State(), raised) == SalesTurn(old(State()), message, env)
    {
      var responses, result := SalesAgent.HandleResponse(message, data);
      data := result;
      AddResponses(responses);
      raised := false;
      if result.stage == SalesAgentComplete {
        raised := HandleWorkerAgent(Verification, result, env);
      }
      if !raised && result.stage == Stage.Rejected && HasName(result) {
        raised := SaveRejection(result, RejectionMessage(responses), env);
      }
    }

    /** The master branch: the master agent answers; the sales agent follows complete data. */
    method HandleMasterMessage(message: string, env: Environment) returns (raised: bool)
      requires WellFormed(data)
      modifies this, store
      ensures store == old(store)
      ensures Progress(State(), raised) == MasterTurn(old(State()), message, env)
    {
      var responses, result, triggerAgent := MasterAgent.Process(message, data);
      data := result;
      AddResponses(responses);
      raised := false;
      if triggerAgent.Some? {
        raised := HandleWorkerAgent(triggerAgent.value, result, env);
      }
      if !raised && result.stage == Stage.Rejected && HasName(result) {
        raised := SaveRejection(result, RejectionMessage(responses), env);
      }
    }
  }
}
