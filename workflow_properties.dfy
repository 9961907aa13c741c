/**
 * Properties of a chat turn: which branch of the stage dispatch runs, what
 * each branch stores and answers, and what the turn leaves alone.
 */
module WorkflowProperties {
  import opened Common
  import opened Text
  import opened Models
  import opened Agents
  import opened AgentProperties
  import opened Workflow

  // ------------------------------------------------------------- dispatch

  /** The stages whose chat turn only reminds the user what to do. */
  predicate WaitingStage(code: string)
  {
    code == StageCode(PanVerification) || code == StageCode(SelfieVerification)
    || code == StageCode(SalaryVerification) || code == StageCode(Completed) || code == StageCode(Stage.Rejected)
  }

  lemma DispatchGreeting(s: SessionRecord, t: Tables, o: ChatOracles)
    requires s.stage == StageCode(Greeting) || s.stage == StageCode(NameCollection)
    ensures StageStep(s, t, o) == GreetingStep(s, t, o)
  {
    StageCodeRoundTrip(Greeting);
    StageCodeRoundTrip(NameCollection);
  }

  lemma DispatchPanCollection(s: SessionRecord, t: Tables, o: ChatOracles)
    requires s.stage == StageCode(PanCollection)
    ensures StageStep(s, t, o) == Some(PanCollectionStep(s, t, o))
  {
    StageCodeRoundTrip(PanCollection);
  }

  lemma DispatchLoanDetails(s: SessionRecord, t: Tables, o: ChatOracles)
    requires s.stage == StageCode(LoanDetails)
    ensures StageStep(s, t, o) == LoanDetailsStep(s, t, o)
  {
    StageCodeRoundTrip(LoanDetails);
  }

  /**
   * A stage that only reminds, once parsed, leaves the session and the
   * tables as they are. The three verification stages ask for their own
   * upload, the salary slip from the underwriting agent; a closed
   * application answers with the generated text and asks for nothing.
   */
  lemma WaitingStep(s: SessionRecord, t: Tables, o: ChatOracles, st: Stage)
    requires ParseStage(s.stage) == Some(st)
    requires st == PanVerification || st == SelfieVerification || st == SalaryVerification
             || st == Completed || st == Stage.Rejected
    ensures StageStep(s, t, o).Some?
    ensures var turn := StageStep(s, t, o).value;
      turn.session == s && turn.tables == t && turn.reply.stage == s.stage
    ensures var r := StageStep(s, t, o).value.reply;
      (r.requiresUpload <==> st != Completed && st != Stage.Rejected)
      && (r.agent == Underwriting <==> st == SalaryVerification)
      && (st == PanVerification ==> r.message == Plain(PanUploadReminder) && r.uploadType == Some(PanCardUpload))
      && (st == SelfieVerification ==> r.message == Plain(SelfieReminder) && r.uploadType == Some(SelfieUpload))
      && (st == SalaryVerification ==> r.message == Plain(SalaryReminder) && r.uploadType == Some(SalarySlipUpload))
      && ((st == Completed || st == Stage.Rejected) ==> r.message == Plain(o.generated) && r.uploadType.None?)
  {
  }

  lemma DispatchWaiting(s: SessionRecord, t: Tables, o: ChatOracles)
    requires WaitingStage(s.stage)
    ensures StageStep(s, t, o).Some?
    ensures var turn := StageStep(s, t, o).value;
      turn.session == s && turn.tables == t && turn.reply.stage == s.stage
  {
    var st :=
      if s.stage == StageCode(PanVerification) then PanVerification
      else if s.stage == StageCode(SelfieVerification) then SelfieVerification
      else if s.stage == StageCode(SalaryVerification) then SalaryVerification
      else if s.stage == StageCode(Completed) then Completed
      else Stage.Rejected;
    StageCodeRoundTrip(st);
    WaitingStep(s, t, o, st);
  }

  // ---------------------------------------------------- what a branch keeps

  /** A branch keeps the log and the staged image, and reports the stage it stores. */
  predicate Keeps(s: SessionRecord, turn: Turn)
  {
    turn.session.conversation == s.conversation && turn.session.tempPanImage == s.tempPanImage
    && turn.reply.stage == turn.session.stage
  }

  lemma GreetingStepKeeps(s: SessionRecord, t: Tables, o: ChatOracles)
    ensures GreetingStep(s, t, o).Some? ==> Keeps(s, GreetingStep(s, t, o).value) && GreetingStep(s, t, o).value.tables == t
  {
  }

  lemma PanCollectionStepKeeps(s: SessionRecord, t: Tables, o: ChatOracles)
    ensures Keeps(s, PanCollectionStep(s, t, o)) && PanCollectionStep(s, t, o).tables == t
  {
  }

  lemma AssessmentStepKeeps(s: SessionRecord, t: Tables, app: LoanApplication, o: ChatOracles)
    ensures Keeps(s, AssessmentStep(s, t, app, o))
  {
  }

  lemma LoanDetailsStepKeeps(s: SessionRecord, t: Tables, o: ChatOracles)
    ensures LoanDetailsStep(s, t, o).Some? ==> Keeps(s, LoanDetailsStep(s, t, o).value)
  {
    match ExtractLoanDetails(o.loanReply, o.loanDecode)
    case Some(Object(d)) =>
      if DetailsComplete(d) && LinkedCustomer(s, t).Some? {
        var key := s.customer.value;
        var c := WithDetails(t.customers[key], d);
        var app := NewApplication(c, d.loanAmount.value, d.purpose.value, d.tenureMonths.value,
                                  UnderReview, o.today, o.now, o.segmentRule);
        AssessmentStepKeeps(s, t.(customers := t.customers[key := c]), app, o);
      }
    case _ =>
  }

  /** Every branch of the dispatch keeps the log and the staged image and reports the stage it stores. */
  lemma StageStepKeeps(s: SessionRecord, t: Tables, o: ChatOracles)
    ensures StageStep(s, t, o).Some? ==> Keeps(s, StageStep(s, t, o).value)
  {
    match ParseStage(s.stage)
    case None =>
    case Some(Greeting) => GreetingStepKeeps(s, t, o);
    case Some(NameCollection) => GreetingStepKeeps(s, t, o);
    case Some(PanCollection) => PanCollectionStepKeeps(s, t, o);
    case Some(LoanDetails) => LoanDetailsStepKeeps(s, t, o);
    case Some(_) =>
  }

  // ------------------------------------------------------------ the chat log

  /**
   * `add_message` on a log that has an `append` leaves one whose history is
   * the old one followed by the message, and which has an `append` again.
   */
  lemma AddMessageReadsBack(d: ConversationData, m: Message)
    requires Appendable(d)
    ensures AddMessage(d, m).Some? && Appendable(AddMessage(d, m).value)
    ensures ConversationHistory(AddMessage(d, m).value) == Some(ConversationHistory(d).value + [m])
  {
  }

  /**
   * A chat turn on an existing session that answers appends exactly the
   * user's message and then the reply tagged with the answering agent, so
   * the earlier entries are unchanged; it reports the stage it stores and
   * leaves the staged image alone. A turn that raises stores nothing.
   */
  lemma ChatAppendsTwo(s: SessionRecord, t: Tables, text: string, o: ChatOracles)
    ensures var r := Chat(Some(s), t, text, o);
      r.outcome.ChatReplied? ==>
        Appendable(s.conversation) && r.session.Some?
        && ConversationHistory(r.session.value.conversation)
           == Some(ConversationHistory(s.conversation).value
                   + [UserMessage(text), AssistantMessage(r.outcome.reply.message, r.outcome.reply.agent)])
        && r.outcome.reply.stage == r.session.value.stage
        && r.session.value.tempPanImage == s.tempPanImage
    ensures var r := Chat(Some(s), t, text, o);
      !r.outcome.ChatReplied? ==> r == Result(Some(s), t, ChatCrashed)
  {
    if Appendable(s.conversation) {
      var l := Logged(s, text).value;
      StageStepKeeps(l, t, o);
      var step := StageStep(l, t, o);
      if step.Some? {
        var answer := AssistantMessage(step.value.reply.message, step.value.reply.agent);
        AddMessageReadsBack(l.conversation, answer);
        var h := ConversationHistory(s.conversation).value;
        assert h + [UserMessage(text)] + [answer] == h + [UserMessage(text), answer];
      }
    }
  }

  /** A log that is a JSON value other than a list makes every chat turn raise in `add_message`, storing nothing. */
  lemma ChatOnNonListLog(s: SessionRecord, t: Tables, text: string, o: ChatOracles)
    requires !Appendable(s.conversation)
    ensures Chat(Some(s), t, text, o) == Result(Some(s), t, ChatCrashed)
  {
  }

  /** A log that is not JSON is dropped: a turn that answers stores only the user's message and the reply. */
  lemma ChatReplacesUnreadableLog(s: SessionRecord, t: Tables, text: string, o: ChatOracles)
    requires s.conversation.Unreadable?
    ensures var r := Chat(Some(s), t, text, o);
      r.outcome.ChatReplied? ==>
        r.session.Some?
        && r.session.value.conversation
           == Log([UserMessage(text), AssistantMessage(r.outcome.reply.message, r.outcome.reply.agent)])
  {
    ChatAppendsTwo(s, t, text, o);
    var r := Chat(Some(s), t, text, o);
    if r.outcome.ChatReplied? {
      var l := Logged(s, text).value;
      StageStepKeeps(l, t, o);
    }
  }

  /** Without a session nothing is stored. */
  lemma ChatWithoutSession(t: Tables, text: string, o: ChatOracles)
    ensures Chat(None, t, text, o) == Result(None, t, ChatInvalidSession)
  {
  }

  // ------------------------------------------------- name and PAN collection

  /** A usable extracted name: present and not `NOT_FOUND`. */
  predicate NameFound(nd: NameDob)
  {
    Present(nd.name) && nd.name.value != NotFound
  }

  /**
   * In `greeting` and `name_collection` a usable name moves to
   * `pan_collection` and is stored; any other answer moves to
   * `name_collection` and stores nothing else. A truthy result that is not
   * an object makes the turn raise. No table changes.
   */
  lemma GreetingOutcome(s: SessionRecord, t: Tables, text: string, o: ChatOracles)
    requires Appendable(s.conversation)
    requires s.stage == StageCode(Greeting) || s.stage == StageCode(NameCollection)
    ensures var r := Chat(Some(s), t, text, o);
      r.outcome.ChatCrashed? <==> o.nameAndDob.Some? && o.nameAndDob.value.NotObject? && o.nameAndDob.value.truthy
    ensures var r := Chat(Some(s), t, text, o);
      r.outcome.ChatReplied? ==>
        r.tables == t && r.session.Some?
        && var s1 := r.session.value;
           var found := o.nameAndDob.Some? && o.nameAndDob.value.Object? && NameFound(o.nameAndDob.value.fields);
           (found ==> s1.stage == StageCode(PanCollection) && s1.customerName == o.nameAndDob.value.fields.name.value)
           && (!found ==> s1 == s.(stage := StageCode(NameCollection), conversation := s1.conversation))
           && s1.customer == s.customer
  {
    DispatchGreeting(Logged(s, text).value, t, o);
  }

  /**
   * In `pan_collection` the turn moves to `pan_verification` and asks for
   * the card upload exactly when the stripped, upper-cased reply is a
   * well-formed PAN, whether or not a customer has that PAN; a known PAN
   * links its customer. Otherwise the session keeps its stage and customer.
   * No table changes.
   */
  lemma PanCollectionOutcome(s: SessionRecord, t: Tables, text: string, o: ChatOracles)
    requires Appendable(s.conversation)
    requires s.stage == StageCode(PanCollection)
    ensures Chat(Some(s), t, text, o).outcome.ChatReplied?
    ensures var r := Chat(Some(s), t, text, o);
      var pan := Upper(Strip(o.panReply));
      r.session.Some? && r.tables == t
      && (r.session.value.stage == StageCode(PanVerification) <==> IsPan(pan))
      && (r.outcome.reply.uploadType == Some(PanCardUpload) <==> IsPan(pan))
      && (r.outcome.reply.requiresUpload <==> IsPan(pan))
      && (!IsPan(pan) ==> r.session.value.stage == s.stage && r.session.value.customer == s.customer)
      && (IsPan(pan) && pan in t.customers ==> r.session.value.customer == Some(pan))
      && (IsPan(pan) && pan !in t.customers ==> r.session.value.customer == s.customer)
  {
    DispatchPanCollection(Logged(s, text).value, t, o);
    ExtractPanNumberGate(o.panReply);
  }

  // ------------------------------------------------------------ reminders

  /** The waiting stages only remind: the turn answers and changes nothing but the log. */
  lemma WaitingStagesStay(s: SessionRecord, t: Tables, text: string, o: ChatOracles)
    requires Appendable(s.conversation)
    requires WaitingStage(s.stage)
    ensures var r := Chat(Some(s), t, text, o);
      r.outcome.ChatReplied? && r.tables == t && r.session.Some?
      && r.session.value == s.(conversation := r.session.value.conversation)
  {
    DispatchWaiting(Logged(s, text).value, t, o);
  }

  /** A stored stage outside the nine codes starts over at `greeting`, changing nothing else but the log. */
  lemma UnknownStageResets(s: SessionRecord, t: Tables, text: string, o: ChatOracles)
    requires Appendable(s.conversation)
    requires !KnownStage(s.stage)
    ensures var r := Chat(Some(s), t, text, o);
      r.outcome.ChatReplied? && r.tables == t && r.session.Some?
      && r.session.value == s.(stage := StageCode(Greeting), conversation := r.session.value.conversation)
  {
  }

  // ---------------------------------------------------------- loan details

  /** The decoded loan details, when they are an object. */
  predicate DecodedDetails(o: ChatOracles)
  {
    var x := ExtractLoanDetails(o.loanReply, o.loanDecode);
    x.Some? && x.value.Object?
  }

  /** Complete decoded loan details. */
  predicate CompleteDetails(o: ChatOracles)
  {
    DecodedDetails(o) && DetailsComplete(ExtractLoanDetails(o.loanReply, o.loanDecode).value.fields)
  }

  lemma LoanDetailsStepRaises(s: SessionRecord, t: Tables, o: ChatOracles)
    requires ExtractLoanDetails(o.loanReply, o.loanDecode) == Some(NotObject(true))
    ensures LoanDetailsStep(s, t, o) == None
  {
  }

  /** A decoded truthy value that is not an object makes the loan-details turn raise, storing nothing. */
  lemma LoanDetailsNotObject(s: SessionRecord, t: Tables, text: string, o: ChatOracles)
    requires Appendable(s.conversation)
    requires s.stage == StageCode(LoanDetails)
    requires ExtractLoanDetails(o.loanReply, o.loanDecode) == Some(NotObject(true))
    ensures Chat(Some(s), t, text, o) == Result(Some(s), t, ChatCrashed)
  {
    var l := Logged(s, text).value;
    DispatchLoanDetails(l, t, o);
    LoanDetailsStepRaises(l, t, o);
    assert StageStep(l, t, o) == None;
  }

  /** Details that are missing, undecodable or falsy leave the session and the tables alone and reply with the generated text. */
  lemma IncompleteDecision(s: SessionRecord, t: Tables, p: Option<Parsed<ExtractedLoan>>, o: ChatOracles)
    requires p != Some(NotObject(true))
    requires !(p.Some? && p.value.Object? && DetailsComplete(p.value.fields))
    ensures DetailsDecision(s, t, p, o) == Some(Turn(s, t, ChatReply(Plain(o.generated), Sales, s.stage, false, None)))
  {
  }

  /** Missing details (or none decoded) create nothing and keep the stage and everything else but the log. */
  lemma LoanDetailsIncomplete(s: SessionRecord, t: Tables, text: string, o: ChatOracles)
    requires Appendable(s.conversation)
    requires s.stage == StageCode(LoanDetails)
    requires ExtractLoanDetails(o.loanReply, o.loanDecode) != Some(NotObject(true))
    requires !CompleteDetails(o)
    ensures var r := Chat(Some(s), t, text, o);
      r.outcome.ChatReplied? && r.tables == t && r.session.Some?
      && r.session.value == s.(conversation := r.session.value.conversation)
  {
    var l := Logged(s, text).value;
    DispatchLoanDetails(l, t, o);
    IncompleteDecision(l, t, ExtractLoanDetails(o.loanReply, o.loanDecode), o);
  }

  /** Complete details without a linked customer create nothing and send the session back to the card upload. */
  lemma LoanDetailsWithoutCustomer(s: SessionRecord, t: Tables, text: string, o: ChatOracles)
    requires Appendable(s.conversation)
    requires s.stage == StageCode(LoanDetails)
    requires CompleteDetails(o)
    requires LinkedCustomer(s, t).None?
    ensures var r := Chat(Some(s), t, text, o);
      r.outcome.ChatReplied? && r.tables == t && r.session.Some?
      && r.session.value == s.(stage := StageCode(PanVerification), conversation := r.session.value.conversation)
      && r.outcome.reply.uploadType == Some(PanCardUpload)
  {
    DispatchLoanDetails(Logged(s, text).value, t, o);
  }

  /** The stage an underwriting outcome leads to. */
  function StageAfter(a: Approval): Stage
  {
    match a
    case Granted => Completed
    case Declined => Stage.Rejected
    case _ => SalaryVerification
  }

  /** The status the new application is stored with. */
  function StatusAfter(a: Approval): Status
  {
    match a
    case Granted => Approved
    case Declined => Status.Rejected
    case _ => UnderReview
  }

  /** The application fields the underwriting outcome does not decide. */
  predicate SameRequest(a: LoanApplication, b: LoanApplication)
  {
    a.customer == b.customer && a.loanAmount == b.loanAmount && a.purpose == b.purpose
    && a.tenureMonths == b.tenureMonths && a.segmentSnapshot == b.segmentSnapshot
    && a.approvalReason == b.approvalReason && a.appliedAt == b.appliedAt
    && a.approvedAt == b.approvedAt && a.rejectedAt == b.rejectedAt
  }

  /**
   * The underwriting branch, given the application just created with
   * status `under_review`, appends exactly one application carrying the
   * request and the status the outcome dictates, and moves to the outcome's
   * stage: an approval stores the generated letter, a decline its reason,
   * and exactly the pending outcomes ask for a salary slip.
   */
  lemma AssessmentStepOutcome(s: SessionRecord, t: Tables, app: LoanApplication, o: ChatOracles)
    requires app.status == UnderReview
    ensures var turn := AssessmentStep(s, t, app, o);
      |turn.tables.applications| == |t.applications| + 1
      && turn.tables.applications[..|t.applications|] == t.applications
      && turn.tables.customers == t.customers
      && turn.session == s.(stage := StageCode(StageAfter(o.assessment.approved)))
    ensures var turn := AssessmentStep(s, t, app, o);
      var added := turn.tables.applications[|t.applications|];
      SameRequest(added, app)
      && added.status == StatusAfter(o.assessment.approved)
      && added.rejectionReason == (if o.assessment.approved == Declined then Some(o.assessment.reason) else app.rejectionReason)
      && added.sanctionLetter == (if o.assessment.approved == Granted then o.sanctionLetter else app.sanctionLetter)
      && (turn.reply.uploadType == Some(SalarySlipUpload) <==> StageAfter(o.assessment.approved) == SalaryVerification)
  {
    var turn := AssessmentStep(s, t, app, o);
    assert turn.tables.applications == t.applications + [turn.tables.applications[|t.applications|]];
    match o.assessment.approved
    case Granted =>
      assert turn.tables.applications[|t.applications|] == app.(status := Approved, sanctionLetter := o.sanctionLetter);
    case Declined =>
      assert turn.tables.applications[|t.applications|]
          == app.(status := Status.Rejected, rejectionReason := Some(o.assessment.reason));
    case PendingSalarySlip =>
      assert turn.tables.applications[|t.applications|] == app;
    case PendingBusinessDocs =>
      assert turn.tables.applications[|t.applications|] == app;
    case PendingGuarantor =>
      assert turn.tables.applications[|t.applications|] == app;
  }

  /**
   * With complete details and a linked customer, the turn stores the
   * customer's truthy employment details and creates exactly one
   * application for that customer carrying the amount, purpose and tenure
   * and the status and stage the underwriting outcome dictates.
   */
  lemma LoanDetailsCreatesOne(s: SessionRecord, t: Tables, text: string, o: ChatOracles)
    requires Appendable(s.conversation)
    requires s.stage == StageCode(LoanDetails)
    requires CompleteDetails(o)
    requires LinkedCustomer(s, t).Some?
    ensures var d := ExtractLoanDetails(o.loanReply, o.loanDecode).value.fields;
      var key := s.customer.value;
      var c := WithDetails(t.customers[key], d);
      var r := Chat(Some(s), t, text, o);
      r.outcome.ChatReplied? && r.session.Some?
      && r.tables.customers == t.customers[key := c]
      && |r.tables.applications| == |t.applications| + 1
      && r.tables.applications[..|t.applications|] == t.applications
      && r.tables.applications[|t.applications|].customer == c.pan
      && r.tables.applications[|t.applications|].loanAmount == d.loanAmount.value
      && r.tables.applications[|t.applications|].purpose == d.purpose.value
      && r.tables.applications[|t.applications|].tenureMonths == d.tenureMonths.value
      && r.tables.applications[|t.applications|].status == StatusAfter(o.assessment.approved)
      && r.session.value == s.(stage := StageCode(StageAfter(o.assessment.approved)),
                               conversation := r.session.value.conversation)
  {
    var l := Logged(s, text).value;
    DispatchLoanDetails(l, t, o);
    var d := ExtractLoanDetails(o.loanReply, o.loanDecode).value.fields;
    var key := s.customer.value;
    var c := WithDetails(t.customers[key], d);
    var app := NewApplication(c, d.loanAmount.value, d.purpose.value, d.tenureMonths.value,
                              UnderReview, o.today, o.now, o.segmentRule);
    assert LoanDetailsStep(l, t, o) == Some(AssessmentStep(l, t.(customers := t.customers[key := c]), app, o));
    AssessmentStepOutcome(l, t.(customers := t.customers[key := c]), app, o);
  }
}
