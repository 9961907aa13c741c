/**
 * The request handlers of the chat views, written as they work: they
 * assign the session's columns and update the customer and application
 * tables in place, then save. Each handler's contract says that the state
 * it leaves and the answer it gives are those of the corresponding
 * transition function, whose properties are proved beside it.
 */
module Views {
  import opened Common
  import opened Text
  import opened Models
  import opened Agents
  import opened Workflow

  /** The stored session a request finds: `None` when the lookup fails. */
  function Loaded(session: ChatSession?): Option<SessionRecord>
    reads session
  {
    if session == null then None else Some(session.Record())
  }

  /** The stored tables. */
  function TablesOf(db: Store): Tables
    reads db
  {
    Tables(db.customers, db.applications)
  }

  // ------------------------------------------------------------------ chat

  /**
   * The underwriting result acted on for the application just created in
   * row `i`, the last one and still without a letter: approve it (attaching the letter when it was
   * produced), leave it under review while documents are asked for, or
   * reject it with the reason.
   */
  method Assess(s: SessionRecord, db: Store, i: nat, o: ChatOracles)
    returns (response: Content, stage: string, requiresUpload: bool, uploadType: Option<UploadKind>)
    requires i + 1 == |db.applications| && db.applications[i].sanctionLetter.None?
    modifies db
    ensures var before := old(TablesOf(db));
      AssessmentStep(s, before.(applications := before.applications[..i]), before.applications[i], o)
        == Turn(s.(stage := stage), TablesOf(db), ChatReply(response, Underwriting, stage, requiresUpload, uploadType))
  {
    assert db.applications == db.applications[..i] + [db.applications[i]];
    var amount := db.applications[i].loanAmount;
    stage := StageCode(SalaryVerification);
    requiresUpload := false;
    uploadType := None;
    var a := o.assessment;
    match a.approved
    case Granted =>
      db.SetStatus(i, Approved);
      if o.sanctionLetter.Some? {
        db.AttachLetter(i, o.sanctionLetter.value);
        response := LoanApprovedNotice(amount, a.reason, a.segmentNote, true);
      } else {
        response := LoanApprovedNotice(amount, a.reason, "", false);
      }
      stage := StageCode(Completed);
    case PendingSalarySlip =>
      response := AdditionalVerification(a.reason);
      requiresUpload := true;
      uploadType := Some(SalarySlipUpload);
    case PendingBusinessDocs =>
      response := BusinessDocuments(a.reason, a.documentsNeeded);
      requiresUpload := true;
      uploadType := Some(SalarySlipUpload);
    case PendingGuarantor =>
      response := GuarantorNeeded(a.reason);
      requiresUpload := true;
      uploadType := Some(SalarySlipUpload);
    case Declined =>
      db.SetStatus(i, Status.Rejected);
      db.SetRejectionReason(i, a.reason);
      response := LoanDeclined(a.reason);
      stage := StageCode(Stage.Rejected);
  }

  /**
   * The loan-details branch once the details are complete and the customer
   * is linked: store the employment details, create the application under
   * review, and act on the underwriting result.
   */
  method Apply(s: SessionRecord, db: Store, d: ExtractedLoan, o: ChatOracles)
    returns (response: Content, stage: string, requiresUpload: bool, uploadType: Option<UploadKind>)
    requires LinkedCustomer(s, TablesOf(db)).Some? && DetailsComplete(d)
    modifies db
    ensures var before := old(TablesOf(db));
      var key := s.customer.value;
      var c := WithDetails(before.customers[key], d);
      var app := NewApplication(c, d.loanAmount.value, d.purpose.value, d.tenureMonths.value,
                                UnderReview, o.today, o.now, o.segmentRule);
      AssessmentStep(s, before.(customers := before.customers[key := c]), app, o)
        == Turn(s.(stage := stage), TablesOf(db), ChatReply(response, Underwriting, stage, requiresUpload, uploadType))
  {
    var key := s.customer.value;
    var c := db.customers[key];
    if Present(d.employmentType) {
      c := c.(employmentType := d.employmentType);
    }
    if d.monthlyIncome.Some? && d.monthlyIncome.value != 0.0 {
      c := c.(monthlyIncome := d.monthlyIncome);
    }
    ghost var rows := db.applications;
    db.Put(key, c);
    var i := db.CreateApplication(key, d.loanAmount.value, d.purpose.value, d.tenureMonths.value,
                                  UnderReview, o.today, o.now, o.segmentRule);
    assert db.applications[..i] == rows;
    response, stage, requiresUpload, uploadType := Assess(s, db, i, o);
  }

  /** The `greeting`/`name_collection` branch: read the extracted name and birth date; `raised` when `.get` raises. */
  method GreetingBranch(s: SessionRecord, t: Tables, o: ChatOracles)
    returns (raised: bool, stage: string, customerName: string, tempDob: Option<string>, response: Content)
    ensures raised <==> GreetingStep(s, t, o).None?
    ensures !raised ==> (GreetingStep(s, t, o).value
      == Turn(s.(stage := stage, customerName := customerName, tempDob := tempDob), t,
              ChatReply(response, Master, stage, false, None)))
  {
    raised := false;
    customerName := s.customerName;
    tempDob := s.tempDob;
    stage := StageCode(NameCollection);
    response := Plain(NoDataPrompt);
    match o.nameAndDob
    case Some(Object(nd)) =>
      if Present(nd.name) && nd.name.value != NotFound {
        customerName := nd.name.value;
        if Present(nd.dateOfBirth) && nd.dateOfBirth.value != NotFound {
          tempDob := nd.dateOfBirth;
        }
        stage := StageCode(PanCollection);
        response := Plain(o.generated);
      } else {
        response := Plain(NameRetryPrompt);
      }
    case Some(NotObject(truthy)) =>
      raised := truthy;
    case None =>
  }

  /** The `pan_collection` branch: a well-formed PAN moves on to the card upload, linking a known customer. */
  method PanCollectionBranch(s: SessionRecord, db: Store, o: ChatOracles)
    returns (customer: Option<string>, stage: string, response: Content, requiresUpload: bool,
             uploadType: Option<UploadKind>)
    ensures PanCollectionStep(s, TablesOf(db), o)
      == Turn(s.(customer := customer, stage := stage), TablesOf(db),
              ChatReply(response, Master, stage, requiresUpload, uploadType))
  {
    customer := s.customer;
    stage := s.stage;
    requiresUpload := false;
    uploadType := None;
    var pan := ExtractPanNumber(o.panReply);
    if pan != NotFound {
      if pan in db.customers {
        customer := Some(pan);
        response := Plain(o.generated);
      } else {
        response := PanUploadRequest(pan);
      }
      stage := StageCode(PanVerification);
      requiresUpload := true;
      uploadType := Some(PanCardUpload);
    } else {
      response := Plain(InvalidPanPrompt);
    }
  }

  /** The `loan_details` branch once the decoded details are complete: back to the card upload without a customer. */
  method CompleteDetailsBranch(s: SessionRecord, db: Store, d: ExtractedLoan, o: ChatOracles)
    returns (stage: string, response: Content, agent: Agent, requiresUpload: bool, uploadType: Option<UploadKind>)
    requires ExtractLoanDetails(o.loanReply, o.loanDecode) == Some(Object(d)) && DetailsComplete(d)
    modifies db
    ensures LoanDetailsStep(s, old(TablesOf(db)), o)
      == Some(Turn(s.(stage := stage), TablesOf(db), ChatReply(response, agent, stage, requiresUpload, uploadType)))
  {
    if LinkedCustomer(s, TablesOf(db)).None? {
      response := Plain(CompletePanFirst);
      stage := StageCode(PanVerification);
      agent := Sales;
      requiresUpload := true;
      uploadType := Some(PanCardUpload);
    } else {
      agent := Underwriting;
      response, stage, requiresUpload, uploadType := Apply(s, db, d, o);
    }
  }

  /** The `loan_details` branch; `raised` when the decoded details are a truthy non-object. */
  method LoanDetailsBranch(s: SessionRecord, db: Store, o: ChatOracles)
    returns (raised: bool, stage: string, response: Content, agent: Agent, requiresUpload: bool,
             uploadType: Option<UploadKind>)
    modifies db
    ensures raised <==> LoanDetailsStep(s, old(TablesOf(db)), o).None?
    ensures raised ==> TablesOf(db) == old(TablesOf(db))
    ensures !raised ==> (LoanDetailsStep(s, old(TablesOf(db)), o).value
      == Turn(s.(stage := stage), TablesOf(db), ChatReply(response, agent, stage, requiresUpload, uploadType)))
  {
    raised := false;
    stage := s.stage;
    agent := Sales;
    requiresUpload := false;
    uploadType := None;
    response := Plain(o.generated);
    match ExtractLoanDetails(o.loanReply, o.loanDecode)
    case Some(NotObject(truthy)) =>
      raised := truthy;
    case Some(Object(d)) =>
      if DetailsComplete(d) {
        stage, response, agent, requiresUpload, uploadType := CompleteDetailsBranch(s, db, d, o);
      }
    case None =>
  }

  /**
   * The stages that only answer: reminders while an upload is awaited, the
   * generated text once the application is closed, and a restart for an
   * unknown stage.
   */
  method WaitingBranch(s: SessionRecord, t: Tables, o: ChatOracles)
    returns (stage: string, response: Content, agent: Agent, requiresUpload: bool, uploadType: Option<UploadKind>)
    requires ParseStage(s.stage) !in {Some(Greeting), Some(NameCollection), Some(PanCollection), Some(LoanDetails)}
    ensures StageStep(s, t, o)
      == Some(Turn(s.(stage := stage), t, ChatReply(response, agent, stage, requiresUpload, uploadType)))
  {
    stage := s.stage;
    agent := Master;
    requiresUpload := false;
    uploadType := None;
    response := Plain(o.generated);
    match ParseStage(s.stage)
    case Some(PanVerification) =>
      response := Plain(PanUploadReminder);
      requiresUpload := true;
      uploadType := Some(PanCardUpload);
    case Some(SelfieVerification) =>
      response := Plain(SelfieReminder);
      requiresUpload := true;
      uploadType := Some(SelfieUpload);
    case Some(SalaryVerification) =>
      response := Plain(SalaryReminder);
      requiresUpload := true;
      uploadType := Some(SalarySlipUpload);
      agent := Underwriting;
    case Some(Completed) =>
    case Some(Rejected) =>
    case None =>
      response := Plain(RestartPrompt);
      stage := StageCode(Greeting);
  }

  /**
   * The stage dispatch of `chat` (the chain of comparisons with the stage
   * codes): `raised` when the branch raises, otherwise the session after
   * the branch and the reply.
   */
  method StageBranch(s: SessionRecord, db: Store, o: ChatOracles) returns (raised: bool, next: SessionRecord, reply: ChatReply)
    modifies db
    ensures raised <==> StageStep(s, old(TablesOf(db)), o).None?
    ensures raised ==> TablesOf(db) == old(TablesOf(db))
    ensures !raised ==> StageStep(s, old(TablesOf(db)), o).value == Turn(next, TablesOf(db), reply)
  {
    var stage, response, agent, requiresUpload, uploadType;
    next := s;
    raised := false;
    match ParseStage(s.stage)
    case Some(Greeting) | Some(NameCollection) =>
      var customerName, tempDob;
      raised, stage, customerName, tempDob, response := GreetingBranch(s, TablesOf(db), o);
      next := s.(stage := stage, customerName := customerName, tempDob := tempDob);
      reply := ChatReply(response, Master, stage, false, None);
    case Some(PanCollection) =>
      var customer;
      customer, stage, response, requiresUpload, uploadType := PanCollectionBranch(s, db, o);
      next := s.(customer := customer, stage := stage);
      reply := ChatReply(response, Master, stage, requiresUpload, uploadType);
    case Some(LoanDetails) =>
      raised, stage, response, agent, requiresUpload, uploadType := LoanDetailsBranch(s, db, o);
      next := s.(stage := stage);
      reply := ChatReply(response, agent, stage, requiresUpload, uploadType);
    case _ =>
      stage, response, agent, requiresUpload, uploadType := WaitingBranch(s, TablesOf(db), o);
      next := s.(stage := stage);
      reply := ChatReply(response, agent, stage, requiresUpload, uploadType);
  }

  /**
   * `chat`: log the user's message, follow the stage's branch, log the
   * reply tagged with the answering agent, and save. A branch or an
   * `add_message` that raises returns before the session is saved.
   */
  method HandleChat(session: ChatSession?, db: Store, text: string, o: ChatOracles) returns (outcome: ChatOutcome)
    modifies session, db
    ensures var r := Chat(old(Loaded(session)), old(TablesOf(db)), text, o);
      outcome == r.outcome && TablesOf(db) == r.tables && Loaded(session) == r.session
  {
    if session == null {
      return ChatInvalidSession;
    }
    var logged := Logged(session.Record(), text);
    if logged.None? {
      return ChatCrashed;
    }
    var raised, next, reply := StageBranch(logged.value, db, o);
    if raised {
      return ChatCrashed;
    }
    var conversation := AddMessage(next.conversation, AssistantMessage(reply.message, reply.agent));
    if conversation.None? {
      return ChatCrashed;
    }
    session.Store(next.(conversation := conversation.value));
    outcome := ChatReplied(reply);
  }

  // --------------------------------------------------------------- uploads

  /** The row a verified card links: the stored one marked verified, or a new one; `found` is false when neither can be made. */
  method FindOrCreateCustomer(session: ChatSession, db: Store, v: PanVerdict, parseDate: string -> Option<Date>)
    returns (found: bool, c: Customer, existing: bool)
    ensures found <==> RegisterCustomer(session.Record(), TablesOf(db), v, parseDate).Some?
    ensures found ==> RegisterCustomer(session.Record(), TablesOf(db), v, parseDate).value == (c, existing)
  {
    found, existing := true, false;
    c := NewVerifiedCustomer("", "", None, None);
    if v.panNumber.Str? && v.panNumber.value in db.customers {
      c := db.customers[v.panNumber.value];
      existing := true;
      var dob := c.dateOfBirth;
      if PresentField(v.dateOfBirth) && c.dateOfBirth.None? {
        dob := parseDate(v.dateOfBirth.value);
      }
      c := c.(panVerified := true, panVerificationConfidence := v.confidence, dateOfBirth := dob);
    } else if v.panNumber.Str? && v.nameOnCard.Str? {
      var dob: Option<Date> := None;
      if Present(session.tempDob) {
        dob := parseDate(session.tempDob.value);
      }
      if dob.None? && PresentField(v.dateOfBirth) {
        dob := parseDate(v.dateOfBirth.value);
      }
      c := NewVerifiedCustomer(v.nameOnCard.value, v.panNumber.value, dob, v.confidence);
    } else {
      found := false;
    }
  }

  /**
   * What `upload_pan_card` does with the verdict `v` on the image it
   * staged: link the verified customer (marking the stored row, or creating
   * one) and keep the image staged for the selfie; for an invalid card, or
   * when creating the row or logging the report raises, clear the staged
   * image and save. The two retry answers save nothing.
   */
  method ActOnCard(session: ChatSession, db: Store, image: Bytes, expected: Option<string>, v: PanVerdict,
                   o: PanOracles) returns (outcome: PanOutcome)
    modifies session, db
    ensures var r := CardDecision(old(session.Record()), old(TablesOf(db)), image, expected, v, o);
      outcome == r.outcome && TablesOf(db) == r.tables && Some(session.Record()) == r.session
  {
    if !v.isValid {
      session.tempPanImage := None;
      return PanNotVerified(session.stage);
    }
    if expected.Some? && v.panMatch == Some(false) {
      return PanMismatchReply(expected.value);
    }
    if !NameMatched(v) {
      return NameMismatchReply(MismatchReason(v));
    }
    var found, c, existing := FindOrCreateCustomer(session, db, v, o.parseDate);
    if !found {
      session.tempPanImage := None;
      return PanError;
    }
    var pan := v.panNumber.value;
    db.Put(pan, c);
    session.customer := Some(pan);
    session.stage := StageCode(SelfieVerification);
    if !Appendable(session.conversation) {
      session.tempPanImage := None;
      return PanError;
    }
    session.tempPanImage := Some(image);
    var tone := SelfieToneFor(GetAgeSegment(Some(c), o.ageOf, o.segmentRule));
    outcome := PanVerified(pan, existing, SelfieRequest(tone));
  }

  /**
   * `upload_pan_card`: check the file, find the session, require a name,
   * read the PAN the conversation holds, verify the card, and act on the
   * verdict.
   */
  method HandleUploadPanCard(session: ChatSession?, db: Store, file: Option<Upload>, o: PanOracles)
    returns (outcome: PanOutcome)
    modifies session, db
    ensures var r := UploadPanCard(old(Loaded(session)), old(TablesOf(db)), file, o);
      outcome == r.outcome && TablesOf(db) == r.tables && Loaded(session) == r.session
  {
    var refusal := CheckFile(file, ImageTypes, ImageLimit);
    if refusal.Some? {
      return PanRefused(refusal.value);
    }
    if session == null {
      return PanRefused(InvalidSession);
    }
    if session.customerName == "" {
      return NameMissing;
    }
    if !Iterable(session.conversation) {
      return PanCrashed;
    }
    var expected := ExpectedPan(o.panReply);
    var image := file.value.data;
    var verdict := VerifyPanCard(o.visionReply, o.verdictDecode, session.customerName, expected, o.nameFallback);
    outcome := ActOnCard(session, db, image, expected, verdict, o);
  }

  /**
   * What `upload_selfie` does with the face comparison `m` for the linked
   * row `c`: on a match of enough confidence mark the customer, clear the
   * staged image and move to `loan_details`, answering with an error when
   * logging the match raises; when the comparison raises, clear the staged
   * image; otherwise save nothing.
   */
  method ActOnMatch(session: ChatSession, db: Store, c: Customer, m: Parsed<FaceMatch>) returns (outcome: SelfieOutcome)
    requires session.customer.Some?
    modifies session, db
    ensures var r := FaceDecision(old(session.Record()), old(TablesOf(db)), c, m);
      outcome == r.outcome && TablesOf(db) == r.tables && Some(session.Record()) == r.session
  {
    match m
    case NotObject(_) =>
      session.tempPanImage := None;
      outcome := FaceError;
    case Object(f) =>
      var score := ScoreValue(f.confidence);
      if f.facesMatch && score.None? {
        session.tempPanImage := None;
        outcome := FaceError;
      } else if f.facesMatch && score.value >= FaceThreshold {
        db.Put(session.customer.value, c.(faceMatchVerified := true, faceMatchConfidence := score));
        session.tempPanImage := None;
        session.stage := StageCode(LoanDetails);
        outcome := if Appendable(session.conversation) then FaceVerified(score.value) else FaceError;
      } else {
        outcome := FaceNotVerified(FaceMismatch(NotesText(f.notes), score), session.stage);
      }
  }

  /**
   * `upload_selfie`: check the file, find the session, require a linked
   * PAN-verified customer and a staged PAN image, compare the faces, and
   * accept a match with confidence at least the threshold.
   */
  method HandleUploadSelfie(session: ChatSession?, db: Store, file: Option<Upload>,
                            matchReply: string, matchDecode: Decoder<FaceMatch>) returns (outcome: SelfieOutcome)
    modifies session, db
    ensures var r := UploadSelfie(old(Loaded(session)), old(TablesOf(db)), file, matchReply, matchDecode);
      outcome == r.outcome && TablesOf(db) == r.tables && Loaded(session) == r.session
  {
    var refusal := CheckFile(file, ImageTypes, ImageLimit);
    if refusal.Some? {
      return SelfieRefused(refusal.value);
    }
    if session == null {
      return SelfieRefused(InvalidSession);
    }
    var c := LinkedCustomer(session.Record(), TablesOf(db));
    if c.None? || !c.value.panVerified {
      return NotPanVerified;
    }
    if !Staged(session.Record()) {
      return NoStagedImage(StageCode(PanVerification));
    }
    var m := ParseMatchResponse(matchReply, matchDecode);
    outcome := ActOnMatch(session, db, c.value, m);
  }

  /** The customer's most recent application: a scan from the newest row down. */
  method FindLatest(db: Store, pan: string) returns (r: Option<nat>)
    ensures r == LatestApplication(db.applications, pan)
  {
    var i := |db.applications|;
    while i > 0 && db.applications[i - 1].customer != pan
      invariant 0 <= i <= |db.applications|
      invariant LatestApplication(db.applications, pan) == LatestApplication(db.applications[..i], pan)
      decreases i
    {
      assert db.applications[..i][..i - 1] == db.applications[..i - 1];
      i := i - 1;
    }
    if i == 0 {
      r := None;
    } else {
      r := Some(i - 1);
    }
  }

  /**
   * `upload_salary_slip`: check the file, find the session, its customer
   * and the customer's latest application, approve it, and with a generated
   * letter close the session with the approval logged, unless logging
   * raises.
   */
  method HandleUploadSalarySlip(session: ChatSession?, db: Store, file: Option<Upload>,
                                letter: Option<Bytes>, ageOf: AgeRule, rule: SegmentRule) returns (outcome: SlipOutcome)
    modifies session, db
    ensures var r := UploadSalarySlip(old(Loaded(session)), old(TablesOf(db)), file, letter, ageOf, rule);
      outcome == r.outcome && TablesOf(db) == r.tables && Loaded(session) == r.session
  {
    var refusal := CheckFile(file, SlipTypes, SlipLimit);
    if refusal.Some? {
      return SlipRefused(refusal.value);
    }
    if session == null {
      return SlipRefused(InvalidSession);
    }
    var c := LinkedCustomer(session.Record(), TablesOf(db));
    if c.None? {
      return NoCustomer;
    }
    var segment := GetAgeSegment(c, ageOf, rule);
    var latest := FindLatest(db, session.customer.value);
    if latest.None? {
      return NoApplication;
    }
    var i := latest.value;
    var amount := db.applications[i].loanAmount;
    db.SetStatus(i, Approved);
    if letter.None? {
      return LetterFailed;
    }
    var note := SalarySlipApproval(amount, ApprovalToneFor(segment));
    var conversation := AddMessage(session.conversation, AssistantMessage(note, Underwriting));
    if conversation.None? {
      return LetterFailed;
    }
    session.stage := StageCode(Completed);
    session.conversation := conversation.value;
    outcome := SlipApproved(i, note);
  }
}
