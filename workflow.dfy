/**
 * The onboarding workflow of the chat views as transitions over the stored
 * state: one chat session record and the customer and loan application
 * tables. A handler reads the session (absent when the lookup failed), the
 * request, and the results of the language-model calls it makes, which are
 * all parameters; it returns the state it leaves persisted and what it
 * answers. Each function follows its handler's branches in order.
 */
module Workflow {
  import opened Common
  import opened Text
  import opened Models
  import opened Agents
  import AgentProperties

  // ------------------------------------------------------------- the tables

  /** The customer table keyed by PAN, and the loan applications in creation order. */
  datatype Tables = Tables(customers: map<string, Customer>, applications: seq<LoanApplication>)

  /** `session.customer`: the linked customer row, if there is one. */
  function LinkedCustomer(s: SessionRecord, t: Tables): (r: Option<Customer>)
    ensures r.Some? <==> s.customer.Some? && s.customer.value in t.customers
    ensures r.Some? ==> r.value == t.customers[s.customer.value]
  {
    if s.customer.Some? && s.customer.value in t.customers then Some(t.customers[s.customer.value]) else None
  }

  /** A non-empty string: the truthiness of an optional text. */
  predicate Present(x: Option<string>)
  {
    x.Some? && x.value != ""
  }

  /** The truthiness of a JSON member read with `.get`. */
  predicate PresentField(f: Field)
  {
    f.Str? && f.value != ""
  }

  // ------------------------------------------------------------ add_message

  function UserMessage(text: string): Message
  {
    Message(User, Plain(text), None)
  }

  function AssistantMessage(c: Content, a: Agent): Message
  {
    Message(Assistant, c, Some(a))
  }

  /**
   * `add_message`: read the stored log, append the message, and write the
   * list back; `None` when the value read has no `append`, so the call
   * raises. An unreadable log reads as empty and is replaced by the one
   * message.
   */
  function AddMessage(d: ConversationData, m: Message): (r: Option<ConversationData>)
    ensures r.None? <==> !Appendable(d)
    ensures d.Unreadable? ==> r == Some(Log([m]))
    ensures d.Log? ==> (r.Some? && r.value.Log? && |r.value.entries| == |d.entries| + 1
                        && r.value.entries[..|d.entries|] == d.entries && r.value.entries[|d.entries|] == m)
  {
    match ConversationHistory(d)
    case None => None
    case Some(h) =>
      assert h == [] ==> h + [m] == [m];
      Some(Log(h + [m]))
  }

  // -------------------------------------------------------- get_age_segment

  /** `CustomerSegmentation.get_age_from_dob`, which is not part of this model. */
  type AgeRule = Date -> Option<int>

  /**
   * `get_age_segment`: no segment without a linked customer with a date of
   * birth, or when no age can be derived; otherwise the segmentation of that
   * age with the customer's employment type and income. Its ensures are
   * the case mapping itself; it feeds the tone of the PAN and approval
   * replies (`SelfieToneFor`, `ApprovalToneFor`).
   */
  function GetAgeSegment(c: Option<Customer>, ageOf: AgeRule, rule: SegmentRule): (r: Option<Segment>)
    ensures c.None? || c.value.dateOfBirth.None? ==> r.None?
    ensures c.Some? && c.value.dateOfBirth.Some? && ageOf(c.value.dateOfBirth.value).None? ==> r.None?
    ensures c.Some? && c.value.dateOfBirth.Some? && ageOf(c.value.dateOfBirth.value).Some? ==>
      r == rule(ageOf(c.value.dateOfBirth.value).value, c.value.employmentType, c.value.monthlyIncome)
  {
    if c.None? || c.value.dateOfBirth.None? then None
    else
      var age := ageOf(c.value.dateOfBirth.value);
      if age.None? then None
      else rule(age.value, c.value.employmentType, c.value.monthlyIncome)
  }

  const YoungProfessional := "Young Salaried Professional"
  const NewToCredit := "Low-Income or New-to-Credit Applicant"
  const ExistingCustomer := "Existing Kite Capital Customer"

  /** The tone of the selfie request chosen from the segment name. */
  function SelfieToneFor(seg: Option<Segment>): (tone: SelfieTone)
    ensures tone == SelfieFast <==> seg.Some? && seg.value.segment == YoungProfessional
    ensures tone == SelfieReassuring <==> seg.Some? && seg.value.segment == NewToCredit
  {
    if seg.None? then SelfieStandard
    else if seg.value.segment == YoungProfessional then SelfieFast
    else if seg.value.segment == NewToCredit then SelfieReassuring
    else SelfieStandard
  }

  /** The tone of the approval after a salary slip, chosen from the segment name. */
  function ApprovalToneFor(seg: Option<Segment>): (tone: ApprovalTone)
    ensures tone == ApprovalFast <==> seg.Some? && seg.value.segment == YoungProfessional
    ensures tone == ApprovalWelcomeBack <==> seg.Some? && seg.value.segment == ExistingCustomer
  {
    if seg.None? then ApprovalStandard
    else if seg.value.segment == YoungProfessional then ApprovalFast
    else if seg.value.segment == ExistingCustomer then ApprovalWelcomeBack
    else ApprovalStandard
  }

  // ------------------------------------------------------------------ chat

  const NameRetryPrompt :=
    "I didn't catch your name and date of birth. Could you please provide your full name and date of birth (DD/MM/YYYY or YYYY-MM-DD)?"
  const NoDataPrompt :=
    "I didn't catch your name and date of birth. Could you please provide your full name and date of birth?"
  const InvalidPanPrompt :=
    "I couldn't find a valid PAN number in your message. Please provide your PAN number in the format: ABCDE1234F (5 letters, 4 digits, 1 letter)"
  const PanUploadReminder := "Please use the upload button above to submit your PAN card image for verification."
  const SelfieReminder := "Please use the upload button above to take and submit a live selfie for face verification."
  const CompletePanFirst := "Please complete PAN verification first."
  const SalaryReminder := "Please upload your salary slip using the upload button above."
  const RestartPrompt := "Something went wrong. Let's start over. What's your name and date of birth?"

  /** The members of the name-and-birth-date extraction the views read. */
  datatype NameDob = NameDob(name: Option<string>, dateOfBirth: Option<string>)

  /**
   * What the model calls of one chat turn return. `nameAndDob` is the
   * extraction result, `None` when it is falsy (`None` or an empty object);
   * `panReply` and `loanReply` are the raw replies to the PAN and loan-detail
   * extraction prompts; `assessment` is the underwriting result and
   * `sanctionLetter` the generated letter (`None` when generation raised);
   * `generated` is the text of whichever generative prompt the turn sends.
   */
  datatype ChatOracles = ChatOracles(
    nameAndDob: Option<Parsed<NameDob>>,
    panReply: string,
    loanReply: string,
    loanDecode: Decoder<ExtractedLoan>,
    assessment: Assessment,
    sanctionLetter: Option<Bytes>,
    generated: string,
    today: Date,
    now: Time,
    segmentRule: SegmentRule)

  datatype UploadKind = PanCardUpload | SelfieUpload | SalarySlipUpload

  /** The reply of a chat turn: message, `agent`, `workflow_stage`, `requires_upload`, `upload_type`. */
  datatype ChatReply = ChatReply(message: Content, agent: Agent, stage: string,
                                 requiresUpload: bool, uploadType: Option<UploadKind>)

  /** One branch of the stage dispatch: the new state before the reply is logged, and the reply. */
  datatype Turn = Turn(session: SessionRecord, tables: Tables, reply: ChatReply)

  /** A turn's branch for `greeting` and `name_collection`; `None` when the extraction result is a truthy non-object (`.get` raises). */
  function GreetingStep(s: SessionRecord, t: Tables, o: ChatOracles): Option<Turn>
  {
    var retry := NoDataPrompt;
    var nameStage := StageCode(NameCollection);
    match o.nameAndDob
    case None => Some(Turn(s.(stage := nameStage), t, ChatReply(Plain(retry), Master, nameStage, false, None)))
    case Some(NotObject(truthy)) =>
      if truthy then None
      else Some(Turn(s.(stage := nameStage), t, ChatReply(Plain(retry), Master, nameStage, false, None)))
    case Some(Object(nd)) =>
      if Present(nd.name) && nd.name.value != NotFound then
        var named := s.(customerName := nd.name.value);
        var dated := if Present(nd.dateOfBirth) && nd.dateOfBirth.value != NotFound
                     then named.(tempDob := nd.dateOfBirth) else named;
        var panStage := StageCode(PanCollection);
        Some(Turn(dated.(stage := panStage), t, ChatReply(Plain(o.generated), Master, panStage, false, None)))
      else
        Some(Turn(s.(stage := nameStage), t, ChatReply(Plain(NameRetryPrompt), Master, nameStage, false, None)))
  }

  /** A turn's branch for `pan_collection`: a well-formed PAN moves on to the card upload, linking a known customer. */
  function PanCollectionStep(s: SessionRecord, t: Tables, o: ChatOracles): Turn
  {
    var pan := ExtractPanNumber(o.panReply);
    var next := StageCode(PanVerification);
    if pan != NotFound then
      if pan in t.customers then
        Turn(s.(customer := Some(pan), stage := next), t,
             ChatReply(Plain(o.generated), Master, next, true, Some(PanCardUpload)))
      else
        Turn(s.(stage := next), t, ChatReply(PanUploadRequest(pan), Master, next, true, Some(PanCardUpload)))
    else
      Turn(s, t, ChatReply(Plain(InvalidPanPrompt), Master, s.stage, false, None))
  }

  /** `all([loan_amount, purpose, tenure_months])`. */
  predicate DetailsComplete(d: ExtractedLoan)
  {
    d.loanAmount.Some? && d.loanAmount.value != 0.0 && Present(d.purpose)
    && d.tenureMonths.Some? && d.tenureMonths.value != 0
  }

  /** The customer columns copied from the loan details when they are truthy. */
  function WithDetails(c: Customer, d: ExtractedLoan): Customer
  {
    var employed := if Present(d.employmentType) then c.(employmentType := d.employmentType) else c;
    if d.monthlyIncome.Some? && d.monthlyIncome.value != 0.0 then employed.(monthlyIncome := d.monthlyIncome)
    else employed
  }

  /**
   * The outcome of the underwriting result for the application just
   * created (status `under_review`, session in `salary_verification`).
   */
  function AssessmentStep(s: SessionRecord, t: Tables, app: LoanApplication, o: ChatOracles): Turn
  {
    var a := o.assessment;
    var review := StageCode(SalaryVerification);
    match a.approved
    case Granted =>
      var issued := o.sanctionLetter.Some?;
      var approved := app.(status := Approved, sanctionLetter := o.sanctionLetter);
      var done := StageCode(Completed);
      Turn(s.(stage := done), t.(applications := t.applications + [approved]),
           ChatReply(LoanApprovedNotice(app.loanAmount, a.reason, if issued then a.segmentNote else "", issued),
                     Underwriting, done, false, None))
    case PendingSalarySlip =>
      Turn(s.(stage := review), t.(applications := t.applications + [app]),
           ChatReply(AdditionalVerification(a.reason), Underwriting, review, true, Some(SalarySlipUpload)))
    case PendingBusinessDocs =>
      Turn(s.(stage := review), t.(applications := t.applications + [app]),
           ChatReply(BusinessDocuments(a.reason, a.documentsNeeded), Underwriting, review, true, Some(SalarySlipUpload)))
    case PendingGuarantor =>
      Turn(s.(stage := review), t.(applications := t.applications + [app]),
           ChatReply(GuarantorNeeded(a.reason), Underwriting, review, true, Some(SalarySlipUpload)))
    case Declined =>
      var rejected := app.(status := Status.Rejected, rejectionReason := Some(a.reason));
      var closed := StageCode(Stage.Rejected);
      Turn(s.(stage := closed), t.(applications := t.applications + [rejected]),
           ChatReply(LoanDeclined(a.reason), Underwriting, closed, false, None))
  }

  /** A turn's branch for `loan_details`; `None` when the decoded details are a truthy non-object. */
  function LoanDetailsStep(s: SessionRecord, t: Tables, o: ChatOracles): Option<Turn>
  {
    DetailsDecision(s, t, ExtractLoanDetails(o.loanReply, o.loanDecode), o)
  }

  /** What the `loan_details` branch does with the details decoded from the model's reply. */
  function DetailsDecision(s: SessionRecord, t: Tables, p: Option<Parsed<ExtractedLoan>>, o: ChatOracles): Option<Turn>
  {
    match p
    case Some(NotObject(true)) => None
    case Some(Object(d)) =>
      if !DetailsComplete(d) then
        Some(Turn(s, t, ChatReply(Plain(o.generated), Sales, s.stage, false, None)))
      else if LinkedCustomer(s, t).None? then
        var back := StageCode(PanVerification);
        Some(Turn(s.(stage := back), t, ChatReply(Plain(CompletePanFirst), Sales, back, true, Some(PanCardUpload))))
      else
        var key := s.customer.value;
        var c := WithDetails(t.customers[key], d);
        var app := NewApplication(c, d.loanAmount.value, d.purpose.value, d.tenureMonths.value,
                                  UnderReview, o.today, o.now, o.segmentRule);
        Some(AssessmentStep(s, t.(customers := t.customers[key := c]), app, o))
    case _ =>
      Some(Turn(s, t, ChatReply(Plain(o.generated), Sales, s.stage, false, None)))
  }

  /** The stage dispatch of `chat`; an unknown stage starts over. */
  function StageStep(s: SessionRecord, t: Tables, o: ChatOracles): Option<Turn>
  {
    match ParseStage(s.stage)
    case None =>
      var start := StageCode(Greeting);
      Some(Turn(s.(stage := start), t, ChatReply(Plain(RestartPrompt), Master, start, false, None)))
    case Some(Greeting) => GreetingStep(s, t, o)
    case Some(NameCollection) => GreetingStep(s, t, o)
    case Some(PanCollection) => Some(PanCollectionStep(s, t, o))
    case Some(PanVerification) =>
      Some(Turn(s, t, ChatReply(Plain(PanUploadReminder), Master, s.stage, true, Some(PanCardUpload))))
    case Some(SelfieVerification) =>
      Some(Turn(s, t, ChatReply(Plain(SelfieReminder), Master, s.stage, true, Some(SelfieUpload))))
    case Some(LoanDetails) => LoanDetailsStep(s, t, o)
    case Some(SalaryVerification) =>
      Some(Turn(s, t, ChatReply(Plain(SalaryReminder), Underwriting, s.stage, true, Some(SalarySlipUpload))))
    case Some(Completed) => Some(Turn(s, t, ChatReply(Plain(o.generated), Master, s.stage, false, None)))
    case Some(Rejected) => Some(Turn(s, t, ChatReply(Plain(o.generated), Master, s.stage, false, None)))
  }

  datatype ChatOutcome = ChatInvalidSession | ChatCrashed | ChatReplied(reply: ChatReply)

  /** The persisted state after a request, and the answer. */
  datatype Result<O> = Result(session: Option<SessionRecord>, tables: Tables, outcome: O)

  /** The session with the user's message appended to its log; `None` when `add_message` raises. */
  function Logged(s: SessionRecord, text: string): (r: Option<SessionRecord>)
    ensures r.None? <==> !Appendable(s.conversation)
    ensures r.Some? ==> r.value == s.(conversation := r.value.conversation)
    ensures r.Some? ==> ConversationHistory(r.value.conversation)
                        == Some(ConversationHistory(s.conversation).value + [UserMessage(text)])
  {
    match AddMessage(s.conversation, UserMessage(text))
    case None => None
    case Some(d) => Some(s.(conversation := d))
  }

  /**
   * What a chat turn on the stored session `s` stores and answers once the
   * dispatch has run: nothing when it raised, else the reply logged. When
   * logging the reply raises, only the rows the branch saved stay.
   */
  function Answer(s: SessionRecord, t: Tables, step: Option<Turn>): Result<ChatOutcome>
  {
    match step
    case None => Result(Some(s), t, ChatCrashed)
    case Some(turn) =>
      match AddMessage(turn.session.conversation, AssistantMessage(turn.reply.message, turn.reply.agent))
      case None => Result(Some(s), turn.tables, ChatCrashed)
      case Some(d) => Result(Some(turn.session.(conversation := d)), turn.tables, ChatReplied(turn.reply))
  }

  /**
   * `chat`: log the user's message, dispatch on the stage, log the reply
   * tagged with the answering agent, save. A turn that raises, in
   * `add_message` or in the dispatch, saves nothing.
   */
  function Chat(session: Option<SessionRecord>, t: Tables, text: string, o: ChatOracles): Result<ChatOutcome>
  {
    if session.None? then Result(session, t, ChatInvalidSession)
    else
      match Logged(session.value, text)
      case None => Result(session, t, ChatCrashed)
      case Some(logged) => Answer(session.value, t, StageStep(logged, t, o))
  }

  // ---------------------------------------------------------------- uploads

  /** An uploaded file: its declared content type, its size in bytes, and its content. */
  datatype Upload = Upload(contentType: string, size: int, data: Bytes)

  /** Why an upload is refused before anything is read or written. */
  datatype Refusal = MissingFile | BadType | TooLarge | InvalidSession

  const ImageTypes := ["image/jpeg", "image/jpg", "image/png", "image/webp"]
  const SlipTypes := ImageTypes + ["application/pdf"]
  const ImageLimit := 5 * 1024 * 1024
  const SlipLimit := 10 * 1024 * 1024

  /** The file checks of a handler: present, of an allowed type, at most `limit` bytes. */
  function CheckFile(file: Option<Upload>, allowed: seq<string>, limit: int): (r: Option<Refusal>)
    ensures r.None? <==> file.Some? && file.value.contentType in allowed && file.value.size <= limit
    ensures r == Some(MissingFile) <==> file.None?
    ensures r == Some(TooLarge) ==> file.value.size > limit
    ensures r != Some(InvalidSession)
  {
    if file.None? then Some(MissingFile)
    else if file.value.contentType !in allowed then Some(BadType)
    else if file.value.size > limit then Some(TooLarge)
    else None
  }

  /** The PAN image bytes staged on the session; empty bytes encode to a falsy empty text. */
  predicate Staged(s: SessionRecord)
  {
    s.tempPanImage.Some? && s.tempPanImage.value != []
  }

  // ------------------------------------------------------- upload_pan_card

  /**
   * The model calls of `upload_pan_card`: the reply to the PAN extraction
   * prompt over the conversation, the vision model's reply and its decoder,
   * the semantic name comparison, the date parser (both formats the handler
   * tries; they do not overlap), and the segmentation rules.
   */
  datatype PanOracles = PanOracles(
    panReply: string,
    visionReply: string,
    verdictDecode: Decoder<PanVerdict>,
    nameFallback: Option<Parsed<NameMatch>>,
    parseDate: string -> Option<Date>,
    ageOf: AgeRule,
    segmentRule: SegmentRule)

  datatype PanOutcome =
    | PanRefused(refusal: Refusal)
    | NameMissing
    | PanMismatchReply(expectedPan: string)
    | NameMismatchReply(reason: string)
    | PanVerified(pan: string, existing: bool, next: Content)
    | PanNotVerified(stage: string)
    | PanError
    | PanCrashed   // raised outside the handler's `try`: the server's error answer

  /** Reading the log message by message does not raise: a list, text that is not JSON, `{}` or `""`. */
  predicate Iterable(d: ConversationData)
  {
    !(d.NotAList? && !d.empty)
  }

  /** The PAN the conversation already holds, or `None` when the gate finds none. */
  function ExpectedPan(panReply: string): (r: Option<string>)
    ensures r.None? <==> ExtractPanNumber(panReply) == NotFound
    ensures r.Some? ==> IsPan(r.value) && r.value == ExtractPanNumber(panReply)
  {
    AgentProperties.ExtractPanNumberGate(panReply);
    var p := ExtractPanNumber(panReply);
    if p == NotFound then None else Some(p)
  }

  const DefaultCreditScore := 750
  const DefaultLimit := 100000.0

  /** A row created for a card whose PAN is not in the table yet. */
  function NewVerifiedCustomer(name: string, pan: string, dob: Option<Date>, confidence: Option<int>): (c: Customer)
    ensures c.name == name && c.pan == pan && c.dateOfBirth == dob
    ensures c.panVerified && c.panVerificationConfidence == confidence
    ensures c.creditScore == DefaultCreditScore && c.preApprovedLimit == DefaultLimit
    ensures !c.faceMatchVerified
  {
    DefaultCustomer(name, pan).(dateOfBirth := dob, panVerified := true, panVerificationConfidence := confidence,
                                creditScore := DefaultCreditScore, preApprovedLimit := DefaultLimit)
  }

  /** A verified card's row: the existing one marked verified, or a new one; `None` when creating it fails (no PAN or no name). */
  function RegisterCustomer(s: SessionRecord, t: Tables, v: PanVerdict, parseDate: string -> Option<Date>): Option<(Customer, bool)>
  {
    if v.panNumber.Str? && v.panNumber.value in t.customers then
      var c := t.customers[v.panNumber.value];
      var dob := if PresentField(v.dateOfBirth) && c.dateOfBirth.None? then parseDate(v.dateOfBirth.value)
                 else c.dateOfBirth;
      Some((c.(panVerified := true, panVerificationConfidence := v.confidence, dateOfBirth := dob), true))
    else if v.panNumber.Str? && v.nameOnCard.Str? then
      var fromSession := if Present(s.tempDob) then parseDate(s.tempDob.value) else None;
      var dob := if fromSession.None? && PresentField(v.dateOfBirth) then parseDate(v.dateOfBirth.value)
                 else fromSession;
      Some((NewVerifiedCustomer(v.nameOnCard.value, v.panNumber.value, dob, v.confidence), false))
    else None
  }

  /**
   * `upload_pan_card`: check the file, find the session, require a name,
   * read the PAN from the conversation, then verify the card against the
   * name and that PAN and act on the verdict. Reading the conversation
   * message by message raises, before the `try`, on a JSON value that is
   * not a list unless its iteration is empty.
   */
  function UploadPanCard(session: Option<SessionRecord>, t: Tables, file: Option<Upload>, o: PanOracles): Result<PanOutcome>
  {
    var refusal := CheckFile(file, ImageTypes, ImageLimit);
    if refusal.Some? then Result(session, t, PanRefused(refusal.value))
    else if session.None? then Result(session, t, PanRefused(InvalidSession))
    else
      var s := session.value;
      if s.customerName == "" then Result(session, t, NameMissing)
      else if !Iterable(s.conversation) then Result(session, t, PanCrashed)
      else
        var expected := ExpectedPan(o.panReply);
        CardDecision(s, t, file.value.data, expected,
                     VerifyPanCard(o.visionReply, o.verdictDecode, s.customerName, expected, o.nameFallback), o)
  }

  /**
   * What `upload_pan_card` does with the verdict `v` on the image `image`
   * it staged: on success link the (new or existing) verified customer and
   * move to `selfie_verification`, keeping the image staged. An invalid card
   * or an exception clears the staged image; the messages appended after
   * the last save are not persisted. When the log has no `append`, the
   * first message raises after that save, and the except branch clears the
   * image of the linked session.
   */
  function CardDecision(s: SessionRecord, t: Tables, image: Bytes, expected: Option<string>, v: PanVerdict,
                        o: PanOracles): Result<PanOutcome>
  {
    if !v.isValid then Result(Some(s.(tempPanImage := None)), t, PanNotVerified(s.stage))
    else if expected.Some? && v.panMatch == Some(false) then Result(Some(s), t, PanMismatchReply(expected.value))
    else if !NameMatched(v) then Result(Some(s), t, NameMismatchReply(MismatchReason(v)))
    else
      match RegisterCustomer(s, t, v, o.parseDate)
      case None => Result(Some(s.(tempPanImage := None)), t, PanError)
      case Some((c, existing)) =>
        var pan := v.panNumber.value;
        var linked := s.(customer := Some(pan), stage := StageCode(SelfieVerification), tempPanImage := Some(image));
        var stored := t.(customers := t.customers[pan := c]);
        if !Appendable(s.conversation) then Result(Some(linked.(tempPanImage := None)), stored, PanError)
        else
          var tone := SelfieToneFor(GetAgeSegment(Some(c), o.ageOf, o.segmentRule));
          Result(Some(linked), stored, PanVerified(pan, existing, SelfieRequest(tone)))
  }

  // ---------------------------------------------------------- upload_selfie

  const FaceThreshold := 20
  const DefaultMismatchNote := "Faces do not match sufficiently"

  datatype SelfieOutcome =
    | SelfieRefused(refusal: Refusal)
    | NotPanVerified
    | NoStagedImage(stage: string)
    | FaceVerified(confidence: int)
    | FaceNotVerified(message: Content, stage: string)
    | FaceError
    | SelfieCrashed       // raised outside the `try`: nothing stored

  /** `match_result.get('confidence_score', 0)`: `None` for `null`. */
  function ScoreValue(s: Score): Option<int>
  {
    match s
    case NoScore => Some(0)
    case NullScore => None
    case ScoreOf(n) => Some(n)
  }

  /** `match_result.get('verification_notes', default)`, as the text interpolated into the reply. */
  function NotesText(f: Field): string
  {
    match f
    case Absent => DefaultMismatchNote
    case Null => "None"
    case Str(x) => x
  }

  /**
   * `upload_selfie`: check the file, find the session, require a linked
   * PAN-verified customer and a staged PAN image, compare faces, and accept
   * when the faces match with confidence at least 20: mark the customer,
   * clear the staged image, move to `loan_details`. A rejected match keeps
   * everything for a retry; an exception (a non-object result, or a `null`
   * confidence compared with 20) clears the staged image. An accepted match
   * on a log without `append` raises after the save, answering with an
   * error over the same stored state.
   */
  function UploadSelfie(session: Option<SessionRecord>, t: Tables, file: Option<Upload>,
                        matchReply: string, matchDecode: Decoder<FaceMatch>): Result<SelfieOutcome>
  {
    var refusal := CheckFile(file, ImageTypes, ImageLimit);
    if refusal.Some? then Result(session, t, SelfieRefused(refusal.value))
    else if session.None? then Result(session, t, SelfieRefused(InvalidSession))
    else
      var s := session.value;
      var c := LinkedCustomer(s, t);
      if c.None? || !c.value.panVerified then Result(session, t, NotPanVerified)
      else if !Staged(s) then Result(session, t, NoStagedImage(StageCode(PanVerification)))
      else FaceDecision(s, t, c.value, ParseMatchResponse(matchReply, matchDecode))
  }

  /**
   * `upload_selfie` as written. `ChatSession` declares no
   * `temp_pan_image_data` column (models.py:92-116), so the image that
   * `upload_pan_card` assigns to the session object is never saved, and on
   * the session loaded for this request the read at views.py:102 raises
   * `AttributeError`, outside the `try`. Every request that passes the PAN
   * check fails with nothing stored, whatever the session's staged image.
   * `UploadSelfie` is the handler with the column the code evidently means.
   */
  function UploadSelfieAsWritten(session: Option<SessionRecord>, t: Tables, file: Option<Upload>): Result<SelfieOutcome>
  {
    var refusal := CheckFile(file, ImageTypes, ImageLimit);
    if refusal.Some? then Result(session, t, SelfieRefused(refusal.value))
    else if session.None? then Result(session, t, SelfieRefused(InvalidSession))
    else
      var c := LinkedCustomer(session.value, t);
      if c.None? || !c.value.panVerified then Result(session, t, NotPanVerified)
      else Result(session, t, SelfieCrashed)
  }

  /**
   * What `upload_selfie` does with the face comparison `m` for the linked
   * customer row `c`.
   */
  function FaceDecision(s: SessionRecord, t: Tables, c: Customer, m: Parsed<FaceMatch>): Result<SelfieOutcome>
    requires s.customer.Some?
  {
    match m
    case NotObject(_) => Result(Some(s.(tempPanImage := None)), t, FaceError)
    case Object(f) =>
      var score := ScoreValue(f.confidence);
      if f.facesMatch && score.None? then Result(Some(s.(tempPanImage := None)), t, FaceError)
      else if f.facesMatch && score.value >= FaceThreshold then
        var key := s.customer.value;
        var verified := c.(faceMatchVerified := true, faceMatchConfidence := score);
        var moved := s.(tempPanImage := None, stage := StageCode(LoanDetails));
        var marked := t.(customers := t.customers[key := verified]);
        if !Appendable(s.conversation) then Result(Some(moved), marked, FaceError)
        else Result(Some(moved), marked, FaceVerified(score.value))
      else Result(Some(s), t, FaceNotVerified(FaceMismatch(NotesText(f.notes), score), s.stage))
  }

  // ----------------------------------------------------- upload_salary_slip

  datatype SlipOutcome =
    | SlipRefused(refusal: Refusal)
    | NoCustomer
    | NoApplication
    | SlipApproved(index: nat, message: Content)
    | LetterFailed

  /** The most recent application of the customer with PAN `pan`: the last one created. */
  function LatestApplication(apps: seq<LoanApplication>, pan: string): (r: Option<nat>)
    ensures r.Some? ==> r.value < |apps| && apps[r.value].customer == pan
    ensures r.Some? ==> forall j | r.value < j < |apps| :: apps[j].customer != pan
    ensures r.None? ==> forall j | 0 <= j < |apps| :: apps[j].customer != pan
  {
    if apps == [] then None
    else if apps[|apps| - 1].customer == pan then Some(|apps| - 1)
    else LatestApplication(apps[..|apps| - 1], pan)
  }

  /**
   * `upload_salary_slip`: check the file (PDF allowed, 10 MB), find the
   * session and its customer's latest application, and approve it, whatever
   * the stage and the application's status. When the sanction letter is
   * generated the session moves to `completed` with the approval logged;
   * when generation or logging raises the approval stays and the session is
   * unchanged.
   */
  function UploadSalarySlip(session: Option<SessionRecord>, t: Tables, file: Option<Upload>,
                            letter: Option<Bytes>, ageOf: AgeRule, rule: SegmentRule): Result<SlipOutcome>
  {
    var refusal := CheckFile(file, SlipTypes, SlipLimit);
    if refusal.Some? then Result(session, t, SlipRefused(refusal.value))
    else if session.None? then Result(session, t, SlipRefused(InvalidSession))
    else
      var s := session.value;
      var c := LinkedCustomer(s, t);
      if c.None? then Result(session, t, NoCustomer)
      else
        var latest := LatestApplication(t.applications, s.customer.value);
        if latest.None? then Result(session, t, NoApplication)
        else
          var i := latest.value;
          var t1 := t.(applications := t.applications[i := t.applications[i].(status := Approved)]);
          if letter.None? then Result(session, t1, LetterFailed)
          else
            var note := SalarySlipApproval(t.applications[i].loanAmount, ApprovalToneFor(GetAgeSegment(c, ageOf, rule)));
            match AddMessage(s.conversation, AssistantMessage(note, Underwriting))
            case None => Result(session, t1, LetterFailed)
            case Some(d) => Result(Some(s.(stage := StageCode(Completed), conversation := d)), t1, SlipApproved(i, note))
  }
}
