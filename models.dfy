/**
 * The persistent entities of the loan workflow: customers, chat sessions and
 * loan applications, with the entity-level operations (age, segment, approve,
 * reject, the creation-time segment snapshot, the tolerant conversation
 * parser) and the stage and status vocabularies.
 */
module Models {
  import opened Common

  // ---------------------------------------------------------------- dates

  datatype Date = Date(year: int, month: int, day: int)

  /** The tuple comparison `(a.month, a.day) < (b.month, b.day)`. */
  predicate MonthDayBefore(a: Date, b: Date)
  {
    a.month < b.month || (a.month == b.month && a.day < b.day)
  }

  /** Calendar order on dates, year first. */
  predicate DateBefore(a: Date, b: Date)
  {
    a.year < b.year || (a.year == b.year && MonthDayBefore(a, b))
  }

  /** The date `years` years after `dob`, on the same month and day. */
  function Anniversary(dob: Date, years: int): Date
  {
    Date(dob.year + years, dob.month, dob.day)
  }

  /**
   * `Customer.calculate_age`, with today's date passed in: no age without a
   * date of birth; otherwise the number of birthdays already reached, so the
   * `age`-th anniversary is not after today and the next one is.
   */
  function CalculateAge(dob: Option<Date>, today: Date): (age: Option<int>)
    ensures age.None? <==> dob.None?
    ensures age.Some? ==>
      !DateBefore(today, Anniversary(dob.value, age.value))
      && DateBefore(today, Anniversary(dob.value, age.value + 1))
  {
    if dob.None? then None
    else Some(today.year - dob.value.year - (if MonthDayBefore(today, dob.value) then 1 else 0))
  }

  /** Exactly one number of years fits between two anniversaries, so the age is determined by them. */
  lemma AgeIsCompletedYears(dob: Date, today: Date, n: int)
    requires !DateBefore(today, Anniversary(dob, n)) && DateBefore(today, Anniversary(dob, n + 1))
    ensures CalculateAge(Some(dob), today) == Some(n)
  {
  }

  /** Ages never go down as time goes on. */
  lemma AgeMonotone(dob: Date, earlier: Date, later: Date)
    requires !DateBefore(later, earlier)
    ensures CalculateAge(Some(dob), earlier).value <= CalculateAge(Some(dob), later).value
  {
  }

  // ------------------------------------------------------------- segments

  /** What the segmentation rules return: `segment` and `age_group`. */
  datatype Segment = Segment(segment: string, ageGroup: string)

  /**
   * `CustomerSegmentation.determine_segment(age, employment_type, monthly_income)`.
   * The segmentation rules are not part of this model; callers supply them.
   * `None` stands for any falsy result.
   */
  type SegmentRule = (int, Option<string>, Option<real>) -> Option<Segment>

  // ------------------------------------------------------------ customers

  datatype Customer = Customer(
    name: string,
    pan: string,
    dateOfBirth: Option<Date>,
    phone: Option<string>,
    creditScore: int,
    preApprovedLimit: real,
    employmentType: Option<string>,
    monthlyIncome: Option<real>,
    customerSegment: Option<string>,
    segmentCalculatedAt: Option<Time>,
    panVerified: bool,
    panVerificationDate: Option<Time>,
    panVerificationConfidence: Option<int>,
    faceMatchVerified: bool,
    faceMatchConfidence: Option<int>)

  /** A customer row created with only name and PAN given: every other column at its default. */
  function DefaultCustomer(name: string, pan: string): (c: Customer)
    ensures c.name == name && c.pan == pan
    ensures c.creditScore == 0 && c.preApprovedLimit == 0.0
    ensures !c.panVerified && !c.faceMatchVerified && c.dateOfBirth.None?
    ensures c.phone.None? && c.employmentType.None? && c.monthlyIncome.None?
    ensures c.customerSegment.None? && c.segmentCalculatedAt.None?
    ensures c.panVerificationDate.None? && c.panVerificationConfidence.None? && c.faceMatchConfidence.None?
  {
    Customer(name, pan, None, None, 0, 0.0, None, None, None, None, false, None, None, false, None)
  }

  /** `Customer.get_segment`: the segmentation of the customer's age, employment and income. */
  function GetSegment(c: Customer, today: Date, rule: SegmentRule): (r: Option<Segment>)
    ensures CalculateAge(c.dateOfBirth, today).None? ==> r.None?
    ensures c.dateOfBirth.Some? ==>
      r == rule(CalculateAge(c.dateOfBirth, today).value, c.employmentType, c.monthlyIncome)
  {
    var age := CalculateAge(c.dateOfBirth, today);
    if age.None? then None else rule(age.value, c.employmentType, c.monthlyIncome)
  }

  /** `Customer.update_segment`: store the segment name and the time it was computed, if there is one. */
  function UpdateSegment(c: Customer, today: Date, now: Time, rule: SegmentRule): Customer
  {
    match GetSegment(c, today, rule)
    case None => c
    case Some(s) => c.(customerSegment := Some(s.segment), segmentCalculatedAt := Some(now))
  }

  /**
   * `update_segment` writes only the two segment columns, writes them only
   * when there is a segment, and then records that segment's name.
   */
  lemma UpdateSegmentTouchesOnlySegment(c: Customer, today: Date, now: Time, rule: SegmentRule)
    ensures var u := UpdateSegment(c, today, now, rule);
      u == c.(customerSegment := u.customerSegment, segmentCalculatedAt := u.segmentCalculatedAt)
    ensures c.dateOfBirth.None? ==> UpdateSegment(c, today, now, rule) == c
    ensures GetSegment(c, today, rule).None? ==> UpdateSegment(c, today, now, rule) == c
    ensures GetSegment(c, today, rule).Some? ==>
      UpdateSegment(c, today, now, rule).customerSegment == Some(GetSegment(c, today, rule).value.segment)
      && UpdateSegment(c, today, now, rule).segmentCalculatedAt == Some(now)
  {
  }

  // -------------------------------------------------------- loan statuses

  datatype Status = Pending | UnderReview | Approved | Rejected | Disbursed

  const DefaultStatus := Pending

  function StatusCode(s: Status): string
  {
    match s
    case Pending => "pending"
    case UnderReview => "under_review"
    case Approved => "approved"
    case Rejected => "rejected"
    case Disbursed => "disbursed"
  }

  /** Reads a stored status code; `None` for anything outside `STATUS_CHOICES`. */
  function ParseStatus(code: string): (r: Option<Status>)
    ensures r.Some? ==> StatusCode(r.value) == code
    ensures r.None? ==> forall s: Status :: StatusCode(s) != code
  {
    if code == "pending" then Some(Pending)
    else if code == "under_review" then Some(UnderReview)
    else if code == "approved" then Some(Approved)
    else if code == "rejected" then Some(Status.Rejected)
    else if code == "disbursed" then Some(Disbursed)
    else None
  }

  lemma StatusCodeRoundTrip(s: Status)
    ensures ParseStatus(StatusCode(s)) == Some(s)
  {
  }

  // ---------------------------------------------------- loan applications

  datatype LoanApplication = LoanApplication(
    customer: string,                 // the owner's PAN, the key of the customer table
    loanAmount: real,
    purpose: string,
    tenureMonths: int,
    status: Status,
    segmentSnapshot: Option<string>,
    approvalReason: Option<string>,
    rejectionReason: Option<string>,
    sanctionLetter: Option<Bytes>,
    appliedAt: Time,
    approvedAt: Option<Time>,
    rejectedAt: Option<Time>)

  /**
   * A new row as `LoanApplication.save` writes it the first time (no primary
   * key yet): the owner's segment at that moment becomes the snapshot.
   */
  function NewApplication(owner: Customer, amount: real, purpose: string, tenure: int,
                          status: Status, today: Date, now: Time, rule: SegmentRule): (a: LoanApplication)
    ensures a.customer == owner.pan && a.loanAmount == amount && a.purpose == purpose
    ensures a.tenureMonths == tenure && a.status == status && a.appliedAt == now
    ensures a.approvalReason.None? && a.rejectionReason.None? && a.sanctionLetter.None?
    ensures a.approvedAt.None? && a.rejectedAt.None?
    ensures a.segmentSnapshot.Some? <==> GetSegment(owner, today, rule).Some?
    ensures a.segmentSnapshot.Some? ==> a.segmentSnapshot.value == GetSegment(owner, today, rule).value.segment
  {
    var seg := GetSegment(owner, today, rule);
    LoanApplication(owner.pan, amount, purpose, tenure, status,
                    if seg.Some? then Some(seg.value.segment) else None,
                    None, None, None, now, None, None)
  }

  /** `LoanApplication.approve(reason)`. */
  function Approve(a: LoanApplication, reason: string, now: Time): LoanApplication
  {
    a.(status := Approved, approvalReason := Some(reason), approvedAt := Some(now))
  }

  /** `LoanApplication.reject(reason)`. */
  function Reject(a: LoanApplication, reason: string, now: Time): LoanApplication
  {
    a.(status := Status.Rejected, rejectionReason := Some(reason), rejectedAt := Some(now))
  }

  /**
   * `approve` and `reject` set exactly their status, reason and time stamp;
   * amount, purpose, tenure, owner and the segment snapshot are left alone.
   */
  lemma ApproveRejectFrame(a: LoanApplication, reason: string, now: Time)
    ensures var b := Approve(a, reason, now);
      b.status == Approved && b.approvalReason == Some(reason) && b.approvedAt == Some(now)
      && b == a.(status := b.status, approvalReason := b.approvalReason, approvedAt := b.approvedAt)
    ensures var b := Reject(a, reason, now);
      b.status == Status.Rejected && b.rejectionReason == Some(reason) && b.rejectedAt == Some(now)
      && b == a.(status := b.status, rejectionReason := b.rejectionReason, rejectedAt := b.rejectedAt)
    ensures Approve(a, reason, now).segmentSnapshot == a.segmentSnapshot
    ensures Reject(a, reason, now).segmentSnapshot == a.segmentSnapshot
  {
  }

  // ------------------------------------------------------- session stages

  datatype Stage =
    | Greeting | NameCollection | PanCollection | PanVerification | SelfieVerification
    | LoanDetails | SalaryVerification | Completed | Rejected

  const DefaultStage := Greeting

  function StageCode(s: Stage): string
  {
    match s
    case Greeting => "greeting"
    case NameCollection => "name_collection"
    case PanCollection => "pan_collection"
    case PanVerification => "pan_verification"
    case SelfieVerification => "selfie_verification"
    case LoanDetails => "loan_details"
    case SalaryVerification => "salary_verification"
    case Completed => "completed"
    case Rejected => "rejected"
  }

  /** Reads a stored stage; `None` for anything outside `STAGE_CHOICES`. */
  function ParseStage(code: string): (r: Option<Stage>)
    ensures r.Some? ==> StageCode(r.value) == code
    ensures r.None? ==> forall s: Stage :: StageCode(s) != code
  {
    if code == "greeting" then Some(Greeting)
    else if code == "name_collection" then Some(NameCollection)
    else if code == "pan_collection" then Some(PanCollection)
    else if code == "pan_verification" then Some(PanVerification)
    else if code == "selfie_verification" then Some(SelfieVerification)
    else if code == "loan_details" then Some(LoanDetails)
    else if code == "salary_verification" then Some(SalaryVerification)
    else if code == "completed" then Some(Completed)
    else if code == "rejected" then Some(Stage.Rejected)
    else None
  }

  lemma StageCodeRoundTrip(s: Stage)
    ensures ParseStage(StageCode(s)) == Some(s)
  {
  }

  predicate KnownStage(code: string)
  {
    ParseStage(code).Some?
  }

  // ---------------------------------------------------------- conversation

  datatype Role = User | Assistant

  /** The agent names that tag assistant messages. */
  datatype Agent = Master | Sales | Verification | Underwriting

  /** Tone of the selfie request after a PAN card is verified. */
  datatype SelfieTone = SelfieFast | SelfieReassuring | SelfieStandard

  /** Tone of the approval after a salary slip upload. */
  datatype ApprovalTone = ApprovalFast | ApprovalWelcomeBack | ApprovalStandard

  /**
   * The content of a message. `Plain` is a verbatim text: what the user typed,
   * what a language model wrote, or one of the fixed sentences of the views;
   * the other variants are the views' formatted messages with their parameters.
   */
  datatype Content =
    | Plain(text: string)
    | PanUploadRequest(pan: string)
    | LoanApprovedNotice(amount: real, reason: string, segmentNote: string, letterIssued: bool)
    | AdditionalVerification(reason: string)
    | BusinessDocuments(reason: string, documents: seq<string>)
    | GuarantorNeeded(reason: string)
    | LoanDeclined(reason: string)
    | SelfieRequest(selfieTone: SelfieTone)
    | SalarySlipApproval(approvedAmount: real, approvalTone: ApprovalTone)
    | FaceMismatch(notes: string, confidence: Option<int>)
    | PanNumberMismatch(expectedPan: string)
    | NameMismatch(nameReason: string)

  datatype Message = Message(role: Role, content: Content, agent: Option<Agent>)

  /**
   * The `conversation_data` column as `json.loads` reads it: a JSON list of
   * messages, another JSON value, or text that is not JSON. Of the other
   * values, `empty` marks the two whose iteration yields nothing (`{}` and
   * `""`); iterating any other one message by message raises.
   */
  datatype ConversationData = Log(entries: seq<Message>) | NotAList(empty: bool) | Unreadable(raw: string)

  /** The column's default, the text `'[]'`. */
  const EmptyConversation := Log([])

  /**
   * `ChatSession.get_conversation_history`: the stored list, `[]` when the
   * text does not parse, and `None` for a JSON value that is not a list,
   * which it returns as it is. Its ensures are the case mapping itself;
   * `WorkflowProperties.AddMessageReadsBack` is the property built on it.
   */
  function ConversationHistory(d: ConversationData): (h: Option<seq<Message>>)
    ensures h.None? <==> d.NotAList?
    ensures d.Unreadable? ==> h == Some([])
    ensures d.Log? ==> h == Some(d.entries)
  {
    match d
    case Log(entries) => Some(entries)
    case NotAList(_) => None
    case Unreadable(_) => Some([])
  }

  /** Whether the history read from the column has an `append`: every form but a JSON value that is not a list. */
  predicate Appendable(d: ConversationData)
  {
    ConversationHistory(d).Some?
  }

  // --------------------------------------------------------------- sessions

  /** The persisted columns of one chat session. */
  datatype SessionRecord = SessionRecord(
    stage: string,
    customer: Option<string>,          // the PAN of the linked customer
    customerName: string,              // "" when unset
    tempDob: Option<string>,
    tempPanImage: Option<Bytes>,
    conversation: ConversationData)

  const NewSession := SessionRecord(StageCode(DefaultStage), None, "", None, None, EmptyConversation)

  /** A chat session row, updated in place by the request handlers. */
  class ChatSession {
    var stage: string
    var customer: Option<string>
    var customerName: string
    var tempDob: Option<string>
    var tempPanImage: Option<Bytes>
    var conversation: ConversationData

    function Record(): SessionRecord
      reads this
    {
      SessionRecord(stage, customer, customerName, tempDob, tempPanImage, conversation)
    }

    /** `ChatSession.objects.create()`: stage `greeting`, an empty log, nothing else set. */
    constructor ()
      ensures Record() == NewSession
      ensures stage == "greeting" && ConversationHistory(conversation) == Some([])
    {
      stage := "greeting";
      customer := None;
      customerName := "";
      tempDob := None;
      tempPanImage := None;
      conversation := EmptyConversation;
    }

    /** Writes a whole record back, as `session.save()` after the handler's assignments. */
    method Store(r: SessionRecord)
      modifies this
      ensures Record() == r
    {
      stage := r.stage;
      customer := r.customer;
      customerName := r.customerName;
      tempDob := r.tempDob;
      tempPanImage := r.tempPanImage;
      conversation := r.conversation;
    }
  }

  // ------------------------------------------------------------ the tables

  /** The customer table, keyed by PAN, and the loan application table in creation order. */
  class Store {
    var customers: map<string, Customer>
    var applications: seq<LoanApplication>

    constructor ()
      ensures customers == map[] && applications == []
    {
      customers := map[];
      applications := [];
    }

    /** `customer.save()` (or `Customer.objects.create`): the row keyed `pan` now holds `c`. */
    method Put(pan: string, c: Customer)
      modifies this
      ensures customers == old(customers)[pan := c]
      ensures applications == old(applications)
    {
      customers := customers[pan := c];
    }

    /** `Customer.update_segment` on the row with PAN `pan`. */
    method UpdateCustomerSegment(pan: string, today: Date, now: Time, rule: SegmentRule)
      requires pan in customers
      modifies this
      ensures customers == old(customers)[pan := UpdateSegment(old(customers)[pan], today, now, rule)]
      ensures applications == old(applications)
    {
      customers := customers[pan := UpdateSegment(customers[pan], today, now, rule)];
    }

    /** `LoanApplication.objects.create(...)`: appends the new row and returns its index. */
    method CreateApplication(pan: string, amount: real, purpose: string, tenure: int,
                             status: Status, today: Date, now: Time, rule: SegmentRule)
      returns (index: nat)
      requires pan in customers
      modifies this
      ensures index == |old(applications)|
      ensures applications ==
        old(applications) + [NewApplication(old(customers)[pan], amount, purpose, tenure, status, today, now, rule)]
      ensures customers == old(customers)
    {
      index := |applications|;
      applications := applications + [NewApplication(customers[pan], amount, purpose, tenure, status, today, now, rule)];
    }

    /** `loan_app.status = status; loan_app.save()` on row `i`. */
    method SetStatus(i: nat, status: Status)
      requires i < |applications|
      modifies this
      ensures applications == old(applications)[i := old(applications)[i].(status := status)]
      ensures customers == old(customers)
    {
      applications := applications[i := applications[i].(status := status)];
    }

    /** `loan_app.rejection_reason = reason; loan_app.save()` on row `i`. */
    method SetRejectionReason(i: nat, reason: string)
      requires i < |applications|
      modifies this
      ensures applications == old(applications)[i := old(applications)[i].(rejectionReason := Some(reason))]
      ensures customers == old(customers)
    {
      applications := applications[i := applications[i].(rejectionReason := Some(reason))];
    }

    /** `loan_app.sanction_letter.save(...)` on row `i`. */
    method AttachLetter(i: nat, letter: Bytes)
      requires i < |applications|
      modifies this
      ensures applications == old(applications)[i := old(applications)[i].(sanctionLetter := Some(letter))]
      ensures customers == old(customers)
    {
      applications := applications[i := applications[i].(sanctionLetter := Some(letter))];
    }

    /** `LoanApplication.approve(reason)` on row `i`. */
    method ApproveApplication(i: nat, reason: string, now: Time)
      requires i < |applications|
      modifies this
      ensures applications == old(applications)[i := Approve(old(applications)[i], reason, now)]
      ensures customers == old(customers)
    {
      applications := applications[i := Approve(applications[i], reason, now)];
    }

    /** `LoanApplication.reject(reason)` on row `i`. */
    method RejectApplication(i: nat, reason: string, now: Time)
      requires i < |applications|
      modifies this
      ensures applications == old(applications)[i := Reject(old(applications)[i], reason, now)]
      ensures customers == old(customers)
    {
      applications := applications[i := Reject(applications[i], reason, now)];
    }
  }
}
