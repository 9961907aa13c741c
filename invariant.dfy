/**
 * An invariant of the stored state that every handler preserves: customers
 * are keyed by their PAN, every application and the session's linked
 * customer refer to a stored row, and the stages from
 * `selfie_verification` on always have a linked customer. Under it, the
 * branch of the loan-details turn that handles a missing customer is never
 * taken.
 */
module WorkflowInvariant {
  import opened Common
  import opened Text
  import opened Models
  import opened Agents
  import opened Workflow
  import opened WorkflowProperties
  import opened UploadProperties

  predicate KeyedByPan(t: Tables)
  {
    forall k | k in t.customers :: t.customers[k].pan == k
  }

  predicate Owned(t: Tables)
  {
    forall i | 0 <= i < |t.applications| :: t.applications[i].customer in t.customers
  }

  /** The stages reached only once a customer is linked. */
  predicate LinkedStage(st: Stage)
  {
    st == SelfieVerification || st == LoanDetails || st == SalaryVerification || st == Completed || st == Stage.Rejected
  }

  predicate CustomerStage(code: string)
  {
    ParseStage(code).Some? && LinkedStage(ParseStage(code).value)
  }

  predicate Inv(s: SessionRecord, t: Tables)
  {
    KeyedByPan(t) && Owned(t)
    && (s.customer.Some? ==> s.customer.value in t.customers)
    && (CustomerStage(s.stage) ==> s.customer.Some?)
  }

  /** The invariant of a stored result. */
  predicate InvAfter<O>(r: Result<O>)
  {
    r.session.Some? ==> Inv(r.session.value, r.tables)
  }

  /** A new session over empty tables satisfies the invariant. */
  lemma InitialInv()
    ensures Inv(NewSession, Tables(map[], []))
  {
    StageCodeRoundTrip(Greeting);
  }

  // ------------------------------------------------------------------ chat

  lemma GreetingStepInv(s: SessionRecord, t: Tables, o: ChatOracles)
    requires Inv(s, t)
    ensures GreetingStep(s, t, o).Some? ==> Inv(GreetingStep(s, t, o).value.session, GreetingStep(s, t, o).value.tables)
  {
    StageCodeRoundTrip(NameCollection);
    StageCodeRoundTrip(PanCollection);
  }

  lemma PanCollectionStepInv(s: SessionRecord, t: Tables, o: ChatOracles)
    requires Inv(s, t)
    ensures Inv(PanCollectionStep(s, t, o).session, PanCollectionStep(s, t, o).tables)
  {
    StageCodeRoundTrip(PanVerification);
  }

  /** Adding an application owned by a stored row keeps the tables consistent. */
  lemma AppendOwned(t: Tables, a: LoanApplication)
    requires Owned(t) && a.customer in t.customers
    ensures Owned(t.(applications := t.applications + [a]))
  {
  }

  lemma AssessmentStepInv(s: SessionRecord, t: Tables, app: LoanApplication, o: ChatOracles)
    requires KeyedByPan(t) && Owned(t) && s.customer.Some? && s.customer.value in t.customers
    requires app.customer in t.customers && app.status == UnderReview
    ensures Inv(AssessmentStep(s, t, app, o).session, AssessmentStep(s, t, app, o).tables)
  {
    AssessmentStepOutcome(s, t, app, o);
    var turn := AssessmentStep(s, t, app, o);
    var added := turn.tables.applications[|t.applications|];
    assert turn.tables.applications == t.applications + [added];
    AppendOwned(t, added);
  }

  /** The application branch of a loan-details turn, before the underwriting outcome. */
  function Applied(s: SessionRecord, t: Tables, d: ExtractedLoan, o: ChatOracles): Turn
    requires LinkedCustomer(s, t).Some? && DetailsComplete(d)
  {
    var key := s.customer.value;
    var c := WithDetails(t.customers[key], d);
    var app := NewApplication(c, d.loanAmount.value, d.purpose.value, d.tenureMonths.value,
                              UnderReview, o.today, o.now, o.segmentRule);
    AssessmentStep(s, t.(customers := t.customers[key := c]), app, o)
  }

  lemma AppliedInv(s: SessionRecord, t: Tables, d: ExtractedLoan, o: ChatOracles)
    requires Inv(s, t) && LinkedCustomer(s, t).Some? && DetailsComplete(d)
    ensures Inv(Applied(s, t, d, o).session, Applied(s, t, d, o).tables)
  {
    var key := s.customer.value;
    var c := WithDetails(t.customers[key], d);
    var t1 := t.(customers := t.customers[key := c]);
    var app := NewApplication(c, d.loanAmount.value, d.purpose.value, d.tenureMonths.value,
                              UnderReview, o.today, o.now, o.segmentRule);
    assert c.pan == key;
    assert KeyedByPan(t1);
    assert Owned(t1);
    AssessmentStepInv(s, t1, app, o);
  }

  lemma LoanDetailsStepInv(s: SessionRecord, t: Tables, o: ChatOracles)
    requires Inv(s, t)
    ensures LoanDetailsStep(s, t, o).Some? ==> Inv(LoanDetailsStep(s, t, o).value.session, LoanDetailsStep(s, t, o).value.tables)
  {
    StageCodeRoundTrip(PanVerification);
    match ExtractLoanDetails(o.loanReply, o.loanDecode)
    case Some(Object(d)) =>
      if DetailsComplete(d) && LinkedCustomer(s, t).Some? {
        AppliedInv(s, t, d, o);
        assert LoanDetailsStep(s, t, o) == Some(Applied(s, t, d, o));
      }
    case _ =>
  }

  /** Every branch of the dispatch keeps the invariant. */
  lemma StageStepInv(s: SessionRecord, t: Tables, o: ChatOracles)
    requires Inv(s, t)
    ensures StageStep(s, t, o).Some? ==> Inv(StageStep(s, t, o).value.session, StageStep(s, t, o).value.tables)
  {
    match ParseStage(s.stage)
    case None => StageCodeRoundTrip(Greeting);
    case Some(Greeting) => GreetingStepInv(s, t, o);
    case Some(NameCollection) => GreetingStepInv(s, t, o);
    case Some(PanCollection) => PanCollectionStepInv(s, t, o);
    case Some(LoanDetails) => LoanDetailsStepInv(s, t, o);
    case Some(_) =>
  }

  /** A chat turn keeps the invariant. */
  lemma ChatInv(session: Option<SessionRecord>, t: Tables, text: string, o: ChatOracles)
    requires session.Some? ==> Inv(session.value, t)
    ensures InvAfter(Chat(session, t, text, o))
  {
    if session.Some? && Appendable(session.value.conversation) {
      StageStepInv(Logged(session.value, text).value, t, o);
    }
  }

  /**
   * Under the invariant, complete loan details in `loan_details` always
   * create an application: the branch for a session without a customer is
   * never taken.
   */
  lemma LoanDetailsAlwaysLinked(s: SessionRecord, t: Tables, text: string, o: ChatOracles)
    requires Inv(s, t)
    requires s.stage == StageCode(LoanDetails)
    requires CompleteDetails(o) && Appendable(s.conversation)
    ensures var r := Chat(Some(s), t, text, o);
      r.outcome.ChatReplied? && |r.tables.applications| == |t.applications| + 1
      && r.session.Some? && r.session.value.stage == StageCode(StageAfter(o.assessment.approved))
  {
    StageCodeRoundTrip(LoanDetails);
    LoanDetailsCreatesOne(s, t, text, o);
  }

  // --------------------------------------------------------------- uploads

  lemma CardDecisionInv(s: SessionRecord, t: Tables, image: Bytes, expected: Option<string>, v: PanVerdict,
                        o: PanOracles)
    requires Inv(s, t)
    ensures InvAfter(CardDecision(s, t, image, expected, v, o))
  {
    var r := CardDecision(s, t, image, expected, v, o);
    if r.outcome.PanVerified? {
      CardDecisionAccepted(s, t, image, expected, v, o);
      var pan := r.outcome.pan;
      assert r.tables.customers[pan].pan == pan;
    } else if r.outcome.PanError? && RegisterCustomer(s, t, v, o.parseDate).Some? {
      var pan := v.panNumber.value;
      assert r.tables.customers[pan].pan == pan;
    }
  }

  /** A PAN card upload keeps the invariant. */
  lemma UploadPanCardInv(session: Option<SessionRecord>, t: Tables, file: Option<Upload>, o: PanOracles)
    requires session.Some? ==> Inv(session.value, t)
    ensures InvAfter(UploadPanCard(session, t, file, o))
  {
    if session.Some? && CheckFile(file, ImageTypes, ImageLimit).None? && session.value.customerName != ""
       && Iterable(session.value.conversation) {
      var s := session.value;
      PanUploadActsOnVerdict(s, t, file, o);
      CardDecisionInv(s, t, file.value.data, ExpectedPan(o.panReply), Verdict(s, o), o);
    }
  }

  lemma FaceDecisionInv(s: SessionRecord, t: Tables, c: Customer, m: Parsed<FaceMatch>)
    requires Inv(s, t) && s.customer.Some? && c.pan == s.customer.value
    ensures InvAfter(FaceDecision(s, t, c, m))
  {
    StageCodeRoundTrip(LoanDetails);
  }

  /** A selfie upload keeps the invariant. */
  lemma UploadSelfieInv(session: Option<SessionRecord>, t: Tables, file: Option<Upload>,
                        matchReply: string, matchDecode: Decoder<FaceMatch>)
    requires session.Some? ==> Inv(session.value, t)
    ensures InvAfter(UploadSelfie(session, t, file, matchReply, matchDecode))
  {
    if session.Some? && CheckFile(file, ImageTypes, ImageLimit).None? {
      var s := session.value;
      var c := LinkedCustomer(s, t);
      if c.Some? && c.value.panVerified && Staged(s) {
        FaceDecisionInv(s, t, c.value, ParseMatchResponse(matchReply, matchDecode));
      }
    }
  }

  /** A salary slip upload keeps the invariant. */
  lemma UploadSalarySlipInv(session: Option<SessionRecord>, t: Tables, file: Option<Upload>,
                            letter: Option<Bytes>, ageOf: AgeRule, rule: SegmentRule)
    requires session.Some? ==> Inv(session.value, t)
    ensures InvAfter(UploadSalarySlip(session, t, file, letter, ageOf, rule))
  {
  }
}
