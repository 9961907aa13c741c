/**
 * Properties of the three upload handlers: the file checks come before
 * everything else, and each outcome stores exactly what it should.
 */
module UploadProperties {
  import opened Common
  import opened Text
  import opened Models
  import opened Agents
  import opened AgentProperties
  import opened Workflow

  // ------------------------------------------------------------ refusals

  /**
   * A PAN card upload that is missing, of a type other than the four image
   * types, or over 5 MB is refused before the session is looked up, as is
   * one for an unknown session, and nothing changes; a PDF is refused.
   * Any other upload is not refused.
   */
  lemma PanUploadRefusal(session: Option<SessionRecord>, t: Tables, file: Option<Upload>, o: PanOracles)
    ensures var refusal := CheckFile(file, ImageTypes, ImageLimit);
      var r := UploadPanCard(session, t, file, o);
      (refusal.Some? ==> r == Result(session, t, PanRefused(refusal.value)))
      && (refusal.None? && session.None? ==> r == Result(session, t, PanRefused(InvalidSession)))
      && (r.outcome.PanRefused? <==> refusal.Some? || session.None?)
    ensures file.Some? && file.value.contentType == "application/pdf" ==>
      UploadPanCard(session, t, file, o) == Result(session, t, PanRefused(BadType))
  {
    if session.Some? && CheckFile(file, ImageTypes, ImageLimit).None? && session.value.customerName != ""
       && Iterable(session.value.conversation) {
      var s := session.value;
      PanUploadActsOnVerdict(s, t, file, o);
      CardDecisionNeverRefuses(s, t, file.value.data, ExpectedPan(o.panReply), Verdict(s, o), o);
    }
  }

  /** The same checks, with the same limits, guard the selfie upload. */
  lemma SelfieRefusal(session: Option<SessionRecord>, t: Tables, file: Option<Upload>,
                      matchReply: string, matchDecode: Decoder<FaceMatch>)
    ensures var refusal := CheckFile(file, ImageTypes, ImageLimit);
      var r := UploadSelfie(session, t, file, matchReply, matchDecode);
      (refusal.Some? ==> r == Result(session, t, SelfieRefused(refusal.value)))
      && (refusal.None? && session.None? ==> r == Result(session, t, SelfieRefused(InvalidSession)))
      && (r.outcome.SelfieRefused? <==> refusal.Some? || session.None?)
    ensures file.Some? && file.value.contentType == "application/pdf" ==>
      UploadSelfie(session, t, file, matchReply, matchDecode) == Result(session, t, SelfieRefused(BadType))
  {
  }

  /** A salary slip may also be a PDF, and may be up to 10 MB; otherwise the same refusals apply. */
  lemma SlipRefusal(session: Option<SessionRecord>, t: Tables, file: Option<Upload>,
                    letter: Option<Bytes>, ageOf: AgeRule, rule: SegmentRule)
    ensures var refusal := CheckFile(file, SlipTypes, SlipLimit);
      var r := UploadSalarySlip(session, t, file, letter, ageOf, rule);
      (refusal.Some? ==> r == Result(session, t, SlipRefused(refusal.value)))
      && (refusal.None? && session.None? ==> r == Result(session, t, SlipRefused(InvalidSession)))
      && (r.outcome.SlipRefused? <==> refusal.Some? || session.None?)
    ensures file.Some? && file.value.contentType == "application/pdf" && 0 <= file.value.size <= SlipLimit ==>
      !UploadSalarySlip(session, t, file, letter, ageOf, rule).outcome.SlipRefused?
      || session.None?
  {
  }

  // ------------------------------------------------------- upload_pan_card

  /** The verdict `upload_pan_card` acts on, for a session whose name is set. */
  function Verdict(s: SessionRecord, o: PanOracles): PanVerdict
  {
    VerifyPanCard(o.visionReply, o.verdictDecode, s.customerName, ExpectedPan(o.panReply), o.nameFallback)
  }

  /** Past the file, session and name checks, the upload acts on the verdict for the staged image. */
  lemma PanUploadActsOnVerdict(s: SessionRecord, t: Tables, file: Option<Upload>, o: PanOracles)
    requires CheckFile(file, ImageTypes, ImageLimit).None?
    requires s.customerName != "" && Iterable(s.conversation)
    ensures file.Some?
    ensures UploadPanCard(Some(s), t, file, o)
         == CardDecision(s, t, file.value.data, ExpectedPan(o.panReply), Verdict(s, o), o)
  {
  }

  lemma CardDecisionNeverRefuses(s: SessionRecord, t: Tables, image: Bytes, expected: Option<string>, v: PanVerdict,
                                 o: PanOracles)
    ensures !CardDecision(s, t, image, expected, v, o).outcome.PanRefused?
  {
  }

  /** What the post-processing guarantees of a verdict still valid: a matching name and, with a PAN expected, a matching PAN. */
  predicate Checked(v: PanVerdict, expected: Option<string>)
  {
    v.isValid ==>
      NameMatched(v) && (expected.Some? ==> v.panMatch == Some(true))
  }

  lemma VerdictChecked(s: SessionRecord, o: PanOracles)
    ensures Checked(Verdict(s, o), ExpectedPan(o.panReply))
  {
    var expected := ExpectedPan(o.panReply);
    VerifyPanCardSound(o.visionReply, o.verdictDecode, s.customerName, expected, o.nameFallback);
    if expected.Some? {
      assert |expected.value| == 10;
    }
  }

  /** On a checked verdict neither mismatch answer is given. */
  lemma CardDecisionChecked(s: SessionRecord, t: Tables, image: Bytes, expected: Option<string>, v: PanVerdict,
                            o: PanOracles)
    requires Checked(v, expected)
    ensures !CardDecision(s, t, image, expected, v, o).outcome.PanMismatchReply?
    ensures !CardDecision(s, t, image, expected, v, o).outcome.NameMismatchReply?
  {
  }

  /**
   * The two mismatch answers of `upload_pan_card` are never given: the
   * post-processing of the verdict already turns a PAN or name mismatch
   * into an invalid card.
   */
  lemma PanMismatchUnreachable(session: Option<SessionRecord>, t: Tables, file: Option<Upload>, o: PanOracles)
    ensures !UploadPanCard(session, t, file, o).outcome.PanMismatchReply?
    ensures !UploadPanCard(session, t, file, o).outcome.NameMismatchReply?
  {
    if session.Some? && CheckFile(file, ImageTypes, ImageLimit).None? && session.value.customerName != ""
       && Iterable(session.value.conversation) {
      var s := session.value;
      PanUploadActsOnVerdict(s, t, file, o);
      VerdictChecked(s, o);
      CardDecisionChecked(s, t, file.value.data, ExpectedPan(o.panReply), Verdict(s, o), o);
    }
  }

  /** Past the file and session checks, an unset name stops the upload with nothing changed. */
  lemma PanUploadNeedsName(s: SessionRecord, t: Tables, file: Option<Upload>, o: PanOracles)
    requires CheckFile(file, ImageTypes, ImageLimit).None?
    requires s.customerName == ""
    ensures UploadPanCard(Some(s), t, file, o) == Result(Some(s), t, NameMissing)
  {
  }

  /**
   * Past the file, session and name checks, a log that is a JSON value
   * other than a list, and not `{}` or `""`, makes the PAN extraction raise
   * before the `try`: nothing is stored, not even the staged image.
   */
  lemma PanUploadOnNonIterableLog(s: SessionRecord, t: Tables, file: Option<Upload>, o: PanOracles)
    requires CheckFile(file, ImageTypes, ImageLimit).None?
    requires s.customerName != "" && !Iterable(s.conversation)
    ensures UploadPanCard(Some(s), t, file, o) == Result(Some(s), t, PanCrashed)
  {
  }

  /** The verdict can be registered: an existing row for its PAN, or a PAN and a name to create one. */
  predicate Registrable(t: Tables, v: PanVerdict)
  {
    v.panNumber.Str? && (v.panNumber.value in t.customers || v.nameOnCard.Str?)
  }

  lemma CardDecisionOutcome(s: SessionRecord, t: Tables, image: Bytes, expected: Option<string>, v: PanVerdict,
                            o: PanOracles)
    requires Checked(v, expected)
    ensures var r := CardDecision(s, t, image, expected, v, o);
      (r.outcome.PanVerified? <==> v.isValid && Registrable(t, v) && Appendable(s.conversation))
      && (r.outcome.PanNotVerified? <==> !v.isValid)
      && (r.outcome.PanNotVerified? ==> r.outcome.stage == s.stage)
      && (r.outcome.PanError? <==> v.isValid && (!Registrable(t, v) || !Appendable(s.conversation)))
      && (r.outcome.PanNotVerified? || (v.isValid && !Registrable(t, v)) ==>
            r.session == Some(s.(tempPanImage := None)) && r.tables == t)
  {
  }

  /**
   * A valid, registrable card on a log without `append` is linked and its
   * row stored, since the save comes before the first `add_message`; the
   * except branch then clears the staged image and answers with an error.
   */
  lemma CardDecisionOnNonListLog(s: SessionRecord, t: Tables, image: Bytes, expected: Option<string>, v: PanVerdict,
                                 o: PanOracles)
    requires Checked(v, expected) && v.isValid && Registrable(t, v) && !Appendable(s.conversation)
    ensures var r := CardDecision(s, t, image, expected, v, o);
      var pan := v.panNumber.value;
      r.outcome == PanError && pan in r.tables.customers
      && r.session == Some(s.(customer := Some(pan), stage := StageCode(SelfieVerification), tempPanImage := None))
      && r.tables == t.(customers := t.customers[pan := r.tables.customers[pan]])
      && r.tables.customers[pan].panVerified
  {
  }

  /**
   * Past the checks, the card is accepted exactly when the verdict is valid,
   * a row can be registered and the log has an `append`. An invalid card,
   * or an error while registering, clears the staged image and keeps the
   * stage and the tables.
   */
  lemma PanUploadDecision(s: SessionRecord, t: Tables, file: Option<Upload>, o: PanOracles)
    requires CheckFile(file, ImageTypes, ImageLimit).None?
    requires s.customerName != "" && Iterable(s.conversation)
    ensures var v := Verdict(s, o);
      var r := UploadPanCard(Some(s), t, file, o);
      (r.outcome.PanVerified? <==> v.isValid && Registrable(t, v) && Appendable(s.conversation))
      && (r.outcome.PanNotVerified? <==> !v.isValid)
      && (r.outcome.PanNotVerified? ==> r.outcome.stage == s.stage)
      && (r.outcome.PanError? <==> v.isValid && (!Registrable(t, v) || !Appendable(s.conversation)))
      && (r.outcome.PanNotVerified? || (v.isValid && !Registrable(t, v)) ==>
            r.session == Some(s.(tempPanImage := None)) && r.tables == t)
  {
    PanUploadActsOnVerdict(s, t, file, o);
    VerdictChecked(s, o);
    CardDecisionOutcome(s, t, file.value.data, ExpectedPan(o.panReply), Verdict(s, o), o);
  }

  /** The row an accepted verdict registers, and what the session becomes. */
  lemma CardDecisionAccepted(s: SessionRecord, t: Tables, image: Bytes, expected: Option<string>, v: PanVerdict,
                             o: PanOracles)
    requires CardDecision(s, t, image, expected, v, o).outcome.PanVerified?
    ensures var r := CardDecision(s, t, image, expected, v, o);
      var pan := r.outcome.pan;
      var row := r.tables.customers[pan];
      pan in r.tables.customers && v.panNumber == Str(pan)
      && r.session == Some(s.(customer := Some(pan), stage := StageCode(SelfieVerification), tempPanImage := Some(image)))
      && r.tables == t.(customers := t.customers[pan := row])
      && row.panVerified && row.panVerificationConfidence == v.confidence
      && (r.outcome.existing <==> pan in t.customers)
      && (pan in t.customers ==>
            row == t.customers[pan].(panVerified := true, panVerificationConfidence := v.confidence,
                                     dateOfBirth := row.dateOfBirth)
            && (t.customers[pan].dateOfBirth.Some? ==> row.dateOfBirth == t.customers[pan].dateOfBirth))
      && (pan !in t.customers ==>
            row.pan == pan && row.creditScore == DefaultCreditScore && row.preApprovedLimit == DefaultLimit
            && !row.faceMatchVerified)
  {
  }

  /**
   * An accepted card links its row, marks it PAN-verified, moves the session
   * to `selfie_verification` and keeps the uploaded image staged; no other
   * row and no application changes. An existing row keeps everything but
   * the verification columns and a birth date it already had; a new row
   * gets the default credit score 750 and the default limit 100000.
   */
  lemma PanUploadAccepted(s: SessionRecord, t: Tables, file: Option<Upload>, o: PanOracles)
    requires CheckFile(file, ImageTypes, ImageLimit).None?
    requires s.customerName != "" && Iterable(s.conversation)
    requires UploadPanCard(Some(s), t, file, o).outcome.PanVerified?
    ensures file.Some?
    ensures var r := UploadPanCard(Some(s), t, file, o);
      r.outcome.pan in r.tables.customers
    ensures var r := UploadPanCard(Some(s), t, file, o);
      var pan := r.outcome.pan;
      var row := r.tables.customers[pan];
      r.session == Some(s.(customer := Some(pan), stage := StageCode(SelfieVerification),
                               tempPanImage := Some(file.value.data)))
      && r.tables == t.(customers := t.customers[pan := row])
      && row.panVerified && row.panVerificationConfidence == Verdict(s, o).confidence
      && (r.outcome.existing <==> pan in t.customers)
      && (pan in t.customers ==>
            row == t.customers[pan].(panVerified := true, panVerificationConfidence := row.panVerificationConfidence,
                                     dateOfBirth := row.dateOfBirth)
            && (t.customers[pan].dateOfBirth.Some? ==> row.dateOfBirth == t.customers[pan].dateOfBirth))
      && (pan !in t.customers ==>
            row.pan == pan && row.creditScore == DefaultCreditScore && row.preApprovedLimit == DefaultLimit
            && !row.faceMatchVerified)
  {
    PanUploadActsOnVerdict(s, t, file, o);
    var v := Verdict(s, o);
    var expected := ExpectedPan(o.panReply);
    var r := CardDecision(s, t, file.value.data, expected, v, o);
    assert r.outcome.PanVerified?;
    CardDecisionAccepted(s, t, file.value.data, expected, v, o);
  }

  // ---------------------------------------------------------- upload_selfie

  /** Past the file and session checks, a customer not PAN-verified, or no staged image, stops the upload with nothing changed. */
  lemma SelfieNeedsVerifiedPan(s: SessionRecord, t: Tables, file: Option<Upload>,
                               matchReply: string, matchDecode: Decoder<FaceMatch>)
    requires CheckFile(file, ImageTypes, ImageLimit).None?
    ensures var c := LinkedCustomer(s, t);
      c.None? || !c.value.panVerified ==>
        UploadSelfie(Some(s), t, file, matchReply, matchDecode) == Result(Some(s), t, NotPanVerified)
    ensures var c := LinkedCustomer(s, t);
      c.Some? && c.value.panVerified && !Staged(s) ==>
        UploadSelfie(Some(s), t, file, matchReply, matchDecode)
        == Result(Some(s), t, NoStagedImage(StageCode(PanVerification)))
  {
  }

  /** The face comparison passes: the faces match with a confidence of at least 20. */
  predicate FacePasses(m: Parsed<FaceMatch>)
  {
    m.Object? && m.fields.facesMatch && ScoreValue(m.fields.confidence).Some?
    && ScoreValue(m.fields.confidence).value >= FaceThreshold
  }

  /**
   * Past all checks, the selfie is accepted exactly when the faces match
   * with confidence at least 20: the customer is marked face-verified with
   * that confidence, the staged image is cleared and the session moves to
   * `loan_details`; on a log without `append` the same state is stored but
   * the answer is an error. A failed comparison changes nothing, so the
   * upload can be retried. An error before the save (a reply that is not an
   * object, or a match without a confidence) clears the staged image only.
   */
  lemma SelfieDecision(s: SessionRecord, t: Tables, file: Option<Upload>,
                       matchReply: string, matchDecode: Decoder<FaceMatch>)
    requires CheckFile(file, ImageTypes, ImageLimit).None?
    requires LinkedCustomer(s, t).Some? && LinkedCustomer(s, t).value.panVerified && Staged(s)
    ensures var m := ParseMatchResponse(matchReply, matchDecode);
      var r := UploadSelfie(Some(s), t, file, matchReply, matchDecode);
      var key := s.customer.value;
      (r.outcome.FaceVerified? <==> FacePasses(m) && Appendable(s.conversation))
      && (r.outcome.FaceVerified? ==> r.outcome.confidence == ScoreValue(m.fields.confidence).value)
      && (FacePasses(m) ==>
            r.session == Some(s.(tempPanImage := None, stage := StageCode(LoanDetails)))
            && r.tables == t.(customers := t.customers[key := t.customers[key].(
                                faceMatchVerified := true, faceMatchConfidence := ScoreValue(m.fields.confidence))]))
      && (r.outcome.FaceError? <==>
            m.NotObject? || (m.fields.facesMatch && m.fields.confidence.NullScore?)
            || (FacePasses(m) && !Appendable(s.conversation)))
      && (r.outcome.FaceError? && !FacePasses(m) ==> r.session == Some(s.(tempPanImage := None)) && r.tables == t)
      && (r.outcome.FaceNotVerified? ==>
            r.session == Some(s) && r.tables == t && r.outcome.stage == s.stage)
  {
  }

  /** A comparison reply that does not decode fails the check with confidence 0, changing nothing. */
  lemma SelfieUndecodable(s: SessionRecord, t: Tables, file: Option<Upload>,
                          matchReply: string, matchDecode: Decoder<FaceMatch>)
    requires CheckFile(file, ImageTypes, ImageLimit).None?
    requires LinkedCustomer(s, t).Some? && LinkedCustomer(s, t).value.panVerified && Staged(s)
    requires matchDecode(CleanFences(matchReply)).None?
    ensures var r := UploadSelfie(Some(s), t, file, matchReply, matchDecode);
      r.session == Some(s) && r.tables == t
      && r.outcome == FaceNotVerified(FaceMismatch(MatchParseFailure.notes.value, Some(0)), s.stage)
  {
    ParseMatchResponseUndecodable(matchReply, matchDecode);
  }

  /**
   * As written, `upload_selfie` agrees with the intended handler on the
   * refusals and the PAN check, and past them always raises, storing
   * nothing: it never reaches the staged-image check or the comparison.
   */
  lemma SelfieAsWrittenCrashes(session: Option<SessionRecord>, t: Tables, file: Option<Upload>,
                               matchReply: string, matchDecode: Decoder<FaceMatch>)
    ensures var r := UploadSelfieAsWritten(session, t, file);
      r.session == session && r.tables == t
      && (r.outcome == SelfieCrashed <==>
            CheckFile(file, ImageTypes, ImageLimit).None? && session.Some?
            && LinkedCustomer(session.value, t).Some? && LinkedCustomer(session.value, t).value.panVerified)
      && (r.outcome != SelfieCrashed ==> r == UploadSelfie(session, t, file, matchReply, matchDecode))
  {
  }

  /** Wherever the intended handler reaches a staged image, the handler as written raises instead. */
  lemma SelfieAsWrittenDiffers(session: Option<SessionRecord>, t: Tables, file: Option<Upload>,
                               matchReply: string, matchDecode: Decoder<FaceMatch>)
    ensures var r := UploadSelfie(session, t, file, matchReply, matchDecode).outcome;
      r.FaceVerified? || r.FaceNotVerified? || r.FaceError? || r.NoStagedImage? ==>
        UploadSelfieAsWritten(session, t, file) == Result(session, t, SelfieCrashed)
  {
  }

  /**
   * The input that shows it: a PAN-verified customer with a staged image
   * and a matching selfie is accepted by the intended handler, and makes
   * the handler as written raise.
   */
  lemma SelfieAsWrittenWitness()
    ensures var pan := "ABCDE1234F";
      var c := DefaultCustomer("Asha Rao", pan).(panVerified := true);
      var t := Tables(map[pan := c], []);
      var s := SessionRecord(StageCode(SelfieVerification), Some(pan), "Asha Rao", None, Some([0xFF]), Log([]));
      var file := Some(Upload("image/jpeg", 1024, [0xFF, 0xD8]));
      var decode: Decoder<FaceMatch> := (x: string) => Some(Object(FaceMatch(true, ScoreOf(90), Absent)));
      UploadSelfie(Some(s), t, file, "{}", decode).outcome == FaceVerified(90)
      && UploadSelfieAsWritten(Some(s), t, file) == Result(Some(s), t, SelfieCrashed)
  {
  }

  // ----------------------------------------------------- upload_salary_slip

  /**
   * Past the file and session checks, a slip for a session without a
   * linked customer, or whose customer has no application, changes nothing.
   * Otherwise the customer's latest application is approved, whatever the
   * session's stage and the application's status, and nothing else in the
   * tables changes; with a generated letter and a log that has an
   * `append` the session moves to `completed` and logs the approval,
   * otherwise the session is unchanged.
   */
  lemma SlipApprovesLatest(s: SessionRecord, t: Tables, file: Option<Upload>,
                           letter: Option<Bytes>, ageOf: AgeRule, rule: SegmentRule)
    requires CheckFile(file, SlipTypes, SlipLimit).None?
    ensures var r := UploadSalarySlip(Some(s), t, file, letter, ageOf, rule);
      LinkedCustomer(s, t).None? ==> r == Result(Some(s), t, NoCustomer)
    ensures var r := UploadSalarySlip(Some(s), t, file, letter, ageOf, rule);
      LinkedCustomer(s, t).Some? && (forall j | 0 <= j < |t.applications| :: t.applications[j].customer != s.customer.value) ==>
        r == Result(Some(s), t, NoApplication)
    ensures var r := UploadSalarySlip(Some(s), t, file, letter, ageOf, rule);
      r.outcome.SlipApproved? || r.outcome.LetterFailed? ==>
        exists i | 0 <= i < |t.applications| ::
          t.applications[i].customer == s.customer.value
          && (forall j | i < j < |t.applications| :: t.applications[j].customer != s.customer.value)
          && r.tables == t.(applications := t.applications[i := t.applications[i].(status := Approved)])
    ensures var r := UploadSalarySlip(Some(s), t, file, letter, ageOf, rule);
      r.outcome.SlipApproved? ==>
        letter.Some? && Appendable(s.conversation) && r.session.Some?
        && r.session.value == s.(stage := StageCode(Completed), conversation := r.session.value.conversation)
        && ConversationHistory(r.session.value.conversation)
           == Some(ConversationHistory(s.conversation).value + [AssistantMessage(r.outcome.message, Underwriting)])
    ensures var r := UploadSalarySlip(Some(s), t, file, letter, ageOf, rule);
      r.outcome.LetterFailed? ==> (letter.None? || !Appendable(s.conversation)) && r.session == Some(s)
    ensures var r := UploadSalarySlip(Some(s), t, file, letter, ageOf, rule);
      LinkedCustomer(s, t).Some? && (exists j | 0 <= j < |t.applications| :: t.applications[j].customer == s.customer.value) ==>
        (r.outcome.SlipApproved? <==> letter.Some? && Appendable(s.conversation))
        && (r.outcome.LetterFailed? <==> letter.None? || !Appendable(s.conversation))
  {
    var c := LinkedCustomer(s, t);
    if c.Some? {
      var latest := LatestApplication(t.applications, s.customer.value);
      if latest.Some? {
        var i := latest.value;
        assert t.applications[i].customer == s.customer.value;
      }
    }
  }
}
