/**
 * The deterministic rules of the agents: the PAN format gate, the
 * Markdown-fence-stripping JSON parsers, name matching, the post-processing
 * of a PAN card verdict, KYC validation, the credit decision and the
 * affordability check. Every language-model call is an input: its reply
 * text, and the JSON decoder applied to that text, are parameters.
 */
module Agents {
  import opened Common
  import opened Text
  import opened Models

  // ------------------------------------------------------------ model calls

  /** What `call_openai` returns when the request raises: `"Error: "` and the message. */
  function CallFailure(detail: string): string
  {
    "Error: " + detail
  }

  // --------------------------------------------------------- PAN extraction

  const NotFound := "NOT_FOUND"

  /** Five letters A-Z, four digits, one letter A-Z. */
  predicate IsPan(s: string)
  {
    |s| == 10
    && (forall i | 0 <= i < 5 :: IsAsciiUpper(s[i]))
    && (forall i | 5 <= i < 9 :: IsDigit(s[i]))
    && IsAsciiUpper(s[9])
  }

  /** `re.match(r'^[A-Z]{5}[0-9]{4}[A-Z]$', s)`, where `$` also matches before a final newline. */
  predicate PanPatternMatches(s: string)
  {
    IsPan(s) || (|s| == 11 && IsPan(s[..10]) && s[10] == '\n')
  }

  /** `MasterAgent.extract_pan_number`, given the model's reply. */
  function ExtractPanNumber(reply: string): string
  {
    var pan := Upper(Strip(reply));
    if PanPatternMatches(pan) then pan else NotFound
  }

  // ------------------------------------------------------- fenced JSON text

  function DropJsonOpener(s: string): string
  {
    if StartsWith(s, "```json") then s[7..] else s
  }

  function DropOpener(s: string): string
  {
    if StartsWith(s, "```") then s[3..] else s
  }

  function DropCloser(s: string): string
  {
    if EndsWith(s, "```") then s[..|s| - 3] else s
  }

  /**
   * The cleaning every JSON parser applies before decoding: strip, drop one
   * leading "```json", then one leading "```", then one trailing "```", strip.
   */
  function CleanFences(reply: string): string
  {
    Strip(DropCloser(DropOpener(DropJsonOpener(Strip(reply)))))
  }

  /** A decoded JSON value: an object with the fields the caller reads, or some other value and its truthiness. */
  datatype Parsed<T> = Object(fields: T) | NotObject(truthy: bool)

  /** The part of `json.loads` a parser relies on; `None` when the text is not JSON. */
  type Decoder<T> = string -> Option<Parsed<T>>

  /** A JSON member read with `.get`: missing, `null`, or a string. */
  datatype Field = Absent | Null | Str(value: string)

  // ---------------------------------------------------------- face matching

  /** `confidence_score` as read with `.get`: missing, `null`, or a number. */
  datatype Score = NoScore | NullScore | ScoreOf(value: int)

  /** The fields of a face-match result that the workflow reads. */
  datatype FaceMatch = FaceMatch(facesMatch: bool, confidence: Score, notes: Field)

  const MatchParseFailure := FaceMatch(false, ScoreOf(0), Str("Failed to parse face match response"))

  /** `FaceMatchAgent._parse_match_response`. */
  function ParseMatchResponse(reply: string, decode: Decoder<FaceMatch>): Parsed<FaceMatch>
  {
    decode(CleanFences(reply)).GetOr(Object(MatchParseFailure))
  }

  // ------------------------------------------------------------ name match

  /**
   * A name comparison as the dictionary the check indexes: `matches` (its
   * truth value) and `reason` (the text it formats to) are `None` when the
   * key is missing; `confidence`, which no caller reads, is `None` when it
   * is missing or not an integer.
   */
  datatype NameMatch = NameMatch(matches: Option<bool>, confidence: Option<int>, reason: Option<string>)

  const ExactMatch := NameMatch(Some(true), Some(100), Some("Exact match"))
  const WordMatch := NameMatch(Some(true), Some(85), Some("Substantial word match"))
  const FailedMatch := NameMatch(Some(false), Some(0), Some("Names do not match and verification failed"))

  /**
   * The keys the name check indexes are there: a dictionary with `matches`,
   * and with `reason` as well when it does not match.
   */
  predicate Readable(nm: Parsed<NameMatch>)
  {
    nm.Object? && nm.fields.matches.Some? && (!nm.fields.matches.value ==> nm.fields.reason.Some?)
  }

  /** Upper-case, keep letters A-Z and white space, strip. */
  function NameKey(name: string): string
  {
    Strip(KeepLettersAndSpaces(Upper(name)))
  }

  /** `len(common) >= len(provided) * 0.8`, in exact integers. */
  predicate SubstantialOverlap(provided: set<string>, extracted: set<string>)
  {
    5 * |provided * extracted| >= 4 * |provided|
  }

  /** The tiers of `_verify_name_match` on two normalised names. */
  function MatchKeys(p: string, e: string, fallback: Option<Parsed<NameMatch>>): Parsed<NameMatch>
  {
    if p == e then Object(ExactMatch)
    else if SubstantialOverlap(WordSet(p), WordSet(e)) then Object(WordMatch)
    else fallback.GetOr(Object(FailedMatch))
  }

  /**
   * `PANVerificationAgent._verify_name_match`. The semantic comparison by a
   * language model is the input `fallback`: whatever `json.loads` made of
   * its answer (returned unchecked, so possibly not a dictionary or without
   * the keys), or `None` when the call or the decoding raised.
   */
  function VerifyNameMatch(provided: string, extracted: string, fallback: Option<Parsed<NameMatch>>): Parsed<NameMatch>
  {
    MatchKeys(NameKey(provided), NameKey(extracted), fallback)
  }

  /** A character is its own upper case. */
  predicate UpperFixed(d: char)
  {
    UpperChar(d) == [d]
  }

  // ---------------------------------------------------- PAN card verdicts

  /** The fields of a PAN verification result that the workflow reads. */
  datatype PanVerdict = PanVerdict(
    isValid: bool,
    panNumber: Field,
    nameOnCard: Field,
    dateOfBirth: Field,
    confidence: Option<int>,
    notes: Field,
    nameMatch: Option<NameMatch>,
    panMatch: Option<bool>)

  function NotesOnly(isValid: bool, notes: string): PanVerdict
  {
    PanVerdict(isValid, Absent, Absent, Absent, None, Str(notes), None, None)
  }

  const VerificationParseFailure := NotesOnly(false, "Failed to parse verification response")
  const VerificationError := NotesOnly(false, "Error during verification process")

  /** `PANVerificationAgent._parse_verification_response`. */
  function ParseVerificationResponse(reply: string, decode: Decoder<PanVerdict>): Parsed<PanVerdict>
  {
    decode(CleanFences(reply)).GetOr(Object(VerificationParseFailure))
  }

  /** `verification_notes += note`; `None` when the member is missing or not a string (the update raises). */
  function AppendNote(v: PanVerdict, note: string): Option<PanVerdict>
  {
    if v.notes.Str? then Some(v.(notes := Str(v.notes.value + note))) else None
  }

  /** `verification_result.get(key, '')` for a member that is not `null`. */
  function TextOf(f: Field): string
  {
    if f.Str? then f.value else ""
  }

  /**
   * The name check of `verify_pan_card`, given the outcome `nm` of the name
   * comparison; `None` when indexing it raises (not a dictionary, or a
   * missing key) or the note cannot be appended.
   */
  function CheckName(v: PanVerdict, nm: Parsed<NameMatch>): Option<PanVerdict>
  {
    match nm
    case NotObject(_) => None
    case Object(m) =>
      var v1 := v.(nameMatch := Some(m));
      if m.matches.None? then None
      else if m.matches.value then Some(v1)
      else if m.reason.None? then None
      else AppendNote(v1.(isValid := false), " | Name mismatch: " + m.reason.value)
  }

  /** `result.get('name_match', {}).get('matches')` is truthy. */
  predicate NameMatched(v: PanVerdict)
  {
    v.nameMatch.Some? && v.nameMatch.value.matches == Some(true)
  }

  /** `result.get('name_match', {}).get('reason', 'Names do not match')`. */
  function MismatchReason(v: PanVerdict): string
  {
    if v.nameMatch.Some? && v.nameMatch.value.reason.Some? then v.nameMatch.value.reason.value
    else "Names do not match"
  }

  /** The PAN check of `verify_pan_card`, done only for a non-empty expected PAN (a `null` PAN raises). */
  function CheckPan(v: PanVerdict, expectedPan: Option<string>): Option<PanVerdict>
  {
    if expectedPan.None? || expectedPan.value == "" then Some(v)
    else if v.panNumber.Null? then None
    else if Upper(TextOf(v.panNumber)) != Upper(expectedPan.value) then
      AppendNote(v.(isValid := false, panMatch := Some(false)), " | PAN number mismatch")
    else Some(v.(panMatch := Some(true)))
  }

  /**
   * The "additional verification checks" on a decoded verdict; `None` when
   * one of them raises (a `null` card name makes `.upper()` raise).
   */
  function PostProcess(v: PanVerdict, expectedName: string, expectedPan: Option<string>,
                       fallback: Option<Parsed<NameMatch>>): Option<PanVerdict>
  {
    if !v.isValid then Some(v)
    else if v.nameOnCard.Null? then None
    else
      Checks(v, VerifyNameMatch(expectedName, TextOf(v.nameOnCard), fallback), expectedPan)
  }

  /** The name check, then (if it did not raise) the PAN check. */
  function Checks(v: PanVerdict, nm: Parsed<NameMatch>, expectedPan: Option<string>): Option<PanVerdict>
  {
    match CheckName(v, nm)
    case None => None
    case Some(v1) => CheckPan(v1, expectedPan)
  }

  /**
   * `PANVerificationAgent.verify_pan_card`, given the vision model's reply and
   * the decoder: any exception raised on the way gives the error verdict.
   */
  function VerifyPanCard(reply: string, decode: Decoder<PanVerdict>, expectedName: string,
                         expectedPan: Option<string>, fallback: Option<Parsed<NameMatch>>): PanVerdict
  {
    match ParseVerificationResponse(reply, decode)
    case NotObject(_) => VerificationError
    case Object(v) => PostProcess(v, expectedName, expectedPan, fallback).GetOr(VerificationError)
  }

  // -------------------------------------------------------------- KYC check

  /** The two members `validate_kyc` reads: `pan_verified` as a truth value, and `phone` missing, `null` or a text. */
  datatype KycData = KycData(panVerified: bool, phone: Field)

  const KycValid := "KYC validated successfully"
  const KycInvalid := "Invalid or incomplete KYC details"

  /**
   * `VerificationAgent.validate_kyc`: `None` when it raises, which it does
   * for a `null` phone once the PAN is verified (`len(None)`); a missing
   * phone reads as the empty text.
   */
  function ValidateKyc(d: KycData): (r: Option<(bool, string)>)
    ensures r.None? <==> d.panVerified && d.phone.Null?
    ensures r.Some? ==> (r.value.0 <==> d.panVerified && d.phone.Str? && |d.phone.value| >= 10)
    ensures r.Some? ==> r.value.1 == (if r.value.0 then KycValid else KycInvalid)
  {
    if !d.panVerified then Some((false, KycInvalid))
    else match d.phone
      case Absent => Some((false, KycInvalid))
      case Null => None
      case Str(p) => if |p| >= 10 then Some((true, KycValid)) else Some((false, KycInvalid))
  }

  // ----------------------------------------------------------- underwriting

  /** The values of `assessment['approved']` the views distinguish. */
  datatype Approval = Granted | Declined | PendingSalarySlip | PendingBusinessDocs | PendingGuarantor

  /** An underwriting assessment: `approved`, `instant`, `reason`, `documents_needed`, `segment_note`. */
  datatype Assessment = Assessment(approved: Approval, instant: bool, reason: string,
                                   documentsNeeded: seq<string>, segmentNote: string)

  const MinimumCreditScore := 700
  const BelowThreshold := "Credit score below minimum threshold of 700"
  const WithinLimit := "Within pre-approved limit"
  const NeedsSalarySlip := "Requires salary slip verification"
  const ExceedsLimit := "Loan amount exceeds 2\U{D7} pre-approved limit"

  /** `UnderwritingAgent.assess_loan`: four ordered rules, the first that applies decides. */
  function AssessLoan(c: Customer, amount: real, tenure: int): (r: Assessment)
    ensures r.approved == Granted <==> c.creditScore >= MinimumCreditScore && amount <= c.preApprovedLimit
    ensures r.approved == PendingSalarySlip <==>
      c.creditScore >= MinimumCreditScore && c.preApprovedLimit < amount <= 2.0 * c.preApprovedLimit
    ensures r.approved == Declined <==>
      c.creditScore < MinimumCreditScore || (amount > c.preApprovedLimit && amount > 2.0 * c.preApprovedLimit)
    ensures r.approved != PendingBusinessDocs && r.approved != PendingGuarantor
    ensures r.instant <==> r.approved == Granted
    ensures c.creditScore < MinimumCreditScore ==> r.reason == BelowThreshold
    ensures c.creditScore >= MinimumCreditScore && r.approved == Declined ==> r.reason == ExceedsLimit
  {
    if c.creditScore < MinimumCreditScore then
      Assessment(Declined, false, BelowThreshold, [], "")
    else if amount <= c.preApprovedLimit then
      Assessment(Granted, true, WithinLimit, [], "")
    else if amount <= c.preApprovedLimit * 2.0 then
      Assessment(PendingSalarySlip, false, NeedsSalarySlip, [], "")
    else
      Assessment(Declined, false, ExceedsLimit, [], "")
  }

  /** Outcomes ordered from best to worst for the applicant. */
  function Severity(a: Approval): nat
  {
    match a
    case Granted => 0
    case PendingSalarySlip => 1
    case PendingBusinessDocs => 1
    case PendingGuarantor => 1
    case Declined => 2
  }

  datatype EmiCheck = EmiVerdict(passed: bool, message: string) | EmiDivisionByZero

  const EmiWithin := "EMI within 50% of salary"
  const EmiExceeds := "EMI exceeds 50% of monthly salary"

  lemma DivisionBound(a: real, t: real, s: real)
    requires t != 0.0
    ensures t > 0.0 ==> (a / t <= s * 0.5 <==> 2.0 * a <= t * s)
    ensures t < 0.0 ==> (a / t <= s * 0.5 <==> 2.0 * a >= t * s)
  {
    var q := a / t;
    assert q * t == a;
    if t > 0.0 {
      assert q <= s * 0.5 ==> q * t <= s * 0.5 * t;
      assert q * t <= s * 0.5 * t ==> q <= s * 0.5;
    } else {
      assert q <= s * 0.5 ==> q * t >= s * 0.5 * t;
      assert q * t >= s * 0.5 * t ==> q <= s * 0.5;
    }
  }

  /**
   * `UnderwritingAgent.validate_salary_emi`: the monthly instalment
   * `amount / tenure` is at most half the salary. A zero tenure raises.
   */
  function ValidateSalaryEmi(salary: real, loanAmount: real, tenureMonths: int): (r: EmiCheck)
    ensures r.EmiDivisionByZero? <==> tenureMonths == 0
    ensures tenureMonths > 0 ==> (r.passed <==> 2.0 * loanAmount <= tenureMonths as real * salary)
    ensures tenureMonths < 0 ==> (r.passed <==> 2.0 * loanAmount >= tenureMonths as real * salary)
    ensures r.EmiVerdict? ==> r.message == (if r.passed then EmiWithin else EmiExceeds)
  {
    if tenureMonths == 0 then EmiDivisionByZero
    else
      var t := tenureMonths as real;
      DivisionBound(loanAmount, t, salary);
      var emi := loanAmount / t;
      if emi <= salary * 0.5 then EmiVerdict(true, EmiWithin) else EmiVerdict(false, EmiExceeds)
  }

  // ------------------------------------------------------------ loan details

  /** The members of the loan-details object the views read. */
  datatype ExtractedLoan = ExtractedLoan(
    loanAmount: Option<real>,
    purpose: Option<string>,
    tenureMonths: Option<int>,
    employmentType: Option<string>,
    monthlyIncome: Option<real>)

  /** `SalesAgent.extract_loan_details`, given the model's reply: `None` whenever decoding raises. */
  function ExtractLoanDetails<T>(reply: string, decode: Decoder<T>): Option<Parsed<T>>
  {
    decode(CleanFences(reply))
  }

}
