/**
 * Properties of the agents' deterministic rules: the PAN gate, the fence
 * stripping of the JSON parsers, the name-matching tiers, the soundness of
 * the PAN card post-processing, and the shape of the credit decision.
 */
module AgentProperties {
  import opened Common
  import opened Text
  import opened Models
  import opened Agents

  lemma UpperCharKeepsNonSpace(c: char)
    requires !IsSpace(c)
    ensures !IsSpace(UpperChar(c)[|UpperChar(c)| - 1])
  {
  }

  /** Upper-casing a text that does not end in white space gives a text that does not either. */
  lemma UpperKeepsLastNonSpace(t: string)
    requires t != [] && !IsSpace(t[|t| - 1])
    ensures |Upper(t)| > 0 && !IsSpace(Upper(t)[|Upper(t)| - 1])
  {
    var front, last := t[..|t| - 1], t[|t| - 1];
    assert t == front + [last];
    UpperAppend(front, [last]);
    var u := UpperChar(last);
    assert Upper([last]) == u by {
      assert [last][1..] == [];
    }
    UpperCharKeepsNonSpace(last);
    assert Upper(t) == Upper(front) + u;
    assert Upper(t)[|Upper(t)| - 1] == u[|u| - 1];
  }

  /**
   * The PAN gate: the result is either `NOT_FOUND` or the stripped,
   * upper-cased reply, and it is the latter exactly when that text is a
   * well-formed PAN (the regular expression's tolerance of a final newline
   * never applies, since the text has been stripped).
   */
  lemma ExtractPanNumberGate(reply: string)
    ensures var r := ExtractPanNumber(reply);
      (r == NotFound || IsPan(r))
      && (r != NotFound <==> IsPan(Upper(Strip(reply))))
      && (r != NotFound ==> r == Upper(Strip(reply)))
  {
    var s := Strip(reply);
    StripEnds(reply);
    if s != [] {
      UpperKeepsLastNonSpace(s);
    }
    assert !IsPan(NotFound);
  }

  /** Right-stripping never cuts into a prefix whose last character is not white space. */
  lemma TrimEndKeepsPrefix(head: string, tail: string)
    requires head != [] && !IsSpace(head[|head| - 1])
    ensures StartsWith(TrimEnd(head + tail), head)
  {
    var s := head + tail;
    var r := TrimEnd(s);
    TrimEndSpec(s);
    TrimEndKeepsNonSpace(s, |head| - 1);
    assert r[..|head|] == s[..|head|];
  }

  /** Upper-casing a text that starts with `head` gives one that starts with `Upper(head)`. */
  lemma UpperKeepsPrefix(s: string, head: string)
    requires StartsWith(s, head)
    ensures StartsWith(Upper(s), Upper(head))
  {
    assert s == head + s[|head|..];
    UpperAppend(head, s[|head|..]);
  }

  lemma StripOfCallFailure(detail: string)
    ensures StartsWith(Strip(CallFailure(detail)), "Error:")
  {
    var reply := CallFailure(detail);
    assert reply == "Error:" + (" " + detail);
    assert TrimStart(reply) == reply;
    TrimEndKeepsPrefix("Error:", " " + detail);
  }

  lemma UpperOfErrorPrefix()
    ensures Upper("Error:") == "ERROR:"
  {
  }

  /** The failure text of `call_openai` never gets through the gate. */
  lemma CallFailureIsNotFound(detail: string)
    ensures ExtractPanNumber(CallFailure(detail)) == NotFound
  {
    var s := Strip(CallFailure(detail));
    StripOfCallFailure(detail);
    UpperKeepsPrefix(s, "Error:");
    UpperOfErrorPrefix();
    var u := Upper(s);
    assert u[5] == "ERROR:"[5];
  }

  lemma CleanAfterStrip(reply: string, stripped: string)
    requires Strip(reply) == stripped
    ensures CleanFences(reply) == Strip(DropCloser(DropOpener(DropJsonOpener(stripped))))
  {
  }

  /** A fenced text padded with white space strips to the fenced text. */
  lemma StripFenced(left: string, fenced: string, right: string)
    requires AllSpace(left) && AllSpace(right)
    requires fenced != [] && !IsSpace(fenced[0]) && !IsSpace(fenced[|fenced| - 1])
    ensures Strip(left + fenced + right) == fenced
  {
    StripIgnoresPadding(left, fenced, right);
    StripUnpadded(fenced);
  }

  lemma DropOpenerKeeps(body: string)
    requires body != [] && body[0] != '`'
    ensures DropOpener(body + "```") == body + "```"
  {
    assert (body + "```")[..3][0] == body[0];
  }

  lemma DropCloserOfFenced(body: string)
    ensures DropCloser(body + "```") == body
  {
    assert (body + "```")[..|body|] == body;
  }

  lemma DropJsonOpenerOfFenced(body: string)
    ensures DropJsonOpener("```json" + body + "```") == body + "```"
  {
    assert ("```json" + body + "```")[7..] == body + "```";
  }

  /** Text inside a "```json" fence: the decoder sees the stripped body. */
  lemma CleanJsonFence(left: string, body: string, right: string)
    requires AllSpace(left) && AllSpace(right)
    requires body == [] || body[0] != '`'
    ensures CleanFences(left + "```json" + body + "```" + right) == Strip(body)
  {
    var fenced := "```json" + body + "```";
    var reply := left + "```json" + body + "```" + right;
    assert reply == left + fenced + right;
    StripFenced(left, fenced, right);
    CleanAfterStrip(reply, fenced);
    DropJsonOpenerOfFenced(body);
    if body != [] {
      DropOpenerKeeps(body);
    }
    DropCloserOfFenced(body);
  }

  lemma NotJsonOpener(body: string)
    requires !StartsWith(body, "json")
    ensures DropJsonOpener("```" + body + "```") == "```" + body + "```"
  {
    var fenced := "```" + body + "```";
    if |body| >= 4 {
      assert fenced[3..7] == body[..4];
      assert fenced[..7][3..7] == fenced[3..7];
    } else if |body| >= 1 {
      assert fenced[3 + |body|] == '`';
      assert "```json"[3 + |body|] != '`';
      assert fenced[..7][3 + |body|] == fenced[3 + |body|];
    }
  }

  lemma DropOpenerOfBareFenced(body: string)
    ensures DropOpener("```" + body + "```") == body + "```"
  {
    assert ("```" + body + "```")[3..] == body + "```";
  }

  /** Text inside a bare "```" fence (not followed by "json"): the decoder sees the stripped body. */
  lemma CleanBareFence(left: string, body: string, right: string)
    requires AllSpace(left) && AllSpace(right)
    requires body == [] || body[0] != '`'
    requires !StartsWith(body, "json")
    ensures CleanFences(left + "```" + body + "```" + right) == Strip(body)
  {
    var fenced := "```" + body + "```";
    var reply := left + "```" + body + "```" + right;
    assert reply == left + fenced + right;
    StripFenced(left, fenced, right);
    CleanAfterStrip(reply, fenced);
    NotJsonOpener(body);
    DropOpenerOfBareFenced(body);
    DropCloserOfFenced(body);
  }

  lemma NoFenceToDrop(a: string)
    requires a == [] || (a[0] != '`' && a[|a| - 1] != '`')
    ensures DropCloser(DropOpener(DropJsonOpener(a))) == a
  {
    if a != [] {
      if |a| >= 7 {
        assert a[..7][0] == a[0];
      }
      if |a| >= 3 {
        assert a[..3][0] == a[0];
        assert a[|a| - 3..][2] == a[|a| - 1];
      }
    }
  }

  /** Text without back-ticks at either end is only stripped. */
  lemma CleanUnfenced(reply: string)
    requires Strip(reply) == [] || (Strip(reply)[0] != '`' && Strip(reply)[|Strip(reply)| - 1] != '`')
    ensures CleanFences(reply) == Strip(reply)
  {
    var a := Strip(reply);
    CleanAfterStrip(reply, a);
    NoFenceToDrop(a);
    StripIdempotent(reply);
  }

  /** A fenced reply is decoded from its body. */
  lemma ParseMatchResponseFenced(left: string, body: string, right: string, decode: Decoder<FaceMatch>)
    requires AllSpace(left) && AllSpace(right) && (body == [] || body[0] != '`')
    ensures ParseMatchResponse(left + "```json" + body + "```" + right, decode)
      == decode(Strip(body)).GetOr(Object(MatchParseFailure))
  {
    CleanJsonFence(left, body, right);
  }

  /** A reply that does not decode reads as "faces do not match, confidence 0". */
  lemma ParseMatchResponseUndecodable(reply: string, decode: Decoder<FaceMatch>)
    requires decode(CleanFences(reply)).None?
    ensures ParseMatchResponse(reply, decode) == Object(MatchParseFailure)
  {
  }

  /**
   * The deterministic tiers: equal keys match with confidence 100; otherwise
   * an 80% word overlap matches with 85; otherwise the fallback decides, and
   * a failed fallback means no match with confidence 0.
   */
  lemma NameMatchTiers(provided: string, extracted: string, fallback: Option<Parsed<NameMatch>>)
    ensures NameKey(provided) == NameKey(extracted) ==>
      VerifyNameMatch(provided, extracted, fallback) == Object(ExactMatch)
    ensures (NameKey(provided) != NameKey(extracted)
             && SubstantialOverlap(WordSet(NameKey(provided)), WordSet(NameKey(extracted)))) ==>
      VerifyNameMatch(provided, extracted, fallback) == Object(WordMatch)
    ensures (NameKey(provided) != NameKey(extracted)
             && !SubstantialOverlap(WordSet(NameKey(provided)), WordSet(NameKey(extracted)))) ==>
      VerifyNameMatch(provided, extracted, fallback) == fallback.GetOr(Object(FailedMatch))
  {
  }

  /** Without a fallback answer, a match is one of the two deterministic tiers, and every outcome is readable. */
  lemma NameMatchWithoutFallback(provided: string, extracted: string)
    ensures var r := VerifyNameMatch(provided, extracted, None);
      Readable(r)
      && (r.fields.matches == Some(true) <==> r == Object(ExactMatch) || r == Object(WordMatch))
      && (r.fields.matches == Some(false) ==> r == Object(FailedMatch))
  {
  }

  /** Only a fallback answer can lack the keys the check indexes, and then it is returned as it is. */
  lemma UnreadableMatchIsFallback(provided: string, extracted: string, fallback: Option<Parsed<NameMatch>>)
    ensures !Readable(VerifyNameMatch(provided, extracted, fallback)) ==>
      fallback.Some? && !Readable(fallback.value) && VerifyNameMatch(provided, extracted, fallback) == fallback.value
  {
  }

  lemma SubsetOverlaps(p: set<string>, e: set<string>)
    requires p <= e
    ensures SubstantialOverlap(p, e)
  {
    assert p * e == p;
  }

  /** Every word of the provided name appearing on the card is enough to match. */
  lemma NameMatchWordSubset(provided: string, extracted: string, fallback: Option<Parsed<NameMatch>>)
    requires WordSet(NameKey(provided)) <= WordSet(NameKey(extracted))
    ensures ConfidentMatch(VerifyNameMatch(provided, extracted, fallback))
  {
    SubsetOverlaps(WordSet(NameKey(provided)), WordSet(NameKey(extracted)));
  }

  lemma {:induction false} KeepOnlySpacesWithoutLetters(s: string)
    requires forall i | 0 <= i < |s| :: !IsAsciiLetter(s[i])
    ensures AllSpace(KeepLettersAndSpaces(s))
  {
    if s != [] {
      KeepOnlySpacesWithoutLetters(s[1..]);
    }
  }

  /** A keep-filtered text with no letter is white space only, so its key is empty. */
  lemma KeyOfLetterless(name: string)
    requires forall i | 0 <= i < |Upper(name)| :: !IsAsciiLetter(Upper(name)[i])
    ensures NameKey(name) == []
  {
    KeepOnlySpacesWithoutLetters(Upper(name));
    TrimStartOfBlank(KeepLettersAndSpaces(Upper(name)));
  }

  /** A match found without the fallback: present, true, and with confidence at least 85. */
  predicate ConfidentMatch(r: Parsed<NameMatch>)
  {
    r.Object? && r.fields.matches == Some(true) && r.fields.confidence.Some? && r.fields.confidence.value >= 85
  }

  lemma EmptyKeyMatches(e: string, fallback: Option<Parsed<NameMatch>>)
    ensures ConfidentMatch(MatchKeys([], e, fallback))
  {
    BlankHasNoWords([]);
    assert WordSet([]) == {};
  }

  /**
   * A provided name with no letter A-Z (after upper-casing) matches every
   * card name without consulting the fallback: it has no words, and zero
   * common words are at least 80% of zero.
   */
  lemma LetterlessNameMatchesAnything(provided: string, extracted: string, fallback: Option<Parsed<NameMatch>>)
    requires forall i | 0 <= i < |Upper(provided)| :: !IsAsciiLetter(Upper(provided)[i])
    ensures ConfidentMatch(VerifyNameMatch(provided, extracted, fallback))
  {
    KeyOfLetterless(provided);
    EmptyKeyMatches(NameKey(extracted), fallback);
  }

  lemma UpperCharOutputsFixed(c: char)
    ensures forall i | 0 <= i < |UpperChar(c)| :: UpperFixed(UpperChar(c)[i])
  {
  }

  lemma {:induction false} UpperOfFixed(s: string)
    requires forall i | 0 <= i < |s| :: UpperFixed(s[i])
    ensures Upper(s) == s
  {
    if s != [] {
      UpperOfFixed(s[1..]);
      assert s == [s[0]] + s[1..];
    }
  }

  lemma {:induction false} UpperIdempotent(s: string)
    ensures Upper(Upper(s)) == Upper(s)
  {
    if s != [] {
      var head := UpperChar(s[0]);
      assert Upper(s) == head + Upper(s[1..]);
      UpperAppend(head, Upper(s[1..]));
      UpperIdempotent(s[1..]);
      UpperCharOutputsFixed(s[0]);
      UpperOfFixed(head);
    }
  }

  /** Name matching does not depend on letter case. */
  lemma NameMatchIgnoresCase(provided: string, extracted: string, fallback: Option<Parsed<NameMatch>>)
    ensures VerifyNameMatch(Upper(provided), Upper(extracted), fallback)
         == VerifyNameMatch(provided, extracted, fallback)
  {
    UpperIdempotent(provided);
    UpperIdempotent(extracted);
  }

  /** A fenced reply is decoded from its body. */
  lemma ParseVerificationResponseFenced(left: string, body: string, right: string, decode: Decoder<PanVerdict>)
    requires AllSpace(left) && AllSpace(right) && (body == [] || body[0] != '`')
    ensures ParseVerificationResponse(left + "```json" + body + "```" + right, decode)
      == decode(Strip(body)).GetOr(Object(VerificationParseFailure))
  {
    CleanJsonFence(left, body, right);
  }

  /** A reply that does not decode reads as an invalid card. */
  lemma ParseVerificationResponseUndecodable(reply: string, decode: Decoder<PanVerdict>)
    requires decode(CleanFences(reply)).None?
    ensures ParseVerificationResponse(reply, decode).Object?
    ensures !ParseVerificationResponse(reply, decode).fields.isValid
  {
  }

  /** The fields read off the card itself. */
  predicate SameCard(v: PanVerdict, w: PanVerdict)
  {
    w.panNumber == v.panNumber && w.nameOnCard == v.nameOnCard
    && w.dateOfBirth == v.dateOfBirth && w.confidence == v.confidence
  }

  /** A verdict valid after the name check was valid before, and records a matching name. */
  lemma CheckNameSound(v: PanVerdict, nm: Parsed<NameMatch>)
    ensures CheckName(v, nm).Some? ==>
      nm.Object? && CheckName(v, nm).value.nameMatch == Some(nm.fields) && SameCard(v, CheckName(v, nm).value)
      && CheckName(v, nm).value.panMatch == v.panMatch
    ensures CheckName(v, nm).Some? && CheckName(v, nm).value.isValid ==> v.isValid && nm.fields.matches == Some(true)
  {
  }

  /**
   * The name check raises exactly when the comparison lacks a key it
   * indexes, or when the names do not match and the notes are not a text.
   */
  lemma CheckNameRaises(v: PanVerdict, nm: Parsed<NameMatch>)
    ensures CheckName(v, nm).None? <==> !Readable(nm) || (nm.fields.matches == Some(false) && !v.notes.Str?)
  {
  }

  /** On a readable comparison and string notes the check does not raise, and keeps validity exactly when the names match. */
  lemma CheckNameTotal(v: PanVerdict, nm: Parsed<NameMatch>)
    requires v.notes.Str? && Readable(nm)
    ensures CheckName(v, nm).Some? && CheckName(v, nm).value.notes.Str?
    ensures CheckName(v, nm).value.isValid <==> v.isValid && nm.fields.matches == Some(true)
  {
  }

  lemma UpperOfEmpty(s: string)
    requires s != []
    ensures Upper("") != Upper(s)
  {
    assert Upper("") == "";
  }

  /** A verdict valid after the PAN check was valid before and, when a PAN was expected, carries it. */
  lemma CheckPanSound(v: PanVerdict, expectedPan: Option<string>)
    ensures CheckPan(v, expectedPan).Some? ==>
      CheckPan(v, expectedPan).value.nameMatch == v.nameMatch && SameCard(v, CheckPan(v, expectedPan).value)
    ensures CheckPan(v, expectedPan).Some? && CheckPan(v, expectedPan).value.isValid ==>
      v.isValid
      && (expectedPan.Some? && expectedPan.value != "" ==>
            CheckPan(v, expectedPan).value.panMatch == Some(true) && v.panNumber.Str?
            && Upper(v.panNumber.value) == Upper(expectedPan.value))
  {
    if expectedPan.Some? && expectedPan.value != "" && v.panNumber.Absent? {
      UpperOfEmpty(expectedPan.value);
    }
  }

  /** With string notes and a non-null PAN the check does not raise, and keeps validity exactly when the PANs agree. */
  lemma CheckPanTotal(v: PanVerdict, expectedPan: Option<string>)
    requires v.notes.Str? && !v.panNumber.Null?
    ensures CheckPan(v, expectedPan).Some?
    ensures CheckPan(v, expectedPan).value.isValid <==>
      v.isValid && (expectedPan.Some? && expectedPan.value != "" ==>
                      Upper(TextOf(v.panNumber)) == Upper(expectedPan.value))
  {
  }

  /** After both checks, a valid verdict was valid before, and carries a matching name and (if expected) the PAN. */
  lemma ChecksSound(v: PanVerdict, nm: Parsed<NameMatch>, expectedPan: Option<string>)
    ensures var r := Checks(v, nm, expectedPan);
      r.Some? && r.value.isValid ==>
        v.isValid && nm.Object? && r.value.nameMatch == Some(nm.fields) && nm.fields.matches == Some(true)
        && (expectedPan.Some? && expectedPan.value != "" ==>
              r.value.panMatch == Some(true) && v.panNumber.Str? && Upper(v.panNumber.value) == Upper(expectedPan.value))
        && SameCard(v, r.value)
  {
    CheckNameSound(v, nm);
    if CheckName(v, nm).Some? {
      CheckPanSound(CheckName(v, nm).value, expectedPan);
    }
  }

  /** With string notes and a non-null PAN both checks run, and the verdict stays valid exactly when both pass. */
  lemma ChecksTotal(v: PanVerdict, nm: Parsed<NameMatch>, expectedPan: Option<string>)
    requires v.notes.Str? && !v.panNumber.Null? && Readable(nm)
    ensures Checks(v, nm, expectedPan).Some?
    ensures Checks(v, nm, expectedPan).value.isValid <==>
      v.isValid && nm.fields.matches == Some(true)
      && (expectedPan.Some? && expectedPan.value != "" ==> Upper(TextOf(v.panNumber)) == Upper(expectedPan.value))
  {
    CheckNameTotal(v, nm);
    CheckNameSound(v, nm);
    CheckPanTotal(CheckName(v, nm).value, expectedPan);
  }

  /**
   * Post-processing never turns an invalid verdict valid, and every verdict
   * still valid afterwards carries a matching name check and, when a PAN was
   * expected, a PAN that equals it ignoring case; the card's own fields pass
   * through unchanged.
   */
  lemma PostProcessSound(v: PanVerdict, expectedName: string, expectedPan: Option<string>,
                         fallback: Option<Parsed<NameMatch>>)
    ensures var r := PostProcess(v, expectedName, expectedPan, fallback);
      r.Some? && r.value.isValid ==>
        v.isValid
        && r.value.nameMatch.Some?
        && Object(r.value.nameMatch.value) == VerifyNameMatch(expectedName, TextOf(v.nameOnCard), fallback)
        && NameMatched(r.value)
        && (expectedPan.Some? && expectedPan.value != "" ==>
              r.value.panMatch == Some(true) && v.panNumber.Str? && Upper(v.panNumber.value) == Upper(expectedPan.value))
        && SameCard(v, r.value)
  {
    var nm := VerifyNameMatch(expectedName, TextOf(v.nameOnCard), fallback);
    if v.isValid && !v.nameOnCard.Null? {
      assert PostProcess(v, expectedName, expectedPan, fallback) == Checks(v, nm, expectedPan);
      ChecksSound(v, nm, expectedPan);
    }
  }

  /** Conversely, a valid verdict whose checks can run stays valid exactly when both checks pass. */
  lemma PostProcessKeepsValid(v: PanVerdict, expectedName: string, expectedPan: Option<string>,
                              fallback: Option<Parsed<NameMatch>>)
    requires v.isValid && v.notes.Str? && v.nameOnCard.Str? && !v.panNumber.Null?
    requires Readable(VerifyNameMatch(expectedName, v.nameOnCard.value, fallback))
    ensures PostProcess(v, expectedName, expectedPan, fallback).Some?
    ensures PostProcess(v, expectedName, expectedPan, fallback).value.isValid <==>
      VerifyNameMatch(expectedName, v.nameOnCard.value, fallback).fields.matches == Some(true)
      && (expectedPan.Some? && expectedPan.value != "" ==>
            Upper(TextOf(v.panNumber)) == Upper(expectedPan.value))
  {
    ChecksTotal(v, VerifyNameMatch(expectedName, v.nameOnCard.value, fallback), expectedPan);
  }

  /** The verdict of `verify_pan_card` is valid only when the decoded verdict was and both checks passed. */
  lemma VerifyPanCardSound(reply: string, decode: Decoder<PanVerdict>, expectedName: string,
                           expectedPan: Option<string>, fallback: Option<Parsed<NameMatch>>)
    ensures var r := VerifyPanCard(reply, decode, expectedName, expectedPan, fallback);
      r.isValid ==>
        var p := ParseVerificationResponse(reply, decode);
        p.Object? && p.fields.isValid
        && r.nameMatch.Some?
        && Object(r.nameMatch.value) == VerifyNameMatch(expectedName, TextOf(p.fields.nameOnCard), fallback)
        && NameMatched(r)
        && (expectedPan.Some? && expectedPan.value != "" ==>
              r.panMatch == Some(true) && r.panNumber.Str? && Upper(r.panNumber.value) == Upper(expectedPan.value))
        && SameCard(p.fields, r)
  {
    var p := ParseVerificationResponse(reply, decode);
    if p.Object? {
      PostProcessSound(p.fields, expectedName, expectedPan, fallback);
    }
  }

  /**
   * A fallback answer that is not a dictionary, has no `matches`, or has no
   * `reason` while not matching makes the checks of a valid card raise, and
   * `verify_pan_card` answers with the error verdict.
   */
  lemma UnreadableFallbackErrors(reply: string, decode: Decoder<PanVerdict>, expectedName: string,
                                 expectedPan: Option<string>, fallback: Option<Parsed<NameMatch>>)
    requires var p := ParseVerificationResponse(reply, decode);
      p.Object? && p.fields.isValid && p.fields.nameOnCard.Str?
      && !Readable(VerifyNameMatch(expectedName, p.fields.nameOnCard.value, fallback))
    ensures VerifyPanCard(reply, decode, expectedName, expectedPan, fallback) == VerificationError
  {
    var v := ParseVerificationResponse(reply, decode).fields;
    CheckNameRaises(v, VerifyNameMatch(expectedName, v.nameOnCard.value, fallback));
  }

  /**
   * Asking for more never gives a better outcome, and a higher credit score
   * or a higher pre-approved limit never gives a worse one.
   */
  lemma AssessLoanMonotone(c: Customer, d: Customer, a1: real, a2: real, tenure: int)
    requires a1 <= a2
    requires c.creditScore <= d.creditScore && c.preApprovedLimit <= d.preApprovedLimit
    ensures Severity(AssessLoan(c, a2, tenure).approved) >= Severity(AssessLoan(c, a1, tenure).approved)
    ensures Severity(AssessLoan(d, a1, tenure).approved) <= Severity(AssessLoan(c, a1, tenure).approved)
  {
  }

  /** A fenced reply is decoded from its body. */
  lemma ExtractLoanDetailsFenced(left: string, body: string, right: string, decode: Decoder<ExtractedLoan>)
    requires AllSpace(left) && AllSpace(right) && (body == [] || body[0] != '`')
    ensures ExtractLoanDetails(left + "```json" + body + "```" + right, decode) == decode(Strip(body))
  {
    CleanJsonFence(left, body, right);
  }
}
