# Loan-origination chatbot: a verified model of its rules and workflow

The system is a Django web application through which a customer applies for a
personal loan in a chat. A session moves through nine stages:

1. `greeting` and `name_collection`: name and date of birth.
2. `pan_collection`: the PAN (Indian tax identifier).
3. `pan_verification`: upload of the PAN card, checked by a vision model against the name and PAN.
4. `selfie_verification`: a selfie compared with the card's photo.
5. `loan_details`: amount, purpose and tenure. An underwriting rule then decides.
6. `salary_verification`: a salary slip upload, which approves the latest application.
7. `completed` or `rejected`.

An admin site offers bulk actions over customers and applications and a few
display formatters. An older JSON endpoint hands a session from agent to agent
(master, sales, verification, underwriting, closing).

Every call to a language or vision model is a parameter here. The model keeps:
- what the application does with each reply: the PAN gate, the fence-stripping JSON parsers, the deterministic name-matching tiers, the downgrading of a vision verdict, KYC, underwriting and the EMI check;
- every branch of the four request handlers, and every column they store. The one exception is `temp_pan_image_data`: the handlers use it, but `ChatSession` does not declare it. The model keeps it as a column, and "## Findings" states what the code does without it;
- the entity operations;
- the admin actions.

Modules, one per source concern:

- `Common`: `Option`, opaque byte payloads and time stamps.
- `Text`: Python's `strip`, `upper`, `split` and the regular-expression filter used on names.
- `Agents`, with its properties in `AgentProperties`: the deterministic parts of `base/agents.py`.
- `Models`: the entities of `base/models.py`.
  - The rows the handlers update are the classes `ChatSession` and `Store`.
  - The customer table is keyed by PAN; applications are kept in creation order.
  - The `conversation_data` column is held as what `json.loads` makes of it: a list of messages, another JSON value, or text that is not JSON.
- `Workflow`: each handler of `base/views.py` as a transition function over the session record and the tables.
  - In `chat` and `upload_salary_slip`, a raised exception stores nothing after the last `save()` before it.
  - The except branches of `upload_pan_card` and `upload_selfie` clear the staged image and save (`base/views.py:191-194`, `base/views.py:775-778`).
  - A handler that returns before `save()` stores nothing it assigned.
- `WorkflowProperties`, `UploadProperties` and `WorkflowInvariant`: properties of those transitions.
  - Among them is a state invariant: customers are keyed by PAN, applications point at stored customers, and linked stages have a customer. Every handler preserves it.
- `Views`: the handlers as methods that assign the session's columns and the tables in place. Each method's postcondition ties the state it leaves, and its answer, to the transition function.
- `Admin`: `base/admin.py`.
  - The actions are methods over `Store`; `UpdatePending` is a loop proved against `DecidePending`.
  - The formatters are functions, proved against their inverses or their thresholds.
- `ViewsApi`: the agent chain of `base/views_api.py`, with the session as a class.

Money is `real`, and its arithmetic is exact. The source's `Decimal` division rounds to 28 significant digits; `Agents.ValidateSalaryEmi` under "## Left out" says where that matters. Dates are `(year, month, day)` triples.

## Model

| member | source | states |
|---|---|---|
| AgentProperties.ExtractPanNumberGate | base/agents.py:53-71 | The answer is either `NOT_FOUND` or a ten-character PAN: five letters A-Z, four digits, one letter A-Z. It is a PAN exactly when the stripped, upper-cased reply is one, and then it is that reply. |
| AgentProperties.CallFailureIsNotFound | base/agents.py:15-25 | The `"Error: ..."` text that a failed model call returns never passes the PAN gate. |
| Agents.ExtractPanNumber | base/agents.py:53-71 | The PAN gate over the model's reply: strip and upper-case the reply, and keep it only when it has the PAN pattern. `ExtractPanNumberGate` and `CallFailureIsNotFound` state its properties. |
| Agents.CleanFences | base/agents.py:224-234 | The fence stripping that every JSON parser applies. `CleanJsonFence`, `CleanBareFence` and `CleanUnfenced` state what reaches the decoder. |
| AgentProperties.CleanJsonFence | base/agents.py:224-234 | For a reply inside a fence opened with three back-ticks and `json`, the decoder is given the stripped body, whatever white space surrounds the fence. |
| AgentProperties.CleanBareFence | base/agents.py:224-234 | For a bare three-back-tick fence not followed by `json`, the decoder is given the stripped body. |
| AgentProperties.CleanUnfenced | base/agents.py:224-234 | A reply without back-ticks at either end is only stripped. |
| AgentProperties.ParseMatchResponseFenced | base/agents.py:221-241 | A fenced face-match reply is decoded from its body. |
| AgentProperties.ParseMatchResponseUndecodable | base/agents.py:236-241 | A face-match reply that does not decode reads as "faces do not match, confidence 0". |
| Agents.ParseMatchResponse | base/agents.py:221-241 | `_parse_match_response`: the decoded reply, or the failure answer when it does not decode. See `ParseMatchResponseFenced` and `ParseMatchResponseUndecodable`. |
| AgentProperties.ParseVerificationResponseFenced | base/agents.py:384-404 | A fenced verification reply is decoded from its body. |
| AgentProperties.ParseVerificationResponseUndecodable | base/agents.py:399-404 | A verification reply that does not decode reads as an invalid card. |
| Agents.ParseVerificationResponse | base/agents.py:384-404 | `_parse_verification_response`: the decoded reply, or the invalid-card answer when it does not decode. See `ParseVerificationResponseFenced` and `ParseVerificationResponseUndecodable`. |
| AgentProperties.ExtractLoanDetailsFenced | base/agents.py:502-524 | Fenced loan details are decoded from their body; an undecodable reply gives no details. |
| Agents.ExtractLoanDetails | base/agents.py:502-524 | `extract_loan_details`: the decoded, fence-stripped reply, or nothing when it does not decode. See `ExtractLoanDetailsFenced`. |
| AgentProperties.NameMatchTiers | base/agents.py:406-431 | Names with equal normalised keys match with confidence 100. Otherwise a word overlap of at least 80% of the provided name's words matches with 85. Short of both, the answer is the semantic fallback's, or no match with confidence 0 when the fallback failed. |
| Agents.VerifyNameMatch | base/agents.py:406-462 | `_verify_name_match`: the exact tier, the word-overlap tier, then the semantic fallback as it was decoded. See `NameMatchTiers`, `NameMatchWithoutFallback`, `UnreadableMatchIsFallback`, `NameMatchWordSubset`, `LetterlessNameMatchesAnything` and `NameMatchIgnoresCase`. |
| AgentProperties.NameMatchWithoutFallback | base/agents.py:406-462 | When the fallback call fails, a match is one of the two deterministic tiers, and a non-match is the failure answer with confidence 0. Every such answer has the keys the check indexes. |
| AgentProperties.NameMatchWordSubset | base/agents.py:420-431 | When every word of the provided name appears among the card name's words, the names match with confidence at least 85. |
| AgentProperties.LetterlessNameMatchesAnything | base/agents.py:411-431 | A provided name with no ASCII letters matches every extracted name. |
| AgentProperties.NameMatchIgnoresCase | base/agents.py:411-416 | Upper-casing either name first changes nothing about the match. |
| Text.Strip | base/agents.py:412-413 | `str.strip()`. See `StripEnds`, `StripIdempotent` and `StripIgnoresPadding`. |
| Text.StripEnds | base/agents.py:412-413 | The stripped text neither starts nor ends with white space. |
| Text.StripIdempotent | base/agents.py:412-413 | Stripping twice is stripping once. |
| Text.StripIgnoresPadding | base/agents.py:66 | White space added at either end makes no difference to the strip. |
| Text.Upper | base/agents.py:412-413 | `str.upper()`, character by character; it never shortens the text. See `UpperHasNoAsciiLower` and `AgentProperties.UpperIdempotent`. |
| Text.UpperHasNoAsciiLower | base/agents.py:66 | No lower-case ASCII letter survives upper-casing. |
| Text.KeepLettersAndSpaces | base/agents.py:412-413 | The filter keeps only ASCII letters and white space, and never lengthens the text. |
| Text.Words | base/agents.py:420-421 | `str.split()`: every word is non-empty and holds no white space. |
| Text.BlankHasNoWords | base/agents.py:420-421 | A text of white space only has no words. |
| AgentProperties.CheckNameSound | base/agents.py:359-363 | A name check that does not raise had a dictionary, and records it in the verdict. It never makes an invalid verdict valid, and a verdict still valid after it has a matching name. The fields read off the card are unchanged. |
| AgentProperties.CheckNameTotal | base/agents.py:359-363 | With text notes and a comparison that has the keys it indexes, the name check does not raise, and keeps validity exactly when the names match. |
| AgentProperties.CheckNameRaises | base/agents.py:359-363 | The name check raises exactly in these cases: the comparison is not a dictionary; it has no `matches`; or it does not match and either has no `reason` or the notes are not a text. |
| Agents.CheckName | base/agents.py:359-363 | The name check of `verify_pan_card`, `None` when it raises. See `CheckNameSound`, `CheckNameTotal` and `CheckNameRaises`. |
| AgentProperties.CheckPanSound | base/agents.py:368-373 | The PAN check never makes an invalid verdict valid. A verdict still valid after it carries, when a PAN was expected, a PAN equal to it ignoring case. |
| AgentProperties.CheckPanTotal | base/agents.py:368-373 | With text notes and a non-null PAN, the check does not raise and keeps validity exactly when the PANs agree ignoring case. |
| Agents.CheckPan | base/agents.py:365-373 | The PAN check of `verify_pan_card`, run only for a non-empty expected PAN, and `None` when it raises. See `CheckPanSound` and `CheckPanTotal`. |
| AgentProperties.ChecksSound | base/agents.py:359-373 | After both checks, a valid verdict was valid before and carries a matching name and, if one was expected, the expected PAN. |
| AgentProperties.ChecksTotal | base/agents.py:359-373 | With text notes, a non-null PAN and a comparison that has the keys it indexes, the verdict stays valid exactly when both checks pass. |
| AgentProperties.PostProcessSound | base/agents.py:353-373 | The whole post-processing of `verify_pan_card` never turns an invalid verdict valid. A verdict still valid afterwards has a matching name and, when a PAN was expected, the matching PAN. |
| AgentProperties.PostProcessKeepsValid | base/agents.py:353-373 | Consider a valid verdict with text notes, a card name and a non-null PAN, whose comparison has the keys the check indexes. It stays valid exactly when the names match and the PAN, if expected, agrees. |
| Agents.PostProcess | base/agents.py:353-373 | The additional checks on a decoded verdict, `None` when one raises. See `PostProcessSound`, `PostProcessKeepsValid` and `UnreadableFallbackErrors`. |
| AgentProperties.VerifyPanCardSound | base/agents.py:282-382 | The verdict `verify_pan_card` returns is valid only when the decoded reply was valid and both checks passed. |
| AgentProperties.UnreadableFallbackErrors | base/agents.py:353-382 | Suppose the comparison of a valid card's name lacks a key the check indexes: it is not a dictionary, it has no `matches`, or it does not match and has no `reason`. Then `verify_pan_card` answers with the error verdict. |
| AgentProperties.UnreadableMatchIsFallback | base/agents.py:406-462 | Only the semantic fallback can give a comparison without those keys, and `_verify_name_match` returns it unchanged. |
| Agents.VerifyPanCard | base/agents.py:282-382 | `verify_pan_card`: parse, post-process, and answer with the error verdict when anything raises or the decoded reply is not an object. See `VerifyPanCardSound` and `UnreadableFallbackErrors`. |
| Agents.ValidateKyc | base/agents.py:541-546 | With the PAN verified, a `null` phone raises. Otherwise KYC passes exactly when the PAN is verified and the phone is a text of at least ten characters, and the message follows the outcome. |
| Agents.AssessLoan | base/agents.py:553-584 | Credit below 700 declines, whatever the amount, with the threshold reason. With credit at least 700: an amount within the pre-approved limit is an instant approval; up to twice the limit asks for a salary slip; beyond that declines with the "exceeds 2×" reason. Exactly one outcome holds, and only the approval is instant. |
| AgentProperties.AssessLoanMonotone | base/agents.py:553-584 | A larger amount never gives a better outcome. A better credit score or a larger limit never gives a worse one. |
| Agents.ValidateSalaryEmi | base/agents.py:586-592 | A zero tenure raises. For a positive tenure, the check passes exactly when `2 × amount <= tenure × salary`, that is when the EMI is at most half the salary; a negative tenure flips the inequality. |
| Agents.DivisionBound | base/agents.py:586-592 | Comparing `amount / tenure` with half the salary is the cross-multiplied comparison, in the direction given by the sign of the tenure. |
| Models.CalculateAge | base/models.py:56-65 | There is no age without a date of birth. Otherwise the age-th birthday is not after today and the next birthday is. |
| Models.AgeIsCompletedYears | base/models.py:56-65 | That characterisation fixes the age uniquely. |
| Models.AgeMonotone | base/models.py:56-65 | Ages never decrease as the date moves on. |
| Models.GetSegment | base/models.py:67-73 | There is no segment when there is no age; otherwise it is the segmentation of the age, employment type and income. |
| Models.UpdateSegmentTouchesOnlySegment | base/models.py:75-81 | Only the two segment columns change. They change only when there is a segment, and then they record its name and the time. |
| Models.UpdateSegment | base/models.py:75-81 | `update_segment`: with a segment, store its name and the time; without one, change nothing. See `UpdateSegmentTouchesOnlySegment`. |
| Models.DefaultCustomer | base/models.py:8-54 | A row created with only a name and a PAN keeps that name and PAN. Credit score and limit are 0, both verification flags are false, and every nullable column is unset. |
| Models.NewApplication | base/models.py:176-182 | A new application carries exactly the request and the given status. Its segment snapshot is the owner's segment at creation, and is absent when there is none. |
| Models.ApproveRejectFrame | base/models.py:184-194 | `approve` and `reject` set exactly their status, reason and time stamp. Amount, purpose, tenure, owner and the segment snapshot are untouched. |
| Models.Approve | base/models.py:184-188 | `approve(reason)`: status `approved`, the reason and the time. See `ApproveRejectFrame` and `Store.ApproveApplication`. |
| Models.Reject | base/models.py:190-194 | `reject(reason)`: status `rejected`, the reason and the time. See `ApproveRejectFrame` and `Store.RejectApplication`. |
| Models.ParseStatus | base/models.py:135-141 | Only the five status codes parse, each to the status it names. |
| Models.StatusCodeRoundTrip | base/models.py:135-141 | Every status reads back from its stored code. |
| Models.ParseStage | base/models.py:93-103 | Only the nine stage codes parse, each to the stage it names. |
| Models.StageCodeRoundTrip | base/models.py:93-103 | Every stage reads back from its stored code. |
| Models.ConversationHistory | base/models.py:118-123 | A log that is not JSON reads as the empty list, and a JSON list reads as its entries. Any other JSON value is returned as it is, so there is no list to append to. |
| Models.ChatSession.constructor | base/models.py:92-116 | A new session is at `greeting`, with the `'[]'` log and nothing else set. |
| Models.ChatSession.Store | base/models.py:92-116 | `save()` writes every column of the record back, including the staged image, which `base/models.py` does not declare (see "## Left out"). |
| Models.Store.CreateApplication | base/models.py:176-182 | A created row is appended with its snapshot taken from the owner at creation; nothing else changes. |
| Models.Store.ApproveApplication | base/models.py:184-188 | `approve` on one row changes only that row, exactly as `Approve`. |
| Models.Store.RejectApplication | base/models.py:190-194 | `reject` on one row changes only that row, exactly as `Reject`. |
| Models.Store.Put | base/views.py:695 | `customer.save()` (or `Customer.objects.create`): the row keyed by the PAN now holds the given customer, and the applications are untouched. |
| Models.Store.UpdateCustomerSegment | base/models.py:75-81 | `update_segment` on one stored row: that row becomes `UpdateSegment` of it, and nothing else changes. |
| Models.Store.SetStatus | base/views.py:853-854 | Setting one application's status and saving it changes only that row's status. |
| Models.Store.AttachLetter | base/views.py:421-427 | Saving the sanction letter on one application changes only that row's letter. |
| Workflow.AddMessage | base/views.py:29-40 | The call raises exactly when the stored log is a JSON value other than a list. A list grows by exactly the new message at its end, and its earlier entries are unchanged. An unreadable log is replaced by a list holding only the new message. |
| WorkflowProperties.AddMessageReadsBack | base/views.py:29-40 | After an append that succeeds, the log reads back as the old history followed by the message, and it can be appended to again. |
| Workflow.GetAgeSegment | base/views.py:43-57 | There is no segment without a linked customer with a date of birth, or without a derivable age; otherwise it is the segmentation of that age, employment and income. |
| Workflow.LinkedCustomer | base/views.py:252-253 | `session.customer` is present exactly when the session links a stored row, and is that row. |
| Workflow.Logged | base/views.py:243-244 | Logging the user's message raises exactly when the log cannot be appended to. Otherwise the message is appended to the log and no other column changes. |
| Workflow.CheckFile | base/views.py:62-84 | An upload is accepted exactly when it is present, of an allowed type, and within the size limit. A missing file and an oversized file are each refused, each for its own reason. |
| Workflow.ExpectedPan | base/views.py:581-584 | The PAN expected on the card is absent exactly when the gate answers `NOT_FOUND`; otherwise it is that well-formed PAN. |
| Workflow.NewVerifiedCustomer | base/views.py:656-693 | A row created for a new card carries its name, PAN and birth date, is PAN-verified with the card's confidence, has credit score 750 and limit 100000, and is not face-verified. |
| Workflow.SelfieToneFor | base/views.py:706-728 | The reply's tone follows the segment name: fast for young professionals, reassuring for new-to-credit applicants, standard otherwise. |
| Workflow.ApprovalToneFor | base/views.py:868-895 | The approval's tone follows the segment name: fast for young professionals, welcome-back for existing customers, standard otherwise. |
| Workflow.LatestApplication | base/views.py:829-838 | The index found belongs to the customer, and no later row does. No index is found exactly when the customer has no application. |
| Workflow.Chat | base/views.py:229-533 | The `chat` view as a transition. Without a session it stores nothing, and on a log that cannot be appended to it raises. Otherwise it logs the user's message, runs the stage branch and logs its reply. See `ChatWithoutSession`, `ChatOnNonListLog`, `ChatReplacesUnreadableLog`, `ChatAppendsTwo`, `WorkflowInvariant.ChatInv` and `Views.HandleChat`. |
| Workflow.StageStep | base/views.py:259-503 | The dispatch on the stored stage, `None` when the branch raises. See the `Dispatch*` lemmas, `WaitingStep`, `UnknownStageResets`, `StageStepKeeps` and `WorkflowInvariant.StageStepInv`. |
| Workflow.GreetingStep | base/views.py:261-313 | The `greeting` and `name_collection` branch. See `GreetingOutcome`. |
| Workflow.PanCollectionStep | base/views.py:315-351 | The `pan_collection` branch. See `PanCollectionOutcome`. |
| Workflow.LoanDetailsStep | base/views.py:365-487 | The `loan_details` branch. See `LoanDetailsNotObject`, `IncompleteDecision`, `LoanDetailsIncomplete`, `LoanDetailsWithoutCustomer`, `LoanDetailsCreatesOne` and `WorkflowInvariant.LoanDetailsAlwaysLinked`. |
| Workflow.AssessmentStep | base/views.py:415-484 | What the underwriting result does to the application just created. See `AssessmentStepOutcome` and `Views.Assess`. |
| Workflow.UploadPanCard | base/views.py:537-784 | The `upload_pan_card` handler as a transition. See `PanUploadRefusal`, `PanUploadNeedsName`, `PanUploadOnNonIterableLog`, `PanUploadActsOnVerdict`, `PanUploadDecision`, `PanUploadAccepted`, `WorkflowInvariant.UploadPanCardInv` and `Views.HandleUploadPanCard`. |
| Workflow.CardDecision | base/views.py:609-784 | What `upload_pan_card` does with the verdict. See `PanUploadDecision`, `PanMismatchUnreachable` and `CardDecisionOnNonListLog`. |
| Workflow.RegisterCustomer | base/views.py:631-693 | The verified card's row: the existing row marked verified (given a birth date only when it had none), or a new row; `None` when creating it raises. See `PanUploadAccepted` and `Views.FindOrCreateCustomer`. |
| Workflow.UploadSelfie | base/views.py:60-200 | The `upload_selfie` handler as its code intends it, with the staged image kept in a session column that `base/models.py` does not declare (see "## Left out" and "## Findings"). See `SelfieRefusal`, `SelfieNeedsVerifiedPan`, `SelfieDecision`, `SelfieUndecodable`, `WorkflowInvariant.UploadSelfieInv` and `Views.HandleUploadSelfie`. |
| Workflow.UploadSelfieAsWritten | base/views.py:94-108 | `upload_selfie` as written, without the column: past the file, session and PAN checks, the read at line 102 raises and nothing is stored. See `SelfieAsWrittenCrashes`, `SelfieAsWrittenDiffers` and `SelfieAsWrittenWitness`. |
| Workflow.FaceDecision | base/views.py:110-200 | What `upload_selfie` does with the face comparison. See `SelfieDecision`. |
| Workflow.UploadSalarySlip | base/views.py:788-926 | The `upload_salary_slip` handler as a transition. See `SlipRefusal`, `SlipApprovesLatest`, `WorkflowInvariant.UploadSalarySlipInv` and `Views.HandleUploadSalarySlip`. |
| WorkflowProperties.DispatchGreeting | base/views.py:261-313 | `greeting` and `name_collection` run the name branch. |
| WorkflowProperties.DispatchPanCollection | base/views.py:315-351 | `pan_collection` runs the PAN branch, which never raises. |
| WorkflowProperties.DispatchLoanDetails | base/views.py:365-487 | `loan_details` runs the loan branch. |
| WorkflowProperties.WaitingStep | base/views.py:353-498 | The waiting stages leave the session, the tables and the stage untouched. PAN, selfie and salary verification remind with their own text and ask for their own upload type (`pan_card`, `selfie`, `salary_slip`); only the salary reminder comes from the underwriting agent. `completed` and `rejected` answer with the closing text from the master agent and ask for no upload. |
| WorkflowProperties.DispatchWaiting | base/views.py:353-363 | The five waiting stages, including `completed` and `rejected` (lines 489-498), keep the session and the tables. |
| WorkflowProperties.StageStepKeeps | base/views.py:259-503 | No branch of the dispatch changes the log or the staged image, and each reports the stage it stores. |
| WorkflowProperties.ChatAppendsTwo | base/views.py:229-533 | A turn that answers had a log it could append to. It appends exactly the user's message, then the reply tagged with the answering agent, and earlier entries are unchanged. A turn that raises stores nothing. |
| WorkflowProperties.ChatOnNonListLog | base/views.py:244 | On a log that is a JSON value other than a list, every turn raises in `add_message` and stores nothing. |
| WorkflowProperties.ChatReplacesUnreadableLog | base/models.py:118-123 | On a log that is not JSON, a turn that answers stores a log of just the user's message and the reply; the old text is lost. |
| WorkflowProperties.ChatWithoutSession | base/views.py:235-238 | Without a session nothing is stored and the answer is "Invalid session". |
| WorkflowProperties.GreetingOutcome | base/views.py:261-313 | A usable extracted name (present and not `NOT_FOUND`) is stored and moves the session to `pan_collection`. Any other answer moves to `name_collection`. A truthy non-object result raises. No table changes. |
| WorkflowProperties.PanCollectionOutcome | base/views.py:315-351 | The session moves to `pan_verification` and asks for the `pan_card` upload exactly when the gate finds a PAN, whether or not a customer has it; a known PAN links its customer. Otherwise the stage and the customer stay. No table changes. |
| WorkflowProperties.WaitingStagesStay | base/views.py:353-363 | In the waiting stages the turn answers and changes nothing but the log. |
| WorkflowProperties.UnknownStageResets | base/views.py:499-503 | A stored stage outside the nine codes resets to `greeting` and changes nothing else but the log. |
| WorkflowProperties.LoanDetailsNotObject | base/views.py:368-370 | Decoded details that are a truthy non-object make the turn raise, storing nothing. |
| WorkflowProperties.IncompleteDecision | base/views.py:370-373 | Missing, undecodable or falsy details leave the session and the tables as they were. |
| WorkflowProperties.LoanDetailsIncomplete | base/views.py:485-487 | With amount, purpose or tenure missing, no application is created and the stage is unchanged. |
| WorkflowProperties.LoanDetailsWithoutCustomer | base/views.py:376-382 | Complete details without a customer create nothing and send the session back to `pan_verification`. |
| WorkflowProperties.AssessmentStepOutcome | base/views.py:415-484 | Exactly one application is appended, carrying the request and the status the outcome dictates. An approval stores the letter and completes the session. Every `pending_*` outcome stays under review and asks for a salary slip. Anything else rejects with the reason and moves to `rejected`. |
| WorkflowProperties.LoanDetailsCreatesOne | base/views.py:383-484 | With complete details and a customer, the truthy employment details are stored, and exactly one application for that customer is created with the request and the outcome's status and stage. |
| WorkflowInvariant.InitialInv | base/models.py:92-116 | A new session over empty tables satisfies the invariant. |
| WorkflowInvariant.ChatInv | base/views.py:229-533 | Every chat turn preserves the invariant. |
| WorkflowInvariant.StageStepInv | base/views.py:259-503 | Every branch of the stage dispatch preserves the invariant. |
| WorkflowInvariant.LoanDetailsAlwaysLinked | base/views.py:376-382 | Under the invariant, and with a log that can be appended to, complete details in `loan_details` always create an application, so the branch without a customer is never taken. |
| WorkflowInvariant.UploadPanCardInv | base/views.py:537-784 | A PAN card upload preserves the invariant. |
| WorkflowInvariant.UploadSelfieInv | base/views.py:60-200 | A selfie upload preserves the invariant. |
| WorkflowInvariant.UploadSalarySlipInv | base/views.py:788-926 | A salary slip upload preserves the invariant. |
| UploadProperties.PanUploadRefusal | base/views.py:539-570 | A missing file, a type other than the four image types (a PDF among them) or a file over 5 MB is refused before the session is looked up, and so is an unknown session. Nothing changes. |
| UploadProperties.SelfieRefusal | base/views.py:62-93 | The same refusals, with the same limits, guard the selfie upload. |
| UploadProperties.SlipRefusal | base/views.py:790-819 | A salary slip may also be a PDF and may be up to 10 MB; otherwise the same refusals apply. |
| UploadProperties.PanUploadNeedsName | base/views.py:572-578 | Past the file and session checks, an unset name stops the upload, and nothing changes. |
| UploadProperties.PanUploadActsOnVerdict | base/views.py:580-607 | Otherwise the upload stages the image and acts on the verdict for it, with the PAN from the conversation as the expected PAN. |
| UploadProperties.VerdictChecked | base/views.py:597-601 | The verdict the upload acts on, when valid, already has a matching name and, when a PAN was expected, that PAN. |
| UploadProperties.PanMismatchUnreachable | base/views.py:609-629 | The two mismatch answers are never given. |
| UploadProperties.PanUploadDecision | base/views.py:609-784 | The card is accepted exactly when the verdict is valid, a row can be registered and the log can be appended to. Otherwise a valid card ends in the error answer. An invalid card, or an error while registering, clears the staged image and keeps the stage and the tables. |
| UploadProperties.PanUploadOnNonIterableLog | base/views.py:580-582 | A log that is a JSON value other than a list, `{}` or `""` makes reading the expected PAN raise before the `try`, and nothing is stored. |
| UploadProperties.CardDecisionOnNonListLog | base/views.py:695-706 | A valid, registrable card on a log that cannot be appended to still stores its row and links the session at `selfie_verification`, since the save comes first. The except branch then clears the staged image and answers with the error. |
| UploadProperties.PanUploadAccepted | base/views.py:631-700 | An accepted card links its row, marks it verified, moves the session to `selfie_verification` and keeps the image staged. No other row and no application changes. An existing row keeps everything else, including a birth date it already had. A new row gets credit score 750 and limit 100000. |
| UploadProperties.SelfieNeedsVerifiedPan | base/views.py:94-108 | Past the file and session checks, a customer that is not PAN-verified, or a missing staged image, stops the upload and changes nothing. |
| UploadProperties.SelfieDecision | base/views.py:110-200 | The selfie is accepted exactly when the faces match with confidence at least 20. Acceptance marks the customer face-verified with that confidence, clears the staged image and moves to `loan_details`. A failed match changes nothing. On a log that cannot be appended to, acceptance stores the same state but answers with the error. An error before the save clears only the staged image. |
| UploadProperties.SelfieUndecodable | base/agents.py:236-241 | An undecodable comparison reply fails the check with confidence 0 and changes nothing. |
| UploadProperties.SelfieAsWrittenCrashes | base/views.py:60-108 | As written, `upload_selfie` stores nothing. It raises exactly when the file is accepted, the session exists and its linked customer is PAN-verified. Otherwise it answers exactly as the intended handler. |
| UploadProperties.SelfieAsWrittenDiffers | base/views.py:94-200 | Wherever the intended handler reaches the staged-image check or the comparison, the handler as written raises instead. |
| UploadProperties.SelfieAsWrittenWitness | base/views.py:102 | For a PAN-verified customer with a staged image and a matching selfie (confidence 90), the intended handler accepts, and the handler as written raises. |
| UploadProperties.SlipApprovesLatest | base/views.py:817-926 | Without a customer or an application, nothing changes. Otherwise the customer's latest application is approved, whatever the stage and the status, and nothing else in the tables changes. With a letter and a log that can be appended to, the session moves to `completed` and logs the approval. Otherwise the session is unchanged and the letter error is answered. |
| Views.HandleChat | base/views.py:229-533 | The stored session, the tables and the answer after the handler are those of `Chat`. |
| Views.StageBranch | base/views.py:259-503 | The in-place stage dispatch raises exactly when `StageStep` does, and otherwise leaves its session and tables. |
| Views.Assess | base/views.py:415-484 | Acting on the underwriting result in place gives the tables and reply of `AssessmentStep`. |
| Views.Apply | base/views.py:383-484 | Storing the details and creating the application in place gives the turn of the application branch. |
| Views.HandleUploadPanCard | base/views.py:537-784 | The stored state and the answer after the handler are those of `UploadPanCard`. |
| Views.FindOrCreateCustomer | base/views.py:631-693 | Finding or creating the verified row in place succeeds exactly when `RegisterCustomer` does, with the same row. |
| Views.HandleUploadSelfie | base/views.py:60-200 | The stored state and the answer after the handler are those of `UploadSelfie`, the intended handler (see "## Findings"). |
| Views.FindLatest | base/views.py:829-832 | The scan from the newest row down finds `LatestApplication`. |
| Views.HandleUploadSalarySlip | base/views.py:788-926 | The stored state and the answer after the handler are those of `UploadSalarySlip`. |
| Admin.MarkedRow | base/admin.py:115-121 | A marked row is verified and stamped with the action's time; no other column changes. |
| Admin.ResetRow | base/admin.py:126-132 | A reset row is unverified, with no date and no confidence; no other column changes. |
| Admin.Marked | base/admin.py:115-124 | The customer table after `mark_as_verified`. See `MarkAsVerified`, `CustomerActionsFrame`, `CustomerActionsIdempotent` and `ResetAfterMark`. |
| Admin.Reset | base/admin.py:126-135 | The customer table after `reset_verification`. See `ResetVerification`, `CustomerActionsFrame`, `CustomerActionsIdempotent` and `ResetAfterMark`. |
| Admin.MarkAsVerified | base/admin.py:115-124 | In place, the customer table becomes `Marked` over the selection; the answer counts the selected stored rows. |
| Admin.ResetVerification | base/admin.py:126-135 | In place, the customer table becomes `Reset` over the selection; the answer counts the selected stored rows. |
| Admin.CustomerActionsFrame | base/admin.py:115-132 | Both actions keep every key, touch only the selected rows, and never change a PAN. |
| Admin.CustomerActionsIdempotent | base/admin.py:115-132 | Marking twice is marking once; resetting twice is resetting once. |
| Admin.ResetAfterMark | base/admin.py:115-132 | A reset undoes a mark entirely. |
| Admin.Decided | base/admin.py:382-401 | An approved row gets status and time stamp. A rejected row gets status, time stamp and the "Manually rejected by admin" reason. |
| Admin.DecidePending | base/admin.py:382-401 | The applications table after an approve or reject action keeps its length. See `DecidePendingFrame`, `DecidedOnce`, `NothingLeftToDecide` and `UpdatePending`. |
| Admin.CountEligible | base/admin.py:382-401 | The number of rows the update matches is at most the number of rows. See `CountEligibleZero` and `UpdatePending`. |
| Admin.UpdatePending | base/admin.py:382-401 | The row loop leaves the table as `DecidePending` and answers the number of eligible rows. |
| Admin.ApproveApplications | base/admin.py:382-389 | Only the selected `pending` rows are approved; the answer is their number. |
| Admin.RejectApplications | base/admin.py:393-401 | Only the selected `pending` rows are rejected with the manual reason; the answer is their number. |
| Admin.DecidePendingFrame | base/admin.py:382-401 | Eligible rows are decided; every other row is untouched. |
| Admin.DecidedOnce | base/admin.py:382-401 | After a decision over a selection, any second action over it changes nothing. |
| Admin.NothingLeftToDecide | base/admin.py:382-401 | After the action, no row of the selection is still pending. |
| Admin.CountEligibleZero | base/admin.py:382-401 | The count is zero exactly when no selected row is pending. |
| Admin.DecimalRoundTrip | base/admin.py:316-320 | The value of `str(n)` is `n`. |
| Admin.ApplicationId | base/admin.py:316-320 | `LA-` and the id padded to six digits. See `ApplicationIdRoundTrip`, `ApplicationIdInjective` and `ApplicationIdWidth`. |
| Admin.ApplicationIdRoundTrip | base/admin.py:316-320 | `LA-` and the zero-padded id reads back as the id. |
| Admin.ApplicationIdInjective | base/admin.py:316-320 | Different ids never share a display. |
| Admin.ApplicationIdWidth | base/admin.py:316-320 | Ids below a million show as exactly nine characters. |
| Admin.DecimalLength | base/admin.py:316-320 | `str(n)` has at most `k` digits exactly when `n < 10^k`. |
| Admin.ConfidenceDisplay | base/admin.py:494-507 | A missing score shows as a dash; a present score is shown as itself. |
| Admin.ConfidenceBands | base/admin.py:494-507 | 80 and above is green, 60 up to 80 amber, below 60 red. |
| Admin.ConfidenceMonotone | base/admin.py:494-507 | A higher score never shows in a lower band. |
| Admin.StatusBadge | base/admin.py:347-364 | Grey exactly for text that is not a status code. |
| Admin.StatusBadgeDistinct | base/admin.py:352-359 | Each status shows in its own colour, and no two statuses share one. |
| ViewsApi.ParseHandOff | base/views_api.py:53-92 | Only the five agent codes parse, each to the agent it names. |
| ViewsApi.HandOffCodeRoundTrip | base/views_api.py:53-92 | Every agent reads back from its code. |
| ViewsApi.MasterHandOff | base/views_api.py:53-62 | Master hands off to sales exactly when the classification says `sales`; otherwise it stays, with the fixed reply. |
| ViewsApi.SalesHandOff | base/views_api.py:64-78 | Sales raises only on a truthy non-object. It hands off to verification exactly when every value is truthy and no customer is linked; otherwise it stays. |
| ViewsApi.LaterHandOffs | base/views_api.py:80-92 | Verification moves to underwriting and underwriting to closing, unconditionally; closing stays. |
| ViewsApi.Step | base/views_api.py:53-92 | One turn's hand-off from an agent, `None` when the turn raises. See `MasterHandOff`, `SalesHandOff`, `LaterHandOffs`, `StepForward` and `RunForward`. |
| ViewsApi.SalesStep | base/views_api.py:64-78 | The sales turn on the decoded loan details. See `SalesHandOff`, `LinkedStaysWithSales` and `SalesTurn`. |
| ViewsApi.StepForward | base/views_api.py:53-92 | A turn never hands back, and moves at most one agent forward. |
| ViewsApi.RunForward | base/views_api.py:53-92 | Over any run of turns the agent only moves forward. |
| ViewsApi.LinkedStaysWithSales | base/views_api.py:64-78 | With a customer linked, a session at master or sales never gets past sales. |
| ViewsApi.UnknownAgentRaises | base/views_api.py:92-98 | A stored agent code outside the chain leaves the reply unbound, so every turn raises. |
| ViewsApi.SalesTurn | base/views_api.py:64-78 | The sales branch raises exactly when `SalesStep` does, and otherwise gives its agent and reply. |
| ViewsApi.HandleApiChat | base/views_api.py:36-100 | In place, a turn appends the user's message, then the reply tagged with the agent after the hand-off, and stores that agent. A turn that raises changes nothing. |
| ViewsApi.ApiSession.constructor | base/views_api.py:11-32 | A new session is at `master` and its log holds only the greeting. |

## Left out

- Every language- and vision-model call is a parameter, because each is a network call with nondeterministic output. This covers:
  - `call_openai`;
  - the generative prompts (`greet_user`, `request_*`, `engage_customer`, `thank_and_close`, `generate_*_report`, `request_kyc_details`);
  - `extract_name_and_dob`, the name and birth-date reader that `base/views.py:263` calls. The model reads its decoded reply as the `ChatOracles.nameAndDob` parameter;
  - `determine_next_agent`, the classification that `base/views_api.py:55` calls. The model reads it as a parameter of `ViewsApi`;
  - the vision calls in `match_faces` and `verify_pan_card`;
  - the semantic name fallback (`base/agents.py:433-456`), an `Option<Parsed<NameMatch>>`. `None` stands for a call or decoding that raised. Otherwise it is whatever `json.loads` made of the answer: possibly not a dictionary, and possibly without `matches` or `reason`.
- `CustomerSegmentation` is not part of this model; it is not defined in any file modelled here. Segmentation and the age derived from a stored birth date are opaque parameters (`SegmentRule`, `AgeRule`); no segment-specific threshold is invented.
- `SanctionLetterGenerator` (PDF rendering with a float EMI) and `download_sanction_letter` are left out. The generated letter is an `Option<Bytes>` parameter, `None` when generation raises.
- `set_language` is left out: it calls agent methods that do not exist.
- Persistence layers are left out: the Django ORM, `JsonResponse` building, file reading, base64 encoding (the staged image is opaque bytes), `strptime` date parsing (a parameter), and `timezone.now()` (a parameter).
- `base/agents.py` defines neither `extract_name_and_dob` nor `determine_next_agent`; it has only `extract_name(conversation_history)` (`base/agents.py:40`). As written, each call raises `AttributeError`, so every `greeting` and `name_collection` turn of `chat`, and every `master` turn of the agent-chain endpoint, fails. The model treats both as defined, with their replies as parameters.
- `views.py` passes an extra `age_segment` argument at `base/views.py:156`, `298`, `303`, `332`, `368`, `408-413`, `422`, `487` and `858`. The signatures it calls, at `base/agents.py:73`, `85`, `97`, `486`, `502`, `553` and `597`, do not take it. As written, each of these calls raises `TypeError`:
  - every `loan_details` turn fails at line 368, before any application exists;
  - a `pan_collection` turn that finds a stored PAN fails at line 332;
  - no sanction letter is ever generated (lines 422 and 858), so `upload_salary_slip` approves the application, then answers with its letter error;
  - no selfie request reaches line 156 as written, because line 102 raises first (see "## Findings"). In the intended handler, an accepted match would raise at line 156, after the save at line 149. The except branch (lines 191-194) would save again, so the match message appended at line 152 would be stored, and the answer would be an error.
- The model treats all of these calls as made with `base/agents.py`'s signatures. Their results are parameters: `ChatOracles.generated`, `ChatOracles.loanReply`, `ChatOracles.assessment`, `ChatOracles.sanctionLetter`, and the letter of `Workflow.UploadSalarySlip`. `Agents.AssessLoan` is written as `base/agents.py` defines it. The views branch on an abstract assessment (`ChatOracles.assessment`) with the five values the views distinguish.
- The admin HTML is left out: badges' markup, previews, conversation displays. So is the `-` shown for a missing object.
- Concurrency is left out: the handlers do an unguarded read-modify-write of the session.
- `DocumentVerification` rows are left out: no handler modelled here writes them.
- Money is `real`: `Decimal` quantisation to two places is not modelled.
- Agents.ValidateSalaryEmi: the model's quotient `loan_amount / tenure_months` is exact. The source's `Decimal` division (`base/agents.py:587`) rounds it to 28 significant digits, so the two verdicts can differ at the boundary. An example is salary 0.6666666666666666666666666666, amount 1 and tenure 3: the source accepts it, and the model answers `EmiExceeds`.
- `Text.Upper` is exact only for ASCII letters and characters without case. Other characters whose upper case contains an ASCII letter map to that ASCII form. The rest are kept as they are.
- Attributes the handlers set without a model column (`selfie_verified`, the salary slip's name, content, type and size, and the sanction letter's `sanction_letter_name`, `sanction_letter_content` and `sanction_letter_content_type` set at `base/views.py:864-866`) are not stored. Neither are messages appended after the handler's last `save()`.
- A stored log that is a JSON list whose items are not message objects is not modelled. The prompt builders would raise on such items, and the model's list holds only messages.
- `urls.py`, `urls_api.py` and `create_dummy_data.py` are left out: routing, and random data generation.
- Workflow.UploadSelfie: models `upload_selfie` with a `temp_pan_image_data` column on the session (`SessionRecord.tempPanImage`). `base/models.py:92-116` declares no such column, so as written line 102 raises `AttributeError` on every request past the PAN check. `Workflow.UploadSelfieAsWritten` models that behaviour; see "## Findings".
- Views.HandleUploadSelfie: proved equal to `Workflow.UploadSelfie`, so it too treats `temp_pan_image_data` as a stored column; as written, nothing past line 102 runs.
- Models.ChatSession.Store: writes `tempPanImage` back as a column, which `base/models.py:92-116` does not declare. As written, `save()` drops the attribute assigned at `base/views.py:596`.
- UploadProperties.PanUploadAccepted: says the image stays staged in the session. That holds only with the `temp_pan_image_data` column, which `base/models.py` does not declare.
- UploadProperties.SelfieNeedsVerifiedPan: its `NoStagedImage` case assumes the column exists. As written, line 102 raises instead ("## Findings").
- UploadProperties.SelfieDecision: states the intended handler. As written, line 102 raises before the comparison ("## Findings", `UploadProperties.SelfieAsWrittenDiffers`).
- UploadProperties.SelfieUndecodable: states the intended handler. As written, line 102 raises before the comparison ("## Findings").
- The `views_api.py` session uses `current_agent` and `conversation_history`, which `base/models.py`'s `ChatSession` does not define. `ViewsApi.ApiSession` models those fields on their own.
- `verify_pan_card` updates its result dictionary in place (`base/agents.py:359-373`), and the parsers reassign the cleaned text step by step. Both are straight-line code without loops, so they are written as functions over values.

## Findings

| source | as written | input that shows it | evidently intended | confidence | as-written member | corrected member |
|---|---|---|---|---|---|---|
| base/views.py:102 | `upload_pan_card` assigns `session.temp_pan_image_data` (line 596) and saves (line 700), but `ChatSession` (`base/models.py:92-116`) declares no such column. The value is not stored, and on the next request the read at line 102 raises `AttributeError` outside the `try`. | Any allowed image, at most 5 MB, for a session whose linked customer is PAN-verified: for example the session, table and decoder of `UploadProperties.SelfieAsWrittenWitness`. | The staged card image is kept with the session (the comment at line 700 says so), and the selfie is compared with it. | not executed | Workflow.UploadSelfieAsWritten, with UploadProperties.SelfieAsWrittenCrashes and UploadProperties.SelfieAsWrittenWitness | Workflow.UploadSelfie, with UploadProperties.SelfieDecision and UploadProperties.SelfieAsWrittenDiffers |
