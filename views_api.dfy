/**
 * The older JSON chat endpoint: a session handed from agent to agent,
 * master, sales, verification, underwriting, closing, one step at a time
 * and never backwards. Each turn logs the user's message and the reply,
 * tagged with the agent the session holds after the turn.
 */
module ViewsApi {
  import opened Common
  import Agents

  datatype HandOff = MasterDesk | SalesDesk | VerificationDesk | UnderwritingDesk | ClosingDesk

  /** The stored `current_agent` values. */
  function HandOffCode(a: HandOff): string
  {
    match a
    case MasterDesk => "master"
    case SalesDesk => "sales"
    case VerificationDesk => "verification"
    case UnderwritingDesk => "underwriting"
    case ClosingDesk => "closing"
  }

  function ParseHandOff(code: string): (r: Option<HandOff>)
    ensures r.Some? ==> HandOffCode(r.value) == code
    ensures r.None? ==> forall a: HandOff :: HandOffCode(a) != code
  {
    if code == "master" then Some(MasterDesk)
    else if code == "sales" then Some(SalesDesk)
    else if code == "verification" then Some(VerificationDesk)
    else if code == "underwriting" then Some(UnderwritingDesk)
    else if code == "closing" then Some(ClosingDesk)
    else None
  }

  lemma HandOffCodeRoundTrip(a: HandOff)
    ensures ParseHandOff(HandOffCode(a)) == Some(a)
  {
  }

  /** The position of an agent in the hand-off order. */
  function Rank(a: HandOff): nat
  {
    match a
    case MasterDesk => 0
    case SalesDesk => 1
    case VerificationDesk => 2
    case UnderwritingDesk => 3
    case ClosingDesk => 4
  }

  const NotUnderstood := "I didn't quite understand. Are you an existing customer or a new customer?"
  const ProcessingNote := "Let me process your loan application..."
  const KycValidated := "KYC validated. Processing your loan application..."
  const Processed := "Your loan has been processed. You will receive the sanction letter shortly."

  /**
   * The model calls of one turn: the next-agent classification, the raw
   * reply of the loan-detail extraction and the truthiness of the decoded
   * object's values in order, and the text of whichever generative prompt
   * the turn sends.
   */
  datatype ApiOracles = ApiOracles(
    nextAgent: string,
    loanReply: string,
    valuesDecode: Agents.Decoder<seq<bool>>,
    generated: string)

  /** `loan_details and all(loan_details.values())` for a decoded object. */
  predicate AllFieldsGiven(values: seq<bool>)
  {
    |values| > 0 && forall i | 0 <= i < |values| :: values[i]
  }

  /**
   * One turn's hand-off from agent `a`: the agent after the turn and its
   * reply, or `None` when the turn raises (`.values()` on decoded loan
   * details that are a truthy non-object).
   */
  function Step(a: HandOff, hasCustomer: bool, o: ApiOracles): Option<(HandOff, string)>
  {
    match a
    case MasterDesk =>
      if o.nextAgent == "sales" then Some((SalesDesk, o.generated)) else Some((MasterDesk, NotUnderstood))
    case SalesDesk => SalesStep(hasCustomer, Agents.ExtractLoanDetails(o.loanReply, o.valuesDecode), o.generated)
    case VerificationDesk => Some((UnderwritingDesk, KycValidated))
    case UnderwritingDesk => Some((ClosingDesk, Processed))
    case ClosingDesk => Some((ClosingDesk, o.generated))
  }

  /** The sales agent's turn on the decoded loan details `d`, where `generated` is the text of its prompt. */
  function SalesStep(hasCustomer: bool, d: Option<Agents.Parsed<seq<bool>>>, generated: string): Option<(HandOff, string)>
  {
    match d
    case Some(NotObject(true)) => None
    case Some(Object(values)) =>
      if !AllFieldsGiven(values) then Some((SalesDesk, generated))
      else if !hasCustomer then Some((VerificationDesk, generated))
      else Some((SalesDesk, ProcessingNote))
    case _ => Some((SalesDesk, generated))
  }

  /** A turn from a stored agent code; an unknown code leaves the reply unbound, which raises. */
  function CodeStep(code: string, hasCustomer: bool, o: ApiOracles): Option<(HandOff, string)>
  {
    match ParseHandOff(code)
    case None => None
    case Some(a) => Step(a, hasCustomer, o)
  }

  datatype ApiRole = UserRole | AssistantRole

  /** A `conversation_history` entry. */
  datatype ApiMessage = ApiMessage(role: ApiRole, content: string, agent: Option<string>)

  datatype ApiOutcome = ApiInvalidSession | ApiCrashed | ApiReplied(message: string, agent: string)

  /** The session row: its current agent, its linked customer and its message list. */
  class ApiSession {
    var currentAgent: string
    var customer: Option<string>
    var history: seq<ApiMessage>

    /** `start_chat`: a session at the master agent whose log holds the greeting. */
    constructor (greeting: string)
      ensures currentAgent == HandOffCode(MasterDesk) && customer.None?
      ensures history == [ApiMessage(AssistantRole, greeting, Some(HandOffCode(MasterDesk)))]
    {
      currentAgent := "master";
      customer := None;
      history := [ApiMessage(AssistantRole, greeting, Some("master"))];
    }
  }

  /** The `sales` branch of `chat`; `raised` when `.values()` is called on a truthy non-object. */
  method SalesTurn(hasCustomer: bool, details: Option<Agents.Parsed<seq<bool>>>, generated: string)
    returns (raised: bool, agent: HandOff, response: string)
    ensures raised <==> SalesStep(hasCustomer, details, generated).None?
    ensures !raised ==> SalesStep(hasCustomer, details, generated) == Some((agent, response))
  {
    raised := false;
    agent := SalesDesk;
    response := generated;
    if details == Some(Agents.NotObject(true)) {
      raised := true;
    } else if details.Some? && details.value.Object? && AllFieldsGiven(details.value.fields) {
      if !hasCustomer {
        agent := VerificationDesk;
      } else {
        response := ProcessingNote;
      }
    }
  }

  /**
   * `chat`: log the user's message, hand off from the current agent, log the
   * reply under the agent the session now holds, and save. A turn that
   * raises saves nothing.
   */
  method HandleApiChat(session: ApiSession?, text: string, o: ApiOracles) returns (outcome: ApiOutcome)
    modifies session
    ensures session == null ==> outcome == ApiInvalidSession
    ensures session != null && CodeStep(old(session.currentAgent), old(session.customer).Some?, o).None? ==>
      outcome == ApiCrashed && unchanged(session)
    ensures session != null && CodeStep(old(session.currentAgent), old(session.customer).Some?, o).Some? ==>
      var (next, reply) := CodeStep(old(session.currentAgent), old(session.customer).Some?, o).value;
      outcome == ApiReplied(reply, HandOffCode(next))
      && session.currentAgent == HandOffCode(next) && session.customer == old(session.customer)
      && session.history == old(session.history)
           + [ApiMessage(UserRole, text, None), ApiMessage(AssistantRole, reply, Some(HandOffCode(next)))]
  {
    if session == null {
      return ApiInvalidSession;
    }
    var history := session.history + [ApiMessage(UserRole, text, None)];
    var current := ParseHandOff(session.currentAgent);
    if current.None? {
      return ApiCrashed;
    }
    var agent := current.value;
    var response: string;
    if agent == MasterDesk {
      if o.nextAgent == "sales" {
        agent := SalesDesk;
        response := o.generated;
      } else {
        response := NotUnderstood;
      }
    } else if agent == SalesDesk {
      var details := Agents.ExtractLoanDetails(o.loanReply, o.valuesDecode);
      var raised;
      raised, agent, response := SalesTurn(session.customer.Some?, details, o.generated);
      if raised {
        return ApiCrashed;
      }
    } else if agent == VerificationDesk {
      agent := UnderwritingDesk;
      response := KycValidated;
    } else if agent == UnderwritingDesk {
      response := Processed;
      agent := ClosingDesk;
    } else {
      response := o.generated;
    }
    session.currentAgent := HandOffCode(agent);
    session.history := history + [ApiMessage(AssistantRole, response, Some(HandOffCode(agent)))];
    outcome := ApiReplied(response, HandOffCode(agent));
  }

  // ------------------------------------------------------------ properties

  /** A turn never hands back, and moves at most one agent forward. */
  lemma StepForward(a: HandOff, hasCustomer: bool, o: ApiOracles)
    ensures Step(a, hasCustomer, o).Some? ==>
      Rank(a) <= Rank(Step(a, hasCustomer, o).value.0) <= Rank(a) + 1
  {
    if a == SalesDesk {
      SalesHandOff(hasCustomer, Agents.ExtractLoanDetails(o.loanReply, o.valuesDecode), o.generated);
    }
  }

  /** Master hands off to sales exactly when the classification says `sales`, and otherwise stays. */
  lemma MasterHandOff(hasCustomer: bool, o: ApiOracles)
    ensures Step(MasterDesk, hasCustomer, o).Some?
    ensures Step(MasterDesk, hasCustomer, o).value.0 == SalesDesk <==> o.nextAgent == "sales"
    ensures Step(MasterDesk, hasCustomer, o).value.0 != SalesDesk ==> Step(MasterDesk, hasCustomer, o).value == (MasterDesk, NotUnderstood)
  {
  }

  /** Loan details with every value given, as the sales turn reads them. */
  predicate DetailsGiven(d: Option<Agents.Parsed<seq<bool>>>)
  {
    d.Some? && d.value.Object? && AllFieldsGiven(d.value.fields)
  }

  /**
   * Sales raises only on a truthy non-object; it hands off to verification
   * exactly when every value is given and no customer is linked, and
   * otherwise stays.
   */
  lemma SalesHandOff(hasCustomer: bool, d: Option<Agents.Parsed<seq<bool>>>, generated: string)
    ensures SalesStep(hasCustomer, d, generated).None? <==> d == Some(Agents.NotObject(true))
    ensures SalesStep(hasCustomer, d, generated).Some? ==>
      (SalesStep(hasCustomer, d, generated).value.0 == VerificationDesk <==> DetailsGiven(d) && !hasCustomer)
    ensures SalesStep(hasCustomer, d, generated).Some? && !(DetailsGiven(d) && !hasCustomer) ==>
      SalesStep(hasCustomer, d, generated).value.0 == SalesDesk
  {
  }

  /** Verification, underwriting and closing move on unconditionally; closing is final. */
  lemma LaterHandOffs(hasCustomer: bool, o: ApiOracles)
    ensures Step(VerificationDesk, hasCustomer, o) == Some((UnderwritingDesk, KycValidated))
    ensures Step(UnderwritingDesk, hasCustomer, o) == Some((ClosingDesk, Processed))
    ensures Step(ClosingDesk, hasCustomer, o).Some? && Step(ClosingDesk, hasCustomer, o).value.0 == ClosingDesk
  {
  }

  /** The agent after a run of turns, or `None` once one raises. No turn of this endpoint links a customer. */
  function Run(a: HandOff, hasCustomer: bool, turns: seq<ApiOracles>): Option<HandOff>
    decreases |turns|
  {
    if turns == [] then Some(a)
    else
      match Step(a, hasCustomer, turns[0])
      case None => None
      case Some((next, _)) => Run(next, hasCustomer, turns[1..])
  }

  /** Over any run the agent only moves forward. */
  lemma {:induction false} RunForward(a: HandOff, hasCustomer: bool, turns: seq<ApiOracles>)
    ensures Run(a, hasCustomer, turns).Some? ==> Rank(a) <= Rank(Run(a, hasCustomer, turns).value)
    decreases |turns|
  {
    if turns != [] {
      StepForward(a, hasCustomer, turns[0]);
      if Step(a, hasCustomer, turns[0]).Some? {
        RunForward(Step(a, hasCustomer, turns[0]).value.0, hasCustomer, turns[1..]);
      }
    }
  }

  /** With a customer linked, a session that starts at master or sales never gets past sales. */
  lemma {:induction false} LinkedStaysWithSales(a: HandOff, turns: seq<ApiOracles>)
    requires a == MasterDesk || a == SalesDesk
    ensures Run(a, true, turns).Some? ==> Rank(Run(a, true, turns).value) <= Rank(SalesDesk)
    decreases |turns|
  {
    if turns != [] && Step(a, true, turns[0]).Some? {
      LinkedStaysWithSales(Step(a, true, turns[0]).value.0, turns[1..]);
    }
  }

  /** A stored code the chain does not name makes every turn raise. */
  lemma UnknownAgentRaises(code: string, hasCustomer: bool, o: ApiOracles)
    requires forall a: HandOff :: HandOffCode(a) != code
    ensures CodeStep(code, hasCustomer, o).None?
  {
  }
}
