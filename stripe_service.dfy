/**
 * The checkout-session gateway. In mock mode sessions live in a
 * process-wide map from session id to session and always report `paid`;
 * otherwise every call goes to the payment provider, which is opaque here
 * and enters as a function from request to outcome.
 */
module StripeService {
  import opened Wrappers
  import opened Questions

  const MockSecretKey := "sk_test_mock"
  const MockIdPrefix := "cs_test_"

  /** `STRIPE_SECRET_KEY` as read from the environment; an empty value counts as unset. */
  function ClientKey(secretKey: Option<string>): string {
    if secretKey.Some? && secretKey.value != "" then secretKey.value else MockSecretKey
  }

  /**
   * `USE_MOCK`: the key is unset, empty, or the mock key itself; that is,
   * mock mode is on exactly when the client library is built with the mock key.
   */
  predicate UseMock(secretKey: Option<string>)
    ensures UseMock(secretKey) <==> ClientKey(secretKey) == MockSecretKey
    ensures secretKey.None? ==> UseMock(secretKey)
  {
    secretKey.None? || secretKey.value == "" || secretKey.value == MockSecretKey
  }

  /** The fields of a checkout session the service reads. */
  datatype Session = Session(
    id: string,
    url: string,
    paymentStatus: string,
    questionId: string,   // metadata.question_id
    amountTotal: int,
    currency: string)

  /** The session `createMockCheckoutSession` builds; `suffix` stands for the random part of the id. */
  function MockSession(q: Question, suffix: string, frontendUrl: string): (s: Session)
    ensures |s.id| >= |MockIdPrefix| && s.id[..|MockIdPrefix|] == MockIdPrefix
    ensures s.paymentStatus == "paid" && s.currency == "usd"
    ensures s.questionId == q.id && s.amountTotal == q.priceCents
  {
    var id := MockIdPrefix + suffix;
    Session(id,
      frontendUrl + "/thanks.html?session_id=" + id + "&question_id=" + q.id + "&mock=true",
      "paid", q.id, q.priceCents, "usd")
  }

  datatype LineItem = LineItem(
    currency: string,
    productName: string,
    description: string,
    unitAmount: int,
    quantity: int)

  /** The arguments of the provider's `checkout.sessions.create`. */
  datatype CheckoutRequest = CheckoutRequest(
    paymentMethodTypes: seq<string>,
    lineItems: seq<LineItem>,
    mode: string,
    successUrl: string,
    cancelUrl: string,
    questionId: string)   // metadata.question_id

  /** What the provider charges for a list of line items. */
  function AmountDue(items: seq<LineItem>): int {
    if items == [] then 0 else items[0].unitAmount * items[0].quantity + AmountDue(items[1..])
  }

  function ProductName(u: Urgency): string {
    "Ask YaGuy - " + (if u == Urgent then "Urgent" else "Standard") + " Answer"
  }

  /** The real-mode request: one card line item at the question's price, tagged with its id. */
  function CheckoutRequestFor(q: Question, frontendUrl: string): (req: CheckoutRequest)
    ensures AmountDue(req.lineItems) == q.priceCents
    ensures |req.lineItems| == 1 && req.lineItems[0].quantity == 1
    ensures req.lineItems[0].unitAmount == q.priceCents && req.lineItems[0].currency == "usd"
    ensures req.questionId == q.id && req.mode == "payment" && req.paymentMethodTypes == ["card"]
  {
    var item := LineItem("usd", ProductName(q.urgency), q.title, q.priceCents, 1);
    assert AmountDue([item]) == item.unitAmount * 1 + AmountDue([]);
    CheckoutRequest(["card"], [item], "payment",
      frontendUrl + "/thanks.html?session_id={CHECKOUT_SESSION_ID}&question_id=" + q.id,
      frontendUrl + "/ask.html",
      q.id)
  }

  /** What `createCheckoutSession` answers: a mock session, or the provider's outcome. */
  function CreateOutcome(useMock: bool, q: Question, suffix: string, frontendUrl: string,
                         providerCreate: CheckoutRequest -> Result<Session, string>): (r: Result<Session, string>)
    ensures useMock ==> r.Ok? && r.value.paymentStatus == "paid" && r.value.questionId == q.id
    ensures !useMock ==> r == providerCreate(CheckoutRequestFor(q, frontendUrl))
  {
    if useMock then Ok(MockSession(q, suffix, frontendUrl))
    else providerCreate(CheckoutRequestFor(q, frontendUrl))
  }

  /** What `getCheckoutSession` answers for a given mock map. */
  function Lookup(useMock: bool, sessions: map<string, Session>, sessionId: string,
                  providerRetrieve: string -> Result<Session, string>): (r: Result<Session, string>)
    ensures useMock && sessionId in sessions ==> r == Ok(sessions[sessionId])
    ensures !useMock ==> r == providerRetrieve(sessionId)
    ensures sessionId !in sessions ==> r == providerRetrieve(sessionId)
  {
    if useMock && sessionId in sessions then Ok(sessions[sessionId]) else providerRetrieve(sessionId)
  }

  /** A session just stored in mock mode is returned as stored. */
  lemma StoredSessionIsRetrieved(sessions: map<string, Session>, s: Session,
                                 providerRetrieve: string -> Result<Session, string>)
    ensures Lookup(true, sessions[s.id := s], s.id, providerRetrieve) == Ok(s)
  {
  }

  /** Storing a session leaves every other id's answer as it was. */
  lemma StoringKeepsOtherSessions(sessions: map<string, Session>, s: Session, sessionId: string,
                                  providerRetrieve: string -> Result<Session, string>)
    requires sessionId != s.id
    ensures Lookup(true, sessions[s.id := s], sessionId, providerRetrieve)
         == Lookup(true, sessions, sessionId, providerRetrieve)
  {
  }

  /** In mock mode an unknown id is answered by the provider, failure included. */
  lemma UnknownMockIdFallsThrough(sessions: map<string, Session>, sessionId: string,
                                  providerRetrieve: string -> Result<Session, string>)
    requires sessionId !in sessions
    ensures Lookup(true, sessions, sessionId, providerRetrieve) == providerRetrieve(sessionId)
  {
  }

  class Gateway {
    const useMock: bool
    var mockSessions: map<string, Session>

    constructor (secretKey: Option<string>)
      ensures useMock == UseMock(secretKey) && mockSessions == map[]
    {
      useMock := UseMock(secretKey);
      mockSessions := map[];
    }

    method CreateMockCheckoutSession(q: Question, suffix: string, frontendUrl: string)
      returns (r: Result<Session, string>)
      modifies this
      ensures r == Ok(MockSession(q, suffix, frontendUrl))
      ensures mockSessions == old(mockSessions)[r.value.id := r.value]
    {
      var session := MockSession(q, suffix, frontendUrl);
      mockSessions := mockSessions[session.id := session];
      r := Ok(session);
    }

    method CreateCheckoutSession(q: Question, suffix: string, frontendUrl: string,
                                 providerCreate: CheckoutRequest -> Result<Session, string>)
      returns (r: Result<Session, string>)
      modifies this
      ensures r == CreateOutcome(useMock, q, suffix, frontendUrl, providerCreate)
      ensures useMock ==> mockSessions == old(mockSessions)[r.value.id := r.value]
      ensures !useMock ==> mockSessions == old(mockSessions)
    {
      if useMock {
        r := CreateMockCheckoutSession(q, suffix, frontendUrl);
        return;
      }
      r := providerCreate(CheckoutRequestFor(q, frontendUrl));
    }

    method GetCheckoutSession(sessionId: string, providerRetrieve: string -> Result<Session, string>)
      returns (r: Result<Session, string>)
      ensures useMock && sessionId in mockSessions ==> r == Ok(mockSessions[sessionId])
      ensures !(useMock && sessionId in mockSessions) ==> r == providerRetrieve(sessionId)
      ensures r == Lookup(useMock, mockSessions, sessionId, providerRetrieve)
    {
      if useMock && sessionId in mockSessions {
        return Ok(mockSessions[sessionId]);
      }
      r := providerRetrieve(sessionId);
    }
  }
}
