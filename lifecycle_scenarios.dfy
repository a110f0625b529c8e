/**
 * Clients of the controller and the gateway: what a caller can conclude
 * from their contracts alone about sequences of operations.
 */
module LifecycleScenarios {
  import opened Wrappers
  import opened Questions
  import opened StripeService
  import opened QuestionController

  /** A mock session is handed back by id exactly as it was created. */
  method MockCreateThenGet(g: Gateway, q: Question, suffix: string, frontendUrl: string,
                           providerCreate: CheckoutRequest -> Result<Session, string>,
                           providerRetrieve: string -> Result<Session, string>)
    returns (created: Result<Session, string>, fetched: Result<Session, string>)
    requires g.useMock
    modifies g
    ensures created.Ok? && fetched == created
    ensures created.value.paymentStatus == "paid" && created.value.questionId == q.id
    ensures created.value.amountTotal == q.priceCents && created.value.currency == "usd"
    ensures forall id :: id in old(g.mockSessions) && id != created.value.id ==>
      id in g.mockSessions && g.mockSessions[id] == old(g.mockSessions)[id]
  {
    created := g.CreateCheckoutSession(q, suffix, frontendUrl, providerCreate);
    fetched := g.GetCheckoutSession(created.value.id, providerRetrieve);
  }

  /**
   * In mock mode, confirming the session id that submission returned passes
   * the `paid` check, and the question becomes received and paid.
   */
  method SubmitThenConfirm(c: Controller, body: SubmitBody, caller: Option<Caller>, env: PricingEnv,
                           now: int, questionId: string, suffix: string, frontendUrl: string,
                           providerCreate: CheckoutRequest -> Result<Session, string>,
                           providerRetrieve: string -> Result<Session, string>)
    returns (submitted: Result<SubmitReply, SubmitError>, confirmed: Result<Question, ConfirmError>)
    requires c.Valid() && c.gateway.useMock
    requires CheckSubmission(body).Ok? && questionId !in c.questions && OwnerRegistered(c.users, caller)
    modifies c, c.gateway
    ensures c.Valid()
    ensures submitted.Ok? && submitted.value.questionId == questionId
    ensures confirmed.Ok? && confirmed.value.status == Received && confirmed.value.paymentStatus == PaymentSucceeded
    ensures questionId in c.questions && c.questions[questionId] == confirmed.value
    ensures confirmed.value == MarkPaid(NewQuestion(questionId, caller, body, CheckSubmission(body).value, env, now)
                                          .(stripeSessionId := Some(submitted.value.sessionId)))
    ensures c.notifications == old(c.notifications) + [Notification(Confirmation, body.email, questionId)]
    ensures c.actions == old(c.actions)
  {
    submitted := c.SubmitQuestion(body, caller, env, now, questionId, suffix, frontendUrl, providerCreate);
    var sid := submitted.value.sessionId;
    assert sid in c.gateway.mockSessions && c.gateway.mockSessions[sid].questionId == questionId;
    assert |sid| >= |MockIdPrefix|;
    confirmed := c.ConfirmPayment(sid, providerRetrieve);
  }

  /**
   * The source's confirmation is not idempotent: confirming a paid session
   * twice sends the confirmation twice, and a question that was already
   * answered goes back to `received`, keeping its answer.
   */
  method ConfirmTwice(c: Controller, sessionId: string, providerRetrieve: string -> Result<Session, string>)
    returns (first: Result<Question, ConfirmError>, second: Result<Question, ConfirmError>)
    requires c.Valid() && sessionId != ""
    requires var found := Lookup(c.gateway.useMock, c.gateway.mockSessions, sessionId, providerRetrieve);
      found.Ok? && found.value.paymentStatus == "paid" && found.value.questionId in c.questions
    modifies c
    ensures var id := Lookup(c.gateway.useMock, c.gateway.mockSessions, sessionId, providerRetrieve).value.questionId;
      var n := Notification(Confirmation, old(c.questions)[id].email, id);
      && first.Ok? && second == first
      && c.notifications == old(c.notifications) + [n, n]
      && id in c.questions && c.questions[id].status == Received
      && c.questions[id].answerText == old(c.questions)[id].answerText
  {
    first := c.ConfirmPayment(sessionId, providerRetrieve);
    second := c.ConfirmPayment(sessionId, providerRetrieve);
  }

  /** With the guarded variant, the second confirmation changes nothing and sends nothing. */
  method ConfirmOnceTwice(c: Controller, sessionId: string, providerRetrieve: string -> Result<Session, string>)
    returns (first: Result<Question, ConfirmError>, second: Result<Question, ConfirmError>)
    requires c.Valid() && sessionId != ""
    requires var found := Lookup(c.gateway.useMock, c.gateway.mockSessions, sessionId, providerRetrieve);
      found.Ok? && found.value.paymentStatus == "paid" && found.value.questionId in c.questions
      && c.questions[found.value.questionId].status == PendingPayment
    modifies c
    ensures var id := Lookup(c.gateway.useMock, c.gateway.mockSessions, sessionId, providerRetrieve).value.questionId;
      && first.Ok? && second == first
      && c.notifications == old(c.notifications) + [Notification(Confirmation, old(c.questions)[id].email, id)]
      && c.questions == old(c.questions)[id := MarkPaid(old(c.questions)[id])]
  {
    first := c.ConfirmPaymentOnce(sessionId, providerRetrieve);
    second := c.ConfirmPaymentOnce(sessionId, providerRetrieve);
  }

  /**
   * An urgent question with the default pricing, paid through the mock
   * gateway and then answered: 9900 cents, due six hours after submission,
   * one confirmation, one answer notification and one logged admin action.
   */
  method UrgentQuestionAnswered(c: Controller, admin: Caller, email: string, title: string, details: string,
                                answer: string, now: int, later: int, questionId: string, suffix: string,
                                frontendUrl: string,
                                providerCreate: CheckoutRequest -> Result<Session, string>,
                                providerRetrieve: string -> Result<Session, string>)
    returns (published: Result<Question, PublishError>)
    requires c.Valid() && c.gateway.useMock && IsAdmin(admin) && admin.id in c.users
    requires email != "" && title != "" && details != "" && answer != ""
    requires questionId !in c.questions
    modifies c, c.gateway
    ensures published.Ok? && questionId in c.questions && c.questions[questionId] == published.value
    ensures published.value.status == Answered && published.value.answerText == Some(answer)
    ensures published.value.answeredAt == Some(later) && published.value.paymentStatus == PaymentSucceeded
    ensures published.value.priceCents == 9900 && published.value.dueDate == now + 6 * SecondsPerHour
    ensures c.notifications == old(c.notifications)
      + [Notification(Confirmation, email, questionId), Notification(AnswerDelivered, email, questionId)]
    ensures c.actions == old(c.actions) + [AdminAction(admin.id, AnswerPublished, questionId, AnswerLength(|answer|), later)]
  {
    var body := SubmitBody(email, title, details, "urgent");
    assert CheckSubmission(body) == Ok(Urgent);
    var submitted, confirmed := SubmitThenConfirm(c, body, None, DefaultEnv, now, questionId, suffix,
                                                  frontendUrl, providerCreate, providerRetrieve);
    published := c.PublishAnswer(admin, questionId, answer, later);
  }

  /**
   * An admin whose token is valid but whose id is no `users` row: the
   * request fails, yet the answer is already stored and the question is
   * `answered`, with no admin action logged and no notification sent.
   */
  method UnregisteredAdminPublishes(c: Controller, admin: Caller, id: string, answer: string, now: int)
    returns (published: Result<Question, PublishError>)
    requires c.Valid() && IsAdmin(admin) && admin.id !in c.users
    requires id in c.questions && answer != ""
    modifies c
    ensures published == Err(PublishFailed)
    ensures id in c.questions && c.questions[id].status == Answered && c.questions[id].answerText == Some(answer)
    ensures c.actions == old(c.actions) && c.notifications == old(c.notifications)
  {
    published := c.PublishAnswer(admin, id, answer, now);
  }
}
